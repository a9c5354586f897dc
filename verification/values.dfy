/**
 * JavaScript-level values shared by every part of the test harness: the
 * `undefined`-aware `Value` that travels inside RPC arguments, the thrown
 * values that reject a call, and the records of the Denops interface
 * (`Meta`, a batch call tuple, an outbound RPC request).
 */
module Values {

  /** An optional value: a JavaScript property that is either absent or set. */
  datatype Option<+T> = None | Some(value: T) {
    /** The `??` operator: the value when present, the default otherwise. */
    function GetOr(default: T): T {
      match this
      case Some(v) => v
      case None => default
    }
  }

  /**
   * A JSON-like JavaScript value. Numbers are integers here: nothing in the
   * modelled code computes with fractions.
   */
  datatype Value =
    | Undefined
    | Null
    | Bool(b: bool)
    | Num(n: int)
    | Str(s: string)
    | Arr(items: seq<Value>)
    | Obj(fields: map<string, Value>)

  /** A `Record<string, unknown>`, the type of a Denops `Context`. */
  type Context = map<string, Value>

  /** Passes an optional boolean argument as the value JavaScript would see. */
  function OptionalBool(b: Option<bool>): (v: Value)
    ensures v.Undefined? <==> b.None?
    ensures b.Some? ==> v == Bool(b.value)
  {
    match b
    case None => Undefined
    case Some(x) => Bool(x)
  }

  /**
   * A value that was thrown or that rejected a promise. `Error` is a native
   * error object with an optional `cause`; `TypeError` is the runtime's own
   * error for calling something that is not a function; `AssertionFailed`
   * is what a failed runtime type check throws; `NoSuchMethod` is the RPC
   * session's answer to a call of a method its dispatcher does not define;
   * `Raw` is any other thrown value (a bare string, say).
   */
  datatype Thrown =
    | Error(message: string, cause: Option<Thrown>)
    | TypeError(what: string)
    | AssertionFailed
    | NoSuchMethod(name: string)
    | Raw(value: Value)

  /** How a synchronous call or a promise settles: a value or a throw. */
  datatype Outcome<+T> = Returned(value: T) | Threw(error: Thrown)

  /** Environment metadata of a running Denops host. */
  datatype Meta = Meta(mode: string, host: string, version: string, platform: string)

  /** One entry of a `batch`: a function name followed by its arguments. */
  datatype CallSpec = CallSpec(fn: string, args: seq<Value>)

  /** One outbound RPC call as the messagepack-rpc client receives it. */
  datatype Request = Request(rpcMethod: string, params: seq<Value>)

  /** The JavaScript truthiness of an optional string (absent and "" are falsy). */
  predicate Truthy(s: Option<string>) {
    s.Some? && s.value != ""
  }
}
