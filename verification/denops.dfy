/**
 * The Denops object the test body receives. Every method is a single RPC
 * call `invoke(<method name>, <argument array>)`; the model returns the
 * `Request` the RPC client is handed instead of performing it.
 */
module Denops {
  import opened Values

  /** A call of one Denops interface method, with its typed arguments. */
  datatype DenopsRequest =
    | RedrawReq(force: Option<bool>)
    | CallReq(fn: string, args: seq<Value>)
    | BatchReq(calls: seq<CallSpec>)
    | CmdReq(cmd: string, ctx: Option<Context>)
    | EvalReq(expr: string, ctx: Option<Context>)
    | DispatchReq(plugin: string, fn: string, args: seq<Value>)

  /** The name the "invoke" envelope carries for each method. */
  function MethodName(r: DenopsRequest): string {
    match r
    case RedrawReq(_) => "redraw"
    case CallReq(_, _) => "call"
    case BatchReq(_) => "batch"
    case CmdReq(_, _) => "cmd"
    case EvalReq(_, _) => "eval"
    case DispatchReq(_, _, _) => "dispatch"
  }

  /** A batch entry as the array `[fn, ...args]`. */
  function EncodeCall(c: CallSpec): Value {
    Arr([Str(c.fn)] + c.args)
  }

  function EncodeCalls(calls: seq<CallSpec>): (vs: seq<Value>)
    ensures |vs| == |calls|
    ensures forall i :: 0 <= i < |calls| ==> vs[i] == EncodeCall(calls[i])
  {
    seq(|calls|, i requires 0 <= i < |calls| => EncodeCall(calls[i]))
  }

  /** The argument array a method sends. */
  function InvokeArgs(r: DenopsRequest): seq<Value> {
    match r
    case RedrawReq(force) => [OptionalBool(force)]
    case CallReq(fn, args) => [Str(fn)] + args
    case BatchReq(calls) => EncodeCalls(calls)
    case CmdReq(cmd, ctx) => [Str(cmd), Obj(ctx.GetOr(map[]))]
    case EvalReq(expr, ctx) => [Str(expr), Obj(ctx.GetOr(map[]))]
    case DispatchReq(plugin, fn, args) => [Str(plugin), Str(fn)] + args
  }

  /** `client.call("invoke", name, args)` for a method call. */
  function Envelope(r: DenopsRequest): (q: Request)
    ensures q.rpcMethod == "invoke" && |q.params| == 2
    ensures q.params[0] == Str(MethodName(r)) && q.params[1].Arr?
  {
    Request("invoke", [Str(MethodName(r)), Arr(InvokeArgs(r))])
  }

  /**
   * The implementation object: name and meta are fixed when it is built,
   * and its dispatcher and context start out empty.
   */
  datatype DenopsImpl = DenopsImpl(
    name: string,
    meta: Meta,
    dispatcher: map<string, seq<Value> -> Outcome<Value>>,
    context: Context)

  function New(name: string, meta: Meta): (d: DenopsImpl)
    ensures d.name == name && d.meta == meta
    ensures d.dispatcher == map[] && d.context == map[]
  {
    DenopsImpl(name, meta, map[], map[])
  }

  /** `redraw(force)`: the optional flag is sent as a one-element array. */
  function Redraw(force: Option<bool>): (q: Request)
    ensures q == Request("invoke", [Str("redraw"), Arr([OptionalBool(force)])])
  {
    Envelope(RedrawReq(force))
  }

  /** `call(fn, ...args)`: the function name heads the argument array. */
  function Call(fn: string, args: seq<Value>): (q: Request)
    ensures q == Request("invoke", [Str("call"), Arr([Str(fn)] + args)])
  {
    Envelope(CallReq(fn, args))
  }

  /** `batch(...calls)`: the list of calls itself is the argument array. */
  function Batch(calls: seq<CallSpec>): (q: Request)
    ensures q.rpcMethod == "invoke" && |q.params| == 2 && q.params[0] == Str("batch")
    ensures q.params[1].Arr? && |q.params[1].items| == |calls|
    ensures forall i :: 0 <= i < |calls| ==> q.params[1].items[i] == Arr([Str(calls[i].fn)] + calls[i].args)
  {
    Envelope(BatchReq(calls))
  }

  /** `cmd(cmd, ctx = {})`. */
  function Cmd(cmd: string, ctx: Option<Context>): (q: Request)
    ensures q == Request("invoke", [Str("cmd"), Arr([Str(cmd), Obj(if ctx.Some? then ctx.value else map[])])])
  {
    Envelope(CmdReq(cmd, Some(ctx.GetOr(map[]))))
  }

  /** `eval(expr, ctx = {})`. */
  function Eval(expr: string, ctx: Option<Context>): (q: Request)
    ensures q == Request("invoke", [Str("eval"), Arr([Str(expr), Obj(if ctx.Some? then ctx.value else map[])])])
  {
    Envelope(EvalReq(expr, Some(ctx.GetOr(map[]))))
  }

  /** `dispatch(name, fn, ...args)`: plugin name, then function name, then the arguments. */
  function Dispatch(plugin: string, fn: string, args: seq<Value>): (q: Request)
    ensures q == Request("invoke", [Str("dispatch"), Arr([Str(plugin), Str(fn)] + args)])
  {
    Envelope(DispatchReq(plugin, fn, args))
  }

  /**
   * How `call` settles once the RPC reply is in: a rejection with a bare
   * string (older hosts send those) becomes an `Error` carrying that
   * string; any other reply passes through unchanged.
   */
  function CallReply(reply: Outcome<Value>): (r: Outcome<Value>)
    ensures reply.Returned? ==> r == reply
    ensures reply.Threw? && reply.error.Raw? && reply.error.value.Str? ==>
              r == Threw(Error(reply.error.value.s, None))
    ensures !(reply.Threw? && reply.error.Raw? && reply.error.value.Str?) ==> r == reply
    ensures !(r.Threw? && r.error.Raw? && r.error.value.Str?)
  {
    match reply
    case Threw(Raw(Str(message))) => Threw(Error(message, None))
    case _ => reply
  }
}
