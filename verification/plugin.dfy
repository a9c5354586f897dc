/**
 * The plugin that runs inside the editor: it reads the harness address,
 * answers the harness's "invoke" calls by validating the argument array and
 * routing it to the local Denops method of the same name, and replaces the
 * local dispatcher with a read-only proxy that forwards every call back to
 * the harness as a "dispatch" request.
 */
module Plugin {
  import opened Values
  import opened Denops
  import Conf

  const AddressVar := "DENOPS_TEST_ADDRESS"
  const MissingAddress := "Environment variable 'DENOPS_TEST_ADDRESS' is not set"
  const ReadOnlyDispatcher := "This dispatcher is for test and read-only"

  /**
   * The address the plugin dials back to; an unset or empty variable throws
   * before any connection is attempted.
   */
  function Address(env: Conf.Env): (r: Outcome<string>)
    ensures r.Returned? <==> AddressVar in env && env[AddressVar] != ""
    ensures r.Returned? ==> r.value == env[AddressVar]
    ensures r.Threw? ==> r.error == Error(MissingAddress, None)
  {
    var addr := Conf.Get(env, AddressVar);
    if !Truthy(addr) then Threw(Error(MissingAddress, None)) else Returned(addr.value)
  }

  // The argument-shape checks, one per Denops method.

  predicate IsRedrawArgs(v: Value) {
    v.Arr? && |v.items| == 1 && (v.items[0].Undefined? || v.items[0].Bool?)
  }

  predicate IsCallArgs(v: Value) {
    v.Arr? && |v.items| > 0 && v.items[0].Str?
  }

  predicate IsBatchArgs(v: Value) {
    v.Arr? && forall i :: 0 <= i < |v.items| ==> IsCallArgs(v.items[i])
  }

  /** `cmd` and `eval` share this shape: a string and an optional record. */
  predicate IsCmdArgs(v: Value) {
    v.Arr? && |v.items| == 2 && v.items[0].Str? && (v.items[1].Undefined? || v.items[1].Obj?)
  }

  predicate IsEvalArgs(v: Value) {
    IsCmdArgs(v)
  }

  predicate IsDispatchArgs(v: Value) {
    v.Arr? && |v.items| >= 2 && v.items[0].Str? && v.items[1].Str?
  }

  predicate IsKnownMethod(name: string) {
    name in {"redraw", "call", "batch", "cmd", "eval", "dispatch"}
  }

  /** Whether the check of method `name` accepts the argument array. */
  predicate Accepts(name: string, args: seq<Value>) {
    match name
    case "redraw" => IsRedrawArgs(Arr(args))
    case "call" => IsCallArgs(Arr(args))
    case "batch" => IsBatchArgs(Arr(args))
    case "cmd" => IsCmdArgs(Arr(args))
    case "eval" => IsEvalArgs(Arr(args))
    case "dispatch" => IsDispatchArgs(Arr(args))
    case _ => false
  }

  function DecodeCall(v: Value): CallSpec
    requires IsCallArgs(v)
  {
    CallSpec(v.items[0].s, v.items[1..])
  }

  function DecodeContext(v: Value): Option<Context> {
    if v.Obj? then Some(v.fields) else None
  }

  /**
   * `invoke`: route a method name and its argument array to the local
   * Denops method of that name, after its shape check; the method is
   * called only when the check passes.
   */
  function Invoke(name: string, args: seq<Value>): (r: Outcome<DenopsRequest>)
    ensures r.Returned? <==> Accepts(name, args)
    ensures r.Returned? ==> MethodName(r.value) == name
    ensures IsKnownMethod(name) && !Accepts(name, args) ==> r == Threw(AssertionFailed)
    ensures !IsKnownMethod(name) ==>
              r == Threw(Error("Unknown denops method '" + name + "' is specified", None))
  {
    var v := Arr(args);
    match name
    case "redraw" =>
      if !IsRedrawArgs(v) then Threw(AssertionFailed)
      else Returned(RedrawReq(if args[0].Bool? then Some(args[0].b) else None))
    case "call" =>
      if !IsCallArgs(v) then Threw(AssertionFailed)
      else Returned(CallReq(args[0].s, args[1..]))
    case "batch" =>
      if !IsBatchArgs(v) then Threw(AssertionFailed)
      else Returned(BatchReq(seq(|args|, i requires 0 <= i < |args| && IsCallArgs(args[i]) => DecodeCall(args[i]))))
    case "cmd" =>
      if !IsCmdArgs(v) then Threw(AssertionFailed)
      else Returned(CmdReq(args[0].s, DecodeContext(args[1])))
    case "eval" =>
      if !IsEvalArgs(v) then Threw(AssertionFailed)
      else Returned(EvalReq(args[0].s, DecodeContext(args[1])))
    case "dispatch" =>
      if !IsDispatchArgs(v) then Threw(AssertionFailed)
      else Returned(DispatchReq(args[0].s, args[1].s, args[2..]))
    case _ =>
      Threw(Error("Unknown denops method '" + name + "' is specified", None))
  }

  /** An `invoke` request whose name is a string and whose arguments are an array. */
  predicate WellFormedInvoke(q: Request) {
    q.rpcMethod == "invoke" && |q.params| >= 2 && q.params[0].Str? && q.params[1].Arr?
  }

  /**
   * The plugin session's dispatcher: its only entry is `invoke`, which
   * needs a string method name and an argument array; a well-formed call
   * is routed by name, so an unknown name gets `Invoke`'s error.
   */
  function SessionDispatch(q: Request): (r: Outcome<DenopsRequest>)
    ensures q.rpcMethod != "invoke" ==> r == Threw(NoSuchMethod(q.rpcMethod))
    ensures q.rpcMethod == "invoke" && !WellFormedInvoke(q) ==> r == Threw(AssertionFailed)
    ensures WellFormedInvoke(q) ==> r == Invoke(q.params[0].s, q.params[1].items)
    ensures r.Returned? ==> q.rpcMethod == "invoke" && |q.params| >= 2
                            && q.params[0] == Str(MethodName(r.value)) && q.params[1].Arr?
  {
    if q.rpcMethod != "invoke" then Threw(NoSuchMethod(q.rpcMethod))
    else
      var name := if |q.params| > 0 then q.params[0] else Undefined;
      var args := if |q.params| > 1 then q.params[1] else Undefined;
      if !name.Str? || !args.Arr? then Threw(AssertionFailed)
      else Invoke(name.s, args.items)
  }

  /** Requests the facade can build: `cmd` and `eval` always carry a context. */
  predicate FacadeShaped(r: DenopsRequest) {
    (r.CmdReq? || r.EvalReq?) ==> r.ctx.Some?
  }

  /** Every argument array the facade sends passes the matching check. */
  lemma FacadeArgsAccepted(r: DenopsRequest)
    ensures Accepts(MethodName(r), InvokeArgs(r))
  {
    match r
    case BatchReq(calls) =>
      var vs := EncodeCalls(calls);
      forall i | 0 <= i < |vs| ensures IsCallArgs(vs[i]) {
        assert vs[i] == Arr([Str(calls[i].fn)] + calls[i].args);
      }
    case CallReq(fn, args) =>
      assert InvokeArgs(r)[0] == Str(fn);
    case DispatchReq(plugin, fn, args) =>
      assert InvokeArgs(r)[0] == Str(plugin) && InvokeArgs(r)[1] == Str(fn);
    case _ =>
  }

  /**
   * The wire contract between the two ends: what the facade sends, the
   * plugin's session routes back to the very same method call.
   */
  lemma EnvelopeRoundTrip(r: DenopsRequest)
    requires FacadeShaped(r)
    ensures SessionDispatch(Envelope(r)) == Returned(r)
  {
    FacadeArgsAccepted(r);
    var args := InvokeArgs(r);
    match r
    case RedrawReq(force) =>
    case CallReq(fn, a) =>
      assert args[1..] == a;
    case BatchReq(calls) =>
      var decoded := seq(|args|, i requires 0 <= i < |args| && IsCallArgs(args[i]) => DecodeCall(args[i]));
      assert |decoded| == |calls|;
      forall i | 0 <= i < |calls| ensures decoded[i] == calls[i] {
        assert args[i] == Arr([Str(calls[i].fn)] + calls[i].args);
        assert args[i].items[1..] == calls[i].args;
      }
      assert decoded == calls;
    case CmdReq(c, ctx) =>
    case EvalReq(e, ctx) =>
    case DispatchReq(plugin, fn, a) =>
      assert args[2..] == a;
  }

  /**
   * The converse: whatever the plugin accepts is exactly what the facade
   * would have sent for the routed call, except that an absent context of
   * `cmd`/`eval` is sent as `{}`.
   */
  lemma AcceptedArgsReencode(name: string, args: seq<Value>)
    requires Invoke(name, args).Returned?
    requires !((name == "cmd" || name == "eval") && args[1].Undefined?)
    ensures InvokeArgs(Invoke(name, args).value) == args
  {
    var r := Invoke(name, args).value;
    match r
    case RedrawReq(force) =>
    case CallReq(fn, a) =>
      assert [args[0]] + args[1..] == args;
    case BatchReq(calls) =>
      var vs := EncodeCalls(calls);
      forall i | 0 <= i < |args| ensures vs[i] == args[i] {
        assert IsCallArgs(args[i]);
        assert [args[i].items[0]] + args[i].items[1..] == args[i].items;
      }
      assert vs == args;
    case CmdReq(c, ctx) =>
    case EvalReq(e, ctx) =>
    case DispatchReq(plugin, fn, a) =>
      assert [args[0], args[1]] + args[2..] == args;
  }

  /**
   * `redraw()` without a flag sends `[undefined]`, which the plugin routes
   * back to the same call. Delivered as `[null]`, as a codec that writes
   * `undefined` as nil does, the same call fails the plugin's check.
   */
  lemma RedrawWithoutFlagNeedsUndefined()
    ensures SessionDispatch(Envelope(RedrawReq(None))) == Returned(RedrawReq(None))
    ensures SessionDispatch(Request("invoke", [Str("redraw"), Arr([Null])])) == Threw(AssertionFailed)
  {
    EnvelopeRoundTrip(RedrawReq(None));
  }

  /** The edge cases the checks are known for. */
  lemma CheckEdgeCases()
    ensures !IsCallArgs(Arr([]))
    ensures IsBatchArgs(Arr([]))
    ensures !IsDispatchArgs(Arr([Str("plugin")]))
    ensures !IsRedrawArgs(Arr([]))
    ensures IsCmdArgs(Arr([Str("echo"), Undefined])) && !IsCmdArgs(Arr([Str("echo"), Null]))
  {
  }

  /** What the plugin's read-only dispatcher proxy is asked to do. */
  datatype DispatcherAccess =
    | Read(key: string, args: seq<Value>)
    | Write(key: string)
    | Delete(key: string)

  /**
   * The proxy installed as the local dispatcher: reading any key gives a
   * forwarder whose call becomes a "dispatch" request carrying the key and
   * all arguments packed in one array; writing or deleting throws.
   */
  function ProxyAccess(a: DispatcherAccess): (r: Outcome<Request>)
    ensures a.Read? ==> r == Returned(Request("dispatch", [Str(a.key), Arr(a.args)]))
    ensures !a.Read? ==> r == Threw(Error(ReadOnlyDispatcher, None))
  {
    match a
    case Read(key, args) => Returned(Request("dispatch", [Str(key), Arr(args)]))
    case _ => Threw(Error(ReadOnlyDispatcher, None))
  }
}
