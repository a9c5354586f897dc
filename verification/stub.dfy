/**
 * The stand-in Denops object for unit tests that need no editor. Each
 * method answers from the matching stubber function when one is given,
 * otherwise (for `batch`, `cmd` and `eval`) from the `call` stub when the
 * stubber asks for that, otherwise with `undefined`. Stubber functions are
 * pure here; every answer also lists the stubber calls it made, in order,
 * as the Denops method calls they amount to.
 */
module Stub {
  import opened Values
  import opened Denops
  import Plugin

  /** A stubber: every member is optional. */
  datatype Stubber = Stubber(
    name: Option<string>,
    meta: Option<Meta>,
    redraw: Option<Option<bool> -> Value>,
    call: Option<(string, seq<Value>) -> Value>,
    batch: Option<seq<CallSpec> -> seq<Value>>,
    cmd: Option<(string, Context) -> Value>,
    eval: Option<(string, Context) -> Value>,
    dispatch: Option<(string, string, seq<Value>) -> Value>,
    useCallInBatch: bool,
    useCallInCmd: bool,
    useCallInEval: bool)

  /** The empty stubber `{}`. */
  const EmptyStubber := Stubber(None, None, None, None, None, None, None, None, false, false, false)

  /** An answer of the stub together with the stubber calls that produced it. */
  datatype Reply<T> = Reply(value: T, invoked: seq<DenopsRequest>)

  const DefaultName := "denops-test-stub"
  const DefaultMeta := Meta("release", "vim", "0.0.0", "linux")

  function Name(st: Stubber): (n: string)
    ensures st.name.Some? ==> n == st.name.value
    ensures st.name.None? ==> n == DefaultName
  {
    st.name.GetOr(DefaultName)
  }

  function GetMeta(st: Stubber): (m: Meta)
    ensures st.meta.Some? ==> m == st.meta.value
    ensures st.meta.None? ==> m == DefaultMeta
  {
    st.meta.GetOr(DefaultMeta)
  }

  /**
   * `normArgs`: the arguments up to, not including, the first `undefined`.
   * The three ensures together pin the result down (see `NormArgsUnique`).
   */
  function NormArgs(args: seq<Value>): (r: seq<Value>)
    ensures r <= args
    ensures forall i :: 0 <= i < |r| ==> !r[i].Undefined?
    ensures |r| < |args| ==> args[|r|].Undefined?
  {
    if |args| == 0 || args[0].Undefined? then []
    else [args[0]] + NormArgs(args[1..])
  }

  /** Any prefix that stops exactly at the first `undefined` is `NormArgs`. */
  lemma NormArgsUnique(args: seq<Value>, p: seq<Value>)
    requires p <= args
    requires forall i :: 0 <= i < |p| ==> !p[i].Undefined?
    requires |p| < |args| ==> args[|p|].Undefined?
    ensures p == NormArgs(args)
  {
  }

  /** Arguments without `undefined` pass unchanged. */
  lemma {:induction false} NormArgsKeepsDefined(args: seq<Value>)
    requires forall i :: 0 <= i < |args| ==> !args[i].Undefined?
    ensures NormArgs(args) == args
    decreases |args|
  {
    if |args| > 0 {
      NormArgsKeepsDefined(args[1..]);
      assert [args[0]] + args[1..] == args;
    }
  }

  /** Normalising twice is normalising once. */
  lemma NormArgsIdempotent(args: seq<Value>)
    ensures NormArgs(NormArgs(args)) == NormArgs(args)
  {
    NormArgsKeepsDefined(NormArgs(args));
  }

  /** `redraw`: the stub is handed the flag as given. */
  function Redraw(st: Stubber, force: Option<bool>): (r: Reply<Value>)
    ensures st.redraw.None? ==> r == Reply(Undefined, [])
    ensures st.redraw.Some? ==> r == Reply(st.redraw.value(force), [RedrawReq(force)])
  {
    match st.redraw
    case None => Reply(Undefined, [])
    case Some(f) => Reply(f(force), [RedrawReq(force)])
  }

  /** `call`: the stub is handed the normalised arguments. */
  function Call(st: Stubber, fn: string, args: seq<Value>): (r: Reply<Value>)
    ensures st.call.None? ==> r == Reply(Undefined, [])
    ensures st.call.Some? ==>
              && r.invoked == [CallReq(fn, NormArgs(args))]
              && r.value == st.call.value(fn, NormArgs(args))
  {
    match st.call
    case None => Reply(Undefined, [])
    case Some(f) => Reply(f(fn, NormArgs(args)), [CallReq(fn, NormArgs(args))])
  }

  function NormCall(c: CallSpec): CallSpec {
    CallSpec(c.fn, NormArgs(c.args))
  }

  /**
   * `batch`: the batch stub, given the calls with normalised arguments,
   * wins; otherwise, with a `call` stub and `useCallInBatch`, every entry is
   * answered by `Call` in order; otherwise every entry reads `undefined`.
   */
  function Batch(st: Stubber, calls: seq<CallSpec>): (r: Reply<seq<Value>>)
    ensures st.batch.Some? ==>
              && |r.invoked| == 1 && r.invoked[0].BatchReq?
              && |r.invoked[0].calls| == |calls|
              && (forall i :: 0 <= i < |calls| ==>
                    r.invoked[0].calls[i] == CallSpec(calls[i].fn, NormArgs(calls[i].args)))
              && r.value == st.batch.value(r.invoked[0].calls)
    ensures st.batch.None? && st.call.Some? && st.useCallInBatch ==>
              && |r.value| == |calls| && |r.invoked| == |calls|
              && (forall i :: 0 <= i < |calls| ==>
                    r.value[i] == Call(st, calls[i].fn, calls[i].args).value
                    && [r.invoked[i]] == Call(st, calls[i].fn, calls[i].args).invoked)
    ensures st.batch.None? && !(st.call.Some? && st.useCallInBatch) ==>
              && |r.value| == |calls| && r.invoked == []
              && forall i :: 0 <= i < |calls| ==> r.value[i].Undefined?
  {
    if st.batch.Some? then
      var normed := seq(|calls|, i requires 0 <= i < |calls| => NormCall(calls[i]));
      Reply(st.batch.value(normed), [BatchReq(normed)])
    else if st.call.Some? && st.useCallInBatch then
      Reply(seq(|calls|, i requires 0 <= i < |calls| => Call(st, calls[i].fn, calls[i].args).value),
            seq(|calls|, i requires 0 <= i < |calls| => CallReq(calls[i].fn, NormArgs(calls[i].args))))
    else
      Reply(seq(|calls|, i requires 0 <= i < |calls| => Undefined), [])
  }

  const CmdApi := "denops#api#cmd"
  const EvalApi := "denops#api#eval"

  /**
   * `cmd(cmd, ctx = {})`: the cmd stub wins; otherwise, with a `call` stub
   * and `useCallInCmd`, the command goes through `call("denops#api#cmd",
   * cmd, ctx)` and its answer is dropped; otherwise `undefined`.
   */
  function Cmd(st: Stubber, cmd: string, ctx: Option<Context>): (r: Reply<Value>)
    ensures var c := if ctx.Some? then ctx.value else map[];
            && (st.cmd.Some? ==> r == Reply(st.cmd.value(cmd, c), [CmdReq(cmd, Some(c))]))
            && (st.cmd.None? && st.call.Some? && st.useCallInCmd ==>
                  r == Reply(Undefined, Call(st, CmdApi, [Str(cmd), Obj(c)]).invoked))
            && (st.cmd.None? && !(st.call.Some? && st.useCallInCmd) ==> r == Reply(Undefined, []))
  {
    var c := ctx.GetOr(map[]);
    if st.cmd.Some? then Reply(st.cmd.value(cmd, c), [CmdReq(cmd, Some(c))])
    else if st.call.Some? && st.useCallInCmd then
      var forwarded := Call(st, CmdApi, [Str(cmd), Obj(c)]);
      Reply(Undefined, forwarded.invoked)
    else Reply(Undefined, [])
  }

  /**
   * `eval(expr, ctx = {})`: like `cmd`, through `denops#api#eval`, but the
   * answer of the `call` stub is kept.
   */
  function Eval(st: Stubber, expr: string, ctx: Option<Context>): (r: Reply<Value>)
    ensures var c := if ctx.Some? then ctx.value else map[];
            && (st.eval.Some? ==> r == Reply(st.eval.value(expr, c), [EvalReq(expr, Some(c))]))
            && (st.eval.None? && st.call.Some? && st.useCallInEval ==>
                  r == Call(st, EvalApi, [Str(expr), Obj(c)]))
            && (st.eval.None? && !(st.call.Some? && st.useCallInEval) ==> r == Reply(Undefined, []))
  {
    var c := ctx.GetOr(map[]);
    if st.eval.Some? then Reply(st.eval.value(expr, c), [EvalReq(expr, Some(c))])
    else if st.call.Some? && st.useCallInEval then Call(st, EvalApi, [Str(expr), Obj(c)])
    else Reply(Undefined, [])
  }

  /** `dispatch`: the stub is handed the arguments as given. */
  function Dispatch(st: Stubber, plugin: string, fn: string, args: seq<Value>): (r: Reply<Value>)
    ensures st.dispatch.None? ==> r == Reply(Undefined, [])
    ensures st.dispatch.Some? ==>
              r == Reply(st.dispatch.value(plugin, fn, args), [DispatchReq(plugin, fn, args)])
  {
    match st.dispatch
    case None => Reply(Undefined, [])
    case Some(f) => Reply(f(plugin, fn, args), [DispatchReq(plugin, fn, args)])
  }

  /**
   * A command forwarded through `call` reaches the `call` stub as the
   * two-element argument list `[cmd, ctx]` (neither is `undefined`).
   */
  lemma CmdThroughCall(st: Stubber, cmd: string, ctx: Option<Context>)
    requires st.cmd.None? && st.call.Some? && st.useCallInCmd
    ensures Cmd(st, cmd, ctx).invoked == [CallReq(CmdApi, [Str(cmd), Obj(ctx.GetOr(map[]))])]
  {
    NormArgsKeepsDefined([Str(cmd), Obj(ctx.GetOr(map[]))]);
  }

  /** Likewise for an expression forwarded through `call`. */
  lemma EvalThroughCall(st: Stubber, expr: string, ctx: Option<Context>)
    requires st.eval.None? && st.call.Some? && st.useCallInEval
    ensures var args := [Str(expr), Obj(ctx.GetOr(map[]))];
            Eval(st, expr, ctx) == Reply(st.call.value(EvalApi, args), [CallReq(EvalApi, args)])
  {
    NormArgsKeepsDefined([Str(expr), Obj(ctx.GetOr(map[]))]);
  }

  /**
   * Whichever way `batch` answers, it answers once per call; and a batch
   * answered through `call` makes the same stubber calls as calling each
   * entry on its own, in order.
   */
  lemma BatchOneAnswerPerCall(st: Stubber, calls: seq<CallSpec>)
    requires st.batch.None?
    ensures |Batch(st, calls).value| == |calls|
    ensures st.call.Some? && st.useCallInBatch ==>
              Batch(st, calls).invoked == CallTrace(st, calls)
  {
    if st.call.Some? && st.useCallInBatch {
      BatchTraceIsCallTrace(st, calls);
    }
  }

  /** The stubber calls of calling each entry on its own, one after another. */
  function CallTrace(st: Stubber, calls: seq<CallSpec>): seq<DenopsRequest> {
    if |calls| == 0 then []
    else Call(st, calls[0].fn, calls[0].args).invoked + CallTrace(st, calls[1..])
  }

  lemma {:induction false} BatchTraceIsCallTrace(st: Stubber, calls: seq<CallSpec>)
    requires st.batch.None? && st.call.Some? && st.useCallInBatch
    ensures Batch(st, calls).invoked == CallTrace(st, calls)
    decreases |calls|
  {
    var trace := Batch(st, calls).invoked;
    if |calls| > 0 {
      BatchTraceIsCallTrace(st, calls[1..]);
      var rest := Batch(st, calls[1..]).invoked;
      assert trace[1..] == rest by {
        forall i | 0 <= i < |rest| ensures trace[1..][i] == rest[i] {
          assert calls[1..][i] == calls[i + 1];
        }
      }
      assert trace == [trace[0]] + trace[1..];
    }
  }

  /** The empty stubber answers every method with `undefined` and calls nothing. */
  lemma EmptyStubberDefaults(force: Option<bool>, fn: string, args: seq<Value>, calls: seq<CallSpec>, text: string)
    ensures Name(EmptyStubber) == "denops-test-stub"
    ensures GetMeta(EmptyStubber) == Meta("release", "vim", "0.0.0", "linux")
    ensures Redraw(EmptyStubber, force) == Reply(Undefined, [])
    ensures Call(EmptyStubber, fn, args) == Reply(Undefined, [])
    ensures Batch(EmptyStubber, calls).value == seq(|calls|, i => Undefined)
    ensures Cmd(EmptyStubber, text, None) == Reply(Undefined, [])
    ensures Eval(EmptyStubber, text, None) == Reply(Undefined, [])
    ensures Dispatch(EmptyStubber, text, fn, args) == Reply(Undefined, [])
  {
  }

  /**
   * The stub's `redraw` records the very request the plugin routes when the
   * real Denops object sends `redraw` with the same flag.
   */
  lemma RedrawMatchesFacade(st: Stubber, force: Option<bool>)
    ensures st.redraw.Some? ==>
              Plugin.SessionDispatch(Denops.Redraw(force)) == Returned(Redraw(st, force).invoked[0])
  {
    Plugin.EnvelopeRoundTrip(RedrawReq(force));
  }

  /**
   * The stub's `dispatch` records the very request the plugin routes when
   * the real Denops object sends `dispatch` with the same arguments.
   */
  lemma DispatchMatchesFacade(st: Stubber, plugin: string, fn: string, args: seq<Value>)
    ensures st.dispatch.Some? ==>
              Plugin.SessionDispatch(Denops.Dispatch(plugin, fn, args))
              == Returned(Dispatch(st, plugin, fn, args).invoked[0])
  {
    Plugin.EnvelopeRoundTrip(DispatchReq(plugin, fn, args));
  }

  /**
   * Unlike `call`, `dispatch` does not normalise its arguments: an
   * `undefined` at position `k` reaches the dispatch stub, while the call
   * stub sees the arguments cut off before it.
   */
  lemma DispatchKeepsUndefined(st: Stubber, plugin: string, fn: string, args: seq<Value>, k: nat)
    requires k < |args| && args[k].Undefined?
    ensures st.dispatch.Some? ==> Dispatch(st, plugin, fn, args).invoked[0].args == args
    ensures st.call.Some? ==> |Call(st, fn, args).invoked[0].args| <= k
  {
  }
}
