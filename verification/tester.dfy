/**
 * `test`: register editor-backed tests with the test runner. A test for
 * "all" modes becomes one registration per editor, a test for "any" mode
 * one registration for an editor picked at random (the pick is a
 * parameter), and a test for a concrete editor one registration whose body
 * runs inside `withDenops`. The model returns the registrations in order.
 */
module Tester {
  import opened Values
  import Runner
  import With

  datatype TestMode = Run(mode: Runner.RunMode) | Any | All

  /**
   * A test definition. The test body is identified by an opaque number;
   * `rest` holds the remaining test-runner fields, which are passed on
   * untouched.
   */
  datatype TestDefinition = TestDefinition(
    name: string,
    mode: TestMode,
    fn: nat,
    pluginName: Option<string>,
    verbose: Option<bool>,
    prelude: Option<seq<string>>,
    postlude: Option<seq<string>>,
    rest: map<string, Value>)

  /** One test handed to the test runner: its body runs `withDenops(mode, fn, options)`. */
  datatype Registration = Registration(
    name: string,
    mode: Runner.RunMode,
    fn: nat,
    options: With.WithOptions,
    rest: map<string, Value>)

  /** The two ways of calling `test`. */
  datatype TestArgs =
    | Positional(mode: TestMode, name: Option<string>, fn: Option<nat>)
    | Definition(def: TestDefinition)

  const NameRequired := "'name' attribute is required"
  const FnRequired := "'fn' attribute is required"

  function ModeRank(mode: TestMode): nat {
    match mode
    case All => 2
    case Any => 1
    case Run(_) => 0
  }

  /** The options a concrete-mode registration forwards to `withDenops`. */
  function Forwarded(def: TestDefinition): With.WithOptions {
    With.WithOptions(def.pluginName, def.verbose, def.prelude, def.postlude, None)
  }

  /** The name a test gets when it is run in `mode` on behalf of "all" or "any". */
  function Suffixed(name: string, mode: Runner.RunMode): string {
    name + " (" + Runner.ModeName(mode) + ")"
  }

  /**
   * `testInternal`: "all" gives a Vim and then a Neovim registration, "any"
   * gives one registration for `pick`, each named after its editor; a
   * concrete mode gives one registration under the test's own name. Every
   * registration keeps the body, the forwarded options and the other
   * fields of the definition.
   */
  function TestInternal(def: TestDefinition, pick: Runner.RunMode): (regs: seq<Registration>)
    ensures def.mode == All ==>
              && |regs| == 2
              && regs[0].mode == Runner.Vim && regs[0].name == Suffixed(def.name, Runner.Vim)
              && regs[1].mode == Runner.Nvim && regs[1].name == Suffixed(def.name, Runner.Nvim)
    ensures def.mode == Any ==>
              |regs| == 1 && regs[0].mode == pick && regs[0].name == Suffixed(def.name, pick)
    ensures def.mode.Run? ==>
              |regs| == 1 && regs[0].mode == def.mode.mode && regs[0].name == def.name
    ensures forall i :: 0 <= i < |regs| ==>
              && regs[i].fn == def.fn
              && regs[i].options == Forwarded(def)
              && regs[i].rest == def.rest
    decreases ModeRank(def.mode)
  {
    match def.mode
    case All =>
      TestInternal(def.(name := Suffixed(def.name, Runner.Vim), mode := Run(Runner.Vim)), pick)
      + TestInternal(def.(name := Suffixed(def.name, Runner.Nvim), mode := Run(Runner.Nvim)), pick)
    case Any =>
      TestInternal(def.(name := Suffixed(def.name, pick), mode := Run(pick)), pick)
    case Run(mode) =>
      [Registration(def.name, mode, def.fn, Forwarded(def), def.rest)]
  }

  /**
   * `test`: the positional form needs a non-empty name and then a body;
   * the definition form is registered as it is.
   */
  function Test(args: TestArgs, pick: Runner.RunMode): (r: Outcome<seq<Registration>>)
    ensures args.Positional? && !Truthy(args.name) ==> r == Threw(Error(NameRequired, None))
    ensures args.Positional? && Truthy(args.name) && args.fn.None? ==> r == Threw(Error(FnRequired, None))
    ensures args.Definition? ==> r == Returned(TestInternal(args.def, pick))
    ensures r.Returned? ==> |r.value| == (if AsDefinition(args).mode == All then 2 else 1)
  {
    match args
    case Positional(mode, name, fn) =>
      if !Truthy(name) then Threw(Error(NameRequired, None))
      else if fn.None? then Threw(Error(FnRequired, None))
      else Returned(TestInternal(AsDefinition(args), pick))
    case Definition(def) => Returned(TestInternal(def, pick))
  }

  /** The definition the positional form amounts to. */
  function AsDefinition(args: TestArgs): TestDefinition {
    match args
    case Positional(mode, name, fn) =>
      TestDefinition(name.GetOr(""), mode, fn.GetOr(0), None, None, None, None, map[])
    case Definition(def) => def
  }

  /**
   * The positional form with a name and a body registers exactly what the
   * definition form with only those three fields registers.
   */
  lemma PositionalIsDefinition(mode: TestMode, name: string, fn: nat, pick: Runner.RunMode)
    requires name != ""
    ensures Test(Positional(mode, Some(name), Some(fn)), pick)
            == Test(Definition(TestDefinition(name, mode, fn, None, None, None, None, map[])), pick)
  {
  }

  /** Test names of "all" registrations tell the two editors apart. */
  lemma AllNamesDistinct(def: TestDefinition, pick: Runner.RunMode)
    requires def.mode == All
    ensures TestInternal(def, pick)[0].name != TestInternal(def, pick)[1].name
  {
    var n := |def.name| + 2;
    assert Suffixed(def.name, Runner.Vim)[n] == 'v';
    assert Suffixed(def.name, Runner.Nvim)[n] == 'n';
  }
}
