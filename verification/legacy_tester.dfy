/**
 * The older `test` of the `denops_test` directory. It registers tests the
 * same way as `Tester`, except that a concrete-mode registration forwards
 * only the verbose flag, the prelude and the postlude to `withDenops`: the
 * plugin name is never passed on.
 */
module LegacyTester {
  import opened Values
  import Runner
  import With
  import opened Tester

  function LegacyForwarded(def: TestDefinition): With.WithOptions {
    With.WithOptions(None, def.verbose, def.prelude, def.postlude, None)
  }

  /** Legacy `testInternal`. */
  function LegacyTestInternal(def: TestDefinition, pick: Runner.RunMode): (regs: seq<Registration>)
    ensures def.mode == All ==>
              && |regs| == 2
              && regs[0].mode == Runner.Vim && regs[0].name == Suffixed(def.name, Runner.Vim)
              && regs[1].mode == Runner.Nvim && regs[1].name == Suffixed(def.name, Runner.Nvim)
    ensures def.mode == Any ==>
              |regs| == 1 && regs[0].mode == pick && regs[0].name == Suffixed(def.name, pick)
    ensures def.mode.Run? ==>
              |regs| == 1 && regs[0].mode == def.mode.mode && regs[0].name == def.name
    ensures forall i :: 0 <= i < |regs| ==>
              && regs[i].fn == def.fn
              && regs[i].options.pluginName.None?
              && regs[i].options == LegacyForwarded(def)
              && regs[i].rest == def.rest
    decreases ModeRank(def.mode)
  {
    match def.mode
    case All =>
      LegacyTestInternal(def.(name := Suffixed(def.name, Runner.Vim), mode := Run(Runner.Vim)), pick)
      + LegacyTestInternal(def.(name := Suffixed(def.name, Runner.Nvim), mode := Run(Runner.Nvim)), pick)
    case Any =>
      LegacyTestInternal(def.(name := Suffixed(def.name, pick), mode := Run(pick)), pick)
    case Run(mode) =>
      [Registration(def.name, mode, def.fn, LegacyForwarded(def), def.rest)]
  }

  /** Legacy `test`: the same checks, in the same order, as the current one. */
  function LegacyTest(args: TestArgs, pick: Runner.RunMode): (r: Outcome<seq<Registration>>)
    ensures args.Positional? && !Truthy(args.name) ==> r == Threw(Error(NameRequired, None))
    ensures args.Positional? && Truthy(args.name) && args.fn.None? ==> r == Threw(Error(FnRequired, None))
    ensures args.Definition? ==> r == Returned(LegacyTestInternal(args.def, pick))
  {
    match args
    case Positional(mode, name, fn) =>
      if !Truthy(name) then Threw(Error(NameRequired, None))
      else if fn.None? then Threw(Error(FnRequired, None))
      else Returned(LegacyTestInternal(AsDefinition(args), pick))
    case Definition(def) => Returned(LegacyTestInternal(def, pick))
  }

  /**
   * The legacy registrations are the current ones for the same definition
   * with its plugin name dropped.
   */
  lemma {:induction false} LegacyIsCurrentWithoutPluginName(def: TestDefinition, pick: Runner.RunMode)
    ensures LegacyTestInternal(def, pick) == TestInternal(def.(pluginName := None), pick)
    decreases ModeRank(def.mode)
  {
    match def.mode
    case All =>
      LegacyIsCurrentWithoutPluginName(def.(name := Suffixed(def.name, Runner.Vim), mode := Run(Runner.Vim)), pick);
      LegacyIsCurrentWithoutPluginName(def.(name := Suffixed(def.name, Runner.Nvim), mode := Run(Runner.Nvim)), pick);
    case Any =>
      LegacyIsCurrentWithoutPluginName(def.(name := Suffixed(def.name, pick), mode := Run(pick)), pick);
    case Run(mode) =>
  }

  /** Both versions answer every call of `test` alike when no plugin name is given. */
  lemma LegacyTestAgrees(args: TestArgs, pick: Runner.RunMode)
    requires args.Definition? ==> args.def.pluginName.None?
    ensures LegacyTest(args, pick) == Test(args, pick)
  {
    var def := AsDefinition(args);
    assert def.(pluginName := None) == def;
    LegacyIsCurrentWithoutPluginName(def, pick);
  }
}
