/**
 * The older runner of the `denops_test` directory. It differs from `Runner`
 * in three ways: the `-c` command pairs come BEFORE the base flags, the Vim
 * base flags stop at `-s` (no `-c visual`), and the verbose flag comes only
 * from the options. The executables are module-level constants read from
 * the environment when the module loads; here they are a parameter.
 */
module LegacyRunner {
  import opened Values
  import opened Runner
  import Conf

  /** The executables the legacy configuration module settles on at load time. */
  datatype Executables = Executables(vim: string, nvim: string)

  /** The legacy `isRunMode`: the same two names as the current one. */
  function LegacyIsRunMode(s: string): (b: bool)
    ensures b <==> ParseRunMode(s).Some?
  {
    match s
    case "vim" => true
    case "nvim" => true
    case _ => false
  }

  function LegacyBaseArgs(mode: RunMode): seq<string> {
    match mode
    case Vim => ["-u", "NONE", "-i", "NONE", "-n", "-N", "-X", "-e", "-s"]
    case Nvim => ["--clean", "--embed", "--headless", "-n"]
  }

  /** `buildArgs` of the legacy runner. */
  function LegacyBuildArgs(exes: Executables, mode: RunMode): (r: (string, seq<string>))
    ensures r.1 == LegacyBaseArgs(mode)
  {
    match mode
    case Vim => (exes.vim, LegacyBaseArgs(Vim))
    case Nvim => (exes.nvim, LegacyBaseArgs(Nvim))
  }

  /** An absent verbose option reads as `false`. */
  function LegacyVerbose(options: RunOptions): bool {
    options.verbose == Some(true)
  }

  /** Where each piece of `prefix + (CommandPairs(cmds) + base)` sits. */
  lemma LegacyArgsLayout(args: seq<string>, prefix: seq<string>, cmds: seq<string>, base: seq<string>)
    requires args == prefix + (CommandPairs(cmds) + base)
    ensures |args| == |prefix| + 2 * |cmds| + |base|
    ensures args[..|prefix|] == prefix
    ensures forall i :: 0 <= i < |cmds| ==>
              args[|prefix| + 2 * i] == "-c" && args[|prefix| + 2 * i + 1] == cmds[i]
    ensures args[|prefix| + 2 * |cmds|..] == base
  {
    var tail := CommandPairs(cmds) + base;
    assert args[..|prefix|] == prefix;
    assert args[|prefix|..] == tail;
    assert args[|prefix| + 2 * |cmds|..] == tail[2 * |cmds|..] == base;
    forall i | 0 <= i < |cmds|
      ensures args[|prefix| + 2 * i] == "-c" && args[|prefix| + 2 * i + 1] == cmds[i]
    {
      LegacyPairAt(args, prefix, cmds, base, i);
    }
  }

  /** The `i`-th command pair of `prefix + (CommandPairs(cmds) + base)`. */
  lemma LegacyPairAt(args: seq<string>, prefix: seq<string>, cmds: seq<string>, base: seq<string>, i: nat)
    requires args == prefix + (CommandPairs(cmds) + base) && i < |cmds|
    ensures args[|prefix| + 2 * i] == "-c" && args[|prefix| + 2 * i + 1] == cmds[i]
  {
    var pairs := CommandPairs(cmds);
    CommandPairsAt(cmds, i);
    assert args[|prefix| + 2 * i] == (pairs + base)[2 * i] == pairs[2 * i];
    assert args[|prefix| + 2 * i + 1] == (pairs + base)[2 * i + 1] == pairs[2 * i + 1];
  }

  /**
   * Legacy `run`: streams follow the verbose option alone and the extra
   * environment is passed through. Where each argument goes is
   * `LegacyRunLayout`.
   */
  function LegacyRun(exes: Executables, mode: RunMode, cmds: seq<string>, options: RunOptions): (s: SpawnSpec)
    ensures s.executable == (if mode == Vim then exes.vim else exes.nvim)
    ensures |s.args| == |VerbosePrefix(LegacyVerbose(options))| + 2 * |cmds| + |LegacyBaseArgs(mode)|
    ensures s.stdin == Piped
    ensures s.stdout == s.stderr == (if LegacyVerbose(options) then Inherit else Discard)
    ensures s.env == options.env
  {
    var verbose := LegacyVerbose(options);
    var built := LegacyBuildArgs(exes, mode);
    var stream := if verbose then Inherit else Discard;
    SpawnSpec(built.0, LegacyRunArgs(verbose, cmds, built.1), options.env, Piped, stream, stream)
  }

  /** The legacy argument list: the commands go in front of the base flags. */
  function LegacyRunArgs(verbose: bool, cmds: seq<string>, base: seq<string>): seq<string> {
    VerbosePrefix(verbose) + (CommandPairs(cmds) + base)
  }

  /**
   * The argument list of the legacy `run`: the verbose pair (only when the
   * option is `true`), then one `-c` pair per command, then the base flags.
   */
  lemma LegacyRunLayout(exes: Executables, mode: RunMode, cmds: seq<string>, options: RunOptions, args: seq<string>)
    requires args == LegacyRun(exes, mode, cmds, options).args
    ensures var prefix := VerbosePrefix(LegacyVerbose(options));
            && args[..|prefix|] == prefix
            && (forall i :: 0 <= i < |cmds| ==>
                  args[|prefix| + 2 * i] == "-c" && args[|prefix| + 2 * i + 1] == cmds[i])
            && args[|prefix| + 2 * |cmds|..] == LegacyBaseArgs(mode)
  {
    var verbose := LegacyVerbose(options);
    assert args == LegacyRunArgs(verbose, cmds, LegacyBaseArgs(mode));
    LegacyArgsLayout(args, VerbosePrefix(verbose), cmds, LegacyBaseArgs(mode));
  }

  /** Reads a legacy argument list back into the verbose flag and the commands. */
  function LegacyParseArgs(mode: RunMode, args: seq<string>): Option<(bool, seq<string>)> {
    var verbose := |args| >= 2 && args[..2] == VerbosePair;
    var rest := if verbose then args[2..] else args;
    var split := SplitCommandPairs(rest);
    if split.1 == LegacyBaseArgs(mode) then Some((verbose, split.0)) else None
  }

  /** Reading back an argument list laid out as the legacy `run` lays it out. */
  lemma LegacyParseArgsOfLayout(mode: RunMode, verbose: bool, cmds: seq<string>)
    ensures LegacyParseArgs(mode, VerbosePrefix(verbose) + (CommandPairs(cmds) + LegacyBaseArgs(mode)))
            == Some((verbose, cmds))
  {
    var base := LegacyBaseArgs(mode);
    var rest := CommandPairs(cmds) + base;
    SplitCommandPairsRoundTrip(cmds, base);
    if verbose {
      var args := VerbosePair + rest;
      assert args[..2] == VerbosePair;
      assert args[2..] == rest;
    } else {
      assert [] + rest == rest;
      assert rest[0] == (if |cmds| > 0 then "-c" else base[0]);
    }
  }

  /** The legacy argument list determines its verbose flag and its commands. */
  lemma LegacyRunArgsRoundTrip(exes: Executables, mode: RunMode, cmds: seq<string>, options: RunOptions)
    ensures LegacyParseArgs(mode, LegacyRun(exes, mode, cmds, options).args)
            == Some((LegacyVerbose(options), cmds))
  {
    LegacyParseArgsOfLayout(mode, LegacyVerbose(options), cmds);
  }

  /**
   * Both runners hand the editor the same commands in the same order; only
   * the placement relative to the base flags differs.
   */
  lemma RunnersAgreeOnCommands(conf: Conf.Config, exes: Executables, mode: RunMode, cmds: seq<string>, options: RunOptions)
    requires options.verbose.Some?
    ensures var current := ParseArgs(mode, Run(conf, mode, cmds, options).args);
            var legacy := LegacyParseArgs(mode, LegacyRun(exes, mode, cmds, options).args);
            current.Some? && legacy.Some? && current.value == legacy.value
  {
    RunArgsRoundTrip(conf, mode, cmds, options);
    LegacyRunArgsRoundTrip(exes, mode, cmds, options);
  }
}
