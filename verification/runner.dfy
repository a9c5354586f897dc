/**
 * The argument vector and standard-stream setup of the editor process the
 * harness spawns. The spawn itself is left out: `Run` returns the command
 * description that would be handed to the process API.
 */
module Runner {
  import opened Values
  import Conf

  datatype RunMode = Vim | Nvim

  /** The mode's name as the harness spells it. */
  function ModeName(mode: RunMode): (s: string)
    ensures ParseRunMode(s) == Some(mode)
  {
    match mode
    case Vim => "vim"
    case Nvim => "nvim"
  }

  /** `isRunMode`: only the two literal mode names are run modes. */
  function ParseRunMode(s: string): (r: Option<RunMode>)
    ensures r.Some? <==> s == "vim" || s == "nvim"
  {
    if s == "vim" then Some(Vim) else if s == "nvim" then Some(Nvim) else None
  }

  /** How a standard stream of the child is connected. */
  datatype Stdio = Piped | Inherit | Discard

  /** Everything the process API is given to spawn the editor. */
  datatype SpawnSpec = SpawnSpec(
    executable: string,
    args: seq<string>,
    env: Option<map<string, string>>,
    stdin: Stdio,
    stdout: Stdio,
    stderr: Stdio)

  /** The options `run` accepts: an optional verbose flag and extra environment. */
  datatype RunOptions = RunOptions(verbose: Option<bool>, env: Option<map<string, string>>)

  /** The pair that redirects the editor's messages to standard output. */
  const VerbosePair: seq<string> := ["--cmd", "redir >> /dev/stdout"]

  /** The fixed flags of each mode, before any command. */
  function BaseArgs(mode: RunMode): seq<string> {
    match mode
    case Vim => ["-u", "NONE", "-i", "NONE", "-n", "-N", "-X", "-e", "-s", "-c", "visual"]
    case Nvim => ["--clean", "--embed", "--headless", "-n"]
  }

  /** `buildArgs`: the executable and the base flags of a mode. */
  function BuildArgs(conf: Conf.Config, mode: RunMode): (r: (string, seq<string>))
    ensures r.1 == BaseArgs(mode)
  {
    match mode
    case Vim => (conf.vimExecutable, BaseArgs(Vim))
    case Nvim => (conf.nvimExecutable, BaseArgs(Nvim))
  }

  /** `cmds.flatMap((c) => ["-c", c])`. */
  function CommandPairs(cmds: seq<string>): (r: seq<string>)
    ensures |r| == 2 * |cmds|
  {
    if |cmds| == 0 then [] else ["-c", cmds[0]] + CommandPairs(cmds[1..])
  }

  /** Command `i` sits at positions `2i + 1`, right after its own "-c". */
  lemma {:induction false} CommandPairsAt(cmds: seq<string>, i: nat)
    requires i < |cmds|
    ensures CommandPairs(cmds)[2 * i] == "-c" && CommandPairs(cmds)[2 * i + 1] == cmds[i]
    decreases i
  {
    var rest := CommandPairs(cmds[1..]);
    assert CommandPairs(cmds) == ["-c", cmds[0]] + rest;
    if i > 0 {
      CommandPairsAt(cmds[1..], i - 1);
      assert CommandPairs(cmds)[2 * i] == rest[2 * (i - 1)];
      assert CommandPairs(cmds)[2 * i + 1] == rest[2 * (i - 1) + 1];
    }
  }

  /** Where each piece of `prefix + (base + CommandPairs(cmds))` sits. */
  lemma ArgsLayout(args: seq<string>, prefix: seq<string>, base: seq<string>, cmds: seq<string>)
    requires args == prefix + (base + CommandPairs(cmds))
    ensures |args| == |prefix| + |base| + 2 * |cmds|
    ensures args[..|prefix|] == prefix
    ensures args[|prefix|..|prefix| + |base|] == base
    ensures forall i :: 0 <= i < |cmds| ==>
              args[|prefix| + |base| + 2 * i] == "-c" && args[|prefix| + |base| + 2 * i + 1] == cmds[i]
  {
    NestedSlices(args, prefix, base, CommandPairs(cmds));
    forall i | 0 <= i < |cmds|
      ensures args[|prefix| + |base| + 2 * i] == "-c" && args[|prefix| + |base| + 2 * i + 1] == cmds[i]
    {
      ArgsPairAt(args, prefix, base, cmds, i);
    }
  }

  /** The first two pieces of `p + (b + t)`, read back by slicing. */
  lemma NestedSlices<T>(s: seq<T>, p: seq<T>, b: seq<T>, t: seq<T>)
    requires s == p + (b + t)
    ensures s[..|p|] == p && s[|p|..|p| + |b|] == b
  {
    assert s[|p|..] == b + t;
    assert s[|p|..|p| + |b|] == (b + t)[..|b|];
  }

  /** The `i`-th command pair of `prefix + (base + CommandPairs(cmds))`. */
  lemma ArgsPairAt(args: seq<string>, prefix: seq<string>, base: seq<string>, cmds: seq<string>, i: nat)
    requires args == prefix + (base + CommandPairs(cmds)) && i < |cmds|
    ensures args[|prefix| + |base| + 2 * i] == "-c" && args[|prefix| + |base| + 2 * i + 1] == cmds[i]
  {
    var pairs := CommandPairs(cmds);
    CommandPairsAt(cmds, i);
    assert args[|prefix| + |base| + 2 * i] == (base + pairs)[|base| + 2 * i] == pairs[2 * i];
    assert args[|prefix| + |base| + 2 * i + 1] == (base + pairs)[|base| + 2 * i + 1] == pairs[2 * i + 1];
  }

  /**
   * Reads `-c` pairs off the front of an argument list: the commands they
   * carry and what follows them.
   */
  function SplitCommandPairs(args: seq<string>): (seq<string>, seq<string>) {
    if |args| >= 2 && args[0] == "-c" then
      var later := SplitCommandPairs(args[2..]);
      ([args[1]] + later.0, later.1)
    else
      ([], args)
  }

  /** The `-c` pairs are read back exactly, as long as what follows is not one. */
  lemma {:induction false} SplitCommandPairsRoundTrip(cmds: seq<string>, tail: seq<string>)
    requires |tail| == 0 || tail[0] != "-c"
    ensures SplitCommandPairs(CommandPairs(cmds) + tail) == (cmds, tail)
    decreases |cmds|
  {
    if |cmds| > 0 {
      var args := CommandPairs(cmds) + tail;
      assert CommandPairs(cmds) == ["-c", cmds[0]] + CommandPairs(cmds[1..]);
      assert args[0] == "-c" && args[1] == cmds[0];
      assert args[2..] == CommandPairs(cmds[1..]) + tail;
      SplitCommandPairsRoundTrip(cmds[1..], tail);
      assert [cmds[0]] + cmds[1..] == cmds;
    } else {
      assert CommandPairs(cmds) + tail == tail;
    }
  }

  /** Whether `run` makes the editor verbose: the option wins over the configuration. */
  function EffectiveVerbose(conf: Conf.Config, options: RunOptions): bool {
    options.verbose.GetOr(conf.verbose)
  }

  /** The flags that come first when the editor is verbose. */
  function VerbosePrefix(verbose: bool): seq<string> {
    if verbose then VerbosePair else []
  }

  /**
   * `run`: standard input is always piped; output streams are inherited
   * when verbose and discarded otherwise; the extra environment is passed
   * through. Where each argument goes is `RunLayout`.
   */
  function Run(conf: Conf.Config, mode: RunMode, cmds: seq<string>, options: RunOptions): (s: SpawnSpec)
    ensures s.executable == (if mode == Vim then conf.vimExecutable else conf.nvimExecutable)
    ensures |s.args| == |VerbosePrefix(EffectiveVerbose(conf, options))| + |BaseArgs(mode)| + 2 * |cmds|
    ensures s.stdin == Piped
    ensures s.stdout == s.stderr == (if EffectiveVerbose(conf, options) then Inherit else Discard)
    ensures s.env == options.env
  {
    var verbose := EffectiveVerbose(conf, options);
    var built := BuildArgs(conf, mode);
    var stream := if verbose then Inherit else Discard;
    SpawnSpec(built.0, RunArgs(verbose, built.1, cmds), options.env, Piped, stream, stream)
  }

  /** The argument list `run` hands the editor, around the mode's base flags. */
  function RunArgs(verbose: bool, base: seq<string>, cmds: seq<string>): seq<string> {
    VerbosePrefix(verbose) + (base + CommandPairs(cmds))
  }

  /**
   * The argument list of `run`: the verbose pair (when verbose) goes first,
   * then the mode's base flags, then one `-c` pair per command in order.
   */
  lemma RunLayout(conf: Conf.Config, mode: RunMode, cmds: seq<string>, options: RunOptions, args: seq<string>)
    requires args == Run(conf, mode, cmds, options).args
    ensures var prefix := VerbosePrefix(EffectiveVerbose(conf, options));
            && args[..|prefix|] == prefix
            && args[|prefix|..|prefix| + |BaseArgs(mode)|] == BaseArgs(mode)
            && forall i :: 0 <= i < |cmds| ==>
                 args[|prefix| + |BaseArgs(mode)| + 2 * i] == "-c" && args[|prefix| + |BaseArgs(mode)| + 2 * i + 1] == cmds[i]
  {
    var verbose := EffectiveVerbose(conf, options);
    assert args == RunArgs(verbose, BaseArgs(mode), cmds);
    ArgsLayout(args, VerbosePrefix(verbose), BaseArgs(mode), cmds);
  }

  /**
   * Reads an argument list of `mode` back into the verbose flag and the
   * commands; `None` when it does not have the shape `Run` produces.
   */
  function ParseArgs(mode: RunMode, args: seq<string>): Option<(bool, seq<string>)> {
    var verbose := |args| >= 2 && args[..2] == VerbosePair;
    var rest := if verbose then args[2..] else args;
    var base := BaseArgs(mode);
    if |rest| >= |base| && rest[..|base|] == base then
      var split := SplitCommandPairs(rest[|base|..]);
      if split.1 == [] then Some((verbose, split.0)) else None
    else
      None
  }

  /** The base flags and the `-c` pairs after them are read back exactly. */
  lemma SplitBaseAndPairs(mode: RunMode, cmds: seq<string>)
    ensures var base := BaseArgs(mode);
            var rest := base + CommandPairs(cmds);
            && |rest| >= |base|
            && rest[..|base|] == base
            && SplitCommandPairs(rest[|base|..]) == (cmds, [])
  {
    var base := BaseArgs(mode);
    var rest := base + CommandPairs(cmds);
    assert rest[..|base|] == base;
    assert rest[|base|..] == CommandPairs(cmds) + [];
    SplitCommandPairsRoundTrip(cmds, []);
  }

  /** Reading back an argument list laid out as `run` lays it out. */
  lemma ParseArgsOfLayout(mode: RunMode, verbose: bool, cmds: seq<string>)
    ensures ParseArgs(mode, VerbosePrefix(verbose) + (BaseArgs(mode) + CommandPairs(cmds)))
            == Some((verbose, cmds))
  {
    var base := BaseArgs(mode);
    var rest := base + CommandPairs(cmds);
    SplitBaseAndPairs(mode, cmds);
    if verbose {
      var args := VerbosePair + rest;
      assert args[..2] == VerbosePair;
      assert args[2..] == rest;
    } else {
      assert [] + rest == rest;
      assert rest[0] == base[0];
    }
  }

  /** The argument list of `run` determines its verbose flag and its commands. */
  lemma RunArgsRoundTrip(conf: Conf.Config, mode: RunMode, cmds: seq<string>, options: RunOptions)
    ensures ParseArgs(mode, Run(conf, mode, cmds, options).args)
            == Some((EffectiveVerbose(conf, options), cmds))
  {
    ParseArgsOfLayout(mode, EffectiveVerbose(conf, options), cmds);
  }
}
