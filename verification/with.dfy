/**
 * `withDenops`: start an editor that loads the in-editor plugin, accept its
 * connection, run the test body against a real Denops object and settle
 * with whichever finishes first, the body or the editor process. Sockets,
 * timers and the process are left out; their outcomes are parameters.
 */
module With {
  import opened Values
  import opened Denops
  import Decimal
  import Conf
  import Runner
  import Plugin

  const PluginName := "@denops-test"
  const ConnectTimeoutDefault := 30000
  const ConnectionFailed := "[denops-test] Connection failed."
  const MetaGet := "denops#_internal#meta#get"

  /** The options `withDenops` accepts; every one is optional. */
  datatype WithOptions = WithOptions(
    pluginName: Option<string>,
    verbose: Option<bool>,
    prelude: Option<seq<string>>,
    postlude: Option<seq<string>>,
    connectTimeout: Option<int>)

  /** The options once their defaults are filled in. */
  datatype Resolved = Resolved(
    pluginName: string,
    verbose: bool,
    prelude: seq<string>,
    postlude: seq<string>,
    connectTimeout: int)

  /**
   * The defaults: the plugin name "@denops-test", the configuration's
   * verbose flag, no prelude or postlude, and the configuration's connect
   * timeout or else 30000 ms. A given option always wins.
   */
  function ResolveOptions(opts: WithOptions, conf: Conf.Config): (r: Resolved)
    ensures opts.pluginName.Some? ==> r.pluginName == opts.pluginName.value
    ensures opts.pluginName.None? ==> r.pluginName == "@denops-test"
    ensures opts.verbose.Some? ==> r.verbose == opts.verbose.value
    ensures opts.verbose.None? ==> r.verbose == conf.verbose
    ensures r.prelude == (if opts.prelude.Some? then opts.prelude.value else [])
    ensures r.postlude == (if opts.postlude.Some? then opts.postlude.value else [])
    ensures opts.connectTimeout.Some? ==> r.connectTimeout == opts.connectTimeout.value
    ensures opts.connectTimeout.None? && conf.connectTimeout.Some? ==> r.connectTimeout == conf.connectTimeout.value
    ensures opts.connectTimeout.None? && conf.connectTimeout.None? ==> r.connectTimeout == 30000
  {
    Resolved(
      opts.pluginName.GetOr(PluginName),
      opts.verbose.GetOr(conf.verbose),
      opts.prelude.GetOr([]),
      opts.postlude.GetOr([]),
      opts.connectTimeout.GetOr(conf.connectTimeout.GetOr(ConnectTimeoutDefault)))
  }

  /**
   * Unless the caller gives one, the connect timeout is positive: the
   * configuration keeps only positive values and the fallback is 30000.
   */
  lemma DefaultTimeoutPositive(opts: WithOptions, cache: Option<Conf.Config>, env: Conf.Env, resolve: string -> string)
    requires opts.connectTimeout.None?
    requires cache.None?
    requires Conf.GetConfig(cache, env, resolve).result.Returned?
    ensures ResolveOptions(opts, Conf.GetConfig(cache, env, resolve).result.value).connectTimeout > 0
  {
  }

  /** A space in the denops path becomes a backslash and a space. */
  function EscapeSpaces(s: string): (r: string)
    ensures |r| >= |s|
    ensures |r| > 0 ==> r[0] != ' '
    ensures forall i :: 0 <= i < |r| && r[i] == ' ' ==> 0 < i && r[i - 1] == '\\'
  {
    if |s| == 0 then ""
    else
      var rest := EscapeSpaces(s[1..]);
      var head := if s[0] == ' ' then "\\ " else [s[0]];
      var r := head + rest;
      assert forall i :: |head| <= i < |r| ==> r[i] == rest[i - |head|];
      r
  }

  /** Undoes the space escape: a backslash followed by a space reads as a space. */
  function UnescapeSpaces(s: string): string {
    if |s| == 0 then ""
    else if |s| >= 2 && s[0] == '\\' && s[1] == ' ' then " " + UnescapeSpaces(s[2..])
    else [s[0]] + UnescapeSpaces(s[1..])
  }

  /** Undoing the space escape restores the path that was escaped. */
  lemma {:induction false} EscapeSpacesRoundTrip(s: string)
    ensures UnescapeSpaces(EscapeSpaces(s)) == s
    decreases |s|
  {
    if |s| > 0 {
      var rest := EscapeSpaces(s[1..]);
      EscapeSpacesRoundTrip(s[1..]);
      if s[0] == ' ' {
        var e := "\\ " + rest;
        assert EscapeSpaces(s) == e;
        assert e[2..] == rest;
      } else {
        var e := [s[0]] + rest;
        assert EscapeSpaces(s) == e;
        assert e[1..] == rest;
        assert |e| >= 2 ==> e[1] == rest[0] && rest[0] != ' ';
      }
      assert [s[0]] + s[1..] == s;
    }
  }

  /**
   * Characters that end a `:set` value when not escaped: `|`, `"` (a
   * comment) and a newline end the command, and white space ends the value.
   */
  predicate EndsValue(c: char) {
    c == '|' || c == '"' || c == '\n' || c == ' ' || c == '\t'
  }

  /**
   * How Vim's `:set` reads a string option value on Unix: a backslash is
   * dropped and the character after it is taken literally, and the value
   * stops at the first unescaped character that ends it. Expanding
   * environment variables and splitting 'runtimepath' at commas come
   * later and are not part of this reading.
   */
  function OptionValue(s: string): (v: string)
    ensures |v| <= |s|
  {
    if |s| == 0 then ""
    else if s[0] == '\\' && |s| >= 2 then [s[1]] + OptionValue(s[2..])
    else if EndsValue(s[0]) then ""
    else [s[0]] + OptionValue(s[1..])
  }

  /** A path character that the space escape leaves unprotected from `:set`. */
  predicate Unprotected(c: char) {
    c == '\\' || (EndsValue(c) && c != ' ')
  }

  /**
   * A path without backslashes, bars, quotes, tabs or newlines reaches the
   * option intact once its spaces are escaped.
   */
  lemma {:induction false} OptionValueOfEscaped(s: string)
    requires forall i :: 0 <= i < |s| ==> !Unprotected(s[i])
    ensures OptionValue(EscapeSpaces(s)) == s
    decreases |s|
  {
    if |s| > 0 {
      var rest := EscapeSpaces(s[1..]);
      assert forall i :: 0 <= i < |s[1..]| ==> !Unprotected(s[1..][i]) by {
        forall i | 0 <= i < |s[1..]| ensures s[1..][i] == s[i + 1] { }
      }
      OptionValueOfEscaped(s[1..]);
      assert !Unprotected(s[0]);
      if s[0] == ' ' {
        var e := "\\ " + rest;
        assert EscapeSpaces(s) == e;
        assert e[2..] == rest;
      } else {
        var e := [s[0]] + rest;
        assert EscapeSpaces(s) == e;
        assert e[1..] == rest;
      }
      assert [s[0]] + s[1..] == s;
    }
  }

  /**
   * The space-only escape does not protect a backslash: the editor drops
   * it from the path.
   */
  lemma BackslashIsDropped()
    ensures EscapeSpaces("/a\\b") == "/a\\b"
    ensures OptionValue(EscapeSpaces("/a\\b")) == "/ab"
  {
    assert EscapeSpaces("b") == "b";
    assert EscapeSpaces("\\b") == "\\b";
    assert EscapeSpaces("a\\b") == "a\\b";
    assert OptionValue("b") == "b";
    assert OptionValue("\\b") == "b";
    assert OptionValue("a\\b") == "ab";
  }

  /**
   * Nor does it protect a double quote or a tab: the editor reads the
   * value only up to them.
   */
  lemma QuoteAndTabCutPath()
    ensures OptionValue(EscapeSpaces("/a\"b")) == "/a"
    ensures OptionValue(EscapeSpaces("/a\tb")) == "/a"
  {
    assert EscapeSpaces("b") == "b";
    assert EscapeSpaces("\"b") == "\"b";
    assert EscapeSpaces("a\"b") == "a\"b";
    assert EscapeSpaces("\tb") == "\tb";
    assert EscapeSpaces("a\tb") == "a\tb";
    assert OptionValue("\"b") == "";
    assert OptionValue("a\"b") == "a";
    assert OptionValue("\tb") == "";
    assert OptionValue("a\tb") == "a";
  }

  function JoinWith(parts: seq<string>, sep: string): string {
    if |parts| == 0 then ""
    else if |parts| == 1 then parts[0]
    else parts[0] + sep + JoinWith(parts[1..], sep)
  }

  // The fixed texts are written in short pieces so that facts about their
  // characters stay cheap to prove.

  function LoadLine(pluginName: string, pluginUrl: string): string {
    "  call denops#server#" + "wait_async({ -> " + "denops#plugin#load('" + pluginName + "', '" + pluginUrl + "') })"
  }

  const CatchE117 := "catch /^Vim" + "\\%((\\a\\+)\\)\\=:E117:/"

  function RegisterLine(pluginName: string, pluginUrl: string): string {
    "  execute 'autocmd " + "User DenopsReady call " + "denops#plugin#register(''" + pluginName + "'', ''" + pluginUrl + "'')'"
  }

  /**
   * The one-line Vim script that loads the plugin, or, when the server's
   * `wait_async` does not exist yet (error E117), registers it once Denops
   * is ready: five lines joined with " | ".
   */
  function RegistrationEntry(pluginName: string, pluginUrl: string): (r: string)
    ensures r == "try" + " | "
                 + (LoadLine(pluginName, pluginUrl) + " | "
                 + (CatchE117 + " | "
                 + (RegisterLine(pluginName, pluginUrl) + " | " + "endtry")))
  {
    var lines := ["try", LoadLine(pluginName, pluginUrl), CatchE117, RegisterLine(pluginName, pluginUrl), "endtry"];
    JoinFiveUnfold(lines, " | ");
    JoinWith(lines, " | ")
  }

  /** Text without a `|`. */
  predicate NoBar(s: string) {
    forall i :: 0 <= i < |s| ==> s[i] != '|'
  }

  /** The lines of the registration entry hold a `|` only if the plugin name or URL does. */
  lemma LinesHaveNoBar(pluginName: string, pluginUrl: string)
    requires NoBar(pluginName) && NoBar(pluginUrl)
    ensures NoBar(LoadLine(pluginName, pluginUrl)) && NoBar(RegisterLine(pluginName, pluginUrl)) && NoBar(CatchE117)
  {
    LoadLineNoBar(pluginName, pluginUrl);
    RegisterLineNoBar(pluginName, pluginUrl);
    assert NoBar("catch /^Vim") && NoBar("\\%((\\a\\+)\\)\\=:E117:/");
  }

  lemma LoadLineNoBar(pluginName: string, pluginUrl: string)
    requires NoBar(pluginName) && NoBar(pluginUrl)
    ensures NoBar(LoadLine(pluginName, pluginUrl))
  {
    assert NoBar("  call denops#server#") && NoBar("wait_async({ -> ") && NoBar("denops#plugin#load('");
    assert NoBar("', '") && NoBar("') })");
  }

  lemma RegisterLineNoBar(pluginName: string, pluginUrl: string)
    requires NoBar(pluginName) && NoBar(pluginUrl)
    ensures NoBar(RegisterLine(pluginName, pluginUrl))
  {
    assert NoBar("  execute 'autocmd ") && NoBar("User DenopsReady call ") && NoBar("denops#plugin#register(''");
    assert NoBar("'', ''") && NoBar("'')'");
  }

  /**
   * How the editor splits a command line into commands: at every `|`.
   * (None of the commands built here has a `|` of its own.)
   */
  function SplitBars(s: string): (parts: seq<string>)
    ensures |parts| >= 1
  {
    if |s| == 0 then [""]
    else if s[0] == '|' then [""] + SplitBars(s[1..])
    else
      var t := SplitBars(s[1..]);
      [[s[0]] + t[0]] + t[1..]
  }

  /** Text without a bar joins the first command of what follows it. */
  lemma {:induction false} SplitBarsPrefix(a: string, rest: string)
    requires NoBar(a)
    ensures var t := SplitBars(rest);
            SplitBars(a + rest) == [a + t[0]] + t[1..]
    decreases |a|
  {
    if |a| > 0 {
      assert a[0] != '|' && NoBar(a[1..]);
      SplitBarsPrefix(a[1..], rest);
      var t := SplitBars(rest);
      var u := SplitBars(a[1..] + rest);
      assert u == [a[1..] + t[0]] + t[1..];
      assert (a + rest)[0] == a[0] && (a + rest)[1..] == a[1..] + rest;
      assert SplitBars(a + rest) == [[a[0]] + u[0]] + u[1..];
      assert [a[0]] + (a[1..] + t[0]) == a + t[0];
    } else {
      var t := SplitBars(rest);
      assert a + rest == rest && a + t[0] == t[0];
      assert [t[0]] + t[1..] == t;
    }
  }

  /** A bar-free command, the " | " after it, and the commands that follow. */
  lemma SplitAfterBar(a: string, rest: string)
    requires NoBar(a)
    ensures var t := SplitBars(rest);
            SplitBars(a + " | " + rest) == [a + " "] + ([" " + t[0]] + t[1..])
  {
    var x := " " + rest;
    assert a + " | " + rest == (a + " ") + ("|" + x);
    SplitBarsPrefix(a + " ", "|" + x);
    assert ("|" + x)[1..] == x;
    assert SplitBars("|" + x) == [""] + SplitBars(x);
    SplitBarsPrefix(" ", rest);
    assert (a + " ") + "" == a + " ";
  }

  /**
   * The editor reads the registration entry as exactly the five commands
   * it was joined from (each with the blanks around its bar), as long as
   * neither the plugin name nor its URL holds a `|`.
   */
  lemma RegistrationCommands(pluginName: string, pluginUrl: string)
    requires NoBar(pluginName) && NoBar(pluginUrl)
    ensures SplitBars(RegistrationEntry(pluginName, pluginUrl))
            == ["try" + " ", " " + (LoadLine(pluginName, pluginUrl) + " "), " " + (CatchE117 + " "),
                " " + (RegisterLine(pluginName, pluginUrl) + " "), " " + "endtry"]
  {
    var load, register := LoadLine(pluginName, pluginUrl), RegisterLine(pluginName, pluginUrl);
    LinesHaveNoBar(pluginName, pluginUrl);
    var r1 := load + " | " + (CatchE117 + " | " + (register + " | " + "endtry"));
    SplitLastThree(load, CatchE117, register);
    assert NoBar("try");
    SplitAfterBar("try", r1);
  }

  /** The last four commands of the entry, read back at their bars. */
  lemma SplitLastThree(load: string, catch: string, register: string)
    requires NoBar(load) && NoBar(catch) && NoBar(register)
    ensures SplitBars(load + " | " + (catch + " | " + (register + " | " + "endtry")))
            == [load + " ", " " + (catch + " "), " " + (register + " "), " " + "endtry"]
  {
    var r2 := catch + " | " + (register + " | " + "endtry");
    SplitLastTwo(catch, register);
    SplitAfterBar(load, r2);
  }

  lemma SplitLastTwo(catch: string, register: string)
    requires NoBar(catch) && NoBar(register)
    ensures SplitBars(catch + " | " + (register + " | " + "endtry"))
            == [catch + " ", " " + (register + " "), " " + "endtry"]
  {
    SplitBarsPrefix("endtry", "");
    assert "endtry" + "" == "endtry";
    SplitAfterBar(register, "endtry");
    SplitAfterBar(catch, register + " | " + "endtry");
  }

  lemma JoinFiveUnfold(p: seq<string>, sep: string)
    requires |p| == 5
    ensures JoinWith(p, sep) == p[0] + sep + (p[1] + sep + (p[2] + sep + (p[3] + sep + p[4])))
  {
    assert p[1..][1..][1..][1..] == [p[4]];
    assert JoinWith(p[1..][1..][1..], sep) == p[3] + sep + p[4];
    assert JoinWith(p[1..][1..], sep) == p[2] + sep + (p[3] + sep + p[4]);
  }

  const RuntimePathCmd := "set runtimepath^="

  /**
   * The commands handed to the editor: the prelude, then the test flag,
   * the command that puts the space-escaped denops path first on the
   * runtime path, the plugin
   * registration and the server start, then the postlude.
   */
  function Commands(opts: Resolved, denopsPath: string, pluginUrl: string): (r: seq<string>)
    ensures var n := |opts.prelude|;
            && |r| == n + 4 + |opts.postlude|
            && r[..n] == opts.prelude
            && r[n] == "let g:denops#_test = 1"
            && r[n + 1] == "set runtimepath^=" + EscapeSpaces(denopsPath)
            && r[n + 2] == RegistrationEntry(opts.pluginName, pluginUrl)
            && r[n + 3] == "call denops#server#start()"
            && r[n + 4..] == opts.postlude
  {
    var fixed := [
      "let g:denops#_test = 1",
      RuntimePathCmd + EscapeSpaces(denopsPath),
      RegistrationEntry(opts.pluginName, pluginUrl),
      "call denops#server#start()"
    ];
    var r := opts.prelude + fixed + opts.postlude;
    assert r[..|opts.prelude|] == opts.prelude;
    assert r[|opts.prelude| + 4..] == opts.postlude;
    r
  }

  /**
   * The runtime-path command carries the configured denops path with its
   * spaces escaped: undoing the space escape restores the path, and the
   * editor's own reading of the option value restores it when the path
   * has no backslash, `|`, `"`, tab or newline (`BackslashIsDropped` and
   * `QuoteAndTabCutPath` show paths that do).
   */
  lemma RuntimePathIsDenopsPath(opts: Resolved, denopsPath: string, pluginUrl: string)
    ensures var line := Commands(opts, denopsPath, pluginUrl)[|opts.prelude| + 1];
            && |line| >= |RuntimePathCmd|
            && line[..|RuntimePathCmd|] == RuntimePathCmd
            && UnescapeSpaces(line[|RuntimePathCmd|..]) == denopsPath
            && ((forall i :: 0 <= i < |denopsPath| ==> !Unprotected(denopsPath[i]))
                ==> OptionValue(line[|RuntimePathCmd|..]) == denopsPath)
  {
    var line := Commands(opts, denopsPath, pluginUrl)[|opts.prelude| + 1];
    assert line == RuntimePathCmd + EscapeSpaces(denopsPath);
    assert line[|RuntimePathCmd|..] == EscapeSpaces(denopsPath);
    EscapeSpacesRoundTrip(denopsPath);
    if forall i :: 0 <= i < |denopsPath| ==> !Unprotected(denopsPath[i]) {
      OptionValueOfEscaped(denopsPath);
    }
  }

  /**
   * The editor process: `run` with the commands, the resolved verbose flag
   * and the listener's address (as JSON text) in `DENOPS_TEST_ADDRESS`.
   */
  function Launch(conf: Conf.Config, mode: Runner.RunMode, opts: Resolved, pluginUrl: string, addr: string): (s: Runner.SpawnSpec)
    ensures Runner.ParseArgs(mode, s.args) == Some((opts.verbose, Commands(opts, conf.denopsPath, pluginUrl)))
    ensures s.env == Some(map[Plugin.AddressVar := addr])
    ensures s.executable == (if mode == Runner.Vim then conf.vimExecutable else conf.nvimExecutable)
  {
    var options := Runner.RunOptions(Some(opts.verbose), Some(map[Plugin.AddressVar := addr]));
    Runner.RunArgsRoundTrip(conf, mode, Commands(opts, conf.denopsPath, pluginUrl), options);
    Runner.Run(conf, mode, Commands(opts, conf.denopsPath, pluginUrl), options)
  }

  /**
   * The editor inherits the harness's environment with the address added,
   * so the plugin inside it reads back exactly the address the harness
   * listens on.
   */
  lemma AddressReachesPlugin(parent: Conf.Env, conf: Conf.Config, mode: Runner.RunMode, opts: Resolved, pluginUrl: string, addr: string)
    requires addr != ""
    ensures var s := Launch(conf, mode, opts, pluginUrl, addr);
            Plugin.Address(parent + s.env.value) == Returned(addr)
  {
  }

  /**
   * What `withDenops` does before it spawns anything: a configuration
   * error is thrown as is; otherwise the editor is launched with the
   * resolved options.
   */
  function Start(config: Outcome<Conf.Config>, mode: Runner.RunMode, options: WithOptions, pluginUrl: string, addr: string): (r: Outcome<Runner.SpawnSpec>)
    ensures config.Threw? ==> r == Threw(config.error)
    ensures config.Returned? ==>
              r == Returned(Launch(config.value, mode, ResolveOptions(options, config.value), pluginUrl, addr))
  {
    match config
    case Threw(e) => Threw(e)
    case Returned(conf) => Returned(Launch(conf, mode, ResolveOptions(options, conf), pluginUrl, addr))
  }

  /** The trace of `perform`: its outcome and what it did on the way. */
  datatype Performed = Performed(
    outcome: Outcome<()>,
    handshake: Option<Request>,
    mainArg: Option<DenopsImpl>,
    listenerClosed: bool,
    shutdownAttempted: bool)

  /**
   * `perform`: accept the editor's connection (a failure, timeout included,
   * is wrapped as "[denops-test] Connection failed." with the failure as
   * its cause), ask the editor for its meta data, build the Denops object
   * and run the test body on it. Once connected the session is always shut
   * down, and a failing shutdown is swallowed. The listener is closed
   * once accepting settles, either way.
   */
  function Perform(accepted: Option<Thrown>, pluginName: string, metaReply: Outcome<Meta>,
                   main: DenopsImpl -> Outcome<()>): (p: Performed)
    ensures accepted.Some? ==>
              p == Performed(Threw(Error(ConnectionFailed, Some(accepted.value))), None, None, true, false)
    ensures p.listenerClosed
    ensures accepted.None? ==>
              && p.shutdownAttempted
              && p.handshake == Some(Request("invoke", [Str("call"), Arr([Str(MetaGet)])]))
    ensures p.mainArg.Some? <==> accepted.None? && metaReply.Returned?
    ensures p.mainArg.Some? ==>
              && p.mainArg.value.name == pluginName
              && p.mainArg.value.meta == metaReply.value
              && p.outcome == main(p.mainArg.value)
    ensures accepted.None? && metaReply.Threw? ==> p.outcome == Threw(metaReply.error)
  {
    match accepted
    case Some(cause) => Performed(Threw(Error(ConnectionFailed, Some(cause))), None, None, true, false)
    case None =>
      var handshake := Call(MetaGet, []);
      assert [Str(MetaGet)] + [] == [Str(MetaGet)];
      match metaReply
      case Threw(e) => Performed(Threw(e), Some(handshake), None, true, true)
      case Returned(meta) =>
        var denops := New(pluginName, meta);
        Performed(main(denops), Some(handshake), Some(denops), true, true)
  }

  /** The plugin side routes the handshake to its own `call` of the meta function. */
  lemma HandshakeReachesMetaGet(pluginName: string, metaReply: Outcome<Meta>, main: DenopsImpl -> Outcome<()>)
    ensures var p := Perform(None, pluginName, metaReply, main);
            Plugin.SessionDispatch(p.handshake.value) == Returned(CallReq(MetaGet, []))
  {
    Plugin.EnvelopeRoundTrip(CallReq(MetaGet, []));
  }

  const MissingDispatchHandler := "denops.dispatcher[name] is not a function"

  /**
   * The harness session's dispatcher: its only entry is `dispatch`, whose
   * name must be a string and whose arguments must be an array; the named
   * handler of the test's Denops object is called with the arguments
   * spread, and a missing handler is a type error. `handlers` stands for
   * every key the dispatcher object resolves, inherited ones included.
   */
  function HandleDispatch(handlers: map<string, seq<Value> -> Outcome<Value>>, q: Request): (r: Outcome<Value>)
    ensures q.rpcMethod != "dispatch" ==> r == Threw(NoSuchMethod(q.rpcMethod))
    ensures q.rpcMethod == "dispatch" && (|q.params| == 0 || !q.params[0].Str?) ==> r == Threw(AssertionFailed)
    ensures q.rpcMethod == "dispatch" && |q.params| >= 1 && q.params[0].Str? ==>
              && (|q.params| < 2 || !q.params[1].Arr? ==> r == Threw(AssertionFailed))
              && (|q.params| >= 2 && q.params[1].Arr? && q.params[0].s in handlers ==>
                    r == handlers[q.params[0].s](q.params[1].items))
              && (|q.params| >= 2 && q.params[1].Arr? && q.params[0].s !in handlers ==>
                    r == Threw(TypeError(MissingDispatchHandler)))
    ensures r.Returned? ==>
              && q.rpcMethod == "dispatch" && |q.params| >= 2 && q.params[0].Str? && q.params[1].Arr?
              && q.params[0].s in handlers
              && r == handlers[q.params[0].s](q.params[1].items)
  {
    if q.rpcMethod != "dispatch" then Threw(NoSuchMethod(q.rpcMethod))
    else
      var name := if |q.params| > 0 then q.params[0] else Undefined;
      var args := if |q.params| > 1 then q.params[1] else Undefined;
      if !name.Str? || !args.Arr? then Threw(AssertionFailed)
      else if name.s !in handlers then Threw(TypeError(MissingDispatchHandler))
      else handlers[name.s](args.items)
  }

  /**
   * A call through the plugin's dispatcher proxy reaches the test's handler
   * of the same name with the same arguments.
   */
  lemma ProxyReachesHandler(handlers: map<string, seq<Value> -> Outcome<Value>>, key: string, args: seq<Value>)
    ensures var forwarded := Plugin.ProxyAccess(Plugin.Read(key, args));
            && forwarded.Returned?
            && HandleDispatch(handlers, forwarded.value)
               == (if key in handlers then handlers[key](args) else Threw(TypeError(MissingDispatchHandler)))
  {
  }

  const OutputStart := ":\n------- output -------\n"
  const OutputEnd := "\n----- output end -----"

  function AbortHead(mode: Runner.RunMode): string {
    "[denops-test] Process aborted (" + Runner.ModeName(mode) + ", code="
  }

  /** Where the three parts of `a + b + c` sit. */
  lemma Concat3(a: string, b: string, c: string)
    ensures var s := a + b + c;
            && s[..|a|] == a && s[|a|..] == b + c && s[|a| + |b|..] == c
  {
    var s := a + b + c;
    assert s == a + (b + c);
  }

  /** A suffix of a suffix is a suffix. */
  lemma SuffixOfSuffix(s: string, tail: string, k: nat)
    requires |tail| <= |s| && s[|s| - |tail|..] == tail && k <= |tail|
    ensures s[|s| - k..] == tail[|tail| - k..]
  {
    assert s[|s| - k..] == s[|s| - |tail|..][|tail| - k..];
  }

  /** What follows the exit code: the output between markers, or a full stop. */
  function OutputSuffix(output: Option<string>): (s: string)
    ensures (output.None? || output.value == "") ==> s == "."
    ensures output.Some? && output.value != "" ==>
              && |s| == |OutputStart| + |output.value| + |OutputEnd|
              && s[..|OutputStart|] == OutputStart
              && s[|s| - |output.value| - |OutputEnd|..] == output.value + OutputEnd
  {
    if output.Some? && output.value != "" then
      Concat3(OutputStart, output.value, OutputEnd);
      OutputStart + output.value + OutputEnd
    else "."
  }

  /**
   * The error text when the editor exits unsuccessfully: the mode, the
   * exit code and, when the process produced any, its output between
   * markers; otherwise a full stop.
   */
  function AbortMessage(mode: Runner.RunMode, code: int, output: Option<string>): (m: string)
    ensures |m| > |AbortHead(mode)| && m[..|AbortHead(mode)|] == AbortHead(mode)
    ensures Decimal.ParseIntPrefix(m[|AbortHead(mode)|..]) == Some(code)
    ensures (output.None? || output.value == "") ==> m[|m| - 2..] == ")."
    ensures output.Some? && output.value != "" ==>
              && |m| >= |output.value| + |OutputEnd|
              && m[|m| - |output.value| - |OutputEnd|..] == output.value + OutputEnd
    ensures |m| >= |AbortHead(mode)| + |Decimal.FormatInt(code)|
    ensures m[|AbortHead(mode)| + |Decimal.FormatInt(code)|..] == ")" + OutputSuffix(output)
  {
    var head := AbortHead(mode);
    var digits := Decimal.FormatInt(code);
    var tail := ")" + OutputSuffix(output);
    Concat3(head, digits, tail);
    Decimal.ParseFormatRoundTrip(code, tail);
    var m := head + digits + tail;
    if output.Some? && output.value != "" then
      SuffixOfSuffix(m, tail, |output.value| + |OutputEnd|);
      SuffixOfSuffix(tail, OutputSuffix(output), |output.value| + |OutputEnd|);
      m
    else
      m
  }

  /** How the editor process ended. */
  datatype Exit = Exit(success: bool, code: int, output: Option<string>)

  /** Which side of the race settled first. */
  datatype Winner = PerformFirst(performed: Performed) | ExitFirst(exit: Exit)

  /**
   * The outcome of `withDenops`: whatever `perform` settled with, or, when
   * the editor exits first, success on a clean exit and the abort error
   * otherwise.
   */
  function Settle(mode: Runner.RunMode, winner: Winner): (r: Outcome<()>)
    ensures winner.PerformFirst? ==> r == winner.performed.outcome
    ensures winner.ExitFirst? && winner.exit.success ==> r == Returned(())
    ensures winner.ExitFirst? && !winner.exit.success ==>
              r == Threw(Error(AbortMessage(mode, winner.exit.code, winner.exit.output), None))
  {
    match winner
    case PerformFirst(p) => p.outcome
    case ExitFirst(exit) =>
      if exit.success then Returned(())
      else Threw(Error(AbortMessage(mode, exit.code, exit.output), None))
  }

  /**
   * When `perform` wins the race, `withDenops` succeeds exactly when the
   * connection was accepted, the meta handshake answered and the test body
   * succeeded on the Denops object built from that answer; a failed accept
   * surfaces as the connection error.
   */
  lemma SettleAfterPerform(mode: Runner.RunMode, accepted: Option<Thrown>, pluginName: string,
                           metaReply: Outcome<Meta>, main: DenopsImpl -> Outcome<()>)
    ensures var r := Settle(mode, PerformFirst(Perform(accepted, pluginName, metaReply, main)));
            && (r.Returned? <==>
                  accepted.None? && metaReply.Returned? && main(New(pluginName, metaReply.value)).Returned?)
            && (accepted.Some? ==> r == Threw(Error(ConnectionFailed, Some(accepted.value))))
            && (accepted.None? && metaReply.Threw? ==> r == Threw(metaReply.error))
  {
  }

  /**
   * End to end from the environment: without a verbose option, the editor
   * starts with the verbose pair in front exactly when `DENOPS_TEST_VERBOSE`
   * is "1" or "true"; a given option wins; a missing denops path stops
   * everything before the launch.
   */
  lemma VerboseReachesEditor(env: Conf.Env, resolve: string -> string, mode: Runner.RunMode,
                             options: WithOptions, pluginUrl: string, addr: string)
    ensures var started := Start(Conf.GetConfig(None, env, resolve).result, mode, options, pluginUrl, addr);
            && (!Truthy(Conf.Get(env, Conf.DenopsPathVar)) ==> started == Threw(Error(Conf.MissingDenopsPath, None)))
            && (Truthy(Conf.Get(env, Conf.DenopsPathVar)) ==>
                  && started.Returned?
                  && var args := started.value.args;
                     var pair := |args| >= 2 && args[..2] == Runner.VerbosePair;
                     && (options.verbose.None? ==>
                           (pair <==> Conf.Get(env, Conf.VerboseVar) == Some("1") || Conf.Get(env, Conf.VerboseVar) == Some("true")))
                     && (options.verbose.Some? ==> (pair <==> options.verbose.value)))
  {
    var loaded := Conf.GetConfig(None, env, resolve);
    if Truthy(Conf.Get(env, Conf.DenopsPathVar)) {
      var conf := loaded.result.value;
      var opts := ResolveOptions(options, conf);
      var args := Launch(conf, mode, opts, pluginUrl, addr).args;
      assert Runner.ParseArgs(mode, args).value.0 == (|args| >= 2 && args[..2] == Runner.VerbosePair);
    }
  }
}
