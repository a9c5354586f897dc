# denops-test, modelled in Dafny

This project models the pure core of `denops_test`. That library lets Deno
tests of Denops plugins drive a real Vim or Neovim. The harness spawns the
editor with a prepared argument vector and command list. The editor loads a
small in-editor plugin, which dials back to the harness. From then on, the
two ends talk over one RPC entry, `invoke(method, args)`, in one direction
and `dispatch(name, args)` in the other. A stub Denops object serves unit
tests that need no editor. `test` fans a test definition out into one or
two test registrations.

The model is functional. Every operation is a pure function over immutable
datatypes:

- `Values.Value` is a JSON-like value with `Undefined` and `Null`.
- An RPC call is the `Request(rpcMethod, params)` the client is handed.
- A thrown error is an `Outcome` (`Returned` or `Threw`).
- The environment is a map.
- Path resolution, the random editor pick and everything a socket, a timer
  or the child process would produce are parameters.

One module per source file:

| module | source file |
|---|---|
| `Values` | shared value, error and record types |
| `Decimal` | the integer reading of `parseInt` and decimal formatting |
| `Conf` | `conf.ts` |
| `Runner` | `runner.ts` |
| `LegacyRunner` | `denops_test/runner.ts` |
| `Denops` | `denops.ts` |
| `Plugin` | `plugin.ts` |
| `Stub` | `stub.ts` |
| `With` | `with.ts` |
| `Tester` | `tester.ts` |
| `LegacyTester` | `denops_test/tester.ts` |
| `OrElse` | `denops_test/or_else.ts` |

The central property is the invoke wire contract, proved in both directions
(`Plugin.EnvelopeRoundTrip`, `Plugin.AcceptedArgsReencode`). Every request
the harness-side Denops object builds passes the plugin's shape checks, and
the plugin routes it back to the very same method call, for the values as
they are sent (the codec between the two is not modelled; see "## Left out"). Other results:

- Every argument vector `run` builds reads back to its verbose flag and
  command list, in both runner versions.
- Undoing the space escape restores the denops path. A model of `:set`'s
  reading of the option (its backslash rule, and the `|`, `"`, newline and
  white space that end a value) restores it too, when the path holds no
  backslash, `|`, `"`, tab or newline.
- When neither the plugin name nor its URL holds a `|`, the registration
  entry splits at its bars into exactly the five commands it was joined from.
- The abort message carries the exit code in decimal.
- The legacy test registration is the current one with the plugin name
  dropped.

## Model

| member | source | states |
|---|---|---|
| Decimal.ParseFormatRoundTrip | conf.ts:68-70 | the modelled `parseInt` reads the decimal text of any integer back exactly, whatever non-digit text follows it; the source's double-valued `parseInt` agrees for magnitudes up to 2^53 |
| Conf.VerboseFlag | conf.ts:75 | the verbose flag is on exactly when the variable is the text "1" or "true" |
| Conf.ConnectTimeout | conf.ts:68-78 | the timeout is the integer `parseInt` reads when that is positive, and absent otherwise (unparsable, zero or negative) |
| Conf.GetConfig | conf.ts:57-81 | a cached config is returned as is; a missing or empty denops path throws the "is required" error and caches nothing; otherwise each field is read with its default ("vim"/"nvim" only when the variable is absent) and the result is cached |
| Conf.CacheIsSticky | conf.ts:57-60 | after one successful call, later calls return the same config whatever the environment has become |
| Conf.FailureLeavesCacheUnset | conf.ts:61-66 | a throwing call leaves the cache unset, so the next call reads the environment afresh |
| Conf.ConnectTimeoutOfDecimal | conf.ts:68-78 | a variable holding the decimal text of n (then any non-digit text) gives timeout n exactly when n is positive; the source agrees for n up to 2^53 |
| Conf.ConnectTimeoutExamples | conf.ts:68-78 | "123" and "123.456" give 123; "0", "-123", "string" and an unset variable give no timeout |
| Conf.VerboseExamples | conf.ts:67-75 | "1" and "true" switch verbose on; "false", "0", "invalid" and unset do not |
| Runner.ParseRunMode | runner.ts:24 | `isRunMode` accepts exactly "vim" and "nvim" |
| LegacyRunner.LegacyIsRunMode | denops_test/runner.ts:38-46 | the legacy `isRunMode` accepts exactly the names the current one accepts |
| Runner.ModeName | runner.ts:8 | each run mode's name is accepted by `isRunMode` and maps back to that mode |
| Runner.BuildArgs | runner.ts:55-82 | Vim gets the 11 fixed flags ending in `-c visual`, Neovim the 4 fixed flags |
| Runner.CommandPairs | runner.ts:41 | the flattened pairs hold twice as many entries as there are commands |
| Runner.CommandPairsAt | runner.ts:41 | command `i` sits at position `2i + 1`, right after its own "-c", so the commands keep their input order |
| Runner.SplitCommandPairsRoundTrip | runner.ts:41 | the "-c" pairs are read back into exactly the command list and the text after it |
| Runner.Run | runner.ts:33-53 | the executable is the mode's configured one; the argv has room for the verbose pair (only when verbose), the base flags and two entries per command; the option's verbose wins over the config's; stdin is piped; stdout and stderr are inherited when verbose and discarded otherwise; env passes through |
| Runner.RunLayout | runner.ts:39-46 | the argv of `run` is the verbose pair (only when verbose), then the mode's base flags, then one "-c" pair per command in input order |
| Runner.RunArgsRoundTrip | runner.ts:33-53 | the argv `run` builds determines its verbose flag and its command list |
| LegacyRunner.LegacyBuildArgs | denops_test/runner.ts:48-61 | Vim gets 9 fixed flags without `-c visual`, Neovim the same 4 flags |
| LegacyRunner.LegacyRun | denops_test/runner.ts:15-33 | the executable is the mode's; the argv has room for the verbose pair (only when the option is true), two entries per command and the base flags; streams follow the option alone; env passes through |
| LegacyRunner.LegacyRunLayout | denops_test/runner.ts:20-26 | the legacy argv is the verbose pair (only when the option is true), then one "-c" pair per command in input order, then the base flags |
| LegacyRunner.LegacyRunArgsRoundTrip | denops_test/runner.ts:20-24 | the legacy argv determines its verbose flag and its command list |
| LegacyRunner.RunnersAgreeOnCommands | denops_test/runner.ts:21 | both runners hand the editor the same commands in the same order with the same verbose flag, when the option is given |
| Denops.Envelope | denops.ts:28-61 | every method sends a two-element "invoke" request, its method name first and an argument array second |
| Denops.New | denops.ts:10-26 | name and meta are those given at construction; dispatcher and context start empty |
| Denops.Redraw | denops.ts:28-30 | `redraw` sends the optional flag as a one-element array |
| Denops.Call | denops.ts:32-34 | `call` sends the function name followed by the arguments |
| Denops.Batch | denops.ts:45-49 | `batch` sends the list of calls itself, one `[fn, ...args]` array per call, in order |
| Denops.Cmd | denops.ts:51-53 | `cmd` sends the command and the context, `{}` when none is given |
| Denops.Eval | denops.ts:55-57 | `eval` sends the expression and the context, `{}` when none is given |
| Denops.Dispatch | denops.ts:59-61 | `dispatch` sends the plugin name, the function name, then the arguments |
| Denops.CallReply | denops.ts:35-41 | a rejection with a bare string becomes an Error with that message; everything else passes unchanged; no bare-string rejection survives |
| Plugin.Address | plugin.ts:14-17 | an unset or empty `DENOPS_TEST_ADDRESS` throws "is not set"; otherwise the address is its value |
| Plugin.Invoke | plugin.ts:57-78 | the six method names are routed to the same-named method exactly when that method's shape check accepts the arguments; a failed check throws and calls nothing; any other name throws "Unknown denops method '<name>' is specified" |
| Plugin.SessionDispatch | plugin.ts:34-40 | the session's only entry is "invoke"; a missing or non-string name, or missing or non-array arguments, fail the assertion; a well-formed call is routed by name, with the arguments as given |
| Plugin.FacadeArgsAccepted | plugin.ts:80-94 | every argument array the harness side builds passes the matching shape check |
| Plugin.EnvelopeRoundTrip | plugin.ts:34-78 | what the harness side sends for a method call, the plugin routes back to that same method call |
| Plugin.AcceptedArgsReencode | plugin.ts:62-94 | whatever the plugin accepts is exactly what the harness side would send for the routed call (an absent context aside) |
| Plugin.RedrawWithoutFlagNeedsUndefined | plugin.ts:80 | `redraw()` without a flag is accepted as the `[undefined]` the harness sends, but the same call delivered as `[null]` fails the redraw check |
| Plugin.CheckEdgeCases | plugin.ts:80-94 | the empty array is no `call`, the empty batch is a batch, one string is no `dispatch`, `[]` is no `redraw`, and `cmd` takes an absent context but not `null` |
| Plugin.ProxyAccess | plugin.ts:41-54 | reading any key gives a forwarder that sends ("dispatch", key, args) with the arguments packed in one array; writing or deleting throws the read-only error |
| Stub.Name | stub.ts:97-99 | the stubber's name, else "denops-test-stub" |
| Stub.GetMeta | stub.ts:101-108 | the stubber's meta, else release/vim/0.0.0/linux |
| Stub.NormArgs | stub.ts:220-229 | the result is the prefix of the arguments that stops just before the first `undefined`, dropping any defined value after it |
| Stub.NormArgsUnique | stub.ts:220-229 | any prefix that holds no `undefined` and stops at one is `normArgs`'s result |
| Stub.NormArgsKeepsDefined | stub.ts:220-229 | arguments without `undefined` pass unchanged |
| Stub.NormArgsIdempotent | stub.ts:220-229 | normalising twice is normalising once |
| Stub.Redraw | stub.ts:120-125 | the redraw stub gets the flag as given; without one the answer is `undefined` and nothing is called |
| Stub.RedrawMatchesFacade | stub.ts:120-125 | the request the redraw stub records is the one the plugin routes when the real Denops object sends `redraw` with the same flag |
| Stub.Call | stub.ts:134-140 | the call stub gets the function name and the normalised arguments; without one the answer is `undefined` and nothing is called |
| Stub.Batch | stub.ts:148-159 | the batch stub (given normalised calls) wins; else, with a call stub and `useCallInBatch`, entry i is `call(fn_i, ...args_i)` in order; else one `undefined` per call |
| Stub.BatchOneAnswerPerCall | stub.ts:153-158 | without a batch stub there is one answer per call, and the call-stub path makes exactly the calls of calling each entry in turn |
| Stub.BatchTraceIsCallTrace | stub.ts:153-157 | the call-stub path of `batch` calls the stub once per entry, in order, as `call` would |
| Stub.Cmd | stub.ts:168-176 | the cmd stub wins (context `{}` by default); else, with a call stub and `useCallInCmd`, it goes through `call("denops#api#cmd", cmd, ctx)` and the answer is dropped; else `undefined` |
| Stub.CmdThroughCall | stub.ts:172-174 | the forwarded command reaches the call stub as exactly `[cmd, ctx]` |
| Stub.Eval | stub.ts:185-193 | the eval stub wins (context `{}` by default); else, with a call stub and `useCallInEval`, the answer of `call("denops#api#eval", expr, ctx)`; else `undefined` |
| Stub.EvalThroughCall | stub.ts:189-191 | the forwarded expression reaches the call stub as exactly `[expr, ctx]`, and its answer is the result |
| Stub.Dispatch | stub.ts:203-212 | the dispatch stub gets the arguments as given, without normalising; without one the answer is `undefined` |
| Stub.DispatchMatchesFacade | stub.ts:203-212 | the request the dispatch stub records is the one the plugin routes when the real Denops object sends `dispatch` with the same arguments |
| Stub.DispatchKeepsUndefined | stub.ts:203-212 | an `undefined` argument reaches the dispatch stub, while the call stub sees the arguments cut off before it |
| Stub.EmptyStubberDefaults | stub.ts:93-212 | the empty stubber gives the default name and meta and answers every method with `undefined` (one per batch entry) |
| With.ResolveOptions | with.ts:70-77 | a given option wins; otherwise the plugin name is "@denops-test", verbose is the config's, prelude and postlude are empty, and the timeout is the config's, else 30000 |
| With.DefaultTimeoutPositive | with.ts:76 | when the caller gives no timeout, the one used is positive |
| With.EscapeSpaces | with.ts:82 | every space of the escaped path is preceded by a backslash, and the result never starts with a space |
| With.EscapeSpacesRoundTrip | with.ts:82 | undoing the space escape (backslash-space as space) restores the path |
| With.OptionValueOfEscaped | with.ts:82 | when the path holds no backslash, `\|`, `"`, tab or newline, the modelled `:set` reading (a backslash takes the next character literally; an unescaped `\|`, `"`, newline, space or tab ends the value) gives back exactly the path |
| With.QuoteAndTabCutPath | with.ts:82 | the space-only escape leaves a `"` or a tab unescaped, so the editor reads "/a\"b" and "/a<tab>b" as "/a" |
| With.BackslashIsDropped | with.ts:82 | the space-only escape leaves a backslash unescaped, so the editor reads "/a\\b" as "/ab" |
| With.RegistrationEntry | with.ts:83-89 | the entry is exactly "try", the line that loads the named plugin from its URL, the catch of error E117, the line that registers the named plugin and URL on `DenopsReady`, and "endtry", joined with " \| " |
| With.RegistrationCommands | with.ts:83-89 | when neither the plugin name nor its URL holds a `\|`, the editor's split of the entry at its bars gives back exactly those five commands, in order |
| With.Commands | with.ts:79-92 | the commands are the prelude, the test flag, the escaped runtime path, the registration entry and the server start, then the postlude |
| With.RuntimePathIsDenopsPath | with.ts:82 | the runtime-path command carries the denops path with its spaces escaped: undoing the escape restores the path, and the modelled `:set` reading gives back exactly the path when it holds no backslash, `\|`, `"`, tab or newline |
| With.Launch | with.ts:164-169 | the editor gets exactly the command list and the resolved verbose flag, and only `DENOPS_TEST_ADDRESS` as extra environment |
| With.AddressReachesPlugin | with.ts:164-169 | the plugin inside the spawned editor reads exactly the address the harness listens on |
| With.Start | with.ts:65-77 | a configuration error is thrown before anything is spawned; otherwise the editor is launched with the resolved options |
| With.Perform | with.ts:99-163 | a failed accept becomes "[denops-test] Connection failed." with the failure as its cause, and the listener is closed either way; once connected: the meta handshake, then the body on a Denops object with the plugin name and the received meta; the session is always shut down; a failed handshake skips the body |
| With.HandshakeReachesMetaGet | with.ts:126-130 | the plugin side routes the meta handshake to its own `call("denops#_internal#meta#get")` |
| With.HandleDispatch | with.ts:132-138 | only "dispatch" is served; a name that is not a string, or arguments that are not an array, fail the assertion; a known name calls its handler with the arguments spread, whatever the handler answers; an unknown name is the "is not a function" type error |
| With.ProxyReachesHandler | with.ts:132-138 | a call through the plugin's proxy reaches the test's handler of that name with the same arguments, or fails as a missing function |
| With.OutputSuffix | with.ts:175-177 | non-empty output sits between the opening output marker and the output-end marker, with nothing else; no output gives a full stop |
| With.AbortMessage | with.ts:172-181 | the abort message starts "[denops-test] Process aborted (<mode>, code=", the exit code reads back from it, and right after the code come ")" and the output block or "." |
| With.Settle | with.ts:170-183 | the race settles with perform's outcome if that finishes first; a clean exit resolves; an unclean exit throws the abort message |
| With.SettleAfterPerform | with.ts:141-183 | when perform wins, `withDenops` succeeds exactly when the accept succeeded, the handshake answered and the body succeeded on the Denops object built from that answer; a failed accept surfaces as the connection error, a failed handshake as its own error |
| With.VerboseReachesEditor | with.ts:70-169 | from the environment to the spawned editor: a missing denops path throws before the launch; otherwise, without a verbose option, the argv starts with the verbose pair exactly when `DENOPS_TEST_VERBOSE` is "1" or "true", and a given option wins |
| Tester.TestInternal | tester.ts:112-145 | "all" gives a Vim and then a Neovim registration named "<name> (vim)" / "<name> (nvim)"; "any" gives one for the pick, named after it; a concrete mode keeps the name; every registration keeps the body and the other fields and forwards plugin name, verbose, prelude and postlude |
| Tester.Test | tester.ts:90-110 | the positional form throws "'name' attribute is required" for a falsy name, then "'fn' attribute is required" for a missing body; the definition form is registered as given |
| Tester.PositionalIsDefinition | tester.ts:95-108 | the positional form registers what the definition form with the same mode, name and body registers |
| Tester.AllNamesDistinct | tester.ts:114-124 | the two "all" registrations have different names |
| LegacyTester.LegacyTestInternal | denops_test/tester.ts:74-106 | the same fan-out as the current one, but a registration forwards only verbose, prelude and postlude |
| LegacyTester.LegacyTest | denops_test/tester.ts:52-72 | the same checks, name first, as the current `test` |
| LegacyTester.LegacyIsCurrentWithoutPluginName | denops_test/tester.ts:74-106 | the legacy registrations are the current ones with the plugin name dropped |
| LegacyTester.LegacyTestAgrees | denops_test/tester.ts:52-72 | without a plugin name both versions register the same tests |
| OrElse.OrElse | denops_test/or_else.ts:4-9 | the fallback runs exactly when the value is `undefined` or `null` (loose equality) and then gives the result; otherwise the value is returned unchanged |
| OrElse.OrElseKeepsPresent | denops_test/or_else.ts:5-8 | a present value is kept whatever the fallback, and a second fallback changes nothing |

## Left out

- Sockets, the listener, connecting and accepting, the spawn, closing stdin and killing the editor are I/O. Their results are parameters: an accept failure, a meta reply, and which branch of the race settled first with what exit status and output.
- Timers (`deadline`, the `setTimeout` workaround), `AbortController` and the concurrency of `Promise.race` are not modelled. `With.Settle` only decides the outcome from the branch that settled first. The connect timeout is resolved but never used.
- The msgpack-rpc session, client and codec are a foreign library. A call is the `Request` handed to the client. The codec turns `undefined` into nil, which arrives as `null`. The model carries `Undefined` unchanged, so the wire contract is stated for values as they are sent.
- The error-object serialisation of `error.ts` is a wrapper over code not shown. An `ensure`/`assert` failure is the single error `AssertionFailed`, because its message text comes from the validation library. A method missing from an RPC session is `NoSuchMethod`.
- The session's invalid-message and message-error logging goes to the console.
- `path.resolve` is a function parameter of `Conf.GetConfig`.
- `Runner.Run`: `run` reads the configuration itself with `getConfig()` (runner.ts:38). The model takes that configuration as the `conf` parameter, so the throw that `getConfig()` raises when `DENOPS_TEST_DENOPS_PATH` is unset, and the cache it fills, are not part of `Runner.Run`. `Conf.GetConfig` models that throw. Inside `withDenops`, `getConfig()` runs first (with.ts:70) and fills the cache, so the `getConfig()` inside `run` returns that same configuration and cannot throw there (`Conf.CacheIsSticky`). `With.Start` models that composition.
- `JSON.stringify` of the listener address is a string parameter of `With.Launch`. `AddressReachesPlugin` requires it to be non-empty, which a JSON object text always is. `JSON.parse` in the plugin is left out with the connect.
- `Values.Value`: numbers are integers. Nothing in the modelled code computes with fractions, and floating point is not modelled.
- With.RuntimePathIsDenopsPath: the editor's reading of the path is modelled only up to `:set`'s backslash rule and the characters that end a value (`|`, `"`, newline, space, tab). A path holding a backslash, `|`, `"`, tab or newline does not reach the editor intact (`With.BackslashIsDropped`, `With.QuoteAndTabCutPath`). The split of 'runtimepath' at commas is not modelled, so a path holding a comma is read as two entries.
- With.OptionValueOfEscaped: `:set` expands environment variables (`$VAR`) and `~` in 'runtimepath'. That expansion is not modelled, so a path holding `$` or `~` may reach the editor changed even when the lemma's condition holds. The `|` and `"` rules come from how the editor splits a command line, and the white-space rule from how `:set` ends a value.
- Plugin.EnvelopeRoundTrip: the round trip holds for values as the harness sends them. The msgpack codec between the harness and the plugin writes `undefined` as nil, which the plugin receives as `null`. So `redraw()` without a flag, sent as `[undefined]`, would arrive as `[null]` and fail the redraw check (`Plugin.RedrawWithoutFlagNeedsUndefined`), although `with_test.ts:60-62` expects it to succeed. An `undefined` among `call` or `dispatch` arguments likewise arrives as `null`. Those checks accept it, but the plugin then sees a different value. The model does not decide which side is right.
- With.Settle: with.ts:172 uses a runner API that the modelled `runner.ts` lacks. The modelled `run` returns the bare child process, with no `waitClosed()` and no captured `output`, and it discards stdout and stderr unless verbose. So `Exit.output` is a free parameter, not tied to `Runner.Run`'s streams.
- `Decimal.ParseFormatRoundTrip`: `parseInt` is modelled as an optional sign and a decimal digit prefix. Leading whitespace and the `0x` prefix are not modelled, so `Conf.ConnectTimeout` is exact only for values without them. The model reads into unbounded integers, while `Number.parseInt` returns a double. So only magnitudes up to 2^53 are read exactly as the source reads them: "9007199254740993" gives 9007199254740992 in the source, and 309 or more digits give `Infinity`, which conf.ts:76 keeps as the timeout. The model gives the exact, finite integer in both cases.
- `Conf.ConnectTimeoutOfDecimal`: exact for every positive n in the model, and agrees with the source only for n up to 2^53, for the reason given on the previous line.
- `Stub.Redraw`, `Stub.Call`, `Stub.Batch`, `Stub.Cmd`, `Stub.Eval`, `Stub.Dispatch`: stubber functions are pure, total functions, so a stub that rejects is not modelled. The `useCallIn*` flags are booleans, with `false` for absent.
- `Stub`'s `interrupted` signal (an `AbortSignal`) and its writable `context` and `dispatcher` fields hold no logic.
- The test body (`fn`) is an opaque number. The random pick of "any" is a parameter. Registering with the test runner is returning the registrations.
- `LegacyRunner`: the executables the legacy configuration module reads when it loads are a parameter. That module, the legacy plugin's stream piping, the legacy `withDenops` and both `mod.ts` re-export files are not part of this model.
- `Tester.TestInternal`: a mode outside "vim", "nvim", "any" and "all" cannot be written. The code itself never rejects one; only the type system does.
- Registrations never carry "all" or "any", because their mode has type `RunMode`. The recursion goes at most one level deep (`ModeRank`).
- The stub's doc comment says the default `batch` resolves to an empty list. The code returns one `undefined` per call, and `Stub.Batch` follows the code.
