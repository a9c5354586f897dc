/**
 * The harness configuration read from `DENOPS_TEST_*` environment
 * variables, and the write-once cache in front of it. The environment is a
 * map from variable name to value (an absent key is an unset variable), the
 * cache is threaded through explicitly, and path resolution is a parameter.
 */
module Conf {
  import opened Values
  import Decimal

  datatype Config = Config(
    denopsPath: string,
    vimExecutable: string,
    nvimExecutable: string,
    verbose: bool,
    connectTimeout: Option<int>)

  type Env = map<string, string>

  const DenopsPathVar := "DENOPS_TEST_DENOPS_PATH"
  const VimExecutableVar := "DENOPS_TEST_VIM_EXECUTABLE"
  const NvimExecutableVar := "DENOPS_TEST_NVIM_EXECUTABLE"
  const VerboseVar := "DENOPS_TEST_VERBOSE"
  const ConnectTimeoutVar := "DENOPS_TEST_CONNECT_TIMEOUT"

  const MissingDenopsPath := "Environment variable 'DENOPS_TEST_DENOPS_PATH' is required"

  /** `Deno.env.get(name)`. */
  function Get(env: Env, name: string): Option<string> {
    if name in env then Some(env[name]) else None
  }

  /** The verbose flag: only the exact texts "1" and "true" switch it on. */
  function VerboseFlag(raw: Option<string>): (on: bool)
    ensures on <==> raw == Some("1") || raw == Some("true")
  {
    raw.Some? && (raw.value == "1" || raw.value == "true")
  }

  /**
   * The connect timeout: the integer `parseInt` reads from the variable (an
   * unset variable reads as ""), kept only when it is positive.
   */
  function ConnectTimeout(raw: Option<string>): (t: Option<int>)
    ensures t.Some? ==> t.value > 0
    ensures t.Some? ==> Decimal.ParseIntPrefix(raw.GetOr("")) == Some(t.value)
    ensures t.None? ==> Decimal.ParseIntPrefix(raw.GetOr("")).None?
                        || Decimal.ParseIntPrefix(raw.GetOr("")).value <= 0
  {
    match Decimal.ParseIntPrefix(raw.GetOr(""))
    case None => None
    case Some(n) => if n <= 0 then None else Some(n)
  }

  /** The result of one `getConfig()` call and the cache it leaves behind. */
  datatype Loaded = Loaded(result: Outcome<Config>, cache: Option<Config>)

  /**
   * `getConfig()`: a cached configuration is returned as is; otherwise the
   * environment is read, and either the required denops path is missing
   * (the call throws and nothing is cached) or the new configuration is
   * returned and cached.
   */
  function GetConfig(cache: Option<Config>, env: Env, resolve: string -> string): (r: Loaded)
    ensures cache.Some? ==> r == Loaded(Returned(cache.value), cache)
    ensures cache.None? && !Truthy(Get(env, DenopsPathVar)) ==>
              r == Loaded(Threw(Error(MissingDenopsPath, None)), None)
    ensures cache.None? && Truthy(Get(env, DenopsPathVar)) ==>
              && r.result.Returned?
              && r.cache == Some(r.result.value)
              && r.result.value.denopsPath == resolve(env[DenopsPathVar])
              && r.result.value.vimExecutable == (if VimExecutableVar in env then env[VimExecutableVar] else "vim")
              && r.result.value.nvimExecutable == (if NvimExecutableVar in env then env[NvimExecutableVar] else "nvim")
              && (r.result.value.verbose <==> Get(env, VerboseVar) in {Some("1"), Some("true")})
              && r.result.value.connectTimeout == ConnectTimeout(Get(env, ConnectTimeoutVar))
  {
    if cache.Some? then
      Loaded(Returned(cache.value), cache)
    else
      var denopsPath := Get(env, DenopsPathVar);
      if !Truthy(denopsPath) then
        Loaded(Threw(Error(MissingDenopsPath, None)), None)
      else
        var conf := Config(
          resolve(denopsPath.value),
          Get(env, VimExecutableVar).GetOr("vim"),
          Get(env, NvimExecutableVar).GetOr("nvim"),
          VerboseFlag(Get(env, VerboseVar)),
          ConnectTimeout(Get(env, ConnectTimeoutVar)));
        Loaded(Returned(conf), Some(conf))
  }

  /**
   * Once a call has succeeded, every later call returns that same
   * configuration, whatever the environment has become.
   */
  lemma CacheIsSticky(env1: Env, env2: Env, resolve: string -> string)
    requires GetConfig(None, env1, resolve).result.Returned?
    ensures var first := GetConfig(None, env1, resolve);
            GetConfig(first.cache, env2, resolve).result == first.result
  {
  }

  /**
   * A throwing call leaves the cache unset, so a later call reads the
   * environment afresh.
   */
  lemma FailureLeavesCacheUnset(env1: Env, env2: Env, resolve: string -> string)
    requires GetConfig(None, env1, resolve).result.Threw?
    ensures GetConfig(None, env1, resolve).cache.None?
    ensures GetConfig(GetConfig(None, env1, resolve).cache, env2, resolve) == GetConfig(None, env2, resolve)
  {
  }

  /** A variable holding the decimal text of `n` (then any non-digit tail). */
  lemma ConnectTimeoutOfDecimal(n: int, rest: string)
    requires |rest| == 0 || !Decimal.IsDigit(rest[0])
    ensures ConnectTimeout(Some(Decimal.FormatInt(n) + rest)) == (if n > 0 then Some(n) else None)
  {
    Decimal.ParseFormatRoundTrip(n, rest);
  }

  /** The example values the configuration's own tests use. */
  lemma ConnectTimeoutExamples()
    ensures ConnectTimeout(Some("123")) == Some(123)
    ensures ConnectTimeout(Some("123.456")) == Some(123)
    ensures ConnectTimeout(Some("0")) == None
    ensures ConnectTimeout(Some("-123")) == None
    ensures ConnectTimeout(Some("string")) == None
    ensures ConnectTimeout(None) == None
  {
    assert Decimal.FormatInt(123) == "123";
    assert "123" + "" == "123";
    ConnectTimeoutOfDecimal(123, "");
    assert "123" + ".456" == "123.456";
    ConnectTimeoutOfDecimal(123, ".456");
    assert Decimal.FormatInt(0) == "0" == "0" + "";
    ConnectTimeoutOfDecimal(0, "");
    assert Decimal.FormatInt(-123) == "-123" == "-123" + "";
    ConnectTimeoutOfDecimal(-123, "");
    assert Decimal.LeadingDigits("string") == [];
    assert Decimal.LeadingDigits("") == [];
  }

  lemma VerboseExamples()
    ensures VerboseFlag(Some("1")) && VerboseFlag(Some("true"))
    ensures !VerboseFlag(Some("false")) && !VerboseFlag(Some("0"))
    ensures !VerboseFlag(Some("invalid")) && !VerboseFlag(None)
  {
  }
}
