/** The credential check at the start of `main`. */
module Credentials {
  import opened Wrappers
  import opened Sequences

  /** The five variables the bot reads from its `.env` file, in order. */
  const Keys: seq<string> := ["API_KEY", "API_SECRET", "ACCESS_TOKEN", "ACCESS_TOKEN_SECRET", "BEARER_TOKEN"]

  /** `os.getenv(key)`: `None` when the variable is unset (set but empty counts as set). */
  function GetEnv(env: map<string, string>, key: string): (r: Option<string>)
    ensures r.None? <==> key !in env
    ensures r.Some? ==> r.value == env[key]
  {
    if key in env then Some(env[key]) else None
  }

  /** Line 29: one `(key, os.getenv(key))` pair per key, in key order. */
  function EnvVars(keys: seq<string>, env: map<string, string>): (r: seq<(string, Option<string>)>)
    ensures |r| == |keys|
    ensures forall i :: 0 <= i < |keys| ==> r[i].0 == keys[i] && (r[i].1.None? <==> keys[i] !in env)
    ensures forall i :: 0 <= i < |keys| && keys[i] in env ==> r[i].1 == Some(env[keys[i]])
  {
    seq(|keys|, i requires 0 <= i < |keys| => (keys[i], GetEnv(env, keys[i])))
  }

  /** The keys of a list of pairs. */
  function KeysOf(vars: seq<(string, Option<string>)>): (r: seq<string>)
    ensures |r| == |vars| && forall i :: 0 <= i < |vars| ==> r[i] == vars[i].0
  {
    if vars == [] then [] else [vars[0].0] + KeysOf(vars[1..])
  }

  /**
   * Line 31: `[key for key, value in env_vars.items() if value is None]`:
   * in order, the keys whose value is absent, and only those.
   */
  function MissingKeys(vars: seq<(string, Option<string>)>): (r: seq<string>)
    ensures IsSubsequence(r, KeysOf(vars))
    ensures forall k :: k in r <==> (k, None) in vars
  {
    if vars == [] then []
    else
      var rest := MissingKeys(vars[1..]);
      assert KeysOf(vars) == [vars[0].0] + KeysOf(vars[1..]);
      assert vars == [vars[0]] + vars[1..];
      SubsequenceSkip(rest, vars[0].0, KeysOf(vars[1..]));
      if vars[0].1.None? then [vars[0].0] + rest else rest
  }

  /** Over the variables read from the environment: exactly the unset keys, in key order. */
  lemma MissingKeysOfEnv(keys: seq<string>, env: map<string, string>)
    ensures IsSubsequence(MissingKeys(EnvVars(keys, env)), keys)
    ensures forall k :: k in MissingKeys(EnvVars(keys, env)) <==> k in keys && k !in env
  {
    var vars := EnvVars(keys, env);
    assert KeysOf(vars) == keys;
    forall k ensures (k, None) in vars <==> k in keys && k !in env {
      if (k, None) in vars {
        var i :| 0 <= i < |vars| && vars[i] == (k, None);
        assert keys[i] == k;
      }
      if k in keys && k !in env {
        var i :| 0 <= i < |keys| && keys[i] == k;
        assert vars[i] == (k, None);
      }
    }
  }

  /** When no key is missing, each of the five can be read. */
  lemma AllKeysPresent(env: map<string, string>)
    requires MissingKeys(EnvVars(Keys, env)) == []
    ensures forall k :: k in Keys ==> k in env
    ensures "API_KEY" in env && "API_SECRET" in env && "ACCESS_TOKEN" in env
    ensures "ACCESS_TOKEN_SECRET" in env && "BEARER_TOKEN" in env
  {
    MissingKeysOfEnv(Keys, env);
    assert Keys[0] in Keys && Keys[1] in Keys && Keys[2] in Keys && Keys[3] in Keys && Keys[4] in Keys;
  }

  datatype Credentials = Credentials(
    apiKey: string, apiSecret: string, accessToken: string, accessTokenSecret: string, bearerToken: string)

  /**
   * Lines 29-43: fail with the missing keys when any is unset; otherwise
   * hand the five values to the client constructors.
   */
  function CheckCredentials(env: map<string, string>): (r: Result<Credentials, seq<string>>)
    ensures r.Failure? ==> r.error == MissingKeys(EnvVars(Keys, env)) && r.error != []
    ensures r.Failure? ==> exists k :: k in Keys && k !in env
    ensures r.Success? ==> "API_KEY" in env && "API_SECRET" in env && "ACCESS_TOKEN" in env
    ensures r.Success? ==> "ACCESS_TOKEN_SECRET" in env && "BEARER_TOKEN" in env
    ensures r.Success? ==> r.value == Credentials(
      env["API_KEY"], env["API_SECRET"], env["ACCESS_TOKEN"], env["ACCESS_TOKEN_SECRET"], env["BEARER_TOKEN"])
  {
    var missing := MissingKeys(EnvVars(Keys, env));
    if missing != [] then
      MissingKeysOfEnv(Keys, env);
      assert missing[0] in missing;
      Failure(missing)
    else
      AllKeysPresent(env);
      Success(Credentials(
        env["API_KEY"], env["API_SECRET"], env["ACCESS_TOKEN"], env["ACCESS_TOKEN_SECRET"], env["BEARER_TOKEN"]))
  }
}
