/** Configuration the connector reads from the process environment: required
    variables, which raise when unset, and the optional `SSL_VERIFY` switch. */
module Config {
  import opened Wrappers
  import opened Errors

  /** The process environment as the connector sees it once `enovia.env` has
      been loaded. */
  type Env = map<string, string>

  const BASE_URL_VAR := "BASE_URL"
  const SERVICE_NAME_VAR := "SERVICE_NAME"
  const SERVICE_SECRET_VAR := "SERVICE_SECRET"
  const USER_VAR := "ENOVIA_USER"
  const SSL_VERIFY_VAR := "SSL_VERIFY"

  /** `os.getenv(name)`. */
  function LookupEnv(env: Env, name: string): (r: Option<string>)
    ensures r.Some? <==> name in env
    ensures r.Some? ==> r.value == env[name]
  {
    if name in env then Some(env[name]) else None
  }

  /** `_get_env_var(name)`: the value of a set variable; an unset one raises
      `EnvironmentError` naming it. */
  function GetEnvVar(env: Env, name: string): (r: Result<string, Error>)
    ensures r.Success? <==> name in env
    ensures r.Success? ==> r.value == env[name]
    ensures r.Failure? ==> r.error == EnvironmentError(name)
  {
    match LookupEnv(env, name)
    case Some(v) => Success(v)
    case None => Failure(EnvironmentError(name))
  }

  function LowerChar(c: char): char {
    if 'A' <= c <= 'Z' then (c as int - 'A' as int + 'a' as int) as char else c
  }

  /** `s.lower()` on ASCII letters. Python's `lower` also folds other scripts,
      but no character outside ASCII lower-cases to one of the letters of
      `false`, so comparing the result with `"false"` is decided the same way. */
  function Lower(s: string): (r: string)
    ensures |r| == |s|
    ensures forall i :: 0 <= i < |s| ==> r[i] == LowerChar(s[i])
  {
    seq(|s|, i requires 0 <= i < |s| => LowerChar(s[i]))
  }

  /** The value `start_session` stores in `SSL_VERIFY`: true when the variable is
      unset, otherwise whether its lower-cased text differs from `false`. */
  function SslVerify(setting: Option<string>): bool {
    match setting
    case None => true
    case Some(s) => Lower(s) != "false"
  }

  /** The variable being unset keeps certificate verification on. */
  lemma SslVerifyUnset()
    ensures SslVerify(None)
  {
  }

  /** Verification is off exactly for the five letters of `false` in any mix of
      cases, and on for every other text, the empty one included. */
  lemma SslVerifyOffExactlyForFalse(s: string)
    ensures !SslVerify(Some(s)) <==> |s| == 5 && forall i :: 0 <= i < 5 ==> LowerChar(s[i]) == "false"[i]
  {
    if |s| == 5 && forall i :: 0 <= i < 5 ==> LowerChar(s[i]) == "false"[i] {
      assert Lower(s) == "false";
    }
  }

  lemma SslVerifyExamples()
    ensures !SslVerify(Some("false")) && !SslVerify(Some("False")) && !SslVerify(Some("FALSE"))
    ensures SslVerify(Some("")) && SslVerify(Some("true")) && SslVerify(Some("0")) && SslVerify(Some("no"))
    ensures SslVerify(Some(" false")) && SslVerify(Some("falsey"))
  {
    SslVerifyOffExactlyForFalse("false");
    SslVerifyOffExactlyForFalse("False");
    SslVerifyOffExactlyForFalse("FALSE");
  }
}
