/**
 * Build-time configuration: values read from the environment (`import.meta.env`) with a
 * fallback, and the API base URL and timeout derived from them.
 */
module Config {
  import opened Wrappers

  /** The environment: variable name to (string) value; a missing name reads as `undefined`. */
  type Env = map<string, string>

  /**
   * `env[key] || defaultValue || ''`: the variable when it is set to a non-empty value,
   * otherwise the default when one is given and non-empty, otherwise the empty string.
   */
  function ConfigValue(env: Env, key: string, defaultValue: Option<string>): (r: string)
    ensures key in env && env[key] != "" ==> r == env[key]
    ensures (key !in env || env[key] == "") && defaultValue.Some? && defaultValue.value != "" ==> r == defaultValue.value
    ensures r == "" <==> (key !in env || env[key] == "") && (defaultValue.None? || defaultValue.value == "")
  {
    if key in env && env[key] != "" then env[key]
    else if defaultValue.Some? && defaultValue.value != "" then defaultValue.value
    else ""
  }

  /** `import.meta.env.MODE === 'development'` */
  predicate IsDev(env: Env)
  {
    "MODE" in env && env["MODE"] == "development"
  }

  /** `config.api.baseUrl`: `'/api'` in development, otherwise `VITE_API_BASE_URL` or `''`. */
  function BaseUrl(env: Env): (url: string)
    ensures IsDev(env) ==> url == "/api"
    ensures !IsDev(env) && "VITE_API_BASE_URL" in env ==> url == env["VITE_API_BASE_URL"]
    ensures !IsDev(env) && "VITE_API_BASE_URL" !in env ==> url == ""
  {
    if IsDev(env) then "/api" else ConfigValue(env, "VITE_API_BASE_URL", Some(""))
  }

  // ----- parseInt(s, 10) -----

  /** StrWhiteSpaceChar: the white space and line terminators `parseInt` skips at the start. */
  predicate IsJsWhiteSpace(c: char)
  {
    c == '\t' || c == '\U{000B}' || c == '\U{000C}' || c == ' ' || c == '\U{00A0}' || c == '\U{FEFF}'
    || c == '\n' || c == '\r' || c == '\U{2028}' || c == '\U{2029}'
    // the other space separators (Unicode category Zs)
    || c == '\U{1680}' || ('\U{2000}' <= c <= '\U{200A}') || c == '\U{202F}' || c == '\U{205F}' || c == '\U{3000}'
  }

  predicate IsDigit(c: char)
  {
    '0' <= c <= '9'
  }

  function DigitOf(c: char): nat
    requires IsDigit(c)
  {
    c as int - '0' as int
  }

  /** The value of a string of decimal digits, most significant first. */
  function DigitsValue(d: string): nat
    requires forall k :: 0 <= k < |d| ==> IsDigit(d[k])
  {
    if d == [] then 0 else 10 * DigitsValue(d[..|d| - 1]) + DigitOf(d[|d| - 1])
  }

  /** The length of the longest prefix of `s` made of decimal digits. */
  function DigitPrefix(s: string): (n: nat)
    ensures n <= |s|
    ensures forall k :: 0 <= k < n ==> IsDigit(s[k])
    ensures n == |s| || !IsDigit(s[n])
  {
    if s != [] && IsDigit(s[0]) then 1 + DigitPrefix(s[1..]) else 0
  }

  /** `s` with its leading white space removed. */
  function TrimStart(s: string): (t: string)
    ensures |t| <= |s| && t == s[|s| - |t|..]
    ensures t == [] || !IsJsWhiteSpace(t[0])
    ensures forall k :: 0 <= k < |s| - |t| ==> IsJsWhiteSpace(s[k])
  {
    if s != [] && IsJsWhiteSpace(s[0]) then
      var t := TrimStart(s[1..]);
      assert forall k :: 1 <= k < |s| - |t| ==> s[1..][k - 1] == s[k];
      t
    else s
  }

  /**
   * `parseInt(s, 10)`: after leading white space, an optional sign and the longest run of
   * digits; None (NaN) when there is no digit. `-0` is 0 here.
   */
  function ParseInt(s: string): (r: Option<int>)
  {
    var t := TrimStart(s);
    var negative := t != [] && t[0] == '-';
    var body := if t != [] && (t[0] == '-' || t[0] == '+') then t[1..] else t;
    var n := DigitPrefix(body);
    if n == 0 then None
    else
      var v: int := DigitsValue(body[..n]);
      Some(if negative then -v else v)
  }

  /** A non-empty string of digits parses to its decimal value. */
  lemma {:induction false} ParseIntDigits(d: string)
    requires d != [] && forall k :: 0 <= k < |d| ==> IsDigit(d[k])
    ensures ParseInt(d) == Some(DigitsValue(d))
  {
    assert TrimStart(d) == d;
    AllDigitsPrefix(d);
    assert d[..|d|] == d;
  }

  lemma {:induction false} AllDigitsPrefix(d: string)
    requires forall k :: 0 <= k < |d| ==> IsDigit(d[k])
    ensures DigitPrefix(d) == |d|
  {
    if d != [] {
      AllDigitsPrefix(d[1..]);
    }
  }

  /** parseInt gives NaN exactly when no digit follows the leading white space and an optional sign. */
  lemma ParseIntNaN(s: string)
    ensures var t := TrimStart(s);
      var body := if t != [] && (t[0] == '-' || t[0] == '+') then t[1..] else t;
      ParseInt(s).None? <==> (body == [] || !IsDigit(body[0]))
  {
  }

  /** `config.api.timeout`: `parseInt(VITE_API_TIMEOUT || '10000', 10)`. None stands for NaN. */
  function Timeout(env: Env): Option<int>
  {
    ParseInt(ConfigValue(env, "VITE_API_TIMEOUT", Some("10000")))
  }

  /** With `VITE_API_TIMEOUT` unset or empty the timeout is 10000 ms. */
  lemma DefaultTimeout(env: Env)
    requires "VITE_API_TIMEOUT" !in env || env["VITE_API_TIMEOUT"] == ""
    ensures Timeout(env) == Some(10000)
  {
    assert ConfigValue(env, "VITE_API_TIMEOUT", Some("10000")) == "10000";
    ParseIntDigits("10000");
    TenThousand();
  }

  lemma TenThousand()
    ensures DigitsValue("10000") == 10000
  {
    assert DigitsValue("1") == 1 by { assert "1"[..0] == ""; }
    assert DigitsValue("10") == 10 by { assert "10"[..1] == "1"; }
    assert DigitsValue("100") == 100 by { assert "100"[..2] == "10"; }
    assert DigitsValue("1000") == 1000 by { assert "1000"[..3] == "100"; }
    assert "10000"[..4] == "1000";
  }

  /** When it is set to digits only, the timeout is their decimal value. */
  lemma ConfiguredTimeout(env: Env)
    requires "VITE_API_TIMEOUT" in env && env["VITE_API_TIMEOUT"] != ""
    requires forall k :: 0 <= k < |env["VITE_API_TIMEOUT"]| ==> IsDigit(env["VITE_API_TIMEOUT"][k])
    ensures Timeout(env) == Some(DigitsValue(env["VITE_API_TIMEOUT"]))
  {
    ParseIntDigits(env["VITE_API_TIMEOUT"]);
  }
}
