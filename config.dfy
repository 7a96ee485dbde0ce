/** Startup configuration: the process environment turned into the values
    every other part of the gateway reads, or a startup failure. */
module Config {
  import opened Wrappers
  import opened JsText

  const DefaultPort: string := "3001"
  const DefaultOrigins: seq<string> := ["*"]
  const DefaultEnvironment: string := "development"

  /** The variables the loader reads; `None` is an unset variable. */
  datatype Env = Env(
    port: Option<string>,
    authKey: Option<string>,
    allowedOrigins: Option<string>,
    nodeEnv: Option<string>)

  /** The resolved configuration, fixed for the life of the process. */
  datatype Settings = Settings(
    port: Number,
    authKey: string,
    allowedOrigins: seq<string>,
    nodeEnv: string)

  /** What startup comes to: the process exits with `code` before the
      listener is bound, or it goes on to listen with `settings`. */
  datatype Startup = Halted(code: int) | Listening(settings: Settings)

  /** JavaScript's `value || fallback` on a string that may be undefined:
      both an unset and an empty value are falsy. */
  function OrElse(value: Option<string>, fallback: string): (r: string)
    ensures (value == None || value == Some("")) ==> r == fallback
    ensures value.Some? && value.value != "" ==> r == value.value
  {
    if value.Some? && value.value != "" then value.value else fallback
  }

  /** JavaScript's `value?.split(',') || fallback`: optional chaining only
      stops at an unset value, and an array is always truthy, so a set but
      empty value splits into `[""]` rather than falling back. */
  function SplitOrElse(value: Option<string>, fallback: seq<string>): (r: seq<string>)
    ensures value.None? ==> r == fallback
    ensures value.Some? ==> r == Split(value.value, ',')
  {
    match value
    case None => fallback
    case Some(v) => Split(v, ',')
  }

  /** The configuration block of the entry point: defaults for the port, the
      origin list and the environment name, and an exit with code 1 when the
      shared secret is unset or empty. */
  function Resolve(env: Env): (r: Startup)
    ensures r.Halted? <==> env.authKey == None || env.authKey == Some("")
    ensures r.Halted? ==> r.code == 1
    ensures r.Listening? ==> r.settings.authKey == env.authKey.value && r.settings.authKey != ""
  {
    var port := ParseInt(OrElse(env.port, DefaultPort));
    var authKey := OrElse(env.authKey, "");
    var origins := SplitOrElse(env.allowedOrigins, DefaultOrigins);
    var nodeEnv := OrElse(env.nodeEnv, DefaultEnvironment);
    if authKey == "" then Halted(1)
    else Listening(Settings(port, authKey, origins, nodeEnv))
  }

  /** An unset or empty `PORT` resolves to port 3001. */
  lemma DefaultPortIs3001(env: Env)
    requires env.port == None || env.port == Some("")
    ensures Resolve(env).Listening? ==> Resolve(env).settings.port == Finite(3001)
  {
    DefaultPortParses();
  }

  lemma DefaultPortParses()
    ensures ParseInt(DefaultPort) == Finite(3001)
  {
    var p := DefaultPort;
    assert !IsJsWhiteSpace(p[0]) && p[0] != '-' && p[0] != '+';
    assert TrimStart(p) == p;
    assert AllDigits(p);
    DigitPrefixOfDigits(p, "");
    assert p + "" == p;
    assert p[..3] == "300" && p[..3][..2] == "30" && p[..3][..2][..1] == "3";
    assert DecimalValue("3") == 3;
    assert DecimalValue("30") == 30;
    assert DecimalValue("300") == 300;
  }

  /** A `PORT` that starts with the decimal digits of `n`, after any number
      of leading zeros, resolves to `n`; any non-digit text after the digits
      is ignored. */
  lemma PortIsParsed(env: Env, zeros: string, n: nat, rest: string)
    requires AllZeros(zeros)
    requires env.port == Some(zeros + Decimal(n) + rest)
    requires rest == [] || !IsDigit(rest[0])
    requires env.authKey.Some? && env.authKey.value != ""
    ensures Resolve(env).settings.port == Finite(n)
  {
    ParseIntLeadingZeros(zeros, n, rest);
  }

  /** A `PORT` with no digits to read resolves to NaN rather than to the
      default: the fallback applies only to an unset or empty value. */
  lemma PortWithoutDigitsIsNaN(env: Env)
    requires env.port.Some? && env.port.value != ""
    requires ParseIntDigits(env.port.value) == []
    requires Resolve(env).Listening?
    ensures Resolve(env).settings.port == NaN
  {
    ParseIntNaN(env.port.value);
  }

  /** The origin list: `["*"]` when `ALLOWED_ORIGINS` is unset, otherwise
      its comma-separated pieces, which join back to the variable's value. */
  lemma OriginsResolution(env: Env)
    requires Resolve(env).Listening?
    ensures env.allowedOrigins.None? ==> Resolve(env).settings.allowedOrigins == ["*"]
    ensures env.allowedOrigins == Some("") ==> Resolve(env).settings.allowedOrigins == [""]
    ensures env.allowedOrigins.Some? ==>
      Join(Resolve(env).settings.allowedOrigins, ',') == env.allowedOrigins.value
    ensures forall i :: 0 <= i < |Resolve(env).settings.allowedOrigins| ==>
      ',' !in Resolve(env).settings.allowedOrigins[i]
  {
  }

  /** An unset or empty `NODE_ENV` resolves to "development"; any other
      value is kept as it is. */
  lemma EnvironmentName(env: Env)
    requires Resolve(env).Listening?
    ensures (env.nodeEnv == None || env.nodeEnv == Some("")) ==>
      Resolve(env).settings.nodeEnv == "development"
    ensures env.nodeEnv.Some? && env.nodeEnv.value != "" ==>
      Resolve(env).settings.nodeEnv == env.nodeEnv.value
  {
  }
}
