/**
 * The configuration loader: each setting is read from the process environment
 * (a parameter here), falling back to its default when the variable is unset
 * or empty; a setting with neither fails with "Missing environment variable".
 * Numeric settings go through `parseInt(_, 10)`.
 */
module EnvConfig {
  import opened Wrappers
  import opened JsValue

  /** A resolved setting, and whether the "using default value" warning was printed. */
  datatype Resolved = Resolved(value: string, warned: bool)

  /** `getEnvVar(key, defaultValue)` against the environment `env`. */
  function GetEnvVar(env: map<string, string>, key: string, default: Option<string>): (r: Result<Resolved, string>)
    ensures key in env && env[key] != "" ==> r == Success(Resolved(env[key], false))
    ensures (key !in env || env[key] == "") && default.Some? ==> r == Success(Resolved(default.value, true))
    ensures (key !in env || env[key] == "") && default.None? ==> r == Failure("Missing environment variable: " + key)
    ensures r.Success? ==> r.value.warned <==> (key !in env || env[key] == "")
  {
    var unset := key !in env || env[key] == "";
    var value := if unset then default else Some(env[key]);
    if value.None? then Failure("Missing environment variable: " + key)
    else Success(Resolved(value.value, unset && default.Some?))
  }

  /** A setting with a default never fails, and a set variable wins over it. */
  lemma DefaultNeverFails(env: map<string, string>, key: string, default: string)
    ensures GetEnvVar(env, key, Some(default)).Success?
    ensures GetEnvVar(env, key, Some(default)).value.value == (if key in env && env[key] != "" then env[key] else default)
  {
  }

  // ---------------------------------------------------------------------------
  // parseInt(s, 10)
  // ---------------------------------------------------------------------------

  /** The longest prefix of decimal digits. */
  function DigitPrefix(s: string): (r: string)
    ensures AllDigits(r) && |r| <= |s| && r == s[..|r|]
    ensures |r| < |s| ==> !IsDigit(s[|r|])
  {
    if s != [] && IsDigit(s[0]) then [s[0]] + DigitPrefix(s[1..]) else ""
  }

  /** `parseInt(s, 10)`: leading whitespace, an optional sign, then the longest
      run of digits; None (NaN) when there is no digit. */
  function ParseInt(s: string): Option<int> {
    ParseSigned(TrimStart(s))
  }

  /** `parseInt` after the leading whitespace. */
  function ParseSigned(t: string): Option<int> {
    var negative := t != [] && t[0] == '-';
    var body := if t != [] && (t[0] == '-' || t[0] == '+') then t[1..] else t;
    var digits := DigitPrefix(body);
    if digits == "" then None
    else Some(if negative then -(DigitsValue(digits) as int) else DigitsValue(digits))
  }

  /** Reading a run of digits back gives its value, with or without a sign,
      whatever non-digit text follows it ("5000ms" reads as 5000). */
  lemma ParseDigits(d: string, rest: string)
    requires d != "" && AllDigits(d) && (rest == [] || !IsDigit(rest[0]))
    ensures ParseInt(d + rest) == Some(DigitsValue(d))
    ensures ParseInt("-" + (d + rest)) == Some(-(DigitsValue(d) as int))
    ensures ParseInt("+" + (d + rest)) == Some(DigitsValue(d))
  {
    var t := d + rest;
    assert t[0] == d[0];
    DigitPrefixStops(d, rest);
    UnsignedDigits(t, d);
    SignedDigits(t, d, '-');
    SignedDigits(t, d, '+');
  }

  lemma UnsignedDigits(t: string, d: string)
    requires d != "" && DigitPrefix(t) == d && IsDigit(t[0])
    ensures ParseInt(t) == Some(DigitsValue(d))
  {
    TrimStartKeeps(t);
    assert t[0] != '-' && t[0] != '+';
  }

  lemma SignedDigits(t: string, d: string, sign: char)
    requires d != "" && DigitPrefix(t) == d && (sign == '-' || sign == '+')
    ensures ParseInt([sign] + t) == Some(if sign == '-' then -(DigitsValue(d) as int) else DigitsValue(d))
  {
    var m := [sign] + t;
    TrimStartKeeps(m);
    assert m[1..] == t;
  }

  lemma TrimStartKeeps(s: string)
    requires s != [] && !IsWhitespace(s[0])
    ensures TrimStart(s) == s
  {
  }

  /** In particular a rendered natural number reads back as itself. */
  lemma ParseRendered(n: nat)
    ensures ParseInt(NatToStr(n)) == Some(n)
  {
    NatToStrRoundTrip(n);
    ParseDigits(NatToStr(n), "");
    assert NatToStr(n) + "" == NatToStr(n);
  }

  /** Without a digit after the optional sign there is no number. */
  lemma NoDigitsIsNaN(s: string)
    requires s == [] || !(IsDigit(s[0]) || IsWhitespace(s[0]) || s[0] == '-' || s[0] == '+')
    ensures ParseInt(s) == None
  {
  }

  lemma {:induction false} DigitPrefixStops(d: string, rest: string)
    requires AllDigits(d) && (rest == [] || !IsDigit(rest[0]))
    ensures DigitPrefix(d + rest) == d
  {
    if d != [] {
      assert (d + rest)[1..] == d[1..] + rest;
      DigitPrefixStops(d[1..], rest);
    } else {
      assert d + rest == rest;
    }
  }

  // ---------------------------------------------------------------------------
  // config
  // ---------------------------------------------------------------------------

  datatype Config = Config(
    nodeEnv: string, port: Option<int>, clientUrl: string, mongodbUri: string, redisUrl: string,
    jwtAccessSecret: string, jwtRefreshSecret: string, jwtAccessExpiry: string, jwtRefreshExpiry: string,
    smtpHost: string, smtpPort: Option<int>, smtpUser: string, smtpPassword: string, emailFrom: string,
    anthropicApiKey: string, bcryptRounds: Option<int>, rateLimitWindowMs: Option<int>,
    rateLimitMaxRequests: Option<int>, webhookSecret: string)

  /** A setting with a default: always resolves. */
  function Setting(env: map<string, string>, key: string, default: string): (v: string)
    ensures GetEnvVar(env, key, Some(default)) == Success(Resolved(v, key !in env || env[key] == ""))
  {
    if key in env && env[key] != "" then env[key] else default
  }

  /** `config`: every key has a default, so building it never fails. */
  function LoadConfig(env: map<string, string>): (c: Config)
    ensures env == map[] ==>
              && c.nodeEnv == "development" && c.port == ParseInt("5000")
              && c.anthropicApiKey == "" && c.webhookSecret == "dev-webhook-secret"
    ensures "PORT" in env && env["PORT"] != "" ==> c.port == ParseInt(env["PORT"])
    ensures "JWT_ACCESS_SECRET" in env && env["JWT_ACCESS_SECRET"] != "" ==> c.jwtAccessSecret == env["JWT_ACCESS_SECRET"]
    ensures "WEBHOOK_SECRET" in env && env["WEBHOOK_SECRET"] != "" ==> c.webhookSecret == env["WEBHOOK_SECRET"]
  {
    Config(
      Setting(env, "NODE_ENV", "development"),
      ParseInt(Setting(env, "PORT", "5000")),
      Setting(env, "CLIENT_URL", "http://localhost:3000"),
      Setting(env, "MONGODB_URI", "mongodb://localhost:27017/workflow-automation"),
      Setting(env, "REDIS_URL", "redis://localhost:6379"),
      Setting(env, "JWT_ACCESS_SECRET", "dev-access-secret"),
      Setting(env, "JWT_REFRESH_SECRET", "dev-refresh-secret"),
      Setting(env, "JWT_ACCESS_EXPIRY", "15m"),
      Setting(env, "JWT_REFRESH_EXPIRY", "7d"),
      Setting(env, "SMTP_HOST", "localhost"),
      ParseInt(Setting(env, "SMTP_PORT", "587")),
      Setting(env, "SMTP_USER", "user"),
      Setting(env, "SMTP_PASSWORD", "pass"),
      Setting(env, "EMAIL_FROM", "noreply@localhost"),
      Setting(env, "ANTHROPIC_API_KEY", ""),
      ParseInt(Setting(env, "BCRYPT_ROUNDS", "12")),
      ParseInt(Setting(env, "RATE_LIMIT_WINDOW_MS", "60000")),
      ParseInt(Setting(env, "RATE_LIMIT_MAX_REQUESTS", "100")),
      Setting(env, "WEBHOOK_SECRET", "dev-webhook-secret"))
  }

  /** With nothing set, the numeric settings take their defaults. */
  lemma NumericDefaults()
    ensures LoadConfig(map[]).port == Some(5000)
    ensures LoadConfig(map[]).smtpPort == Some(587)
    ensures LoadConfig(map[]).bcryptRounds == Some(12)
    ensures LoadConfig(map[]).rateLimitWindowMs == Some(60000)
    ensures LoadConfig(map[]).rateLimitMaxRequests == Some(100)
  {
    DefaultTexts();
  }

  /** The default texts of the numeric settings read as the intended numbers. */
  lemma DefaultTexts()
    ensures ParseInt("5000") == Some(5000) && ParseInt("587") == Some(587) && ParseInt("12") == Some(12)
    ensures ParseInt("60000") == Some(60000) && ParseInt("100") == Some(100)
  {
    Reads5000();
    Reads587();
    Reads12();
    Reads60000();
    Reads100();
  }

  lemma Reads5000() ensures ParseInt("5000") == Some(5000) {
    assert "5000"[..3] == "500" && "500"[..2] == "50" && "50"[..1] == "5" && "5"[..0] == "";
    ReadsDefault("5000", 5000);
  }

  lemma Reads587() ensures ParseInt("587") == Some(587) {
    assert "587"[..2] == "58" && "58"[..1] == "5" && "5"[..0] == "";
    ReadsDefault("587", 587);
  }

  lemma Reads12() ensures ParseInt("12") == Some(12) {
    assert "12"[..1] == "1" && "1"[..0] == "";
    ReadsDefault("12", 12);
  }

  lemma Reads60000() ensures ParseInt("60000") == Some(60000) {
    assert "60000"[..4] == "6000" && "6000"[..3] == "600" && "600"[..2] == "60" && "60"[..1] == "6" && "6"[..0] == "";
    ReadsDefault("60000", 60000);
  }

  lemma Reads100() ensures ParseInt("100") == Some(100) {
    assert "100"[..2] == "10" && "10"[..1] == "1" && "1"[..0] == "";
    ReadsDefault("100", 100);
  }

  lemma ReadsDefault(text: string, n: nat)
    requires text != "" && AllDigits(text) && DigitsValue(text) == n
    ensures ParseInt(text) == Some(n)
  {
    ParseDigits(text, "");
    assert text + "" == text;
  }
}
