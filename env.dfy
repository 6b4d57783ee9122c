/** The backend configuration read from the process environment. */
module Env {
  import opened Base
  import opened Js

  /** `numberFromEnv`: a missing or empty variable, or one that is not a number, gives the fallback. */
  function NumberFromEnv(value: Option<string>, fallback: real, fmt: Formats): (r: real)
    ensures value == None || value == Some("") ==> r == fallback
    ensures value.Some? && value.value != "" ==>
      r == (match fmt.parseNumber(value.value) case NaN => fallback case Finite(x) => x)
  {
    if value.None? || value.value == "" then fallback
    else
      match ToNumber(Str(value.value), fmt)
      case NaN => fallback
      case Finite(x) => x
  }

  /** `process.env.NAME ?? default`: only an absent variable takes the default. */
  function StringFromEnv(vars: map<string, string>, name: string, default: string): (r: string)
    ensures name in vars ==> r == vars[name]
    ensures name !in vars ==> r == default
  {
    if name in vars then vars[name] else default
  }

  function Lookup(vars: map<string, string>, name: string): Option<string> {
    if name in vars then Some(vars[name]) else None
  }

  datatype DbConfig = DbConfig(host: string, port: real, username: string, password: string, database: string)

  datatype Config = Config(
    nodeEnv: string,
    port: real,
    jwtSecret: string,
    jwtExpiresIn: string,
    captchaTtlSeconds: real,
    initialAdminEmail: string,
    initialAdminPassword: string,
    db: DbConfig)

  const DEFAULT_PORT := 4000.0
  const DEFAULT_CAPTCHA_TTL_SECONDS := 120.0
  const DEFAULT_DB_PORT := 5432.0

  /** The `env` record built from the process environment. */
  function Load(vars: map<string, string>, fmt: Formats): Config {
    Config(
      StringFromEnv(vars, "NODE_ENV", "development"),
      NumberFromEnv(Lookup(vars, "PORT"), DEFAULT_PORT, fmt),
      StringFromEnv(vars, "JWT_SECRET", "change-me"),
      StringFromEnv(vars, "JWT_EXPIRES_IN", "1h"),
      NumberFromEnv(Lookup(vars, "CAPTCHA_TTL_SECONDS"), DEFAULT_CAPTCHA_TTL_SECONDS, fmt),
      StringFromEnv(vars, "INITIAL_ADMIN_EMAIL", "admin@konecta.local"),
      StringFromEnv(vars, "INITIAL_ADMIN_PASSWORD", "Konecta#2024"),
      DbConfig(
        StringFromEnv(vars, "DB_HOST", "localhost"),
        NumberFromEnv(Lookup(vars, "DB_PORT"), DEFAULT_DB_PORT, fmt),
        StringFromEnv(vars, "DB_USERNAME", "postgres"),
        StringFromEnv(vars, "DB_PASSWORD", "postgres"),
        StringFromEnv(vars, "DB_NAME", "konecta")))
  }

  /** An environment that sets none of the numeric variables, or sets them empty, yields the defaults. */
  lemma NumericDefaults(vars: map<string, string>, fmt: Formats)
    requires forall name :: name in ["PORT", "CAPTCHA_TTL_SECONDS", "DB_PORT"] && name in vars ==> vars[name] == ""
    ensures Load(vars, fmt).port == 4000.0
    ensures Load(vars, fmt).captchaTtlSeconds == 120.0
    ensures Load(vars, fmt).db.port == 5432.0
  {
  }

  /** An empty environment yields every default. */
  lemma EmptyEnvironment(fmt: Formats)
    ensures Load(map[], fmt) == Config("development", 4000.0, "change-me", "1h", 120.0,
      "admin@konecta.local", "Konecta#2024", DbConfig("localhost", 5432.0, "postgres", "postgres", "konecta"))
  {
  }
}
