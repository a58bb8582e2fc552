/** Configuration read from environment variables with defaults (internal/config/config.go). */
module Config {
  import opened Wrappers
  import opened Text

  type Env = map<string, string>

  const Int64Min := -0x8000_0000_0000_0000
  const Int64Max := 0x7FFF_FFFF_FFFF_FFFF

  predicate InInt64(i: int) {
    Int64Min <= i <= Int64Max
  }

  /** Go's conversion of an out-of-range product to `int64`: the low 64 bits, two's complement. */
  function Int64Of(i: int): (r: int)
    ensures InInt64(r)
    ensures (r - i) % 0x1_0000_0000_0000_0000 == 0
    ensures InInt64(i) ==> r == i
  {
    (i - Int64Min) % 0x1_0000_0000_0000_0000 + Int64Min
  }

  /** `strconv.ParseInt(s, 10, 64)`, and `strconv.Atoi` on a 64-bit platform: an optional sign,
      then one or more decimal digits, and a value that fits in 64 bits. */
  function ParseInt(s: string): (r: Option<int>)
    ensures r.Some? ==> InInt64(r.value) && s != ""
    ensures r.Some? && r.value < 0 ==> s[0] == '-'
  {
    var negative := s != [] && s[0] == '-';
    var digits := if s != [] && (s[0] == '-' || s[0] == '+') then s[1..] else s;
    if digits == [] || !AllDigits(digits) then None
    else
      var v: int := if negative then 0 - DigitsValue(digits) as int else DigitsValue(digits);
      if InInt64(v) then Some(v) else None
  }

  /** `strconv.Itoa`. */
  function FormatInt(i: int): (s: string)
    ensures s != ""
  {
    if i < 0 then "-" + Decimal(-i) else Decimal(i)
  }

  /** Every 64-bit integer is read back from its decimal form. */
  lemma ParseFormatInt(i: int)
    requires InInt64(i)
    ensures ParseInt(FormatInt(i)) == Some(i)
  {
    if i < 0 {
      DecimalValue(-i);
      assert ("-" + Decimal(-i))[1..] == Decimal(-i);
    } else {
      DecimalValue(i);
    }
  }

  /** `strconv.ParseBool`. */
  function ParseBool(s: string): (r: Option<bool>)
    ensures r == Some(true) <==> s in {"1", "t", "T", "TRUE", "true", "True"}
    ensures r == Some(false) <==> s in {"0", "f", "F", "FALSE", "false", "False"}
  {
    if s in {"1", "t", "T", "TRUE", "true", "True"} then Some(true)
    else if s in {"0", "f", "F", "FALSE", "false", "False"} then Some(false)
    else None
  }

  /** `strconv.FormatBool`. */
  function FormatBool(b: bool): string {
    if b then "true" else "false"
  }

  lemma ParseFormatBool(b: bool)
    ensures ParseBool(FormatBool(b)) == Some(b)
  {
  }

  /** The value of `key` whenever it is set, even to the empty string; otherwise the default. */
  function GetEnv(env: Env, key: string, default: string): (v: string)
    ensures key in env ==> v == env[key]
    ensures key !in env ==> v == default
  {
    if key in env then env[key] else default
  }

  /** The parsed value of `key`, or the default when it is unset or does not parse. */
  function GetEnvAsInt(env: Env, key: string, default: int): (v: int)
    ensures key in env && ParseInt(env[key]).Some? ==> v == ParseInt(env[key]).value
    ensures key !in env || ParseInt(env[key]).None? ==> v == default
  {
    if key in env then
      match ParseInt(env[key])
      case Some(i) => i
      case None => default
    else default
  }

  /** `getEnvAsInt64` parses exactly as `getEnvAsInt` does on a 64-bit platform. */
  function GetEnvAsInt64(env: Env, key: string, default: int): (v: int)
    ensures v == GetEnvAsInt(env, key, default)
  {
    if key in env && ParseInt(env[key]).Some? then ParseInt(env[key]).value else default
  }

  function GetEnvAsBool(env: Env, key: string, default: bool): (v: bool)
    ensures key in env && ParseBool(env[key]).Some? ==> v == ParseBool(env[key]).value
    ensures key !in env || ParseBool(env[key]).None? ==> v == default
  {
    if key in env then
      match ParseBool(env[key])
      case Some(b) => b
      case None => default
    else default
  }

  /** A variable set to the printed form of a 64-bit integer yields that integer. */
  lemma GetEnvAsIntFormatted(env: Env, key: string, i: int, default: int)
    requires InInt64(i) && key in env && env[key] == FormatInt(i)
    ensures GetEnvAsInt(env, key, default) == i
  {
    ParseFormatInt(i);
  }

  /** Variables from a `.env` file never override ones the process already has. */
  function WithDotEnv(process: Env, dotenv: Option<Env>): (env: Env)
    ensures env.Keys == process.Keys + (if dotenv.Some? then dotenv.value.Keys else {})
    ensures forall k :: k in process ==> env[k] == process[k]
  {
    if dotenv.Some? then dotenv.value + process else process
  }

  datatype MySqlConfig = MySqlConfig(host: string, port: string, user: string, password: string, database: string)
  datatype RedisConfig = RedisConfig(host: string, port: string, password: string, adapterDb: int, stateDb: int)

  datatype Settings = Settings(
    port: string,
    environment: string,
    mySql: MySqlConfig,
    redis: RedisConfig,
    apiUrl: string,
    smsEnable: bool,
    smsApiUrl: string,
    recordPath: string,
    fileSizeLimit: int,
    joinRoomRepeatDelayNanos: int,
    autoCloseRoom: bool,
    roomDayDefaultTimeout: int,
    liveKitApiKey: string,
    liveKitApiSecret: string,
    liveKitHost: string,
    egressLimit: int,
    radioLocationApiUrl: string,
    radioLocationApiUser: string,
    radioLocationApiPassword: string,
    encodeApi: string,
    customCharset: string)

  const NanosPerMilli := 1_000_000

  /** The configuration `Load` builds from an environment. */
  function FromEnv(env: Env): (c: Settings)
    ensures c.joinRoomRepeatDelayNanos == Int64Of(GetEnvAsInt(env, "JOIN_ROOM_REPEAT_DELAY", 5000) * NanosPerMilli)
  {
    Settings(
      GetEnv(env, "PORT", "5500"),
      GetEnv(env, "ENVIRONMENT", "development"),
      MySqlConfig(
        GetEnv(env, "MYSQL_HOST", "localhost"),
        GetEnv(env, "MYSQL_PORT", "3306"),
        GetEnv(env, "MYSQL_USER", "root"),
        GetEnv(env, "MYSQL_PASSWORD", ""),
        GetEnv(env, "MYSQL_DATABASE", "conference")),
      RedisConfig(
        GetEnv(env, "REDIS_HOST", "localhost"),
        GetEnv(env, "REDIS_PORT", "6379"),
        GetEnv(env, "REDIS_PASS", ""),
        GetEnvAsInt(env, "REDIS_ADAPTER_DB", 1),
        GetEnvAsInt(env, "REDIS_STATE_DB", 2)),
      GetEnv(env, "API_URL", "http://localhost:5500"),
      GetEnvAsBool(env, "SMS_ENABLE", false),
      GetEnv(env, "SMS_API_URL", ""),
      GetEnv(env, "RECORD_PATH", "./record-file"),
      GetEnvAsInt64(env, "FILE_SIZE_LIMIT", 524288000),
      Int64Of(GetEnvAsInt(env, "JOIN_ROOM_REPEAT_DELAY", 5000) * NanosPerMilli),
      GetEnvAsBool(env, "AUTO_CLOSE_ROOM", false),
      GetEnvAsInt(env, "ROOM_DAY_DEFAULT_TIMEOUT", 365),
      GetEnv(env, "LIVEKIT_API_KEY", ""),
      GetEnv(env, "LIVEKIT_API_SECRET", ""),
      GetEnv(env, "LIVEKIT_HOST", ""),
      GetEnvAsInt(env, "EGRESS_LIMIT", 4),
      GetEnv(env, "RADIO_LOCATION_API_URL", ""),
      GetEnv(env, "RADIO_LOCATION_API_CREDENTIALS_USERNAME", ""),
      GetEnv(env, "RADIO_LOCATION_API_CREDENTIALS_PASSWORD", ""),
      GetEnv(env, "ENCODE_API", "http://encode-api:5600"),
      GetEnv(env, "CUSTOM_CHARSET", "ABCDEFGHIJKLMOPQRSTUVWXYZabcdefghijklmopqrstuvwxyz"))
  }

  /** With nothing set, every setting takes its documented default. */
  lemma FromEmptyEnv()
    ensures var c := FromEnv(map[]);
      && c.port == "5500"
      && c.redis.adapterDb == 1 && c.redis.stateDb == 2
      && c.fileSizeLimit == 524288000
      && c.roomDayDefaultTimeout == 365
      && c.egressLimit == 4
      && c.joinRoomRepeatDelayNanos == 5000 * NanosPerMilli
      && !c.smsEnable && !c.autoCloseRoom
      && c.customCharset == "ABCDEFGHIJKLMOPQRSTUVWXYZabcdefghijklmopqrstuvwxyz"
  {
  }

  /** The join delay is the variable's value in milliseconds as long as the nanosecond count
      fits in 64 bits; beyond that it wraps around. */
  lemma JoinDelayInMilliseconds(env: Env, ms: int)
    requires "JOIN_ROOM_REPEAT_DELAY" in env && env["JOIN_ROOM_REPEAT_DELAY"] == FormatInt(ms)
    requires InInt64(ms * NanosPerMilli)
    ensures FromEnv(env).joinRoomRepeatDelayNanos == ms * NanosPerMilli
  {
    assert InInt64(ms);
    GetEnvAsIntFormatted(env, "JOIN_ROOM_REPEAT_DELAY", ms, 5000);
  }

  /** The package-level cached configuration. */
  class ConfigCache {
    var cfg: Option<Settings>

    constructor ()
      ensures cfg.None?
    {
      cfg := None;
    }

    /** `Load` merges the `.env` file (when there is one) under the process environment, builds
        the configuration and caches it; it never fails. */
    method Load(process: Env, dotenv: Option<Env>) returns (c: Settings)
      modifies this
      ensures c == FromEnv(WithDotEnv(process, dotenv))
      ensures cfg == Some(c)
    {
      c := FromEnv(WithDotEnv(process, dotenv));
      cfg := Some(c);
    }

    /** `Get` loads only when nothing is cached yet; afterwards it returns the cached value. */
    method Get(process: Env, dotenv: Option<Env>) returns (c: Settings)
      modifies this
      ensures old(cfg).Some? ==> c == old(cfg).value && cfg == old(cfg)
      ensures old(cfg).None? ==> c == FromEnv(WithDotEnv(process, dotenv)) && cfg == Some(c)
    {
      if cfg.None? {
        c := Load(process, dotenv);
      } else {
        c := cfg.value;
      }
    }
  }
}
