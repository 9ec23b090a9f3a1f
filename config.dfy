/** `core/config.py`: the settings object is read from the process
    environment once. The environment name comes from `APP_ENV`; each
    setting takes its variable's text or a default; then the presets of
    the environment (debug flag, log level, log format, default rate
    limits) replace every value whose variable is not set. */
module Config {
  import opened Models
  import opened Text

  datatype Environment = Development | Staging | Production | Test

  /** The value of the `Environment` enumeration member. */
  function EnvironmentName(e: Environment): string
  {
    match e
    case Development => "development"
    case Staging => "staging"
    case Production => "production"
    case Test => "test"
  }

  /** `os.getenv(key, default)`; `environ` is the process environment after
      the `.env` file was loaded. */
  function Getenv(environ: map<string, string>, key: string, default: string): string
  {
    if key in environ then environ[key] else default
  }

  /** The environment a lower-cased name selects. */
  function EnvironmentOf(name: string): Environment
  {
    if name == "production" || name == "prod" then Production
    else if name == "staging" || name == "stage" then Staging
    else if name == "test" then Test
    else Development
  }

  /** `get_environment`. */
  function GetEnvironment(environ: map<string, string>): Environment
  {
    EnvironmentOf(Lower(Getenv(environ, "APP_ENV", "development")))
  }

  /** Every environment is selected by its own name, and with `APP_ENV`
      unset the environment is development. */
  lemma GetEnvironmentNames(environ: map<string, string>, e: Environment)
    ensures GetEnvironment(environ["APP_ENV" := EnvironmentName(e)]) == e
    ensures "APP_ENV" !in environ ==> GetEnvironment(environ) == Development
  {
    LowerFixed(EnvironmentName(e));
    LowerFixed("development");
  }

  /** The name is read without regard to case, and "prod" and "stage" are
      accepted as short names. */
  lemma GetEnvironmentSpelling(environ: map<string, string>, s: string)
    ensures GetEnvironment(environ["APP_ENV" := s]) == GetEnvironment(environ["APP_ENV" := Lower(s)])
    ensures GetEnvironment(environ["APP_ENV" := "PROD"]) == Production
    ensures GetEnvironment(environ["APP_ENV" := "Stage"]) == Staging
  {
    LowerIdempotent(s);
    LowerProd();
    LowerStage();
  }

  lemma LowerProd()
    ensures Lower("PROD") == "prod"
  {
    var r := Lower("PROD");
    assert r[0] == 'p' && r[1] == 'r' && r[2] == 'o' && r[3] == 'd';
  }

  lemma LowerStage()
    ensures Lower("Stage") == "stage"
  {
    var r := Lower("Stage");
    assert r[0] == 's' && r[1..] == "tage";
  }

  /** The `DEBUG` test: the lower-cased text is one of four spellings of
      true. */
  predicate IsTruthy(s: string)
  {
    var t := Lower(s);
    t == "true" || t == "1" || t == "t" || t == "yes"
  }

  /** The spellings of true are accepted in any case, and "false" or an
      empty value is false. */
  lemma IsTruthyRule(s: string)
    ensures IsTruthy(s) <==> IsTruthy(Lower(s))
    ensures IsTruthy("TRUE") && IsTruthy("Yes") && IsTruthy("1")
    ensures !IsTruthy("false") && !IsTruthy("") && !IsTruthy("0")
  {
    LowerIdempotent(s);
    var t := Lower("TRUE");
    assert t[0] == 't' && t[1] == 'r' && t[2] == 'u' && t[3] == 'e';
    var y := Lower("Yes");
    assert y[0] == 'y' && y[1..] == "es";
    LowerFixed("1");
    LowerFixed("false");
    LowerFixed("0");
  }

  // ---------------------------------------------------------------------
  // int(text)

  /** What `int()` raises on a text that is not a decimal literal. */
  datatype ConfigError = ValueError(text: string)

  /** The whitespace `int()` and `str.strip()` skip: the characters for
      which `str.isspace()` holds (tab to carriage return, the four ASCII
      separators, space, and the Unicode spaces and line separators). */
  predicate IsSpace(c: char)
  {
    var n := c as int;
    9 <= n <= 13 || 28 <= n <= 32 || n == 0x85 || n == 0xA0 || n == 0x1680 || 0x2000 <= n <= 0x200A
    || n == 0x2028 || n == 0x2029 || n == 0x202F || n == 0x205F || n == 0x3000
  }

  predicate AllSpace(s: string)
  {
    forall i :: 0 <= i < |s| ==> IsSpace(s[i])
  }

  /** Drops the leading whitespace: the result is a suffix. */
  function TrimStart(s: string): (r: string)
    ensures |r| <= |s| && r == s[|s| - |r|..]
    ensures |r| > 0 ==> !IsSpace(r[0])
  {
    if |s| > 0 && IsSpace(s[0]) then TrimStart(s[1..]) else s
  }

  /** Drops the trailing whitespace: the result is a prefix. */
  function TrimEnd(s: string): (r: string)
    ensures |r| <= |s| && r == s[..|r|]
    ensures |r| > 0 ==> !IsSpace(r[|r| - 1])
  {
    if |s| > 0 && IsSpace(s[|s| - 1]) then TrimEnd(s[..|s| - 1]) else s
  }

  function Strip(s: string): string
  {
    TrimEnd(TrimStart(s))
  }

  lemma {:induction false} TrimStartSpace(w: string, t: string)
    requires AllSpace(w)
    requires |t| > 0 && !IsSpace(t[0])
    ensures TrimStart(w + t) == t
    decreases |w|
  {
    if |w| > 0 {
      assert (w + t)[1..] == w[1..] + t;
      TrimStartSpace(w[1..], t);
    } else {
      assert w + t == t;
    }
  }

  lemma {:induction false} TrimEndSpace(t: string, w: string)
    requires AllSpace(w)
    requires |t| > 0 && !IsSpace(t[|t| - 1])
    ensures TrimEnd(t + w) == t
    decreases |w|
  {
    if |w| > 0 {
      assert (t + w)[..|t + w| - 1] == t + w[..|w| - 1];
      TrimEndSpace(t, w[..|w| - 1]);
    } else {
      assert t + w == t;
    }
  }

  /** `int(s)` in base 10: surrounding whitespace, an optional sign and at
      least one digit. */
  function ParseInt(s: string): Result<int, ConfigError>
  {
    var t := Strip(s);
    if |t| > 0 && (t[0] == '-' || t[0] == '+') then
      if |t| > 1 && AllDigits(t[1..]) then
        var magnitude: int := DigitsValue(t[1..]);
        Ok(if t[0] == '-' then -magnitude else magnitude)
      else Err(ValueError(s))
    else if |t| > 0 && AllDigits(t) then Ok(DigitsValue(t))
    else Err(ValueError(s))
  }

  /** `str(n)` for an integer. */
  function IntText(n: int): string
  {
    if n < 0 then "-" + NatToString(-n) else NatToString(n)
  }

  /** Stripping removes exactly the whitespace around a text that neither
      starts nor ends with whitespace. */
  lemma StripAround(before: string, t: string, after: string)
    requires AllSpace(before) && AllSpace(after)
    requires |t| > 0 && !IsSpace(t[0]) && !IsSpace(t[|t| - 1])
    ensures Strip(before + t + after) == t
  {
    TrimStartSpace(before, t + after);
    assert before + t + after == before + (t + after);
    TrimEndSpace(t, after);
  }

  lemma ParseIntDigits(s: string, d: string)
    requires |d| > 0 && AllDigits(d) && Strip(s) == d
    ensures ParseInt(s) == Ok(DigitsValue(d))
  {
    assert IsDigit(d[0]);
  }

  lemma ParseIntNegative(s: string, d: string)
    requires |d| > 0 && AllDigits(d) && Strip(s) == "-" + d
    ensures ParseInt(s) == Ok(-(DigitsValue(d) as int))
  {
    assert Strip(s)[1..] == d;
  }

  /** `int(str(n)) == n`, also with whitespace around the text. */
  lemma ParseIntRoundTrip(n: int, before: string, after: string)
    requires AllSpace(before) && AllSpace(after)
    ensures ParseInt(before + IntText(n) + after) == Ok(n)
  {
    var t := IntText(n);
    IntTextEnds(n);
    StripAround(before, t, after);
    if n < 0 {
      ParseSigned(-n, t, before + t + after);
    } else {
      ParseUnsigned(n, t, before + t + after);
    }
  }

  /** `str(n)` opens with a digit or a minus sign and ends with a digit. */
  lemma IntTextEnds(n: int)
    ensures |IntText(n)| > 0 && !IsSpace(IntText(n)[0]) && IsDigit(IntText(n)[|IntText(n)| - 1])
  {
    var d := NatToString(if n < 0 then -n else n);
    assert IsDigit(d[0]) && IsDigit(d[|d| - 1]);
    if n < 0 {
      var t := "-" + d;
      assert t[|t| - 1] == d[|d| - 1];
    }
  }

  lemma ParseUnsigned(n: nat, t: string, s: string)
    requires t == NatToString(n) && Strip(s) == t
    ensures ParseInt(s) == Ok(n)
  {
    ParseIntDigits(s, t);
    NatToStringRoundTrip(n);
  }

  lemma ParseSigned(n: nat, t: string, s: string)
    requires t == "-" + NatToString(n) && Strip(s) == t
    ensures ParseInt(s) == Ok(-(n as int))
  {
    var d := NatToString(n);
    assert Strip(s)[1..] == d;
    NatToStringRoundTrip(n);
  }

  /** A text without a digit is never an integer. */
  lemma ParseIntNeedsDigit(s: string)
    requires forall i :: 0 <= i < |s| ==> !IsDigit(s[i])
    ensures ParseInt(s) == Err(ValueError(s))
  {
    var u := TrimStart(s);
    var t := Strip(s);
    assert t == u[..|t|];
    if |t| > 1 {
      assert t[1] == s[|s| - |u| + 1];
    }
    if |t| > 0 {
      assert t[0] == s[|s| - |u|];
    }
  }

  // ---------------------------------------------------------------------
  // The settings

  /** The attributes `Settings` sets besides `ENVIRONMENT`. */
  datatype Key =
    | ProjectName | Version | Description | ApiV1Str | Debug
    | PineconeIndexName | FastLlmModel | FastestLlmModel | SmartLlmModel | EmbeddingModel | OutputDimensionality
    | JwtSecretKey | JwtAlgorithm | JwtAccessTokenExpireDays
    | LogDir | LogLevel | LogFormat
    | DbUser | DbPassword | DbHost | DbPort | DbDbname | DbUrl
    | RateLimitDefault

  /** The attribute's name, which is also the name of the variable it is
      read from. */
  function KeyName(k: Key): string
  {
    match k
    case ProjectName => "PROJECT_NAME"
    case Version => "VERSION"
    case Description => "DESCRIPTION"
    case ApiV1Str => "API_V1_STR"
    case Debug => "DEBUG"
    case PineconeIndexName => "PINECONE_INDEX_NAME"
    case FastLlmModel => "FAST_LLM_MODEL"
    case FastestLlmModel => "FASTEST_LLM_MODEL"
    case SmartLlmModel => "SMART_LLM_MODEL"
    case EmbeddingModel => "EMBEDDING_MODEL"
    case OutputDimensionality => "OUTPUT_DIMENSIONALITY"
    case JwtSecretKey => "JWT_SECRET_KEY"
    case JwtAlgorithm => "JWT_ALGORITHM"
    case JwtAccessTokenExpireDays => "JWT_ACCESS_TOKEN_EXPIRE_DAYS"
    case LogDir => "LOG_DIR"
    case LogLevel => "LOG_LEVEL"
    case LogFormat => "LOG_FORMAT"
    case DbUser => "DB_USER"
    case DbPassword => "DB_PASSWORD"
    case DbHost => "DB_HOST"
    case DbPort => "DB_PORT"
    case DbDbname => "DB_DBNAME"
    case DbUrl => "DB_URL"
    case RateLimitDefault => "RATE_LIMIT_DEFAULT"
  }

  /** The Python values a setting can hold. */
  datatype SettingValue = Str(text: string) | Flag(flag: bool) | Num(number: int) | Strs(texts: seq<string>) | NoneValue

  /** `os.getenv(name)` with no default. */
  function OptionalEnv(environ: map<string, string>, k: Key): SettingValue
  {
    if KeyName(k) in environ then Str(environ[KeyName(k)]) else NoneValue
  }

  /** How an f-string shows an optional text. */
  function Shown(v: SettingValue): string
  {
    match v
    case Str(t) => t
    case NoneValue => "None"
    case _ => ""
  }

  /** The attributes `__init__` reads from the environment. */
  function InitialKeys(): set<Key>
  {
    {ProjectName, Version, Description, ApiV1Str, Debug,
     PineconeIndexName, FastLlmModel, FastestLlmModel, SmartLlmModel, EmbeddingModel, OutputDimensionality,
     JwtSecretKey, JwtAlgorithm, JwtAccessTokenExpireDays,
     LogDir, LogLevel, LogFormat,
     DbUser, DbPassword, DbHost, DbPort, DbDbname, DbUrl}
  }

  /** The value `__init__` gives attribute `k`; `days` is the parsed token
      lifetime. */
  function InitialValue(environ: map<string, string>, k: Key, days: int): SettingValue
  {
    match k
    case ProjectName => Str(Getenv(environ, KeyName(k), "FastAPI LangGraph Template"))
    case Version => Str(Getenv(environ, KeyName(k), "1.0.0"))
    case Description =>
      Str(Getenv(environ, KeyName(k), "A production-ready FastAPI template with LangGraph and Langfuse integration"))
    case ApiV1Str => Str(Getenv(environ, KeyName(k), "/api/v1"))
    case Debug => Flag(IsTruthy(Getenv(environ, KeyName(k), "false")))
    case PineconeIndexName => Str(Getenv(environ, KeyName(k), "ask-youtube"))
    case FastLlmModel => Str(Getenv(environ, KeyName(k), "gemini-2.5-flash"))
    case FastestLlmModel => Str(Getenv(environ, KeyName(k), "gemini-2.5-flash-lite"))
    case SmartLlmModel => Str(Getenv(environ, KeyName(k), "gemini-2.5-pro"))
    case EmbeddingModel => Str(Getenv(environ, KeyName(k), "gemini-embedding-001"))
    case OutputDimensionality => if KeyName(k) in environ then Str(environ[KeyName(k)]) else Num(768)
    case JwtSecretKey => Str(Getenv(environ, KeyName(k), ""))
    case JwtAlgorithm => Str(Getenv(environ, KeyName(k), "HS256"))
    case JwtAccessTokenExpireDays => Num(days)
    case LogDir => Str(Getenv(environ, KeyName(k), "logs"))
    case LogLevel => Str(Getenv(environ, KeyName(k), "INFO"))
    case LogFormat => Str(Getenv(environ, KeyName(k), "json"))
    case DbUser => OptionalEnv(environ, k)
    case DbPassword => OptionalEnv(environ, k)
    case DbHost => OptionalEnv(environ, k)
    case DbPort => OptionalEnv(environ, k)
    case DbDbname => OptionalEnv(environ, k)
    case DbUrl =>
      Str(Getenv(environ, KeyName(k),
                 "postgresql+psycopg://" + Shown(OptionalEnv(environ, DbUser)) + ":" + Shown(OptionalEnv(environ, DbPassword))
                 + "@" + Shown(OptionalEnv(environ, DbHost)) + ":" + Shown(OptionalEnv(environ, DbPort))
                 + "/" + Shown(OptionalEnv(environ, DbDbname))))
    case RateLimitDefault => NoneValue
  }

  /** The attributes `__init__` sets before the presets, or the error
      `int()` raises for `JWT_ACCESS_TOKEN_EXPIRE_DAYS`. */
  function InitialValues(environ: map<string, string>): Result<map<Key, SettingValue>, ConfigError>
  {
    var days := ParseInt(Getenv(environ, KeyName(JwtAccessTokenExpireDays), "30"));
    if days.Err? then Err(days.error)
    else Ok(map k | k in InitialKeys() :: InitialValue(environ, k, days.value))
  }

  /** The presets of `apply_environment_settings`, in dictionary order. */
  function EnvSettings(e: Environment): seq<(Key, SettingValue)>
  {
    match e
    case Development => DevelopmentPresets
    case Staging => StagingPresets
    case Production => ProductionPresets
    case Test => TestPresets
  }

  const DevelopmentPresets: seq<(Key, SettingValue)> :=
    [(Debug, Flag(true)), (LogLevel, Str("DEBUG")), (LogFormat, Str("console")),
     (RateLimitDefault, Strs(["1000 per day", "200 per hour"]))]
  const StagingPresets: seq<(Key, SettingValue)> :=
    [(Debug, Flag(false)), (LogLevel, Str("INFO")),
     (RateLimitDefault, Strs(["500 per day", "100 per hour"]))]
  const ProductionPresets: seq<(Key, SettingValue)> :=
    [(Debug, Flag(false)), (LogLevel, Str("WARNING")),
     (RateLimitDefault, Strs(["200 per day", "50 per hour"]))]
  const TestPresets: seq<(Key, SettingValue)> :=
    [(Debug, Flag(true)), (LogLevel, Str("DEBUG")), (LogFormat, Str("console")),
     (RateLimitDefault, Strs(["1000 per day", "1000 per hour"]))]

  /** The attributes after the presets `items` were applied in order, each
      one only when the upper-cased key is not an environment variable. */
  function Applied(values: map<Key, SettingValue>, items: seq<(Key, SettingValue)>,
                   environ: map<string, string>): map<Key, SettingValue>
  {
    if |items| == 0 then values
    else
      var prior := Applied(values, items[..|items| - 1], environ);
      var item := items[|items| - 1];
      if Upper(KeyName(item.0)) in environ then prior else prior[item.0 := item.1]
  }

  /** The last value `items` gives to `key`, if any. */
  function Lookup(items: seq<(Key, SettingValue)>, key: Key): Option<SettingValue>
  {
    if |items| == 0 then None
    else if items[|items| - 1].0 == key then Some(items[|items| - 1].1)
    else Lookup(items[..|items| - 1], key)
  }

  /** An attribute without a preset, or whose variable is set, keeps its
      value. */
  lemma {:induction false} AppliedKeeps(values: map<Key, SettingValue>, items: seq<(Key, SettingValue)>,
                                        environ: map<string, string>, key: Key)
    requires Lookup(items, key).None? || Upper(KeyName(key)) in environ
    ensures var r := Applied(values, items, environ);
      (key in r <==> key in values) && (key in values ==> r[key] == values[key])
  {
    if |items| > 0 {
      AppliedKeeps(values, items[..|items| - 1], environ, key);
    }
  }

  /** An attribute with a preset whose variable is not set takes the last
      preset. */
  lemma {:induction false} AppliedSets(values: map<Key, SettingValue>, items: seq<(Key, SettingValue)>,
                                       environ: map<string, string>, key: Key)
    requires Lookup(items, key).Some? && Upper(KeyName(key)) !in environ
    ensures var r := Applied(values, items, environ);
      key in r && r[key] == Lookup(items, key).value
  {
    if items[|items| - 1].0 != key {
      AppliedSets(values, items[..|items| - 1], environ, key);
    }
  }

  /** A preset replaces an attribute exactly when it names the attribute
      and the environment does not set the variable; every other attribute
      keeps its value. */
  lemma AppliedAt(values: map<Key, SettingValue>, items: seq<(Key, SettingValue)>,
                  environ: map<string, string>, key: Key)
    ensures var r := Applied(values, items, environ);
      if Lookup(items, key).Some? && Upper(KeyName(key)) !in environ then key in r && r[key] == Lookup(items, key).value
      else (key in r <==> key in values) && (key in values ==> r[key] == values[key])
  {
    if Lookup(items, key).Some? && Upper(KeyName(key)) !in environ {
      AppliedSets(values, items, environ, key);
    } else {
      AppliedKeeps(values, items, environ, key);
    }
  }

  /** The attributes of the settings object, or the error raised while
      building it. */
  function Configured(environ: map<string, string>): Result<map<Key, SettingValue>, ConfigError>
  {
    var init := InitialValues(environ);
    if init.Err? then init
    else Ok(Applied(init.value, EnvSettings(GetEnvironment(environ)), environ))
  }

  /** `Settings`: the environment and the other attributes by name. */
  class Settings {
    var environment: Environment
    var values: map<Key, SettingValue>

    constructor (environment: Environment, values: map<Key, SettingValue>)
      ensures this.environment == environment && this.values == values
    {
      this.environment := environment;
      this.values := values;
    }

    /** `apply_environment_settings`. */
    method ApplyEnvironmentSettings(environ: map<string, string>)
      modifies this
      ensures environment == old(environment)
      ensures values == Applied(old(values), EnvSettings(environment), environ)
    {
      var items := EnvSettings(environment);
      var i := 0;
      while i < |items|
        invariant 0 <= i <= |items|
        invariant environment == old(environment)
        invariant values == Applied(old(values), items[..i], environ)
      {
        var key := items[i].0;
        var envVarName := Upper(KeyName(key));
        assert items[..i + 1][..i] == items[..i] && items[..i + 1][i] == items[i];
        if envVarName !in environ {
          values := values[key := items[i].1];
        }
        i := i + 1;
      }
      assert items[..i] == items;
    }
  }

  /** `Settings()`: reads the environment, then applies its presets. */
  method LoadSettings(environ: map<string, string>) returns (r: Result<Settings, ConfigError>)
    ensures r.Err? <==> Configured(environ).Err?
    ensures r.Err? ==> r.error == Configured(environ).error
    ensures r.Ok? ==> && fresh(r.value)
                      && r.value.environment == GetEnvironment(environ)
                      && r.value.values == Configured(environ).value
  {
    var init := InitialValues(environ);
    if init.Err? {
      return Err(init.error);
    }
    var settings := new Settings(GetEnvironment(environ), init.value);
    settings.ApplyEnvironmentSettings(environ);
    r := Ok(settings);
  }

  // ---------------------------------------------------------------------
  // What the settings end up holding

  /** Each preset key is its own variable name: `key.upper()` changes
      nothing. */
  lemma PresetNamesUpper(key: Key)
    requires key == Debug || key == LogLevel || key == LogFormat || key == RateLimitDefault
             || key == JwtAccessTokenExpireDays
    ensures Upper(KeyName(key)) == KeyName(key)
  {
    if key == Debug {
      UpperFixed("DEBUG");
    } else if key == LogLevel {
      UpperFixed("LOG_LEVEL");
    } else if key == LogFormat {
      UpperFixed("LOG_FORMAT");
    } else if key == RateLimitDefault {
      UpperFixed("RATE_LIMIT_DEFAULT");
    } else {
      UpperFixed("JWT_ACCESS_TOKEN_EXPIRE_DAYS");
    }
  }

  lemma {:induction false} LookupFound(items: seq<(Key, SettingValue)>, key: Key)
    requires Lookup(items, key).Some?
    ensures exists i :: 0 <= i < |items| && items[i].0 == key
  {
    if items[|items| - 1].0 != key {
      LookupFound(items[..|items| - 1], key);
      var i :| 0 <= i < |items| - 1 && items[..|items| - 1][i].0 == key;
      assert items[i].0 == key;
    }
  }

  /** The presets name only the four attributes above. */
  lemma PresetKeys(e: Environment, key: Key)
    requires Lookup(EnvSettings(e), key).Some?
    ensures key == Debug || key == LogLevel || key == LogFormat || key == RateLimitDefault
  {
    var items := EnvSettings(e);
    LookupFound(items, key);
    var i :| 0 <= i < |items| && items[i].0 == key;
  }

  /** A variable that is set always wins over the presets: the attribute
      keeps the value read from it. */
  lemma ExplicitSettingKept(environ: map<string, string>, key: Key)
    requires Configured(environ).Ok?
    requires KeyName(key) in environ
    ensures var init := InitialValues(environ).value;
      var r := Configured(environ).value;
      (key in r <==> key in init) && (key in init ==> r[key] == init[key])
  {
    var e := GetEnvironment(environ);
    AppliedAt(InitialValues(environ).value, EnvSettings(e), environ, key);
    if Lookup(EnvSettings(e), key).Some? {
      PresetKeys(e, key);
      PresetNamesUpper(key);
    }
  }

  /** The value an attribute read by `__init__` has before the presets. */
  lemma InitialAt(environ: map<string, string>, k: Key)
    requires InitialValues(environ).Ok?
    ensures k in InitialValues(environ).value <==> k in InitialKeys()
    ensures k in InitialKeys() ==>
              InitialValues(environ).value[k]
              == InitialValue(environ, k, ParseInt(Getenv(environ, KeyName(JwtAccessTokenExpireDays), "30")).value)
  {
  }

  /** The preset of the key that occurs at `i` and nowhere after it. */
  lemma {:induction false} LookupLast(items: seq<(Key, SettingValue)>, i: nat, key: Key)
    requires i < |items| && items[i].0 == key
    requires forall j :: i < j < |items| ==> items[j].0 != key
    ensures Lookup(items, key) == Some(items[i].1)
  {
    if i < |items| - 1 {
      LookupLast(items[..|items| - 1], i, key);
    }
  }

  lemma {:induction false} LookupMissing(items: seq<(Key, SettingValue)>, key: Key)
    requires forall j :: 0 <= j < |items| ==> items[j].0 != key
    ensures Lookup(items, key) == None
  {
    if |items| > 0 {
      LookupMissing(items[..|items| - 1], key);
    }
  }

  /** What each environment presets for the four keys. */
  lemma DebugPreset(e: Environment)
    ensures Lookup(EnvSettings(e), Debug) == Some(Flag(e == Development || e == Test))
  {
    LookupLast(EnvSettings(e), 0, Debug);
  }

  lemma LogLevelPreset(e: Environment)
    ensures Lookup(EnvSettings(e), LogLevel)
            == Some(Str(match e
                        case Development => "DEBUG"
                        case Test => "DEBUG"
                        case Staging => "INFO"
                        case Production => "WARNING"))
  {
    LookupLast(EnvSettings(e), 1, LogLevel);
  }

  lemma LogFormatPreset(e: Environment)
    ensures Lookup(EnvSettings(e), LogFormat)
            == if e == Development || e == Test then Some(Str("console")) else None
  {
    if e == Development || e == Test {
      LookupLast(EnvSettings(e), 2, LogFormat);
    } else {
      LookupMissing(EnvSettings(e), LogFormat);
    }
  }

  lemma RateLimitPreset(e: Environment)
    ensures Lookup(EnvSettings(e), RateLimitDefault)
            == Some(Strs(match e
                         case Development => ["1000 per day", "200 per hour"]
                         case Staging => ["500 per day", "100 per hour"]
                         case Production => ["200 per day", "50 per hour"]
                         case Test => ["1000 per day", "1000 per hour"]))
  {
    LookupLast(EnvSettings(e), |EnvSettings(e)| - 1, RateLimitDefault);
  }

  /** The final value of `key` in terms of its initial value and its
      preset. */
  lemma FinalAt(environ: map<string, string>, key: Key)
    requires Configured(environ).Ok?
    requires Upper(KeyName(key)) == KeyName(key)
    ensures var init := InitialValues(environ).value;
      var preset := Lookup(EnvSettings(GetEnvironment(environ)), key);
      var r := Configured(environ).value;
      if preset.Some? && KeyName(key) !in environ then key in r && r[key] == preset.value
      else (key in r <==> key in init) && (key in init ==> r[key] == init[key])
  {
    AppliedAt(InitialValues(environ).value, EnvSettings(GetEnvironment(environ)), environ, key);
  }

  /** `DEBUG` is the truth of the variable when set, and otherwise true
      exactly in development and test. */
  lemma DebugSetting(environ: map<string, string>)
    requires Configured(environ).Ok?
    ensures Debug in Configured(environ).value
    ensures Configured(environ).value[Debug]
            == Flag(if "DEBUG" in environ then IsTruthy(environ["DEBUG"])
                    else GetEnvironment(environ) == Development || GetEnvironment(environ) == Test)
  {
    DebugPreset(GetEnvironment(environ));
    PresetNamesUpper(Debug);
    FinalAt(environ, Debug);
    InitialAt(environ, Debug);
  }

  /** `LOG_LEVEL` is the variable when set, and otherwise DEBUG in
      development and test, INFO in staging and WARNING in production. */
  lemma LogLevelSetting(environ: map<string, string>)
    requires Configured(environ).Ok?
    ensures LogLevel in Configured(environ).value
    ensures Configured(environ).value[LogLevel]
            == Str(if "LOG_LEVEL" in environ then environ["LOG_LEVEL"]
                   else match GetEnvironment(environ)
                        case Development => "DEBUG"
                        case Test => "DEBUG"
                        case Staging => "INFO"
                        case Production => "WARNING")
  {
    LogLevelPreset(GetEnvironment(environ));
    PresetNamesUpper(LogLevel);
    FinalAt(environ, LogLevel);
    InitialAt(environ, LogLevel);
  }

  /** `LOG_FORMAT` is the variable when set, and otherwise "console" in
      development and test; staging and production have no preset and keep
      the default "json". */
  lemma LogFormatSetting(environ: map<string, string>)
    requires Configured(environ).Ok?
    ensures LogFormat in Configured(environ).value
    ensures Configured(environ).value[LogFormat]
            == Str(if "LOG_FORMAT" in environ then environ["LOG_FORMAT"]
                   else if GetEnvironment(environ) == Development || GetEnvironment(environ) == Test then "console"
                   else "json")
  {
    LogFormatPreset(GetEnvironment(environ));
    PresetNamesUpper(LogFormat);
    FinalAt(environ, LogFormat);
    InitialAt(environ, LogFormat);
  }

  /** `RATE_LIMIT_DEFAULT` exists only as a preset: setting the variable
      leaves the settings without that attribute. */
  lemma RateLimitSetting(environ: map<string, string>)
    requires Configured(environ).Ok?
    ensures RateLimitDefault in Configured(environ).value <==> "RATE_LIMIT_DEFAULT" !in environ
    ensures "RATE_LIMIT_DEFAULT" !in environ ==>
      Configured(environ).value[RateLimitDefault]
      == Strs(match GetEnvironment(environ)
              case Development => ["1000 per day", "200 per hour"]
              case Staging => ["500 per day", "100 per hour"]
              case Production => ["200 per day", "50 per hour"]
              case Test => ["1000 per day", "1000 per hour"])
  {
    RateLimitNotRead();
    InitialAt(environ, RateLimitDefault);
    RateLimitPreset(GetEnvironment(environ));
    PresetNamesUpper(RateLimitDefault);
    FinalAt(environ, RateLimitDefault);
  }

  /** `__init__` never reads `RATE_LIMIT_DEFAULT`. */
  lemma RateLimitNotRead()
    ensures RateLimitDefault !in InitialKeys()
    ensures KeyName(RateLimitDefault) == "RATE_LIMIT_DEFAULT"
  {
  }

  lemma DefaultExpiry()
    ensures ParseInt("30") == Ok(30)
  {
    StripAround("", "30", "");
    assert "" + "30" + "" == "30";
    ParseIntDigits("30", "30");
    assert DigitsValue("30") == 30 by {
      assert "30"[..1] == "3" && "3"[..0] == "";
    }
  }

  lemma ExpireDaysNamed()
    ensures KeyName(JwtAccessTokenExpireDays) == "JWT_ACCESS_TOKEN_EXPIRE_DAYS"
    ensures JwtAccessTokenExpireDays in InitialKeys()
  {
  }

  lemma NoExpiryPreset(e: Environment)
    ensures Lookup(EnvSettings(e), JwtAccessTokenExpireDays) == None
  {
    LookupMissing(EnvSettings(e), JwtAccessTokenExpireDays);
  }

  /** The settings are built exactly when the token lifetime is an integer
      literal; unset it is 30 days. */
  lemma ExpireDaysSetting(environ: map<string, string>)
    ensures Configured(environ).Ok? <==> ParseInt(Getenv(environ, "JWT_ACCESS_TOKEN_EXPIRE_DAYS", "30")).Ok?
    ensures "JWT_ACCESS_TOKEN_EXPIRE_DAYS" !in environ ==>
      && Configured(environ).Ok? && JwtAccessTokenExpireDays in Configured(environ).value
      && Configured(environ).value[JwtAccessTokenExpireDays] == Num(30)
  {
    ExpireDaysNamed();
    if "JWT_ACCESS_TOKEN_EXPIRE_DAYS" !in environ {
      DefaultExpiry();
      PresetNamesUpper(JwtAccessTokenExpireDays);
      NoExpiryPreset(GetEnvironment(environ));
      FinalAt(environ, JwtAccessTokenExpireDays);
      InitialAt(environ, JwtAccessTokenExpireDays);
    }
  }
}
