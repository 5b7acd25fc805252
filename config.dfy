/**
 * The configuration of backend/internal/common/config.go: variables read
 * from the environment with fallbacks, the boolean parser, the ordered
 * validation and the loading of a `Config` in place. The environment is a
 * map from names to values, taken after the `.env` file has been merged in.
 */
module Config {
  import opened Wrappers
  import opened Text

  type Env = map<string, string>

  /** getEnv: the value whenever the variable is set, even to "", else the fallback. */
  function GetEnv(env: Env, key: string, fallback: string): (r: string)
    ensures key in env ==> r == env[key]
    ensures key !in env ==> r == fallback
  {
    if key in env then env[key] else fallback
  }

  /** strconv.ParseBool: the spellings it accepts for each value; anything else fails. */
  function ParseBool(s: string): (r: Option<bool>)
    ensures r == Some(true) <==> s in {"1", "t", "T", "TRUE", "true", "True"}
    ensures r == Some(false) <==> s in {"0", "f", "F", "FALSE", "false", "False"}
  {
    if s in {"1", "t", "T", "TRUE", "true", "True"} then Some(true)
    else if s in {"0", "f", "F", "FALSE", "false", "False"} then Some(false)
    else None
  }

  /** strconv.FormatBool. */
  function FormatBool(b: bool): string {
    if b then "true" else "false"
  }

  /** FormatBool and ParseBool are inverse. */
  lemma ParseFormatBool(b: bool)
    ensures ParseBool(FormatBool(b)) == Some(b)
  {
  }

  /**
   * getEnvBool: the value, lower-cased, parsed as a boolean; the fallback
   * when the variable is unset or does not parse.
   */
  function GetEnvBool(env: Env, key: string, fallback: bool): (r: bool)
    ensures key !in env ==> r == fallback
    ensures key in env && ParseBool(ToLower(env[key])).None? ==> r == fallback
    ensures key in env && ParseBool(ToLower(env[key])).Some? ==> r == ParseBool(ToLower(env[key])).value
  {
    if key in env then
      var parsed := ParseBool(ToLower(env[key]));
      if parsed.None? then fallback else parsed.value
    else fallback
  }

  /** Lower-casing first makes every capitalisation of "true" and "false" count. */
  lemma GetEnvBoolAnyCase(env: Env, key: string, fallback: bool)
    requires key in env && ToLower(env[key]) in {"true", "false"}
    ensures GetEnvBool(env, key, fallback) == (ToLower(env[key]) == "true")
  {
  }

  /** "TRUE" is read as true, "yes" falls back. */
  lemma GetEnvBoolExamples(env: Env, key: string, fallback: bool)
    ensures GetEnvBool(env[key := "TRUE"], key, false)
    ensures GetEnvBool(env[key := "yes"], key, fallback) == fallback
  {
    assert ToLower("TRUE") == "true";
    assert ToLower("yes") == "yes";
  }

  datatype LoggerConfig = LoggerConfig(baseDir: string, consoleOutput: bool)
  datatype NvdConfig = NvdConfig(apiKey: string, apiUrl: string)
  datatype DatabaseConfig = DatabaseConfig(host: string, port: string, user: string, password: string, name: string)
  datatype SqsConfig = SqsConfig(accessKey: string, secretAccessKey: string, region: string, queueUrl: string)

  /** The contents of a Config. */
  datatype Settings = Settings(
    logger: LoggerConfig, nvd: NvdConfig, database: DatabaseConfig, sqs: SqsConfig, gptApiKey: string)

  const DefaultBaseDir := "./log"
  const DefaultNvdUrl := "https://services.nvd.nist.gov/rest/json/cves/2.0"
  const DefaultDbHost := "localhost"
  const DefaultDbPort := "5432"
  const DefaultRegion := "us-west-2"

  function LoggerFrom(env: Env): LoggerConfig {
    LoggerConfig(GetEnv(env, "BASE_DIR", DefaultBaseDir), GetEnvBool(env, "CONSOLE_OUTPUT", false))
  }

  function NvdFrom(env: Env): NvdConfig {
    NvdConfig(GetEnv(env, "NVD_API_KEY", ""), GetEnv(env, "NVD_API_URL", DefaultNvdUrl))
  }

  function DatabaseFrom(env: Env): DatabaseConfig {
    DatabaseConfig(GetEnv(env, "DB_HOST", DefaultDbHost), GetEnv(env, "DB_PORT", DefaultDbPort),
                   GetEnv(env, "DB_USER", ""), GetEnv(env, "DB_PASSWORD", ""), GetEnv(env, "DB_NAME", ""))
  }

  function SqsFrom(env: Env): SqsConfig {
    SqsConfig(GetEnv(env, "AWS_ACCESS_KEY", ""), GetEnv(env, "AWS_SECRET_ACCESS_KEY", ""),
              GetEnv(env, "AWS_REGION", DefaultRegion), GetEnv(env, "SQS_QUEUE_URL", ""))
  }

  /** The settings Load assigns for an environment. */
  function SettingsFrom(env: Env): Settings {
    Settings(LoggerFrom(env), NvdFrom(env), DatabaseFrom(env), SqsFrom(env), GetEnv(env, "GPT_API_KEY", ""))
  }

  /** An unset environment gives the documented defaults. */
  lemma Defaults()
    ensures var s := SettingsFrom(map[]);
            s.logger == LoggerConfig("./log", false) &&
            s.nvd == NvdConfig("", "https://services.nvd.nist.gov/rest/json/cves/2.0") &&
            s.database == DatabaseConfig("localhost", "5432", "", "", "") &&
            s.sqs == SqsConfig("", "", "us-west-2", "") && s.gptApiKey == ""
  {
  }

  const NoNvdKey := "NVD API Key is required"
  const IncompleteDatabase := "Database configuration is incomplete"
  const NoAwsCredentials := "AWS credentials are missing"
  const NoGptKey := "GPT API Key is required"

  /** validate: the first of four checks that fails, in their order. */
  function Validate(s: Settings): (r: Option<string>)
    ensures r.None? <==>
              s.nvd.apiKey != "" && s.database.host != "" && s.database.port != "" && s.database.user != "" &&
              s.sqs.accessKey != "" && s.sqs.secretAccessKey != "" && s.gptApiKey != ""
    ensures r == Some(NoNvdKey) <==> s.nvd.apiKey == ""
    ensures r == Some(IncompleteDatabase) <==>
              s.nvd.apiKey != "" && (s.database.host == "" || s.database.port == "" || s.database.user == "")
    ensures r == Some(NoAwsCredentials) <==>
              s.nvd.apiKey != "" && s.database.host != "" && s.database.port != "" && s.database.user != "" &&
              (s.sqs.accessKey == "" || s.sqs.secretAccessKey == "")
    ensures r == Some(NoGptKey) <==>
              s.nvd.apiKey != "" && s.database.host != "" && s.database.port != "" && s.database.user != "" &&
              s.sqs.accessKey != "" && s.sqs.secretAccessKey != "" && s.gptApiKey == ""
  {
    if s.nvd.apiKey == "" then Some(NoNvdKey)
    else if s.database.host == "" || s.database.port == "" || s.database.user == "" then Some(IncompleteDatabase)
    else if s.sqs.accessKey == "" || s.sqs.secretAccessKey == "" then Some(NoAwsCredentials)
    else if s.gptApiKey == "" then Some(NoGptKey)
    else None
  }

  /** The password, the database name, the queue URL and the region are never checked. */
  lemma UncheckedFields(s: Settings, password: string, name: string, queueUrl: string, region: string)
    ensures Validate(s) ==
            Validate(s.(database := s.database.(password := password, name := name),
                        sqs := s.sqs.(queueUrl := queueUrl, region := region)))
  {
  }

  /** The variable is set to something other than "". */
  predicate IsSet(env: Env, key: string) { key in env && env[key] != "" }

  /** The variable is unset or set to something other than "". */
  predicate NotBlanked(env: Env, key: string) { key !in env || env[key] != "" }

  /**
   * The five variables without a usable default decide validation: the
   * host and port fall back to non-empty values, but a variable set to ""
   * overrides its default.
   */
  lemma ValidIffRequiredSet(env: Env)
    ensures Validate(SettingsFrom(env)).None? <==>
              IsSet(env, "NVD_API_KEY") && IsSet(env, "DB_USER") && IsSet(env, "AWS_ACCESS_KEY") &&
              IsSet(env, "AWS_SECRET_ACCESS_KEY") && IsSet(env, "GPT_API_KEY") &&
              NotBlanked(env, "DB_HOST") && NotBlanked(env, "DB_PORT")
  {
  }

  /** With nothing set, loading fails on the first check. */
  lemma EmptyEnvFailsFirstCheck()
    ensures Validate(SettingsFrom(map[])) == Some(NoNvdKey)
  {
  }

  /** The messages of Load's two failures. */
  function DotEnvFailure(e: string): string { "failed to load .env file: " + e }

  function ValidationFailure(e: string): string { "config validation failed: " + e }

  /** A Config: empty until loaded, filled field by field by Load. */
  class Config {
    var logger: LoggerConfig
    var nvd: NvdConfig
    var database: DatabaseConfig
    var sqs: SqsConfig
    var gptApiKey: string

    function State(): Settings
      reads this
    {
      Settings(logger, nvd, database, sqs, gptApiKey)
    }

    /** NewConfig: every field at its zero value. */
    constructor ()
      ensures State() == Settings(LoggerConfig("", false), NvdConfig("", ""), DatabaseConfig("", "", "", "", ""),
                                  SqsConfig("", "", "", ""), "")
    {
      logger := LoggerConfig("", false);
      nvd := NvdConfig("", "");
      database := DatabaseConfig("", "", "", "", "");
      sqs := SqsConfig("", "", "", "");
      gptApiKey := "";
    }

    /**
     * Load: a failed `.env` load leaves the fields alone; otherwise every
     * field is assigned from the environment, and only then validated, so
     * a rejected configuration stays assigned.
     */
    method Load(env: Env, dotEnvError: Option<string>) returns (err: Option<string>)
      modifies this
      ensures dotEnvError.Some? ==> err == Some(DotEnvFailure(dotEnvError.value)) && State() == old(State())
      ensures dotEnvError.None? ==> State() == SettingsFrom(env)
      ensures dotEnvError.None? ==>
                (err.None? <==> Validate(SettingsFrom(env)).None?) &&
                (err.Some? ==> err == Some(ValidationFailure(Validate(SettingsFrom(env)).value)))
    {
      if dotEnvError.Some? {
        return Some(DotEnvFailure(dotEnvError.value));
      }
      logger := LoggerConfig(GetEnv(env, "BASE_DIR", DefaultBaseDir), GetEnvBool(env, "CONSOLE_OUTPUT", false));
      nvd := NvdConfig(GetEnv(env, "NVD_API_KEY", ""), GetEnv(env, "NVD_API_URL", DefaultNvdUrl));
      database := DatabaseConfig(GetEnv(env, "DB_HOST", DefaultDbHost), GetEnv(env, "DB_PORT", DefaultDbPort),
                                 GetEnv(env, "DB_USER", ""), GetEnv(env, "DB_PASSWORD", ""), GetEnv(env, "DB_NAME", ""));
      sqs := SqsConfig(GetEnv(env, "AWS_ACCESS_KEY", ""), GetEnv(env, "AWS_SECRET_ACCESS_KEY", ""),
                       GetEnv(env, "AWS_REGION", DefaultRegion), GetEnv(env, "SQS_QUEUE_URL", ""));
      gptApiKey := GetEnv(env, "GPT_API_KEY", "");
      var invalid := Validate(State());
      if invalid.Some? {
        return Some(ValidationFailure(invalid.value));
      }
      return None;
    }
  }
}
