/** Environment configuration (src/config/env.ts): the required variables are
    checked in declared order and the configuration is read from the
    environment map. */
module Env {
  import opened Prelude
  import opened Js

  const RequiredEnvVars: seq<string> := [
    "SUPABASE_URL",
    "SUPABASE_ANON_KEY",
    "SUPABASE_SERVICE_ROLE_KEY",
    "DATABASE_URL",
    "DEEPGRAM_API_KEY",
    "OPENAI_API_KEY",
    "BASE_URL"
  ]

  const MissingPrefix := "Missing required environment variables: "

  /** `port` is `None` when `parseInt` gives NaN. */
  datatype EnvConfig = EnvConfig(
    nodeEnv: string,
    port: Option<int>,
    supabaseUrl: string,
    supabaseAnonKey: string,
    supabaseServiceRoleKey: string,
    databaseUrl: string,
    deepgramApiKey: string,
    openAiApiKey: string,
    baseUrl: string)

  /** `process.env[name]` is truthy: present and not empty. */
  predicate IsSet(env: map<string, string>, name: string)
  {
    name in env && env[name] != ""
  }

  /** Every required variable is set, name by name. */
  predicate AllRequiredSet(env: map<string, string>)
  {
    IsSet(env, "SUPABASE_URL") && IsSet(env, "SUPABASE_ANON_KEY") && IsSet(env, "SUPABASE_SERVICE_ROLE_KEY")
    && IsSet(env, "DATABASE_URL") && IsSet(env, "DEEPGRAM_API_KEY") && IsSet(env, "OPENAI_API_KEY")
    && IsSet(env, "BASE_URL")
  }

  /** `requiredEnvVars.filter((varName) => !process.env[varName])` */
  function MissingVars(env: map<string, string>, names: seq<string>): (r: seq<string>)
    ensures forall v :: v in r <==> v in names && !IsSet(env, v)
    ensures Subsequence(r, names)
  {
    if |names| == 0 then []
    else if !IsSet(env, names[0]) then [names[0]] + MissingVars(env, names[1..])
    else MissingVars(env, names[1..])
  }

  /** `validateEnv()`: throws the list of missing variables, or returns the
      configuration. */
  function ValidateEnv(env: map<string, string>): (r: Result<EnvConfig, string>)
    ensures r.Err? <==> exists v :: v in RequiredEnvVars && !IsSet(env, v)
    ensures r.Err? ==> r.error == MissingPrefix + Join(MissingVars(env, RequiredEnvVars), ", ")
    ensures r.Ok? ==> r.value.nodeEnv == (if IsSet(env, "NODE_ENV") then env["NODE_ENV"] else "development")
    ensures r.Ok? ==> r.value.port == ParseInt(if IsSet(env, "PORT") then env["PORT"] else "3001", 10)
    ensures r.Ok? ==> AllRequiredSet(env)
    ensures r.Ok? ==> r.value.supabaseUrl == env["SUPABASE_URL"]
    ensures r.Ok? ==> r.value.supabaseAnonKey == env["SUPABASE_ANON_KEY"]
    ensures r.Ok? ==> r.value.supabaseServiceRoleKey == env["SUPABASE_SERVICE_ROLE_KEY"]
    ensures r.Ok? ==> r.value.databaseUrl == env["DATABASE_URL"]
    ensures r.Ok? ==> r.value.deepgramApiKey == env["DEEPGRAM_API_KEY"]
    ensures r.Ok? ==> r.value.openAiApiKey == env["OPENAI_API_KEY"]
    ensures r.Ok? ==> r.value.baseUrl == env["BASE_URL"]
  {
    var missing := MissingVars(env, RequiredEnvVars);
    if |missing| > 0 then
      assert missing[0] in missing;
      Err(MissingPrefix + Join(missing, ", "))
    else
      Ok(ReadConfig(env))
  }

  /** The configuration object built once every required variable is set. */
  function ReadConfig(env: map<string, string>): (c: EnvConfig)
    requires |MissingVars(env, RequiredEnvVars)| == 0
    ensures AllRequiredSet(env)
    ensures c.nodeEnv == (if IsSet(env, "NODE_ENV") then env["NODE_ENV"] else "development")
    ensures c.port == ParseInt(if IsSet(env, "PORT") then env["PORT"] else "3001", 10)
    ensures c.supabaseUrl == env["SUPABASE_URL"]
    ensures c.supabaseAnonKey == env["SUPABASE_ANON_KEY"]
    ensures c.supabaseServiceRoleKey == env["SUPABASE_SERVICE_ROLE_KEY"]
    ensures c.databaseUrl == env["DATABASE_URL"]
    ensures c.deepgramApiKey == env["DEEPGRAM_API_KEY"]
    ensures c.openAiApiKey == env["OPENAI_API_KEY"]
    ensures c.baseUrl == env["BASE_URL"]
  {
    assert forall v :: v in RequiredEnvVars ==> v !in MissingVars(env, RequiredEnvVars);
    assert RequiredEnvVars[0] in RequiredEnvVars && RequiredEnvVars[1] in RequiredEnvVars;
    assert RequiredEnvVars[2] in RequiredEnvVars && RequiredEnvVars[3] in RequiredEnvVars;
    assert RequiredEnvVars[4] in RequiredEnvVars && RequiredEnvVars[5] in RequiredEnvVars;
    assert RequiredEnvVars[6] in RequiredEnvVars;
    EnvConfig(
      nodeEnv := if IsSet(env, "NODE_ENV") then env["NODE_ENV"] else "development",
      port := ParseInt(if IsSet(env, "PORT") then env["PORT"] else "3001", 10),
      supabaseUrl := env["SUPABASE_URL"],
      supabaseAnonKey := env["SUPABASE_ANON_KEY"],
      supabaseServiceRoleKey := env["SUPABASE_SERVICE_ROLE_KEY"],
      databaseUrl := env["DATABASE_URL"],
      deepgramApiKey := env["DEEPGRAM_API_KEY"],
      openAiApiKey := env["OPENAI_API_KEY"],
      baseUrl := env["BASE_URL"])
  }

  predicate IsDevelopment(config: EnvConfig) { config.nodeEnv == "development" }
  predicate IsProduction(config: EnvConfig) { config.nodeEnv == "production" }
  predicate IsTest(config: EnvConfig) { config.nodeEnv == "test" }

  /** At most one of the three environment predicates holds. */
  lemma AtMostOneEnvironment(config: EnvConfig)
    ensures !(IsDevelopment(config) && IsProduction(config))
    ensures !(IsDevelopment(config) && IsTest(config))
    ensures !(IsProduction(config) && IsTest(config))
  {
  }

  /** Without PORT the configuration listens on 3001. */
  lemma DefaultPort(env: map<string, string>)
    requires ValidateEnv(env).Ok? && !IsSet(env, "PORT")
    ensures ValidateEnv(env).value.port == Some(3001)
  {
    DefaultPortText();
    ParseIntOfIntToString(3001, 10);
  }

  lemma DefaultPortText()
    ensures IntToString(3001) == "3001"
  {
    assert NatToString(3) == "3";
    assert NatToString(30) == "30";
    assert NatToString(300) == "300";
  }
}
