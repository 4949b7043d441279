/** Configuration loading and validation (config/config.go). */
module Config {
  import opened Wrappers
  import opened GoTypes
  import Secrets

  /** The GitHub App settings the client factory reads. */
  datatype GitHubConfig = GitHubConfig(appId: Int64, enterpriseUrl: GoString)

  datatype SecretsConfig = SecretsConfig(gitHubPrivateKey: seq<Byte>)

  /** The parts of Config the core reads; Temporal and App settings are only passed through. */
  datatype Config = Config(gitHub: GitHubConfig, secrets: SecretsConfig)

  datatype ValidationError = AppIdRequired | PrivateKeyRequired

  datatype LoadSecretsError = PrivateKeyLoadFailed(cause: Secrets.SecretError)

  datatype ConfigError =
    | ParseFailed(cause: GoString)                 // "failed to parse environment variables: %w"
    | SecretsFailed(loadError: LoadSecretsError)     // "failed to load secrets: %w"
    | InvalidConfiguration(invalid: ValidationError) // "invalid configuration: %w"

  const SecretsPathVar: GoString := "SECRETS_PATH"
  const DefaultSecretsPath: GoString := ".private"
  /** The key file's name, with the separator that joins it to the secrets directory. */
  const PrivateKeySuffix: GoString := "/streamcommander" + ".2025-07-12" + ".private-key.pem"

  /** The variable's value when it is set to something non-empty, else the default. */
  function GetEnv(env: Environ, key: GoString, defaultValue: GoString): (value: GoString)
    ensures key in env && env[key] != "" ==> value == env[key]
    ensures (key !in env || env[key] == "") ==> value == defaultValue
  {
    var v := Getenv(env, key);
    if v != "" then v else defaultValue
  }

  /** An empty value reads as unset. */
  lemma EmptyValueIsUnset(env: Environ, key: GoString, defaultValue: GoString)
    ensures GetEnv(env[key := ""], key, defaultValue) == GetEnv(env - {key}, key, defaultValue) == defaultValue
  {
  }

  /** `fmt.Sprintf("%s/streamcommander.2025-07-12.private-key.pem", secretsPath)`. */
  function PrivateKeyPath(secretsPath: GoString): (path: GoString)
    ensures |path| == |secretsPath| + |PrivateKeySuffix|
    ensures path[..|secretsPath|] == secretsPath && path[|secretsPath|..] == PrivateKeySuffix
    ensures path != ""
  {
    secretsPath + PrivateKeySuffix
  }

  /** Where loadSecrets looks for the key: under SECRETS_PATH when it is set, else under ".private". */
  lemma PrivateKeyLocation(env: Environ)
    ensures SecretsPathVar !in env ==>
              PrivateKeyPath(GetEnv(env, SecretsPathVar, DefaultSecretsPath)) == DefaultSecretsPath + PrivateKeySuffix
    ensures SecretsPathVar in env && env[SecretsPathVar] != "" ==>
              PrivateKeyPath(GetEnv(env, SecretsPathVar, DefaultSecretsPath)) == env[SecretsPathVar] + PrivateKeySuffix
    ensures |PrivateKeyPath(GetEnv(env, SecretsPathVar, DefaultSecretsPath))| > |PrivateKeySuffix|
  {
  }

  /** The checks of validateConfig, App ID first. */
  function ValidateConfig(cfg: Config): (r: Outcome<ValidationError>)
    ensures cfg.gitHub.appId == 0 ==> r == Fail(AppIdRequired)
    ensures cfg.gitHub.appId != 0 && |cfg.secrets.gitHubPrivateKey| == 0 ==> r == Fail(PrivateKeyRequired)
    ensures r == Pass <==> cfg.gitHub.appId != 0 && |cfg.secrets.gitHubPrivateKey| > 0
  {
    if cfg.gitHub.appId == 0 then Fail(AppIdRequired)
    else if |cfg.secrets.gitHubPrivateKey| == 0 then Fail(PrivateKeyRequired)
    else Pass
  }

  /**
   * loadSecrets: read the private key and store it in the configuration.
   * `cfg'` is the configuration after the call; on an error it is untouched.
   */
  method LoadSecrets(cfg: Config, env: Environ, fs: Secrets.FileSystem)
    returns (cfg': Config, err: Option<LoadSecretsError>)
    ensures var path := PrivateKeyPath(GetEnv(env, SecretsPathVar, DefaultSecretsPath));
            match Secrets.LoadFromFile(path, fs)
            case Failure(e) => err == Some(PrivateKeyLoadFailed(e)) && cfg' == cfg
            case Success(key) => err == None && cfg' == cfg.(secrets := SecretsConfig(key))
    ensures err == None ==> |cfg'.secrets.gitHubPrivateKey| > 0 && cfg'.gitHub == cfg.gitHub
  {
    var secretsPath := GetEnv(env, SecretsPathVar, DefaultSecretsPath);
    var privateKeyPath := PrivateKeyPath(secretsPath);
    var privateKey := Secrets.LoadFromFile(privateKeyPath, fs);
    if privateKey.Failure? {
      return cfg, Some(PrivateKeyLoadFailed(privateKey.error));
    }
    cfg' := cfg.(secrets := SecretsConfig(privateKey.value));
    err := None;
  }

  /**
   * Load: parse, then load secrets, then validate, stopping at the first failure.
   * `parsed` is what the environment-variable parser produced.
   */
  method Load(parsed: Result<Config, GoString>, env: Environ, fs: Secrets.FileSystem)
    returns (r: Result<Config, ConfigError>)
    ensures parsed.Failure? ==> r == Failure(ParseFailed(parsed.error))
    ensures parsed.Success? ==>
              var key := Secrets.LoadFromFile(PrivateKeyPath(GetEnv(env, SecretsPathVar, DefaultSecretsPath)), fs);
              && (key.Failure? ==> r == Failure(SecretsFailed(PrivateKeyLoadFailed(key.error))))
              && (key.Success? && parsed.value.gitHub.appId == 0 ==> r == Failure(InvalidConfiguration(AppIdRequired)))
              && (key.Success? && parsed.value.gitHub.appId != 0 ==>
                    r == Success(parsed.value.(secrets := SecretsConfig(key.value))))
    ensures r.Success? ==> ValidateConfig(r.value) == Pass
    ensures r != Failure(InvalidConfiguration(PrivateKeyRequired))
  {
    if parsed.Failure? {
      return Failure(ParseFailed(parsed.error));
    }
    var cfg := parsed.value;
    var err;
    cfg, err := LoadSecrets(cfg, env, fs);
    if err.Some? {
      return Failure(SecretsFailed(err.value));
    }
    var valid := ValidateConfig(cfg);
    if valid.Fail? {
      return Failure(InvalidConfiguration(valid.error));
    }
    r := Success(cfg);
  }
}
