/**
 * Configuration loading of mpc-server/config.py: the `Config` dataclass defaults, the
 * environment step `_load_from_environment` and the Key Vault step
 * `_load_from_key_vault`. The environment is a map from variable name to value; the
 * vault is an abstract lookup from secret name to value, `None` standing for a lookup
 * that raises, and the vault as a whole is `None` when its client cannot be created.
 */
module Configuration {
  import opened Wrappers
  import Text

  datatype Config = Config(
    host: string,
    port: int,
    debug: bool,
    workers: int,
    azureStorageConnectionString: Option<string>,
    azureStorageAccountName: Option<string>,
    azureStorageContainerName: string,
    azureKeyVaultUrl: Option<string>,
    redisHost: string,
    redisPort: int,
    redisDb: int,
    redisPassword: Option<string>,
    jwtSecretKey: Option<string>,
    jwtAlgorithm: string,
    jwtExpirationHours: int,
    rateLimitPerMinute: int,
    rateLimitBurst: int,
    enableMetrics: bool,
    enableTracing: bool,
    applicationInsightsConnectionString: Option<string>,
    enableCaching: bool,
    cacheTtlSeconds: int,
    enableAuditLogging: bool)

  /** `Config()`: the dataclass defaults. */
  const Defaults: Config := Config(
    "0.0.0.0", 8080, false, 4,
    None, None, "copilot-resources", None,
    "localhost", 6379, 0, None,
    None, "HS256", 24,
    60, 10,
    true, true, None,
    true, 300, true)

  type Environment = map<string, string>

  type Vault = string -> Option<string>

  function Getenv(env: Environment, name: string): (v: Option<string>)
    ensures v.Some? <==> name in env
    ensures v.Some? ==> v.value == env[name]
  {
    if name in env then Some(env[name]) else None
  }

  /** `value.lower() == "true"`. */
  predicate SaysTrue(value: string)
  {
    Text.Lower(value) == "true"
  }

  /** `os.getenv(name, default).lower() == "true"`. */
  predicate Flag(env: Environment, name: string, default: string)
  {
    SaysTrue(Getenv(env, name).GetOr(default))
  }

  /** `int(os.getenv(name, current))`; `None` where `int` raises `ValueError`. */
  function IntSetting(env: Environment, name: string, current: int): (r: Option<int>)
    ensures name !in env ==> r == Some(current)
    ensures name in env ==> r == Text.ParseInt(env[name])
  {
    if name in env then Text.ParseInt(env[name]) else Some(current)
  }

  /** Python truthiness of an optional string: `None` and `""` are false. */
  predicate Falsy(v: Option<string>)
  {
    v == None || v == Some("")
  }

  /**
   * The configuration `_load_from_environment` leaves, starting from `base`, or `None`
   * when one of the integer settings does not parse (the step then raises).
   * String settings with a default fall back to `base`; the optional ones become the
   * variable's value or `None`; the three flags compare the lower-cased value with
   * "true"; every field the step does not assign keeps its value from `base`.
   */
  function FromEnvironment(base: Config, env: Environment): (r: Option<Config>)
    ensures r.None? <==>
      || ("MCP_PORT" in env && Text.ParseInt(env["MCP_PORT"]).None?)
      || ("MCP_WORKERS" in env && Text.ParseInt(env["MCP_WORKERS"]).None?)
      || ("REDIS_PORT" in env && Text.ParseInt(env["REDIS_PORT"]).None?)
    ensures r.Some? ==>
      r.value.(debug := base.debug, enableCaching := base.enableCaching,
               enableAuditLogging := base.enableAuditLogging) ==
      base.(host := r.value.host, port := r.value.port, workers := r.value.workers,
            azureStorageConnectionString := r.value.azureStorageConnectionString,
            azureStorageAccountName := r.value.azureStorageAccountName,
            azureStorageContainerName := r.value.azureStorageContainerName,
            azureKeyVaultUrl := r.value.azureKeyVaultUrl,
            redisHost := r.value.redisHost, redisPort := r.value.redisPort,
            redisPassword := r.value.redisPassword, jwtSecretKey := r.value.jwtSecretKey,
            applicationInsightsConnectionString := r.value.applicationInsightsConnectionString)
  {
    var port := IntSetting(env, "MCP_PORT", base.port);
    var workers := IntSetting(env, "MCP_WORKERS", base.workers);
    var redisPort := IntSetting(env, "REDIS_PORT", base.redisPort);
    if port.None? || workers.None? || redisPort.None? then None
    else
      Some(base.(
        host := Getenv(env, "MCP_HOST").GetOr(base.host),
        port := port.value,
        debug := Flag(env, "MCP_DEBUG", "false"),
        workers := workers.value,
        azureStorageConnectionString := Getenv(env, "AZURE_STORAGE_CONNECTION_STRING"),
        azureStorageAccountName := Getenv(env, "AZURE_STORAGE_ACCOUNT_NAME"),
        azureStorageContainerName := Getenv(env, "AZURE_STORAGE_CONTAINER_NAME").GetOr(base.azureStorageContainerName),
        azureKeyVaultUrl := Getenv(env, "AZURE_KEY_VAULT_URL"),
        redisHost := Getenv(env, "REDIS_HOST").GetOr(base.redisHost),
        redisPort := redisPort.value,
        redisPassword := Getenv(env, "REDIS_PASSWORD"),
        jwtSecretKey := Getenv(env, "JWT_SECRET_KEY"),
        applicationInsightsConnectionString := Getenv(env, "APPLICATIONINSIGHTS_CONNECTION_STRING"),
        enableCaching := Flag(env, "ENABLE_CACHING", "true"),
        enableAuditLogging := Flag(env, "ENABLE_AUDIT_LOGGING", "true")))
  }

  /**
   * What the environment step does to each field: the integer settings parse or the step
   * fails; the flags are case-insensitive comparisons with "true" whose default is
   * "false" for MCP_DEBUG and "true" for the two feature switches; the optional
   * settings become the variable or `None`, with no default surviving; the string
   * settings fall back to their previous value; and every field the step does not
   * assign keeps its previous value.
   */
  lemma EnvironmentStepFields(base: Config, env: Environment)
    ensures FromEnvironment(base, env).Some? <==>
      && IntSetting(env, "MCP_PORT", base.port).Some?
      && IntSetting(env, "MCP_WORKERS", base.workers).Some?
      && IntSetting(env, "REDIS_PORT", base.redisPort).Some?
    ensures FromEnvironment(base, env).Some? ==>
      var c := FromEnvironment(base, env).value;
      && Some(c.port) == IntSetting(env, "MCP_PORT", base.port)
      && Some(c.workers) == IntSetting(env, "MCP_WORKERS", base.workers)
      && Some(c.redisPort) == IntSetting(env, "REDIS_PORT", base.redisPort)
      && c.debug == Flag(env, "MCP_DEBUG", "false")
      && c.enableCaching == Flag(env, "ENABLE_CACHING", "true")
      && c.enableAuditLogging == Flag(env, "ENABLE_AUDIT_LOGGING", "true")
      && c.azureStorageConnectionString == Getenv(env, "AZURE_STORAGE_CONNECTION_STRING")
      && c.azureStorageAccountName == Getenv(env, "AZURE_STORAGE_ACCOUNT_NAME")
      && c.azureKeyVaultUrl == Getenv(env, "AZURE_KEY_VAULT_URL")
      && c.redisPassword == Getenv(env, "REDIS_PASSWORD")
      && c.jwtSecretKey == Getenv(env, "JWT_SECRET_KEY")
      && c.applicationInsightsConnectionString == Getenv(env, "APPLICATIONINSIGHTS_CONNECTION_STRING")
      && c.host == Getenv(env, "MCP_HOST").GetOr(base.host)
      && c.azureStorageContainerName == Getenv(env, "AZURE_STORAGE_CONTAINER_NAME").GetOr(base.azureStorageContainerName)
      && c.redisHost == Getenv(env, "REDIS_HOST").GetOr(base.redisHost)
      && c.redisDb == base.redisDb
      && c.jwtAlgorithm == base.jwtAlgorithm
      && c.jwtExpirationHours == base.jwtExpirationHours
      && c.rateLimitPerMinute == base.rateLimitPerMinute
      && c.rateLimitBurst == base.rateLimitBurst
      && c.enableMetrics == base.enableMetrics
      && c.enableTracing == base.enableTracing
      && c.cacheTtlSeconds == base.cacheTtlSeconds
  {
  }

  /**
   * The configuration `_load_from_key_vault` leaves. Without a vault URL, or when the
   * client cannot be created, nothing changes. Otherwise each of the JWT secret and
   * the storage connection string is fetched only if still falsy, and kept as it was
   * when its lookup fails. No other field changes.
   */
  function WithVault(c: Config, vault: Option<Vault>): (r: Config)
    ensures Falsy(c.azureKeyVaultUrl) || vault.None? ==> r == c
    ensures r == c.(jwtSecretKey := r.jwtSecretKey,
                    azureStorageConnectionString := r.azureStorageConnectionString)
    ensures !Falsy(c.jwtSecretKey) ==> r.jwtSecretKey == c.jwtSecretKey
    ensures !Falsy(c.azureStorageConnectionString) ==>
      r.azureStorageConnectionString == c.azureStorageConnectionString
    ensures !Falsy(c.azureKeyVaultUrl) && vault.Some? && Falsy(c.jwtSecretKey) ==>
      r.jwtSecretKey == (if vault.value("jwt-secret-key").Some?
                         then vault.value("jwt-secret-key") else c.jwtSecretKey)
    ensures !Falsy(c.azureKeyVaultUrl) && vault.Some? && Falsy(c.azureStorageConnectionString) ==>
      r.azureStorageConnectionString ==
        (if vault.value("storage-connection-string").Some?
         then vault.value("storage-connection-string") else c.azureStorageConnectionString)
  {
    if Falsy(c.azureKeyVaultUrl) || vault.None? then c
    else
      var lookup := vault.value;
      var jwt := if Falsy(c.jwtSecretKey) && lookup("jwt-secret-key").Some?
                 then lookup("jwt-secret-key") else c.jwtSecretKey;
      var storage := if Falsy(c.azureStorageConnectionString) && lookup("storage-connection-string").Some?
                     then lookup("storage-connection-string") else c.azureStorageConnectionString;
      c.(jwtSecretKey := jwt, azureStorageConnectionString := storage)
  }

  /** The object behind the module-level `config_manager`. */
  class ConfigManager {
    var config: Config

    /** `self.config = Config()`; the two loading steps follow as separate calls. */
    constructor ()
      ensures config == Defaults
    {
      config := Defaults;
    }

    /** `_load_from_environment`: one assignment per setting; `ok` is false where `int()` raises. */
    method LoadFromEnvironment(env: Environment) returns (ok: bool)
      modifies this
      ensures ok <==> FromEnvironment(old(config), env).Some?
      ensures ok ==> config == FromEnvironment(old(config), env).value
    {
      config := config.(host := Getenv(env, "MCP_HOST").GetOr(config.host));
      var port := IntSetting(env, "MCP_PORT", config.port);
      if port.None? {
        return false;
      }
      config := config.(port := port.value, debug := Flag(env, "MCP_DEBUG", "false"));
      var workers := IntSetting(env, "MCP_WORKERS", config.workers);
      if workers.None? {
        return false;
      }
      config := config.(
        workers := workers.value,
        azureStorageConnectionString := Getenv(env, "AZURE_STORAGE_CONNECTION_STRING"),
        azureStorageAccountName := Getenv(env, "AZURE_STORAGE_ACCOUNT_NAME"),
        azureStorageContainerName := Getenv(env, "AZURE_STORAGE_CONTAINER_NAME").GetOr(config.azureStorageContainerName),
        azureKeyVaultUrl := Getenv(env, "AZURE_KEY_VAULT_URL"),
        redisHost := Getenv(env, "REDIS_HOST").GetOr(config.redisHost));
      var redisPort := IntSetting(env, "REDIS_PORT", config.redisPort);
      if redisPort.None? {
        return false;
      }
      config := config.(
        redisPort := redisPort.value,
        redisPassword := Getenv(env, "REDIS_PASSWORD"),
        jwtSecretKey := Getenv(env, "JWT_SECRET_KEY"),
        applicationInsightsConnectionString := Getenv(env, "APPLICATIONINSIGHTS_CONNECTION_STRING"),
        enableCaching := Flag(env, "ENABLE_CACHING", "true"),
        enableAuditLogging := Flag(env, "ENABLE_AUDIT_LOGGING", "true"));
      ok := true;
    }

    /** `_load_from_key_vault`. */
    method LoadFromKeyVault(vault: Option<Vault>)
      modifies this
      ensures config == WithVault(old(config), vault)
    {
      if Falsy(config.azureKeyVaultUrl) || vault.None? {
        return;
      }
      var lookup := vault.value;
      if Falsy(config.jwtSecretKey) {
        var secret := lookup("jwt-secret-key");
        if secret.Some? {
          config := config.(jwtSecretKey := secret);
        }
      }
      if Falsy(config.azureStorageConnectionString) {
        var secret := lookup("storage-connection-string");
        if secret.Some? {
          config := config.(azureStorageConnectionString := secret);
        }
      }
    }
  }

  /**
   * Building the module-level configuration: `ConfigManager()` runs both steps, then
   * `get_config()`. `None` where the environment step raises.
   */
  method LoadConfig(env: Environment, vault: Option<Vault>) returns (r: Option<Config>)
    ensures r.Some? <==> FromEnvironment(Defaults, env).Some?
    ensures r.Some? ==> r.value == WithVault(FromEnvironment(Defaults, env).value, vault)
  {
    var manager := new ConfigManager();
    var ok := manager.LoadFromEnvironment(env);
    if !ok {
      return None;
    }
    manager.LoadFromKeyVault(vault);
    r := Some(manager.config);
  }

  /** With no environment variables set, every field takes its dataclass default. */
  lemma EmptyEnvironmentGivesDefaults(vault: Option<Vault>)
    ensures FromEnvironment(Defaults, map[]) == Some(Defaults)
    ensures WithVault(Defaults, vault) == Defaults
  {
    assert Text.Lower("false") == "false";
    assert Text.Lower("true") == "true";
    assert "false" != "true";
  }

  /**
   * `lower() == "true"` is a case-insensitive match: exactly the four-letter spellings
   * of "true" in any mix of upper and lower case.
   */
  lemma TrueFlagSpellings(s: string)
    ensures Text.Lower(s) == "true" <==>
      |s| == 4 && s[0] in "tT" && s[1] in "rR" && s[2] in "uU" && s[3] in "eE"
  {
    var l := Text.Lower(s);
    if |s| == 4 && s[0] in "tT" && s[1] in "rR" && s[2] in "uU" && s[3] in "eE" {
      assert l == [l[0], l[1], l[2], l[3]];
    }
    if l == "true" {
      assert l[0] == 't' && l[1] == 'r' && l[2] == 'u' && l[3] == 'e';
    }
  }

  /**
   * The environment wins over the vault: a non-empty JWT_SECRET_KEY or
   * AZURE_STORAGE_CONNECTION_STRING in the environment is what the configuration holds
   * whatever the vault answers; an unset or empty one is taken from the vault when its
   * lookup succeeds and stays as the environment left it when the lookup fails.
   */
  lemma EnvironmentWinsOverVault(env: Environment, lookup: Vault)
    requires FromEnvironment(Defaults, env).Some?
    requires "AZURE_KEY_VAULT_URL" in env && env["AZURE_KEY_VAULT_URL"] != ""
    ensures var c := WithVault(FromEnvironment(Defaults, env).value, Some(lookup));
      && ("JWT_SECRET_KEY" in env && env["JWT_SECRET_KEY"] != "" ==>
            c.jwtSecretKey == Some(env["JWT_SECRET_KEY"]))
      && (!("JWT_SECRET_KEY" in env && env["JWT_SECRET_KEY"] != "") ==>
            c.jwtSecretKey == (if lookup("jwt-secret-key").Some? then lookup("jwt-secret-key")
                               else Getenv(env, "JWT_SECRET_KEY")))
      && ("AZURE_STORAGE_CONNECTION_STRING" in env && env["AZURE_STORAGE_CONNECTION_STRING"] != "" ==>
            c.azureStorageConnectionString == Some(env["AZURE_STORAGE_CONNECTION_STRING"]))
  {
  }

  /** A port written as `str(n)` in MCP_PORT is read back as n. */
  lemma PortReadsBack(env: Environment, n: int)
    requires "MCP_PORT" in env && env["MCP_PORT"] == Text.IntToString(n)
    requires FromEnvironment(Defaults, env).Some?
    ensures FromEnvironment(Defaults, env).value.port == n
  {
    Text.IntToStringParses(n);
  }
}
