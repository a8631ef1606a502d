/**
 * The command layer's logic: provider registration at start-up, configuration loading with a
 * fallback, building a provider's settings from the chosen instance, and the walk over all
 * secrets of one or all vaults.
 */
module Cmd {
  import opened Wrappers
  import opened ConfigTypes
  import opened ConfigHelpers
  import ConfigLoader
  import opened ProviderTypes
  import opened ProviderRegistry
  import opened Models
  import Azure
  import Hashicorp

  // ---------------------------------------------------------------------------------------------
  // Providers and their registration

  /** A constructed provider: one of the two backends. */
  datatype Backend = AzureBackend(azure: Azure.Provider) | HashicorpBackend(hashicorp: Hashicorp.Provider)

  /** The provider's `Name()`. */
  function BackendName(b: Backend): string {
    match b
    case AzureBackend(_) => Azure.Name()
    case HashicorpBackend(_) => Hashicorp.Name()
  }

  /** `azure.NewProvider` as a registry factory. */
  function AzureFactory(cfg: Option<ProviderConfig>): (r: Result<Backend>)
    ensures r.Ok? && r.value.AzureBackend? && r.value.azure.timeoutSeconds == Azure.CliTimeoutSeconds
  {
    match Azure.NewProvider(cfg)
    case Ok(p) => Ok(AzureBackend(p))
    case Err(e) => Err(e)
  }

  /** `hashicorp.NewProvider` as a registry factory. */
  function HashicorpFactory(cfg: Option<ProviderConfig>): (r: Result<Backend>)
    ensures r.Ok? && r.value.HashicorpBackend?
    ensures cfg.None? ==> r.value.hashicorp == Hashicorp.Provider("", "", "")
    ensures cfg.Some? ==> r.value.hashicorp == Hashicorp.Provider(
                            Hashicorp.StringSetting(cfg.value.settings, "address"),
                            Hashicorp.StringSetting(cfg.value.settings, "token"),
                            Hashicorp.StringSetting(cfg.value.settings, "namespace"))
  {
    match Hashicorp.NewProvider(cfg)
    case Ok(p) => Ok(HashicorpBackend(p))
    case Err(e) => Err(e)
  }

  /** The start-up registrations. */
  method RegisterBuiltins(reg: Registry<Backend>)
    modifies reg
    ensures reg.factories == old(reg.factories)["azure" := AzureFactory]["hashicorp" := HashicorpFactory]
  {
    reg.Register("azure", AzureFactory);
    reg.Register("hashicorp", HashicorpFactory);
  }

  /** Each built-in factory succeeds and builds a provider whose name is its registration key. */
  lemma BuiltinNamesMatchRegistration(cfg: Option<ProviderConfig>)
    ensures AzureFactory(cfg).Ok? && BackendName(AzureFactory(cfg).value) == "azure"
    ensures HashicorpFactory(cfg).Ok? && BackendName(HashicorpFactory(cfg).value) == "hashicorp"
  {
  }

  // ---------------------------------------------------------------------------------------------
  // Configuration loading

  /** The configuration installed when loading fails. */
  function FallbackConfig(): (c: Config)
    ensures IsProviderEnabled(c, "azure") && IsProviderEnabled(c, "hashicorp")
    ensures ListAzureInstances(c) == [] && ListHashicorpInstances(c) == []
    ensures c.defaults == Defaults("", "")
    ensures c.fzf == FzfConfig("40%", "rounded", false) && c.filters.enabledOnly
  {
    Config(
      Defaults("", ""),
      Providers(Some(AzureConfig(true, [])), Some(HashicorpConfig(true, []))),
      FzfConfig("40%", "rounded", false),
      Filters(true))
  }

  /** The fallback agrees with the built-in defaults on every key those defaults cover. */
  lemma FallbackMatchesDefaults()
    ensures var d, c := ConfigLoader.SetDefaults(), FallbackConfig();
            && d["fzf.height"] == ConfigLoader.StrValue(c.fzf.height)
            && d["fzf.border"] == ConfigLoader.StrValue(c.fzf.border)
            && d["fzf.preview"] == ConfigLoader.BoolValue(c.fzf.preview)
            && d["filters.enabled_only"] == ConfigLoader.BoolValue(c.filters.enabledOnly)
            && d["providers.azure.enabled"] == ConfigLoader.BoolValue(c.providers.azure.value.enabled)
            && d["providers.hashicorp.enabled"] == ConfigLoader.BoolValue(c.providers.hashicorp.value.enabled)
  {
  }

  /**
   * Under the fallback both providers count as enabled, yet no instance can be resolved, and the
   * fallback itself would not pass validation.
   */
  lemma FallbackResolvesNoInstance(name: string)
    ensures GetEnabledProviders(FallbackConfig()) == ["azure", "hashicorp"]
    ensures GetDefaultAzureInstance(FallbackConfig()).Err?
    ensures GetDefaultHashicorpInstance(FallbackConfig()).Err?
    ensures GetAzureInstance(FallbackConfig(), name).Err?
    ensures GetHashicorpInstance(FallbackConfig(), name).Err?
    ensures ConfigLoader.Validate(FallbackConfig())
            == Some("azure provider is enabled but has no instances configured")
  {
    var c := FallbackConfig();
    assert IsProviderEnabled(c, "azure") && IsProviderEnabled(c, "hashicorp");
  }

  /** The loaded configuration, or the fallback when loading failed. */
  function ConfigOrFallback(loaded: Result<Config>): Config {
    match loaded
    case Ok(c) => c
    case Err(_) => FallbackConfig()
  }

  // ---------------------------------------------------------------------------------------------
  // Provider settings

  /** The instance a command uses: the named one when a name is given, else the default one. */
  function ResolveAzureInstance(c: Config, instanceName: string): Result<AzureInstance> {
    if instanceName != "" then GetAzureInstance(c, instanceName) else GetDefaultAzureInstance(c)
  }

  /** The instance a command uses: the named one when a name is given, else the default one. */
  function ResolveHashicorpInstance(c: Config, instanceName: string): Result<HashicorpInstance> {
    if instanceName != "" then GetHashicorpInstance(c, instanceName) else GetDefaultHashicorpInstance(c)
  }

  /** The settings bag `getProviderConfig` builds from configuration `c`. */
  function ProviderConfigFor(c: Config, providerName: string, instanceName: string): (r: Result<ProviderConfig>)
    ensures r.Ok? ==> r.value.name == providerName && !r.value.enabled && !r.value.default
    ensures providerName != "azure" && providerName != "hashicorp" ==>
              r == Err("unknown provider: " + providerName)
    ensures providerName == "azure" ==> (r.Ok? <==> ResolveAzureInstance(c, instanceName).Ok?)
    ensures providerName == "azure" && r.Ok? ==>
              && r.value.settings.Keys == {"subscription_id"}
              && r.value.settings["subscription_id"] == Str(ResolveAzureInstance(c, instanceName).value.subscriptionId)
    ensures providerName == "azure" && r.Err? ==>
              r.error == "failed to get Azure instance: " + ResolveAzureInstance(c, instanceName).error
    ensures providerName == "hashicorp" ==> (r.Ok? <==> ResolveHashicorpInstance(c, instanceName).Ok?)
    ensures providerName == "hashicorp" && r.Ok? ==>
              var inst := ResolveHashicorpInstance(c, instanceName).value;
              && r.value.settings.Keys == {"address", "token", "namespace"}
              && r.value.settings["address"] == Str(inst.address)
              && r.value.settings["token"] == Str(inst.token)
              && r.value.settings["namespace"] == Str(inst.namespace)
    ensures providerName == "hashicorp" && r.Err? ==>
              r.error == "failed to get Hashicorp instance: " + ResolveHashicorpInstance(c, instanceName).error
  {
    if providerName == "azure" then
      match ResolveAzureInstance(c, instanceName)
      case Err(e) => Err("failed to get Azure instance: " + e)
      case Ok(inst) => Ok(ProviderConfig(providerName, false, false, map["subscription_id" := Str(inst.subscriptionId)]))
    else if providerName == "hashicorp" then
      match ResolveHashicorpInstance(c, instanceName)
      case Err(e) => Err("failed to get Hashicorp instance: " + e)
      case Ok(inst) =>
        Ok(ProviderConfig(providerName, false, false,
                          map["address" := Str(inst.address), "token" := Str(inst.token),
                              "namespace" := Str(inst.namespace)]))
    else Err("unknown provider: " + providerName)
  }

  /** The Hashicorp provider built from these settings holds exactly the resolved instance's fields. */
  lemma HashicorpSettingsRoundTrip(c: Config, instanceName: string)
    requires ResolveHashicorpInstance(c, instanceName).Ok?
    ensures var inst := ResolveHashicorpInstance(c, instanceName).value;
            var pc := ProviderConfigFor(c, "hashicorp", instanceName);
            pc.Ok? && HashicorpFactory(Some(pc.value))
                      == Ok(HashicorpBackend(Hashicorp.Provider(inst.address, inst.token, inst.namespace)))
  {
  }

  /** The process-wide command state. */
  class App {
    /** The `--config` flag; "" means the default search path. */
    var configPath: string
    /** The loaded configuration; `None` until `LoadConfig` has run. */
    var appConfig: Option<Config>

    constructor (configPath: string)
      ensures this.configPath == configPath && appConfig.None?
    {
      this.configPath := configPath;
      appConfig := None;
    }

    /**
     * `loadConfig`: loads from the `--config` file when one is given, else from the default
     * location, and installs the fallback on any load error. It never reports an error.
     * `loadDefault` and `loadFromFile` are the outcomes of the configuration library's loaders.
     */
    method LoadConfig(loadDefault: Result<Config>, loadFromFile: string -> Result<Config>) returns (err: Option<string>)
      modifies this`appConfig
      ensures err.None?
      ensures appConfig == Some(ConfigOrFallback(if configPath != "" then loadFromFile(configPath) else loadDefault))
    {
      var loaded: Result<Config>;
      if configPath != "" {
        loaded := loadFromFile(configPath);
      } else {
        loaded := loadDefault;
      }
      if loaded.Err? {
        appConfig := Some(FallbackConfig());
      } else {
        appConfig := Some(loaded.value);
      }
      return None;
    }

    /** `getProviderConfig`: loads the configuration if needed, then builds the settings bag. */
    method GetProviderConfig(providerName: string, instanceName: string,
                             loadDefault: Result<Config>, loadFromFile: string -> Result<Config>)
      returns (r: Result<ProviderConfig>)
      modifies this`appConfig
      ensures old(appConfig).Some? ==> appConfig == old(appConfig)
      ensures old(appConfig).None? ==>
                appConfig == Some(ConfigOrFallback(if configPath != "" then loadFromFile(configPath) else loadDefault))
      ensures appConfig.Some? && r == ProviderConfigFor(appConfig.value, providerName, instanceName)
    {
      if appConfig.None? {
        var _ := LoadConfig(loadDefault, loadFromFile);
      }
      var c := appConfig.value;
      var settings: map<string, Dynamic> := map[];
      if providerName == "azure" {
        var instance: Result<AzureInstance>;
        if instanceName != "" {
          instance := GetAzureInstance(c, instanceName);
        } else {
          instance := GetDefaultAzureInstance(c);
        }
        if instance.Err? {
          return Err("failed to get Azure instance: " + instance.error);
        }
        settings := settings["subscription_id" := Str(instance.value.subscriptionId)];
      } else if providerName == "hashicorp" {
        var instance: Result<HashicorpInstance>;
        if instanceName != "" {
          instance := GetHashicorpInstance(c, instanceName);
        } else {
          instance := GetDefaultHashicorpInstance(c);
        }
        if instance.Err? {
          return Err("failed to get Hashicorp instance: " + instance.error);
        }
        settings := settings["address" := Str(instance.value.address)];
        settings := settings["token" := Str(instance.value.token)];
        settings := settings["namespace" := Str(instance.value.namespace)];
      } else {
        return Err("unknown provider: " + providerName);
      }
      r := Ok(ProviderConfig(providerName, false, false, settings));
    }
  }

  /** The prologue every provider command runs: load, build the settings, construct the provider. */
  method CommandProvider(app: App, reg: Registry<Backend>, providerName: string, instanceName: string,
                         loadDefault: Result<Config>, loadFromFile: string -> Result<Config>)
    returns (r: Result<Backend>)
    modifies app`appConfig
    ensures app.appConfig == Some(ConfigOrFallback(if app.configPath != "" then loadFromFile(app.configPath) else loadDefault))
    ensures var pc := ProviderConfigFor(app.appConfig.value, providerName, instanceName);
            && (pc.Err? ==> r == Err(pc.error))
            && (pc.Ok? && providerName in reg.factories ==> r == reg.factories[providerName](Some(pc.value)))
            && (pc.Ok? && providerName !in reg.factories ==> r == Err("provider not found: " + providerName))
  {
    var err := app.LoadConfig(loadDefault, loadFromFile);
    var pc := app.GetProviderConfig(providerName, instanceName, loadDefault, loadFromFile);
    if pc.Err? {
      return Err(pc.error);
    }
    r := reg.GetProvider(providerName, Some(pc.value));
  }

  // ---------------------------------------------------------------------------------------------
  // walk-secrets

  /** The provider's operations as a command sees them: their answers for each request. */
  datatype ProviderOps = ProviderOps(
    listVaults: Result<seq<Vault>>,
    listSecrets: string -> Result<seq<Secret>>,
    getSecret: (string, string) -> Result<SecretValue>)

  /** The values fetched for `secrets` of one vault, in order, leaving out failed fetches. */
  function Retrieved(ops: ProviderOps, vaultName: string, secrets: seq<Secret>): seq<SecretValue>
    decreases |secrets|
  {
    if |secrets| == 0 then []
    else
      var last := secrets[|secrets| - 1];
      Retrieved(ops, vaultName, secrets[..|secrets| - 1])
        + (match ops.getSecret(vaultName, last.name)
           case Ok(v) => [v]
           case Err(_) => [])
  }

  /** The fetched values of two listings one after the other are the two results one after the other. */
  lemma {:induction false} RetrievedAppend(ops: ProviderOps, vaultName: string, a: seq<Secret>, b: seq<Secret>)
    ensures Retrieved(ops, vaultName, a + b) == Retrieved(ops, vaultName, a) + Retrieved(ops, vaultName, b)
    decreases |b|
  {
    if |b| == 0 {
      assert a + b == a;
    } else {
      var b' := b[..|b| - 1];
      assert (a + b)[..|a + b| - 1] == a + b';
      RetrievedAppend(ops, vaultName, a, b');
    }
  }

  /** A secret whose fetch fails is dropped; the secrets around it keep their values and order. */
  lemma FailedFetchDropped(ops: ProviderOps, vaultName: string, a: seq<Secret>, s: Secret, b: seq<Secret>)
    requires ops.getSecret(vaultName, s.name).Err?
    ensures Retrieved(ops, vaultName, a + [s] + b) == Retrieved(ops, vaultName, a) + Retrieved(ops, vaultName, b)
  {
    var withS := a + [s];
    RetrievedAppend(ops, vaultName, withS, b);
    assert withS[..|withS| - 1] == a;
    assert Retrieved(ops, vaultName, withS) == Retrieved(ops, vaultName, a);
  }

  /** When every fetch succeeds, each listed secret yields its value at the same position. */
  lemma {:induction false} RetrievedAllFetched(ops: ProviderOps, vaultName: string, secrets: seq<Secret>)
    requires forall i :: 0 <= i < |secrets| ==> ops.getSecret(vaultName, secrets[i].name).Ok?
    ensures |Retrieved(ops, vaultName, secrets)| == |secrets|
    ensures forall i :: 0 <= i < |secrets| ==>
              Retrieved(ops, vaultName, secrets)[i] == ops.getSecret(vaultName, secrets[i].name).value
    decreases |secrets|
  {
    if |secrets| > 0 {
      var init := secrets[..|secrets| - 1];
      RetrievedAllFetched(ops, vaultName, init);
    }
  }

  /** The walk's result map for `vaults`, visited in order. */
  function Walked(ops: ProviderOps, vaults: seq<Vault>): map<string, seq<SecretValue>>
    decreases |vaults|
  {
    if |vaults| == 0 then map[]
    else
      var last := vaults[|vaults| - 1];
      var earlier := Walked(ops, vaults[..|vaults| - 1]);
      match ops.listSecrets(last.name)
      case Ok(secrets) => earlier[last.name := Retrieved(ops, last.name, secrets)]
      case Err(_) => earlier
  }

  /**
   * A vault name is a key of the walk exactly when some walked vault has it and listing its
   * secrets succeeds; its entry holds the values fetched for that listing.
   */
  lemma {:induction false} WalkedEntries(ops: ProviderOps, vaults: seq<Vault>, name: string)
    ensures name in Walked(ops, vaults) <==>
              (exists i :: 0 <= i < |vaults| && vaults[i].name == name) && ops.listSecrets(name).Ok?
    ensures name in Walked(ops, vaults) ==>
              Walked(ops, vaults)[name] == Retrieved(ops, name, ops.listSecrets(name).value)
    decreases |vaults|
  {
    if |vaults| > 0 {
      var init := vaults[..|vaults| - 1];
      WalkedEntries(ops, init, name);
      forall i | 0 <= i < |init| ensures init[i] == vaults[i] { }
    }
  }

  /** The aggregation loop of `walk-secrets`. */
  method WalkSecrets(ops: ProviderOps, vaultName: string) returns (r: Result<map<string, seq<SecretValue>>>)
    ensures vaultName != "" ==> r == Ok(Walked(ops, [Vault(vaultName, "", map[])]))
    ensures vaultName == "" && ops.listVaults.Err? ==> r == Err("failed to list vaults: " + ops.listVaults.error)
    ensures vaultName == "" && ops.listVaults.Ok? ==> r == Ok(Walked(ops, ops.listVaults.value))
  {
    var vaults: seq<Vault>;
    if vaultName != "" {
      vaults := [Vault(vaultName, "", map[])];
    } else {
      if ops.listVaults.Err? {
        return Err("failed to list vaults: " + ops.listVaults.error);
      }
      vaults := ops.listVaults.value;
    }
    var secretsByVault: map<string, seq<SecretValue>> := map[];
    for i := 0 to |vaults|
      invariant secretsByVault == Walked(ops, vaults[..i])
    {
      assert vaults[..i + 1][..i] == vaults[..i];
      var vault := vaults[i];
      var listed := ops.listSecrets(vault.name);
      if listed.Err? {
        continue;
      }
      var secrets := listed.value;
      var secretValues: seq<SecretValue> := [];
      for j := 0 to |secrets|
        invariant secretValues == Retrieved(ops, vault.name, secrets[..j])
      {
        assert secrets[..j + 1][..j] == secrets[..j];
        var fetched := ops.getSecret(vault.name, secrets[j].name);
        if fetched.Err? {
          continue;
        }
        secretValues := secretValues + [fetched.value];
      }
      assert secrets[..|secrets|] == secrets;
      secretsByVault := secretsByVault[vault.name := secretValues];
    }
    assert vaults[..|vaults|] == vaults;
    r := Ok(secretsByVault);
  }

  /** With a vault name given, only that vault can appear in the walk's result. */
  lemma SingleVaultWalk(ops: ProviderOps, vaultName: string, name: string)
    ensures name in Walked(ops, [Vault(vaultName, "", map[])]) <==>
              name == vaultName && ops.listSecrets(vaultName).Ok?
  {
    WalkedEntries(ops, [Vault(vaultName, "", map[])], name);
  }
}
