/** The unmarshalled configuration: defaults, per-backend instance lists, display hints, filters. */
module ConfigTypes {
  import opened Wrappers

  datatype Config = Config(defaults: Defaults, providers: Providers, fzf: FzfConfig, filters: Filters)

  /** Preferred provider and vault. */
  datatype Defaults = Defaults(provider: string, vault: string)

  /** One optional block per backend kind; `None` is a block absent from the configuration. */
  datatype Providers = Providers(azure: Option<AzureConfig>, hashicorp: Option<HashicorpConfig>)

  datatype AzureConfig = AzureConfig(enabled: bool, instances: seq<AzureInstance>)

  /** One Azure subscription. */
  datatype AzureInstance = AzureInstance(name: string, subscriptionId: string, default: bool)

  datatype HashicorpConfig = HashicorpConfig(enabled: bool, instances: seq<HashicorpInstance>)

  /** One Vault server. */
  datatype HashicorpInstance = HashicorpInstance(
    name: string, address: string, token: string, namespace: string, default: bool)

  /** Display hints for the fuzzy finder. */
  datatype FzfConfig = FzfConfig(height: string, border: string, preview: bool)

  datatype Filters = Filters(enabledOnly: bool)
}
