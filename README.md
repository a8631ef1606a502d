# smart-keyvault core, modelled in Dafny

smart-keyvault is a command-line tool. It lists vaults and secrets and reads secret values from two secret stores:
- Azure Key Vault, reached through the `az` CLI;
- HashiCorp Vault, which keeps its secrets in KV version 2 mounts.

This project models the tool's deterministic core and proves properties of it:

- **Configuration** (`config_types.dfy`, `config_loader.dfy`, `config_helpers.dfy`):
  - the configuration records;
  - the built-in defaults;
  - `${NAME}` / `$NAME` environment-variable expansion, with the environment given as a map;
  - substitution into instance fields;
  - the ordered validator;
  - instance lookup by name and selection of the default instance;
  - the enabled-provider queries.
- **Provider registry** (`registry.dfy`): a class whose `factories` map names a factory for each provider. `Register` overwrites that map.
- **Backends** (`hashicorp.dfy`, `azure.dfy`):
  - Each backend's client appears only through its already-parsed answers, passed in as parameters or oracle functions.
  - What the model keeps is the filtering and shaping of those answers:
    - the KV-v2 mount filter;
    - trailing-slash handling;
    - skipping directory keys;
    - the `value` > `password` > any-field choice of a secret value;
    - Azure's enabled-only filter;
    - each backend's capability table.
- **Output** (`output.dfy`): the newline-joined plain formatter and the format dispatch.
- **Command layer** (`cmd_main.dfy`):
  - provider registration at start-up;
  - `loadConfig`, with its fallback configuration, over an `App` class holding the global state;
  - `getProviderConfig`, which builds the settings bag;
  - the command prologue;
  - the `walk-secrets` aggregation loop.

Shared pieces:
- `wrappers.dfy` holds `Option` and `Result`. `Result` stands for Go's `(value, error)` pairs, with the error message kept as a string.
- `search.dfy` holds `FirstIndex`, the first-match search that Go's early-return loops perform.
- `strings.dfy` holds the `strings` functions the core uses.
- `models.dfy` holds the result records.

## Model

| member | source | states |
|---|---|---|
| Strings.TrimSuffix | internal/hashicorp/provider.go:74 | With the suffix present, the result followed by the suffix is the input. Otherwise the input is returned unchanged. |
| Strings.SplitJoin | internal/output/plain.go:23-28 | Splitting the `sep`-join of a non-empty list of `sep`-free strings gives back the list. |
| Strings.NatToDecimal | internal/config/loader.go:187 | The `%d` rendering of an index: decimal digits whose value (`DecimalValue`) is the index, with no leading zero unless the index is 0, which renders as "0". |
| Models.VaultNames | internal/output/plain.go:23-26 | One name per vault, in the vaults' order. |
| Models.SecretNames | internal/output/plain.go:37-40 | One name per secret, in the secrets' order. |
| ConfigLoader.SetDefaults | internal/config/loader.go:119-131 | The contract fixes the key set: exactly the six default keys. The body gives their values, and `Cmd.FallbackMatchesDefaults` ties those values to the fallback configuration. |
| ConfigLoader.ExpandEnvVars | internal/config/loader.go:157-175 | The left-to-right rewrite itself, with no contract of its own. Its behaviour is stated by the lemmas in the following rows. |
| ConfigLoader.TokenAt | internal/config/loader.go:22 | A recognised token starts with `$`, is at least two characters long and fits in the input. |
| ConfigLoader.NoDollarUnchanged | internal/config/loader.go:157-175 | Expansion leaves a string without `$` unchanged. |
| ConfigLoader.PlainPrefix | internal/config/loader.go:158 | Expansion copies a `$`-free prefix verbatim and goes on with the rest. |
| ConfigLoader.UnsetVariablesUnchanged | internal/config/loader.go:167-173 | When every variable is unset or empty, expansion is the identity. |
| ConfigLoader.BracedToken | internal/config/loader.go:161-173 | `${NAME}` becomes the variable's value when that value is non-empty, and is kept otherwise. The rest of the string is then expanded. |
| ConfigLoader.BareToken | internal/config/loader.go:163-173 | A maximal `$NAME` run, with NAME matching `[A-Z_][A-Z0-9_]*`, becomes the value when it is non-empty, and is kept otherwise. |
| ConfigLoader.DollarWithoutToken | internal/config/loader.go:22 | A `$` followed by neither `{` nor a name-start character is copied as is. |
| ConfigLoader.EmptyBracesKept | internal/config/loader.go:22 | `${}` is not a token and is kept verbatim. |
| ConfigLoader.UnterminatedBraceKept | internal/config/loader.go:22 | `${` with no closing brace is kept verbatim. |
| ConfigLoader.SinglePass | internal/config/loader.go:158 | For every set, non-empty variable, its `${NAME}` token expands to the raw value, even when that value holds tokens of set variables. `BracedToken` and `BareToken` give the same for tokens in context. |
| ConfigLoader.SinglePassExample | internal/config/loader.go:158 | An example: `$A` with `A` = `$B` gives `$B`, although `$B` alone would expand to `x`. |
| ConfigLoader.SubstituteEnvVars | internal/config/loader.go:134-153 | Returns no error. Each Azure subscription id and each Hashicorp address, token and namespace is replaced by its expansion. Names, default flags, enabled flags, the instance count and order, absent blocks, defaults, fzf and filters are untouched. |
| ConfigLoader.ValidateAzure | internal/config/loader.go:180-193 | No error exactly when the block is absent, disabled, or non-empty with every instance complete. An enabled block without instances gives the no-instances message. Otherwise the error is the first failing instance's: a missing name, with its index, before a missing subscription_id. |
| ConfigLoader.ValidateHashicorp | internal/config/loader.go:196-212 | The same for Hashicorp. An instance's checks run in order: name, then address, then token. |
| ConfigLoader.Validate | internal/config/loader.go:178-215 | No error exactly when both blocks are valid. An Azure error takes precedence over a Hashicorp error. |
| ConfigLoader.NamespaceNotRequired | internal/config/loader.go:201-211 | Changing any instance's namespace does not change the validator's answer. |
| ConfigHelpers.ListAzureInstances | internal/config/helpers.go:44-49 | Returns the configured list unchanged, or the empty list when there is no block. |
| ConfigHelpers.GetAzureInstance | internal/config/helpers.go:8-20 | With no block, fails with "azure provider not configured". Succeeds exactly when some instance has the name, and then returns the first such instance. Otherwise fails with "azure instance '<name>' not found". |
| ConfigHelpers.GetDefaultAzureInstance | internal/config/helpers.go:23-41 | Fails on an absent block or an empty list, with the matching messages. Otherwise returns the earliest flagged instance, or the first instance when none is flagged. |
| ConfigHelpers.ListHashicorpInstances | internal/config/helpers.go:88-93 | Returns the configured list unchanged, or the empty list when there is no block. |
| ConfigHelpers.GetHashicorpInstance | internal/config/helpers.go:52-64 | The same lookup for Hashicorp: first exact name match, "not configured" or "not found". |
| ConfigHelpers.GetDefaultHashicorpInstance | internal/config/helpers.go:67-85 | The same default selection for Hashicorp. |
| ConfigHelpers.UniqueDefaultChosen | internal/config/helpers.go:29-33 | When exactly one instance is flagged, that one is the default, wherever it sits in the list. |
| ConfigHelpers.IsProviderEnabled | internal/config/helpers.go:96-105 | True only for "azure" or "hashicorp", and each of these exactly when its block is present and enabled. |
| ConfigHelpers.GetEnabledProviders | internal/config/helpers.go:108-120 | Holds exactly the enabled names, with "azure" before "hashicorp". |
| ProviderRegistry.Registry.constructor | internal/provider/registry.go:15-19 | The registry starts empty. |
| ProviderRegistry.Registry.Register | internal/provider/registry.go:22-26 | The map gets `name := factory`: the last write wins and every other entry is unchanged. |
| ProviderRegistry.Registry.GetProvider | internal/provider/registry.go:29-39 | Returns the registered factory's own result for `cfg`. An unregistered name fails with "provider not found: <name>". |
| ProviderRegistry.Registry.ListProviders | internal/provider/registry.go:42-51 | Each registered name exactly once, in no fixed order. The length equals the number of entries. |
| ProviderRegistry.Registry.IsRegistered | internal/provider/registry.go:54-59 | True exactly when the name is a key. |
| Hashicorp.StringSetting | internal/hashicorp/provider.go:27-35 | A string-typed setting is read as is. A missing or non-string setting reads as "". |
| Hashicorp.NewProvider | internal/hashicorp/provider.go:22-46 | Address, token and namespace come from the string settings. All three are "" when there is no config. |
| Hashicorp.SupportsFeature | internal/hashicorp/provider.go:166-173 | Exactly Versioning and Metadata are supported. |
| Hashicorp.EnsureSlash | internal/hashicorp/provider.go:95-97 | The path ends with "/" and trims back to the same vault name. |
| Hashicorp.Kv2Criterion | internal/hashicorp/provider.go:63-72 | A mount is listed exactly when its type is "kv" and its options say version "2". A missing version counts as "1". |
| Hashicorp.Kv2VaultsMembers | internal/hashicorp/provider.go:61-87 | A vault is listed exactly when it comes from a KV-v2 mount, named by the path without its trailing "/". |
| Hashicorp.Kv2VaultsShape | internal/hashicorp/provider.go:76-84 | Every listed vault has provider "hashicorp" and metadata keys type, version and description, with type "kv" and version "2". |
| Hashicorp.ListVaults | internal/hashicorp/provider.go:54-90 | A mount-listing error is wrapped as "failed to list vaults: ". Otherwise the result is the KV-v2 vaults in some enumeration order of the mounts. |
| Hashicorp.LeafKeysMembers | internal/hashicorp/provider.go:106-116 | A name is kept exactly when it is a string key that does not end in "/". |
| Hashicorp.LeafKeysAppend | internal/hashicorp/provider.go:106-123 | Key filtering preserves order and distributes over concatenation. |
| Hashicorp.ListSecrets | internal/hashicorp/provider.go:93-126 | Lists a path ending in "/". An error is wrapped as "failed to list secrets: ". On success the names are the leaf keys in order, each with the trimmed vault name, provider "hashicorp" and enabled set. |
| Hashicorp.SelectValue | internal/hashicorp/provider.go:143-155 | Chooses `value` if present, else `password`, else some value of the data, else "". |
| Hashicorp.GetSecret | internal/hashicorp/provider.go:129-163 | An error is wrapped as "failed to get secret: ". On success the name is the requested one, the vault name is trimmed, the provider is "hashicorp" and the value follows that choice. |
| Azure.NewProvider | internal/azure/provider.go:18-22 | Ignores its config, never fails, and uses the 30-second CLI timeout. |
| Azure.SupportsFeature | internal/azure/provider.go:129-135 | Exactly Versioning and Tags are supported. |
| Azure.ListVaults | internal/azure/provider.go:30-61 | A command error or a parse error gives its wrapped message. Otherwise there is one vault per parsed entry, at the same index, with the name copied, provider "azure" and metadata holding location and resourceGroup only. |
| Azure.EnabledSecretsMembers | internal/azure/provider.go:85-95 | A secret is listed exactly when it comes from an enabled entry and carries the requested vault, provider "azure" and enabled set. |
| Azure.EnabledSecretsAppend | internal/azure/provider.go:85-95 | The enabled-only filter preserves order and distributes over concatenation. |
| Azure.ListSecrets | internal/azure/provider.go:64-98 | Command and parse errors are wrapped. Otherwise the result is the enabled entries in order. |
| Azure.GetSecret | internal/azure/provider.go:101-126 | Command and parse errors are wrapped. Otherwise the name and value come from the response and the vault from the request. |
| Output.GetFormatter | internal/output/factory.go:8-17 | "plain" gives the plain formatter and "json" the JSON formatter, with exact match as each iff. Anything else fails with "unsupported format: <f>". |
| Output.LinesRoundTrip | internal/output/plain.go:23-28 | Splitting the newline join of a non-empty list of newline-free names on "\n" gives the list. |
| Output.FormatVaults | internal/output/plain.go:18-29 | Never fails. Gives "" for no vaults, otherwise the names in order joined by "\n", which split back into the names. |
| Output.FormatSecrets | internal/output/plain.go:32-43 | Never fails. Gives "" for no secrets, otherwise the names in order joined by "\n", which split back into the names. |
| Output.FormatProviders | internal/output/plain.go:46-52 | Never fails. Gives "" for an empty list, otherwise the names joined by "\n"; a non-empty list of newline-free names splits back into the list. |
| Cmd.AzureFactory | cmd/main.go:33 | The registered Azure factory never fails and builds an Azure backend with the 30-second CLI timeout. |
| Cmd.HashicorpFactory | cmd/main.go:34 | The registered Hashicorp factory never fails and builds a Hashicorp backend from the string settings address, token and namespace, or from "" for no config. |
| Cmd.RegisterBuiltins | cmd/main.go:31-35 | After start-up, "azure" maps to the Azure factory and "hashicorp" to the Hashicorp factory. |
| Cmd.BuiltinNamesMatchRegistration | cmd/main.go:31-35 | Each built-in factory succeeds and builds a provider whose `Name()` is its registration key. |
| Cmd.FallbackConfig | cmd/main.go:49-57 | Both providers are enabled, with empty instance lists. The defaults are empty, fzf is 40%/rounded/no preview, and filters are enabled-only. |
| Cmd.FallbackMatchesDefaults | cmd/main.go:48-58 | The fallback configuration agrees with the built-in defaults on all six keys. |
| Cmd.FallbackResolvesNoInstance | cmd/main.go:48-58 | Under the fallback both providers are enabled, yet no instance resolves by name or by default, and the validator rejects it with the Azure no-instances message. |
| Cmd.ProviderConfigFor | cmd/main.go:64-116 | The settings carry the provider name, with enabled and default unset. Azure holds exactly `subscription_id` and Hashicorp exactly address, token and namespace, all from the resolved instance. A lookup failure is wrapped per provider, and any other provider gives "unknown provider: <name>". |
| Cmd.HashicorpSettingsRoundTrip | cmd/main.go:93-109 | The Hashicorp provider built from these settings holds exactly the resolved instance's address, token and namespace. |
| Cmd.App.constructor | cmd/main.go:25-28 | Starts with no configuration loaded. |
| Cmd.App.LoadConfig | cmd/main.go:38-61 | Never reports an error. Installs the configuration loaded from the `--config` file or the default location, or the fallback on a load error. |
| Cmd.App.GetProviderConfig | cmd/main.go:64-116 | Loads only when nothing is loaded yet. Returns the settings bag for the loaded configuration. |
| Cmd.CommandProvider | cmd/main.go:174-189 | After loading, a settings error is returned as is. Otherwise the result is the registry's answer for those settings. |
| Cmd.RetrievedAppend | cmd/main.go:391-399 | Values are fetched in listing order and distribute over concatenation. |
| Cmd.FailedFetchDropped | cmd/main.go:393-396 | A secret whose fetch fails is dropped, and its neighbours keep their values and order. |
| Cmd.RetrievedAllFetched | cmd/main.go:391-399 | When every fetch succeeds, each listed secret's value sits at its own position. |
| Cmd.WalkedEntries | cmd/main.go:380-402 | A vault is a key exactly when it was walked and listing its secrets succeeded. Its entry holds the fetched values of that listing. |
| Cmd.WalkSecrets | cmd/main.go:363-402 | A given vault name restricts the walk to that vault. A vault-listing failure aborts with "failed to list vaults: ". Otherwise every listed vault is walked. |
| Cmd.SingleVaultWalk | cmd/main.go:365-368 | With a vault name given, only that vault can appear, and it appears exactly when its listing succeeds. |

## Left out

- Configuration file loading is left out: the file search, YAML parsing, environment overrides and unmarshalling are the configuration library's behaviour (internal/config/loader.go:30-116). The model starts from an unmarshalled `Config`. `App.LoadConfig` receives the loaders' outcomes as parameters.
- The process environment and the home directory appear only as parameters. The environment is a `map<string, string>`, and an absent key reads as "", as `os.Getenv` does.
- Registry locking (`sync.RWMutex`) is concurrency; the registry is modelled as a sequential map. The source's single global registry is one `Registry` object.
- The Vault API client and the `az` CLI runner are left out. Their answers are inputs:
  - parsed mounts, key lists and secret data for Hashicorp;
  - a command-failed / decode-failed / decoded outcome for each Azure command.
- Hashicorp.NewProvider: does not model the failure of creating the Vault client. The client constructor is outside the model and its shown declaration takes no arguments, so the model always succeeds.
- Azure.NewProvider: the configured `subscription_id` never reaches the Azure provider; the model keeps this.
- Name: each backend's `Name()` is a constant with no contract of its own. `Cmd.BuiltinNamesMatchRegistration` states what it is.
- The JSON formatter, clipboard access, cobra command wiring and printing to standard output and standard error are serialisation and I/O. The walk's warnings for skipped vaults and secrets are not modelled. The walk command calls `FormatWalkSecrets` through the `Formatter` interface. Only the JSON formatter declares it: the method is not in the interface and not on the plain formatter. The walk's output step is therefore not modelled.
- Context and cancellation are plumbing and are left out.
- Go's randomised map iteration order is left unspecified:
  - `Hashicorp.ListVaults` is stated for some enumeration order of the mounts.
  - `ProviderRegistry.Registry.ListProviders` fixes no order.
  - `Hashicorp.SelectValue` may choose any value in its fallback.
- `fmt.Sprintf("%v")` on secret data is not modelled; the data's values are already strings.
- Nil maps and slices are not distinguished from empty ones. A nil `Settings` map reads as an empty map, and a nil instance list as the empty list.
- `substituteEnvVars` rewrites the configuration in place. The model returns the rewritten configuration as a new value, with the same fields changed and the rest unchanged.
- Cmd.WalkedEntries: `ProviderOps` models the provider as an oracle that gives the same answer for the same request. If a vault name occurs twice in a listing, both visits see the same secret listing. A later failure therefore cannot leave the earlier entry in place, as two separate calls in the source could.
- The `failed to load config` branch after each command's `loadConfig` call is unreachable, because `loadConfig` always returns nil. `Cmd.CommandProvider` therefore has no such path.
