/**
 * The Azure Key Vault backend's shaping logic. Running the `az` command line and decoding its
 * JSON are not modelled: each command's outcome (a command failure, a decoding failure, or the
 * decoded records) is a parameter.
 */
module Azure {
  import opened Wrappers
  import opened Models
  import opened ProviderTypes

  /** The `az` command timeout, in seconds. */
  const CliTimeoutSeconds: nat := 30

  /** A provider holds its command-line client, which is configured only by its timeout. */
  datatype Provider = Provider(timeoutSeconds: nat)

  /** What running one `az` command and decoding its output gave. */
  datatype CliOutcome<T> = CommandFailed(message: string) | DecodeFailed(message: string) | Decoded(value: T)

  /** An entry of `az keyvault list`. */
  datatype AzVault = AzVault(name: string, location: string, resourceGroup: string)

  /** An entry of `az keyvault secret list`. */
  datatype AzSecretEntry = AzSecretEntry(name: string, enabled: bool)

  /** The body of `az keyvault secret show`. */
  datatype AzSecretBody = AzSecretBody(name: string, value: string)

  /** `NewProvider`: ignores its configuration and never fails. */
  function NewProvider(cfg: Option<ProviderConfig>): (r: Result<Provider>)
    ensures r == Ok(Provider(CliTimeoutSeconds))
  {
    Ok(Provider(CliTimeoutSeconds))
  }

  /** `Name`. */
  function Name(): string {
    "azure"
  }

  /** `SupportsFeature`: versioning and tags, not metadata. */
  function SupportsFeature(feature: Feature): (r: bool)
    ensures r <==> feature != Metadata
  {
    match feature
    case Versioning => true
    case Tags => true
    case _ => false
  }

  /** `ListVaults`: one vault per decoded entry, in the same order. */
  method ListVaults(listed: CliOutcome<seq<AzVault>>) returns (r: Result<seq<Vault>>)
    ensures listed.CommandFailed? ==> r == Err("failed to list vaults: " + listed.message)
    ensures listed.DecodeFailed? ==> r == Err("failed to parse vault list: " + listed.message)
    ensures listed.Decoded? ==>
              && r.Ok?
              && |r.value| == |listed.value|
              && forall i :: 0 <= i < |listed.value| ==>
                   r.value[i] == Vault(listed.value[i].name, "azure",
                                       map["location" := listed.value[i].location,
                                           "resourceGroup" := listed.value[i].resourceGroup])
  {
    match listed
    case CommandFailed(e) => return Err("failed to list vaults: " + e);
    case DecodeFailed(e) => return Err("failed to parse vault list: " + e);
    case Decoded(azVaults) =>
      var vaults := new Vault[|azVaults|];
      for i := 0 to |azVaults|
        invariant forall j :: 0 <= j < i ==>
                    vaults[j] == Vault(azVaults[j].name, "azure",
                                       map["location" := azVaults[j].location,
                                           "resourceGroup" := azVaults[j].resourceGroup])
      {
        var v := azVaults[i];
        vaults[i] := Vault(v.name, "azure", map["location" := v.location, "resourceGroup" := v.resourceGroup]);
      }
      return Ok(vaults[..]);
  }

  /** The secrets for the enabled entries, in order, under the requested vault name. */
  function EnabledSecrets(entries: seq<AzSecretEntry>, vaultName: string): seq<Secret>
    decreases |entries|
  {
    if |entries| == 0 then []
    else
      var last := entries[|entries| - 1];
      EnabledSecrets(entries[..|entries| - 1], vaultName)
        + (if last.enabled then [Secret(last.name, vaultName, "azure", true)] else [])
  }

  /** A name is listed exactly when some enabled entry carries it; every listed secret is enabled. */
  lemma {:induction false} EnabledSecretsMembers(entries: seq<AzSecretEntry>, vaultName: string, s: Secret)
    ensures s in EnabledSecrets(entries, vaultName) <==>
              s.vaultName == vaultName && s.provider == "azure" && s.enabled
              && AzSecretEntry(s.name, true) in entries
    decreases |entries|
  {
    if |entries| > 0 {
      var init := entries[..|entries| - 1];
      EnabledSecretsMembers(init, vaultName, s);
      assert entries == init + [entries[|entries| - 1]];
    }
  }

  /** Filtering keeps the decoded order: it distributes over concatenation. */
  lemma {:induction false} EnabledSecretsAppend(a: seq<AzSecretEntry>, b: seq<AzSecretEntry>, vaultName: string)
    ensures EnabledSecrets(a + b, vaultName) == EnabledSecrets(a, vaultName) + EnabledSecrets(b, vaultName)
    decreases |b|
  {
    if |b| == 0 {
      assert a + b == a;
    } else {
      var b' := b[..|b| - 1];
      assert (a + b)[..|a + b| - 1] == a + b';
      EnabledSecretsAppend(a, b', vaultName);
    }
  }

  /** `ListSecrets`: the enabled entries only, in order, each tagged with the requested vault. */
  method ListSecrets(vaultName: string, listSecrets: string -> CliOutcome<seq<AzSecretEntry>>)
    returns (r: Result<seq<Secret>>)
    ensures listSecrets(vaultName).CommandFailed? ==>
              r == Err("failed to list secrets: " + listSecrets(vaultName).message)
    ensures listSecrets(vaultName).DecodeFailed? ==>
              r == Err("failed to parse secret list: " + listSecrets(vaultName).message)
    ensures listSecrets(vaultName).Decoded? ==>
              r == Ok(EnabledSecrets(listSecrets(vaultName).value, vaultName))
  {
    match listSecrets(vaultName)
    case CommandFailed(e) => return Err("failed to list secrets: " + e);
    case DecodeFailed(e) => return Err("failed to parse secret list: " + e);
    case Decoded(azSecrets) =>
      var secrets: seq<Secret> := [];
      for i := 0 to |azSecrets|
        invariant secrets == EnabledSecrets(azSecrets[..i], vaultName)
      {
        assert azSecrets[..i + 1][..i] == azSecrets[..i];
        var s := azSecrets[i];
        if s.enabled {
          secrets := secrets + [Secret(s.name, vaultName, "azure", true)];
        }
      }
      assert azSecrets[..|azSecrets|] == azSecrets;
      return Ok(secrets);
  }

  /** `GetSecret`: name and value come from the response, the vault name from the request. */
  method GetSecret(vaultName: string, secretName: string,
                   showSecret: (string, string) -> CliOutcome<AzSecretBody>)
    returns (r: Result<SecretValue>)
    ensures showSecret(vaultName, secretName).CommandFailed? ==>
              r == Err("failed to get secret: " + showSecret(vaultName, secretName).message)
    ensures showSecret(vaultName, secretName).DecodeFailed? ==>
              r == Err("failed to parse secret: " + showSecret(vaultName, secretName).message)
    ensures showSecret(vaultName, secretName).Decoded? ==>
              var body := showSecret(vaultName, secretName).value;
              r == Ok(SecretValue(body.name, body.value, vaultName, "azure"))
  {
    match showSecret(vaultName, secretName)
    case CommandFailed(e) => return Err("failed to get secret: " + e);
    case DecodeFailed(e) => return Err("failed to parse secret: " + e);
    case Decoded(body) => return Ok(SecretValue(body.name, body.value, vaultName, "azure"));
  }
}
