/**
 * The HashiCorp Vault backend's shaping logic. The Vault API client is not modelled: its answers
 * (the mount table, a key listing for a mount path, a secret's data map) are parameters.
 */
module Hashicorp {
  import opened Wrappers
  import opened Strings
  import opened Models
  import opened ProviderTypes

  /** A provider holds the connection settings it was built from. */
  datatype Provider = Provider(address: string, token: string, namespace: string)

  /** A setting's value when it is present and string-typed, and "" otherwise. */
  function StringSetting(settings: map<string, Dynamic>, key: string): (v: string)
    ensures key in settings && settings[key].Str? ==> v == settings[key].s
    ensures v != "" ==> key in settings && settings[key] == Str(v)
  {
    if key in settings && settings[key].Str? then settings[key].s else ""
  }

  /** `NewProvider`: reads address, token and namespace from the string-typed settings. */
  function NewProvider(cfg: Option<ProviderConfig>): (r: Result<Provider>)
    ensures r.Ok?
    ensures cfg.None? ==> r.value == Provider("", "", "")
    ensures cfg.Some? ==> r.value.address == StringSetting(cfg.value.settings, "address")
    ensures cfg.Some? ==> r.value.token == StringSetting(cfg.value.settings, "token")
    ensures cfg.Some? ==> r.value.namespace == StringSetting(cfg.value.settings, "namespace")
  {
    if cfg.None? then Ok(Provider("", "", ""))
    else
      var settings := cfg.value.settings;
      Ok(Provider(StringSetting(settings, "address"), StringSetting(settings, "token"),
                  StringSetting(settings, "namespace")))
  }

  /** `Name`. */
  function Name(): string {
    "hashicorp"
  }

  /** `SupportsFeature`: versioning and metadata, not tags. */
  function SupportsFeature(feature: Feature): (r: bool)
    ensures r <==> feature != Tags
  {
    match feature
    case Versioning => true
    case Metadata => true
    case _ => false
  }

  // ---------------------------------------------------------------------------------------------
  // Mount paths

  /** The mount path with a trailing "/" guaranteed. */
  function EnsureSlash(vaultName: string): (path: string)
    ensures HasSuffix(path, "/")
    ensures TrimSuffix(path, "/") == TrimSuffix(vaultName, "/")
  {
    if HasSuffix(vaultName, "/") then vaultName
    else
      var path := vaultName + "/";
      assert path[|path| - 1..] == "/";
      assert path[..|path| - 1] == vaultName;
      path
  }

  // ---------------------------------------------------------------------------------------------
  // ListVaults

  /** A secret-engine mount as the mount table reports it; a nil options map reads as empty. */
  datatype Mount = Mount(mountType: string, description: string, options: map<string, string>)

  /** The KV engine version: the "version" option, "1" when absent. */
  function EffectiveVersion(m: Mount): string {
    if "version" in m.options then m.options["version"] else "1"
  }

  predicate IsKv2(m: Mount) {
    m.mountType == "kv" && EffectiveVersion(m) == "2"
  }

  /** A mount is listed exactly when it is of type "kv" and explicitly has version "2". */
  lemma Kv2Criterion(m: Mount)
    ensures IsKv2(m) <==> m.mountType == "kv" && "version" in m.options && m.options["version"] == "2"
  {
  }

  /** The vault a listed mount becomes. */
  function MountVault(path: string, m: Mount): Vault {
    Vault(TrimSuffix(path, "/"), "hashicorp",
          map["type" := m.mountType, "version" := EffectiveVersion(m), "description" := m.description])
  }

  /** The vaults for the KV-v2 mounts among `order`, visited in that order. */
  function Kv2Vaults(order: seq<string>, mounts: map<string, Mount>): seq<Vault>
    requires forall i :: 0 <= i < |order| ==> order[i] in mounts
    decreases |order|
  {
    if |order| == 0 then []
    else
      var last := order[|order| - 1];
      Kv2Vaults(order[..|order| - 1], mounts)
        + (if IsKv2(mounts[last]) then [MountVault(last, mounts[last])] else [])
  }

  /** `order` lists every key of the set exactly once. */
  ghost predicate Enumerates(order: seq<string>, keys: set<string>) {
    && (forall i, j :: 0 <= i < j < |order| ==> order[i] != order[j])
    && (forall k :: k in order <==> k in keys)
  }

  /** A vault is listed exactly when some visited mount is KV v2 and yields it. */
  lemma {:induction false} Kv2VaultsMembers(order: seq<string>, mounts: map<string, Mount>, v: Vault)
    requires forall i :: 0 <= i < |order| ==> order[i] in mounts
    ensures v in Kv2Vaults(order, mounts) <==>
              exists i :: 0 <= i < |order| && IsKv2(mounts[order[i]]) && v == MountVault(order[i], mounts[order[i]])
    decreases |order|
  {
    if |order| > 0 {
      var init := order[..|order| - 1];
      Kv2VaultsMembers(init, mounts, v);
      forall i | 0 <= i < |init| ensures init[i] == order[i] { }
    }
  }

  /** Every listed vault is tagged "hashicorp" and carries KV-v2 metadata. */
  lemma {:induction false} Kv2VaultsShape(order: seq<string>, mounts: map<string, Mount>, k: nat)
    requires forall i :: 0 <= i < |order| ==> order[i] in mounts
    requires k < |Kv2Vaults(order, mounts)|
    ensures Kv2Vaults(order, mounts)[k].provider == "hashicorp"
    ensures Kv2Vaults(order, mounts)[k].metadata.Keys == {"type", "version", "description"}
    ensures Kv2Vaults(order, mounts)[k].metadata["type"] == "kv"
    ensures Kv2Vaults(order, mounts)[k].metadata["version"] == "2"
    decreases |order|
  {
    var init := order[..|order| - 1];
    if k < |Kv2Vaults(init, mounts)| {
      Kv2VaultsShape(init, mounts, k);
    }
  }

  /** `ListVaults`: the KV-v2 mounts, each turned into a vault, in the mount table's iteration order. */
  method ListVaults(mounts: Result<map<string, Mount>>) returns (r: Result<seq<Vault>>)
    ensures mounts.Err? ==> r == Err("failed to list vaults: " + mounts.error)
    ensures mounts.Ok? ==> r.Ok? && exists order ::
              && Enumerates(order, mounts.value.Keys)
              && (forall i :: 0 <= i < |order| ==> order[i] in mounts.value)
              && r.value == Kv2Vaults(order, mounts.value)
  {
    if mounts.Err? {
      return Err("failed to list vaults: " + mounts.error);
    }
    var table := mounts.value;
    var vaults: seq<Vault> := [];
    ghost var visited: seq<string> := [];
    var rest := table.Keys;
    while rest != {}
      invariant rest <= table.Keys
      invariant forall i, j :: 0 <= i < j < |visited| ==> visited[i] != visited[j]
      invariant forall k :: k in visited <==> k in table && k !in rest
      invariant vaults == Kv2Vaults(visited, table)
      decreases |rest|
    {
      var path :| path in rest;
      var mount := table[path];
      if mount.mountType == "kv" {
        var version := "1";
        if "version" in mount.options {
          version := mount.options["version"];
        }
        if version == "2" {
          var vaultName := TrimSuffix(path, "/");
          vaults := vaults + [Vault(vaultName, "hashicorp",
                                    map["type" := mount.mountType, "version" := version,
                                        "description" := mount.description])];
        }
      }
      assert (visited + [path])[..|visited|] == visited;
      visited := visited + [path];
      rest := rest - {path};
    }
    r := Ok(vaults);
  }

  // ---------------------------------------------------------------------------------------------
  // ListSecrets

  /** A listed key names a secret when it is a string that does not end in "/" (a directory). */
  predicate IsLeafKey(key: Dynamic) {
    key.Str? && !HasSuffix(key.s, "/")
  }

  /** The secret names among `keys`, in order. */
  function LeafKeys(keys: seq<Dynamic>): seq<string>
    decreases |keys|
  {
    if |keys| == 0 then []
    else
      var last := keys[|keys| - 1];
      LeafKeys(keys[..|keys| - 1]) + (if IsLeafKey(last) then [last.s] else [])
  }

  /** A name is listed exactly when it occurs as a non-directory string key. */
  lemma {:induction false} LeafKeysMembers(keys: seq<Dynamic>, name: string)
    ensures name in LeafKeys(keys) <==> Str(name) in keys && !HasSuffix(name, "/")
    decreases |keys|
  {
    if |keys| > 0 {
      var init := keys[..|keys| - 1];
      LeafKeysMembers(init, name);
      assert keys == init + [keys[|keys| - 1]];
    }
  }

  /** Filtering keeps the listing's order: it distributes over concatenation. */
  lemma {:induction false} LeafKeysAppend(a: seq<Dynamic>, b: seq<Dynamic>)
    ensures LeafKeys(a + b) == LeafKeys(a) + LeafKeys(b)
    decreases |b|
  {
    if |b| == 0 {
      assert a + b == a;
    } else {
      var b' := b[..|b| - 1];
      assert (a + b)[..|a + b| - 1] == a + b';
      LeafKeysAppend(a, b');
    }
  }

  /** `ListSecrets`: one enabled secret per leaf key, in listing order, under the trimmed vault name. */
  method ListSecrets(vaultName: string, listKeys: string -> Result<seq<Dynamic>>) returns (r: Result<seq<Secret>>)
    ensures listKeys(EnsureSlash(vaultName)).Err? ==>
              r == Err("failed to list secrets: " + listKeys(EnsureSlash(vaultName)).error)
    ensures listKeys(EnsureSlash(vaultName)).Ok? ==>
              && r.Ok?
              && SecretNames(r.value) == LeafKeys(listKeys(EnsureSlash(vaultName)).value)
              && forall i :: 0 <= i < |r.value| ==>
                   r.value[i] == Secret(r.value[i].name, TrimSuffix(vaultName, "/"), "hashicorp", true)
  {
    var mountPath := vaultName;
    if !HasSuffix(mountPath, "/") {
      mountPath := mountPath + "/";
    }
    assert mountPath == EnsureSlash(vaultName);
    var listed := listKeys(mountPath);
    if listed.Err? {
      return Err("failed to list secrets: " + listed.error);
    }
    var keys := listed.value;
    var secrets: seq<Secret> := [];
    var i := 0;
    while i < |keys|
      invariant 0 <= i <= |keys|
      invariant SecretNames(secrets) == LeafKeys(keys[..i])
      invariant forall j :: 0 <= j < |secrets| ==>
                  secrets[j] == Secret(secrets[j].name, TrimSuffix(vaultName, "/"), "hashicorp", true)
    {
      assert keys[..i + 1][..i] == keys[..i];
      var key := keys[i];
      if key.Str? && !HasSuffix(key.s, "/") {
        secrets := secrets + [Secret(key.s, TrimSuffix(mountPath, "/"), "hashicorp", true)];
      }
      i := i + 1;
    }
    assert keys[..i] == keys;
    r := Ok(secrets);
  }

  // ---------------------------------------------------------------------------------------------
  // GetSecret

  /** The value priority: "value", else "password", else any field's value, else "". */
  ghost predicate SelectedValue(data: map<string, string>, v: string) {
    if "value" in data then v == data["value"]
    else if "password" in data then v == data["password"]
    else if |data| > 0 then v in data.Values
    else v == ""
  }

  /** Picks the secret's value out of its data map by the fixed priority. */
  method SelectValue(data: map<string, string>) returns (v: string)
    ensures SelectedValue(data, v)
  {
    if "value" in data {
      v := data["value"];
    } else if "password" in data {
      v := data["password"];
    } else if data.Keys != {} {
      var field :| field in data.Keys;
      v := data[field];
    } else {
      assert |data| == 0;
      v := "";
    }
  }

  /** `GetSecret`: the requested name, the trimmed vault name and the value chosen by priority. */
  method GetSecret(vaultName: string, secretName: string,
                   readData: (string, string) -> Result<map<string, string>>)
    returns (r: Result<SecretValue>)
    ensures readData(EnsureSlash(vaultName), secretName).Err? ==>
              r == Err("failed to get secret: " + readData(EnsureSlash(vaultName), secretName).error)
    ensures readData(EnsureSlash(vaultName), secretName).Ok? ==>
              && r.Ok?
              && r.value.name == secretName
              && r.value.vaultName == TrimSuffix(vaultName, "/")
              && r.value.provider == "hashicorp"
              && SelectedValue(readData(EnsureSlash(vaultName), secretName).value, r.value.value)
  {
    var mountPath := vaultName;
    if !HasSuffix(mountPath, "/") {
      mountPath := mountPath + "/";
    }
    assert mountPath == EnsureSlash(vaultName);
    var read := readData(mountPath, secretName);
    if read.Err? {
      return Err("failed to get secret: " + read.error);
    }
    var value := SelectValue(read.value);
    r := Ok(SecretValue(secretName, value, TrimSuffix(mountPath, "/"), "hashicorp"));
  }
}
