/** Read-only queries on a loaded configuration: instance lookup and enabled-provider listing. */
module ConfigHelpers {
  import opened Wrappers
  import opened Search
  import opened ConfigTypes

  /** `ListAzureInstances`: the configured list, or an empty one when the block is absent. */
  function ListAzureInstances(c: Config): (r: seq<AzureInstance>)
    ensures c.providers.azure.Some? ==> r == c.providers.azure.value.instances
    ensures c.providers.azure.None? ==> r == []
  {
    if c.providers.azure.None? then [] else c.providers.azure.value.instances
  }

  /** `GetAzureInstance`: the first instance, in list order, whose name is exactly `name`. */
  function GetAzureInstance(c: Config, name: string): (r: Result<AzureInstance>)
    ensures c.providers.azure.None? ==> r == Err("azure provider not configured")
    ensures c.providers.azure.Some? ==>
              (r.Ok? <==> exists i :: 0 <= i < |ListAzureInstances(c)| && ListAzureInstances(c)[i].name == name)
    ensures c.providers.azure.Some? && r.Err? ==> r.error == "azure instance '" + name + "' not found"
    ensures forall k ::
              && 0 <= k < |ListAzureInstances(c)| && ListAzureInstances(c)[k].name == name
              && (forall j :: 0 <= j < k ==> ListAzureInstances(c)[j].name != name)
              ==> r == Ok(ListAzureInstances(c)[k])
  {
    if c.providers.azure.None? then Err("azure provider not configured")
    else
      var insts := c.providers.azure.value.instances;
      var k := FirstIndex(insts, (inst: AzureInstance) => inst.name == name);
      if k < |insts| then
        assert ListAzureInstances(c)[k].name == name;
        Ok(insts[k])
      else Err("azure instance '" + name + "' not found")
  }

  /**
   * `GetDefaultAzureInstance`: the first instance flagged default, else the first instance; it
   * fails only when the block is absent or lists no instance.
   */
  function GetDefaultAzureInstance(c: Config): (r: Result<AzureInstance>)
    ensures c.providers.azure.None? ==> r == Err("azure provider not configured")
    ensures c.providers.azure.Some? && |ListAzureInstances(c)| == 0 ==> r == Err("no azure instances configured")
    ensures c.providers.azure.Some? && |ListAzureInstances(c)| > 0 ==> r.Ok?
    ensures forall k ::
              && 0 <= k < |ListAzureInstances(c)| && ListAzureInstances(c)[k].default
              && (forall j :: 0 <= j < k ==> !ListAzureInstances(c)[j].default)
              ==> r == Ok(ListAzureInstances(c)[k])
    ensures (&& |ListAzureInstances(c)| > 0
             && forall j :: 0 <= j < |ListAzureInstances(c)| ==> !ListAzureInstances(c)[j].default)
            ==> r == Ok(ListAzureInstances(c)[0])
  {
    if c.providers.azure.None? then Err("azure provider not configured")
    else
      var insts := c.providers.azure.value.instances;
      var k := FirstIndex(insts, (inst: AzureInstance) => inst.default);
      if k < |insts| then Ok(insts[k])
      else if |insts| > 0 then Ok(insts[0])
      else Err("no azure instances configured")
  }

  /** `ListHashicorpInstances`: the configured list, or an empty one when the block is absent. */
  function ListHashicorpInstances(c: Config): (r: seq<HashicorpInstance>)
    ensures c.providers.hashicorp.Some? ==> r == c.providers.hashicorp.value.instances
    ensures c.providers.hashicorp.None? ==> r == []
  {
    if c.providers.hashicorp.None? then [] else c.providers.hashicorp.value.instances
  }

  /** `GetHashicorpInstance`: the first instance, in list order, whose name is exactly `name`. */
  function GetHashicorpInstance(c: Config, name: string): (r: Result<HashicorpInstance>)
    ensures c.providers.hashicorp.None? ==> r == Err("hashicorp provider not configured")
    ensures c.providers.hashicorp.Some? ==>
              (r.Ok? <==> exists i :: 0 <= i < |ListHashicorpInstances(c)| && ListHashicorpInstances(c)[i].name == name)
    ensures c.providers.hashicorp.Some? && r.Err? ==> r.error == "hashicorp instance '" + name + "' not found"
    ensures forall k ::
              && 0 <= k < |ListHashicorpInstances(c)| && ListHashicorpInstances(c)[k].name == name
              && (forall j :: 0 <= j < k ==> ListHashicorpInstances(c)[j].name != name)
              ==> r == Ok(ListHashicorpInstances(c)[k])
  {
    if c.providers.hashicorp.None? then Err("hashicorp provider not configured")
    else
      var insts := c.providers.hashicorp.value.instances;
      var k := FirstIndex(insts, (inst: HashicorpInstance) => inst.name == name);
      if k < |insts| then
        assert ListHashicorpInstances(c)[k].name == name;
        Ok(insts[k])
      else Err("hashicorp instance '" + name + "' not found")
  }

  /**
   * `GetDefaultHashicorpInstance`: the first instance flagged default, else the first instance; it
   * fails only when the block is absent or lists no instance.
   */
  function GetDefaultHashicorpInstance(c: Config): (r: Result<HashicorpInstance>)
    ensures c.providers.hashicorp.None? ==> r == Err("hashicorp provider not configured")
    ensures c.providers.hashicorp.Some? && |ListHashicorpInstances(c)| == 0 ==> r == Err("no hashicorp instances configured")
    ensures c.providers.hashicorp.Some? && |ListHashicorpInstances(c)| > 0 ==> r.Ok?
    ensures forall k ::
              && 0 <= k < |ListHashicorpInstances(c)| && ListHashicorpInstances(c)[k].default
              && (forall j :: 0 <= j < k ==> !ListHashicorpInstances(c)[j].default)
              ==> r == Ok(ListHashicorpInstances(c)[k])
    ensures (&& |ListHashicorpInstances(c)| > 0
             && forall j :: 0 <= j < |ListHashicorpInstances(c)| ==> !ListHashicorpInstances(c)[j].default)
            ==> r == Ok(ListHashicorpInstances(c)[0])
  {
    if c.providers.hashicorp.None? then Err("hashicorp provider not configured")
    else
      var insts := c.providers.hashicorp.value.instances;
      var k := FirstIndex(insts, (inst: HashicorpInstance) => inst.default);
      if k < |insts| then Ok(insts[k])
      else if |insts| > 0 then Ok(insts[0])
      else Err("no hashicorp instances configured")
  }

  /** A single flagged instance is the default wherever it sits in the list. */
  lemma UniqueDefaultChosen(c: Config, k: nat)
    requires k < |ListAzureInstances(c)| && ListAzureInstances(c)[k].default
    requires forall j :: 0 <= j < |ListAzureInstances(c)| && j != k ==> !ListAzureInstances(c)[j].default
    ensures GetDefaultAzureInstance(c) == Ok(ListAzureInstances(c)[k])
  {
  }

  /** `IsProviderEnabled`: only the two known backend kinds, with a present and enabled block. */
  function IsProviderEnabled(c: Config, providerName: string): (r: bool)
    ensures r ==> providerName == "azure" || providerName == "hashicorp"
    ensures providerName == "azure" ==> (r <==> c.providers.azure.Some? && c.providers.azure.value.enabled)
    ensures providerName == "hashicorp" ==>
              (r <==> c.providers.hashicorp.Some? && c.providers.hashicorp.value.enabled)
  {
    match providerName
    case "azure" => c.providers.azure.Some? && c.providers.azure.value.enabled
    case "hashicorp" => c.providers.hashicorp.Some? && c.providers.hashicorp.value.enabled
    case _ => false
  }

  /** `GetEnabledProviders`: the enabled names among "azure" and "hashicorp", in that order. */
  function GetEnabledProviders(c: Config): (r: seq<string>)
    ensures forall name :: name in r <==> IsProviderEnabled(c, name)
    ensures forall i, j :: 0 <= i < j < |r| ==> r[i] == "azure" && r[j] == "hashicorp"
  {
    var providers := if c.providers.azure.Some? && c.providers.azure.value.enabled then ["azure"] else [];
    if c.providers.hashicorp.Some? && c.providers.hashicorp.value.enabled then providers + ["hashicorp"]
    else providers
  }
}
