/** Output selection and the plain-text formatter (one name per line). */
module Output {
  import opened Wrappers
  import opened Strings
  import opened Models

  const FormatPlain: string := "plain"
  const FormatJson: string := "json"

  /** The formatter kinds; the JSON one serialises with a library encoder and is not modelled. */
  datatype Formatter = PlainFormatter | JsonFormatter

  /** `GetFormatter`: an exact, case-sensitive match against the two format names. */
  function GetFormatter(format: string): (r: Result<Formatter>)
    ensures r == Ok(PlainFormatter) <==> format == FormatPlain
    ensures r == Ok(JsonFormatter) <==> format == FormatJson
    ensures r.Err? <==> format != FormatPlain && format != FormatJson
    ensures r.Err? ==> r.error == "unsupported format: " + format
  {
    if format == FormatPlain then Ok(PlainFormatter)
    else if format == FormatJson then Ok(JsonFormatter)
    else Err("unsupported format: " + format)
  }

  /** Plain output of a non-empty list of newline-free names splits back into the names. */
  lemma LinesRoundTrip(names: seq<string>)
    ensures |names| > 0 && (forall i :: 0 <= i < |names| ==> '\n' !in names[i]) ==>
              Split(Join(names, "\n"), '\n') == names
  {
    if |names| > 0 && forall i :: 0 <= i < |names| ==> '\n' !in names[i] {
      SplitJoin(names, '\n');
    }
  }

  /** `FormatVaults` of the plain formatter: the vault names, one per line; never an error. */
  method FormatVaults(vaults: seq<Vault>) returns (r: Result<string>)
    ensures r.Ok?
    ensures |vaults| == 0 ==> r.value == ""
    ensures r.value == Join(VaultNames(vaults), "\n")
    ensures |vaults| > 0 && (forall i :: 0 <= i < |vaults| ==> '\n' !in vaults[i].name) ==>
              Split(r.value, '\n') == VaultNames(vaults)
  {
    if |vaults| == 0 {
      return Ok("");
    }
    var names := new string[|vaults|];
    for i := 0 to |vaults|
      invariant forall j :: 0 <= j < i ==> names[j] == vaults[j].name
    {
      names[i] := vaults[i].name;
    }
    assert names[..] == VaultNames(vaults);
    LinesRoundTrip(names[..]);
    return Ok(Join(names[..], "\n"));
  }

  /** `FormatSecrets` of the plain formatter: the secret names, one per line; never an error. */
  method FormatSecrets(secrets: seq<Secret>) returns (r: Result<string>)
    ensures r.Ok?
    ensures |secrets| == 0 ==> r.value == ""
    ensures r.value == Join(SecretNames(secrets), "\n")
    ensures |secrets| > 0 && (forall i :: 0 <= i < |secrets| ==> '\n' !in secrets[i].name) ==>
              Split(r.value, '\n') == SecretNames(secrets)
  {
    if |secrets| == 0 {
      return Ok("");
    }
    var names := new string[|secrets|];
    for i := 0 to |secrets|
      invariant forall j :: 0 <= j < i ==> names[j] == secrets[j].name
    {
      names[i] := secrets[i].name;
    }
    assert names[..] == SecretNames(secrets);
    LinesRoundTrip(names[..]);
    return Ok(Join(names[..], "\n"));
  }

  /** `FormatProviders` of the plain formatter: the names, one per line; never an error. */
  function FormatProviders(providers: seq<string>): (r: Result<string>)
    ensures r.Ok?
    ensures |providers| == 0 ==> r.value == ""
    ensures r.value == Join(providers, "\n")
    ensures |providers| > 0 && (forall i :: 0 <= i < |providers| ==> '\n' !in providers[i]) ==>
              Split(r.value, '\n') == providers
  {
    LinesRoundTrip(providers);
    if |providers| == 0 then Ok("") else Ok(Join(providers, "\n"))
  }
}
