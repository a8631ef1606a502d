/** The backend-neutral result records every provider returns. */
module Models {

  /** A secret container of some backend, with backend-specific metadata. */
  datatype Vault = Vault(name: string, provider: string, metadata: map<string, string>)

  /** A listed secret: its name, never its value. */
  datatype Secret = Secret(name: string, vaultName: string, provider: string, enabled: bool)

  /** A fetched secret together with its plaintext value. */
  datatype SecretValue = SecretValue(name: string, value: string, vaultName: string, provider: string)

  /** The names of `vaults`, in order. */
  function VaultNames(vaults: seq<Vault>): (names: seq<string>)
    ensures |names| == |vaults|
    ensures forall i :: 0 <= i < |vaults| ==> names[i] == vaults[i].name
  {
    seq(|vaults|, i requires 0 <= i < |vaults| => vaults[i].name)
  }

  /** The names of `secrets`, in order. */
  function SecretNames(secrets: seq<Secret>): (names: seq<string>)
    ensures |names| == |secrets|
    ensures forall i :: 0 <= i < |secrets| ==> names[i] == secrets[i].name
  {
    seq(|secrets|, i requires 0 <= i < |secrets| => secrets[i].name)
  }
}
