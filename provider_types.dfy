/** The provider capability enumeration and the settings record handed to provider factories. */
module ProviderTypes {

  /** The optional capabilities a provider may report. */
  datatype Feature = Versioning | Metadata | Tags

  /** A Go `interface{}` value, as far as the core distinguishes them: a string, or anything else. */
  datatype Dynamic = Str(s: string) | NonString

  /** The settings bag for one provider; a nil `Settings` map reads like an empty one. */
  datatype ProviderConfig = ProviderConfig(
    name: string, enabled: bool, default: bool, settings: map<string, Dynamic>)
}
