/**
 * The provider registry: a name-to-factory map. Registration overwrites; lookup invokes the
 * registered factory on the given settings and returns its result unchanged.
 */
module ProviderRegistry {
  import opened Wrappers
  import opened ProviderTypes

  /** A provider factory; `None` stands for a nil `*Config`. */
  type Factory<P> = Option<ProviderConfig> -> Result<P>

  class Registry<P> {
    var factories: map<string, Factory<P>>

    /** An empty registry. */
    constructor ()
      ensures factories == map[]
    {
      factories := map[];
    }

    /** `Register`: stores `factory` under `name`, replacing any earlier entry for that name. */
    method Register(name: string, factory: Factory<P>)
      modifies this
      ensures factories == old(factories)[name := factory]
      ensures name in factories && factories[name] == factory
      ensures forall other :: other != name ==>
                (other in factories <==> other in old(factories)) &&
                (other in factories ==> factories[other] == old(factories)[other])
    {
      factories := factories[name := factory];
    }

    /** `GetProvider`: the registered factory's result on `cfg`, or "provider not found". */
    method GetProvider(name: string, cfg: Option<ProviderConfig>) returns (r: Result<P>)
      ensures name in factories ==> r == factories[name](cfg)
      ensures name !in factories ==> r == Err("provider not found: " + name)
    {
      if name !in factories {
        return Err("provider not found: " + name);
      }
      var factory := factories[name];
      r := factory(cfg);
    }

    /** `ListProviders`: every registered name exactly once, in an unspecified order. */
    method ListProviders() returns (names: seq<string>)
      ensures forall name :: name in names <==> name in factories
      ensures forall i, j :: 0 <= i < j < |names| ==> names[i] != names[j]
      ensures |names| == |factories|
    {
      names := [];
      var rest := factories.Keys;
      while rest != {}
        invariant rest <= factories.Keys
        invariant forall name :: name in names <==> name in factories && name !in rest
        invariant forall i, j :: 0 <= i < j < |names| ==> names[i] != names[j]
        invariant |names| + |rest| == |factories.Keys|
        decreases |rest|
      {
        var name :| name in rest;
        names := names + [name];
        rest := rest - {name};
      }
    }

    /** `IsRegistered`: whether `name` has a factory, without invoking it. */
    method IsRegistered(name: string) returns (b: bool)
      ensures b <==> name in factories
    {
      b := name in factories;
    }
  }
}
