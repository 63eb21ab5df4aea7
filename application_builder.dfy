/**
 * The part of `ApplicationDefImpl.Builder` that the application handler fills in, and the
 * definition-level values it stores: descriptors, descriptor filters and flavor overrides.
 */
module ApplicationBuilder {
  import opened Wrappers

  /** The definition kinds the handler asks for (`DefDescriptor.DefType` and the
      definition classes passed to `getDefDescriptor`). */
  datatype DefType = APPLICATION | COMPONENT | EVENT | STYLE | MODULE | FLAVORS

  /** A resolved definition descriptor; how a name resolves is the definition service's
      business and is a parameter of the model. */
  datatype Descriptor = Descriptor(qualifiedName: string, defType: DefType)

  /** `DescriptorFilter`: a descriptor pattern and the definition kinds it selects. */
  datatype DescriptorFilter = DescriptorFilter(pattern: string, defTypes: seq<DefType>)

  /** A `FlavorsDef` found in the application's own bundle. */
  datatype FlavorsDef = FlavorsDef(descriptor: Descriptor)

  /** The two `setFlavorOverrides` overloads: by descriptor, or by a bundled definition. */
  datatype FlavorOverrides = OverridesByDescriptor(descriptor: Descriptor) | OverridesByDef(def: FlavorsDef)

  /** A snapshot of the builder fields the handler writes; `None` is Java `null`. */
  datatype BuilderState = BuilderState(
    locationChangeEventDescriptor: Option<Descriptor>,
    dependencies: seq<DescriptorFilter>,
    trackedDependencies: seq<Descriptor>,
    moduleServices: Option<set<Descriptor>>,
    isAppcacheEnabled: Option<bool>,
    additionalAppCacheURLs: Option<string>,
    tokenOverrides: Option<string>,
    flavorOverrides: Option<FlavorOverrides>,
    bootstrapPublicCacheExpiration: Option<string>)

  /** A freshly constructed builder: nothing set, no dependencies. */
  const EmptyBuilderState := BuilderState(None, [], [], None, None, None, None, None, None)

  class Builder {
    var locationChangeEventDescriptor: Option<Descriptor>
    var dependencies: seq<DescriptorFilter>
    var trackedDependencies: seq<Descriptor>
    var moduleServices: Option<set<Descriptor>>
    var isAppcacheEnabled: Option<bool>
    var additionalAppCacheURLs: Option<string>
    var tokenOverrides: Option<string>
    var flavorOverrides: Option<FlavorOverrides>
    var bootstrapPublicCacheExpiration: Option<string>

    /** The builder's fields as one value. */
    function State(): BuilderState
      reads this
    {
      BuilderState(locationChangeEventDescriptor, dependencies, trackedDependencies, moduleServices,
        isAppcacheEnabled, additionalAppCacheURLs, tokenOverrides, flavorOverrides,
        bootstrapPublicCacheExpiration)
    }

    constructor ()
      ensures State() == EmptyBuilderState
    {
      locationChangeEventDescriptor := None;
      dependencies := [];
      trackedDependencies := [];
      moduleServices := None;
      isAppcacheEnabled := None;
      additionalAppCacheURLs := None;
      tokenOverrides := None;
      flavorOverrides := None;
      bootstrapPublicCacheExpiration := None;
    }

    /** `addDependency`: appends one filter to the dependency list. */
    method AddDependency(filter: DescriptorFilter)
      modifies this
      ensures State() == old(State()).(dependencies := old(dependencies) + [filter])
    {
      dependencies := dependencies + [filter];
    }

    /** `addTrackedDependency`: appends one descriptor to the tracked list. */
    method AddTrackedDependency(descriptor: Descriptor)
      modifies this
      ensures State() == old(State()).(trackedDependencies := old(trackedDependencies) + [descriptor])
    {
      trackedDependencies := trackedDependencies + [descriptor];
    }

    /** `setModuleServices`: replaces the module service set. */
    method SetModuleServices(services: set<Descriptor>)
      modifies this
      ensures State() == old(State()).(moduleServices := Some(services))
    {
      moduleServices := Some(services);
    }

    /** `setTokenOverrides`: records the raw token-override list. */
    method SetTokenOverrides(tokens: string)
      modifies this
      ensures State() == old(State()).(tokenOverrides := Some(tokens))
    {
      tokenOverrides := Some(tokens);
    }

    /** Both `setFlavorOverrides` overloads. */
    method SetFlavorOverrides(overrides: FlavorOverrides)
      modifies this
      ensures State() == old(State()).(flavorOverrides := Some(overrides))
    {
      flavorOverrides := Some(overrides);
    }
  }
}
