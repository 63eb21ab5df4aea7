/**
 * `ApplicationDefHandler`: the markup handler for the `<aura:application>` tag. It chooses
 * which attributes the tag may carry and copies the application-specific attributes onto
 * the application definition builder.
 */
module ApplicationDefHandler {
  import opened Wrappers
  import opened JavaText
  import opened GuavaSplitter
  import opened ApplicationBuilder

  const TAG := "aura:application"

  const ATTRIBUTE_PRELOAD := "preload"
  const ATTRIBUTE_TRACK := "track"
  const ATTRIBUTE_SERVICES := "services"
  const ATTRIBUTE_LOCATION_CHANGE_EVENT := "locationChangeEvent"
  const ATTRIBUTE_APPCACHE_ENABLED := "useAppcache"
  const ATTRIBUTE_ADDITIONAL_APPCACHE_URLS := "additionalAppCacheURLs"
  const ATTRIBUTE_TOKEN_OVERRIDES := "tokens"
  const ATTRIBUTE_FLAVOR_OVERRIDES := "flavorOverrides"
  const ATTRIBUTE_BOOTSTRAP_PUBLIC_CACHE_EXPIRATION := "bootstrapPublicCacheExpiration"
  const ATTRIBUTE_REQUIRED_MINIMUM_VERSION := "requiredMinimumVersion"
  /** Declared by the base component handler and inherited here. */
  const ATTRIBUTE_TEMPLATE := "template"

  /** The attributes the application handler itself adds to the public allow-list. */
  const APPLICATION_ATTRIBUTES: set<string> :=
    {ATTRIBUTE_APPCACHE_ENABLED, ATTRIBUTE_ADDITIONAL_APPCACHE_URLS, ATTRIBUTE_TEMPLATE}

  /** The attributes only tags in an internal namespace may carry. */
  const INTERNAL_APPLICATION_ATTRIBUTES: set<string> :=
    {ATTRIBUTE_PRELOAD, ATTRIBUTE_TRACK, ATTRIBUTE_LOCATION_CHANGE_EVENT, ATTRIBUTE_TOKEN_OVERRIDES,
     ATTRIBUTE_SERVICES, ATTRIBUTE_FLAVOR_OVERRIDES, ATTRIBUTE_BOOTSTRAP_PUBLIC_CACHE_EXPIRATION,
     ATTRIBUTE_REQUIRED_MINIMUM_VERSION}

  /** The base component handler's two allow-lists. */
  datatype BaseAllowLists = BaseAllowLists(allowed: set<string>, internalAllowed: set<string>)

  /** `ALLOWED_ATTRIBUTES`: the application's own public attributes plus the base list. */
  function AllowedAttributes(base: BaseAllowLists): (r: set<string>)
    ensures "useAppcache" in r && "additionalAppCacheURLs" in r && "template" in r
    ensures base.allowed <= r
    ensures forall a | a in r :: a in base.allowed || a in {"useAppcache", "additionalAppCacheURLs", "template"}
  {
    APPLICATION_ATTRIBUTES + base.allowed
  }

  /** `INTERNAL_ALLOWED_ATTRIBUTES`: the internal-only attributes, the public list and the
      base component handler's internal list. */
  function InternalAllowedAttributes(base: BaseAllowLists): (r: set<string>)
    ensures AllowedAttributes(base) <= r
    ensures base.internalAllowed <= r
    ensures {"preload", "track", "locationChangeEvent", "tokens", "services", "flavorOverrides",
             "bootstrapPublicCacheExpiration", "requiredMinimumVersion"} <= r
    ensures forall a | a in r :: a in AllowedAttributes(base) || a in base.internalAllowed || a in INTERNAL_APPLICATION_ATTRIBUTES
  {
    INTERNAL_APPLICATION_ATTRIBUTES + AllowedAttributes(base) + base.internalAllowed
  }

  /** `getAllowedAttributes`: the internal or public list, by namespace, widened by the
      extra attributes the parser adapter returns for application definitions (if any). */
  function GetAllowedAttributes(isInInternalNamespace: bool, base: BaseAllowLists,
                                extraAllowed: Option<set<string>>): (r: set<string>)
    ensures (if isInInternalNamespace then InternalAllowedAttributes(base) else AllowedAttributes(base)) <= r
    ensures extraAllowed.Some? ==> extraAllowed.value <= r
    ensures r <= (if isInInternalNamespace then InternalAllowedAttributes(base) else AllowedAttributes(base))
                 + (if extraAllowed.Some? then extraAllowed.value else {})
  {
    var allowed := if isInInternalNamespace then InternalAllowedAttributes(base) else AllowedAttributes(base);
    if extraAllowed.Some? then allowed + extraAllowed.value else allowed
  }

  /** `getHandledTag`. */
  function GetHandledTag(): (r: string)
    ensures r == "aura:application"
  {
    TAG
  }

  /** `getAllowsScript`: applications may embed script tags. */
  function GetAllowsScript(): (r: bool)
    ensures r
  {
    true
  }

  /** `allowAuthenticationAttribute`: applications may carry the authentication attribute. */
  function AllowAuthenticationAttribute(): (r: bool)
    ensures r
  {
    true
  }

  /** The collaborators `readAttributes` calls out to. */
  datatype Environment = Environment(
    /** `definitionService.getDefDescriptor(name, kind)`. */
    getDefDescriptor: (string, DefType) -> Descriptor,
    /** `AuraTextUtil.splitSimple(",", value)`. */
    splitSimple: string -> seq<string>,
    /** `configAdapter.getDefaultServices()`. */
    defaultServices: set<string>,
    /** `getBundledDef(FlavorsDef.class, MARKUP_PREFIX)`. */
    bundledFlavors: Option<FlavorsDef>)

  /** `getAttributeValue`: the attribute's raw value, or null when the tag does not carry it. */
  function GetAttributeValue(attributes: map<string, string>, name: string): Option<string> {
    if name in attributes then Some(attributes[name]) else None
  }

  /** `f` applied to every element of `xs`, in order. */
  function MapSeq<A, B>(f: A -> B, xs: seq<A>): (r: seq<B>)
    ensures |r| == |xs|
  {
    if xs == [] then [] else MapSeq(f, xs[..|xs| - 1]) + [f(xs[|xs| - 1])]
  }

  lemma {:induction false} MapSeqAt<A, B>(f: A -> B, xs: seq<A>, k: nat)
    requires k < |xs|
    ensures MapSeq(f, xs)[k] == f(xs[k])
  {
    if k < |xs| - 1 {
      MapSeqAt(f, xs[..|xs| - 1], k);
    }
  }

  /** The descriptor pattern `markup://<namespace>:*` that preloads a whole namespace. */
  function PreloadPattern(namespace: string): string {
    "markup://" + namespace + ":*"
  }

  /** The kinds of definition a preload brings in. */
  const PRELOAD_DEF_TYPES: seq<DefType> := [APPLICATION, COMPONENT, EVENT, STYLE]

  function PreloadFilter(namespace: string): DescriptorFilter {
    DescriptorFilter(PreloadPattern(namespace), PRELOAD_DEF_TYPES)
  }

  /** The names given in `services`: the configured defaults when the attribute is blank,
      else the distinct trimmed non-empty comma-separated pieces. */
  function ServiceNames(servicesAttribute: Option<string>, defaultServices: set<string>): set<string> {
    if IsBlankValue(servicesAttribute) then defaultServices
    else Distinct(SplitTrimOmitEmpty(servicesAttribute.value, ','))
  }

  /** The distinct elements of a list. */
  function Distinct(names: seq<string>): set<string> {
    set name | name in names
  }

  /** The module descriptors the service names resolve to. */
  function ServiceDescriptors(names: set<string>, env: Environment): set<Descriptor> {
    set name | name in names :: env.getDefDescriptor(name, MODULE)
  }

  // Each attribute writes exactly one builder field; these give that field's new value
  // from its old one.

  function LocationChangeEventAfter(current: Option<Descriptor>, value: Option<string>, env: Environment): Option<Descriptor> {
    if IsBlankValue(value) then current else Some(env.getDefDescriptor(value.value, EVENT))
  }

  function DependenciesAfter(current: seq<DescriptorFilter>, value: Option<string>, env: Environment): seq<DescriptorFilter> {
    if IsBlankValue(value) then current else current + MapSeq(PreloadFilter, env.splitSimple(value.value))
  }

  function TrackedDescriptors(names: seq<string>, env: Environment): seq<Descriptor> {
    MapSeq((name: string) => env.getDefDescriptor(name, COMPONENT), names)
  }

  function TrackedDependenciesAfter(current: seq<Descriptor>, value: Option<string>, env: Environment): seq<Descriptor> {
    if IsBlankValue(value) then current else current + TrackedDescriptors(env.splitSimple(value.value), env)
  }

  function ModuleServicesAfter(current: Option<set<Descriptor>>, value: Option<string>, env: Environment): Option<set<Descriptor>> {
    var names := ServiceNames(value, env.defaultServices);
    if names == {} then current else Some(ServiceDescriptors(names, env))
  }

  function AppcacheEnabledAfter(current: Option<bool>, value: Option<string>): Option<bool> {
    if IsBlankValue(value) then current else Some(ParseBoolean(value.value))
  }

  /** A string field that takes a non-blank attribute value as it is. */
  function StringFieldAfter(current: Option<string>, value: Option<string>): Option<string> {
    if IsBlankValue(value) then current else Some(value.value)
  }

  function FlavorOverridesAfter(current: Option<FlavorOverrides>, value: Option<string>, env: Environment): Option<FlavorOverrides> {
    if !IsBlankValue(value) then Some(OverridesByDescriptor(env.getDefDescriptor(value.value, FLAVORS)))
    else if env.bundledFlavors.Some? then Some(OverridesByDef(env.bundledFlavors.value))
    else current
  }

  /** The builder state after `readAttributes`, from the state before it. */
  function ReadAttributesSpec(b: BuilderState, attributes: map<string, string>, env: Environment): BuilderState {
    BuilderState(
      LocationChangeEventAfter(b.locationChangeEventDescriptor,
        GetAttributeValue(attributes, ATTRIBUTE_LOCATION_CHANGE_EVENT), env),
      DependenciesAfter(b.dependencies, GetAttributeValue(attributes, ATTRIBUTE_PRELOAD), env),
      TrackedDependenciesAfter(b.trackedDependencies, GetAttributeValue(attributes, ATTRIBUTE_TRACK), env),
      ModuleServicesAfter(b.moduleServices, GetAttributeValue(attributes, ATTRIBUTE_SERVICES), env),
      AppcacheEnabledAfter(b.isAppcacheEnabled, GetAttributeValue(attributes, ATTRIBUTE_APPCACHE_ENABLED)),
      StringFieldAfter(b.additionalAppCacheURLs, GetAttributeValue(attributes, ATTRIBUTE_ADDITIONAL_APPCACHE_URLS)),
      StringFieldAfter(b.tokenOverrides, GetAttributeValue(attributes, ATTRIBUTE_TOKEN_OVERRIDES)),
      FlavorOverridesAfter(b.flavorOverrides, GetAttributeValue(attributes, ATTRIBUTE_FLAVOR_OVERRIDES), env),
      StringFieldAfter(b.bootstrapPublicCacheExpiration,
        GetAttributeValue(attributes, ATTRIBUTE_BOOTSTRAP_PUBLIC_CACHE_EXPIRATION)))
  }

  /** The `for (String name : …) serviceDescriptors.add(name)` loop of `readAttributes`:
      every name is added, duplicates collapse, nothing else enters the set. */
  method AddServiceNames(serviceDescriptors: set<string>, names: seq<string>)
    returns (r: set<string>)
    ensures r == serviceDescriptors + Distinct(names)
  {
    r := serviceDescriptors;
    for i := 0 to |names|
      invariant r == serviceDescriptors + Distinct(names[..i])
    {
      assert names[..i + 1] == names[..i] + [names[i]];
      r := r + {names[i]};
    }
    assert names[..|names|] == names;
  }

  /** The `serviceDescriptors` hash set of `readAttributes`: filled from the split attribute
      when it is not blank, from the configured defaults otherwise. */
  method CollectServiceNames(servicesAttribute: Option<string>, defaultServices: set<string>)
    returns (serviceDescriptors: set<string>)
    ensures serviceDescriptors == ServiceNames(servicesAttribute, defaultServices)
  {
    serviceDescriptors := {};
    if !IsBlankValue(servicesAttribute) {
      serviceDescriptors := AddServiceNames(serviceDescriptors, SplitTrimOmitEmpty(servicesAttribute.value, ','));
    } else {
      serviceDescriptors := serviceDescriptors + defaultServices;
    }
  }

  // `readAttributes`, one attribute at a time.

  method ReadLocationChangeEvent(attributes: map<string, string>, env: Environment, builder: Builder)
    modifies builder
    ensures builder.State() == old(builder.State()).(locationChangeEventDescriptor :=
      LocationChangeEventAfter(old(builder.locationChangeEventDescriptor),
        GetAttributeValue(attributes, ATTRIBUTE_LOCATION_CHANGE_EVENT), env))
  {
    var locationChangeEvent := GetAttributeValue(attributes, ATTRIBUTE_LOCATION_CHANGE_EVENT);
    if !IsBlankValue(locationChangeEvent) {
      builder.locationChangeEventDescriptor := Some(env.getDefDescriptor(locationChangeEvent.value, EVENT));
    }
  }

  method ReadPreload(attributes: map<string, string>, env: Environment, builder: Builder)
    modifies builder
    ensures builder.State() == old(builder.State()).(dependencies :=
      DependenciesAfter(old(builder.dependencies), GetAttributeValue(attributes, ATTRIBUTE_PRELOAD), env))
  {
    var preloadNames := GetAttributeValue(attributes, ATTRIBUTE_PRELOAD);
    if !IsBlankValue(preloadNames) {
      var preloads := env.splitSimple(preloadNames.value);
      for i := 0 to |preloads|
        invariant builder.State() ==
          old(builder.State()).(dependencies := old(builder.dependencies) + MapSeq(PreloadFilter, preloads[..i]))
      {
        builder.AddDependency(PreloadFilter(preloads[i]));
        assert preloads[..i + 1][..i] == preloads[..i];
      }
      assert preloads[..|preloads|] == preloads;
    }
  }

  method ReadTrack(attributes: map<string, string>, env: Environment, builder: Builder)
    modifies builder
    ensures builder.State() == old(builder.State()).(trackedDependencies :=
      TrackedDependenciesAfter(old(builder.trackedDependencies), GetAttributeValue(attributes, ATTRIBUTE_TRACK), env))
  {
    var trackedDependencies := GetAttributeValue(attributes, ATTRIBUTE_TRACK);
    if !IsBlankValue(trackedDependencies) {
      var trackedList := env.splitSimple(trackedDependencies.value);
      for i := 0 to |trackedList|
        invariant builder.State() ==
          old(builder.State()).(trackedDependencies :=
            old(builder.trackedDependencies) + TrackedDescriptors(trackedList[..i], env))
      {
        var trackedDef := env.getDefDescriptor(trackedList[i], COMPONENT);
        builder.AddTrackedDependency(trackedDef);
        assert trackedList[..i + 1][..i] == trackedList[..i];
      }
      assert trackedList[..|trackedList|] == trackedList;
    }
  }

  method ReadServices(attributes: map<string, string>, env: Environment, builder: Builder)
    modifies builder
    ensures builder.State() == old(builder.State()).(moduleServices :=
      ModuleServicesAfter(old(builder.moduleServices), GetAttributeValue(attributes, ATTRIBUTE_SERVICES), env))
  {
    var servicesAttribute := GetAttributeValue(attributes, ATTRIBUTE_SERVICES);
    var serviceDescriptors := CollectServiceNames(servicesAttribute, env.defaultServices);
    if serviceDescriptors != {} {
      var services := set service | service in serviceDescriptors :: env.getDefDescriptor(service, MODULE);
      builder.SetModuleServices(services);
    }
  }

  method ReadAppcacheAttributes(attributes: map<string, string>, builder: Builder)
    modifies builder
    ensures builder.State() == old(builder.State()).(
      isAppcacheEnabled :=
        AppcacheEnabledAfter(old(builder.isAppcacheEnabled), GetAttributeValue(attributes, ATTRIBUTE_APPCACHE_ENABLED)),
      additionalAppCacheURLs :=
        StringFieldAfter(old(builder.additionalAppCacheURLs), GetAttributeValue(attributes, ATTRIBUTE_ADDITIONAL_APPCACHE_URLS)))
  {
    var isAppcacheEnabled := GetAttributeValue(attributes, ATTRIBUTE_APPCACHE_ENABLED);
    if !IsBlankValue(isAppcacheEnabled) {
      builder.isAppcacheEnabled := Some(ParseBoolean(isAppcacheEnabled.value));
    }
    var additionalAppCacheURLs := GetAttributeValue(attributes, ATTRIBUTE_ADDITIONAL_APPCACHE_URLS);
    if !IsBlankValue(additionalAppCacheURLs) {
      builder.additionalAppCacheURLs := Some(additionalAppCacheURLs.value);
    }
  }

  method ReadTokenOverrides(attributes: map<string, string>, builder: Builder)
    modifies builder
    ensures builder.State() == old(builder.State()).(tokenOverrides :=
      StringFieldAfter(old(builder.tokenOverrides), GetAttributeValue(attributes, ATTRIBUTE_TOKEN_OVERRIDES)))
  {
    var tokenOverrides := GetAttributeValue(attributes, ATTRIBUTE_TOKEN_OVERRIDES);
    if !IsBlankValue(tokenOverrides) {
      builder.SetTokenOverrides(tokenOverrides.value);
    }
  }

  method ReadFlavorOverrides(attributes: map<string, string>, env: Environment, builder: Builder)
    modifies builder
    ensures builder.State() == old(builder.State()).(flavorOverrides :=
      FlavorOverridesAfter(old(builder.flavorOverrides), GetAttributeValue(attributes, ATTRIBUTE_FLAVOR_OVERRIDES), env))
  {
    var flavorOverrides := GetAttributeValue(attributes, ATTRIBUTE_FLAVOR_OVERRIDES);
    if !IsBlankValue(flavorOverrides) {
      builder.SetFlavorOverrides(OverridesByDescriptor(env.getDefDescriptor(flavorOverrides.value, FLAVORS)));
    } else {
      var flavors := env.bundledFlavors;
      if flavors.Some? {
        builder.SetFlavorOverrides(OverridesByDef(flavors.value));
      }
    }
  }

  method ReadBootstrapPublicCacheExpiration(attributes: map<string, string>, builder: Builder)
    modifies builder
    ensures builder.State() == old(builder.State()).(bootstrapPublicCacheExpiration :=
      StringFieldAfter(old(builder.bootstrapPublicCacheExpiration),
        GetAttributeValue(attributes, ATTRIBUTE_BOOTSTRAP_PUBLIC_CACHE_EXPIRATION)))
  {
    var bootstrapPublicCacheExpiration := GetAttributeValue(attributes, ATTRIBUTE_BOOTSTRAP_PUBLIC_CACHE_EXPIRATION);
    if !IsBlankValue(bootstrapPublicCacheExpiration) {
      builder.bootstrapPublicCacheExpiration := Some(bootstrapPublicCacheExpiration.value);
    }
  }

  /** `readAttributes` (after the base component handler's part): copies the application
      attributes of the tag onto `builder`, in the source's order. */
  method ReadAttributes(attributes: map<string, string>, env: Environment, builder: Builder)
    modifies builder
    ensures builder.State() == ReadAttributesSpec(old(builder.State()), attributes, env)
  {
    ReadLocationChangeEvent(attributes, env, builder);
    ReadPreload(attributes, env, builder);
    ReadTrack(attributes, env, builder);
    ReadServices(attributes, env, builder);
    ReadAppcacheAttributes(attributes, builder);
    ReadTokenOverrides(attributes, builder);
    ReadFlavorOverrides(attributes, env, builder);
    ReadBootstrapPublicCacheExpiration(attributes, builder);
  }

  /** The handler's constructor hands the base handler a new `ApplicationDefImpl.Builder`,
      which `readAttributes` then fills: the result is `ReadAttributesSpec` of the empty
      builder state. */
  method ReadIntoNewBuilder(attributes: map<string, string>, env: Environment) returns (builder: Builder)
    ensures builder.State() == ReadAttributesSpec(EmptyBuilderState, attributes, env)
  {
    builder := new Builder();
    ReadAttributes(attributes, env, builder);
  }
}
