/**
 * What `ApplicationDefHandler` promises about its allow-lists and about the builder after
 * `readAttributes`, stated over the specification functions of the handler module.
 */
module ApplicationDefHandlerProperties {
  import opened Wrappers
  import opened JavaText
  import opened GuavaSplitter
  import opened ApplicationBuilder
  import opened ApplicationDefHandler

  // ---------------------------------------------------------------- allow-lists

  /** An internal namespace never allows fewer attributes than a public one. */
  lemma InternalNamespaceAllowsMore(base: BaseAllowLists, extraAllowed: Option<set<string>>)
    ensures GetAllowedAttributes(false, base, extraAllowed) <= GetAllowedAttributes(true, base, extraAllowed)
  {
  }

  /** An internal-only attribute such as `preload` is refused on a public application unless
      the base list or the adapter allows it, and always allowed on an internal one. */
  lemma InternalOnlyAttributeIsRefusedOutside(base: BaseAllowLists, extraAllowed: Option<set<string>>, name: string)
    requires name in INTERNAL_APPLICATION_ATTRIBUTES
    requires name !in base.allowed
    requires extraAllowed.Some? ==> name !in extraAllowed.value
    ensures name !in GetAllowedAttributes(false, base, extraAllowed)
    ensures name in GetAllowedAttributes(true, base, extraAllowed)
  {
  }

  // ---------------------------------------------------------------- whitespace

  /** `Character.isWhitespace` and `CharMatcher.whitespace()` differ on exactly eight
      characters: the controls U+001C to U+001F are only Java whitespace, and U+0085 and the
      no-break spaces U+00A0, U+2007 and U+202F are only Guava whitespace. */
  lemma WhitespaceSetsDiffer(c: char)
    ensures JavaWhitespace(c) && !GuavaWhitespace(c) <==> '\U{1C}' <= c <= '\U{1F}'
    ensures GuavaWhitespace(c) && !JavaWhitespace(c) <==>
      c == '\U{85}' || c == '\U{A0}' || c == '\U{2007}' || c == '\U{202F}'
  {
  }

  // ---------------------------------------------------------------- services

  lemma ServiceNamesOfAttribute(servicesAttribute: string, defaultServices: set<string>, name: string)
    requires !IsBlank(servicesAttribute)
    ensures name in ServiceNames(Some(servicesAttribute), defaultServices) <==>
      name in TrimOmitEmpty(Split(servicesAttribute, ','))
  {
  }

  /** Which names end up in the service set: the defaults for a blank attribute, otherwise
      the non-empty trimmed pieces between commas. */
  lemma ServiceNamesMembership(servicesAttribute: Option<string>, defaultServices: set<string>, name: string)
    ensures IsBlankValue(servicesAttribute) ==>
      (name in ServiceNames(servicesAttribute, defaultServices) <==> name in defaultServices)
    ensures !IsBlankValue(servicesAttribute) ==>
      (name in ServiceNames(servicesAttribute, defaultServices) <==>
        name != [] && exists k | 0 <= k < |Split(servicesAttribute.value, ',')| ::
          Trim(Split(servicesAttribute.value, ',')[k]) == name)
  {
    if !IsBlankValue(servicesAttribute) {
      ServiceNamesOfAttribute(servicesAttribute.value, defaultServices, name);
      TrimOmitEmptyMembership(Split(servicesAttribute.value, ','), name);
    }
  }

  /** A service name read from the attribute is never empty, holds no comma and carries no
      surrounding whitespace. */
  lemma ServiceNamesAreClean(servicesAttribute: string, defaultServices: set<string>, name: string)
    requires !IsBlank(servicesAttribute)
    requires name in ServiceNames(Some(servicesAttribute), defaultServices)
    ensures name != [] && ',' !in name
    ensures !GuavaWhitespace(name[0]) && !GuavaWhitespace(name[|name| - 1])
  {
    var pieces := Split(servicesAttribute, ',');
    ServiceNamesOfAttribute(servicesAttribute, defaultServices, name);
    TrimOmitEmptyMembership(pieces, name);
    var k :| 0 <= k < |pieces| && Trim(pieces[k]) == name;
    SplitPiecesLackSeparator(servicesAttribute, ',');
    if ',' in name {
      TrimKeepsChars(pieces[k], ',');
    }
  }

  /** A comma-separated list of clean names gives back exactly those names. */
  lemma ServicesOfNameList(names: seq<string>, defaultServices: set<string>)
    requires |names| >= 1
    requires forall k | 0 <= k < |names| :: IsTrimmedName(names[k]) && ',' !in names[k]
    requires !IsBlank(Join(names, ','))
    ensures ServiceNames(Some(Join(names, ',')), defaultServices) == set k | 0 <= k < |names| :: names[k]
  {
    SplitJoin(names, ',');
    TrimOmitEmptyKeepsTrimmed(names);
    var r := ServiceNames(Some(Join(names, ',')), defaultServices);
    assert r == set name | name in names;
    forall name | name in r ensures exists k | 0 <= k < |names| :: names[k] == name {
      assert name in names;
    }
  }

  /** A value that is not blank for `StringUtils.isBlank` but holds only commas and
      characters `trimResults()` strips yields no names, and the defaults are not consulted
      either. */
  lemma OnlySeparatorsYieldNoServices(servicesAttribute: string, defaultServices: set<string>)
    requires !IsBlank(servicesAttribute)
    requires forall i | 0 <= i < |servicesAttribute| ::
      servicesAttribute[i] == ',' || GuavaWhitespace(servicesAttribute[i])
    ensures ServiceNames(Some(servicesAttribute), defaultServices) == {}
  {
    SplitOfSeparatorsAndBlanks(servicesAttribute, ',');
    TrimOmitEmptyOfBlankPieces(Split(servicesAttribute, ','));
  }

  /** A value of no-break spaces alone is not blank for `StringUtils.isBlank`, so the
      defaults are not used, yet `trimResults()` strips it: no names at all. */
  lemma NoBreakSpaceYieldsNoServices(defaultServices: set<string>)
    ensures !IsBlankValue(Some(['\U{A0}']))
    ensures ServiceNames(Some(['\U{A0}']), defaultServices) == {}
  {
    assert !IsBlank(['\U{A0}']) by { assert !JavaWhitespace(['\U{A0}'][0]); }
    OnlySeparatorsYieldNoServices(['\U{A0}'], defaultServices);
  }

  /** The two notions of whitespace disagree: the control characters U+001C to U+001F are
      whitespace for `StringUtils.isBlank` but not for `trimResults()`, so after a comma they
      survive trimming and are read as a service name. */
  lemma ControlCharactersBecomeServiceNames(defaultServices: set<string>)
    ensures ServiceNames(Some([',', '\U{1C}']), defaultServices) == {['\U{1C}']}
  {
    var s := [',', '\U{1C}'];
    var name := ['\U{1C}'];
    assert !IsBlank(s) by { assert !JavaWhitespace(s[0]); }
    assert Split(s, ',') == ["", name] by {
      assert s[1..] == name && name[1..] == [];
      assert Split([], ',') == [""];
      assert name + "" == name;
      assert Split(name, ',') == [name];
      assert Split(s, ',') == [""] + Split(name, ',');
    }
    assert TrimOmitEmpty(["", name]) == [name] by {
      assert !GuavaWhitespace(name[0]);
      assert SkipLeading(name, 0) == 0 && SkipTrailing(name, 0, 1) == 1;
      assert Trim(name) == name;
      assert Trim("") == [];
      assert ["", name][1..] == [name] && [name][1..] == [];
      assert TrimOmitEmpty([name]) == [name] + TrimOmitEmpty([]);
      assert TrimOmitEmpty(["", name]) == [] + TrimOmitEmpty([name]);
    }
    assert Distinct([name]) == {name};
  }

  /** `setModuleServices` runs exactly when the name set is non-empty, and then holds every
      name's module descriptor and nothing else. */
  lemma ReadAttributesServices(b: BuilderState, attributes: map<string, string>, env: Environment)
    ensures var r := ReadAttributesSpec(b, attributes, env);
      var names := ServiceNames(GetAttributeValue(attributes, ATTRIBUTE_SERVICES), env.defaultServices);
      && (names == {} ==> r.moduleServices == b.moduleServices)
      && (names != {} ==>
            && r.moduleServices.Some?
            && forall d :: d in r.moduleServices.value <==>
                 exists name | name in names :: env.getDefDescriptor(name, MODULE) == d)
  {
  }

  // ---------------------------------------------------------------- preload, track

  /** The namespace a preload pattern names, if it has the `markup://<ns>:*` shape. */
  function PreloadNamespace(pattern: string): Option<string> {
    if |pattern| >= 11 && pattern[..9] == "markup://" && pattern[|pattern| - 2..] == ":*"
    then Some(pattern[9..|pattern| - 2])
    else None
  }

  /** The preload pattern determines its namespace: `PreloadNamespace` reads it back, and
      no other namespace builds the same pattern. */
  lemma PreloadPatternRoundTrip(namespace: string, pattern: string)
    ensures PreloadNamespace(PreloadPattern(namespace)) == Some(namespace)
    ensures PreloadNamespace(pattern) == Some(namespace) ==> PreloadPattern(namespace) == pattern
  {
    var p := PreloadPattern(namespace);
    assert p[..9] == "markup://" && p[|p| - 2..] == ":*" && p[9..|p| - 2] == namespace;
    if PreloadNamespace(pattern) == Some(namespace) {
      assert pattern == pattern[..9] + pattern[9..|pattern| - 2] + pattern[|pattern| - 2..];
    }
  }

  /** Distinct namespaces give distinct preload filters. */
  lemma DistinctNamespacesGiveDistinctFilters(a: string, b: string)
    ensures PreloadFilter(a) == PreloadFilter(b) ==> a == b
  {
    PreloadPatternRoundTrip(a, PreloadPattern(b));
    PreloadPatternRoundTrip(b, PreloadPattern(b));
  }

  /** A non-blank `preload` appends one filter per listed item, in order, after the existing
      dependencies; a blank one appends nothing. */
  lemma ReadAttributesPreload(b: BuilderState, attributes: map<string, string>, env: Environment)
    ensures var r := ReadAttributesSpec(b, attributes, env);
      var value := GetAttributeValue(attributes, ATTRIBUTE_PRELOAD);
      && (IsBlankValue(value) ==> r.dependencies == b.dependencies)
      && (!IsBlankValue(value) ==>
           var items := env.splitSimple(value.value);
           && |r.dependencies| == |b.dependencies| + |items|
           && r.dependencies[..|b.dependencies|] == b.dependencies
           && forall k | 0 <= k < |items| ::
                r.dependencies[|b.dependencies| + k] ==
                  DescriptorFilter("markup://" + items[k] + ":*", [APPLICATION, COMPONENT, EVENT, STYLE]))
  {
    var value := GetAttributeValue(attributes, ATTRIBUTE_PRELOAD);
    if !IsBlankValue(value) {
      var items := env.splitSimple(value.value);
      forall k | 0 <= k < |items|
        ensures MapSeq(PreloadFilter, items)[k] ==
          DescriptorFilter("markup://" + items[k] + ":*", [APPLICATION, COMPONENT, EVENT, STYLE])
      {
        MapSeqAt(PreloadFilter, items, k);
      }
    }
  }

  /** A non-blank `track` appends one component descriptor per listed item, in order; a blank
      one appends nothing. */
  lemma ReadAttributesTrack(b: BuilderState, attributes: map<string, string>, env: Environment)
    ensures var r := ReadAttributesSpec(b, attributes, env);
      var value := GetAttributeValue(attributes, ATTRIBUTE_TRACK);
      && (IsBlankValue(value) ==> r.trackedDependencies == b.trackedDependencies)
      && (!IsBlankValue(value) ==>
           var items := env.splitSimple(value.value);
           && |r.trackedDependencies| == |b.trackedDependencies| + |items|
           && r.trackedDependencies[..|b.trackedDependencies|] == b.trackedDependencies
           && forall k | 0 <= k < |items| ::
                r.trackedDependencies[|b.trackedDependencies| + k] == env.getDefDescriptor(items[k], COMPONENT))
  {
    var value := GetAttributeValue(attributes, ATTRIBUTE_TRACK);
    if !IsBlankValue(value) {
      var items := env.splitSimple(value.value);
      forall k | 0 <= k < |items|
        ensures TrackedDescriptors(items, env)[k] == env.getDefDescriptor(items[k], COMPONENT)
      {
        MapSeqAt((name: string) => env.getDefDescriptor(name, COMPONENT), items, k);
      }
    }
  }

  // ---------------------------------------------------------------- single-valued fields

  /** `locationChangeEvent`: a blank value leaves the descriptor as it was; any other value
      sets it to the value's event descriptor. */
  lemma LocationChangeEventField(b: BuilderState, attributes: map<string, string>, env: Environment)
    ensures IsBlankValue(GetAttributeValue(attributes, ATTRIBUTE_LOCATION_CHANGE_EVENT)) ==>
      ReadAttributesSpec(b, attributes, env).locationChangeEventDescriptor == b.locationChangeEventDescriptor
    ensures !IsBlankValue(GetAttributeValue(attributes, ATTRIBUTE_LOCATION_CHANGE_EVENT)) ==>
      ReadAttributesSpec(b, attributes, env).locationChangeEventDescriptor ==
        Some(env.getDefDescriptor(attributes[ATTRIBUTE_LOCATION_CHANGE_EVENT], EVENT))
  {
  }

  /** `useAppcache`: a blank value leaves the flag as it was; any other value sets it to
      whether the value is "true" in some letter case. */
  lemma AppcacheEnabledField(b: BuilderState, attributes: map<string, string>, env: Environment)
    ensures IsBlankValue(GetAttributeValue(attributes, ATTRIBUTE_APPCACHE_ENABLED)) ==>
      ReadAttributesSpec(b, attributes, env).isAppcacheEnabled == b.isAppcacheEnabled
    ensures !IsBlankValue(GetAttributeValue(attributes, ATTRIBUTE_APPCACHE_ENABLED)) ==>
      ReadAttributesSpec(b, attributes, env).isAppcacheEnabled ==
        Some(LowerAscii(attributes[ATTRIBUTE_APPCACHE_ENABLED]) == "true")
  {
  }

  /** `additionalAppCacheURLs`: a blank value leaves the field as it was; any other value is
      stored as it is. */
  lemma AdditionalAppCacheURLsField(b: BuilderState, attributes: map<string, string>, env: Environment)
    ensures IsBlankValue(GetAttributeValue(attributes, ATTRIBUTE_ADDITIONAL_APPCACHE_URLS)) ==>
      ReadAttributesSpec(b, attributes, env).additionalAppCacheURLs == b.additionalAppCacheURLs
    ensures !IsBlankValue(GetAttributeValue(attributes, ATTRIBUTE_ADDITIONAL_APPCACHE_URLS)) ==>
      ReadAttributesSpec(b, attributes, env).additionalAppCacheURLs ==
        Some(attributes[ATTRIBUTE_ADDITIONAL_APPCACHE_URLS])
  {
  }

  /** `tokens`: a blank value leaves the overrides as they were; any other value is handed
      to the builder as it is. */
  lemma TokenOverridesField(b: BuilderState, attributes: map<string, string>, env: Environment)
    ensures IsBlankValue(GetAttributeValue(attributes, ATTRIBUTE_TOKEN_OVERRIDES)) ==>
      ReadAttributesSpec(b, attributes, env).tokenOverrides == b.tokenOverrides
    ensures !IsBlankValue(GetAttributeValue(attributes, ATTRIBUTE_TOKEN_OVERRIDES)) ==>
      ReadAttributesSpec(b, attributes, env).tokenOverrides == Some(attributes[ATTRIBUTE_TOKEN_OVERRIDES])
  {
  }

  /** `bootstrapPublicCacheExpiration`: a blank value leaves the field as it was; any other
      value is stored as it is. */
  lemma BootstrapPublicCacheExpirationField(b: BuilderState, attributes: map<string, string>, env: Environment)
    ensures IsBlankValue(GetAttributeValue(attributes, ATTRIBUTE_BOOTSTRAP_PUBLIC_CACHE_EXPIRATION)) ==>
      ReadAttributesSpec(b, attributes, env).bootstrapPublicCacheExpiration == b.bootstrapPublicCacheExpiration
    ensures !IsBlankValue(GetAttributeValue(attributes, ATTRIBUTE_BOOTSTRAP_PUBLIC_CACHE_EXPIRATION)) ==>
      ReadAttributesSpec(b, attributes, env).bootstrapPublicCacheExpiration ==
        Some(attributes[ATTRIBUTE_BOOTSTRAP_PUBLIC_CACHE_EXPIRATION])
  {
  }

  /** `useAppcache` is parsed without trimming: " true" is not blank and reads as false,
      while "TRUE" reads as true. */
  lemma AppcacheValueIsNotTrimmed(b: BuilderState, env: Environment)
    ensures ReadAttributesSpec(b, map[ATTRIBUTE_APPCACHE_ENABLED := " true"], env).isAppcacheEnabled == Some(false)
    ensures ReadAttributesSpec(b, map[ATTRIBUTE_APPCACHE_ENABLED := "TRUE"], env).isAppcacheEnabled == Some(true)
  {
    assert !JavaWhitespace('t');
    assert !IsBlank(" true") by { assert " true"[1] == 't'; }
    assert !IsBlank("TRUE") by { assert "TRUE"[0] == 'T'; }
    assert LowerAscii(" true")[0] == ' ';
    assert LowerAscii("TRUE") == "true";
  }

  // ---------------------------------------------------------------- flavors

  /** An explicit `flavorOverrides` wins; otherwise the bundled flavors are used; otherwise
      the field is left as it was. */
  lemma FlavorOverridesPriority(b: BuilderState, attributes: map<string, string>, env: Environment)
    ensures var r := ReadAttributesSpec(b, attributes, env);
      var value := GetAttributeValue(attributes, ATTRIBUTE_FLAVOR_OVERRIDES);
      && (!IsBlankValue(value) ==>
            r.flavorOverrides == Some(OverridesByDescriptor(env.getDefDescriptor(value.value, FLAVORS))))
      && (IsBlankValue(value) && env.bundledFlavors.Some? ==>
            r.flavorOverrides == Some(OverridesByDef(env.bundledFlavors.value)))
      && (IsBlankValue(value) && env.bundledFlavors.None? ==> r.flavorOverrides == b.flavorOverrides)
  {
  }

  // ---------------------------------------------------------------- nothing else changes

  /** The attributes `readAttributes` looks at. */
  const READ_ATTRIBUTES: set<string> :=
    INTERNAL_APPLICATION_ATTRIBUTES + {ATTRIBUTE_APPCACHE_ENABLED, ATTRIBUTE_ADDITIONAL_APPCACHE_URLS}

  /** Any other attribute has no effect on what `readAttributes` writes. */
  lemma OtherAttributesAreIgnored(b: BuilderState, attributes: map<string, string>, env: Environment,
                                  name: string, value: string)
    requires name !in READ_ATTRIBUTES
    ensures ReadAttributesSpec(b, attributes[name := value], env) == ReadAttributesSpec(b, attributes, env)
  {
    var updated := attributes[name := value];
    forall a | a in READ_ATTRIBUTES ensures GetAttributeValue(updated, a) == GetAttributeValue(attributes, a) {
    }
  }

  /** A tag with no attributes changes only the module services (to the configured defaults,
      when there are any) and the flavor overrides (to the bundled flavors, when present). */
  lemma EmptyTagSetsOnlyDefaults(b: BuilderState, env: Environment)
    ensures var r := ReadAttributesSpec(b, map[], env);
      r == b.(moduleServices := if env.defaultServices == {} then b.moduleServices
                                else Some(ServiceDescriptors(env.defaultServices, env)),
              flavorOverrides := if env.bundledFlavors.None? then b.flavorOverrides
                                 else Some(OverridesByDef(env.bundledFlavors.value)))
  {
  }
}
