# ApplicationDefHandler model

A Dafny model of the attribute logic of Aura's `ApplicationDefHandler`, the markup handler for
the `<aura:application>` tag. The handler does three things, and the model covers each one:

- **Allow-lists.** It picks the public or the internal attribute allow-list, depending on
  whether the tag's namespace is internal. It widens that list with any extra attributes the
  definition-parser adapter supplies.
- **Reading attributes.** `readAttributes` copies the tag's raw attribute strings onto the
  application definition builder:
  - the `preload`, `track` and comma-separated `services` lists become per-item
    dependencies;
  - a blank `services` falls back to the configured default services;
  - an explicit `flavorOverrides` wins over a flavors definition bundled with the app;
  - a blank attribute never touches its field.
- **Tag facts.** The handled tag name and the script-allowed flag are constants.

Modules:

- `Wrappers`: `Option`. `None` stands for Java `null`.
- `JavaText`: the string tests the handler relies on:
  - `Character.isWhitespace`, with its character set as of Java 9 (Unicode 6.3 and later)
    written out;
  - `StringUtils.isBlank`;
  - `String.equalsIgnoreCase`;
  - `Boolean.parseBoolean`.
- `GuavaSplitter`: Guava's `Splitter.on(',').trimResults().omitEmptyStrings()`. It splits
  at every separator, trims each piece with `CharMatcher.whitespace()` and drops the pieces
  left empty. Guava's whitespace set is not Java's: it has U+0085 and the no-break spaces,
  and it lacks U+001C to U+001F. The module proves that splitting and joining are inverse.
- `ApplicationBuilder`: the fields of `ApplicationDefImpl.Builder` that the handler writes,
  as a class. `State()` is the snapshot value `BuilderState`. The class also has the
  builder's add and set methods.
- `ApplicationDefHandler`: the attribute-name constants and both allow-lists.
  - `getAllowedAttributes`, `getHandledTag`, `getAllowsScript` and
    `allowAuthenticationAttribute`.
  - `ReadAttributesSpec`: a pure function from the builder state before `readAttributes`
    to the state after it, built from one step function per attribute.
  - `ReadAttributes`: the imperative method. It is split into one step method per attribute,
    with the preload, track and service loops. Each step is proved to change the builder
    exactly as its step function says.
- `ApplicationDefHandlerProperties`: the lemmas about the allow-lists and about
  `ReadAttributesSpec`.

The definition service (`getDefDescriptor`), `AuraTextUtil.splitSimple`, the config
adapter's default services, `getBundledDef`, and the adapter's extra allowed attributes are
defined outside `ApplicationDefHandler` and are parameters here: the `Environment` datatype,
and the arguments of `GetAllowedAttributes`. The base component handler's two allow-lists are a
parameter too (`BaseAllowLists`).

Consequences of the source as written, which the lemmas make explicit:

- A `services` value that `StringUtils.isBlank` calls non-blank, but that holds only commas
  and characters Guava's `trimResults()` strips (such as `" , "`), yields no names. The
  default services are not used either (`OnlySeparatorsYieldNoServices`). A value made only
  of Java whitespace (`Character.isWhitespace`) is blank, and then the defaults are used.
  A value made only of no-break spaces, such as `"\u00A0"`, is not blank and yields no
  names (`NoBreakSpaceYieldsNoServices`).
- The two whitespace tests disagree (`WhitespaceSetsDiffer`). The controls U+001C to U+001F
  are whitespace for `isBlank` but not for `trimResults()`. So after a comma they become a
  service name: `",\u001C"` yields the one name `"\u001C"`
  (`ControlCharactersBecomeServiceNames`).
- `useAppcache` is parsed without trimming: `" true"` reads as false
  (`AppcacheValueIsNotTrimmed`).

## Model

| member | source | states |
|---|---|---|
| ApplicationDefHandler.GetAllowedAttributes | aura-impl/src/main/java/org/auraframework/impl/root/parser/handler/ApplicationDefHandler.java:84-93 | the result contains the namespace's base list and the adapter's extras (when not null), and nothing else |
| ApplicationDefHandlerProperties.InternalNamespaceAllowsMore | aura-impl/src/main/java/org/auraframework/impl/root/parser/handler/ApplicationDefHandler.java:84-93 | for the same extras, an internal tag allows every attribute a public tag allows |
| ApplicationDefHandlerProperties.InternalOnlyAttributeIsRefusedOutside | aura-impl/src/main/java/org/auraframework/impl/root/parser/handler/ApplicationDefHandler.java:62-73 | an internal-only attribute is refused on a public tag unless the base list or the extras allow it, and is allowed on an internal tag |
| ApplicationDefHandler.AllowedAttributes | aura-impl/src/main/java/org/auraframework/impl/root/parser/handler/ApplicationDefHandler.java:62-65 | the public list holds useAppcache, additionalAppCacheURLs and template and the whole base public list, and nothing else |
| ApplicationDefHandler.InternalAllowedAttributes | aura-impl/src/main/java/org/auraframework/impl/root/parser/handler/ApplicationDefHandler.java:67-73 | the internal list holds the public list, the eight internal-only attributes and the base internal list, and nothing else |
| ApplicationDefHandler.GetHandledTag | aura-impl/src/main/java/org/auraframework/impl/root/parser/handler/ApplicationDefHandler.java:96-98 | the handled tag is "aura:application" |
| ApplicationDefHandler.GetAllowsScript | aura-impl/src/main/java/org/auraframework/impl/root/parser/handler/ApplicationDefHandler.java:106-108 | embedded scripts are allowed |
| ApplicationDefHandler.AllowAuthenticationAttribute | aura-impl/src/main/java/org/auraframework/impl/root/parser/handler/ApplicationDefHandler.java:192-194 | the authentication attribute is allowed |
| ApplicationDefHandler.ReadAttributes | aura-impl/src/main/java/org/auraframework/impl/root/parser/handler/ApplicationDefHandler.java:110-189 | the builder ends in exactly the state ReadAttributesSpec gives for its old state, the attributes and the environment |
| ApplicationDefHandler.ReadIntoNewBuilder | aura-impl/src/main/java/org/auraframework/impl/root/parser/handler/ApplicationDefHandler.java:76-81 | the builder the handler creates and readAttributes then fills ends in ReadAttributesSpec of the empty builder state, assuming a new builder has all nine fields null or empty and that super.readAttributes() writes none of them |
| ApplicationDefHandler.ReadAttributesSpec | aura-impl/src/main/java/org/auraframework/impl/root/parser/handler/ApplicationDefHandler.java:110-189 | no contract of its own: the specification of readAttributes, one field per attribute; ReadAttributes is proved to produce it and the lemmas below state each field |
| ApplicationDefHandler.GetAttributeValue | aura-impl/src/main/java/org/auraframework/impl/root/parser/handler/ApplicationDefHandler.java:114 | no contract of its own: the raw value of an attribute the tag carries, null for one it does not |
| ApplicationDefHandler.LocationChangeEventAfter | aura-impl/src/main/java/org/auraframework/impl/root/parser/handler/ApplicationDefHandler.java:114-118 | no contract of its own: the old descriptor for a blank value, else the EVENT descriptor of the value; stated by LocationChangeEventField |
| ApplicationDefHandler.DependenciesAfter | aura-impl/src/main/java/org/auraframework/impl/root/parser/handler/ApplicationDefHandler.java:120-127 | no contract of its own: the old list, extended for a non-blank value by one filter per split item; stated by ReadAttributesPreload |
| ApplicationDefHandler.PreloadPattern | aura-impl/src/main/java/org/auraframework/impl/root/parser/handler/ApplicationDefHandler.java:124 | no contract of its own: the pattern "markup://" + item + ":*"; stated by PreloadPatternRoundTrip and ReadAttributesPreload |
| ApplicationDefHandler.PreloadFilter | aura-impl/src/main/java/org/auraframework/impl/root/parser/handler/ApplicationDefHandler.java:124-125 | no contract of its own: the filter of that pattern over APPLICATION, COMPONENT, EVENT and STYLE; stated by ReadAttributesPreload and DistinctNamespacesGiveDistinctFilters |
| ApplicationDefHandler.TrackedDependenciesAfter | aura-impl/src/main/java/org/auraframework/impl/root/parser/handler/ApplicationDefHandler.java:129-136 | no contract of its own: the old list, extended for a non-blank value by one COMPONENT descriptor per split item; stated by ReadAttributesTrack |
| ApplicationDefHandler.TrackedDescriptors | aura-impl/src/main/java/org/auraframework/impl/root/parser/handler/ApplicationDefHandler.java:132-134 | no contract of its own: the COMPONENT descriptor of each listed name, in order; stated by ReadAttributesTrack |
| ApplicationDefHandler.ServiceNames | aura-impl/src/main/java/org/auraframework/impl/root/parser/handler/ApplicationDefHandler.java:138-146 | no contract of its own: the defaults for a blank value, else the distinct trimmed non-empty pieces; stated by ServiceNamesMembership |
| ApplicationDefHandler.ServiceDescriptors | aura-impl/src/main/java/org/auraframework/impl/root/parser/handler/ApplicationDefHandler.java:149-151 | no contract of its own: the MODULE descriptor of each name; stated by ReadAttributesServices |
| ApplicationDefHandler.ModuleServicesAfter | aura-impl/src/main/java/org/auraframework/impl/root/parser/handler/ApplicationDefHandler.java:148-153 | no contract of its own: unchanged when there are no names, else the names' descriptors; stated by ReadAttributesServices |
| ApplicationDefHandler.AppcacheEnabledAfter | aura-impl/src/main/java/org/auraframework/impl/root/parser/handler/ApplicationDefHandler.java:155-158 | no contract of its own: the old flag for a blank value, else parseBoolean of the value; stated by AppcacheEnabledField |
| ApplicationDefHandler.StringFieldAfter | aura-impl/src/main/java/org/auraframework/impl/root/parser/handler/ApplicationDefHandler.java:160-168 | no contract of its own: the old value for a blank value, else the raw value; stated by AdditionalAppCacheURLsField, TokenOverridesField and BootstrapPublicCacheExpirationField |
| ApplicationDefHandler.FlavorOverridesAfter | aura-impl/src/main/java/org/auraframework/impl/root/parser/handler/ApplicationDefHandler.java:170-178 | no contract of its own: the explicit descriptor, else the bundled flavors, else the old value; stated by FlavorOverridesPriority |
| ApplicationDefHandler.ReadLocationChangeEvent | aura-impl/src/main/java/org/auraframework/impl/root/parser/handler/ApplicationDefHandler.java:114-118 | only the location-change event descriptor changes, to LocationChangeEventAfter of the old descriptor and the attribute value |
| ApplicationDefHandler.ReadPreload | aura-impl/src/main/java/org/auraframework/impl/root/parser/handler/ApplicationDefHandler.java:120-127 | the loop appends one filter per split item, in order: only the dependencies change, to DependenciesAfter of the old list and the attribute value |
| ApplicationDefHandler.ReadTrack | aura-impl/src/main/java/org/auraframework/impl/root/parser/handler/ApplicationDefHandler.java:129-136 | the loop appends one component descriptor per split item, in order: only the tracked list changes, to TrackedDependenciesAfter of the old list and the attribute value |
| ApplicationDefHandler.ReadServices | aura-impl/src/main/java/org/auraframework/impl/root/parser/handler/ApplicationDefHandler.java:138-153 | only the module services change, to ModuleServicesAfter: set exactly when the collected names are non-empty |
| ApplicationDefHandler.ReadAppcacheAttributes | aura-impl/src/main/java/org/auraframework/impl/root/parser/handler/ApplicationDefHandler.java:155-163 | only the appcache flag and the additional URLs change, to AppcacheEnabledAfter and StringFieldAfter of their old values and the attribute values |
| ApplicationDefHandler.ReadTokenOverrides | aura-impl/src/main/java/org/auraframework/impl/root/parser/handler/ApplicationDefHandler.java:165-168 | only the token overrides change, to StringFieldAfter of the old value and the attribute value |
| ApplicationDefHandler.ReadFlavorOverrides | aura-impl/src/main/java/org/auraframework/impl/root/parser/handler/ApplicationDefHandler.java:170-178 | only the flavor overrides change, to FlavorOverridesAfter of the old value, the attribute value and the bundled flavors |
| ApplicationDefHandler.ReadBootstrapPublicCacheExpiration | aura-impl/src/main/java/org/auraframework/impl/root/parser/handler/ApplicationDefHandler.java:180-183 | only the bootstrap cache expiration changes, to StringFieldAfter of the old value and the attribute value |
| ApplicationDefHandler.AddServiceNames | aura-impl/src/main/java/org/auraframework/impl/root/parser/handler/ApplicationDefHandler.java:141-143 | the loop adds every name to the set, duplicates collapse, and nothing else enters it |
| ApplicationDefHandler.CollectServiceNames | aura-impl/src/main/java/org/auraframework/impl/root/parser/handler/ApplicationDefHandler.java:138-146 | the loop's hash set equals ServiceNames: the split, trimmed, non-empty names for a non-blank attribute, the defaults for a blank one |
| ApplicationDefHandlerProperties.ServiceNamesMembership | aura-impl/src/main/java/org/auraframework/impl/root/parser/handler/ApplicationDefHandler.java:138-146 | a name is collected iff it is a default (blank attribute), or iff it is non-empty and is the trimmed form of some comma-separated piece (non-blank attribute) |
| ApplicationDefHandlerProperties.ServiceNamesAreClean | aura-impl/src/main/java/org/auraframework/impl/root/parser/handler/ApplicationDefHandler.java:140-143 | every name taken from a non-blank attribute is non-empty, has no comma and has no surrounding whitespace |
| ApplicationDefHandlerProperties.ServicesOfNameList | aura-impl/src/main/java/org/auraframework/impl/root/parser/handler/ApplicationDefHandler.java:140-143 | a comma-joined list of clean names yields exactly the set of those names, duplicates collapsed |
| ApplicationDefHandlerProperties.OnlySeparatorsYieldNoServices | aura-impl/src/main/java/org/auraframework/impl/root/parser/handler/ApplicationDefHandler.java:138-146 | every value that isBlank calls non-blank but that holds only commas and Guava whitespace yields no names, and the defaults are not used |
| ApplicationDefHandlerProperties.NoBreakSpaceYieldsNoServices | aura-impl/src/main/java/org/auraframework/impl/root/parser/handler/ApplicationDefHandler.java:138-146 | the value "\u00A0" is not blank, so the defaults are not used, and it yields no names |
| ApplicationDefHandlerProperties.ControlCharactersBecomeServiceNames | aura-impl/src/main/java/org/auraframework/impl/root/parser/handler/ApplicationDefHandler.java:138-146 | the value ",\u001C" is not blank, and U+001C survives trimming, so it yields the one name "\u001C" |
| ApplicationDefHandlerProperties.WhitespaceSetsDiffer | aura-impl/src/main/java/org/auraframework/impl/root/parser/handler/ApplicationDefHandler.java:140-141 | isBlank's and trimResults()' whitespace sets differ on exactly U+001C to U+001F (Java only) and U+0085, U+00A0, U+2007, U+202F (Guava only) |
| ApplicationDefHandlerProperties.ReadAttributesServices | aura-impl/src/main/java/org/auraframework/impl/root/parser/handler/ApplicationDefHandler.java:148-153 | with no names the module services are unchanged; otherwise they are set to exactly the module descriptors of the names |
| ApplicationDefHandlerProperties.PreloadPatternRoundTrip | aura-impl/src/main/java/org/auraframework/impl/root/parser/handler/ApplicationDefHandler.java:124-125 | the pattern markup://ns:* determines ns: reading it back gives ns, and no other namespace builds the same pattern |
| ApplicationDefHandlerProperties.DistinctNamespacesGiveDistinctFilters | aura-impl/src/main/java/org/auraframework/impl/root/parser/handler/ApplicationDefHandler.java:124-125 | distinct preload namespaces give distinct dependency filters |
| ApplicationDefHandlerProperties.ReadAttributesPreload | aura-impl/src/main/java/org/auraframework/impl/root/parser/handler/ApplicationDefHandler.java:120-127 | a blank preload adds nothing; otherwise the old dependencies are kept and the k-th split item adds the filter markup://item:* over APPLICATION, COMPONENT, EVENT and STYLE |
| ApplicationDefHandlerProperties.ReadAttributesTrack | aura-impl/src/main/java/org/auraframework/impl/root/parser/handler/ApplicationDefHandler.java:129-136 | a blank track adds nothing; otherwise the old tracked list is kept and the k-th split item adds its component descriptor |
| ApplicationDefHandlerProperties.LocationChangeEventField | aura-impl/src/main/java/org/auraframework/impl/root/parser/handler/ApplicationDefHandler.java:114-118 | blank: descriptor unchanged; non-blank: the value's event descriptor |
| ApplicationDefHandlerProperties.AppcacheEnabledField | aura-impl/src/main/java/org/auraframework/impl/root/parser/handler/ApplicationDefHandler.java:155-158 | blank: flag unchanged; non-blank: true iff the value lower-cases to "true" |
| ApplicationDefHandlerProperties.AppcacheValueIsNotTrimmed | aura-impl/src/main/java/org/auraframework/impl/root/parser/handler/ApplicationDefHandler.java:155-158 | " true" sets the flag to false and "TRUE" sets it to true |
| ApplicationDefHandlerProperties.AdditionalAppCacheURLsField | aura-impl/src/main/java/org/auraframework/impl/root/parser/handler/ApplicationDefHandler.java:160-163 | blank: field unchanged; non-blank: the raw value |
| ApplicationDefHandlerProperties.TokenOverridesField | aura-impl/src/main/java/org/auraframework/impl/root/parser/handler/ApplicationDefHandler.java:165-168 | blank: overrides unchanged; non-blank: the raw value |
| ApplicationDefHandlerProperties.BootstrapPublicCacheExpirationField | aura-impl/src/main/java/org/auraframework/impl/root/parser/handler/ApplicationDefHandler.java:180-183 | blank: field unchanged; non-blank: the raw value |
| ApplicationDefHandlerProperties.FlavorOverridesPriority | aura-impl/src/main/java/org/auraframework/impl/root/parser/handler/ApplicationDefHandler.java:170-178 | a non-blank flavorOverrides sets its descriptor; otherwise the bundled flavors are used if present; otherwise the field is unchanged |
| ApplicationDefHandlerProperties.OtherAttributesAreIgnored | aura-impl/src/main/java/org/auraframework/impl/root/parser/handler/ApplicationDefHandler.java:110-189 | adding or changing an attribute other than the ten readAttributes reads leaves the resulting builder state the same |
| ApplicationDefHandlerProperties.EmptyTagSetsOnlyDefaults | aura-impl/src/main/java/org/auraframework/impl/root/parser/handler/ApplicationDefHandler.java:110-189 | a tag with no attributes changes only the module services (to the defaults, if any) and the flavor overrides (to the bundled flavors, if present) |
| JavaText.ParseBoolean | aura-impl/src/main/java/org/auraframework/impl/root/parser/handler/ApplicationDefHandler.java:157 | Boolean.parseBoolean is true exactly when the value lower-cases to "true"; no trimming |
| JavaText.EqualsIgnoreCase | aura-impl/src/main/java/org/auraframework/impl/root/parser/handler/ApplicationDefHandler.java:157 | no contract of its own: String.equalsIgnoreCase, same length and each pair of characters equal, equal upper-cased, or equal upper- then lower-cased; related to LowerAscii by ParseBoolean |
| JavaText.LowerAsciiIdempotent | aura-impl/src/main/java/org/auraframework/impl/root/parser/handler/ApplicationDefHandler.java:157 | the ASCII lower-casing by which ParseBoolean is stated is idempotent: lower-casing twice is the same as once |
| JavaText.JavaWhitespace | aura-impl/src/main/java/org/auraframework/impl/root/parser/handler/ApplicationDefHandler.java:115 | no contract of its own: Character.isWhitespace, by which StringUtils.isBlank tests each character; compared with Guava's set by WhitespaceSetsDiffer |
| JavaText.IsBlankValue | aura-impl/src/main/java/org/auraframework/impl/root/parser/handler/ApplicationDefHandler.java:115 | no contract of its own: StringUtils.isBlank, true for null and for an all-whitespace value |
| GuavaSplitter.Split | aura-impl/src/main/java/org/auraframework/impl/root/parser/handler/ApplicationDefHandler.java:141 | there is at least one piece |
| GuavaSplitter.SplitPiecesLackSeparator | aura-impl/src/main/java/org/auraframework/impl/root/parser/handler/ApplicationDefHandler.java:141 | no split piece contains the separator |
| GuavaSplitter.JoinSplit | aura-impl/src/main/java/org/auraframework/impl/root/parser/handler/ApplicationDefHandler.java:141 | rejoining the split pieces with the separator gives back the input |
| GuavaSplitter.SplitJoin | aura-impl/src/main/java/org/auraframework/impl/root/parser/handler/ApplicationDefHandler.java:141 | splitting pieces joined by a separator that none of them contains gives back the pieces |
| GuavaSplitter.GuavaWhitespace | aura-impl/src/main/java/org/auraframework/impl/root/parser/handler/ApplicationDefHandler.java:141 | no contract of its own: CharMatcher.whitespace(), which trimResults() strips; compared with Java's set by WhitespaceSetsDiffer |
| GuavaSplitter.Trim | aura-impl/src/main/java/org/auraframework/impl/root/parser/handler/ApplicationDefHandler.java:141 | the trimmed piece is empty iff the piece is all whitespace, and otherwise starts and ends with non-whitespace |
| GuavaSplitter.TrimIsSlice | aura-impl/src/main/java/org/auraframework/impl/root/parser/handler/ApplicationDefHandler.java:141 | the trimmed piece is a slice of the piece with only whitespace before and after it, which with Trim's own ensures fixes its value |
| GuavaSplitter.SplitOfSeparatorsAndBlanks | aura-impl/src/main/java/org/auraframework/impl/root/parser/handler/ApplicationDefHandler.java:141 | text made only of separators and whitespace splits into pieces of whitespace only |
| GuavaSplitter.TrimOmitEmptyOfBlankPieces | aura-impl/src/main/java/org/auraframework/impl/root/parser/handler/ApplicationDefHandler.java:141 | pieces of whitespace only are all dropped |
| GuavaSplitter.TrimOmitEmpty | aura-impl/src/main/java/org/auraframework/impl/root/parser/handler/ApplicationDefHandler.java:141 | there are no more surviving pieces than pieces |
| GuavaSplitter.SplitTrimOmitEmpty | aura-impl/src/main/java/org/auraframework/impl/root/parser/handler/ApplicationDefHandler.java:141 | no contract of its own: the whole Splitter.on(',').trimResults().omitEmptyStrings() chain, Split then TrimOmitEmpty; stated by ServiceNamesMembership and OnlySeparatorsYieldNoServices |
| GuavaSplitter.TrimOmitEmptyYieldsTrimmedNames | aura-impl/src/main/java/org/auraframework/impl/root/parser/handler/ApplicationDefHandler.java:141 | every surviving piece is non-empty and starts and ends with non-whitespace |
| GuavaSplitter.TrimOmitEmptyKeepsTrimmed | aura-impl/src/main/java/org/auraframework/impl/root/parser/handler/ApplicationDefHandler.java:141 | pieces that are already non-empty and trimmed all survive, unchanged and in order |
| GuavaSplitter.TrimKeepsChars | aura-impl/src/main/java/org/auraframework/impl/root/parser/handler/ApplicationDefHandler.java:141 | trimming only drops characters: each character of the trimmed piece occurs in the piece |
| GuavaSplitter.TrimOmitEmptyMembership | aura-impl/src/main/java/org/auraframework/impl/root/parser/handler/ApplicationDefHandler.java:141 | a name survives iff it is non-empty and is the trimmed form of some piece |
| ApplicationBuilder.Builder.AddDependency | aura-impl/src/main/java/org/auraframework/impl/root/parser/handler/ApplicationDefHandler.java:124-125 | appends one filter to the dependency list and changes nothing else |
| ApplicationBuilder.Builder.AddTrackedDependency | aura-impl/src/main/java/org/auraframework/impl/root/parser/handler/ApplicationDefHandler.java:133-134 | appends one descriptor to the tracked list and changes nothing else |
| ApplicationBuilder.Builder.SetModuleServices | aura-impl/src/main/java/org/auraframework/impl/root/parser/handler/ApplicationDefHandler.java:152 | replaces the module services and changes nothing else |
| ApplicationBuilder.Builder.SetTokenOverrides | aura-impl/src/main/java/org/auraframework/impl/root/parser/handler/ApplicationDefHandler.java:167 | records the token overrides and changes nothing else |
| ApplicationBuilder.Builder.SetFlavorOverrides | aura-impl/src/main/java/org/auraframework/impl/root/parser/handler/ApplicationDefHandler.java:170-178 | records the flavor overrides (by descriptor or by bundled definition) and changes nothing else |
| ApplicationBuilder.Builder.constructor | aura-impl/src/main/java/org/auraframework/impl/root/parser/handler/ApplicationDefHandler.java:80 | a new builder has no fields set and no dependencies; ReadIntoNewBuilder starts from it |

## Left out

- `super.readAttributes()` and the base component handler: the model starts after the base
  class has read its own attributes. Its allow-lists are a parameter. The value of
  `ATTRIBUTE_TEMPLATE`, which it declares, is assumed to be "template".
  BaseComponentDefHandler.java is not part of this model.
- ApplicationDefHandler.ReadIntoNewBuilder: assumes that a new `ApplicationDefImpl.Builder`
  has all nine modelled fields null or empty, and that `super.readAttributes()` (line 112)
  writes none of them. Neither class is part of this model.
- `requiredMinimumVersion` (lines 185-188): it is parsed with `Double.parseDouble`, which is
  floating point. The attribute is in the internal allow-list and among the attributes
  `readAttributes` reads, but no builder field for it is modelled. Nor is the
  `NumberFormatException` that a non-blank value which is not a number throws out of
  `readAttributes`.
- `definitionService.getDefDescriptor`, `AuraTextUtil.splitSimple`,
  `configAdapter.getDefaultServices`, `getBundledDef` and
  `definitionParserAdapter.getAdditionalAllowedAttributes` are uninterpreted parameters.
  Any exception they may throw is not modelled: a `QuickFixException`, a runtime failure of
  `getDefDescriptor`, a null `getDefaultServices()`, or a null inside the extras (which
  `ImmutableSet` refuses).
- `getAttributeValue` is a map lookup. A missing attribute is null. Reading the XML stream
  (`XMLStreamReader`) is out of scope, and so are the dependency-injected adapters. Of the
  constructor, only the new `ApplicationDefImpl.Builder` it hands on is modelled
  (`ReadIntoNewBuilder`).
- `ApplicationDefImpl.Builder` is not part of this model. Its add and set methods are assumed
  to append or store their argument.
- `new DescriptorFilter(pattern, defTypes)` (line 124) is a plain record of its two
  arguments. Its constructor is defined outside this handler and may parse or reject the
  pattern. Neither is modelled.
- JavaText.JavaWhitespace: follows Java 9 and later. Under Java 8 (Unicode 6.2),
  `Character.isWhitespace` also accepts U+180E, which the model does not.
- Java strings are sequences of UTF-16 code units; here they are sequences of Unicode scalar
  values. None of the whitespace characters involved lies outside the Basic Multilingual
  Plane.
- JavaText.ParseBoolean: case mapping is ASCII-only. No non-ASCII character upper- or
  lower-cases to a letter of "true", so this is exact for `Boolean.parseBoolean`.
- The iteration order of `HashSet` and `ImmutableSet` is not modelled. The model uses
  mathematical sets, and nothing in the handler depends on that order.
- FlavoredStyleParser.java is a thin wrapper around a CSS preprocessor and a style adapter.
  Both are defined outside `ApplicationDefHandler`, and the parser is not part of this model.
- DirectiveBasedJavascriptGroupTest.java tests a JavaScript bundler through files,
  timestamps and gold files. The bundler's source is not part of this model.
