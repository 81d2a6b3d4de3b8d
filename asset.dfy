/** The `marmot_asset` resource: its Terraform state model, the catalog's
    asset records, the converters between the two, and the Create, Read,
    Update and Delete handlers over an abstract catalog client. */
module Asset {
  import opened Framework
  import opened Strings
  import opened Dynamic

  // ---------------------------------------------------------------------
  // Terraform state model

  datatype ExternalLinkModel = ExternalLinkModel(icon: TfString, name: TfString, url: TfString)

  datatype AssetSourceModel = AssetSourceModel(name: TfString, priority: TfInt64, properties: TfMap)

  datatype AssetEnvironmentModel = AssetEnvironmentModel(name: TfString, path: TfString, metadata: TfMap)

  /** `AssetResourceModel`. A nil Go slice or map (a null list or map
      attribute) is `None`. */
  datatype AssetResourceModel = AssetResourceModel(
    name: TfString,
    assetType: TfString,
    description: TfString,
    userDescription: TfString,
    services: TfSet,
    tags: TfSet,
    metadata: TfMap,
    schema: TfMap,
    externalLinks: Option<seq<ExternalLinkModel>>,
    sources: Option<seq<AssetSourceModel>>,
    environments: Option<map<string, AssetEnvironmentModel>>,
    id: TfString,
    createdAt: TfString,
    createdBy: TfString,
    updatedAt: TfString,
    lastSyncAt: TfString,
    mrn: TfString,
    parentMrn: TfString,
    query: TfString,
    queryLanguage: TfString,
    hasRunHistory: TfBool,
    isStub: TfBool)

  // ---------------------------------------------------------------------
  // Catalog records

  /** `models.AssetExternalLink`. */
  datatype ExternalLink = ExternalLink(icon: string, name: string, url: string)

  /** `models.AssetAssetSource`; `properties` is an `interface{}` that is
      `None` when nil or not a `map[string]interface{}`. */
  datatype Source = Source(name: string, priority: int, properties: Option<map<string, Dyn>>)

  /** `models.AssetEnvironment`. */
  datatype Environment = Environment(name: string, path: string, metadata: Option<map<string, Dyn>>)

  /** `models.V1AssetsCreateRequest`; an absent (nil) field is `None`. */
  datatype CreateRequest = CreateRequest(
    name: string,
    assetType: string,
    description: string,
    providers: seq<string>,
    tags: Option<seq<string>>,
    metadata: Option<map<string, Dyn>>,
    schema: Option<map<string, string>>,
    externalLinks: Option<seq<ExternalLink>>,
    sources: Option<seq<Source>>,
    environments: Option<map<string, Environment>>)

  /** `models.V1AssetsUpdateRequest`. */
  datatype UpdateRequest = UpdateRequest(
    name: string,
    assetType: string,
    description: string,
    userDescription: string,
    providers: seq<string>,
    tags: Option<seq<string>>,
    metadata: Option<map<string, Dyn>>,
    schema: Option<map<string, string>>,
    externalLinks: Option<seq<ExternalLink>>,
    sources: Option<seq<Source>>,
    environments: Option<map<string, Environment>>)

  /** `models.AssetAsset`, the record the catalog returns. Nil and empty
      slices and maps are both the empty value; `metadata` is `None` when
      nil or not a `map[string]interface{}`. */
  datatype AssetRecord = AssetRecord(
    id: string,
    name: string,
    assetType: string,
    description: string,
    createdAt: string,
    createdBy: string,
    updatedAt: string,
    mrn: string,
    userDescription: string,
    parentMrn: string,
    query: string,
    queryLanguage: string,
    hasRunHistory: bool,
    isStub: bool,
    lastSyncAt: string,
    providers: seq<string>,
    tags: seq<string>,
    metadata: Option<map<string, Dyn>>,
    schema: map<string, string>,
    externalLinks: seq<ExternalLink>,
    sources: seq<Source>,
    environments: map<string, Environment>)

  // ---------------------------------------------------------------------
  // Attribute maps to request maps

  predicate IsKnownString(e: Element)
  {
    e.StringElement? && e.str.StringValue?
  }

  /** The entries of a map attribute that are known strings, with their values. */
  function KnownStrings(elements: map<string, Element>): map<string, string>
  {
    map k | k in elements && IsKnownString(elements[k]) :: elements[k].str.value
  }

  predicate HasNonString(elements: map<string, Element>)
  {
    exists k :: k in elements && !elements[k].StringElement?
  }

  /** `k` is the first key, in sorted order, whose element is not a string. */
  predicate FirstNonString(elements: map<string, Element>, k: string)
  {
    && k in elements && !elements[k].StringElement?
    && forall k' :: k' in elements && !elements[k'].StringElement? ==> Below(k, k')
  }

  /** A map attribute converts to a request dictionary unless it is known
      and holds an element that is not a string. */
  predicate Convertible(m: TfMap)
  {
    !(m.MapValue? && HasNonString(m.elements))
  }

  function AsDyn(m: map<string, string>): map<string, Dyn>
  {
    map k | k in m :: DString(m[k])
  }

  /** The dictionary `mapToDictionary` produces when it succeeds, and `None`
      (absent) otherwise. */
  function Dictionary(m: TfMap): Option<map<string, Dyn>>
  {
    if m.MapValue? && !HasNonString(m.elements) && KnownStrings(m.elements) != map[]
    then Some(AsDyn(KnownStrings(m.elements)))
    else None
  }

  function TypeConversionError(typeName: string): Diagnostic
  {
    Diagnostic("Type Conversion Error", "Expected string value, got " + typeName, None)
  }

  /** A request dictionary is never present and empty; when present it holds
      exactly the known string entries of the attribute, with their values. */
  lemma DictionaryExact(m: TfMap)
    ensures Dictionary(m) != Some(map[])
    ensures Dictionary(m).Some? <==>
              Convertible(m) && m.MapValue? && exists k :: k in m.elements && IsKnownString(m.elements[k])
    ensures Dictionary(m).Some? ==>
              forall k :: k in Dictionary(m).value <==> k in m.elements && IsKnownString(m.elements[k])
    ensures Dictionary(m).Some? ==>
              forall k :: k in Dictionary(m).value ==> Dictionary(m).value[k] == DString(m.elements[k].str.value)
  {
    if m.MapValue? {
      var known := KnownStrings(m.elements);
      if known != map[] {
        var k :| k in known;
        assert k in AsDyn(known);
      }
      if exists k :: k in m.elements && IsKnownString(m.elements[k]) {
        var k :| k in m.elements && IsKnownString(m.elements[k]);
        assert k in known;
      }
    }
  }

  /** The keys of a map in Go's map-iteration order, which is arbitrary. */
  method KeysOf<V>(m: map<string, V>) returns (keys: seq<string>)
    ensures forall k :: k in keys <==> k in m
  {
    keys := [];
    var rest := m.Keys;
    while rest != {}
      invariant rest <= m.Keys
      invariant forall k :: k in keys <==> k in m && k !in rest
      decreases rest
    {
      var k :| k in rest;
      keys := keys + [k];
      rest := rest - {k};
    }
  }

  /** The keys of a map, sorted: `keys = append(keys, k)` over the map, then
      `sort.Strings(keys)`. */
  method SortedKeys<V>(m: map<string, V>) returns (keys: seq<string>)
    ensures Sorted(keys)
    ensures forall k :: k in keys <==> k in m
  {
    var unsorted := KeysOf(m);
    keys := SortedCopy(unsorted);
    forall k
      ensures k in keys <==> k in unsorted
    {
      assert k in keys <==> k in multiset(keys);
      assert k in unsorted <==> k in multiset(unsorted);
    }
  }

  /** When the scan of the sorted keys stops at its first non-string
      element, that element's key is the least such key. */
  lemma ScanStopsAtFirst(elements: map<string, Element>, keys: seq<string>, i: int)
    requires Sorted(keys) && forall k :: k in keys <==> k in elements
    requires 0 <= i < |keys|
    requires forall j :: 0 <= j < i ==> elements[keys[j]].StringElement?
    requires !elements[keys[i]].StringElement?
    ensures FirstNonString(elements, keys[i])
  {
    forall k' | k' in elements && !elements[k'].StringElement?
      ensures Below(keys[i], k')
    {
      var j :| 0 <= j < |keys| && keys[j] == k';
      if j == i {
        BelowReflexive(k');
      }
    }
  }

  /** When the scan passes every key, it has kept exactly the known strings. */
  lemma ScanComplete(elements: map<string, Element>, keys: seq<string>, result: map<string, Dyn>)
    requires forall k :: k in keys <==> k in elements
    requires forall j :: 0 <= j < |keys| ==> elements[keys[j]].StringElement?
    requires forall j :: 0 <= j < |keys| && IsKnownString(elements[keys[j]]) ==> keys[j] in result
    requires forall k :: k in result ==> k in elements && IsKnownString(elements[k]) && result[k] == DString(elements[k].str.value)
    ensures !HasNonString(elements)
    ensures result == AsDyn(KnownStrings(elements))
  {
    forall k | k in elements
      ensures elements[k].StringElement?
    {
      var j :| 0 <= j < |keys| && keys[j] == k;
    }
  }

  /** `mapToDictionary`: null, unknown and empty maps are absent; otherwise the
      keys are visited in sorted order, the first non-string element aborts
      with a type conversion error, null and unknown strings are dropped, and
      an empty result is absent. */
  method MapToDictionary(m: TfMap) returns (dict: Option<map<string, Dyn>>, diags: seq<Diagnostic>)
    ensures dict == Dictionary(m)
    ensures Convertible(m) ==> diags == []
    ensures !Convertible(m) ==>
              && |diags| == 1
              && exists k :: FirstNonString(m.elements, k) && diags[0] == TypeConversionError(m.elements[k].typeName)
  {
    if m.MapNull? || m.MapUnknown? {
      return None, [];
    }
    var elements := m.elements;
    if |elements| == 0 {
      assert !HasNonString(elements);
      return None, [];
    }
    var keys := SortedKeys(elements);
    var result: map<string, Dyn> := map[];
    var i := 0;
    while i < |keys|
      invariant 0 <= i <= |keys|
      invariant forall j :: 0 <= j < i ==> elements[keys[j]].StringElement?
      invariant forall j :: 0 <= j < i && IsKnownString(elements[keys[j]]) ==> keys[j] in result
      invariant forall k :: k in result ==> k in elements && IsKnownString(elements[k]) && result[k] == DString(elements[k].str.value)
    {
      var k := keys[i];
      var v := elements[k];
      if !v.StringElement? {
        ScanStopsAtFirst(elements, keys, i);
        return None, [TypeConversionError(v.typeName)];
      }
      if v.str.StringValue? {
        result := result[k := DString(v.str.value)];
      }
      i := i + 1;
    }
    ScanComplete(elements, keys, result);
    if |result| == 0 {
      return None, [];
    }
    return Some(result), [];
  }

  /** `mapToStringMap`: like `mapToDictionary` on well-typed maps, but an
      element that is not a string is skipped instead of raising an error. */
  method MapToStringMap(m: TfMap) returns (r: Option<map<string, string>>)
    ensures r.Some? <==> m.MapValue? && KnownStrings(m.elements) != map[]
    ensures r.Some? ==> r.value == KnownStrings(m.elements)
    ensures Convertible(m) ==> Dictionary(m) == if r.Some? then Some(AsDyn(r.value)) else None
  {
    if m.MapNull? || m.MapUnknown? {
      return None;
    }
    var elements := m.elements;
    if |elements| == 0 {
      return None;
    }
    var result: map<string, string> := map[];
    var rest := elements.Keys;
    while rest != {}
      invariant rest <= elements.Keys
      invariant forall k :: k in result <==> k in elements && k !in rest && IsKnownString(elements[k])
      invariant forall k :: k in result ==> result[k] == elements[k].str.value
      decreases rest
    {
      var k :| k in rest;
      var v := elements[k];
      if v.StringElement? && v.str.StringValue? {
        result := result[k := v.str.value];
      }
      rest := rest - {k};
    }
    assert result == KnownStrings(elements);
    if |result| == 0 {
      return None;
    }
    return Some(result);
  }

  // ---------------------------------------------------------------------
  // Nested records to request records

  function LinkRequest(link: ExternalLinkModel): ExternalLink
  {
    ExternalLink(ValueString(link.icon), ValueString(link.name), ValueString(link.url))
  }

  /** What `convertExternalLinks` produces: absent for no links, otherwise
      one record per link, in order, a null icon sent as `""`. */
  predicate LinksFor(links: Option<seq<ExternalLinkModel>>, r: Option<seq<ExternalLink>>)
  {
    && (r.None? <==> links.None? || |links.value| == 0)
    && (r.Some? ==>
          && |r.value| == |links.value|
          && forall i :: 0 <= i < |r.value| ==> r.value[i] == LinkRequest(links.value[i]))
  }

  method ConvertExternalLinks(links: Option<seq<ExternalLinkModel>>) returns (r: Option<seq<ExternalLink>>)
    ensures LinksFor(links, r)
    ensures r.Some? ==> forall i :: 0 <= i < |r.value| ==>
              (!links.value[i].icon.IsKnown() ==> r.value[i].icon == "")
  {
    if links.None? || |links.value| == 0 {
      return None;
    }
    var input := links.value;
    var result := new ExternalLink[|input|];
    for i := 0 to |input|
      invariant forall j :: 0 <= j < i ==> result[j] == LinkRequest(input[j])
    {
      var link := input[i];
      var icon := "";
      if link.icon.IsKnown() {
        icon := link.icon.value;
      }
      result[i] := ExternalLink(icon, ValueString(link.name), ValueString(link.url));
    }
    return Some(result[..]);
  }

  function SourceRequest(source: AssetSourceModel): Source
  {
    Source(ValueString(source.name), ValueInt64(source.priority), Dictionary(source.properties))
  }

  /** What `convertSources` produces: absent for no sources, otherwise one
      record per source, in order, a null priority sent as `0`. */
  predicate SourcesFor(sources: Option<seq<AssetSourceModel>>, r: Option<seq<Source>>)
  {
    && (r.None? <==> sources.None? || |sources.value| == 0)
    && (r.Some? ==>
          && |r.value| == |sources.value|
          && forall i :: 0 <= i < |r.value| ==> r.value[i] == SourceRequest(sources.value[i]))
  }

  predicate SourcesConvertible(sources: Option<seq<AssetSourceModel>>)
  {
    sources.Some? ==> forall i :: 0 <= i < |sources.value| ==> Convertible(sources.value[i].properties)
  }

  predicate AllTypeConversion(diags: seq<Diagnostic>)
  {
    forall i :: 0 <= i < |diags| ==> diags[i].summary == "Type Conversion Error"
  }

  method ConvertSources(sources: Option<seq<AssetSourceModel>>) returns (r: Option<seq<Source>>, diags: seq<Diagnostic>)
    ensures SourcesFor(sources, r)
    ensures r.Some? ==> forall i :: 0 <= i < |r.value| ==>
              (!sources.value[i].priority.Int64Value? ==> r.value[i].priority == 0)
    ensures diags == [] <==> SourcesConvertible(sources)
    ensures AllTypeConversion(diags)
  {
    diags := [];
    if sources.None? || |sources.value| == 0 {
      return None, diags;
    }
    var input := sources.value;
    var result := new Source[|input|];
    for i := 0 to |input|
      invariant forall j :: 0 <= j < i ==> result[j] == SourceRequest(input[j])
      invariant diags == [] <==> forall j :: 0 <= j < i ==> Convertible(input[j].properties)
      invariant AllTypeConversion(diags)
    {
      var source := input[i];
      var props, propDiags := MapToDictionary(source.properties);
      diags := diags + propDiags;
      var priority := 0;
      if source.priority.Int64Value? {
        priority := source.priority.value;
      }
      result[i] := Source(ValueString(source.name), priority, props);
    }
    return Some(result[..]), diags;
  }

  function EnvironmentRequest(env: AssetEnvironmentModel): Environment
  {
    Environment(ValueString(env.name), ValueString(env.path), Dictionary(env.metadata))
  }

  /** What `convertEnvironments` produces: absent for no environments,
      otherwise the same keys, each with its name and path. */
  predicate EnvironmentsFor(envs: Option<map<string, AssetEnvironmentModel>>, r: Option<map<string, Environment>>)
  {
    && (r.None? <==> envs.None? || |envs.value| == 0)
    && (r.Some? ==>
          && r.value.Keys == envs.value.Keys
          && forall k :: k in r.value ==> r.value[k] == EnvironmentRequest(envs.value[k]))
  }

  predicate EnvironmentsConvertible(envs: Option<map<string, AssetEnvironmentModel>>)
  {
    envs.Some? ==> forall k :: k in envs.value ==> Convertible(envs.value[k].metadata)
  }

  method ConvertEnvironments(envs: Option<map<string, AssetEnvironmentModel>>)
    returns (r: Option<map<string, Environment>>, diags: seq<Diagnostic>)
    ensures EnvironmentsFor(envs, r)
    ensures diags == [] <==> EnvironmentsConvertible(envs)
    ensures AllTypeConversion(diags)
  {
    diags := [];
    if envs.None? || |envs.value| == 0 {
      return None, diags;
    }
    var input := envs.value;
    var result: map<string, Environment> := map[];
    var rest := input.Keys;
    while rest != {}
      invariant rest <= input.Keys
      invariant forall k :: k in result <==> k in input && k !in rest
      invariant forall k :: k in result ==> result[k] == EnvironmentRequest(input[k])
      invariant diags == [] <==> forall k :: k in result ==> Convertible(input[k].metadata)
      invariant AllTypeConversion(diags)
      decreases rest
    {
      var k :| k in rest;
      var env := input[k];
      var metadata, mdDiags := MapToDictionary(env.metadata);
      assert mdDiags == [] <==> Convertible(env.metadata);
      diags := diags + mdDiags;
      result := result[k := Environment(ValueString(env.name), ValueString(env.path), metadata)];
      rest := rest - {k};
    }
    assert result.Keys == input.Keys;
    return Some(result), diags;
  }

  // ---------------------------------------------------------------------
  // Requests

  /** `a` holds the strings of `s` in ascending order. */
  predicate SortedPermutation(a: seq<string>, s: seq<string>)
  {
    Sorted(a) && multiset(a) == multiset(s)
  }

  /** Tags are sent sorted when the set is known, and absent otherwise. */
  predicate TagsFor(tags: TfSet, r: Option<seq<string>>)
  {
    && (r.None? <==> !tags.SetValue?)
    && (r.Some? ==> SortedPermutation(r.value, tags.elements))
  }

  function SchemaRequest(schema: TfMap): Option<map<string, string>>
  {
    if schema.MapValue? && KnownStrings(schema.elements) != map[] then Some(KnownStrings(schema.elements)) else None
  }

  /** The fields `toCreateRequest` and `toUpdateRequest` fill alike. */
  predicate CommonFields(
    data: AssetResourceModel, name: string, assetType: string, description: string,
    providers: seq<string>, tags: Option<seq<string>>, metadata: Option<map<string, Dyn>>,
    schema: Option<map<string, string>>, externalLinks: Option<seq<ExternalLink>>,
    sources: Option<seq<Source>>, environments: Option<map<string, Environment>>)
  {
    && name == ValueString(data.name)
    && assetType == ValueString(data.assetType)
    && description == ValueString(data.description)
    && SortedPermutation(providers, ElementsAs(data.services).0)
    && TagsFor(data.tags, tags)
    && metadata == Dictionary(data.metadata)
    && schema == SchemaRequest(data.schema)
    && LinksFor(data.externalLinks, externalLinks)
    && SourcesFor(data.sources, sources)
    && EnvironmentsFor(data.environments, environments)
  }

  predicate CreateRequestFor(data: AssetResourceModel, req: CreateRequest)
  {
    CommonFields(data, req.name, req.assetType, req.description, req.providers, req.tags,
                 req.metadata, req.schema, req.externalLinks, req.sources, req.environments)
  }

  /** `toUpdateRequest` also sends the user description, `""` when it is null
      or unknown. */
  predicate UpdateRequestFor(data: AssetResourceModel, req: UpdateRequest)
  {
    && CommonFields(data, req.name, req.assetType, req.description, req.providers, req.tags,
                    req.metadata, req.schema, req.externalLinks, req.sources, req.environments)
    && req.userDescription == ValueString(data.userDescription)
  }

  /** The plan converts without an error diagnostic: the services set is not
      unknown and no dictionary holds an element that is not a string. */
  predicate RequestConvertible(data: AssetResourceModel)
  {
    && !data.services.SetUnknown?
    && Convertible(data.metadata)
    && SourcesConvertible(data.sources)
    && EnvironmentsConvertible(data.environments)
  }

  /** The first steps of `toCreateRequest` and `toUpdateRequest`: services
      sorted, and tags sorted when the set is known. */
  method SortedServicesAndTags(data: AssetResourceModel)
    returns (services: seq<string>, tags: Option<seq<string>>, diags: seq<Diagnostic>)
    ensures SortedPermutation(services, ElementsAs(data.services).0)
    ensures TagsFor(data.tags, tags)
    ensures diags == [] <==> !data.services.SetUnknown?
  {
    var elements := ElementsAs(data.services).0;
    diags := ElementsAs(data.services).1;
    services := SortedCopy(elements);
    tags := None;
    if data.tags.SetValue? {
      var sortedTags := SortedCopy(data.tags.elements);
      tags := Some(sortedTags);
    }
  }

  /** The remaining steps both requests share: the dictionaries, the schema
      and the nested records. */
  method RequestMaps(data: AssetResourceModel)
    returns (metadata: Option<map<string, Dyn>>, schema: Option<map<string, string>>,
             externalLinks: Option<seq<ExternalLink>>, sources: Option<seq<Source>>,
             environments: Option<map<string, Environment>>, diags: seq<Diagnostic>)
    ensures metadata == Dictionary(data.metadata)
    ensures schema == SchemaRequest(data.schema)
    ensures LinksFor(data.externalLinks, externalLinks)
    ensures SourcesFor(data.sources, sources)
    ensures EnvironmentsFor(data.environments, environments)
    ensures diags == [] <==>
              Convertible(data.metadata) && SourcesConvertible(data.sources) && EnvironmentsConvertible(data.environments)
  {
    var metadataDiags, sourceDiags, envDiags;
    metadata, metadataDiags := MapToDictionary(data.metadata);
    schema := MapToStringMap(data.schema);
    externalLinks := ConvertExternalLinks(data.externalLinks);
    sources, sourceDiags := ConvertSources(data.sources);
    environments, envDiags := ConvertEnvironments(data.environments);
    diags := metadataDiags + sourceDiags + envDiags;
  }

  /** `toCreateRequest`. */
  method ToCreateRequest(data: AssetResourceModel) returns (req: CreateRequest, diags: seq<Diagnostic>)
    ensures CreateRequestFor(data, req)
    ensures diags == [] <==> RequestConvertible(data)
  {
    var services, tags, setDiags := SortedServicesAndTags(data);
    var metadata, schema, links, sources, envs, mapDiags := RequestMaps(data);
    diags := setDiags + mapDiags;
    req := CreateRequest(ValueString(data.name), ValueString(data.assetType), ValueString(data.description),
                         services, tags, metadata, schema, links, sources, envs);
  }

  /** `toUpdateRequest`. */
  method ToUpdateRequest(data: AssetResourceModel) returns (req: UpdateRequest, diags: seq<Diagnostic>)
    ensures UpdateRequestFor(data, req)
    ensures diags == [] <==> RequestConvertible(data)
  {
    var services, tags, setDiags := SortedServicesAndTags(data);
    var metadata, schema, links, sources, envs, mapDiags := RequestMaps(data);
    diags := setDiags + mapDiags;
    var userDescription := "";
    if data.userDescription.IsKnown() {
      userDescription := data.userDescription.value;
    }
    req := UpdateRequest(ValueString(data.name), ValueString(data.assetType), ValueString(data.description),
                         userDescription, services, tags, metadata, schema, links, sources, envs);
  }

  // ---------------------------------------------------------------------
  // Catalog records to state

  /** Time parsing and formatting (`time.Parse` with RFC 3339 and `Format`
      with six fractional digits), which is not part of this model: `None`
      when the text does not parse. */
  type Reformat = string -> Option<string>

  /** `normalizeTimestamp`: the empty string stays empty, unparsable text is
      kept as it is, and parsable text is reformatted. */
  function NormalizeTimestamp(timestamp: string, reformat: Reformat): (r: string)
    ensures timestamp == "" ==> r == ""
    ensures timestamp != "" && reformat(timestamp).None? ==> r == timestamp
  {
    if timestamp == "" then ""
    else match reformat(timestamp)
      case None => timestamp
      case Some(formatted) => formatted
  }

  /** `NullIfEmpty` undoes `ValueString` on a null or non-empty value, and
      `ValueString` undoes `NullIfEmpty` on any text. */
  lemma NullIfEmptyRoundTrip(t: TfString, s: string)
    ensures t.StringNull? || (t.StringValue? && t.value != "") ==> NullIfEmpty(ValueString(t)) == t
    ensures ValueString(NullIfEmpty(s)) == s
    ensures NullIfEmpty(s).StringNull? <==> s == ""
  {
  }

  /** The text `convertMapToStringMapSorted` keeps for each key. */
  function CoercedMap(m: map<string, Dyn>): map<string, string>
  {
    map k | k in m && Coerce(m[k]).Some? :: Coerce(m[k]).value
  }

  /** Keys with a nil or empty-string value are dropped; integers are kept
      in decimal, booleans as `true`/`false`, non-empty strings verbatim. */
  lemma CoercedMapFacts(m: map<string, Dyn>, k: string)
    requires k in m
    ensures m[k].DNil? || m[k] == DString("") ==> k !in CoercedMap(m)
    ensures m[k].DString? && m[k].s != "" ==> k in CoercedMap(m) && CoercedMap(m)[k] == m[k].s
    ensures m[k].DInt? ==> k in CoercedMap(m) && ParseDecimal(CoercedMap(m)[k]) == m[k].i
    ensures m[k].DBool? ==> k in CoercedMap(m) && CoercedMap(m)[k] == (if m[k].b then "true" else "false")
  {
    CoerceFacts(m[k]);
  }

  /** `convertMapToStringMapSorted`: visits the keys in sorted order and keeps
      each value's text as `Coerce` gives it. A nil map gives an empty map. */
  method ConvertMapToStringMapSorted(m: map<string, Dyn>) returns (r: map<string, string>)
    ensures r.Keys <= m.Keys
    ensures forall k :: k in m ==> (k in r <==> Coerce(m[k]).Some?)
    ensures forall k :: k in r ==> Some(r[k]) == Coerce(m[k])
  {
    r := map[];
    var keys := SortedKeys(m);
    for i := 0 to |keys|
      invariant forall k :: k in r <==> k in keys[..i] && Coerce(m[k]).Some?
      invariant forall k :: k in r ==> Some(r[k]) == Coerce(m[k])
    {
      var k := keys[i];
      match m[k] {
        case DNil =>
        case DString(s) =>
          if s != "" {
            r := r[k := s];
          }
        case DInt(n) =>
          r := r[k := Decimal(n)];
        case DFloat(fixed6, _) =>
          r := r[k := fixed6];
        case DBool(b) =>
          r := r[k := BoolText(b)];
        case DOther(general) =>
          if general != "" {
            r := r[k := general];
          }
      }
      assert keys[..i + 1] == keys[..i] + [k];
    }
    assert keys[..|keys|] == keys;
  }

  function LinkState(link: ExternalLink): ExternalLinkModel
  {
    ExternalLinkModel(NullIfEmpty(link.icon), StringValue(link.name), StringValue(link.url))
  }

  /** `convertModelExternalLinks`: one link per record, in order, an empty
      icon becoming null. */
  method ConvertModelExternalLinks(links: seq<ExternalLink>) returns (r: seq<ExternalLinkModel>)
    ensures |r| == |links|
    ensures forall i :: 0 <= i < |r| ==> r[i] == LinkState(links[i])
  {
    if |links| == 0 {
      return [];
    }
    var result := new ExternalLinkModel[|links|];
    for i := 0 to |links|
      invariant forall j :: 0 <= j < i ==> result[j] == LinkState(links[j])
    {
      var link := links[i];
      var icon := StringNull;
      if link.icon != "" {
        icon := StringValue(link.icon);
      }
      result[i] := ExternalLinkModel(icon, StringValue(link.name), StringValue(link.url));
    }
    return result[..];
  }

  /** The state of a record's property or metadata map: null when absent or
      empty, otherwise the coerced text of each entry. */
  function DynMapState(m: Option<map<string, Dyn>>): TfMap
  {
    if m.Some? && |m.value| > 0 then StringMapValue(CoercedMap(m.value)) else MapNull
  }

  function SourceState(source: Source): AssetSourceModel
  {
    AssetSourceModel(StringValue(source.name), Int64Value(source.priority), DynMapState(source.properties))
  }

  /** `convertModelSources`: one source per record, in order. */
  method ConvertModelSources(sources: seq<Source>) returns (r: seq<AssetSourceModel>)
    ensures |r| == |sources|
    ensures forall i :: 0 <= i < |r| ==> r[i] == SourceState(sources[i])
  {
    if |sources| == 0 {
      return [];
    }
    var result := new AssetSourceModel[|sources|];
    for i := 0 to |sources|
      invariant forall j :: 0 <= j < i ==> result[j] == SourceState(sources[j])
    {
      var source := sources[i];
      var properties := MapNull;
      if source.properties.Some? && |source.properties.value| > 0 {
        var props := ConvertMapToStringMapSorted(source.properties.value);
        assert props == CoercedMap(source.properties.value);
        properties := StringMapValue(props);
      }
      result[i] := AssetSourceModel(StringValue(source.name), Int64Value(source.priority), properties);
    }
    return result[..];
  }

  function EnvironmentState(env: Environment): AssetEnvironmentModel
  {
    AssetEnvironmentModel(StringValue(env.name), StringValue(env.path), DynMapState(env.metadata))
  }

  /** `convertModelEnvironments`: the same keys, each with its name and path. */
  method ConvertModelEnvironments(envs: map<string, Environment>) returns (r: map<string, AssetEnvironmentModel>)
    ensures r.Keys == envs.Keys
    ensures forall k :: k in r ==> r[k] == EnvironmentState(envs[k])
  {
    r := map[];
    var rest := envs.Keys;
    while rest != {}
      invariant rest <= envs.Keys
      invariant r.Keys == envs.Keys - rest
      invariant forall k :: k in r ==> r[k] == EnvironmentState(envs[k])
      decreases rest
    {
      var k :| k in rest;
      var env := envs[k];
      var metadata := MapNull;
      if env.metadata.Some? && |env.metadata.value| > 0 {
        var meta := ConvertMapToStringMapSorted(env.metadata.value);
        assert meta == CoercedMap(env.metadata.value);
        metadata := StringMapValue(meta);
      }
      r := r[k := AssetEnvironmentModel(StringValue(env.name), StringValue(env.path), metadata)];
      rest := rest - {k};
    }
  }

  /** A record whose providers and tags convert to sets: neither repeats a
      string. */
  predicate RecordConvertible(asset: AssetRecord)
  {
    !Repeats(asset.providers) && !Repeats(asset.tags)
  }

  /** The diagnostics `updateModelFromResponse` returns: one per list that
      repeats a string, providers first. */
  function RecordDiagnostics(asset: AssetRecord): (r: seq<Diagnostic>)
    ensures r == [] <==> RecordConvertible(asset)
    ensures forall i :: 0 <= i < |r| ==> r[i] == DuplicateSetElement
  {
    (if Repeats(asset.providers) then [DuplicateSetElement] else [])
    + (if Repeats(asset.tags) then [DuplicateSetElement] else [])
  }

  /** The state `updateModelFromResponse` writes for a catalog record. Every
      field is overwritten, so nothing of the previous model survives. */
  predicate StateFor(asset: AssetRecord, reformat: Reformat, m: AssetResourceModel)
  {
    ScalarStateFor(asset, reformat, m) && CollectionStateFor(asset, m) && NestedStateFor(asset, m)
  }

  /** The string and boolean attributes of the state. */
  predicate ScalarStateFor(asset: AssetRecord, reformat: Reformat, m: AssetResourceModel)
  {
    && m.id == StringValue(asset.id)
    && m.name == StringValue(asset.name)
    && m.assetType == StringValue(asset.assetType)
    && m.description == StringValue(asset.description)
    && m.createdAt == StringValue(NormalizeTimestamp(asset.createdAt, reformat))
    && m.createdBy == StringValue(asset.createdBy)
    && m.updatedAt == StringValue(NormalizeTimestamp(asset.updatedAt, reformat))
    && m.mrn == StringValue(asset.mrn)
    && m.userDescription == NullIfEmpty(asset.userDescription)
    && m.parentMrn == NullIfEmpty(asset.parentMrn)
    && m.query == NullIfEmpty(asset.query)
    && m.queryLanguage == NullIfEmpty(asset.queryLanguage)
    && m.hasRunHistory == BoolValue(asset.hasRunHistory)
    && m.isStub == BoolValue(asset.isStub)
    && m.lastSyncAt == (if asset.lastSyncAt != "" then StringValue(NormalizeTimestamp(asset.lastSyncAt, reformat)) else StringNull)
  }

  /** The set and map attributes of the state. */
  predicate CollectionStateFor(asset: AssetRecord, m: AssetResourceModel)
  {
    && m.services.SetValue? && SortedPermutation(m.services.elements, asset.providers)
    && m.tags.SetValue? && SortedPermutation(m.tags.elements, asset.tags)
    && m.metadata == StringMapValue(if asset.metadata.Some? then CoercedMap(asset.metadata.value) else map[])
    && m.schema == StringMapValue(asset.schema)
  }

  /** The nested blocks of the state. */
  predicate NestedStateFor(asset: AssetRecord, m: AssetResourceModel)
  {
    && (m.externalLinks.None? <==> |asset.externalLinks| == 0)
    && (m.externalLinks.Some? ==>
          && |m.externalLinks.value| == |asset.externalLinks|
          && forall i :: 0 <= i < |asset.externalLinks| ==> m.externalLinks.value[i] == LinkState(asset.externalLinks[i]))
    && (m.sources.None? <==> |asset.sources| == 0)
    && (m.sources.Some? ==>
          && |m.sources.value| == |asset.sources|
          && forall i :: 0 <= i < |asset.sources| ==> m.sources.value[i] == SourceState(asset.sources[i]))
    && m.environments.Some?
    && m.environments.value.Keys == asset.environments.Keys
    && forall k :: k in asset.environments ==> m.environments.value[k] == EnvironmentState(asset.environments[k])
  }

  /** A set attribute from a record's string slice: sorted when non-empty,
      and an empty known set (never null) otherwise. A repeated string makes
      `SetValueFrom` fail: the set is then unknown and the error reported. */
  method SortedSetValue(s: seq<string>) returns (r: TfSet, diags: seq<Diagnostic>)
    ensures diags == [] <==> !Repeats(s)
    ensures !Repeats(s) ==> r.SetValue? && SortedPermutation(r.elements, s)
    ensures Repeats(s) ==> r == SetUnknown && diags == [DuplicateSetElement]
  {
    if |s| > 0 {
      var sorted := SortedCopy(s);
      RepeatsPermutation(sorted, s);
      r, diags := SetValueFrom(sorted).0, SetValueFrom(sorted).1;
    } else {
      r, diags := SetValueFrom([]).0, SetValueFrom([]).1;
    }
  }

  /** The asset's metadata attribute: the coerced entries of the record's
      metadata, and an empty map (not null) when there are none. */
  method MetadataState(metadata: Option<map<string, Dyn>>) returns (r: TfMap)
    ensures r == StringMapValue(if metadata.Some? then CoercedMap(metadata.value) else map[])
  {
    if metadata.Some? && |metadata.value| > 0 {
      var sortedMeta := ConvertMapToStringMapSorted(metadata.value);
      assert sortedMeta == CoercedMap(metadata.value);
      r := StringMapValue(sortedMeta);
    } else {
      assert metadata.Some? ==> CoercedMap(metadata.value) == map[];
      r := StringMapValue(map[]);
    }
  }

  /** The external links, sources and environments of a record. */
  method NestedState(asset: AssetRecord)
    returns (externalLinks: Option<seq<ExternalLinkModel>>, sources: Option<seq<AssetSourceModel>>,
             environments: map<string, AssetEnvironmentModel>)
    ensures externalLinks.None? <==> |asset.externalLinks| == 0
    ensures externalLinks.Some? ==>
              && |externalLinks.value| == |asset.externalLinks|
              && forall i :: 0 <= i < |asset.externalLinks| ==> externalLinks.value[i] == LinkState(asset.externalLinks[i])
    ensures sources.None? <==> |asset.sources| == 0
    ensures sources.Some? ==>
              && |sources.value| == |asset.sources|
              && forall i :: 0 <= i < |asset.sources| ==> sources.value[i] == SourceState(asset.sources[i])
    ensures environments.Keys == asset.environments.Keys
    ensures forall k :: k in asset.environments ==> environments[k] == EnvironmentState(asset.environments[k])
  {
    externalLinks := None;
    if |asset.externalLinks| > 0 {
      var links := ConvertModelExternalLinks(asset.externalLinks);
      externalLinks := Some(links);
    }
    sources := None;
    if |asset.sources| > 0 {
      var converted := ConvertModelSources(asset.sources);
      sources := Some(converted);
    }
    environments := map[];
    if |asset.environments| > 0 {
      environments := ConvertModelEnvironments(asset.environments);
    }
  }

  /** `updateModelFromResponse`. It assigns every field of the model, so the
      model it is given plays no part and the state is built from the record
      alone, one field at a time. */
  method UpdateModelFromResponse(asset: AssetRecord, reformat: Reformat)
    returns (m: AssetResourceModel, diags: seq<Diagnostic>)
    ensures diags == RecordDiagnostics(asset)
    ensures RecordConvertible(asset) ==> StateFor(asset, reformat, m)
  {
    // Each optional text is null when the catalog sent "" and that text otherwise.
    var userDescription := NullIfEmpty(asset.userDescription);
    var parentMrn := NullIfEmpty(asset.parentMrn);
    var query := NullIfEmpty(asset.query);
    var queryLanguage := NullIfEmpty(asset.queryLanguage);
    var lastSyncAt := if asset.lastSyncAt != "" then StringValue(NormalizeTimestamp(asset.lastSyncAt, reformat)) else StringNull;

    var services, servicesDiags := SortedSetValue(asset.providers);
    var tags, tagsDiags := SortedSetValue(asset.tags);
    diags := servicesDiags + tagsDiags;
    var metadata := MetadataState(asset.metadata);
    var schema := StringMapValue(map[]);
    if |asset.schema| > 0 {
      schema := StringMapValue(asset.schema);
    } else {
      assert asset.schema == map[];
    }
    var externalLinks, sources, environments := NestedState(asset);

    m := AssetResourceModel(
      name := StringValue(asset.name),
      assetType := StringValue(asset.assetType),
      description := StringValue(asset.description),
      userDescription := userDescription,
      services := services,
      tags := tags,
      metadata := metadata,
      schema := schema,
      externalLinks := externalLinks,
      sources := sources,
      environments := Some(environments),
      id := StringValue(asset.id),
      createdAt := StringValue(NormalizeTimestamp(asset.createdAt, reformat)),
      createdBy := StringValue(asset.createdBy),
      updatedAt := StringValue(NormalizeTimestamp(asset.updatedAt, reformat)),
      lastSyncAt := lastSyncAt,
      mrn := StringValue(asset.mrn),
      parentMrn := parentMrn,
      query := query,
      queryLanguage := queryLanguage,
      hasRunHistory := BoolValue(asset.hasRunHistory),
      isStub := BoolValue(asset.isStub));
    assert ScalarStateFor(asset, reformat, m);
    assert RecordConvertible(asset) ==> CollectionStateFor(asset, m);
    assert NestedStateFor(asset, m);
  }

  // ---------------------------------------------------------------------
  // Properties relating the two directions

  /** Services and tags are stable across an apply: a request's sorted
      services, echoed by the catalog, come back as the same sorted set, and
      sending that state again yields the same services. */
  lemma ServicesStable(data: AssetResourceModel, req: CreateRequest, asset: AssetRecord, reformat: Reformat,
                       m: AssetResourceModel, again: CreateRequest)
    requires CreateRequestFor(data, req)
    requires asset.providers == req.providers
    requires StateFor(asset, reformat, m)
    requires CreateRequestFor(m, again)
    ensures m.services == SetValue(req.providers)
    ensures again.providers == req.providers
  {
    SortedUnique(m.services.elements, req.providers);
    SortedUnique(again.providers, req.providers);
  }

  /** Tags are stable across an apply as well. Known tags are sent sorted,
      come back as the same sorted set and are sent again unchanged. Null or
      unknown tags are not sent, and come back as a known empty set rather
      than null; from then on an empty list is sent. */
  lemma TagsStable(data: AssetResourceModel, req: CreateRequest, asset: AssetRecord, reformat: Reformat,
                   m: AssetResourceModel, again: CreateRequest)
    requires CreateRequestFor(data, req)
    requires asset.tags == if req.tags.Some? then req.tags.value else []
    requires StateFor(asset, reformat, m)
    requires CreateRequestFor(m, again)
    ensures req.tags.Some? ==> m.tags == SetValue(req.tags.value) && again.tags == req.tags
    ensures req.tags.None? ==> !data.tags.SetValue? && m.tags == SetValue([]) && again.tags == Some([])
  {
    if req.tags.Some? {
      SortedUnique(m.tags.elements, req.tags.value);
      SortedUnique(again.tags.value, req.tags.value);
    } else {
      assert |multiset(m.tags.elements)| == 0;
      assert |multiset(again.tags.value)| == 0;
    }
  }

  /** A map attribute built from a catalog string map converts back to that
      map: every element is a string, and the known strings are exactly the
      map's entries, so a non-empty one is sent as the same dictionary. */
  lemma StateMapRoundTrip(m: map<string, string>)
    ensures Convertible(StringMapValue(m))
    ensures KnownStrings(StringMapValue(m).elements) == m
    ensures m != map[] ==> Dictionary(StringMapValue(m)) == Some(AsDyn(m))
  {
    assert KnownStrings(StringMapValue(m).elements) == m;
  }

  /** A metadata map with no known string entries is absent on the wire, and
      absent metadata comes back as an empty map, not a null one. */
  lemma MetadataAbsentRoundTrip(data: AssetResourceModel, req: CreateRequest, asset: AssetRecord,
                                reformat: Reformat, m: AssetResourceModel)
    requires CreateRequestFor(data, req)
    requires data.metadata.MapValue? && KnownStrings(data.metadata.elements) == map[]
    requires asset.metadata == req.metadata
    requires StateFor(asset, reformat, m)
    ensures req.metadata.None?
    ensures m.metadata == MapValue(map[])
  {
    assert StringMapValue(map[]).elements == map[];
  }

  /** The user description survives an update round trip: null is sent as
      `""` and comes back null, a non-empty value comes back unchanged. */
  lemma UserDescriptionRoundTrip(data: AssetResourceModel, req: UpdateRequest, asset: AssetRecord,
                                 reformat: Reformat, m: AssetResourceModel)
    requires data.userDescription.StringNull? || (data.userDescription.StringValue? && data.userDescription.value != "")
    requires UpdateRequestFor(data, req)
    requires asset.userDescription == req.userDescription
    requires StateFor(asset, reformat, m)
    ensures m.userDescription == data.userDescription
  {
    NullIfEmptyRoundTrip(data.userDescription, asset.userDescription);
  }

  // ---------------------------------------------------------------------
  // Handlers over an abstract catalog client

  /** The asset endpoints of the generated client; a delete yields the text
      of its error, if any. */
  datatype AssetClient = AssetClient(
    postAssets: CreateRequest -> Reply<AssetRecord>,
    getAssetsID: string -> Reply<AssetRecord>,
    putAssetsID: (string, UpdateRequest) -> Reply<AssetRecord>,
    deleteAssetsID: string -> Option<string>)

  /** One call made on the client, with its arguments. */
  datatype AssetCall =
    | PostAssets(asset: CreateRequest)
    | GetAssetsID(id: string)
    | PutAssetsID(id: string, update: UpdateRequest)
    | DeleteAssetsID(id: string)

  const NoIdReturned := Diagnostic("API Error", "Asset created but no ID returned", None)

  /** The outcome of storing a record: the state built from it when its
      providers and tags convert, and otherwise their errors and no state. */
  predicate Stored(asset: AssetRecord, reformat: Reformat, diags: seq<Diagnostic>, state: Option<AssetResourceModel>)
  {
    && diags == RecordDiagnostics(asset)
    && (RecordConvertible(asset) ==> state.Some? && StateFor(asset, reformat, state.value))
    && (!RecordConvertible(asset) ==> state == None)
  }

  /** `Create`: converts the plan, posts it, rejects a record without an ID,
      and stores the state built from the record. */
  method Create(plan: AssetResourceModel, client: AssetClient, reformat: Reformat)
    returns (diags: seq<Diagnostic>, state: Option<AssetResourceModel>, calls: seq<AssetCall>)
    ensures !RequestConvertible(plan) ==> diags != [] && state == None && calls == []
    ensures RequestConvertible(plan) ==>
              && |calls| == 1 && calls[0].PostAssets? && CreateRequestFor(plan, calls[0].asset)
              && var reply := client.postAssets(calls[0].asset);
              && (reply.Failed? ==> diags == [ClientError("Unable to create asset: " + reply.message)] && state == None)
              && (reply.Ok? && reply.payload.id == "" ==> diags == [NoIdReturned] && state == None)
              && (reply.Ok? && reply.payload.id != "" ==> Stored(reply.payload, reformat, diags, state))
  {
    calls := [];
    state := None;
    var asset;
    asset, diags := ToCreateRequest(plan);
    if diags != [] {
      return;
    }
    calls := calls + [PostAssets(asset)];
    var result := client.postAssets(asset);
    if result.Failed? {
      diags := diags + [ClientError("Unable to create asset: " + result.message)];
      return;
    }
    if result.payload.id == "" {
      diags := diags + [NoIdReturned];
      return;
    }
    var data, updateDiags := UpdateModelFromResponse(result.payload, reformat);
    diags := diags + updateDiags;
    if diags != [] {
      return;
    }
    state := Some(data);
  }

  /** `Read`: an empty ID is rejected before the client is called. */
  method Read(prior: AssetResourceModel, client: AssetClient, reformat: Reformat)
    returns (diags: seq<Diagnostic>, state: Option<AssetResourceModel>, calls: seq<AssetCall>)
    ensures ValueString(prior.id) == "" ==> diags == [ConfigurationError] && state == None && calls == []
    ensures ValueString(prior.id) != "" ==>
              && calls == [GetAssetsID(ValueString(prior.id))]
              && var reply := client.getAssetsID(ValueString(prior.id));
              && (reply.Failed? ==> diags == [ClientError("Unable to read asset: " + reply.message)] && state == None)
              && (reply.Ok? ==> Stored(reply.payload, reformat, diags, state))
  {
    calls := [];
    state := None;
    diags := [];
    if ValueString(prior.id) == "" {
      diags := diags + [ConfigurationError];
      return;
    }
    calls := calls + [GetAssetsID(ValueString(prior.id))];
    var result := client.getAssetsID(ValueString(prior.id));
    if result.Failed? {
      diags := diags + [ClientError("Unable to read asset: " + result.message)];
      return;
    }
    var data, updateDiags := UpdateModelFromResponse(result.payload, reformat);
    diags := diags + updateDiags;
    if diags != [] {
      return;
    }
    state := Some(data);
  }

  /** `Update`: the request is built from the plan but sent to the ID held in
      the prior state. */
  method Update(plan: AssetResourceModel, prior: AssetResourceModel, client: AssetClient, reformat: Reformat)
    returns (diags: seq<Diagnostic>, state: Option<AssetResourceModel>, calls: seq<AssetCall>)
    ensures !RequestConvertible(plan) ==> diags != [] && state == None && calls == []
    ensures RequestConvertible(plan) ==>
              && |calls| == 1 && calls[0].PutAssetsID? && calls[0].id == ValueString(prior.id)
              && UpdateRequestFor(plan, calls[0].update)
              && var reply := client.putAssetsID(calls[0].id, calls[0].update);
              && (reply.Failed? ==> diags == [ClientError("Unable to update asset: " + reply.message)] && state == None)
              && (reply.Ok? ==> Stored(reply.payload, reformat, diags, state))
  {
    calls := [];
    state := None;
    var asset;
    asset, diags := ToUpdateRequest(plan);
    if diags != [] {
      return;
    }
    var id := ValueString(prior.id);
    calls := calls + [PutAssetsID(id, asset)];
    var result := client.putAssetsID(id, asset);
    if result.Failed? {
      diags := diags + [ClientError("Unable to update asset: " + result.message)];
      return;
    }
    var data, updateDiags := UpdateModelFromResponse(result.payload, reformat);
    diags := diags + updateDiags;
    if diags != [] {
      return;
    }
    state := Some(data);
  }

  /** `Delete`: deletes the stored ID; any client error is reported. */
  method Delete(prior: AssetResourceModel, client: AssetClient)
    returns (diags: seq<Diagnostic>, calls: seq<AssetCall>)
    ensures calls == [DeleteAssetsID(ValueString(prior.id))]
    ensures var err := client.deleteAssetsID(ValueString(prior.id));
            diags == if err.Some? then [ClientError("Unable to delete asset: " + err.value)] else []
  {
    diags := [];
    var id := ValueString(prior.id);
    calls := [DeleteAssetsID(id)];
    var err := client.deleteAssetsID(id);
    if err.Some? {
      diags := diags + [ClientError("Unable to delete asset: " + err.value)];
    }
  }
}
