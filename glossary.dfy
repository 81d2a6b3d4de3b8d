/** The glossary term resource: the requests built from a plan, the state
    built from a catalog term, and the Create/Read/Update/Delete handlers
    over an abstract glossary client. Its null rules differ from the
    asset's: request metadata drops only null entries, response metadata
    that is absent or empty is null, and timestamps are copied verbatim. */
module Glossary {
  import opened Framework
  import opened Dynamic

  // ---------------------------------------------------------------------
  // Terraform state

  /** `OwnerModel`. */
  datatype OwnerModel = OwnerModel(id: TfString, ownerType: TfString)

  /** `GlossaryResourceModel`; a nil owner slice is `None`. */
  datatype GlossaryResourceModel = GlossaryResourceModel(
    name: TfString,
    definition: TfString,
    description: TfString,
    parentTermId: TfString,
    owners: Option<seq<OwnerModel>>,
    metadata: TfMap,
    id: TfString,
    createdAt: TfString,
    updatedAt: TfString)

  // ---------------------------------------------------------------------
  // Catalog records

  /** `V1GlossaryOwnerRequest`. */
  datatype OwnerRequest = OwnerRequest(id: string, ownerType: string)

  /** `V1GlossaryCreateTermRequest`; absent owners and metadata are `None`. */
  datatype CreateTermRequest = CreateTermRequest(
    name: string,
    definition: string,
    description: string,
    parentTermId: string,
    owners: Option<seq<OwnerRequest>>,
    metadata: Option<map<string, string>>)

  /** `V1GlossaryUpdateTermRequest`: the same fields as a create request. */
  datatype UpdateTermRequest = UpdateTermRequest(
    name: string,
    definition: string,
    description: string,
    parentTermId: string,
    owners: Option<seq<OwnerRequest>>,
    metadata: Option<map<string, string>>)

  /** An owner of a catalog term. */
  datatype Owner = Owner(id: string, ownerType: string)

  /** `GlossaryGlossaryTerm`, as far as the provider reads it. Its metadata
      is an `interface{}`: `None` when it is not a `map[string]interface{}`
      (nil included). */
  datatype Term = Term(
    id: string,
    name: string,
    definition: string,
    description: string,
    parentTermId: string,
    createdAt: string,
    updatedAt: string,
    owners: seq<Owner>,
    metadata: Option<map<string, Dyn>>)

  // ---------------------------------------------------------------------
  // Requests

  /** The text sent for an optional attribute: its value when known, and the
      empty string when it is null or unknown. */
  function KnownOrEmpty(s: TfString): (r: string)
    ensures s.StringValue? ==> r == s.value
    ensures !s.StringValue? ==> r == ""
    ensures r == ValueString(s)
  {
    if !s.StringNull? && !s.StringUnknown? then s.value else ""
  }

  function OwnerRequestOf(owner: OwnerModel): OwnerRequest
  {
    OwnerRequest(ValueString(owner.id), ValueString(owner.ownerType))
  }

  /** The owners sent for a plan: absent when the plan has none, otherwise
      one request per owner, in order. */
  predicate OwnersFor(owners: Option<seq<OwnerModel>>, r: Option<seq<OwnerRequest>>)
  {
    && (r.None? <==> owners.None? || |owners.value| == 0)
    && (r.Some? ==>
          && owners.Some?
          && |r.value| == |owners.value|
          && forall i :: 0 <= i < |r.value| ==> r.value[i] == OwnerRequestOf(owners.value[i]))
  }

  /** An entry the request metadata keeps: a string element that is not null.
      An unknown string passes this test. */
  predicate KeptEntry(e: Element)
  {
    e.StringElement? && !e.str.StringNull?
  }

  /** The entries the request metadata keeps, each as `ValueString`. */
  function KeptMetadata(elements: map<string, Element>): map<string, string>
  {
    map k | k in elements && KeptEntry(elements[k]) :: ValueString(elements[k].str)
  }

  /** The request metadata for a plan's map: absent when the map is null or
      unknown or keeps no entry. */
  function MetadataRequest(m: TfMap): Option<map<string, string>>
  {
    if m.MapValue? && KeptMetadata(m.elements) != map[] then Some(KeptMetadata(m.elements)) else None
  }

  /** Only null entries are dropped: an unknown string is sent as `""`, a
      known one verbatim, and an element of another type is left out. */
  lemma MetadataRequestEntries(m: TfMap, k: string)
    requires m.MapValue? && k in m.elements
    ensures m.elements[k] == StringElement(StringUnknown) ==>
              MetadataRequest(m).Some? && MetadataRequest(m).value[k] == ""
    ensures m.elements[k].StringElement? && m.elements[k].str.StringValue? ==>
              MetadataRequest(m).Some? && MetadataRequest(m).value[k] == m.elements[k].str.value
    ensures m.elements[k].OtherElement? || m.elements[k] == StringElement(StringNull) ==>
              MetadataRequest(m).None? || k !in MetadataRequest(m).value
  {
    if KeptEntry(m.elements[k]) {
      assert k in KeptMetadata(m.elements);
    }
  }

  /** Fills the owner requests one by one. */
  method ConvertOwners(owners: Option<seq<OwnerModel>>) returns (r: Option<seq<OwnerRequest>>)
    ensures OwnersFor(owners, r)
  {
    if owners.None? || |owners.value| == 0 {
      return None;
    }
    var plan := owners.value;
    var result := new OwnerRequest[|plan|];
    for i := 0 to |plan|
      invariant forall j :: 0 <= j < i ==> result[j] == OwnerRequestOf(plan[j])
    {
      var id := ValueString(plan[i].id);
      var ownerType := ValueString(plan[i].ownerType);
      result[i] := OwnerRequest(id, ownerType);
    }
    return Some(result[..]);
  }

  /** Copies the non-null string entries of the plan's metadata. */
  method ConvertMetadata(m: TfMap) returns (r: Option<map<string, string>>)
    ensures r == MetadataRequest(m)
  {
    if m.MapNull? || m.MapUnknown? {
      return None;
    }
    var elements := m.elements;
    var metadata: map<string, string> := map[];
    var rest := elements.Keys;
    while rest != {}
      invariant rest <= elements.Keys
      invariant forall k :: k in metadata <==> k in elements && k !in rest && KeptEntry(elements[k])
      invariant forall k :: k in metadata ==> metadata[k] == ValueString(elements[k].str)
      decreases rest
    {
      var k :| k in rest;
      var v := elements[k];
      if v.StringElement? && !v.str.StringNull? {
        metadata := metadata[k := ValueString(v.str)];
      }
      rest := rest - {k};
    }
    assert metadata == KeptMetadata(elements);
    if |metadata| > 0 {
      return Some(metadata);
    }
    return None;
  }

  /** The fields every term request carries for a plan. */
  predicate RequestFieldsFor(data: GlossaryResourceModel, name: string, definition: string, description: string,
                             parentTermId: string, owners: Option<seq<OwnerRequest>>,
                             metadata: Option<map<string, string>>)
  {
    && name == ValueString(data.name)
    && definition == ValueString(data.definition)
    && description == KnownOrEmpty(data.description)
    && parentTermId == KnownOrEmpty(data.parentTermId)
    && OwnersFor(data.owners, owners)
    && metadata == MetadataRequest(data.metadata)
  }

  predicate CreateRequestFor(data: GlossaryResourceModel, r: CreateTermRequest)
  {
    RequestFieldsFor(data, r.name, r.definition, r.description, r.parentTermId, r.owners, r.metadata)
  }

  predicate UpdateRequestFor(data: GlossaryResourceModel, r: UpdateTermRequest)
  {
    RequestFieldsFor(data, r.name, r.definition, r.description, r.parentTermId, r.owners, r.metadata)
  }

  /** `toCreateRequest`; it never reports a diagnostic. */
  method ToCreateRequest(data: GlossaryResourceModel) returns (r: CreateTermRequest, diags: seq<Diagnostic>)
    ensures CreateRequestFor(data, r)
    ensures diags == []
  {
    diags := [];
    var description := "";
    if !data.description.StringNull? && !data.description.StringUnknown? {
      description := ValueString(data.description);
    }
    var parentTermId := "";
    if !data.parentTermId.StringNull? && !data.parentTermId.StringUnknown? {
      parentTermId := ValueString(data.parentTermId);
    }
    var owners := ConvertOwners(data.owners);
    var metadata := ConvertMetadata(data.metadata);
    r := CreateTermRequest(ValueString(data.name), ValueString(data.definition), description, parentTermId,
                           owners, metadata);
  }

  /** `toUpdateRequest`; it never reports a diagnostic. */
  method ToUpdateRequest(data: GlossaryResourceModel) returns (r: UpdateTermRequest, diags: seq<Diagnostic>)
    ensures UpdateRequestFor(data, r)
    ensures diags == []
  {
    diags := [];
    r := UpdateTermRequest(ValueString(data.name), ValueString(data.definition), "", "", None, None);
    if !data.description.StringNull? && !data.description.StringUnknown? {
      r := r.(description := ValueString(data.description));
    }
    if !data.parentTermId.StringNull? && !data.parentTermId.StringUnknown? {
      r := r.(parentTermId := ValueString(data.parentTermId));
    }
    var owners := ConvertOwners(data.owners);
    r := r.(owners := owners);
    var metadata := ConvertMetadata(data.metadata);
    r := r.(metadata := metadata);
  }

  /** The two requests built for one plan carry the same fields. */
  lemma CreateAndUpdateAgree(data: GlossaryResourceModel, c: CreateTermRequest, u: UpdateTermRequest)
    requires CreateRequestFor(data, c) && UpdateRequestFor(data, u)
    ensures c.name == u.name && c.definition == u.definition && c.description == u.description
    ensures c.parentTermId == u.parentTermId && c.metadata == u.metadata
    ensures c.owners == u.owners
  {
    if c.owners.Some? {
      assert c.owners.value == u.owners.value;
    }
  }

  // ---------------------------------------------------------------------
  // State from a term

  function OwnerState(owner: Owner): OwnerModel
  {
    OwnerModel(StringValue(owner.id), StringValue(owner.ownerType))
  }

  /** The text of each metadata value: strings verbatim, anything else as
      `%v` prints it. */
  function MetadataText(m: map<string, Dyn>): (r: map<string, string>)
    ensures r.Keys == m.Keys
    ensures forall k :: k in m && m[k].DString? ==> r[k] == m[k].s
  {
    map k | k in m :: DefaultText(m[k])
  }

  /** The state a term yields: every attribute is rewritten from the term. */
  predicate StateFor(term: Term, m: GlossaryResourceModel)
  {
    && m.id == StringValue(term.id)
    && m.name == StringValue(term.name)
    && m.definition == StringValue(term.definition)
    && m.createdAt == StringValue(term.createdAt)
    && m.updatedAt == StringValue(term.updatedAt)
    && m.description == NullIfEmpty(term.description)
    && m.parentTermId == NullIfEmpty(term.parentTermId)
    && (m.owners.None? <==> |term.owners| == 0)
    && (m.owners.Some? ==>
          && |m.owners.value| == |term.owners|
          && forall i :: 0 <= i < |term.owners| ==> m.owners.value[i] == OwnerState(term.owners[i]))
    && m.metadata == (if term.metadata.Some? && |term.metadata.value| > 0
                      then StringMapValue(MetadataText(term.metadata.value))
                      else MapNull)
  }

  /** Builds the owners of the state one by one; nil when there are none. */
  method ConvertOwnersFromTerm(owners: seq<Owner>) returns (r: Option<seq<OwnerModel>>)
    ensures r.None? <==> |owners| == 0
    ensures r.Some? ==> |r.value| == |owners| && forall i :: 0 <= i < |owners| ==> r.value[i] == OwnerState(owners[i])
  {
    if |owners| == 0 {
      return None;
    }
    var result := new OwnerModel[|owners|];
    for i := 0 to |owners|
      invariant forall j :: 0 <= j < i ==> result[j] == OwnerState(owners[j])
    {
      result[i] := OwnerModel(StringValue(owners[i].id), StringValue(owners[i].ownerType));
    }
    return Some(result[..]);
  }

  /** Renders every metadata value as text, a string as it is. */
  method ConvertMetadataFromTerm(metadata: Option<map<string, Dyn>>) returns (r: TfMap)
    ensures r == if metadata.Some? && |metadata.value| > 0 then StringMapValue(MetadataText(metadata.value)) else MapNull
  {
    if metadata.None? || |metadata.value| == 0 {
      return MapNull;
    }
    var meta := metadata.value;
    var strMap: map<string, string> := map[];
    var rest := meta.Keys;
    while rest != {}
      invariant rest <= meta.Keys
      invariant forall k :: k in strMap <==> k in meta && k !in rest
      invariant forall k :: k in strMap ==> strMap[k] == DefaultText(meta[k])
      decreases rest
    {
      var k :| k in rest;
      if meta[k].DString? {
        strMap := strMap[k := meta[k].s];
      } else {
        strMap := strMap[k := DefaultText(meta[k])];
      }
      rest := rest - {k};
    }
    assert strMap == MetadataText(meta);
    r := StringMapValue(strMap);
  }

  /** `updateModelFromResponse`: every attribute is assigned from the term,
      so the state depends on the term alone. */
  method UpdateModelFromResponse(term: Term) returns (m: GlossaryResourceModel)
    ensures StateFor(term, m)
  {
    var description := NullIfEmpty(term.description);
    var parentTermId := NullIfEmpty(term.parentTermId);
    var owners := ConvertOwnersFromTerm(term.owners);
    var metadata := ConvertMetadataFromTerm(term.metadata);
    m := GlossaryResourceModel(
      name := StringValue(term.name),
      definition := StringValue(term.definition),
      description := description,
      parentTermId := parentTermId,
      owners := owners,
      metadata := metadata,
      id := StringValue(term.id),
      createdAt := StringValue(term.createdAt),
      updatedAt := StringValue(term.updatedAt));
  }

  // ---------------------------------------------------------------------
  // Properties relating the two directions

  /** A description that is null or non-empty survives a round trip through
      the catalog; an unknown or empty one comes back null. */
  lemma DescriptionRoundTrip(data: GlossaryResourceModel, req: CreateTermRequest, term: Term, m: GlossaryResourceModel)
    requires CreateRequestFor(data, req)
    requires term.description == req.description
    requires StateFor(term, m)
    ensures data.description.StringNull? || (data.description.StringValue? && data.description.value != "") ==>
              m.description == data.description
    ensures data.description.StringUnknown? ==> m.description == StringNull
  {
  }

  /** Known owners echoed by the catalog come back as the plan's owners. */
  lemma {:induction false} OwnersRoundTrip(data: GlossaryResourceModel, req: CreateTermRequest, term: Term,
                                           m: GlossaryResourceModel)
    requires CreateRequestFor(data, req)
    requires data.owners.Some? && |data.owners.value| > 0
    requires forall i :: 0 <= i < |data.owners.value| ==>
               data.owners.value[i].id.StringValue? && data.owners.value[i].ownerType.StringValue?
    requires |term.owners| == |req.owners.value|
    requires forall i :: 0 <= i < |term.owners| ==>
               term.owners[i] == Owner(req.owners.value[i].id, req.owners.value[i].ownerType)
    requires StateFor(term, m)
    ensures m.owners == data.owners
  {
    var plan := data.owners.value;
    assert |m.owners.value| == |plan|;
    forall i | 0 <= i < |plan|
      ensures m.owners.value[i] == plan[i]
    {
      assert req.owners.value[i] == OwnerRequestOf(plan[i]);
    }
    assert m.owners.value == plan;
  }

  /** Known string metadata echoed by the catalog comes back as the plan's
      map. */
  lemma MetadataRoundTrip(data: GlossaryResourceModel, req: CreateTermRequest, term: Term, m: GlossaryResourceModel)
    requires CreateRequestFor(data, req)
    requires data.metadata.MapValue? && |data.metadata.elements| > 0
    requires forall k :: k in data.metadata.elements ==>
               data.metadata.elements[k].StringElement? && data.metadata.elements[k].str.StringValue?
    requires req.metadata.Some?
    requires term.metadata == Some(map k | k in req.metadata.value :: DString(req.metadata.value[k]))
    requires StateFor(term, m)
    ensures m.metadata == data.metadata
  {
    var elements := data.metadata.elements;
    var sent := req.metadata.value;
    assert sent == KeptMetadata(elements);
    assert sent.Keys == elements.Keys;
    var k0 :| k0 in elements;
    assert k0 in sent;
    assert |term.metadata.value| > 0;
    assert m.metadata.elements == elements;
  }

  // ---------------------------------------------------------------------
  // Handlers over an abstract catalog client

  /** The glossary endpoints of the generated client; a delete yields the
      text of its error, if any. */
  datatype GlossaryClient = GlossaryClient(
    postGlossary: CreateTermRequest -> Reply<Term>,
    getGlossaryID: string -> Reply<Term>,
    putGlossaryID: (string, UpdateTermRequest) -> Reply<Term>,
    deleteGlossaryID: string -> Option<string>)

  /** One call made on the client, with its arguments. */
  datatype GlossaryCall =
    | PostGlossary(term: CreateTermRequest)
    | GetGlossaryID(id: string)
    | PutGlossaryID(id: string, update: UpdateTermRequest)
    | DeleteGlossaryID(id: string)

  const NoIdReturned := Diagnostic("API Error", "Glossary term created but no ID returned", None)

  /** `Create`: posts the plan's request, rejects a term without an ID, and
      stores the state built from the term. */
  method Create(plan: GlossaryResourceModel, client: GlossaryClient)
    returns (diags: seq<Diagnostic>, state: Option<GlossaryResourceModel>, calls: seq<GlossaryCall>)
    ensures |calls| == 1 && calls[0].PostGlossary? && CreateRequestFor(plan, calls[0].term)
    ensures var reply := client.postGlossary(calls[0].term);
            && (reply.Failed? ==> diags == [ClientError("Unable to create glossary term: " + reply.message)] && state == None)
            && (reply.Ok? && reply.payload.id == "" ==> diags == [NoIdReturned] && state == None)
            && (reply.Ok? && reply.payload.id != "" ==> diags == [] && state.Some? && StateFor(reply.payload, state.value))
  {
    state := None;
    var term;
    term, diags := ToCreateRequest(plan);
    calls := [PostGlossary(term)];
    var result := client.postGlossary(term);
    if result.Failed? {
      diags := diags + [ClientError("Unable to create glossary term: " + result.message)];
      return;
    }
    if result.payload.id == "" {
      diags := diags + [NoIdReturned];
      return;
    }
    var data := UpdateModelFromResponse(result.payload);
    state := Some(data);
  }

  /** `Read`: an empty ID is rejected before the client is called. */
  method Read(prior: GlossaryResourceModel, client: GlossaryClient)
    returns (diags: seq<Diagnostic>, state: Option<GlossaryResourceModel>, calls: seq<GlossaryCall>)
    ensures ValueString(prior.id) == "" ==> diags == [ConfigurationError] && state == None && calls == []
    ensures ValueString(prior.id) != "" ==>
              && calls == [GetGlossaryID(ValueString(prior.id))]
              && var reply := client.getGlossaryID(ValueString(prior.id));
              && (reply.Failed? ==> diags == [ClientError("Unable to read glossary term: " + reply.message)] && state == None)
              && (reply.Ok? ==> diags == [] && state.Some? && StateFor(reply.payload, state.value))
  {
    calls := [];
    state := None;
    diags := [];
    if ValueString(prior.id) == "" {
      diags := diags + [ConfigurationError];
      return;
    }
    calls := calls + [GetGlossaryID(ValueString(prior.id))];
    var result := client.getGlossaryID(ValueString(prior.id));
    if result.Failed? {
      diags := diags + [ClientError("Unable to read glossary term: " + result.message)];
      return;
    }
    var data := UpdateModelFromResponse(result.payload);
    state := Some(data);
  }

  /** `Update`: the request is built from the plan but sent to the ID held
      in the prior state. */
  method Update(plan: GlossaryResourceModel, prior: GlossaryResourceModel, client: GlossaryClient)
    returns (diags: seq<Diagnostic>, state: Option<GlossaryResourceModel>, calls: seq<GlossaryCall>)
    ensures |calls| == 1 && calls[0].PutGlossaryID? && calls[0].id == ValueString(prior.id)
    ensures UpdateRequestFor(plan, calls[0].update)
    ensures var reply := client.putGlossaryID(calls[0].id, calls[0].update);
            && (reply.Failed? ==> diags == [ClientError("Unable to update glossary term: " + reply.message)] && state == None)
            && (reply.Ok? ==> diags == [] && state.Some? && StateFor(reply.payload, state.value))
  {
    state := None;
    var term;
    term, diags := ToUpdateRequest(plan);
    var id := ValueString(prior.id);
    calls := [PutGlossaryID(id, term)];
    var result := client.putGlossaryID(id, term);
    if result.Failed? {
      diags := diags + [ClientError("Unable to update glossary term: " + result.message)];
      return;
    }
    var data := UpdateModelFromResponse(result.payload);
    state := Some(data);
  }

  /** `Delete`: deletes the stored ID; any client error is reported. */
  method Delete(prior: GlossaryResourceModel, client: GlossaryClient)
    returns (diags: seq<Diagnostic>, calls: seq<GlossaryCall>)
    ensures calls == [DeleteGlossaryID(ValueString(prior.id))]
    ensures var err := client.deleteGlossaryID(ValueString(prior.id));
            diags == if err.Some? then [ClientError("Unable to delete glossary term: " + err.value)] else []
  {
    diags := [];
    var id := ValueString(prior.id);
    calls := [DeleteGlossaryID(id)];
    var err := client.deleteGlossaryID(id);
    if err.Some? {
      diags := diags + [ClientError("Unable to delete glossary term: " + err.value)];
    }
  }
}
