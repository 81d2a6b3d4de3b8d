/** The lineage resource: a direct edge between two assets. Its handlers
    call the catalog only to create and to delete an edge; Read and Update
    write back the state or plan they were given. */
module Lineage {
  import opened Framework

  /** `LineageResourceModel`. */
  datatype LineageResourceModel = LineageResourceModel(
    source: TfString,
    target: TfString,
    resourceId: TfString,
    lineageType: TfString)

  /** `LineageLineageEdge` as the provider sends it. */
  datatype LineageEdge = LineageEdge(source: string, target: string)

  /** The edge the catalog returns, as far as the provider reads it. */
  datatype EdgeRecord = EdgeRecord(id: string, edgeType: string)

  /** The lineage endpoints of the generated client; a delete yields the
      text of its error, if any. */
  datatype LineageClient = LineageClient(
    postLineageDirect: LineageEdge -> Reply<EdgeRecord>,
    deleteLineageDirectID: string -> Option<string>)

  /** One call made on the client, with its arguments. */
  datatype LineageCall =
    | PostLineageDirect(edge: LineageEdge)
    | DeleteLineageDirectID(id: string)

  /** `Create`: posts the edge between the plan's source and target and
      records the returned ID and type; the rest of the plan is stored as it
      is. A returned empty ID is not rejected. */
  method Create(plan: LineageResourceModel, client: LineageClient)
    returns (diags: seq<Diagnostic>, state: Option<LineageResourceModel>, calls: seq<LineageCall>)
    ensures calls == [PostLineageDirect(LineageEdge(ValueString(plan.source), ValueString(plan.target)))]
    ensures var reply := client.postLineageDirect(calls[0].edge);
            && (reply.Failed? ==> diags == [ClientError("Unable to create lineage: " + reply.message)] && state == None)
            && (reply.Ok? ==>
                  && diags == [] && state.Some?
                  && state.value.source == plan.source && state.value.target == plan.target
                  && state.value.resourceId == StringValue(reply.payload.id)
                  && state.value.lineageType == StringValue(reply.payload.edgeType))
  {
    diags := [];
    state := None;
    var data := plan;
    var edge := LineageEdge(ValueString(data.source), ValueString(data.target));
    calls := [PostLineageDirect(edge)];
    var result := client.postLineageDirect(edge);
    if result.Failed? {
      diags := diags + [ClientError("Unable to create lineage: " + result.message)];
      return;
    }
    data := data.(resourceId := StringValue(result.payload.id));
    data := data.(lineageType := StringValue(result.payload.edgeType));
    state := Some(data);
  }

  /** `Read`: the stored state is written back unchanged, without a call. */
  method Read(prior: LineageResourceModel, client: LineageClient)
    returns (diags: seq<Diagnostic>, state: Option<LineageResourceModel>, calls: seq<LineageCall>)
    ensures diags == [] && calls == []
    ensures state == Some(prior)
  {
    diags := [];
    calls := [];
    var data := prior;
    state := Some(data);
  }

  /** `Update`: the plan becomes the state, without a call. */
  method Update(plan: LineageResourceModel, prior: LineageResourceModel, client: LineageClient)
    returns (diags: seq<Diagnostic>, state: Option<LineageResourceModel>, calls: seq<LineageCall>)
    ensures diags == [] && calls == []
    ensures state == Some(plan)
  {
    diags := [];
    calls := [];
    var data := plan;
    state := Some(data);
  }

  /** `Delete`: deletes the stored resource ID; any client error, a missing
      edge included, is reported. */
  method Delete(prior: LineageResourceModel, client: LineageClient)
    returns (diags: seq<Diagnostic>, calls: seq<LineageCall>)
    ensures calls == [DeleteLineageDirectID(ValueString(prior.resourceId))]
    ensures var err := client.deleteLineageDirectID(ValueString(prior.resourceId));
            diags == if err.Some? then [ClientError("Unable to delete lineage: " + err.value)] else []
  {
    diags := [];
    var id := ValueString(prior.resourceId);
    calls := [DeleteLineageDirectID(id)];
    var err := client.deleteLineageDirectID(id);
    if err.Some? {
      diags := diags + [ClientError("Unable to delete lineage: " + err.value)];
    }
  }
}
