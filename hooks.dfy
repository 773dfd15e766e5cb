/** `HooksController` (api/src/hooks/hooks.controller.ts): the guard checks of the two
    hook routes and what they hand to `EngineService.runNode`. The node lookup
    `WorkflowsService.nodeId` is a parameter; `StoreHook` plugs in the store's. */
module Hooks {
  import opened Wrappers
  import opened Text
  import opened Json
  import Store
  import Workflows

  /** The outcome of a hook request: an HTTP error, or the run it starts, which answers
      `{ok: true}` once `runNode` returns. */
  datatype HookOutcome =
    | Reject(status: nat, message: string)
    | Failed(error: Thrown)
    | Dispatch(instanceId: Json, nodeId: string, input: Json)

  /** `nodeId(workflowId, nodeId)`: the id of the node when it belongs to the workflow,
      or the error the query throws. */
  type Lookup = (string, string) -> Result<Option<string>, Thrown>

  /** Whether the lookup found a node (an empty id would read as not found). */
  predicate Found(v: Option<string>)
  {
    v.Some? && v.value != ""
  }

  /** `POST /api/v1/hook/workflow/:id/node/:nodeId`. */
  function NodeHook(workflowId: string, nodeId: string, body: Json, lookup: Lookup): (r: HookOutcome)
    ensures r.Failed? <==> lookup(workflowId, nodeId).Err?
    ensures r.Failed? ==> r.error == lookup(workflowId, nodeId).error
    ensures r == Reject(404, "node not found") <==> lookup(workflowId, nodeId).Ok? && !Found(lookup(workflowId, nodeId).value)
    ensures r == Reject(400, "instanceId required")
            <==> lookup(workflowId, nodeId).Ok? && Found(lookup(workflowId, nodeId).value) && !Truthy(Field(body, "instanceId"))
    ensures r.Dispatch? <==> lookup(workflowId, nodeId).Ok? && Found(lookup(workflowId, nodeId).value) && Truthy(Field(body, "instanceId"))
    ensures r.Dispatch? ==> r == Dispatch(Field(body, "instanceId"), lookup(workflowId, nodeId).value.value, body)
  {
    var looked := lookup(workflowId, nodeId);
    if looked.Err? then Failed(looked.error)
    else
      var verified := looked.value;
      if !Found(verified) then Reject(404, "node not found")
      else if !Truthy(Field(body, "instanceId")) then Reject(400, "instanceId required")
      else Dispatch(Field(body, "instanceId"), verified.value, body)
  }

  /** The node id of the general route: `String(body?.worflow_node || body?.workflow_node || '')`. */
  function HookNodeId(body: Json, numText: real -> string): (id: string)
    ensures Field(body, "worflow_node").JStr? && Truthy(Field(body, "worflow_node")) ==> id == Field(body, "worflow_node").s
    ensures !Truthy(Field(body, "worflow_node")) && Field(body, "workflow_node").JStr? ==> id == Field(body, "workflow_node").s
    ensures !Truthy(Field(body, "worflow_node")) && !Truthy(Field(body, "workflow_node")) ==> id == ""
  {
    JsString(Or(Field(body, "worflow_node"), Or(Field(body, "workflow_node"), JStr(""))), numText)
  }

  /** `POST /api/v1/hook/workflow/:id`. */
  function GeneralHook(workflowId: string, body: Json, lookup: Lookup, numText: real -> string): (r: HookOutcome)
    ensures HookNodeId(body, numText) == "" <==> r == Reject(400, "workflow_node required")
    ensures HookNodeId(body, numText) != "" ==> r == NodeHook(workflowId, HookNodeId(body, numText), body, lookup)
  {
    var nodeId := HookNodeId(body, numText);
    if nodeId == "" then Reject(400, "workflow_node required")
    else NodeHook(workflowId, nodeId, body, lookup)
  }

  /** The misspelt key `worflow_node` is read first and wins over `workflow_node`. */
  lemma MisspeltKeyWins(workflowId: string, a: string, b: string, rest: map<string, Json>,
                        lookup: Lookup, numText: real -> string)
    requires a != ""
    ensures var body := JObj(rest["worflow_node" := JStr(a)]["workflow_node" := JStr(b)]);
            GeneralHook(workflowId, body, lookup, numText) == NodeHook(workflowId, a, body, lookup)
  {
    var body := JObj(rest["worflow_node" := JStr(a)]["workflow_node" := JStr(b)]);
    assert Field(body, "worflow_node") == JStr(a);
  }

  /** An unknown node is answered 404 whatever the body holds: that check comes first. */
  lemma NotFoundFirst(workflowId: string, body: Json, lookup: Lookup, numText: real -> string)
    requires HookNodeId(body, numText) != ""
    requires var l := lookup(workflowId, HookNodeId(body, numText)); l.Ok? && !Found(l.value)
    ensures GeneralHook(workflowId, body, lookup, numText) == Reject(404, "node not found")
  {
  }

  /** An empty array passes the `||` chain but prints as empty text, so it is refused. */
  lemma EmptyArrayNode(workflowId: string, rest: map<string, Json>, lookup: Lookup, numText: real -> string)
    ensures var body := JObj(rest["worflow_node" := JArr([])]);
            GeneralHook(workflowId, body, lookup, numText) == Reject(400, "workflow_node required")
  {
    var body := JObj(rest["worflow_node" := JArr([])]);
    assert Field(body, "worflow_node") == JArr([]);
  }

  /** A dispatched run uses the verified node id and the whole body as input. */
  lemma DispatchCarriesBody(workflowId: string, body: Json, lookup: Lookup, numText: real -> string)
    requires GeneralHook(workflowId, body, lookup, numText).Dispatch?
    ensures var r := GeneralHook(workflowId, body, lookup, numText);
            r.input == body && Found(Some(r.nodeId)) && Truthy(r.instanceId)
            && r.nodeId == lookup(workflowId, HookNodeId(body, numText)).value.value
  {
  }

  /** With the store's lookup, a hook runs exactly the nodes of its own workflow, and
      ids that are not uuid text fail in the query rather than answer 404. */
  lemma StoreHook(t: Store.Tables, u: Workflows.UuidSyntax, workflowId: string, nodeId: string, body: Json)
    requires Truthy(Field(body, "instanceId"))
    ensures var r := NodeHook(workflowId, nodeId, body, (w, n) => Workflows.NodeLookup(t, u, w, n));
            && (r.Dispatch? <==> u.pg(workflowId) && u.pg(nodeId) && nodeId in Store.NodesOf(t, workflowId) && nodeId != "")
            && (r.Dispatch? ==> r.nodeId == nodeId)
            && (r.Failed? <==> !u.pg(workflowId) || !u.pg(nodeId))
  {
  }
}
