/** `WorkflowsService` (api/src/workflows/workflows.service.ts): the reconciliation of
    `import` inside one transaction, the row fold of `getById`, and the lookups `nodeId`
    and `firstNodeId`. Two syntax checks are parameters: the uuid library's `validate`
    and PostgreSQL's parsing of uuid text. */
module Workflows {
  import opened Wrappers
  import opened Text
  import opened Json
  import opened Store

  /** `isValidUUID` (the uuid library) and the text PostgreSQL accepts as a uuid. */
  datatype UuidSyntax = UuidSyntax(lib: string -> bool, pg: string -> bool)

  /** The ids the model generates stand for database uuids: both checks accept them. */
  ghost predicate Generated(u: UuidSyntax)
  {
    forall k: nat :: u.lib(NatToDecimal(k)) && u.pg(NatToDecimal(k))
  }

  /** A value PostgreSQL can bind to a uuid parameter. */
  predicate UuidText(v: Json, u: UuidSyntax)
  {
    v.JStr? && u.pg(v.s)
  }

  /** PostgreSQL's error for text that is not a uuid. */
  function UuidError(v: Json, numText: real -> string): Thrown
  {
    ErrorOf("invalid input syntax for type uuid: \"" + JsString(v, numText) + "\"")
  }

  /** How node-postgres binds `undefined`: as NULL. */
  function Param(j: Json): (r: Json)
    ensures j.JUndefined? ==> r == JNull
    ensures !j.JUndefined? ==> r == j
  {
    if j.JUndefined? then JNull else j
  }

  const TempPrefix := "__temp_"
  const StartsWithMissing := "n.id.startsWith is not a function"
  const NotIterable := "object is not iterable"
  const EdgeForeignKey := "insert or update on table \"_edge\" violates foreign key constraint"
  const NodeForeignKey := "update or delete on table \"_node\" violates foreign key constraint on table \"_edge\""

  /** `for (const x of v)`: arrays give their items, strings their characters, anything
      else throws. */
  function Iterate(v: Json): (r: Result<seq<Json>, Thrown>)
    ensures v.JArr? ==> r == Ok(v.items)
    ensures r.Err? <==> !v.JArr? && !v.JStr?
  {
    match v
    case JArr(xs) => Ok(xs)
    case JStr(s) => Ok(seq(|s|, i requires 0 <= i < |s| => JStr([s[i]])))
    case _ => Err(TypeErrorOf(NotIterable))
  }

  // ---------------------------------------------------------------- workflow

  /** `def.workflows?.[0]`. */
  function FirstWorkflow(def: Json): Json
  {
    Field(Field(def, "workflows"), "0")
  }

  /** `def.workflows?.[0]?.name ?? 'Workflow ' + id`. */
  function WorkflowName(def: Json, numText: real -> string): (name: Json)
    ensures !Nullish(Field(FirstWorkflow(def), "name")) ==> name == Field(FirstWorkflow(def), "name")
    ensures Nullish(Field(FirstWorkflow(def), "name"))
            ==> name == JStr("Workflow " + JsString(Field(FirstWorkflow(def), "id"), numText))
  {
    Coalesce(Field(FirstWorkflow(def), "name"),
             JStr("Workflow " + JsString(Field(FirstWorkflow(def), "id"), numText)))
  }

  /** Whether the definition names a workflow to update: a truthy id the uuid library
      accepts. */
  predicate ClaimsWorkflow(def: Json, u: UuidSyntax)
  {
    var id := Field(FirstWorkflow(def), "id");
    Truthy(id) && id.JStr? && u.lib(id.s)
  }

  /** The first statements of `import`: update the named workflow's name, or insert a new
      workflow when none is named or the named one is not stored. */
  function ChooseWorkflow(t: Tables, def: Json, u: UuidSyntax, numText: real -> string): Result<(Tables, string), Thrown>
  {
    var id := Field(FirstWorkflow(def), "id");
    var name := WorkflowName(def, numText);
    if ClaimsWorkflow(def, u) && !u.pg(id.s) then Err(UuidError(id, numText))
    else if ClaimsWorkflow(def, u) && id.s in t.workflows then Ok((t.(workflows := t.workflows[id.s := name]), id.s))
    else Ok((t.(workflows := t.workflows[FreshId(t) := name], nextId := t.nextId + 1), FreshId(t)))
  }

  /** A stored workflow named by a valid uuid keeps its id and takes the new name; any
      other definition creates a workflow under a fresh id; no other table changes. */
  lemma WorkflowChoice(t: Tables, def: Json, u: UuidSyntax, numText: real -> string)
    requires Valid(t) && Generated(u)
    ensures var id := Field(FirstWorkflow(def), "id");
            var r := ChooseWorkflow(t, def, u, numText);
            && (ClaimsWorkflow(def, u) && id.s in t.workflows ==>
                  r == Ok((t.(workflows := t.workflows[id.s := WorkflowName(def, numText)]), id.s)))
            && (!ClaimsWorkflow(def, u) || (u.pg(id.s) && id.s !in t.workflows) ==>
                  r.Ok? && r.value.1 == FreshId(t) && FreshId(t) !in t.workflows
                  && r.value.0.workflows == t.workflows[FreshId(t) := WorkflowName(def, numText)])
            && (r.Ok? ==> Valid(r.value.0) && r.value.1 in r.value.0.workflows
                          && r.value.0.nodes == t.nodes && r.value.0.edges == t.edges)
  {
    var id := Field(FirstWorkflow(def), "id");
    if ClaimsWorkflow(def, u) && id.s in t.workflows {
      var m := IdBelowShape(id.s, t.nextId);
      assert u.pg(NatToDecimal(m));
    }
    FreshIdIsFresh(t);
    var r := ChooseWorkflow(t, def, u, numText);
    if r.Ok? && r.value.1 == FreshId(t) {
      GrowKeepsIds(t, r.value.0);
    }
  }

  /** Raising the counter keeps every stored id below it. */
  lemma GrowKeepsIds(t: Tables, t2: Tables)
    requires Valid(t) && t2.nextId == t.nextId + 1
    requires t2.nodes == t.nodes && t2.edges == t.edges && t2.instances == t.instances && t2.activities == t.activities
    requires t2.workflows.Keys == t.workflows.Keys + {FreshId(t)}
    ensures Valid(t2)
  {
    forall w | w in t2.workflows ensures IdBelow(w, t2.nextId) {
      if w != FreshId(t) { IdBelowMonotone(w, t.nextId, t2.nextId); }
    }
    forall n | n in t2.nodes ensures IdBelow(n, t2.nextId) { IdBelowMonotone(n, t.nextId, t2.nextId); }
    forall i | i in t2.instances ensures IdBelow(i, t2.nextId) { IdBelowMonotone(i, t.nextId, t2.nextId); }
    forall p | p in t2.edges ensures IdBelow(t2.edges[p].id, t2.nextId) {
      IdBelowMonotone(t.edges[p].id, t.nextId, t2.nextId);
    }
    forall k | 0 <= k < |t2.activities| ensures IdBelow(t2.activities[k].id, t2.nextId) {
      IdBelowMonotone(t.activities[k].id, t.nextId, t2.nextId);
    }
  }

  /** The name defaults to `Workflow <id>`. */
  lemma DefaultName(id: string, numText: real -> string)
    ensures WorkflowName(JObj(map["workflows" := JArr([JObj(map["id" := JStr(id)])])]), numText)
            == JStr("Workflow " + id)
  {
    var w := JObj(map["id" := JStr(id)]);
    var def := JObj(map["workflows" := JArr([w])]);
    assert Field(def, "workflows") == JArr([w]);
    assert DigitsValue("0") == 0;
    assert FirstWorkflow(def) == w;
  }

  // ---------------------------------------------------------------- nodes

  /** The transaction's working state: its copy of the tables, `frontendIdToDbId`,
      `keptNodeIds` and `keptEdgeKeys`. */
  datatype ImportState = ImportState(t: Tables, idMap: map<string, string>, kept: set<string>, keptEdges: set<string>)

  /** `def.nodes ?? def.stations ?? []`. */
  function NodeList(def: Json): Json
  {
    Coalesce(Field(def, "nodes"), Coalesce(Field(def, "stations"), JArr([])))
  }

  /** The row a node definition is written as. */
  function NodeRowOf(wf: string, n: Json): NodeRow
  {
    NodeRow(wf, Param(Member(n, "name")), Param(Member(n, "kind")),
            Coalesce(Member(n, "position"), JObj(map[])), Coalesce(Member(n, "data"), JObj(map[])))
  }

  /** `n.id && !n.id.startsWith('__temp_')`, for a string id. */
  predicate IsExisting(id: Json)
  {
    id.JStr? && id.s != "" && !StartsWith(id.s, TempPrefix)
  }

  /** Whether the node keeps its id: an existing id of a node of this workflow. */
  predicate InPlace(t: Tables, wf: string, id: Json)
  {
    IsExisting(id) && id.s in t.nodes && t.nodes[id.s].workflowId == wf
  }

  /** The id the node is stored under: its own when updated in place, else a fresh one. */
  function StoredId(t: Tables, wf: string, id: Json): string
  {
    if InPlace(t, wf, id) then id.s else FreshId(t)
  }

  /** The state after the node's UPDATE or INSERT and the bookkeeping that follows. */
  function Placed(st: ImportState, wf: string, id: Json, row: NodeRow): ImportState
    requires Truthy(id) ==> id.JStr?
  {
    var t := st.t;
    var dbId := StoredId(t, wf, id);
    var t2 := if InPlace(t, wf, id) then t.(nodes := t.nodes[dbId := row])
              else t.(nodes := t.nodes[dbId := row], nextId := t.nextId + 1);
    ImportState(t2, if Truthy(id) then st.idMap[id.s := dbId] else st.idMap, st.kept + {dbId}, st.keptEdges)
  }

  /** One turn of the node loop: an existing id of this workflow is updated in place;
      every other node is inserted under a fresh id. */
  function NodeStep(st: ImportState, wf: string, n: Json, u: UuidSyntax, numText: real -> string): Result<ImportState, Thrown>
  {
    if Nullish(n) then Err(NullAccess(n, "position"))
    else
      var id := Member(n, "id");
      if Truthy(id) && !id.JStr? then Err(TypeErrorOf(StartsWithMissing))
      else if IsExisting(id) && !u.pg(id.s) then Err(UuidError(id, numText))
      else Ok(Placed(st, wf, id, NodeRowOf(wf, n)))
  }

  /** The node loop, as a left fold that stops at the first error. */
  function NodeSteps(st: ImportState, wf: string, ns: seq<Json>, u: UuidSyntax, numText: real -> string): Result<ImportState, Thrown>
  {
    if ns == [] then Ok(st)
    else
      match NodeSteps(st, wf, ns[..|ns| - 1], u, numText)
      case Err(e) => Err(e)
      case Ok(s1) => NodeStep(s1, wf, ns[|ns| - 1], u, numText)
  }

  /** The working state is consistent: the tables are valid and hold the workflow, every
      kept node is one of its nodes, every mapped id is kept, and every kept edge key
      names a stored edge. */
  ghost predicate Tracks(st: ImportState, wf: string)
  {
    && Valid(st.t) && wf in st.t.workflows
    && (forall k :: k in st.kept ==> k in st.t.nodes && st.t.nodes[k].workflowId == wf)
    && (forall x :: x in st.idMap ==> st.idMap[x] in st.kept)
    && (forall k :: k in st.keptEdges ==> KeyPair(k).Some? && KeyPair(k).value in st.t.edges)
  }

  /** A node definition with no id or a `__temp_` id is inserted under a fresh id; an
      existing id of this workflow is updated in place; an existing id of another
      workflow or none is left alone and a fresh node is inserted. The stored id is
      recorded as kept and, for a node with an id, in the id map. */
  lemma NodePlacement(st: ImportState, wf: string, n: Json, u: UuidSyntax, numText: real -> string)
    requires Tracks(st, wf)
    requires NodeStep(st, wf, n, u, numText).Ok?
    ensures var st2 := NodeStep(st, wf, n, u, numText).value;
            var id := Member(n, "id");
            var dbId := StoredId(st.t, wf, id);
            && (InPlace(st.t, wf, id) ==> dbId == id.s && st2.t.nodes == st.t.nodes[id.s := NodeRowOf(wf, n)]
                                          && st2.t.nextId == st.t.nextId)
            && (!InPlace(st.t, wf, id) ==> dbId !in st.t.nodes && st2.t.nodes == st.t.nodes[dbId := NodeRowOf(wf, n)])
            && (!Truthy(id) || StartsWith(id.s, TempPrefix) ==> !InPlace(st.t, wf, id))
            && st2.kept == st.kept + {dbId}
            && (Truthy(id) ==> st2.idMap == st.idMap[id.s := dbId])
            && (!Truthy(id) ==> st2.idMap == st.idMap)
            && Tracks(st2, wf)
  {
    NodeStepTracks(st, wf, n, u, numText);
    FreshIdIsFresh(st.t);
  }

  lemma NodeStepTracks(st: ImportState, wf: string, n: Json, u: UuidSyntax, numText: real -> string)
    requires Tracks(st, wf)
    requires NodeStep(st, wf, n, u, numText).Ok?
    ensures var st2 := NodeStep(st, wf, n, u, numText).value;
            Tracks(st2, wf) && st2.keptEdges == st.keptEdges && st2.t.edges == st.t.edges
            && st.idMap.Keys <= st2.idMap.Keys
  {
    var id := Member(n, "id");
    PlacedTracks(st, wf, id, NodeRowOf(wf, n));
  }

  lemma PlacedTracks(st: ImportState, wf: string, id: Json, row: NodeRow)
    requires Tracks(st, wf) && (Truthy(id) ==> id.JStr?) && row.workflowId == wf
    ensures var st2 := Placed(st, wf, id, row);
            Tracks(st2, wf) && st2.keptEdges == st.keptEdges && st2.t.edges == st.t.edges
            && st.idMap.Keys <= st2.idMap.Keys
  {
    var dbId := StoredId(st.t, wf, id);
    var t2 := Placed(st, wf, id, row).t;
    if InPlace(st.t, wf, id) {
      NodeUpdateKeepsValid(st.t, dbId, row);
    } else {
      FreshIdIsFresh(st.t);
      InsertKeepsValid(st.t, t2);
    }
    KeepTracks(st, t2, wf, id, dbId, row);
  }

  /** Rewriting a stored node in place keeps the store invariant when its workflow is
      stored. */
  lemma NodeUpdateKeepsValid(t: Tables, n: string, row: NodeRow)
    requires Valid(t) && n in t.nodes && row.workflowId in t.workflows
    ensures Valid(t.(nodes := t.nodes[n := row]))
  {
  }

  /** The state after writing node `dbId` for `wf` into valid tables, and recording it
      as kept and under the node's id, keeps tracking `wf`. */
  lemma KeepTracks(st: ImportState, t2: Tables, wf: string, id: Json, dbId: string, row: NodeRow)
    requires Tracks(st, wf) && Valid(t2) && row.workflowId == wf && (Truthy(id) ==> id.JStr?)
    requires t2.workflows == st.t.workflows && t2.edges == st.t.edges && t2.nodes == st.t.nodes[dbId := row]
    ensures Tracks(ImportState(t2, if Truthy(id) then st.idMap[id.s := dbId] else st.idMap,
                               st.kept + {dbId}, st.keptEdges), wf)
  {
    MapIntoKept(st.idMap, st.kept, id, dbId);
    KeptInNodes(st.t.nodes, st.kept, wf, dbId, row);
  }

  lemma MapIntoKept(idMap: map<string, string>, kept: set<string>, id: Json, dbId: string)
    requires forall x :: x in idMap ==> idMap[x] in kept
    requires Truthy(id) ==> id.JStr?
    ensures var m := if Truthy(id) then idMap[id.s := dbId] else idMap;
            forall x :: x in m ==> m[x] in kept + {dbId}
  {
  }

  lemma KeptInNodes(nodes: map<string, NodeRow>, kept: set<string>, wf: string, dbId: string, row: NodeRow)
    requires forall k :: k in kept ==> k in nodes && nodes[k].workflowId == wf
    requires row.workflowId == wf
    ensures forall k :: k in kept + {dbId} ==> k in nodes[dbId := row] && nodes[dbId := row][k].workflowId == wf
  {
  }

  /** Inserting rows under the fresh id, with the counter advanced, keeps the invariant
      as long as every edge still joins stored nodes and every node a stored workflow. */
  lemma InsertKeepsValid(t: Tables, t2: Tables)
    requires Valid(t) && t2.nextId == t.nextId + 1
    requires t2.workflows == t.workflows && t2.instances == t.instances && t2.activities == t.activities
    requires forall n :: n in t2.nodes ==> (n in t.nodes || n == FreshId(t)) && t2.nodes[n].workflowId in t2.workflows
    requires forall p :: p in t2.edges ==> p.0 in t2.nodes && p.1 in t2.nodes
                                           && ((p in t.edges && t2.edges[p].id == t.edges[p].id) || t2.edges[p].id == FreshId(t))
    ensures Valid(t2)
  {
    forall w | w in t2.workflows ensures IdBelow(w, t2.nextId) { IdBelowMonotone(w, t.nextId, t2.nextId); }
    forall m | m in t2.nodes ensures IdBelow(m, t2.nextId) {
      if m != FreshId(t) { IdBelowMonotone(m, t.nextId, t2.nextId); }
    }
    forall i | i in t2.instances ensures IdBelow(i, t2.nextId) { IdBelowMonotone(i, t.nextId, t2.nextId); }
    forall p | p in t2.edges ensures IdBelow(t2.edges[p].id, t2.nextId) {
      if t2.edges[p].id != FreshId(t) { IdBelowMonotone(t.edges[p].id, t.nextId, t2.nextId); }
    }
    forall k | 0 <= k < |t2.activities| ensures IdBelow(t2.activities[k].id, t2.nextId) {
      IdBelowMonotone(t.activities[k].id, t.nextId, t2.nextId);
    }
  }

  lemma {:induction false} NodeStepsTracks(st: ImportState, wf: string, ns: seq<Json>, u: UuidSyntax, numText: real -> string)
    requires Tracks(st, wf)
    requires NodeSteps(st, wf, ns, u, numText).Ok?
    ensures Tracks(NodeSteps(st, wf, ns, u, numText).value, wf)
    ensures NodeSteps(st, wf, ns, u, numText).value.keptEdges == st.keptEdges
    ensures NodeSteps(st, wf, ns, u, numText).value.t.edges == st.t.edges
    ensures st.idMap.Keys <= NodeSteps(st, wf, ns, u, numText).value.idMap.Keys
  {
    if ns != [] {
      NodeStepsTracks(st, wf, ns[..|ns| - 1], u, numText);
      NodeStepTracks(NodeSteps(st, wf, ns[..|ns| - 1], u, numText).value, wf, ns[|ns| - 1], u, numText);
    }
  }

  /** The node loop never forgets a mapped id. */
  lemma {:induction false} NodeStepsGrow(st: ImportState, wf: string, ns: seq<Json>, u: UuidSyntax, numText: real -> string)
    requires NodeSteps(st, wf, ns, u, numText).Ok?
    ensures st.idMap.Keys <= NodeSteps(st, wf, ns, u, numText).value.idMap.Keys
  {
    if ns != [] {
      NodeStepsGrow(st, wf, ns[..|ns| - 1], u, numText);
    }
  }

  /** Every node definition with an id ends up in the id map (whose targets are kept
      nodes of the workflow, by `Tracks`). */
  lemma {:induction false} IdMapCoverage(st: ImportState, wf: string, ns: seq<Json>, u: UuidSyntax, numText: real -> string)
    requires NodeSteps(st, wf, ns, u, numText).Ok?
    ensures IdsAmong(ns, NodeSteps(st, wf, ns, u, numText).value.idMap.Keys)
  {
    if ns != [] {
      var init := ns[..|ns| - 1];
      var last := ns[|ns| - 1];
      IdMapCoverage(st, wf, init, u, numText);
      var s0 := NodeSteps(st, wf, init, u, numText).value;
      var s1 := NodeSteps(st, wf, ns, u, numText).value;
      assert s1 == NodeStep(s0, wf, last, u, numText).value;
      NodeStepMaps(s0, wf, last, u, numText);
      MappedSnoc(ns, s0.idMap.Keys, s1.idMap.Keys);
    }
  }

  /** The node ids of `ns` are all among `keys`. */
  predicate IdsAmong(ns: seq<Json>, keys: set<string>)
  {
    forall i :: 0 <= i < |ns| && Truthy(Member(ns[i], "id")) ==> Member(ns[i], "id").JStr? && Member(ns[i], "id").s in keys
  }

  lemma MappedSnoc(ns: seq<Json>, keys0: set<string>, keys1: set<string>)
    requires ns != [] && IdsAmong(ns[..|ns| - 1], keys0) && keys0 <= keys1
    requires var last := ns[|ns| - 1];
             Truthy(Member(last, "id")) ==> Member(last, "id").JStr? && Member(last, "id").s in keys1
    ensures IdsAmong(ns, keys1)
  {
    var init := ns[..|ns| - 1];
    forall i | 0 <= i < |ns| && Truthy(Member(ns[i], "id"))
      ensures Member(ns[i], "id").JStr? && Member(ns[i], "id").s in keys1
    {
      if i < |init| {
        assert ns[i] == init[i];
      }
    }
  }

  /** One turn of the node loop keeps the mapped ids and maps the node's own id. */
  lemma NodeStepMaps(st: ImportState, wf: string, n: Json, u: UuidSyntax, numText: real -> string)
    requires NodeStep(st, wf, n, u, numText).Ok?
    ensures var s1 := NodeStep(st, wf, n, u, numText).value;
            && st.idMap.Keys <= s1.idMap.Keys
            && (Truthy(Member(n, "id")) ==> Member(n, "id").JStr? && Member(n, "id").s in s1.idMap)
  {
  }

  // ---------------------------------------------------------------- edges

  /** `frontendIdToDbId.get(v)`. */
  function Mapped(idMap: map<string, string>, v: Json): Json
  {
    if v.JStr? && v.s in idMap then JStr(idMap[v.s]) else JUndefined
  }

  /** `frontendIdToDbId.get(v) || v`. */
  function Endpoint(idMap: map<string, string>, v: Json): Json
  {
    Or(Mapped(idMap, v), v)
  }

  /** The source and target an edge definition names: `source ?? from`, `target ?? to`. */
  function RawSource(e: Json): Json { Coalesce(Member(e, "source"), Member(e, "from")) }
  function RawTarget(e: Json): Json { Coalesce(Member(e, "target"), Member(e, "to")) }

  /** The stored attributes of an edge definition: the kind `kind ?? type ?? 'normal'`,
      the condition and handles `?? null`. */
  function EdgeAttrs(id: string, e: Json): EdgeRow
  {
    EdgeRow(id, Param(Coalesce(Member(e, "kind"), Coalesce(Member(e, "type"), JStr("normal")))),
            Coalesce(Member(e, "condition"), JNull),
            Coalesce(Member(e, "sourceHandle"), JNull), Coalesce(Member(e, "targetHandle"), JNull))
  }

  /** `${sourceId}:${targetId}`. */
  function EdgeKey(s: string, t: string): string
  {
    s + ":" + t
  }

  /** `const [source, target] = key.split(':')`. */
  function KeyPair(key: string): Option<(string, string)>
  {
    var parts := Split(key, ':');
    if |parts| >= 2 then Some((parts[0], parts[1])) else None
  }

  /** Stored ids hold no `:`, so an edge key gives back its pair. */
  lemma KeyRoundTrip(s: string, t: string, n: nat)
    requires IdBelow(s, n) && IdBelow(t, n)
    ensures KeyPair(EdgeKey(s, t)) == Some((s, t))
  {
    IdHasNoColon(s, n);
    IdHasNoColon(t, n);
    assert EdgeKey(s, t) == s + [':'] + t;
    SplitPair(s, t, ':');
  }

  /** The state after the edge's INSERT ... ON CONFLICT DO UPDATE on the pair. */
  function Upserted(st: ImportState, s: string, d: string, e: Json): ImportState
  {
    var t := st.t;
    var p := (s, d);
    var t2 := if p in t.edges then t.(edges := t.edges[p := EdgeAttrs(t.edges[p].id, e)])
              else t.(edges := t.edges[p := EdgeAttrs(FreshId(t), e)], nextId := t.nextId + 1);
    st.(t := t2, keptEdges := st.keptEdges + {EdgeKey(s, d)})
  }

  /** One turn of the edge loop: an edge with a falsy endpoint is skipped; otherwise it
      is upserted on its (source, target) pair. */
  function EdgeStep(st: ImportState, e: Json, u: UuidSyntax, numText: real -> string): Result<ImportState, Thrown>
  {
    if Nullish(e) then Err(NullAccess(e, "source"))
    else
      var s := Endpoint(st.idMap, RawSource(e));
      var d := Endpoint(st.idMap, RawTarget(e));
      if !Truthy(s) || !Truthy(d) then Ok(st)
      else if !UuidText(s, u) then Err(UuidError(s, numText))
      else if !UuidText(d, u) then Err(UuidError(d, numText))
      else if s.s !in st.t.nodes || d.s !in st.t.nodes then Err(ErrorOf(EdgeForeignKey))
      else Ok(Upserted(st, s.s, d.s, e))
  }

  function EdgeSteps(st: ImportState, es: seq<Json>, u: UuidSyntax, numText: real -> string): Result<ImportState, Thrown>
  {
    if es == [] then Ok(st)
    else
      match EdgeSteps(st, es[..|es| - 1], u, numText)
      case Err(e) => Err(e)
      case Ok(s1) => EdgeStep(s1, es[|es| - 1], u, numText)
  }

  /** An edge whose source or target is missing, after mapping, is skipped. */
  lemma EdgeSkipped(st: ImportState, e: Json, u: UuidSyntax, numText: real -> string)
    requires !Nullish(e)
    requires !Truthy(Endpoint(st.idMap, RawSource(e))) || !Truthy(Endpoint(st.idMap, RawTarget(e)))
    ensures EdgeStep(st, e, u, numText) == Ok(st)
  {
  }

  /** An upserted edge joins the mapped endpoints (the raw id where the map has none),
      keeps the id of an edge already on that pair and otherwise gets a fresh one, and
      carries the definition's attributes; no other edge changes. */
  lemma EdgeUpsert(st: ImportState, e: Json, u: UuidSyntax, numText: real -> string)
    requires EdgeStep(st, e, u, numText).Ok? && EdgeStep(st, e, u, numText) != Ok(st)
    ensures var st2 := EdgeStep(st, e, u, numText).value;
            var s := Endpoint(st.idMap, RawSource(e));
            var d := Endpoint(st.idMap, RawTarget(e));
            && s.JStr? && d.JStr? && s.s in st.t.nodes && d.s in st.t.nodes
            && (RawSource(e).JStr? && RawSource(e).s in st.idMap && st.idMap[RawSource(e).s] != ""
                ==> s.s == st.idMap[RawSource(e).s])
            && (!Truthy(Mapped(st.idMap, RawSource(e))) ==> s == RawSource(e))
            && st2 == Upserted(st, s.s, d.s, e)
  {
  }

  /** The upsert writes the pair's row, with the old id when there was one, and touches
      nothing else. */
  lemma UpsertedRow(st: ImportState, s: string, d: string, e: Json)
    ensures var st2 := Upserted(st, s, d, e);
            var p := (s, d);
            var id := if p in st.t.edges then st.t.edges[p].id else FreshId(st.t);
            && st2.t.edges == st.t.edges[p := EdgeAttrs(id, e)]
            && st2.t.nodes == st.t.nodes && st2.t.workflows == st.t.workflows
            && st2.keptEdges == st.keptEdges + {EdgeKey(s, d)}
            && st2.idMap == st.idMap && st2.kept == st.kept
  {
  }

  /** Without kind or type the edge is `normal`; without condition or handles those are
      null. */
  lemma EdgeDefaults(id: string, e: Json)
    requires Nullish(Member(e, "kind")) && Nullish(Member(e, "type"))
    requires Nullish(Member(e, "condition")) && Nullish(Member(e, "sourceHandle")) && Nullish(Member(e, "targetHandle"))
    ensures EdgeAttrs(id, e) == EdgeRow(id, JStr("normal"), JNull, JNull, JNull)
  {
  }

  /** Two definitions of the same pair leave one edge, with the id of the first upsert
      and the attributes of the second. */
  lemma RepeatedPair(st: ImportState, e1: Json, e2: Json, u: UuidSyntax, numText: real -> string)
    requires EdgeStep(st, e1, u, numText).Ok? && EdgeStep(st, e1, u, numText) != Ok(st)
    requires var st1 := EdgeStep(st, e1, u, numText).value;
             Endpoint(st.idMap, RawSource(e1)) == Endpoint(st1.idMap, RawSource(e2))
             && Endpoint(st.idMap, RawTarget(e1)) == Endpoint(st1.idMap, RawTarget(e2))
    ensures var st1 := EdgeStep(st, e1, u, numText).value;
            var st2 := EdgeStep(st1, e2, u, numText);
            var p := (Endpoint(st.idMap, RawSource(e1)).s, Endpoint(st.idMap, RawTarget(e1)).s);
            && p in st1.t.edges
            && st2 == Ok(Upserted(st1, p.0, p.1, e2))
            && st2.value.t.edges == st1.t.edges[p := EdgeAttrs(st1.t.edges[p].id, e2)]
            && st2.value.t.edges.Keys == st1.t.edges.Keys
  {
    EdgeUpsert(st, e1, u, numText);
    var st1 := EdgeStep(st, e1, u, numText).value;
    var p := (Endpoint(st.idMap, RawSource(e1)).s, Endpoint(st.idMap, RawTarget(e1)).s);
    UpsertedRow(st, p.0, p.1, e1);
    assert Truthy(Endpoint(st1.idMap, RawSource(e2)));
    assert !Nullish(e2);
    UpsertedRow(st1, p.0, p.1, e2);
  }

  lemma EdgeStepTracks(st: ImportState, wf: string, e: Json, u: UuidSyntax, numText: real -> string)
    requires Tracks(st, wf)
    requires EdgeStep(st, e, u, numText).Ok?
    ensures var st2 := EdgeStep(st, e, u, numText).value;
            Tracks(st2, wf) && st2.t.nodes == st.t.nodes && st2.kept == st.kept && st2.idMap == st.idMap
  {
    if EdgeStep(st, e, u, numText) != Ok(st) {
      EdgeUpsert(st, e, u, numText);
      UpsertedTracks(st, wf, Endpoint(st.idMap, RawSource(e)).s, Endpoint(st.idMap, RawTarget(e)).s, e);
    }
  }

  lemma UpsertedTracks(st: ImportState, wf: string, s: string, d: string, e: Json)
    requires Tracks(st, wf) && s in st.t.nodes && d in st.t.nodes
    ensures var st2 := Upserted(st, s, d, e);
            Tracks(st2, wf) && st2.t.nodes == st.t.nodes && st2.kept == st.kept && st2.idMap == st.idMap
  {
    var t2 := Upserted(st, s, d, e).t;
    UpsertedRow(st, s, d, e);
    if (s, d) in st.t.edges {
      UpdateKeepsValid(st.t, (s, d), EdgeAttrs(st.t.edges[(s, d)].id, e));
    } else {
      FreshIdIsFresh(st.t);
      InsertKeepsValid(st.t, t2);
    }
    KeyRoundTrip(s, d, st.t.nextId);
    EdgeKeepTracks(st, t2, wf, s, d);
  }

  /** Valid tables that only gained the edge on `(s, d)`, recorded as kept, keep
      tracking `wf`. */
  lemma EdgeKeepTracks(st: ImportState, t2: Tables, wf: string, s: string, d: string)
    requires Tracks(st, wf) && Valid(t2) && t2.workflows == st.t.workflows && t2.nodes == st.t.nodes
    requires (s, d) in t2.edges && st.t.edges.Keys <= t2.edges.Keys
    requires KeyPair(EdgeKey(s, d)) == Some((s, d))
    ensures Tracks(st.(t := t2, keptEdges := st.keptEdges + {EdgeKey(s, d)}), wf)
  {
    KeysAmongEdges(st.keptEdges, EdgeKey(s, d), st.t.edges, t2.edges);
  }

  lemma KeysAmongEdges(keys: set<string>, key: string, edges: map<(string, string), EdgeRow>, edges2: map<(string, string), EdgeRow>)
    requires forall k :: k in keys ==> KeyPair(k).Some? && KeyPair(k).value in edges
    requires KeyPair(key).Some? && KeyPair(key).value in edges2 && edges.Keys <= edges2.Keys
    ensures forall k :: k in keys + {key} ==> KeyPair(k).Some? && KeyPair(k).value in edges2
  {
  }

  /** Rewriting the attributes of a stored edge, keeping its id, keeps the invariant. */
  lemma UpdateKeepsValid(t: Tables, p: (string, string), row: EdgeRow)
    requires Valid(t) && p in t.edges && row.id == t.edges[p].id
    ensures Valid(t.(edges := t.edges[p := row]))
  {
  }

  lemma {:induction false} EdgeStepsTracks(st: ImportState, wf: string, es: seq<Json>, u: UuidSyntax, numText: real -> string)
    requires Tracks(st, wf)
    requires EdgeSteps(st, es, u, numText).Ok?
    ensures Tracks(EdgeSteps(st, es, u, numText).value, wf)
    ensures EdgeSteps(st, es, u, numText).value.t.nodes == st.t.nodes
    ensures EdgeSteps(st, es, u, numText).value.kept == st.kept
    ensures EdgeSteps(st, es, u, numText).value.idMap == st.idMap
  {
    if es != [] {
      EdgeStepsTracks(st, wf, es[..|es| - 1], u, numText);
      EdgeStepTracks(EdgeSteps(st, es[..|es| - 1], u, numText).value, wf, es[|es| - 1], u, numText);
    }
  }

  // ---------------------------------------------------------------- clean-up

  /** The pairs of the kept edge keys. */
  function KeptPairs(keys: set<string>): set<(string, string)>
  {
    set k | k in keys && KeyPair(k).Some? :: KeyPair(k).value
  }

  /** The edges the clean-up keeps: with kept keys, every edge except those inside the
      workflow whose pair is not kept; without, only the edges touching none of the
      workflow's nodes. */
  function KeptEdges(t: Tables, wf: string, keptEdges: set<string>): map<(string, string), EdgeRow>
  {
    var inside := NodesOf(t, wf);
    var pairs := KeptPairs(keptEdges);
    if keptEdges != {} then
      map p | p in t.edges && !(p.0 in inside && p.1 in inside && p !in pairs) :: t.edges[p]
    else
      map p | p in t.edges && p.0 !in inside && p.1 !in inside :: t.edges[p]
  }

  /** The nodes of the workflow that were not kept. */
  function Stale(t: Tables, wf: string, kept: set<string>): set<string>
  {
    set n | n in NodesOf(t, wf) && n !in kept
  }

  /** The two DELETEs: stale edges first, then stale nodes, which fails while an edge
      still points at one of them. */
  function Cleanup(t: Tables, wf: string, kept: set<string>, keptEdges: set<string>): Result<Tables, Thrown>
  {
    var edges := KeptEdges(t, wf, keptEdges);
    var stale := Stale(t, wf, kept);
    if exists p :: p in edges && (p.0 in stale || p.1 in stale) then Err(ErrorOf(NodeForeignKey))
    else Ok(t.(edges := edges, nodes := map n | n in t.nodes && n !in stale :: t.nodes[n]))
  }

  /** After the clean-up the workflow's nodes are exactly the kept ones, and the edges
      are the stored ones the two DELETE conditions spare; the invariant holds. */
  lemma CleanupExact(st: ImportState, wf: string)
    requires Tracks(st, wf)
    requires Cleanup(st.t, wf, st.kept, st.keptEdges).Ok?
    ensures var t2 := Cleanup(st.t, wf, st.kept, st.keptEdges).value;
            var inside := NodesOf(st.t, wf);
            && NodesOf(t2, wf) == st.kept
            && (forall n :: n in t2.nodes <==> n in st.t.nodes && (n in inside ==> n in st.kept))
            && (st.keptEdges != {} ==>
                  forall p :: p in t2.edges <==> p in st.t.edges && (p.0 in inside && p.1 in inside ==> p in KeptPairs(st.keptEdges)))
            && (st.keptEdges == {} ==>
                  forall p :: p in t2.edges <==> p in st.t.edges && p.0 !in inside && p.1 !in inside)
            && (forall p :: p in KeptPairs(st.keptEdges) ==> p in t2.edges)
            && Valid(t2)
  {
    var t := st.t;
    var t2 := Cleanup(t, wf, st.kept, st.keptEdges).value;
    var inside := NodesOf(t, wf);
    var stale := Stale(t, wf, st.kept);
    forall p | p in KeptPairs(st.keptEdges) ensures p in t2.edges {
      var k :| k in st.keptEdges && KeyPair(k).Some? && KeyPair(k).value == p;
    }
    forall p | p in t2.edges ensures p.0 in t2.nodes && p.1 in t2.nodes && IdBelow(t2.edges[p].id, t2.nextId) {
      assert !(p.0 in stale || p.1 in stale);
    }
  }

  /** The whole of `import` on committed tables `t`. */
  datatype ImportResult = ImportResult(id: string, nodeIdMap: map<string, string>)
  datatype Imported = Imported(tables: Tables, result: ImportResult)

  function ImportOutcome(t: Tables, def: Json, u: UuidSyntax, numText: real -> string): Result<Imported, Thrown>
  {
    if Nullish(def) then Err(NullAccess(def, "workflows"))
    else
      match ChooseWorkflow(t, def, u, numText)
      case Err(e) => Err(e)
      case Ok(chosen) =>
        match Iterate(NodeList(def))
        case Err(e) => Err(e)
        case Ok(ns) =>
          match NodeSteps(ImportState(chosen.0, map[], {}, {}), chosen.1, ns, u, numText)
          case Err(e) => Err(e)
          case Ok(s1) =>
            match Iterate(Coalesce(Field(def, "edges"), JArr([])))
            case Err(e) => Err(e)
            case Ok(es) =>
              match EdgeSteps(s1, es, u, numText)
              case Err(e) => Err(e)
              case Ok(s2) =>
                match Cleanup(s2.t, chosen.1, s2.kept, s2.keptEdges)
                case Err(e) => Err(e)
                case Ok(t3) => Ok(Imported(t3, ImportResult(chosen.1, s2.idMap)))
  }

  /** A successful import leaves valid tables in which the returned workflow holds
      exactly the kept nodes, and every node definition with an id is mapped to one of
      them. */
  lemma ImportKeepsValid(t: Tables, def: Json, u: UuidSyntax, numText: real -> string)
    requires Valid(t) && Generated(u)
    requires ImportOutcome(t, def, u, numText).Ok?
    ensures var out := ImportOutcome(t, def, u, numText).value;
            var ns := Iterate(NodeList(def)).value;
            && Valid(out.tables) && out.result.id in out.tables.workflows
            && (forall x :: x in out.result.nodeIdMap ==> out.result.nodeIdMap[x] in NodesOf(out.tables, out.result.id))
            && (forall i :: 0 <= i < |ns| && Truthy(Member(ns[i], "id")) ==>
                  Member(ns[i], "id").JStr? && Member(ns[i], "id").s in out.result.nodeIdMap)
  {
    WorkflowChoice(t, def, u, numText);
    var chosen := ChooseWorkflow(t, def, u, numText).value;
    var ns := Iterate(NodeList(def)).value;
    var st0 := ImportState(chosen.0, map[], {}, {});
    NodeStepsTracks(st0, chosen.1, ns, u, numText);
    IdMapCoverage(st0, chosen.1, ns, u, numText);
    var s1 := NodeSteps(st0, chosen.1, ns, u, numText).value;
    var es := Iterate(Coalesce(Field(def, "edges"), JArr([]))).value;
    EdgeStepsTracks(s1, chosen.1, es, u, numText);
    var s2 := EdgeSteps(s1, es, u, numText).value;
    CleanupExact(s2, chosen.1);
  }

  // ---------------------------------------------------------------- fold errors

  lemma {:induction false} NodeStepsErr(st: ImportState, wf: string, ns: seq<Json>, j: nat, u: UuidSyntax, numText: real -> string)
    requires j <= |ns| && NodeSteps(st, wf, ns[..j], u, numText).Err?
    ensures NodeSteps(st, wf, ns, u, numText) == NodeSteps(st, wf, ns[..j], u, numText)
    decreases |ns| - j
  {
    if j < |ns| {
      assert ns[..j + 1][..j] == ns[..j];
      NodeStepsErr(st, wf, ns, j + 1, u, numText);
    } else {
      assert ns[..j] == ns;
    }
  }

  lemma {:induction false} EdgeStepsErr(st: ImportState, es: seq<Json>, j: nat, u: UuidSyntax, numText: real -> string)
    requires j <= |es| && EdgeSteps(st, es[..j], u, numText).Err?
    ensures EdgeSteps(st, es, u, numText) == EdgeSteps(st, es[..j], u, numText)
    decreases |es| - j
  {
    if j < |es| {
      assert es[..j + 1][..j] == es[..j];
      EdgeStepsErr(st, es, j + 1, u, numText);
    } else {
      assert es[..j] == es;
    }
  }

  // ---------------------------------------------------------------- getById

  /** A row of the `getById` join; columns of an absent node or edge are null. */
  datatype JoinedRow = JoinedRow(
    workflowId: Json, workflowName: Json,
    nodeId: Json, nodeLabel: Json, nodeKind: Json, position: Json, data: Json,
    edgeId: Json, sourceId: Json, targetId: Json, edgeKind: Json, condition: Json,
    sourceHandle: Json, targetHandle: Json)

  datatype NodeView = NodeView(id: Json, name: Json, kind: Json, position: Json, data: Json)
  datatype EdgeView = EdgeView(id: Json, source: Json, target: Json, edgeType: string,
                               condition: Json, sourceHandle: Json, targetHandle: Json)
  datatype WorkflowView = WorkflowView(id: Json, name: Json, nodes: seq<NodeView>, edges: seq<EdgeView>)

  /** `x || undefined`. */
  function OrUndefined(j: Json): Json
  {
    Or(j, JUndefined)
  }

  /** The node a row carries, when `row.node_id` is truthy. */
  function NodeOf(row: JoinedRow): Option<NodeView>
  {
    if Truthy(row.nodeId) then Some(NodeView(row.nodeId, row.nodeLabel, row.nodeKind, row.position, row.data))
    else None
  }

  /** The edge a row carries, when its id and both endpoints are truthy. */
  function EdgeOf(row: JoinedRow): Option<EdgeView>
  {
    if Truthy(row.edgeId) && Truthy(row.sourceId) && Truthy(row.targetId) then
      Some(EdgeView(row.edgeId, row.sourceId, row.targetId, if row.edgeKind == JStr("if") then "if" else "normal",
                    OrUndefined(row.condition), OrUndefined(row.sourceHandle), OrUndefined(row.targetHandle)))
    else None
  }

  function NodeKey(v: NodeView): Json { v.id }
  function EdgeKeyOf(v: EdgeView): Json { v.id }

  /** The keys of a list. */
  function Keys<T(==)>(xs: seq<T>, key: T -> Json): set<Json>
  {
    set x | x in xs :: key(x)
  }

  /** What a `Map` filled by `if (!m.has(k)) m.set(k, v)` over the rows holds, in
      insertion order. */
  function FirstByKey<T(==)>(rows: seq<JoinedRow>, f: JoinedRow -> Option<T>, key: T -> Json): seq<T>
  {
    if rows == [] then []
    else
      var init := FirstByKey(rows[..|rows| - 1], f, key);
      var c := f(rows[|rows| - 1]);
      if c.Some? && key(c.value) !in Keys(init, key) then init + [c.value] else init
  }

  /** No key appears twice in the list. */
  predicate DistinctKeys<T>(xs: seq<T>, key: T -> Json)
  {
    forall i, j :: 0 <= i < j < |xs| ==> key(xs[i]) != key(xs[j])
  }

  /** No key appears twice. */
  lemma {:induction false} FirstByKeyDistinct<T>(rows: seq<JoinedRow>, f: JoinedRow -> Option<T>, key: T -> Json)
    ensures DistinctKeys(FirstByKey(rows, f, key), key)
  {
    if rows != [] {
      FirstByKeyDistinct(rows[..|rows| - 1], f, key);
      var init := FirstByKey(rows[..|rows| - 1], f, key);
      var c := f(rows[|rows| - 1]);
      if c.Some? && key(c.value) !in Keys(init, key) {
        var r := init + [c.value];
        assert FirstByKey(rows, f, key) == r;
        forall i, j | 0 <= i < j < |r| ensures key(r[i]) != key(r[j]) {
          assert r[i] == init[i];
          if j == |init| {
            assert key(init[i]) in Keys(init, key);
          } else {
            assert r[j] == init[j];
          }
        }
      }
    }
  }

  /** Exactly the keys some row carries appear, each with the value of the first row
      that carries it. */
  lemma {:induction false} FirstByKeyFirst<T>(rows: seq<JoinedRow>, f: JoinedRow -> Option<T>, key: T -> Json, i: nat)
    requires i < |rows| && f(rows[i]).Some?
    requires forall j :: 0 <= j < i && f(rows[j]).Some? ==> key(f(rows[j]).value) != key(f(rows[i]).value)
    ensures f(rows[i]).value in FirstByKey(rows, f, key)
  {
    var init := rows[..|rows| - 1];
    if i < |init| {
      assert init[i] == rows[i];
      forall j | 0 <= j < i && f(init[j]).Some? ensures key(f(init[j]).value) != key(f(init[i]).value) {
        assert init[j] == rows[j];
      }
      FirstByKeyFirst(init, f, key, i);
    } else {
      var prev := FirstByKey(init, f, key);
      var c := f(rows[i]).value;
      forall x | x in prev ensures key(x) != key(c) {
        FirstByKeySound(init, f, key, x);
        var j :| 0 <= j < |init| && f(init[j]) == Some(x);
        assert rows[j] == init[j];
      }
      assert key(c) !in Keys(prev, key);
    }
  }

  /** The list follows the rows: `idx` gives, for each listed value, the first row that
      carries its key, in increasing order, and every key some row carries is listed. */
  lemma {:induction false} FirstByKeyOrder<T>(rows: seq<JoinedRow>, f: JoinedRow -> Option<T>, key: T -> Json)
    returns (idx: seq<nat>)
    ensures |idx| == |FirstByKey(rows, f, key)|
    ensures forall k :: 0 <= k < |idx| ==>
      idx[k] < |rows| && f(rows[idx[k]]) == Some(FirstByKey(rows, f, key)[k])
    ensures forall k, l :: 0 <= k < l < |idx| ==> idx[k] < idx[l]
    ensures forall k, j :: 0 <= k < |idx| && 0 <= j < idx[k] && f(rows[j]).Some? ==>
      key(f(rows[j]).value) != key(FirstByKey(rows, f, key)[k])
    ensures forall j :: 0 <= j < |rows| && f(rows[j]).Some? ==>
      key(f(rows[j]).value) in Keys(FirstByKey(rows, f, key), key)
  {
    if rows == [] {
      idx := [];
    } else {
      var n := |rows| - 1;
      var init := rows[..n];
      var prev := FirstByKey(init, f, key);
      var out := FirstByKey(rows, f, key);
      var pidx := FirstByKeyOrder(init, f, key);
      forall j | 0 <= j < n ensures rows[j] == init[j] { }
      var c := f(rows[n]);
      if c.Some? && key(c.value) !in Keys(prev, key) {
        assert out == prev + [c.value];
        idx := pidx + [n];
        forall j | 0 <= j < |rows| && f(rows[j]).Some?
          ensures key(f(rows[j]).value) in Keys(out, key)
        {
          if j < n {
            var x :| x in prev && key(x) == key(f(init[j]).value);
            assert x in out;
          } else {
            assert out[|prev|] == c.value;
          }
        }
        forall k, j | 0 <= k < |idx| && 0 <= j < idx[k] && f(rows[j]).Some?
          ensures key(f(rows[j]).value) != key(out[k])
        {
          if k < |pidx| {
            assert out[k] == prev[k];
          } else {
            assert key(f(init[j]).value) in Keys(prev, key);
          }
        }
      } else {
        assert out == prev;
        idx := pidx;
      }
    }
  }

  /** Every listed value is carried by some row. */
  lemma {:induction false} FirstByKeySound<T>(rows: seq<JoinedRow>, f: JoinedRow -> Option<T>, key: T -> Json, x: T)
    requires x in FirstByKey(rows, f, key)
    ensures exists j :: 0 <= j < |rows| && f(rows[j]) == Some(x)
  {
    var init := rows[..|rows| - 1];
    if x in FirstByKey(init, f, key) {
      FirstByKeySound(init, f, key, x);
      var j :| 0 <= j < |init| && f(init[j]) == Some(x);
      assert rows[j] == init[j];
    } else {
      assert f(rows[|rows| - 1]) == Some(x);
    }
  }

  /** `getById(id)` over the rows its query returns. */
  function WorkflowOf(rows: seq<JoinedRow>): Option<WorkflowView>
  {
    if rows == [] then None
    else Some(WorkflowView(rows[0].workflowId, rows[0].workflowName,
                           FirstByKey(rows, NodeOf, NodeKey), FirstByKey(rows, EdgeOf, EdgeKeyOf)))
  }

  /** The `forEach` that fills `nodeMap` and `edgeMap`. */
  method GetById(rows: seq<JoinedRow>) returns (r: Option<WorkflowView>)
    ensures r == WorkflowOf(rows)
  {
    if |rows| == 0 {
      return None;
    }
    var nodes: seq<NodeView> := [];
    var nodeIds: set<Json> := {};
    var edges: seq<EdgeView> := [];
    var edgeIds: set<Json> := {};
    var i := 0;
    while i < |rows|
      invariant i <= |rows|
      invariant nodes == FirstByKey(rows[..i], NodeOf, NodeKey) && nodeIds == Keys(nodes, NodeKey)
      invariant edges == FirstByKey(rows[..i], EdgeOf, EdgeKeyOf) && edgeIds == Keys(edges, EdgeKeyOf)
    {
      var row := rows[i];
      assert rows[..i + 1][..i] == rows[..i];
      if Truthy(row.nodeId) && row.nodeId !in nodeIds {
        var v := NodeView(row.nodeId, row.nodeLabel, row.nodeKind, row.position, row.data);
        nodes := nodes + [v];
        nodeIds := nodeIds + {row.nodeId};
      }
      if Truthy(row.edgeId) && Truthy(row.sourceId) && Truthy(row.targetId) {
        if row.edgeId !in edgeIds {
          var v := EdgeView(row.edgeId, row.sourceId, row.targetId, if row.edgeKind == JStr("if") then "if" else "normal",
                            OrUndefined(row.condition), OrUndefined(row.sourceHandle), OrUndefined(row.targetHandle));
          edges := edges + [v];
          edgeIds := edgeIds + {row.edgeId};
        }
      }
      i := i + 1;
    }
    assert rows[..i] == rows;
    return Some(WorkflowView(rows[0].workflowId, rows[0].workflowName, nodes, edges));
  }

  /** An edge's type is `if` exactly when its stored kind is `if`, and a falsy condition
      or handle reads as undefined. */
  lemma EdgeViewFields(row: JoinedRow)
    requires EdgeOf(row).Some?
    ensures EdgeOf(row).value.edgeType == "if" <==> row.edgeKind == JStr("if")
    ensures !Truthy(row.condition) ==> EdgeOf(row).value.condition == JUndefined
    ensures Truthy(row.condition) ==> EdgeOf(row).value.condition == row.condition
    ensures !Truthy(row.sourceHandle) ==> EdgeOf(row).value.sourceHandle == JUndefined
    ensures !Truthy(row.targetHandle) ==> EdgeOf(row).value.targetHandle == JUndefined
  {
  }

  // ---------------------------------------------------------------- service

  class WorkflowsService {
    const db: Database

    constructor (db: Database)
      ensures this.db == db
    {
      this.db := db;
    }

    /** `import(def)`: all of it in one transaction on a copy of the tables, written
        back by COMMIT; any error drops the copy (ROLLBACK) and is rethrown. */
    method Import(def: Json, u: UuidSyntax, numText: real -> string) returns (r: Result<ImportResult, Thrown>)
      requires Valid(db.tables) && Generated(u)
      modifies db
      ensures Valid(db.tables)
      ensures match ImportOutcome(old(db.tables), def, u, numText)
              case Ok(out) => r == Ok(out.result) && db.tables == out.tables
              case Err(e) => r == Err(e) && db.tables == old(db.tables)
    {
      var committed := db.tables;
      // BEGIN
      if Nullish(def) {
        return Err(NullAccess(def, "workflows"));
      }
      var chosen := ChooseWorkflow(committed, def, u, numText);
      if chosen.Err? {
        return Err(chosen.error);
      }
      var workflowId := chosen.value.1;
      var nodeList := Iterate(NodeList(def));
      if nodeList.Err? {
        return Err(nodeList.error);
      }
      var ns := nodeList.value;
      var nodesDone := RunNodes(ImportState(chosen.value.0, map[], {}, {}), workflowId, ns, u, numText);
      if nodesDone.Err? {
        return Err(nodesDone.error);
      }
      var edgeList := Iterate(Coalesce(Field(def, "edges"), JArr([])));
      if edgeList.Err? {
        return Err(edgeList.error);
      }
      var edgesDone := RunEdges(nodesDone.value, edgeList.value, u, numText);
      if edgesDone.Err? {
        return Err(edgesDone.error);
      }
      var st := edgesDone.value;
      var cleaned := Cleanup(st.t, workflowId, st.kept, st.keptEdges);
      if cleaned.Err? {
        return Err(cleaned.error);
      }
      ImportKeepsValid(committed, def, u, numText);
      // COMMIT
      db.tables := cleaned.value;
      return Ok(ImportResult(workflowId, st.idMap));
    }

    /** `nodeId(workflowId, nodeId)`. */
    method NodeId(workflowId: string, nodeId: string, u: UuidSyntax) returns (r: Result<Option<string>, Thrown>)
      ensures r == NodeLookup(db.tables, u, workflowId, nodeId)
    {
      var t := db.tables;
      if !u.pg(workflowId) {
        return Err(UuidError(JStr(workflowId), n => ""));
      }
      if !u.pg(nodeId) {
        return Err(UuidError(JStr(nodeId), n => ""));
      }
      if nodeId in t.nodes && t.nodes[nodeId].workflowId == workflowId {
        return Ok(Some(nodeId));
      }
      return Ok(None);
    }

    /** `firstNodeId(workflowId)`: LIMIT 1 without ORDER BY returns any node of the
        workflow that no edge points to. */
    method FirstNodeId(workflowId: string, u: UuidSyntax) returns (r: Result<Option<string>, Thrown>)
      ensures !u.pg(workflowId) ==> r == Err(UuidError(JStr(workflowId), n => ""))
      ensures u.pg(workflowId) ==> r.Ok?
      ensures r.Ok? ==> (r.value.None? <==> RootsOf(db.tables, workflowId) == {})
      ensures r.Ok? && r.value.Some? ==> r.value.value in RootsOf(db.tables, workflowId)
    {
      if !u.pg(workflowId) {
        return Err(UuidError(JStr(workflowId), n => ""));
      }
      var roots := RootsOf(db.tables, workflowId);
      if roots == {} {
        return Ok(None);
      }
      var n :| n in roots;
      return Ok(Some(n));
    }
  }

  /** What `nodeId` answers: the id when that node belongs to the workflow, null when
      not, and PostgreSQL's error when either id is not uuid text. */
  function NodeLookup(t: Tables, u: UuidSyntax, workflowId: string, nodeId: string): (r: Result<Option<string>, Thrown>)
    ensures r.Ok? <==> u.pg(workflowId) && u.pg(nodeId)
    ensures r == Ok(Some(nodeId)) <==> u.pg(workflowId) && u.pg(nodeId) && nodeId in t.nodes && t.nodes[nodeId].workflowId == workflowId
    ensures r.Ok? && r.value.Some? ==> r.value.value == nodeId
  {
    if !u.pg(workflowId) then Err(UuidError(JStr(workflowId), n => ""))
    else if !u.pg(nodeId) then Err(UuidError(JStr(nodeId), n => ""))
    else if nodeId in t.nodes && t.nodes[nodeId].workflowId == workflowId then Ok(Some(nodeId))
    else Ok(None)
  }

  /** A found node is a node of its workflow, and nodes of another workflow are not
      found. */
  lemma LookupScoped(t: Tables, u: UuidSyntax, w1: string, w2: string, nodeId: string)
    requires w1 != w2 && NodeLookup(t, u, w1, nodeId) == Ok(Some(nodeId))
    ensures NodeLookup(t, u, w2, nodeId) != Ok(Some(nodeId))
    ensures nodeId in NodesOf(t, w1)
  {
  }

  /** The node loop of `import`: `for (const n of nodes)`, stopping at the first throw. */
  method RunNodes(st0: ImportState, wf: string, ns: seq<Json>, u: UuidSyntax, numText: real -> string)
    returns (r: Result<ImportState, Thrown>)
    ensures r == NodeSteps(st0, wf, ns, u, numText)
  {
    var st := st0;
    var i := 0;
    while i < |ns|
      invariant i <= |ns|
      invariant NodeSteps(st0, wf, ns[..i], u, numText) == Ok(st)
    {
      assert ns[..i + 1][..i] == ns[..i];
      var next := ApplyNode(st, wf, ns[i], u, numText);
      if next.Err? {
        NodeStepsErr(st0, wf, ns, i + 1, u, numText);
        return Err(next.error);
      }
      st := next.value;
      i := i + 1;
    }
    assert ns[..i] == ns;
    return Ok(st);
  }

  /** The edge loop of `import`: `for (const e of edges)`, stopping at the first throw. */
  method RunEdges(st0: ImportState, es: seq<Json>, u: UuidSyntax, numText: real -> string)
    returns (r: Result<ImportState, Thrown>)
    ensures r == EdgeSteps(st0, es, u, numText)
  {
    var st := st0;
    var j := 0;
    while j < |es|
      invariant j <= |es|
      invariant EdgeSteps(st0, es[..j], u, numText) == Ok(st)
    {
      assert es[..j + 1][..j] == es[..j];
      var next := ApplyEdge(st, es[j], u, numText);
      if next.Err? {
        EdgeStepsErr(st0, es, j + 1, u, numText);
        return Err(next.error);
      }
      st := next.value;
      j := j + 1;
    }
    assert es[..j] == es;
    return Ok(st);
  }

  /** `import` steps, each the statement list of one loop turn. */
  method ApplyNode(st: ImportState, wf: string, n: Json, u: UuidSyntax, numText: real -> string)
    returns (r: Result<ImportState, Thrown>)
    ensures r == NodeStep(st, wf, n, u, numText)
  {
    if Nullish(n) {
      return Err(NullAccess(n, "position"));
    }
    var row := NodeRow(wf, Param(Member(n, "name")), Param(Member(n, "kind")),
                       Coalesce(Member(n, "position"), JObj(map[])), Coalesce(Member(n, "data"), JObj(map[])));
    var id := Member(n, "id");
    if Truthy(id) && !id.JStr? {
      return Err(TypeErrorOf(StartsWithMissing));
    }
    var t := st.t;
    var dbId: string;
    if Truthy(id) && !StartsWith(id.s, TempPrefix) {
      if !u.pg(id.s) {
        return Err(UuidError(id, numText));
      }
      if id.s in t.nodes && t.nodes[id.s].workflowId == wf {
        dbId := id.s;
        t := t.(nodes := t.nodes[dbId := row]);
      } else {
        dbId := FreshId(t);
        t := t.(nodes := t.nodes[dbId := row], nextId := t.nextId + 1);
      }
    } else {
      dbId := FreshId(t);
      t := t.(nodes := t.nodes[dbId := row], nextId := t.nextId + 1);
    }
    var idMap := st.idMap;
    if Truthy(id) {
      idMap := idMap[id.s := dbId];
    }
    return Ok(ImportState(t, idMap, st.kept + {dbId}, st.keptEdges));
  }

  method ApplyEdge(st: ImportState, e: Json, u: UuidSyntax, numText: real -> string)
    returns (r: Result<ImportState, Thrown>)
    ensures r == EdgeStep(st, e, u, numText)
  {
    if Nullish(e) {
      return Err(NullAccess(e, "source"));
    }
    var sourceId := Or(Mapped(st.idMap, RawSource(e)), RawSource(e));
    var targetId := Or(Mapped(st.idMap, RawTarget(e)), RawTarget(e));
    if !Truthy(sourceId) || !Truthy(targetId) {
      return Ok(st);
    }
    var attrs := EdgeAttrs("", e);
    if !UuidText(sourceId, u) {
      return Err(UuidError(sourceId, numText));
    }
    if !UuidText(targetId, u) {
      return Err(UuidError(targetId, numText));
    }
    var t := st.t;
    var p := (sourceId.s, targetId.s);
    if p.0 !in t.nodes || p.1 !in t.nodes {
      return Err(ErrorOf(EdgeForeignKey));
    }
    if p in t.edges {
      t := t.(edges := t.edges[p := attrs.(id := t.edges[p].id)]);
    } else {
      t := t.(edges := t.edges[p := attrs.(id := FreshId(t))], nextId := t.nextId + 1);
    }
    return Ok(st.(t := t, keptEdges := st.keptEdges + {sourceId.s + ":" + targetId.s}));
  }
}
