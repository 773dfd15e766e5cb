/** The PostgreSQL tables the workflow API reads and writes (`_workflow`, `_node`,
    `_edge`, `_instance`, `_activity`), held in memory. Ids the database would generate
    come from a counter and are written as decimal numerals; the foreign keys from
    edges to nodes and from nodes to workflows are kept as an invariant. */
module Store {
  import opened Wrappers
  import opened Text
  import opened Json

  /** A `_node` row: the workflow it belongs to, its label, kind, position and data. */
  datatype NodeRow = NodeRow(workflowId: string, nodeLabel: Json, kind: Json, position: Json, data: Json)

  /** An `_edge` row, keyed by its (source_id, target_id) pair. */
  datatype EdgeRow = EdgeRow(id: string, kind: Json, condition: Json, sourceHandle: Json, targetHandle: Json)

  /** An `_instance` row. */
  datatype InstanceRow = InstanceRow(workflowId: string, status: string, input: Json)

  /** An `_activity` row, as it stands once its transaction has committed. */
  datatype ActivityRow = ActivityRow(id: string, instanceId: string, workflowId: string, nodeId: string,
                                     status: string, input: Json, output: Json, error: Option<string>)

  /** All tables. Activities are listed in creation order, which is the order of
      `created_at`. */
  datatype Tables = Tables(
    workflows: map<string, Json>,
    nodes: map<string, NodeRow>,
    edges: map<(string, string), EdgeRow>,
    instances: map<string, InstanceRow>,
    activities: seq<ActivityRow>,
    nextId: nat)

  /** `id` is the numeral of a value the counter has already handed out: one of the
      numerals of `0`, ..., `n - 1`. */
  predicate IdBelow(id: string, n: nat)
  {
    n > 0 && (id == NatToDecimal(n - 1) || IdBelow(id, n - 1))
  }

  /** Every id was generated before the counter's current value, and every edge joins
      two stored nodes, every node a stored workflow. */
  predicate Valid(t: Tables)
  {
    && (forall w :: w in t.workflows ==> IdBelow(w, t.nextId))
    && (forall n :: n in t.nodes ==> IdBelow(n, t.nextId) && t.nodes[n].workflowId in t.workflows)
    && (forall p :: p in t.edges ==> p.0 in t.nodes && p.1 in t.nodes && IdBelow(t.edges[p].id, t.nextId))
    && (forall i :: i in t.instances ==> IdBelow(i, t.nextId))
    && (forall k :: 0 <= k < |t.activities| ==> IdBelow(t.activities[k].id, t.nextId))
  }

  /** The id the database generates next. */
  function FreshId(t: Tables): (id: string)
    ensures ParseNat(id) == Some(t.nextId)
  {
    DecimalRoundTrip(t.nextId);
    NatToDecimal(t.nextId)
  }

  /** A numeral below the counter is an id it handed out. */
  lemma {:induction false} IdBelowOf(m: nat, n: nat)
    requires m < n
    ensures IdBelow(NatToDecimal(m), n)
    decreases n
  {
    if m < n - 1 {
      IdBelowOf(m, n - 1);
    }
  }

  /** An id the counter handed out is the numeral of a value below it. */
  lemma {:induction false} IdBelowShape(id: string, n: nat) returns (m: nat)
    requires IdBelow(id, n)
    ensures m < n && id == NatToDecimal(m)
    decreases n
  {
    if id == NatToDecimal(n - 1) {
      m := n - 1;
    } else {
      m := IdBelowShape(id, n - 1);
    }
  }

  /** The counter's own numeral has not been handed out yet. */
  lemma FreshIdNotBelow(id: string, t: Tables)
    requires IdBelow(id, t.nextId)
    ensures id != FreshId(t)
  {
    var m := IdBelowShape(id, t.nextId);
    DecimalRoundTrip(m);
  }

  /** The generated id is used nowhere yet. */
  lemma FreshIdIsFresh(t: Tables)
    requires Valid(t)
    ensures FreshId(t) !in t.workflows && FreshId(t) !in t.nodes && FreshId(t) !in t.instances
    ensures forall p :: p in t.edges ==> t.edges[p].id != FreshId(t) && p.0 != FreshId(t) && p.1 != FreshId(t)
    ensures forall k :: 0 <= k < |t.activities| ==> t.activities[k].id != FreshId(t)
  {
    forall w | w in t.workflows ensures w != FreshId(t) { FreshIdNotBelow(w, t); }
    forall n | n in t.nodes ensures n != FreshId(t) { FreshIdNotBelow(n, t); }
    forall i | i in t.instances ensures i != FreshId(t) { FreshIdNotBelow(i, t); }
    forall p | p in t.edges ensures t.edges[p].id != FreshId(t) {
      FreshIdNotBelow(t.edges[p].id, t);
    }
    forall k | 0 <= k < |t.activities| ensures t.activities[k].id != FreshId(t) {
      FreshIdNotBelow(t.activities[k].id, t);
    }
  }

  /** Ids already below the counter stay below a larger one. */
  lemma {:induction false} IdBelowMonotone(id: string, m: nat, n: nat)
    requires IdBelow(id, m) && m <= n
    ensures IdBelow(id, n)
  {
    var k := IdBelowShape(id, m);
    IdBelowOf(k, n);
  }

  /** Generated ids are numerals, so they never contain the `:` that edge keys use. */
  lemma IdHasNoColon(id: string, n: nat)
    requires IdBelow(id, n)
    ensures forall k :: 0 <= k < |id| ==> id[k] != ':'
  {
    var m := IdBelowShape(id, n);
    assert AllDigits(NatToDecimal(m));
  }

  /** The ids of the nodes of a workflow. */
  function NodesOf(t: Tables, workflowId: string): (s: set<string>)
    ensures forall n :: n in s <==> n in t.nodes && t.nodes[n].workflowId == workflowId
  {
    set n | n in t.nodes && t.nodes[n].workflowId == workflowId
  }

  /** A node some edge points to. */
  predicate HasIncoming(t: Tables, n: string)
  {
    exists p :: p in t.edges && p.1 == n
  }

  /** The nodes of a workflow that no edge points to. */
  function RootsOf(t: Tables, workflowId: string): (s: set<string>)
    ensures forall n :: n in s <==> n in NodesOf(t, workflowId) && !HasIncoming(t, n)
  {
    set n | n in NodesOf(t, workflowId) && !HasIncoming(t, n)
  }

  /** The roots are some of the workflow's nodes; there are none exactly when every node
      has an incoming edge, and without edges every node is a root. */
  lemma RootsOfNodes(t: Tables, workflowId: string)
    ensures RootsOf(t, workflowId) <= NodesOf(t, workflowId)
    ensures RootsOf(t, workflowId) == {} <==>
      forall n :: n in NodesOf(t, workflowId) ==> HasIncoming(t, n)
    ensures |t.edges| == 0 ==> RootsOf(t, workflowId) == NodesOf(t, workflowId)
  {
  }

  /** The database: the committed tables. A transaction works on a copy of them and
      either writes the copy back (COMMIT) or drops it (ROLLBACK). */
  class Database {
    var tables: Tables

    constructor ()
      ensures tables == Tables(map[], map[], map[], map[], [], 0) && Valid(tables)
    {
      tables := Tables(map[], map[], map[], map[], [], 0);
    }
  }
}
