/** `EngineService` (api/src/engine/engine.service.ts): edge routing, the instance
    state, the join check, the kind dispatch of an activity and its status, and how
    `runNode` and `executeWorkflow` chain activities over the stored tables. The clock,
    `fetch`, `JSON.parse` and the broker are parameters. */
module Engine {
  import opened Wrappers
  import opened Text
  import opened Json
  import opened Conditions
  import opened Http
  import opened Store

  // ---------------------------------------------------------------- routing

  /** An outgoing edge as `nextFromEdges` sees it: the target, the type and the condition. */
  datatype RouteEdge = RouteEdge(to: string, edgeType: Json, condition: Json)

  /** `evalCond(c, ctx)` for any value `c`: `c?.match(...)` gives undefined for null or
      undefined (so false) and throws for a value that is not a string. */
  function CondHolds(c: Json, ctx: Json): (r: Result<bool, Thrown>)
    ensures Nullish(c) ==> r == Ok(false)
    ensures c.JStr? ==> r == Ok(EvalCond(c.s, ctx))
    ensures r.Err? <==> !Nullish(c) && !c.JStr?
  {
    if Nullish(c) then Ok(false)
    else if c.JStr? then Ok(EvalCond(c.s, ctx))
    else Err(TypeErrorOf("cond?.match is not a function"))
  }

  /** The context of an `if` condition. */
  function IfContext(payload: Json, state: Json): Json
  {
    JObj(map["activity_metadata" := payload, "worflow_activity_state" := state])
  }

  /** The context of a join condition: the state alone. */
  function JoinContext(state: Json): Json
  {
    JObj(map["worflow_activity_state" := state])
  }

  /** Whether `nextFromEdges` follows an edge: an `if` edge when its condition (or `''`)
      holds, an untyped or `normal` edge always, any other type (`loop`) never. */
  function Qualifies(e: RouteEdge, ctx: Json): (r: Result<bool, Thrown>)
    ensures e.edgeType == JStr("if") ==> r == CondHolds(Or(e.condition, JStr("")), ctx)
    ensures e.edgeType != JStr("if") ==> r == Ok(!Truthy(e.edgeType) || e.edgeType == JStr("normal"))
  {
    if e.edgeType == JStr("if") then CondHolds(Or(e.condition, JStr("")), ctx)
    else Ok(!Truthy(e.edgeType) || e.edgeType == JStr("normal"))
  }

  /** The target of the first qualifying edge, in order. */
  function FirstQualifying(edges: seq<RouteEdge>, ctx: Json): Result<Option<string>, Thrown>
    decreases |edges|
  {
    if edges == [] then Ok(None)
    else
      match Qualifies(edges[0], ctx)
      case Err(e) => Err(e)
      case Ok(true) => Ok(Some(edges[0].to))
      case Ok(false) => FirstQualifying(edges[1..], ctx)
  }

  /** `nextFromEdges(nodeRow, payload, instanceState)`: the search loop with early return. */
  method NextFromEdges(edges: seq<RouteEdge>, payload: Json, state: Json) returns (r: Result<Option<string>, Thrown>)
    ensures r == FirstQualifying(edges, IfContext(payload, state))
  {
    var ctx := IfContext(payload, state);
    var i := 0;
    while i < |edges|
      invariant i <= |edges|
      invariant FirstQualifying(edges, ctx) == FirstQualifying(edges[i..], ctx)
    {
      var e := edges[i];
      if e.edgeType == JStr("if") {
        var ok := CondHolds(Or(e.condition, JStr("")), ctx);
        if ok.Err? {
          return Err(ok.error);
        }
        if ok.value {
          return Ok(Some(e.to));
        }
      } else if !Truthy(e.edgeType) || e.edgeType == JStr("normal") {
        return Ok(Some(e.to));
      }
      assert edges[i..][1..] == edges[i + 1..];
      i := i + 1;
    }
    return Ok(None);
  }

  /** The routing result in plain terms: a target is returned exactly when its edge is
      the first that qualifies, every edge before it being passed over. */
  lemma {:induction false} FirstQualifyingIsFirst(edges: seq<RouteEdge>, ctx: Json, target: string)
    ensures FirstQualifying(edges, ctx) == Ok(Some(target))
        <==> exists i :: 0 <= i < |edges| && edges[i].to == target && Qualifies(edges[i], ctx) == Ok(true)
                         && forall j :: 0 <= j < i ==> Qualifies(edges[j], ctx) == Ok(false)
    decreases |edges|
  {
    if edges != [] {
      FirstQualifyingIsFirst(edges[1..], ctx, target);
      FirstOfTail(edges, (e: RouteEdge) => e.to == target && Qualifies(e, ctx) == Ok(true), e => Qualifies(e, ctx) == Ok(false));
    }
  }

  /** Some element is the first to be hit, every one before it being missed, exactly when
      the head is hit or it is missed and the same holds of the tail. */
  lemma FirstOfTail<T>(xs: seq<T>, hit: T -> bool, miss: T -> bool)
    requires xs != []
    ensures (exists i :: 0 <= i < |xs| && hit(xs[i]) && forall j :: 0 <= j < i ==> miss(xs[j]))
        <==> hit(xs[0]) || (miss(xs[0]) && exists i :: 0 <= i < |xs[1..]| && hit(xs[1..][i])
                                                       && forall j :: 0 <= j < i ==> miss(xs[1..][j]))
  {
    var tail := xs[1..];
    if exists i :: 0 <= i < |xs| && hit(xs[i]) && forall j :: 0 <= j < i ==> miss(xs[j]) {
      var i :| 0 <= i < |xs| && hit(xs[i]) && forall j :: 0 <= j < i ==> miss(xs[j]);
      if i > 0 {
        assert miss(xs[0]);
        assert tail[i - 1] == xs[i];
        forall j | 0 <= j < i - 1 ensures miss(tail[j]) {
          assert tail[j] == xs[j + 1];
        }
      }
    }
    if !hit(xs[0]) && miss(xs[0]) && exists i :: 0 <= i < |tail| && hit(tail[i]) && forall j :: 0 <= j < i ==> miss(tail[j]) {
      var i :| 0 <= i < |tail| && hit(tail[i]) && forall j :: 0 <= j < i ==> miss(tail[j]);
      assert xs[i + 1] == tail[i];
      forall j | 0 <= j < i + 1 ensures miss(xs[j]) {
        if j > 0 {
          assert xs[j] == tail[j - 1];
        }
      }
    }
  }

  /** No target at all exactly when every edge is passed over without an error. */
  lemma {:induction false} FirstQualifyingNone(edges: seq<RouteEdge>, ctx: Json)
    ensures FirstQualifying(edges, ctx) == Ok(None)
        <==> forall i :: 0 <= i < |edges| ==> Qualifies(edges[i], ctx) == Ok(false)
    decreases |edges|
  {
    if edges != [] {
      FirstQualifyingNone(edges[1..], ctx);
      AllOfTail(edges, e => Qualifies(e, ctx) == Ok(false));
    }
  }

  /** `loop` edges are never followed; untyped and `normal` edges always are. */
  lemma EdgeTypes(to: string, c: Json, ctx: Json)
    ensures Qualifies(RouteEdge(to, JStr("loop"), c), ctx) == Ok(false)
    ensures Qualifies(RouteEdge(to, JUndefined, c), ctx) == Ok(true)
    ensures Qualifies(RouteEdge(to, JStr("normal"), c), ctx) == Ok(true)
  {
  }

  /** An `if` edge with no condition tests the empty condition, which never holds. */
  lemma IfWithoutCondition(to: string, ctx: Json)
    ensures Qualifies(RouteEdge(to, JStr("if"), JUndefined), ctx) == Ok(false)
  {
    EvalCondUnshaped("", ctx);
  }

  // ---------------------------------------------------------------- instance state

  /** The outputs of an instance's activities, in creation order. */
  function OutputsOf(activities: seq<ActivityRow>, instanceId: string): (outs: seq<Json>)
    ensures |outs| <= |activities|
  {
    if activities == [] then []
    else
      var init := OutputsOf(activities[..|activities| - 1], instanceId);
      var last := activities[|activities| - 1];
      if last.instanceId == instanceId then init + [last.output] else init
  }

  /** The outputs are exactly those of the instance's own activities, each once, in
      creation order: `idx` lists the positions they come from. */
  lemma {:induction false} OutputsOfIndices(activities: seq<ActivityRow>, instanceId: string)
    returns (idx: seq<nat>)
    ensures |idx| == |OutputsOf(activities, instanceId)|
    ensures forall k :: 0 <= k < |idx| ==>
      idx[k] < |activities| && activities[idx[k]].instanceId == instanceId &&
      OutputsOf(activities, instanceId)[k] == activities[idx[k]].output
    ensures forall k, l :: 0 <= k < l < |idx| ==> idx[k] < idx[l]
    ensures forall i :: 0 <= i < |activities| && activities[i].instanceId == instanceId ==> i in idx
    decreases |activities|
  {
    if activities == [] {
      idx := [];
    } else {
      var n := |activities| - 1;
      var init := activities[..n];
      var prev := OutputsOfIndices(init, instanceId);
      if activities[n].instanceId == instanceId {
        idx := prev + [n];
      } else {
        idx := prev;
      }
    }
  }

  /** `outputs.reduce((acc, o) => ({...acc, ...o}), {})`. */
  function Merge(outs: seq<Json>): map<string, Json>
  {
    if outs == [] then map[] else Merge(outs[..|outs| - 1]) + Spread(outs[|outs| - 1])
  }

  /** `instanceState(instanceId)` over the committed activities. */
  function InstanceState(t: Tables, instanceId: string): (s: Json)
    ensures s.JObj?
  {
    JObj(Merge(OutputsOf(t.activities, instanceId)))
  }

  /** Merging is a left fold: merging two runs is merging their merges, the later winning. */
  lemma {:induction false} MergeAppend(a: seq<Json>, b: seq<Json>)
    ensures Merge(a + b) == Merge(a) + Merge(b)
    decreases |b|
  {
    if b == [] {
      assert a + b == a;
    } else {
      var b0, x := b[..|b| - 1], b[|b| - 1];
      assert (a + b)[..|a + b| - 1] == a + b0;
      assert (a + b)[|a + b| - 1] == x;
      calc {
        Merge(a + b);
        Merge(a + b0) + Spread(x);
        { MergeAppend(a, b0); }
        (Merge(a) + Merge(b0)) + Spread(x);
        { UnionAssociative(Merge(a), Merge(b0), Spread(x)); }
        Merge(a) + (Merge(b0) + Spread(x));
      }
    }
  }

  lemma UnionAssociative<K, V>(m1: map<K, V>, m2: map<K, V>, m3: map<K, V>)
    ensures (m1 + m2) + m3 == m1 + (m2 + m3)
  {
  }

  /** A key of the state is a key of some output. */
  lemma {:induction false} MergeKeys(outs: seq<Json>, k: string)
    ensures k in Merge(outs) <==> exists i :: 0 <= i < |outs| && k in Spread(outs[i])
    decreases |outs|
  {
    if outs != [] {
      var init, x := outs[..|outs| - 1], outs[|outs| - 1];
      MergeKeys(init, k);
      assert k in Merge(outs) <==> k in Merge(init) || k in Spread(x);
      if k in Spread(x) {
        assert k in Spread(outs[|outs| - 1]);
      } else if k in Merge(init) {
        var i :| 0 <= i < |init| && k in Spread(init[i]);
        assert outs[i] == init[i];
      } else {
        forall i | 0 <= i < |outs| ensures k !in Spread(outs[i]) {
          if i < |init| {
            assert outs[i] == init[i];
          }
        }
      }
    }
  }

  /** The value of a key is the one of the last output that has it. */
  lemma {:induction false} MergeLastWins(outs: seq<Json>, k: string, i: nat)
    requires i < |outs| && k in Spread(outs[i])
    requires forall j :: i < j < |outs| ==> k !in Spread(outs[j])
    ensures k in Merge(outs) && Merge(outs)[k] == Spread(outs[i])[k]
    decreases |outs|
  {
    var init := outs[..|outs| - 1];
    if i < |init| {
      assert init[i] == outs[i];
      forall j | i < j < |init| ensures k !in Spread(init[j]) {
        assert init[j] == outs[j];
      }
      MergeLastWins(init, k, i);
    }
  }

  /** Null outputs (those of failed or running activities) contribute nothing. */
  lemma MergeNullOutput(outs: seq<Json>)
    ensures Merge(outs + [JNull]) == Merge(outs)
  {
    assert (outs + [JNull])[..|outs|] == outs;
  }

  // ---------------------------------------------------------------- join

  /** `conds.every(c => evalCond(c, ctx))`: stops at the first condition that is false
      or throws. */
  function Every(conds: seq<Json>, ctx: Json): Result<bool, Thrown>
    decreases |conds|
  {
    if conds == [] then Ok(true)
    else
      match CondHolds(conds[0], ctx)
      case Err(e) => Err(e)
      case Ok(false) => Ok(false)
      case Ok(true) => Every(conds[1..], ctx)
  }

  /** The join passes exactly when every condition holds; the empty list passes. */
  lemma {:induction false} EveryHolds(conds: seq<Json>, ctx: Json)
    ensures Every(conds, ctx) == Ok(true) <==> forall i :: 0 <= i < |conds| ==> CondHolds(conds[i], ctx) == Ok(true)
    decreases |conds|
  {
    if conds != [] {
      EveryHolds(conds[1..], ctx);
      AllOfTail(conds, c => CondHolds(c, ctx) == Ok(true));
    }
  }

  /** A property holds all along a non-empty sequence exactly when it holds of the head
      and all along the tail. */
  lemma AllOfTail<T>(xs: seq<T>, p: T -> bool)
    requires xs != []
    ensures (forall i :: 0 <= i < |xs| ==> p(xs[i])) <==> p(xs[0]) && forall i :: 0 <= i < |xs[1..]| ==> p(xs[1..][i])
  {
    if p(xs[0]) && forall i :: 0 <= i < |xs[1..]| ==> p(xs[1..][i]) {
      forall i | 0 <= i < |xs| ensures p(xs[i]) {
        if i > 0 { assert xs[i] == xs[1..][i - 1]; }
      }
    }
  }

  const JoinNotMet := "join conditions not met"

  /** The `join` branch: the conditions are `data?.conditions || []`, checked against the
      committed state of the instance. */
  function JoinOutput(t: Tables, data: Json, instanceId: string): (r: Result<Json, Thrown>)
    ensures r.Ok? ==> r.value == JObj(map["join" := JStr("ok")])
  {
    var conds := Or(Field(data, "conditions"), JArr([]));
    if !conds.JArr? then Err(TypeErrorOf("conds.every is not a function"))
    else
      match Every(conds.items, JoinContext(InstanceState(t, instanceId)))
      case Err(e) => Err(e)
      case Ok(false) => Err(ErrorOf(JoinNotMet))
      case Ok(true) => Ok(JObj(map["join" := JStr("ok")]))
  }

  /** With a list of conditions, the join succeeds iff all hold, and otherwise fails with
      `join conditions not met` unless a condition threw first. */
  lemma JoinIff(t: Tables, data: Json, instanceId: string, conds: seq<Json>)
    requires Field(data, "conditions") == JArr(conds)
    ensures JoinOutput(t, data, instanceId).Ok?
        <==> forall i :: 0 <= i < |conds| ==> CondHolds(conds[i], JoinContext(InstanceState(t, instanceId))) == Ok(true)
    ensures (forall i :: 0 <= i < |conds| ==> conds[i].JStr?) && JoinOutput(t, data, instanceId).Err?
            ==> JoinOutput(t, data, instanceId).error == ErrorOf(JoinNotMet)
  {
    EveryHolds(conds, JoinContext(InstanceState(t, instanceId)));
    if forall i :: 0 <= i < |conds| ==> conds[i].JStr? {
      EveryNoThrow(conds, JoinContext(InstanceState(t, instanceId)));
    }
  }

  lemma {:induction false} EveryNoThrow(conds: seq<Json>, ctx: Json)
    requires forall i :: 0 <= i < |conds| ==> conds[i].JStr?
    ensures Every(conds, ctx).Ok?
    decreases |conds|
  {
    if conds != [] {
      assert conds[0].JStr?;
      forall i | 0 <= i < |conds[1..]| ensures conds[1..][i].JStr? {
        assert conds[1..][i] == conds[i + 1];
      }
      EveryNoThrow(conds[1..], ctx);
    }
  }

  /** A join node without conditions always passes. */
  lemma JoinWithoutConditions(t: Tables, instanceId: string)
    ensures JoinOutput(t, JObj(map[]), instanceId) == Ok(JObj(map["join" := JStr("ok")]))
  {
  }

  // ---------------------------------------------------------------- kinds

  /** `Number(s)` for text: blank is 0, a numeral with an optional sign is its value,
      anything else is NaN (None). */
  function NumberOfText(s: string): (r: Option<real>)
  {
    var t := Trim(s);
    if t == "" then Some(0.0)
    else if IsNumeral(t) then Some(NumeralValue(t))
    else if t[0] == '-' && IsNumeral(t[1..]) then Some(-NumeralValue(t[1..]))
    else if t[0] == '+' && IsNumeral(t[1..]) then Some(NumeralValue(t[1..]))
    else None
  }

  /** A numeral starts and ends with a digit. */
  lemma NumeralEnds(s: string)
    requires IsNumeral(s)
    ensures s != [] && IsDigit(s[0]) && IsDigit(s[|s| - 1])
  {
    var i := RunEnd(s, 0, IsDigit);
    if i < |s| {
      assert s[|s| - 1] == s[i + 1..][|s| - i - 2];
    }
  }

  /** A numeral, bare or with a minus sign, gives its value. */
  lemma NumeralNumber(s: string)
    requires IsNumeral(s)
    ensures ToNumber(JStr(s)) == Some(NumeralValue(s))
    ensures ToNumber(JStr("-" + s)) == Some(-NumeralValue(s))
  {
    NumeralEnds(s);
    TrimUnpadded(s);
    var m := "-" + s;
    assert m[1..] == s;
    TrimUnpadded(m);
    assert !IsNumeral(m);
  }

  /** White space around a numeral is ignored. */
  lemma PaddedNumeral(pre: string, s: string, post: string)
    requires IsNumeral(s)
    requires forall k :: 0 <= k < |pre| ==> IsJsWhitespace(pre[k])
    requires forall k :: 0 <= k < |post| ==> IsJsWhitespace(post[k])
    ensures ToNumber(JStr(pre + s + post)) == Some(NumeralValue(s))
  {
    NumeralEnds(s);
    TrimPadded(pre, s, post);
  }

  /** `Number(x)`; None stands for NaN. */
  function ToNumber(j: Json): (r: Option<real>)
    ensures j.JNum? ==> r == Some(j.n)
    ensures j.JNull? ==> r == Some(0.0)
    ensures j.JUndefined? || j.JObj? ==> r.None?
    decreases j
  {
    match j
    case JNull => Some(0.0)
    case JUndefined => None
    case JBool(b) => Some(if b then 1.0 else 0.0)
    case JNum(n) => Some(n)
    case JStr(s) => NumberOfText(s)
    case JArr(xs) =>
      if xs == [] then Some(0.0)
      else if |xs| > 1 then None
      else if Nullish(xs[0]) then Some(0.0)
      else if xs[0].JBool? || xs[0].JObj? then None
      else ToNumber(xs[0])
    case JObj(_) => None
  }

  /** A number as JSON stores it: NaN becomes null. */
  function NumberOrNull(n: Option<real>): Json
  {
    if n.Some? then JNum(n.value) else JNull
  }

  /** What `publishTimer` puts on the delay queue: the expiration `max(0, ms)` and the
      message. */
  datatype TimerMessage = TimerMessage(expiration: Option<real>, instanceId: string, nodeId: string,
                                       workflowId: string, dueAt: Option<real>)

  /** What an activity run depends on beyond the tables: the time `Date.now()` reads,
      `fetch`, `JSON.parse` and whether the broker refuses to publish. */
  datatype Env = Env(now: real, fetch: Request -> Result<Response, Thrown>, parse: string -> Option<Json>,
                     brokerFailure: Option<Thrown>)

  /** The outcome of the kind dispatch: the output or the error, and the timer published. */
  datatype Executed = Executed(output: Result<Json, Thrown>, published: seq<TimerMessage>)

  /** The `timer` branch: `ms` is `Number(data?.ms ?? 1000)`. */
  function TimerRun(node: NodeRow, instanceId: string, nodeId: string, env: Env): (x: Executed)
    ensures env.brokerFailure.Some? ==> x == Executed(Err(env.brokerFailure.value), [])
  {
    var ms := ToNumber(Coalesce(Field(node.data, "ms"), JNum(1000.0)));
    var dueAt := if ms.Some? then Some(env.now + ms.value) else None;
    var expiration := if ms.Some? then Some(if ms.value < 0.0 then 0.0 else ms.value) else None;
    if env.brokerFailure.Some? then Executed(Err(env.brokerFailure.value), [])
    else Executed(Ok(JObj(map["scheduledFor" := NumberOrNull(dueAt)])),
                  [TimerMessage(expiration, instanceId, nodeId, node.workflowId, dueAt)])
  }

  /** The kind dispatch of `createAndRunActivity` for a found node. */
  function Execute(t: Tables, node: NodeRow, instanceId: string, nodeId: string, input: Json, env: Env): (x: Executed)
    ensures node.kind == JStr("hook") ==> x == Executed(Ok(JObj(map["body" := input])), [])
    ensures (node.kind != JStr("http") && node.kind != JStr("hook") && node.kind != JStr("timer")
             && node.kind != JStr("join")) ==> x == Executed(Ok(JObj(map[])), [])
    ensures node.kind != JStr("timer") ==> x.published == []
  {
    if node.kind == JStr("http") then Executed(HttpCall(Or(node.data, JObj(map[])), input, env.fetch, env.parse), [])
    else if node.kind == JStr("hook") then Executed(Ok(JObj(map["body" := input])), [])
    else if node.kind == JStr("timer") then TimerRun(node, instanceId, nodeId, env)
    else if node.kind == JStr("join") then Executed(JoinOutput(t, node.data, instanceId), [])
    else Executed(Ok(JObj(map[])), [])
  }

  /** A timer node without `ms` waits 1000 ms. */
  lemma TimerDefault(t: Tables, node: NodeRow, instanceId: string, nodeId: string, input: Json, env: Env)
    requires node.kind == JStr("timer") && Field(node.data, "ms").JUndefined? && env.brokerFailure.None?
    ensures Execute(t, node, instanceId, nodeId, input, env)
            == Executed(Ok(JObj(map["scheduledFor" := JNum(env.now + 1000.0)])),
                        [TimerMessage(Some(1000.0), instanceId, nodeId, node.workflowId, Some(env.now + 1000.0))])
  {
  }

  /** A timer node with a numeric `ms` is scheduled `ms` after now. */
  lemma TimerScheduled(t: Tables, node: NodeRow, instanceId: string, nodeId: string, input: Json, env: Env, ms: real)
    requires node.kind == JStr("timer") && Field(node.data, "ms") == JNum(ms) && env.brokerFailure.None?
    ensures Execute(t, node, instanceId, nodeId, input, env).output
            == Ok(JObj(map["scheduledFor" := JNum(env.now + ms)]))
  {
  }

  // ---------------------------------------------------------------- activities

  /** `input: any = {}`: the default applies to a missing argument only. */
  function InputDefault(input: Json): Json
  {
    if input.JUndefined? then JObj(map[]) else input
  }

  /** What `createAndRunActivity` returns on success. */
  datatype ActivityView = ActivityView(id: string, status: string, input: Json, output: Json)

  /** The effect of one `createAndRunActivity`: the committed tables, the result and the
      timers published. */
  datatype ActivityRun = ActivityRun(tables: Tables, result: Result<ActivityView, Thrown>, published: seq<TimerMessage>)

  /** `createAndRunActivity(instanceId, nodeId, input)` on committed tables `t`. An
      unknown node throws before anything is written; otherwise one activity is
      committed, `success` with its output or `failed` with `e.message || String(e)`. */
  function RunActivity(t: Tables, instanceId: string, nodeId: string, input: Json, env: Env): ActivityRun
  {
    if nodeId !in t.nodes then ActivityRun(t, Err(ErrorOf("Node not found")), [])
    else
      var node := t.nodes[nodeId];
      var id := FreshId(t);
      var stored := Or(input, JObj(map[]));
      var x := Execute(t, node, instanceId, nodeId, input, env);
      var row := ActivityRow(id, instanceId, node.workflowId, nodeId,
                             if x.output.Ok? then "success" else "failed", stored,
                             if x.output.Ok? then x.output.value else JNull,
                             if x.output.Ok? then None else Some(MessageOr(x.output.error)));
      ActivityRun(t.(activities := t.activities + [row], nextId := t.nextId + 1),
                  if x.output.Ok? then Ok(ActivityView(id, "success", stored, x.output.value)) else Err(x.output.error),
                  x.published)
  }

  /** An unknown node id throws `Node not found` and writes nothing. */
  lemma UnknownNode(t: Tables, instanceId: string, nodeId: string, input: Json, env: Env)
    requires nodeId !in t.nodes
    ensures RunActivity(t, instanceId, nodeId, input, env) == ActivityRun(t, Err(ErrorOf("Node not found")), [])
  {
  }

  /** A found node gets exactly one new activity with a fresh id: `success` with the
      output when the kind ran, `failed` with the error message otherwise; the other
      tables are untouched and the invariant holds. */
  lemma ActivityLifecycle(t: Tables, instanceId: string, nodeId: string, input: Json, env: Env)
    requires Valid(t) && nodeId in t.nodes
    ensures var run := RunActivity(t, instanceId, nodeId, input, env);
            var t2 := run.tables;
            var row := t2.activities[|t.activities|];
            && Valid(t2)
            && |t2.activities| == |t.activities| + 1 && t2.activities[..|t.activities|] == t.activities
            && t2.workflows == t.workflows && t2.nodes == t.nodes && t2.edges == t.edges && t2.instances == t.instances
            && row.nodeId == nodeId && row.instanceId == instanceId && row.workflowId == t.nodes[nodeId].workflowId
            && (forall k :: 0 <= k < |t.activities| ==> t.activities[k].id != row.id)
            && (row.status == "success" <==> run.result.Ok?)
            && (run.result.Ok? ==> row.output == run.result.value.output && row.error.None?)
            && (run.result.Err? ==> row.status == "failed" && row.output == JNull
                                    && row.error == Some(MessageOr(run.result.error)))
            && (var x := Execute(t, t.nodes[nodeId], instanceId, nodeId, input, env);
                && (run.result.Ok? <==> x.output.Ok?)
                && (run.result.Ok? ==> run.result.value.output == x.output.value)
                && (run.result.Err? ==> run.result.error == x.output.error)
                && run.published == x.published)
  {
    var t2 := RunActivity(t, instanceId, nodeId, input, env).tables;
    FreshIdIsFresh(t);
    assert t2.activities[..|t.activities|] == t.activities;
    forall k | 0 <= k < |t2.activities| ensures IdBelow(t2.activities[k].id, t2.nextId) {
      if k < |t.activities| {
        IdBelowMonotone(t.activities[k].id, t.nextId, t2.nextId);
      }
    }
    forall w | w in t2.workflows ensures IdBelow(w, t2.nextId) { IdBelowMonotone(w, t.nextId, t2.nextId); }
    forall n | n in t2.nodes ensures IdBelow(n, t2.nextId) { IdBelowMonotone(n, t.nextId, t2.nextId); }
    forall i | i in t2.instances ensures IdBelow(i, t2.nextId) { IdBelowMonotone(i, t.nextId, t2.nextId); }
    forall p | p in t2.edges ensures IdBelow(t2.edges[p].id, t2.nextId) {
      IdBelowMonotone(t.edges[p].id, t.nextId, t2.nextId);
    }
  }

  /** A hook node records its input as `{body: input}` and succeeds. */
  lemma HookActivity(t: Tables, instanceId: string, nodeId: string, input: Json, env: Env)
    requires nodeId in t.nodes && t.nodes[nodeId].kind == JStr("hook")
    ensures var run := RunActivity(t, instanceId, nodeId, input, env);
            run.result.Ok? && run.result.value.output == JObj(map["body" := input])
            && run.result.value.status == "success" && run.published == []
  {
  }

  /** The join sees only the committed activities of its own instance. */
  lemma JoinSeesOwnInstance(t: Tables, instanceId: string, a: ActivityRow)
    requires a.instanceId != instanceId
    ensures InstanceState(t.(activities := t.activities + [a]), instanceId) == InstanceState(t, instanceId)
  {
    assert (t.activities + [a])[..|t.activities|] == t.activities;
  }

  /** The outgoing edge of a stored `(source, target)` pair, as `runNode` maps it: kind
      `if` or else `normal`, and a falsy condition as undefined. */
  function RouteOf(t: Tables, p: (string, string)): RouteEdge
    requires p in t.edges
  {
    RouteEdge(p.1, if t.edges[p].kind == JStr("if") then JStr("if") else JStr("normal"),
              Or(t.edges[p].condition, JUndefined))
  }

  /** The edges leaving a node. */
  function OutPairs(t: Tables, nodeId: string): (s: set<(string, string)>)
    ensures forall p :: p in s <==> p in t.edges && p.0 == nodeId
  {
    set p | p in t.edges && p.0 == nodeId
  }

  /** `runNode`'s edge rows never mark an edge `loop`: every type they give is `if` or
      `normal`. */
  lemma RoutesAreIfOrNormal(t: Tables, p: (string, string))
    requires p in t.edges
    ensures RouteOf(t, p).edgeType == JStr("if") || RouteOf(t, p).edgeType == JStr("normal")
  {
  }

  /** A list holding every outgoing route of `nodeId` once, in some order. */
  ghost predicate Enumerates(t: Tables, nodeId: string, edges: seq<RouteEdge>)
  {
    && (forall i, j :: 0 <= i < j < |edges| ==> edges[i] != edges[j])
    && (forall e :: e in edges <==> (nodeId, e.to) in t.edges && e == RouteOf(t, (nodeId, e.to)))
  }

  /** The committed-state queries `runNode` makes after the first activity. */
  class EngineService {
    const db: Database
    /** The timer messages published on the delay queue. */
    var timers: seq<TimerMessage>

    constructor (db: Database)
      ensures this.db == db && timers == []
    {
      this.db := db;
      timers := [];
    }

    /** `createInstance(workflowId, input)`. */
    method CreateInstance(workflowId: string, input: Json) returns (r: Result<string, Thrown>)
      requires Valid(db.tables)
      modifies db
      ensures Valid(db.tables)
      ensures workflowId !in old(db.tables.workflows) ==> r == Err(ErrorOf("Workflow not found")) && db.tables == old(db.tables)
      ensures workflowId in old(db.tables.workflows) ==>
                r == Ok(FreshId(old(db.tables)))
                && db.tables == old(db.tables).(instances := old(db.tables.instances)[FreshId(old(db.tables)) :=
                                                  InstanceRow(workflowId, "running", InputDefault(input))],
                                                nextId := old(db.tables.nextId) + 1)
    {
      var t := db.tables;
      if workflowId !in t.workflows {
        return Err(ErrorOf("Workflow not found"));
      }
      var id := FreshId(t);
      FreshIdIsFresh(t);
      var t2 := t.(instances := t.instances[id := InstanceRow(workflowId, "running", InputDefault(input))],
                   nextId := t.nextId + 1);
      KeepsValid(t, t2);
      db.tables := t2;
      return Ok(id);
    }

    /** `createAndRunActivity(instanceId, nodeId, input)`: the transaction inserts the
        activity as `running`, runs the kind, marks it `success` or `failed` and commits
        either way; an unknown node aborts before the insert. */
    method CreateAndRunActivity(instanceId: string, nodeId: string, input: Json, env: Env)
      returns (r: Result<ActivityView, Thrown>)
      requires Valid(db.tables)
      modifies db, this`timers
      ensures Valid(db.tables)
      ensures var run := RunActivity(old(db.tables), instanceId, nodeId, InputDefault(input), env);
              r == run.result && db.tables == run.tables && timers == old(timers) + run.published
    {
      var committed := db.tables;
      var arg := InputDefault(input);
      if nodeId !in committed.nodes {
        return Err(ErrorOf("Node not found"));
      }
      var node := committed.nodes[nodeId];
      var activityId := FreshId(committed);
      var stored := Or(arg, JObj(map[]));
      // BEGIN: the transaction's own copy, holding the running activity
      var tx := committed.(activities := committed.activities + [ActivityRow(activityId, instanceId, node.workflowId,
                                                                 nodeId, "running", stored, JNull, None)],
                           nextId := committed.nextId + 1);
      var x := Execute(committed, node, instanceId, nodeId, arg, env);
      var last := |tx.activities| - 1;
      if x.output.Ok? {
        tx := tx.(activities := tx.activities[last := tx.activities[last].(status := "success", output := x.output.value)]);
        r := Ok(ActivityView(activityId, "success", stored, x.output.value));
      } else {
        tx := tx.(activities := tx.activities[last := tx.activities[last].(status := "failed",
                                                                            error := Some(MessageOr(x.output.error)))]);
        r := Err(x.output.error);
      }
      timers := timers + x.published;
      // COMMIT
      ActivityLifecycle(committed, instanceId, nodeId, arg, env);
      assert tx == RunActivity(committed, instanceId, nodeId, arg, env).tables;
      db.tables := tx;
    }

    /** The routes of the edges leaving `nodeId`, in the order the query returns them,
        which no ORDER BY fixes: each step takes any edge not yet listed. */
    method OutgoingRoutes(nodeId: string) returns (edges: seq<RouteEdge>)
      ensures Enumerates(db.tables, nodeId, edges)
    {
      var t := db.tables;
      var todo := OutPairs(t, nodeId);
      edges := [];
      ghost var done: set<(string, string)> := {};
      while todo != {}
        invariant todo !! done && todo + done == OutPairs(t, nodeId)
        invariant forall i, j :: 0 <= i < j < |edges| ==> edges[i] != edges[j]
        invariant forall e :: e in edges <==> (nodeId, e.to) in done && e == RouteOf(t, (nodeId, e.to))
        decreases |todo|
      {
        var p :| p in todo;
        assert p == (nodeId, p.1);
        edges := edges + [RouteOf(t, p)];
        todo := todo - {p};
        done := done + {p};
      }
    }

    /** `runNode(instanceId, nodeId, input)`: run the node, then at most one more
        activity, for the first qualifying edge's target, with `{...state, ...input}`. */
    method RunNode(instanceId: string, nodeId: string, input: Json, env1: Env, env2: Env)
      returns (r: Result<Option<string>, Thrown>, ghost routes: seq<RouteEdge>)
      requires Valid(db.tables)
      modifies db, this`timers
      ensures Valid(db.tables)
      ensures var arg := InputDefault(input);
              var first := RunActivity(old(db.tables), instanceId, nodeId, arg, env1);
              var t1 := first.tables;
              var state := InstanceState(t1, instanceId);
              var next := FirstQualifying(routes, IfContext(arg, state));
              && (first.result.Err? ==>
                    r == Err(first.result.error) && db.tables == t1 && timers == old(timers) + first.published)
              && (first.result.Ok? ==> Enumerates(t1, nodeId, routes))
              && (first.result.Ok? && next.Err? ==>
                    r == Err(next.error) && db.tables == t1 && timers == old(timers) + first.published)
              && (first.result.Ok? && next.Ok? && (next.value.None? || next.value.value == "") ==>
                    r == Ok(None) && db.tables == t1 && timers == old(timers) + first.published)
              && (first.result.Ok? && next.Ok? && next.value.Some? && next.value.value != "" ==>
                    var second := RunActivity(t1, instanceId, next.value.value, JObj(Spread(state) + Spread(arg)), env2);
                    db.tables == second.tables && timers == old(timers) + first.published + second.published
                    && r == (if second.result.Ok? then Ok(Some(next.value.value)) else Err(second.result.error)))
    {
      routes := [];
      var arg := InputDefault(input);
      var a := CreateAndRunActivity(instanceId, nodeId, arg, env1);
      if a.Err? {
        return Err(a.error), routes;
      }
      if nodeId !in db.tables.nodes {
        return Ok(None), routes;
      }
      var edges := OutgoingRoutes(nodeId);
      routes := edges;
      var state := InstanceState(db.tables, instanceId);
      var next := NextFromEdges(edges, arg, state);
      if next.Err? {
        return Err(next.error), routes;
      }
      if next.value.Some? && next.value.value != "" {
        var b := CreateAndRunActivity(instanceId, next.value.value, JObj(Spread(state) + Spread(arg)), env2);
        if b.Err? {
          return Err(b.error), routes;
        }
        return Ok(Some(next.value.value)), routes;
      }
      return Ok(None), routes;
    }

    /** `executeWorkflow(workflowId, input)`: create the instance, then run one node of
        the workflow that no edge points to, if there is one (LIMIT 1 without ORDER BY:
        any of them). */
    method ExecuteWorkflow(workflowId: string, input: Json, env: Env)
      returns (r: Result<string, Thrown>, ghost start: Option<string>)
      requires Valid(db.tables)
      modifies db, this`timers
      ensures Valid(db.tables)
      ensures workflowId !in old(db.tables.workflows) ==>
                r == Err(ErrorOf("Workflow not found")) && db.tables == old(db.tables) && timers == old(timers)
      ensures workflowId in old(db.tables.workflows) ==>
                var id := FreshId(old(db.tables));
                var t1 := old(db.tables).(instances := old(db.tables.instances)[id :=
                                            InstanceRow(workflowId, "running", InputDefault(input))],
                                          nextId := old(db.tables.nextId) + 1);
                && (start.None? <==> RootsOf(t1, workflowId) == {})
                && (start.None? ==> r == Ok(id) && db.tables == t1 && timers == old(timers))
                && (start.Some? ==>
                      var run := RunActivity(t1, id, start.value, InputDefault(input), env);
                      start.value in RootsOf(t1, workflowId)
                      && db.tables == run.tables && timers == old(timers) + run.published
                      && r == (if run.result.Ok? then Ok(id) else Err(run.result.error)))
    {
      start := None;
      var inst := CreateInstance(workflowId, input);
      if inst.Err? {
        return inst, start;
      }
      var roots := RootsOf(db.tables, workflowId);
      if roots != {} {
        var s :| s in roots;
        start := Some(s);
        var a := CreateAndRunActivity(inst.value, s, InputDefault(input), env);
        if a.Err? {
          return Err(a.error), start;
        }
      }
      return inst, start;
    }
  }

  /** Adding an instance under a fresh id, with the counter advanced, keeps the invariant. */
  lemma KeepsValid(t: Tables, t2: Tables)
    requires Valid(t) && t2.nextId == t.nextId + 1
    requires t2.workflows == t.workflows && t2.nodes == t.nodes && t2.edges == t.edges && t2.activities == t.activities
    requires t2.instances.Keys == t.instances.Keys + {FreshId(t)}
    ensures Valid(t2)
  {
    forall w | w in t2.workflows ensures IdBelow(w, t2.nextId) { IdBelowMonotone(w, t.nextId, t2.nextId); }
    forall n | n in t2.nodes ensures IdBelow(n, t2.nextId) { IdBelowMonotone(n, t.nextId, t2.nextId); }
    forall i | i in t2.instances ensures IdBelow(i, t2.nextId) {
      if i != FreshId(t) { IdBelowMonotone(i, t.nextId, t2.nextId); }
    }
    forall p | p in t2.edges ensures IdBelow(t2.edges[p].id, t2.nextId) {
      IdBelowMonotone(t.edges[p].id, t.nextId, t2.nextId);
    }
    forall k | 0 <= k < |t2.activities| ensures IdBelow(t2.activities[k].id, t2.nextId) {
      IdBelowMonotone(t.activities[k].id, t.nextId, t2.nextId);
    }
  }
}
