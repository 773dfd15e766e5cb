# flow.work workflow API — a Dafny model

flow.work runs workflows. A workflow is a graph of nodes joined by edges and stored in
PostgreSQL. Each node has a kind: `http`, `hook`, `timer`, `join` or anything else (a
no-op). Running a workflow creates an *instance*. Each node the instance runs becomes
an *activity* row, which goes from `running` to `success` or `failed`.

This project models the TypeScript API and the VS Code helper at the heart of
flow.work. It covers:

- **Engine** (`engine.dfy`): `EngineService`.
  - The `path = literal` condition language of `evalCond` (`cond.dfy`).
  - Edge routing (`nextFromEdges`) and the instance state (`instanceState`).
  - The join check, and kind dispatch in `createAndRunActivity`.
  - The one-hop chaining of `runNode`, and the start of `executeWorkflow`.
- **Workflows** (`workflows.dfy`): `WorkflowsService`.
  - `import`: reconciling a workflow definition with the `_workflow`, `_node` and `_edge`
    tables inside one transaction.
  - The row fold of `getById`.
  - The lookups `nodeId` and `firstNodeId`.
- **Store** (`store.dfy`): the tables themselves, held in a `Database` object.
  - Generated ids come from a counter.
  - The foreign keys are an invariant (`Valid`).
- **Events** (`events.dfy`): `EventsGateway`, the registry of which sockets follow which
  instance. It keeps the invariant that no room is empty.
- **Hooks** (`hooks.dfy`): the guard order of the two hook routes.
- **Feel** (`feel.dfy`): JSONata result normalisation.
- **Http** (`http.dfy`): request derivation and response handling of `httpCall`.
- **Health** (`health.dfy`): the Patroni health URL and status record.
- **Extension** (`extension.dfy`): the `collect` recursion of the VS Code command, over
  a directory tree.
- **Shared modules:**
  - `json.dfy`: JavaScript values and their truthiness, `??`, `||`, optional chaining,
    object spread, and thrown errors.
  - `text.dfy`: decimal numerals, splitting and joining.
  - `wrappers.dfy`: `Option` and `Result`.

The following become parameters of the model:

- the database engine, as a value of `Store.Tables`;
- `fetch`;
- `JSON.parse`;
- JSONata;
- the uuid library's `isValidUUID`;
- PostgreSQL's uuid parsing;
- the RabbitMQ publish;
- the clock;
- the file system.

Stateful code is written as methods over classes. This covers `EngineService`,
`WorkflowsService`, `EventsGateway`, the loops of `import`, `getById`, `nextFromEdges`,
`handleDisconnect` and `collect`. Each method is proved against a specification of
what it computes. Most are tied to a function of the old state (`RunActivity`,
`ImportOutcome`, `NodeSteps`, `WorkflowOf`, `DirBlocks`). `OutgoingRoutes` is tied to a
predicate over the edge table. `CreateInstance` states its new state directly. The
lemmas are about those functions.

## Model

| member | source | states |
|---|---|---|
| Conditions.LastNonTerminator | api/src/engine/engine.service.ts:18 | where the greedy `(.+)\s*$` can stop: the last character that is not a line terminator, with only terminators after it |
| Conditions.MatchRight | api/src/engine/engine.service.ts:18 | the right-hand side the matcher picks is a legal split of the text after `=`: white space, a run without line terminators, white space to the end |
| Conditions.MatchRightComplete | api/src/engine/engine.service.ts:18 | every legal reading of the right-hand side is matched or beaten by the engine's preference: more white space before it, then a longer run |
| Conditions.MatchPath | api/src/engine/engine.service.ts:18 | the part up to `=` the matcher picks is a legal split: white space, a non-empty path, white space and `=` |
| Conditions.MatchPathComplete | api/src/engine/engine.service.ts:18 | any legal reading of the part up to `=` is the one the matcher finds, since white space and path characters are disjoint |
| Conditions.MatchCond | api/src/engine/engine.service.ts:18 | the whole matcher only returns splits the regular expression accepts |
| Conditions.MatchCondOf | api/src/engine/engine.service.ts:18 | the whole match is the path part followed by the right-hand part matched after `=` |
| Conditions.MatchComplete | api/src/engine/engine.service.ts:18 | whenever the regular expression can match, the matcher finds a match with the same path and `=`, preferring more white space before the right-hand side and then a longer one |
| Conditions.ParseCond | api/src/engine/engine.service.ts:18-20 | the captured path and right-hand side are both non-empty |
| Conditions.ParseCondShape | api/src/engine/engine.service.ts:18-19 | a condition parses exactly when it has the shape `path = value` |
| Conditions.TypeLiteral | api/src/engine/engine.service.ts:22-24 | the literal is a number exactly when it is digits with an optional fraction, and otherwise a string |
| Conditions.NumeralRoundTrip | api/src/engine/engine.service.ts:23 | a printed natural number types as that number |
| Conditions.QuotedRoundTrip | api/src/engine/engine.service.ts:24 | a double-quoted literal types as the text between the quotes |
| Conditions.TrailingSpaceIsText | api/src/engine/engine.service.ts:22-24 | a numeral followed by a space stays a string, because the greedy capture keeps the space |
| Conditions.ResolveNullish | api/src/engine/engine.service.ts:21 | once the walk reaches null or undefined it stays there, whatever keys follow |
| Conditions.ResolveAppend | api/src/engine/engine.service.ts:21 | walking a path is walking its prefix and then the rest |
| Conditions.ResolveStops | api/src/engine/engine.service.ts:21 | the result of the path walk is fixed at the first nullish prefix |
| Conditions.EvalCond | api/src/engine/engine.service.ts:17-25 | a condition holds exactly when it parses and its path resolves to a value equal to the typed literal, which is then a number or a string |
| Conditions.EvalCondUnshaped | api/src/engine/engine.service.ts:18-19 | a condition not shaped `path = value` is false in every context |
| Conditions.SimpleParse | api/src/engine/engine.service.ts:18-20 | `key = raw` on one line parses to exactly that key and right-hand side |
| Conditions.SimpleCondition | api/src/engine/engine.service.ts:17-25 | `key = raw` holds on an object exactly when the key is present and strictly equal to the typed literal |
| Conditions.NumberCondition | api/src/engine/engine.service.ts:23-25 | `key = n` holds exactly when the field is the number n |
| Conditions.TrailingSpaceCondition | api/src/engine/engine.service.ts:22-25 | `key = n ` (trailing space) holds exactly when the field is the string `"n "`, never the number |
| Conditions.QuotedCondition | api/src/engine/engine.service.ts:24-25 | `key = "t"` holds exactly when the field is the string t |
| Engine.NextFromEdges | api/src/engine/engine.service.ts:28-39 | the loop returns the first qualifying edge's target of the specification `FirstQualifying`, or null, in the `if` context |
| Engine.FirstQualifyingIsFirst | api/src/engine/engine.service.ts:30-37 | the result is target t exactly when some edge to t qualifies and every earlier edge does not |
| Engine.FirstQualifyingNone | api/src/engine/engine.service.ts:30-38 | the result is null exactly when no edge qualifies |
| Engine.EdgeTypes | api/src/engine/engine.service.ts:31-36 | `loop` edges never qualify; untyped and `normal` edges always do |
| Engine.IfWithoutCondition | api/src/engine/engine.service.ts:32 | an `if` edge without a condition never qualifies |
| Engine.OutputsOfIndices | api/src/engine/engine.service.ts:42-43 | the outputs are exactly those of the activities of this instance, each once, in creation order: each comes from a distinct row of the instance, the rows increase, and no row of the instance is skipped |
| Engine.InstanceState | api/src/engine/engine.service.ts:41-45 | the instance state is always an object |
| Engine.MergeAppend | api/src/engine/engine.service.ts:44 | merging a concatenation is merging each part, the later part overriding |
| Engine.MergeKeys | api/src/engine/engine.service.ts:44 | a key is in the state exactly when some output carries it |
| Engine.MergeLastWins | api/src/engine/engine.service.ts:44 | a key takes its value from the last output that carries it |
| Engine.MergeNullOutput | api/src/engine/engine.service.ts:44 | a null output contributes nothing |
| Engine.EveryHolds | api/src/engine/engine.service.ts:119 | `every` is true exactly when each condition holds |
| Engine.EveryNoThrow | api/src/engine/engine.service.ts:119 | string conditions never make `every` throw |
| Engine.JoinOutput | api/src/engine/engine.service.ts:116-121 | a passing join outputs `{join: 'ok'}` |
| Engine.JoinIff | api/src/engine/engine.service.ts:116-121 | the join passes exactly when every condition holds against `{worflow_activity_state}`, and with string conditions fails with `join conditions not met` |
| Engine.JoinWithoutConditions | api/src/engine/engine.service.ts:118-121 | a join node without conditions passes |
| Engine.ToNumber | api/src/engine/engine.service.ts:112 | `Number()` maps numbers to themselves, null to 0, and undefined and objects to NaN (None) |
| Engine.NumeralNumber | api/src/engine/engine.service.ts:112 | a decimal literal, with or without a minus sign, converts to its value |
| Engine.PaddedNumeral | api/src/engine/engine.service.ts:112 | any white space before and after a numeral is ignored by `Number()` |
| Engine.TimerRun | api/src/engine/engine.service.ts:111-115 | a failing publish throws and schedules nothing |
| Engine.Execute | api/src/engine/engine.service.ts:106-125 | `hook` outputs `{body: input}`, unknown kinds output `{}`, and only `timer` publishes |
| Engine.TimerDefault | api/src/engine/engine.service.ts:112-115 | without `data.ms` the timer waits 1000 ms, publishes one message and outputs `scheduledFor = now + 1000` |
| Engine.TimerScheduled | api/src/engine/engine.service.ts:112-115 | with `data.ms = m` the output is `scheduledFor = now + m` |
| Engine.UnknownNode | api/src/engine/engine.service.ts:83-90 | an unknown node throws `Node not found` before any activity exists, and the tables are unchanged |
| Engine.ActivityLifecycle | api/src/engine/engine.service.ts:77-155 | exactly one fresh activity row is appended, for this node, instance and workflow; it is `success` with the output exactly when the kind's executor succeeds, and then the output is the executor's, else `failed` with `e.message \|\| e`; the executor's publishes are the run's; the invariant holds |
| Engine.HookActivity | api/src/engine/engine.service.ts:109-141 | a hook node's activity succeeds with output `{body: input}` |
| Engine.JoinSeesOwnInstance | api/src/engine/engine.service.ts:42-43 | activities of other instances do not change an instance's state |
| Engine.RoutesAreIfOrNormal | api/src/engine/engine.service.ts:174-179 | after the mapping every stored edge is `if` or `normal` |
| Engine.EngineService.constructor | api/src/engine/engine.service.ts:12-15 | the service works on the given database and has published nothing |
| Engine.EngineService.CreateInstance | api/src/engine/engine.service.ts:48-75 | an unknown workflow throws `Workflow not found` and changes nothing; otherwise one `running` instance with a fresh id and the input (default `{}`) is added |
| Engine.EngineService.CreateAndRunActivity | api/src/engine/engine.service.ts:77-155 | the committed tables and result are those of `RunActivity`, the failure path included, and the published timers are appended |
| Engine.EngineService.OutgoingRoutes | api/src/engine/engine.service.ts:160-179 | the routes list each outgoing edge of the node once, mapped to `if`/`normal` with `condition \|\| undefined` |
| Engine.EngineService.RunNode | api/src/engine/engine.service.ts:157-187 | the node's activity runs first and its failure is rethrown; the next node is the first qualifying route; that node gets `{...instanceState, ...input}` as input; nothing runs when no route qualifies |
| Engine.EngineService.ExecuteWorkflow | api/src/engine/engine.service.ts:189-201 | an instance is created; the start node is a node of the workflow with no incoming edge; none is run when there is no such node |
| Engine.KeepsValid | api/src/engine/engine.service.ts:60-65 | adding an instance under the fresh id keeps the store invariant |
| Workflows.Param | api/src/workflows/workflows.service.ts:69 | node-postgres binds undefined as NULL and every other value as itself |
| Workflows.Iterate | api/src/workflows/workflows.service.ts:52 | `for...of` walks an array's items, and throws for anything neither array nor string |
| Workflows.DefaultName | api/src/workflows/workflows.service.ts:16 | a definition without a name is named `Workflow <id>` |
| Workflows.WorkflowChoice | api/src/workflows/workflows.service.ts:15-46 | a valid existing id is updated in place and keeps its id; otherwise a workflow with a fresh id is created; nodes and edges are untouched and the invariant holds |
| Workflows.GrowKeepsIds | api/src/workflows/workflows.service.ts:40-44 | inserting a workflow under the fresh id keeps the invariant |
| Workflows.NodePlacement | api/src/workflows/workflows.service.ts:52-100 | an existing id of this workflow is updated in place; a missing, `__temp_` or foreign id gets a fresh row; the stored id is kept and mapped |
| Workflows.NodeStepTracks | api/src/workflows/workflows.service.ts:57-99 | one node turn keeps the working-state invariant, leaves the edges alone and forgets no mapped id |
| Workflows.PlacedTracks | api/src/workflows/workflows.service.ts:62-99 | the node write and the bookkeeping after it keep the working-state invariant |
| Workflows.InsertKeepsValid | api/src/workflows/workflows.service.ts:86-92 | an insert under the fresh id keeps the store invariant when the foreign keys still hold |
| Workflows.NodeStepsTracks | api/src/workflows/workflows.service.ts:52-101 | the whole node loop keeps the working-state invariant and leaves the edges alone |
| Workflows.NodeStepsGrow | api/src/workflows/workflows.service.ts:95-98 | the node loop never removes an id from the id map |
| Workflows.IdMapCoverage | api/src/workflows/workflows.service.ts:95-98 | every node definition with an id ends up in the id map |
| Workflows.KeyRoundTrip | api/src/workflows/workflows.service.ts:135-147 | `key.split(':')` of `${source}:${target}` gives back the pair, for stored ids |
| Workflows.EdgeSkipped | api/src/workflows/workflows.service.ts:114-117 | an edge with a falsy endpoint is skipped and changes nothing |
| Workflows.EdgeUpsert | api/src/workflows/workflows.service.ts:108-135 | a written edge joins the mapped endpoints, or the raw ones where the map has none, and both are stored nodes |
| Workflows.UpsertedRow | api/src/workflows/workflows.service.ts:125-135 | the upsert writes the pair's row, keeping an existing edge's id and otherwise using a fresh one, and touches nothing else |
| Workflows.EdgeDefaults | api/src/workflows/workflows.service.ts:119-123 | without kind or type the edge is `normal`, and its condition and handles are null |
| Workflows.RepeatedPair | api/src/workflows/workflows.service.ts:125-135 | a repeated pair leaves one edge, with the first id and the last attributes |
| Workflows.EdgeStepTracks | api/src/workflows/workflows.service.ts:107-137 | one edge turn keeps the working-state invariant and leaves the nodes alone |
| Workflows.UpsertedTracks | api/src/workflows/workflows.service.ts:125-135 | the upsert keeps the working-state invariant |
| Workflows.UpdateKeepsValid | api/src/workflows/workflows.service.ts:128-132 | rewriting a stored edge's attributes keeps the store invariant |
| Workflows.EdgeStepsTracks | api/src/workflows/workflows.service.ts:107-137 | the whole edge loop keeps the invariant and leaves the nodes and the id map alone |
| Workflows.CleanupExact | api/src/workflows/workflows.service.ts:141-207 | the workflow's nodes become exactly the kept ones; with kept edges only unkept edges inside the workflow go, and without them every edge touching it goes; kept edges survive |
| Workflows.ImportKeepsValid | api/src/workflows/workflows.service.ts:10-214 | a successful import leaves valid tables; every node definition with an id is mapped to a node of the returned workflow |
| Workflows.NodeStepsErr | api/src/workflows/workflows.service.ts:52-101 | the first error in the node loop is the loop's error |
| Workflows.EdgeStepsErr | api/src/workflows/workflows.service.ts:107-137 | the first error in the edge loop is the loop's error |
| Workflows.FirstByKeyDistinct | api/src/workflows/workflows.service.ts:304-331 | the collected nodes (edges) are deduplicated by id |
| Workflows.FirstByKeyFirst | api/src/workflows/workflows.service.ts:304-331 | a row whose id appeared in no earlier row contributes its value |
| Workflows.FirstByKeySound | api/src/workflows/workflows.service.ts:304-331 | every collected value comes from some row |
| Workflows.FirstByKeyOrder | api/src/workflows/workflows.service.ts:304-331 | the collected values follow the rows: each comes from the first row carrying its id, those rows are in increasing order, and every id some row carries is collected |
| Workflows.GetById | api/src/workflows/workflows.service.ts:291-337 | the `forEach` builds the specification `WorkflowOf`: null without rows, else the first row's workflow with nodes and edges in first-seen order |
| Workflows.EdgeViewFields | api/src/workflows/workflows.service.ts:317-328 | an edge's type is `if` exactly when its kind is `if`; a falsy condition or handle becomes undefined |
| Workflows.WorkflowsService.constructor | api/src/workflows/workflows.service.ts:8 | the service works on the given database |
| Workflows.WorkflowsService.Import | api/src/workflows/workflows.service.ts:10-222 | success commits the tables of `ImportOutcome` and returns its id and node map; any error leaves the committed tables unchanged and is rethrown |
| Workflows.WorkflowsService.NodeId | api/src/workflows/workflows.service.ts:224-232 | the answer is `NodeLookup` on the committed tables |
| Workflows.WorkflowsService.FirstNodeId | api/src/workflows/workflows.service.ts:234-246 | a node of the workflow with no incoming edge, null exactly when there is none, and PostgreSQL's error for non-uuid text |
| Workflows.NodeLookup | api/src/workflows/workflows.service.ts:224-232 | the id is returned exactly when that node belongs to the workflow; non-uuid text throws |
| Workflows.LookupScoped | api/src/workflows/workflows.service.ts:226-228 | a node found for one workflow is not found for another |
| Workflows.RunNodes | api/src/workflows/workflows.service.ts:52-101 | the node loop computes the fold `NodeSteps` and stops at the first throw |
| Workflows.RunEdges | api/src/workflows/workflows.service.ts:107-137 | the edge loop computes the fold `EdgeSteps` and stops at the first throw |
| Workflows.ApplyNode | api/src/workflows/workflows.service.ts:52-100 | one turn of the node loop is `NodeStep` |
| Workflows.ApplyEdge | api/src/workflows/workflows.service.ts:107-136 | one turn of the edge loop is `EdgeStep` |
| Events.RoomName | api/src/events/events.gateway.ts:44 | the room is `instance:` followed by the instance id |
| Events.RoomNameInjective | api/src/events/events.gateway.ts:44 | different instances never share a room |
| Events.Joined | api/src/events/events.gateway.ts:47-50 | the client is added to the instance's set, which is created if absent; other entries are unchanged |
| Events.JoinKeepsInvariant | api/src/events/events.gateway.ts:47-50 | after a join no set is empty and the client is in the room |
| Events.LeaveKeepsInvariant | api/src/events/events.gateway.ts:61-67 | after a leave no set is empty and the client is out of the room |
| Events.DisconnectKeepsInvariant | api/src/events/events.gateway.ts:29-40 | after a disconnect no set is empty and no set holds the client |
| Events.DisconnectKeepsOthers | api/src/events/events.gateway.ts:29-40 | other clients keep exactly their memberships |
| Events.JoinIdempotent | api/src/events/events.gateway.ts:47-50 | joining twice is joining once |
| Events.LeaveUndoesJoin | api/src/events/events.gateway.ts:43-67 | leaving right after a first join restores the registry |
| Events.LeaveUntracked | api/src/events/events.gateway.ts:61-62 | leaving an untracked room changes nothing |
| Events.DisconnectIsLeaveAll | api/src/events/events.gateway.ts:29-40 | a disconnect after leaving one room is the same disconnect |
| Events.DisconnectedOnStep | api/src/events/events.gateway.ts:32-39 | one `forEach` turn moves one more entry into the handled part |
| Events.DisconnectedOnAll | api/src/events/events.gateway.ts:32-39 | with every entry handled the registry is the disconnected one |
| Events.EventsGateway.constructor | api/src/events/events.gateway.ts:23 | the registry starts empty |
| Events.EventsGateway.HandleJoinInstance | api/src/events/events.gateway.ts:43-54 | the socket joins the room, the registry is `Joined`, and `joined-instance` is sent back; no set is empty |
| Events.EventsGateway.HandleLeaveInstance | api/src/events/events.gateway.ts:57-70 | the socket leaves the room and the registry is `Left`; no set is empty |
| Events.EventsGateway.HandleDisconnect | api/src/events/events.gateway.ts:29-40 | the registry after the loop is `Disconnected`; no set is empty |
| Events.EventsGateway.EmitActivityUpdate | api/src/events/events.gateway.ts:72-75 | `activity-update` goes to the instance's room |
| Events.EventsGateway.EmitInstanceStatusUpdate | api/src/events/events.gateway.ts:77-80 | `instance-status-update` goes to the instance's room |
| Hooks.NodeHook | api/src/hooks/hooks.controller.ts:17-25 | a lookup error is rethrown; a node not found is 404; a falsy `instanceId` is 400; otherwise the verified node runs with the body as input |
| Hooks.HookNodeId | api/src/hooks/hooks.controller.ts:30 | the node id is `worflow_node`, then `workflow_node`, then empty |
| Hooks.GeneralHook | api/src/hooks/hooks.controller.ts:29-33 | an empty node id is 400 `workflow_node required`; otherwise the request goes to the node route with the same workflow and body |
| Hooks.MisspeltKeyWins | api/src/hooks/hooks.controller.ts:30 | `worflow_node` wins over `workflow_node` |
| Hooks.NotFoundFirst | api/src/hooks/hooks.controller.ts:19-21 | an unknown node is 404 whatever the body holds |
| Hooks.EmptyArrayNode | api/src/hooks/hooks.controller.ts:30-31 | an empty array passes `\|\|` but prints as empty text, so it is refused |
| Hooks.DispatchCarriesBody | api/src/hooks/hooks.controller.ts:23 | a dispatched run uses the verified id, a truthy instance id and the whole body |
| Hooks.StoreHook | api/src/hooks/hooks.controller.ts:19-20 | with the store's lookup a hook runs exactly the nodes of its own workflow |
| Feel.EvaluateFeel | api/src/common/feel.ts:9-21 | a blank expression returns the context; otherwise the evaluator's result, or its error with `JSONata evaluation error: ` in front |
| Feel.Normalize | api/src/common/feel.ts:39-49 | nullish becomes null, an object stays, and anything else is wrapped as `{value}` |
| Feel.EvaluateFeelExpression | api/src/common/feel.ts:30-53 | a blank expression gives null, and every result is null or an object |
| Feel.ExpressionResult | api/src/common/feel.ts:36-49 | a successful evaluation is normalised |
| Feel.ExpressionErrorMessage | api/src/common/feel.ts:50-51 | an evaluator error carries both prefixes, outer first |
| Feel.NormalizeIdempotent | api/src/common/feel.ts:39-49 | normalising twice is normalising once |
| Feel.NormalizeUnwrap | api/src/common/feel.ts:48-49 | the wrapped primitive is found under `value` |
| Health.HealthUrl | api/src/health/health.service.ts:62-64 | the URL starts with the base and ends with `/health`, with no doubled slash |
| Health.TrailingSlashAgnostic | api/src/health/health.service.ts:62-64 | a base with or without the trailing slash gives the same URL |
| Health.StatusOf | api/src/health/health.service.ts:71-76 | `ok` exactly when the status is ok and `state === 'running'`; role and state are copied; `error` is `status=<code>` exactly when not ok |
| Health.CheckPatroniNode | api/src/health/health.service.ts:61-81 | `ok` only from an ok response of a running node; a failed fetch or a rejected `res.json()` gives `{ok: false, error: message}`; a null body gives the TypeError of reading `state` (ok status) or `role`; otherwise the result is the status record of the response |
| Health.RunningNode | api/src/health/health.service.ts:71-76 | a 200 answer with state `running` is ok |
| Health.ErrorStatus | api/src/health/health.service.ts:71-76 | a non-ok status is reported as `status=<code>` with role and state copied |
| Http.BuildRequest | api/src/common/http.ts:1-13 | the request goes to `cfg.url \|\| input.url`, which must be truthy; the method is upper-cased, POST by default, and a non-string method throws; headers default to JSON and `cfg.headers` override; GET and HEAD send no body, and otherwise the body is `cfg.body ?? input?.body ?? input` |
| Http.InterpretResponse | api/src/common/http.ts:15-18 | a non-ok status throws `HTTP <status>: ` with the first 300 characters of the text; otherwise the result is always an object: `{...parsed}`, or `{text}` when the text is not JSON |
| Http.HttpCall | api/src/common/http.ts:1-20 | a result comes only from a built request, a successful fetch and an ok status, and is an object; request errors come before any fetch; fetch errors and non-ok statuses are the only other failures |
| Http.UrlMissingSendsNothing | api/src/common/http.ts:6 | without a url the call fails whatever fetch would do |
| Http.EmptyUrlFallsThrough | api/src/common/http.ts:2 | with an empty `cfg.url` the request is built exactly when `input?.url` is truthy, and goes to that url |
| Http.DefaultMethodSendsBody | api/src/common/http.ts:3-5 | by default the method is POST and the body is `input.body ?? input` |
| Http.HeadersOverride | api/src/common/http.ts:4 | configured headers override, and the content type stays JSON otherwise |
| Http.LowerCaseGet | api/src/common/http.ts:3 | `get` is sent as GET without a body |
| Http.ObjectResponse | api/src/common/http.ts:16-18 | an ok JSON object comes back as itself |
| Http.ErrorMessageBound | api/src/common/http.ts:17 | the error message is `HTTP <status>: ` followed by the whole text when it has at most 300 characters, and by exactly its first 300 otherwise |
| Extension.RelPath | ext/src/extension.ts:21-24 | the relative path contains no backslash |
| Extension.RelPathPortable | ext/src/extension.ts:22-24 | on either platform the relative path is the names joined by `/` |
| Extension.JoinReplace | ext/src/extension.ts:24 | replacing backslashes turns a Windows-joined path into the POSIX one |
| Extension.ReplaceAppend | ext/src/extension.ts:24 | the replacement works piecewise |
| Extension.ReplaceNone | ext/src/extension.ts:24 | text without backslashes is unchanged |
| Extension.ListBlocksFailure | ext/src/extension.ts:20-33 | once an entry fails, the listing fails with that error |
| Extension.Collect | ext/src/extension.ts:16-36 | the loop with its recursion returns the specification `DirBlocks` |
| Extension.OneBlockPerFile | ext/src/extension.ts:26-32 | an entry yields exactly one block per file under it |
| Extension.OneBlockPerFileList | ext/src/extension.ts:20-33 | a listing yields exactly one block per file under it |
| Extension.SpliceSnoc | ext/src/extension.ts:26-28 | reading one more entry front to back appends its blocks, or fails with its error |
| Extension.ListBlocksIsSplice | ext/src/extension.ts:20-35 | the loop's listing equals the front-to-back reading of its entries, each subdirectory's blocks in its place |
| Extension.CommandOutcome | ext/src/extension.ts:8-45 | no file URI shows `Select a folder in the explorer.`; the text is copied exactly when the folder, every read and the clipboard write succeed, and it is the blocks joined by blank lines; a selection that is not a folder, a failed read and a failed clipboard write each show `Error: ` and that error's message |
| Extension.CopyDirFilesWithContent | ext/src/extension.ts:8-45 | the handler computes `CommandOutcome` |
| Extension.SingleFile | ext/src/extension.ts:29-41 | a folder with one file copies `name:\ncontent` |
| Json.Coalesce | api/src/common/http.ts:5 | `a ?? b` is nullish exactly when both are, and is a whenever a is not nullish |
| Json.CoalesceAssociative | api/src/common/http.ts:5 | `(a ?? b) ?? c` is `a ?? (b ?? c)`, so the chained fallback of the body is unambiguous |
| Json.Or | api/src/common/http.ts:2 | `a \|\| b` is truthy exactly when one of them is, and is a whenever a is truthy |
| Json.OrAssociative | api/src/common/http.ts:2 | `(a \|\| b) \|\| c` is `a \|\| (b \|\| c)` |
| Json.Member | api/src/engine/engine.service.ts:21 | an object's property, or undefined when it is missing or the value is no object or array |
| Json.Field | api/src/common/http.ts:2 | `x?.k` is undefined on null and undefined; on an object it is the field, or undefined when the field is missing; on an array it is the member; on other values it is undefined |
| Json.Spread | api/src/engine/engine.service.ts:44 | spreading an object gives its fields; null, undefined, booleans and numbers give none |
| Json.MessageOfError | api/src/engine/engine.service.ts:148 | an `Error` with a message reports that message |
| Json.JsString | api/src/hooks/hooks.controller.ts:30 | `String()` keeps strings and prints an empty array as empty text |
| Json.Trim | api/src/common/feel.ts:10 | `trim()` is empty exactly for blank text and otherwise starts and ends with non-whitespace |
| Json.TrimUnpadded | api/src/common/feel.ts:10 | text without surrounding whitespace is its own trim |
| Json.TrimPadded | api/src/common/feel.ts:10 | `trim()` removes exactly the white space around text that starts and ends with other characters |
| Text.Split | api/src/engine/engine.service.ts:21 | `split` gives at least one part, none containing the separator |
| Text.JoinSplit | api/src/engine/engine.service.ts:21 | joining the parts with the separator gives the text back |
| Text.SplitPair | api/src/workflows/workflows.service.ts:146 | splitting `a:b`, when neither part holds `:`, gives the two parts |
| Text.AsciiUpper | api/src/common/http.ts:3 | `toUpperCase` on ASCII letters, character by character |
| Text.Prefix | api/src/common/http.ts:17 | `slice(0, n)` is the whole text when it has at most n characters, and exactly its first n characters otherwise |
| Text.ReplaceChar | ext/src/extension.ts:24 | every occurrence of the character is replaced, all others kept |
| Store.FreshId | api/src/workflows/workflows.service.ts:41 | the generated id is the numeral of the counter |
| Store.FreshIdIsFresh | api/src/workflows/workflows.service.ts:87-89 | the id an INSERT returns is not used by any stored workflow, node, edge, instance or activity |
| Store.RootsOfNodes | api/src/workflows/workflows.service.ts:236-242 | the roots are nodes of the workflow; there are none exactly when every node has an incoming edge; without edges every node is a root |

## Left out

- Floating point: JSON numbers are exact reals. Rounding, NaN and the text of fractional numbers (`String(0.1)`) are left out; that text is a parameter `numText`, exact only for integers.
- Engine.ToNumber: `Number()` on strings covers only blank text and numerals of the form digits with an optional fraction (`12`, `1.5`), with an optional sign. `5.` and `.5` give None, although JavaScript reads them as 5 and 0.5. Hex, exponent and `Infinity` forms also give None.
- Json.Member: only an object's own fields are seen. Inherited properties such as `constructor` or `toString` read as undefined.
- Property access on strings, numbers and booleans (`"abc".length`) gives undefined in the model.
- Arrays carry their indices and `length` only.
- Object key order and the `JSON.stringify` round trip through `jsonb` columns are left out. A stored value is the value written.
- Strings are sequences of characters. UTF-16 surrogates and Unicode whitespace beyond the usual list are left out.
- The SQL engine is replaced by `Store.Tables`. The rows `getById`'s join returns are a parameter; their `ORDER BY created_at` is taken as given.
- Queries without `ORDER BY`, such as the start node of `executeWorkflow`, `firstNodeId` and the edge rows of `runNode`, are a nondeterministic choice.
- The schema is not in the repository. Foreign keys from edges to nodes and from nodes to workflows are assumed to reject dangling rows; the activity/instance keys are not checked.
- Engine: PostgreSQL's uuid checks are modelled in `import` and the lookups only. In the engine an unknown id simply does not exist.
- PostgreSQL's text coercion of parameters is left out: a node's `kind` and `label` and an edge's `condition`, `sourceHandle` and `targetHandle` are stored as the JSON value given. node-postgres would send a number, boolean or object as its text, so an `if` edge imported with `condition: 5` stores `"5"`, which `evalCond` reads as false. In the model the stored value stays the number, and `runNode` on that edge fails with the TypeError `cond?.match is not a function` instead of routing on.
- Workflows.NodeLookup: ids are compared as text, here and in the other lookups of stored ids (`WorkflowChoice`, `NodePlacement`, the foreign-key check of `EdgeStep`, the kept pairs of `CleanupExact`). PostgreSQL compares uuid values, so an upper-case or braced spelling of a stored id matches there and not in the model.
- Workflows.Iterate: the TypeError for a value that is not iterable has the fixed text `object is not iterable`. V8's text names the expression and is not modelled.
- Workflows.UuidError: the error text for an object or array parameter uses the model's `String()` and not node-postgres's serialisation.
- Workflows.CleanupExact: a constraint violation is reported with a fixed message, not PostgreSQL's text with the constraint name.
- jsonata, `fetch`, `JSON.parse`, the uuid library and RabbitMQ are parameters. The 15 s abort timer of `httpCall` is left out.
- Engine.EngineService.RunNode: it models the one hop the source makes. The second activity is not chained further.
- `Date.now()` is a parameter `now`.
- Logging, the health check's interval timer and the always-true log throttle are left out, as I/O without logic.
- `sendTimerEvent` is left out: a single broker publish.
- `list`, `create` and `getInstances` of `WorkflowsService` are left out: plain queries with no reconciliation.
- The broker clients, the controllers other than hooks, `web/`, `test-hook.rs` and `test-hook.js` are not part of this model.
- Text.AsciiUpper: only ASCII letters are upper-cased. Other letters stay as they are, whereas `toUpperCase` maps `é` to `É` and `ß` to `SS`.
- Http.HttpCall: the `HTTP <status>` prefix prints the status as an integer. Status texts and redirects belong to `fetch`.
- Extension.CommandOutcome: the information message after the copy is not modelled separately from `Copied`.
