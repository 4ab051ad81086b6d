# EvalFrog: verified core

A Dafny model of the parts of EvalFrog that carry its correctness: the compiler's static check of data
references, the run-time engine, the project-fair scheduler, the attempt lease protocol over PostgreSQL, the
event relay, and the canonical JSON form on which definition and idempotency hashes rest. `dafny verify
dfyconfig.toml` checks the whole project.

The parts meet. The static check (a decision diagram over branch routes) is proved to decide exactly which
references are safe; compiling keeps the graph and the safety of its references; the engine, driven by any
sequence of operations on a definition that passed both checks, always resolves its inputs and never gets
stuck; the rows of the database, changed by any interleaving of transactions, always stand for a state that
engine could have reached, so a theorem about engine runs is a theorem about the rows; and with outbox,
broker and inbox around them, crashes and redeliveries change nothing about that, and no result is lost.

| part | modules |
|---|---|
| identifiers, graphs, values | `Ids`, `Graphs`, `Json` |
| control graph and static check | `ControlGraph`, `Descendants`, `Decision`, `DataBindings` |
| compiling and the definition contract | `Compile`, `DefinitionGraph`, `Workflow`, `Branch` |
| the engine as a state machine | `Runtime` (records), `EngineSpec` (steps), `EngineInvariants`, `EngineDrive`, `EngineSafety` |
| theorems about engine runs | `EngineFlow`, `EngineProgress`, `EngineContinuity`, `EngineConfluence`, `EngineRuns`, `EngineRestore`, `EngineOutputs`, `EngineExample` |
| the engine object, in place | `EngineObject` |
| planning and merging reservations | `Planner`, `Reservations` |
| lanes | `Lanes` (scripts as steps), `LaneSafety`, `LaneEpochs`, `LaneRuns`, `LaneWindows` (a whole rebalance), `LaneStore` (scripts in place) |
| attempt rows | `AttemptStore` (transactions as steps), `StoreSafety`, `StoreRuns`, `Store` (rows in place) |
| outbox and broker; inbox and rows with them | `Relay`; `Delivery` |
| canonical JSON | `Numbers`, `JsonReader` (the grammar), `CanonicalJson`, `CanonicalReading` |

Where the source updates things in place, the model has a class or a method with loops, proved against a
function of the old state; the theorems are about those functions. Every run-level theorem quantifies over
all sequences of operations, steps or transactions, in any order and at any times.

Where the code differs from what one might expect, the model follows the code:

- Normalizing a number twice need not succeed. `15e10000` becomes `1.5e10001`, whose exponent is out of
  range; `Numbers.NormalTwice` gives the exact condition on the number and `Numbers.NormalNotIdempotent` the
  example.
- A node that fails, or is canceled by its own attempt, leaves its outgoing edges pending in the live engine,
  while restoring settles them inactive. `EngineRestore.EdgesDifferExactly` says for which edges, and
  `EngineRestore.FailureLeavesEdgesBehind` that it happens whenever a task fails for good;
  `EngineExample.EdgesDifferInSample` is such a run. No later operation can tell the difference
  (`EngineRestore.RestoredRunsAgree`).
- Aborting a reservation gives back candidate and credit and puts the grant first again, but does not put a
  project back into the set of active projects, and does not bring back the grants that were dropped because
  they could not be served. `LaneSafety.AbortUndoesReserve` says exactly when: a project whose last candidate
  was reserved cannot be served again before the next rebuild, as on the lane of `LaneSafety.AbortStrands`.
- A branch literal of number type that the definition contract accepts can still be refused by the run-time
  comparison, because the two decode numbers differently; `Branch.BranchTypeSound` says exactly when, and
  `Branch.OversizedMismatch` is such a literal.
- The reachability checks of the definition contract never fail alone: the other checks imply them
  (`DefinitionGraph.ReachabilityFollows`).

## Model

| member | source | states |
|---|---|---|
| `ControlGraph.TopologicalOrder` | internal/compiler/controlgraph.go:167-191 | Kahn's sort lists distinct nodes, at each point the smallest that is free; it lists all of them exactly when the graph is acyclic, and then every edge points forward |
| `ControlGraph.OrderExtends` | internal/compiler/controlgraph.go:167-191 | an acyclic graph has a topological order, extending any listing that puts predecessors first |
| `Descendants.BuildDescendants` | internal/compiler/controlgraph.go:213-232 | the rows of 64-bit words built backwards hold exactly the ordinals of the nodes reached along at least one edge |
| `Descendants.UpstreamMeansPath` | internal/compiler/controlgraph.go:234-241 | reading the words answers true exactly when a non-empty path leads from source to target, unknown ids included |
| `Decision.Canonical` | internal/compiler/activation.go:33-174 | in an ordered, reduced, shared diagram two identifiers are equal exactly when they denote the same function of the routes |
| `Decision.Manager.IdsAreCanonical` | internal/compiler/activation.go:33-174 | the same in every state of the manager, so equality of identifiers decides equality of formulas |
| `Decision.EvalStable` | internal/compiler/activation.go:50-77 | appending rows changes the meaning of no existing identifier |
| `Decision.Manager.MakeNode` | internal/compiler/activation.go:50-77 | keeps the table ordered, reduced and shared; the result selects the child of the route taken; it fails only at the node bound, changing nothing |
| `Decision.Manager.Equal` | internal/compiler/activation.go:40-48 | the result holds exactly when the branch took the route; it fails only with the table at its bound |
| `Decision.Manager.ApplyBinary` | internal/compiler/activation.go:87-134 | the memoised conjunction or disjunction of two diagrams means the conjunction or disjunction of their meanings, and all caches stay right; it fails only with the table at its bound |
| `Decision.Manager.Not` | internal/compiler/activation.go:136-160 | the memoised complement means the negation, and all caches stay right; it fails only with the table at its bound |
| `Decision.TableAtMost` | internal/compiler/activation.go:50-77 | a table never has more rows than there are functions of the routes: two to the number of combinations of routes |
| `DataBindings.ActivationFormulas` | internal/compiler/activation.go:188-219 | the formula of every node holds under exactly the route choices that activate it along some path from the start; it gives up only with the table at its bound |
| `DataBindings.CounterexampleDecides` | internal/compiler/activation.go:232-246 | the counterexample identifier is false exactly when every legal choice of routes that activates the reader activates its source |
| `DataBindings.CheckRef` | internal/compiler/activation.go:221-246 | one reference is passed exactly when it is safe; it gives up only with the table at its bound |
| `DataBindings.FullMeansMany` | internal/compiler/activation.go:50-77 | a full table means so many combinations of routes that two to their number reaches the bound, whatever the order of the branches |
| `DataBindings.ValidateDataBindings` | internal/compiler/activation.go:176-251 | the references reported are exactly the unsafe ones; it gives up only with a full table, so never while the combinations of routes are few; a missing route domain is reported exactly when an edge leaves a branch that declares no route |
| `Compile.BuildExecutionIds` | internal/compiler/compiler.go:158-182 | a collision is reported exactly when two different ids of nodes, or of edges, get the same execution id |
| `Compile.CompileGraph` | internal/compiler/compiler.go:61-133 | fails exactly on a collision; otherwise gives the definition and source maps that the document determines, with edges in order of id |
| `Compile.OrderDoesNotMatter` | internal/compiler/compiler.go:79-133 | documents that differ only in the order of nodes and edges compile to the same definition and source maps |
| `Compile.CompiledGraph` | internal/compiler/compiler.go:79-133 | without a collision the compiled control graph is isomorphic to the editable one: injective, onto, with start, branches, edges and routes in both directions |
| `Compile.SafeRenamed` | internal/compiler/compiler.go:79-133 | renaming keeps a safe reference safe |
| `Compile.CompiledBindingsSafe` | internal/compiler/compiler.go:58-133 | if the static check accepts every reference of the document, every reference of the compiled definition is safe |
| `Compile.CompileWorkflow` | internal/compiler/compiler.go:43-135 | a workflow that compiles is acyclic, has only safe references, and gives an isomorphic graph that follows the contract; one that is rejected has a cycle, an unsafe reference, a collision or a compiled graph that breaks the contract; one that is too complex filled the decision table |
| `Compile.CompiledRuns` | internal/compiler/compiler.go:43-135 | what leaves the compiler, with nodes that follow the rules of their operations, is a definition the engine theorems apply to |
| `DefinitionGraph.ReachableNodes` | internal/dsl/validator.go:407-421 | the stack walk finds exactly the start and what can be reached from it |
| `DefinitionGraph.FlippedReaches` | internal/dsl/validator.go:391-403 | walking the reversed edges from a node finds exactly the nodes with a path to it |
| `DefinitionGraph.CheckRoutes` | internal/dsl/validator.go:423-449 | passes exactly when every declared route of the branch has an edge |
| `DefinitionGraph.ReachabilityFollows` | internal/dsl/validator.go:314-405 | acyclic and connected definitions with valid edges have every node on a way from entry to exit |
| `DefinitionGraph.ValidateGraph` | internal/dsl/validator.go:314-449 | accepts exactly the graphs that follow the rules: distinct and valid edges, connected, acyclic, every declared route used |
| `DefinitionGraph.RulesMakeValid` | internal/dsl/validator.go:114-449 | such a graph, with nodes that follow their own rules, is a definition the engine runs |
| `Json.EqualJsonDecides` | internal/runtime/engine/branch.go:189-247 | on values whose numbers decode, the recursive comparison decides equality; so it is an equivalence |
| `Branch.EvaluateBranch` | internal/runtime/engine/branch.go:20-52 | the first case that decides wins, and without one the default route |
| `Branch.TakesDeclaredRoute` | internal/runtime/engine/branch.go:20-52 | a branch never takes a route it does not declare |
| `Branch.CompareMeans` | internal/runtime/engine/branch.go:79-187 | a well-typed comparison means what its operator says, and fails exactly on a literal no comparison can use |
| `Branch.BranchTypeSound` | internal/dsl/validator.go:451-584 | for every value of the declared type, a branch accepted by the contract whose cases have no path takes the route of the first case that holds, or fails at the first unusable literal before it, and on nothing else |
| `Branch.OversizedMismatch` | internal/runtime/engine/branch.go:240-247 | the contract accepts the comparison with 1e9999999, and it fails on every number |
| `EngineDrive.VisitKeeps` | internal/runtime/engine/engine.go:420-493 | visiting a node keeps the loop's invariant, or records the failure together with its intent |
| `EngineDrive.WindKeeps` | internal/runtime/engine/engine.go:391-419 | winding up a failed run succeeds, leaves the intent alone, and ends the run exactly when no node is open, in the state the intent names |
| `EngineDrive.DriveKeeps` | internal/runtime/engine/engine.go:391-493 | driving terminates without error (every repeated pass removes a pending node), restores the invariant, touches no attempt and no recorded intent |
| `EngineSafety.NewKeeps` | internal/runtime/engine/engine.go:59-112 | an engine is created exactly for a valid definition and command, and starts in the invariant |
| `EngineSafety.QueueKeeps` | internal/runtime/engine/engine.go:156-179 | succeeds exactly for a ready task of a run without intent and a fresh attempt id; keeps the invariant |
| `EngineSafety.StartKeeps` | internal/runtime/engine/engine.go:181-197 | succeeds exactly for an attempt that is queued or already running; keeps the invariant |
| `EngineSafety.RecordKeeps` | internal/runtime/engine/engine.go:199-226 | a result is accepted exactly when it is the first and well formed, and then is the only thing that changes; a repetition changes nothing |
| `EngineSafety.HandleKeeps` | internal/runtime/engine/engine.go:228-320 | fails exactly when attempt or result is missing or the time is unusable; keeps the invariant, the attempts and a recorded intent |
| `EngineSafety.RetryDueKeeps` | internal/runtime/engine/engine.go:322-335 | a waiting node becomes ready only at or after its current due time, whatever timers fire; no other node changes |
| `EngineSafety.RequestStopKeeps` | internal/runtime/engine/engine.go:337-360 | a cancellation or deadline applies exactly when the run is open and has no intent, and then it is the intent; otherwise the recorded one stays |
| `EngineSafety.ApplyKeeps` | internal/runtime/engine/engine.go:156-369 | every operation keeps the invariant; once there is an intent it is final and no attempt is created |
| `EngineSafety.InvAlways` | internal/runtime/engine/engine.go:59-493 | the invariant holds in every state of every run |
| `EngineSafety.RunExists` | internal/runtime/engine/engine.go:59-369 | every valid definition and command has a run under every sequence of operations |
| `EngineFlow.ActivatedIffActive` | internal/runtime/engine/engine.go:420-568 | in a run without intent a settled node was activated exactly when the routes taken activate it |
| `EngineFlow.ReferenceResolves` | internal/runtime/engine/engine.go:506-536 | a reference the static check accepted finds its source succeeded, with the output it names |
| `EngineFlow.InputsAlwaysResolve` | internal/runtime/engine/engine.go:506-536 | the inputs of a node about to fire always resolve: never an error, never "not ready" |
| `EngineProgress.DriveCalm` | internal/runtime/engine/engine.go:391-493 | driving ends in a state where every pending node waits for an unsettled predecessor |
| `EngineProgress.CalmAlways` | internal/runtime/engine/engine.go:371-493 | so it is in every state of every run |
| `EngineProgress.EndNeverSkipped` | internal/runtime/engine/engine.go:391-493 | the end node is never skipped |
| `EngineProgress.NeverStuck` | internal/runtime/engine/engine.go:391-493 | a calm run that is neither over nor terminating has a task ready, queued, running or waiting to be retried |
| `EngineProgress.RunsProgress` | internal/runtime/engine/engine.go:371-493 | the same for every state of every run of an accepted definition |
| `EngineExample.SampleAccepted` | internal/dsl/validator.go:114-449 | there are definitions that the contract and the static check accept: one with two data references |
| `EngineExample.ForkedAccepted` | internal/dsl/validator.go:114-449 | and one with a branch, in which a reference is safe because its source is on the only route that leads to the reader |
| `EngineExample.ForkedUnsafe` | internal/compiler/activation.go:221-246 | in it, a reference from the end to a task on one route is not safe |
| `EngineContinuity.StaleChangesNothing` | internal/runtime/engine/engine.go:228-252 | handling the completion of an attempt that is no longer the current one of a node at work changes nothing |
| `EngineContinuity.TwiceIsOnce` | internal/runtime/engine/engine.go:228-320 | handling the same completion again, at whatever time, changes nothing |
| `EngineContinuity.SettledIsFinal` | internal/runtime/transitions.go:14-32 | no operation changes a node that is over |
| `EngineContinuity.TalliedAlways` | internal/runtime/model.go:436-456 | in every run the attempts of a node are numbered from one without gaps or repetitions |
| `EngineConfluence.BelowAntisymmetric` | internal/runtime/model.go:526-533 | two states each reachable from the other by successes are the same, because every change raises a version |
| `EngineConfluence.DriveClimbs` | internal/runtime/engine/engine.go:391-493 | driving without failure climbs to a settled state in which every node is explained by its sources |
| `EngineConfluence.CompletionsCommute` | internal/runtime/engine/engine.go:228-268 | successes of two attempts handled in either order both raise an intent or both reach the same run, node, attempt and edge records |
| `EngineRuns.TracedAlways` | internal/runtime/engine/engine.go:391-549 | without an intent, every node that fired did so on the outputs its sources still show |
| `EngineRuns.RunsCommute` | internal/runtime/engine/engine.go:228-268 | completions commute in every state a run reaches |
| `EngineRuns.RunsFollowRoutes` | internal/runtime/engine/engine.go:391-549 | in every state of every run without intent a settled node was activated exactly when the routes taken activate it, whatever the open branches will choose |
| `EngineRuns.OutcomeIsNamed` | internal/runtime/model.go:204-262 | a node that failed, timed out or was canceled implies a recorded intent; a run with an intent is over exactly when all nodes are, in the state the intent names, never succeeded; a run over without one succeeded |
| `EngineRuns.IntentIsFinal` | internal/runtime/model.go:204-236 | the first intent never changes and no attempt is created after it |
| `EngineRuns.WindLeavesLive` | internal/runtime/engine/engine.go:391-419 | winding up leaves open only nodes whose attempt is still out |
| `EngineRuns.AttemptsWithinPolicy` | internal/runtime/model.go:436-486 | attempt sequence is business count plus recovery count, both within the policy, equal to the number of attempts made; no node has two attempts out |
| `EngineOutputs.ApplySourced` | internal/runtime/engine/engine.go:495-504 | every operation keeps a node's outputs those its effective attempt reported |
| `EngineOutputs.SourcedAlways` | internal/runtime/model.go:488-498 | so they are in every state of every run |
| `EngineRestore.RestoreGivesTwin` | internal/runtime/engine/state.go:41-132 | restoring a snapshot gives back run, nodes and attempts, with the edges read off the settled nodes |
| `EngineRestore.TwinIsSound` | internal/runtime/engine/state.go:118-130 | the restored engine satisfies the invariant |
| `EngineRestore.ApplyTwin` | internal/runtime/engine/state.go:118-130 | every operation acts alike on the live and the restored engine |
| `EngineRestore.RestoreAlwaysSucceeds` | internal/runtime/engine/state.go:21-132 | in every state of every run, restoring the snapshot succeeds and gives the same snapshot |
| `EngineRestore.RestoredRunsAgree` | internal/runtime/engine/state.go:21-132 | under any later operations both have equal snapshots, and equal edges as long as there is no intent |
| `EngineRestore.LaggingAlways` | internal/runtime/engine/engine.go:228-320 | in every run an edge is as a rebuild would have it, or pending behind a node that ended badly |
| `EngineRestore.EdgesDifferExactly` | internal/runtime/engine/state.go:122-130 | the rebuilt edges differ in exactly those |
| `EngineRestore.FailureLeavesEdgesBehind` | internal/runtime/engine/engine.go:275-320 | a task that fails for good leaves all its edges so |
| `EngineExample.EdgesDifferInSample` | internal/runtime/engine/state.go:122-130 | a run of the sample in which the only attempt fails ends with an edge pending in the live engine and inactive when rebuilt |
| `EngineObject.Engine.SettleOutgoing` | internal/runtime/engine/engine.go:538-549 | the loop over the edges settles exactly those out of the node, by the route taken |
| `EngineObject.Engine.ResolveInputs` | internal/runtime/engine/engine.go:506-536 | the loop gives the resolved inputs, a wait or a refusal as the step relation says |
| `EngineObject.Engine.Visit` | internal/runtime/engine/engine.go:420-490 | one visit in place is the visit of the step relation |
| `EngineObject.Engine.WindUp` | internal/runtime/engine/engine.go:391-419 | cancels in place what the step relation cancels |
| `EngineObject.Engine.Drive` | internal/runtime/engine/engine.go:391-493 | the repeated loop is the recursive drive of the step relation, errors included |
| `EngineObject.Engine.QueueNode` | internal/runtime/engine/engine.go:156-179 | keeps the invariant and takes the operation's step; an error leaves everything as it was |
| `EngineObject.Engine.StartAttempt` | internal/runtime/engine/engine.go:181-197 | the same |
| `EngineObject.Engine.RecordAttemptResult` | internal/runtime/engine/engine.go:199-226 | the same; only attempts change |
| `EngineObject.Engine.HandleAttemptCompleted` | internal/runtime/engine/engine.go:228-320 | keeps the invariant and takes the operation's step; it fails exactly where the step does, changing nothing |
| `EngineObject.Engine.RetryDue` | internal/runtime/engine/engine.go:322-335 | the same |
| `EngineObject.Engine.RequestCancel` | internal/runtime/engine/engine.go:337-346 | the same, and says whether this intent was recorded |
| `EngineObject.Engine.DeadlineReached` | internal/runtime/engine/engine.go:348-360 | the same |
| `EngineObject.Engine.SnapshotState` | internal/runtime/engine/state.go:21-35 | the records in ascending order of their ids, whatever order the maps are walked in |
| `EngineObject.Engine.RebuildEdges` | internal/runtime/engine/state.go:122-130 | reads every edge off its source and changes nothing else |
| `EngineObject.New` | internal/runtime/engine/engine.go:59-112 | gives an engine in the invariant exactly where a run can be created |
| `EngineObject.RestoreNodes` | internal/runtime/engine/state.go:61-86 | accepts exactly usable records and gives each node its record with outputs refilled |
| `EngineObject.Restore` | internal/runtime/engine/state.go:41-132 | gives the restored state exactly where the records are usable |
| `Planner.LaneFor` | internal/scheduling/model.go:318-325 | the lane of a project is one of the lanes |
| `Planner.SortCandidates` | internal/scheduling/model.go:344-357 | a sorted permutation |
| `Planner.CountInflight` | internal/scheduling/planner.go:23-39 | counts every attempt once in all, per project and per pool, and refuses invalid entries |
| `Planner.PickIsFirst` | internal/scheduling/planner.go:60-74 | among the projects on the lowest level the first in order is picked |
| `Planner.FillIsFair` | internal/scheduling/planner.go:57-82 | filling keeps fairness, prefixes and charges, and stops only when the window is used up or no project can be served |
| `Planner.FillWindows` | internal/scheduling/planner.go:57-82 | the loop, appending to lanes, grants in the order of the filling and puts each grant into the lane of its project |
| `Planner.GrantedIs` | internal/scheduling/planner.go:57-92 | what the lanes of the plan give a project is a prefix of its sorted queue, in number and in pools |
| `Planner.BuildPlan` | internal/scheduling/planner.go:11-101 | refuses exactly invalid input; otherwise gives the plan of a sorted permutation of the candidates |
| `Planner.PlanIsFair` | internal/scheduling/planner.go:11-101 | max-min fairness: a project with grants is at most one level above any project that could still be served; prefixes; no window exceeded; stops only when room or work is exhausted |
| `Reservations.DistinctAttempts` | internal/scheduling/scheduler.go:278-319 | merging counts each attempt once |
| `Reservations.MergeReservations` | internal/scheduling/scheduler.go:278-319 | charges every reservation that is unconfirmed or known in flight, once, to its own project and pool; takes its nodes off the candidates; keeps and renews exactly those per lane |
| `Reservations.CreditBatches` | internal/scheduling/planner.go:103-114 | refuses exactly a size below one; batches put end to end are the admissions, all full but the last, none empty |
| `LaneSafety.TakeSafe` | internal/adapters/schedulingredis/client.go:229-544 | every script keeps: no empty or mixed queue, every reservation on the lane it names, each project's grants within its credit, credit plus what was handed out and not given back within what was granted; the fence never falls |
| `LaneSafety.SafeAlways` | internal/adapters/schedulingredis/client.go:229-544 | so it is over every interleaving from the empty lane |
| `LaneSafety.FenceNeverFalls` | internal/adapters/schedulingredis/client.go:229-238 | over any history the fence never falls |
| `LaneSafety.AbortUndoesReserve` | internal/adapters/schedulingredis/client.go:433-512 | an abort with restore right after a reservation gives back queues, reservations and credits, and the grants whole exactly when none before the served one was dropped; the project leaves the active set exactly when its queue had one candidate, and exactly then what was given back cannot be served |
| `LaneSafety.AbortStrands` | internal/adapters/schedulingredis/client.go:458-511 | a lane with one candidate: after reserving and giving back, the candidate, credit and grant are there and nothing can be reserved |
| `LaneEpochs.PauseCloses` | internal/adapters/schedulingredis/client.go:229-238 | a newer lease closes the lane with nothing reserved under its fence |
| `LaneEpochs.RebuildPrepares` | internal/adapters/schedulingredis/client.go:278-327 | an applied rebuild holds exactly the candidates by project, without credit |
| `LaneEpochs.GrantPrepares` | internal/adapters/schedulingredis/client.go:376-392 | an applied grant adds exactly its credit |
| `LaneEpochs.ActivateOpens` | internal/adapters/schedulingredis/client.go:410-419 | opening the lane opens the account of the epoch |
| `LaneEpochs.SpendingKeeps` | internal/adapters/schedulingredis/client.go:433-535 | while a lane stays open every step keeps the account: reservations come off the front of the queues, within the credit granted, pool by pool |
| `LaneEpochs.SpendingAlways` | internal/adapters/schedulingredis/client.go:433-535 | the same over any history |
| `LaneEpochs.LaneWithinAllotment` | internal/adapters/schedulingredis/client.go:433-469 | the reservations of an epoch on a lane stay within its admissions, in all and from each pool |
| `LaneEpochs.PlanAllots` | internal/scheduling/planner.go:83-92 | the admissions of a lane are the beginning of the queues of that lane |
| `LaneEpochs.EpochWithinWindows` | internal/scheduling/planner.go:40-82 | over all lanes, the reservations of an epoch fit into the global and every pool window |
| `LaneRuns.OlderIsRefused` | internal/adapters/schedulingredis/client.go:229-420 | the fence refuses every step of a balancer with an older lease |
| `LaneRuns.ClosedUntilRebuilt` | internal/scheduling/scheduler.go:52-88 | from pause to rebuild a lane stays closed, whatever admission and older balancers do |
| `LaneRuns.PreparedUntilOpened` | internal/scheduling/scheduler.go:93-108 | from rebuild to activation it holds the candidates and exactly the credit granted so far |
| `LaneRuns.SpendingUntil` | internal/scheduling/scheduler.go:117-122 | after activation it spends that credit and nothing else, until a newer balancer takes over |
| `LaneRuns.HandedWithinGrants` | internal/adapters/schedulingredis/client.go:433-512 | what was handed out in the epoch and not given back, expired or not, is within what was granted |
| `LaneRuns.PlanCarriedOut` | internal/scheduling/scheduler.go:47-123 | whatever happened on a lane before, a balancer with a newer lease that has not expired carries out its plan there |
| `LaneRuns.RebalanceWithinWindows` | internal/scheduling/scheduler.go:47-123 | however rebalance, admission and older balancers interleave on the lanes, the reservations of the epoch fit into the windows of the plan |
| `LaneWindows.OfEpochOrKept` | internal/adapters/schedulingredis/client.go:278-327 | after a rebuild every reservation on the lane belongs to the epoch, or was listed by the balancer and kept by the merge |
| `LaneWindows.ListedIsKept` | internal/scheduling/scheduler.go:278-319 | a reservation that is not confirmed, or whose attempt is in flight, is charged, survives the rebuild of its lane, and its node is not offered again |
| `LaneWindows.HeldWithinWindows` | internal/scheduling/scheduler.go:47-123 | at every moment of the epoch the attempts in flight together with all reservations on all lanes, of any epoch, number at most the window or what was out before, in all and (when entries of an attempt agree on its pool) for each pool |
| `LaneWindows.HandedWithinWindow` | internal/scheduling/scheduler.go:47-123 | what all lanes hand out in the epoch and do not get back fits into what was left of the window |
| `LaneWindows.FreshBalance` | internal/scheduling/scheduler.go:47-123 | for every snapshot and dimensions there is such a rebalance |
| `LaneStore.Store.Pause` | internal/adapters/schedulingredis/client.go:229-238 | the script in place is the pause step |
| `LaneStore.Store.ListReservations` | internal/adapters/schedulingredis/client.go:269-276 | forgets exactly the expired reservations and lists the others |
| `LaneStore.Store.Rebuild` | internal/adapters/schedulingredis/client.go:278-327 | the loops over reservations and candidates are the rebuild step |
| `LaneStore.Store.GrantCredit` | internal/adapters/schedulingredis/client.go:376-392 | the loop over a batch is the grant step |
| `LaneStore.Store.Activate` | internal/adapters/schedulingredis/client.go:410-419 | the script in place is the activation step |
| `LaneStore.Store.ReserveNext` | internal/adapters/schedulingredis/client.go:433-468 | popping grants until one can be served is the reservation step; stored queues are never empty |
| `LaneStore.Store.Abort` | internal/adapters/schedulingredis/client.go:491-511 | the script in place is the abort step |
| `LaneStore.Store.Confirm` | internal/adapters/schedulingredis/client.go:524-534 | the script in place is the confirmation step; says whether the reservation was there |
| `StoreSafety.DispatchRefines` | internal/adapters/postgres/scheduling_store.go:104-229 | a dispatch that succeeds is the engine's queueing of that attempt |
| `StoreSafety.ClaimRefines` | internal/adapters/postgres/attempt_store.go:20-122 | a claim is the engine's start of that attempt, or a repetition that changes no row |
| `StoreSafety.HeartbeatKeeps` | internal/adapters/postgres/attempt_store.go:133-152 | a heartbeat changes nothing the engine sees |
| `StoreSafety.CompleteRefines` | internal/adapters/postgres/attempt_store.go:154-270 | a result is accepted exactly when it is well formed and comes under the lease that holds, for the current attempt, in time; then it is what the engine records; a repetition changes nothing |
| `StoreSafety.LostRefines` | internal/adapters/postgres/attempt_store.go:272-347 | a lease is declared lost exactly when it is current and its time has come; then it is what the engine records |
| `StoreSafety.AdvanceRefines` | internal/adapters/postgres/runtime_store.go:627-699 | loading, applying one operation and writing back the rows whose version changed is that operation of the engine |
| `StoreSafety.TakeSound` | internal/adapters/postgres/attempt_store.go:20-347 | every transaction keeps the rows sound and is one operation of the engine or invisible to it |
| `StoreRuns.InitialSound` | internal/adapters/postgres/runtime_store.go:568-617 | the rows inserted for a new run load as the engine's first state |
| `StoreRuns.SoundAlways` | internal/adapters/postgres/attempt_store.go:20-347 | over every interleaving the rows are sound |
| `StoreRuns.HistoryExists` | internal/adapters/postgres/runtime_store.go:568-617 | every sequence of transactions after initialization has a history |
| `StoreRuns.RowsFollowEngine` | internal/adapters/postgres/runtime_store.go:464-699 | after any transactions the rows load as a state that some engine run reaches |
| `StoreRuns.OverIsFinal` | internal/adapters/postgres/attempt_store.go:154-347 | no transaction changes state, error or output of an attempt that is over |
| `StoreRuns.OutcomeIsFinal` | internal/adapters/postgres/attempt_store.go:154-347 | over any interleaving an attempt leaves the running state at most once |
| `StoreRuns.RowsInOrder` | internal/adapters/postgres/attempt_store.go:20-347 | a node has at most one attempt queued or running; output rows are exactly those of succeeded attempts; every attempt has its task row |
| `StoreRuns.LostIsNeverAccepted` | internal/adapters/postgres/attempt_store.go:154-270 | a result under a lease already marked lost is refused, then and ever after |
| `StoreRuns.CancellationWins` | internal/runtime/engine/consumer.go:164-243 | a requested cancellation that wins over the deadline becomes the intent of a run that has none, whichever event is processed next |
| `StoreRuns.CancellationIsFirst` | internal/runtime/engine/consumer.go:194-243 | over any history, once a winning request is on record for a run without an intent, the first intent ever recorded is that cancellation |
| `Store.RunRows.DispatchReady` | internal/adapters/postgres/scheduling_store.go:104-229 | the transaction in place is the dispatch step, or changes nothing |
| `Store.RunRows.Claim` | internal/adapters/postgres/attempt_store.go:20-122 | the transaction in place is the claim step, or changes nothing |
| `Store.RunRows.Heartbeat` | internal/adapters/postgres/attempt_store.go:133-152 | the transaction in place is the heartbeat step, or changes nothing |
| `Store.RunRows.Complete` | internal/adapters/postgres/attempt_store.go:154-270 | the transaction in place is the completion step, or changes nothing |
| `Store.RunRows.MarkExpiredLost` | internal/adapters/postgres/attempt_store.go:272-347 | the transaction in place is the loss step, or changes nothing |
| `Store.RunRows.RequestCancellation` | internal/adapters/postgres/runtime_store.go:155-225 | records the first cancellation request and no later one |
| `Store.RunRows.AdvanceRun` | internal/adapters/postgres/runtime_store.go:627-699 | the loop writes exactly the rows whose version changed |
| `Relay.TakeOk` | internal/adapters/postgres/outbox_store.go:12-94 | every step of the relays, and every crash, keeps the protocol in order |
| `Relay.OkAlways` | internal/adapters/postgres/outbox_store.go:12-94 | over any history |
| `Relay.PublishedIsLogged` | internal/eventing/event.go:132-153 | an event marked published is in the broker's log, and everything in the log is from the outbox |
| `Relay.StaleClaimIsPowerless` | internal/adapters/postgres/outbox_store.go:68-94 | a relay whose claim was retaken can neither mark nor release the event, at any later time |
| `Relay.RetakenIsStale` | internal/adapters/postgres/outbox_store.go:12-66 | retaking a claim makes the token it was held under stale |
| `Relay.RelayOnce` | internal/eventing/event.go:132-153 | a round publishes and marks a prefix of what it claimed, in order; what it counts is in the log and marked; the log grew by exactly that, and by one more event when a mark found its claim gone |
| `Delivery.RowsOfOnce` | internal/runtime/engine/consumer.go:42-61 | with rows, outbox, broker and inbox together: after any crashes, repeated publications and redeliveries the rows are those of the history in which every write that was not rolled back happens once and every accepted event is handled once |
| `Delivery.AcceptedOnce` | internal/adapters/postgres/runtime_store.go:403-430 | no event takes effect twice, those that do are exactly the ones in the inbox, and all had been published |
| `Delivery.ActsOnce` | internal/adapters/postgres/runtime_store.go:420-430 | once an event took effect, delivering it again changes nothing at all |
| `Delivery.AttemptHeard` | internal/runtime/engine/consumer.go:164-239 | after the event that tells of a finished attempt was handled, no node waits for it, whatever cancellation or deadline made of the event |
| `Delivery.CancelAnswered` | internal/runtime/engine/consumer.go:164-239 | after the event that tells of a request to cancel was handled, the run has an intent or is over |
| `Delivery.NothingLostAlways` | internal/adapters/postgres/attempt_store.go:154-347 | in every state of every history, while a node waits for an attempt whose result is there, or a request to cancel has no intent yet, an event that tells of it is in the outbox and not yet handled |
| `Delivery.AllHeard` | internal/adapters/postgres/attempt_store.go:154-347 | once every event was handled, no node waits for a finished attempt and no request to cancel is unanswered |
| `Delivery.MailHistory` | internal/adapters/postgres/outbox_store.go:12-94 | the outbox and broker of such a history go through a history of the relays, so what holds of those holds here |
| `Delivery.HistoryExists` | internal/runtime/engine/consumer.go:42-61 | every sequence of steps has a history |
| `Numbers.ReadText` | internal/ir/canonical.go:147-180 | taking the text of a number apart gives back its parts |
| `Numbers.NormalKeepsValue` | internal/ir/canonical.go:147-210 | the normalized number has exactly the same value |
| `Numbers.CanonUnique` | internal/ir/canonical.go:175-210 | a value has one canonical form |
| `Numbers.NormalDecides` | internal/ir/canonical.go:147-210 | two accepted numbers get the same text exactly when they are equal |
| `Numbers.NormalTwice` | internal/ir/canonical.go:164-206 | normalizing again changes nothing exactly when the number is zero, or a whole number that does not end in a zero, or the power of ten of its first digit is in range; otherwise it is refused |
| `Numbers.NormalNotIdempotent` | internal/ir/canonical.go:164-206 | 15e10000 becomes 1.5e10001, which is refused |
| `Numbers.NormalizeJsonNumber` | internal/ir/canonical.go:147-210 | the scanning and rewriting loops compute the normal form of every number of section 6 of RFC 8259 |
| `CanonicalJson.EscapeReads` | internal/ir/canonical.go:116-145 | every character is escaped so that a reader of section 7 of RFC 8259 gets it back, and what follows it |
| `CanonicalJson.QuoteReads` | internal/ir/canonical.go:116-145 | reading a quoted string gives back the string, and what follows it |
| `CanonicalJson.MarshalString` | internal/ir/canonical.go:116-145 | what the loop writes reads back as the string |
| `CanonicalJson.AppendCanonical` | internal/ir/canonical.go:55-114 | the recursive printer writes the canonical text, members in ascending order of their names, and fails exactly when a number is out of range |
| `CanonicalReading.NumberReads` | internal/ir/canonical.go:186-210 | the text of a number reads back, by section 6 of RFC 8259, as its parts |
| `CanonicalReading.PrintReads` | internal/ir/canonical.go:55-114 | the canonical text of a value, followed by anything that may follow one, reads by the grammar of RFC 8259 as that value and what follows |
| `CanonicalReading.CanonicalReads` | internal/ir/canonical.go:25-114 | parsing the canonical text of a document gives back the document, up to how its numbers are written |
| `CanonicalReading.Canonicalize` | internal/ir/canonical.go:25-114 | fails exactly when a number is out of range; otherwise what it writes parses as a document of the same value |
| `CanonicalReading.Unambiguous` | internal/ir/canonical.go:55-114 | the texts of two values, followed by anything that may follow a value, agree only if the values do |
| `CanonicalReading.CanonicalTextDecides` | internal/ir/canonical.go:55-114 | equal texts mean equal values |
| `CanonicalReading.SameTextSameValue` | internal/ir/canonical.go:55-145 | two accepted documents have the same canonical text exactly when they have the same value, numbers compared by value and members without order |

## Left out

- Run, node and attempt records are values replaced in the engine's maps rather than objects updated through pointers: the engine owns them and hands out copies, so aliasing cannot be observed.
- Edges are indexed by their position in the definition (their ids are unique), outgoing edges are walked in that order, and node lists are maps by id.
- Times are natural numbers with 0 as the zero time; durations, clocks and the database's time are parameters.
- Sequence numbers and versions are unbounded; the 32-bit and 64-bit wrap-around of counters is not modelled.
- Run identity, purpose, trace and definition reference, failure messages and details, and diagnostics other than "refused" are not carried.
- `EngineObject.Engine.ResolveInputs`: the walk over a map of bindings may meet a refusal or a wait first; the model lets the refusal win. For definitions that the compiler accepted neither happens (`EngineFlow.InputsAlwaysResolve`). `Json.EqualJsonDecides` likewise leaves the order of members of objects with undecodable numbers aside.
- `EngineObject.New`, `EngineObject.Restore`: the verdict of the definition contract and compatibility check on everything but the graph is a parameter.
- A node's handler in the compiler is a function of the node; catalog, policies, resources and the structural validator of the editable document (distinct ids, edges between known nodes) are assumed to have passed. The degree and route checks that `analyzeControlGraph` makes on the editable graph are modelled once, on the compiled definition, where the contract makes them again.
- SHA-256 and FNV-1a are arbitrary functions; `Planner.LaneFor` takes the digest as a parameter and the remainder for the mask, which agree for the powers of two that settings allow.
- `Planner.SortCandidates`: the order of candidates that compare equal is not fixed, as in the source.
- `BoundWindows`, `boundWindow`, `DispatchWindows` and the lease acquisition script: window arithmetic over floating point, and a compare-and-set; the windows and leases are inputs of the plan and the lanes.
- `DispatchReady` re-checks of routing, capability and resource class, and the rows of the worker registry.
- `Branch.BranchTypeSound`: cases with a path are evaluated as in the source, but what a path finds has no declared type, so nothing is promised for them.
- `sameCompletion` compares stored and reported JSON by value through float64; the model compares values exactly.
- The consumer's paths for runs that are still pending (cancellation or deadline before initialization), the event that creates a run, and initialization failure; `Delivery` starts with an initialized run. The cooldown of recovery wake-ups is not modelled: a wake-up is emitted whenever the rows call for it.
- `LaneWindows.HeldWithinWindows`: the bound for a single pool takes it that the entries of one attempt, in the snapshot and on the lanes, name the same pool; attempt ids are unique and the pool is written once, but that is not derived here.
- Claims of a batch of outbox events are taken one at a time; the task outbox follows the same protocol and is not repeated. `RuntimeEvent.Validate` is a list of field checks.
- The document decoder's own limits on size and depth: documents are trees whose numbers are literals of the grammar; strings are sequences of characters, and the encoding of characters in UTF-8 is not modelled.
- Drafts, publishing and rollback of definitions, HTTP and worker APIs, Kafka, Redis and PostgreSQL clients, executors, sandbox, caches, metrics and configuration.
