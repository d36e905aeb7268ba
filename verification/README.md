# Scheduling, audit and routing logic of the Mooncake/Jupiter tool chain

This project models the computational core of the Python tools around an ns-3 network simulator and proves what they
promise. `dafny verify dfyconfig.toml` checks everything.

## What is modelled

**The DAG-to-traffic compiler** (`tools/generate_trace/mooncake_dag_to_traffic_v15.py`). The compiler turns a task DAG
into native rows, each with a phase, a list of phases it waits for and one delay. The model says what such rows mean: an
execution assigns every phase a completion time; a row starts no earlier than the completion of all its phases plus its
delay and takes any network time; a phase completes no earlier than any of its rows, later ones included. A symbolic
gate `(root, {phase: lag})` has the value `max(root, C(p) + lag(p))`.

- `Timing` has rows, executions, gates and progress; `Dominance` says which terms of a gate are redundant and why no
  smaller set would do, `RowDominance` the same of the emitted rows with their real delays; `Tops` has the largest phase
  of a gate; `Dag` says when a task is complete and which phase is the largest it waits for, independent of any compiled
  form.
- `States` is the abstract compiler state with its invariant `Good`: records under-approximate every execution, stored
  forms have exactly the value of their tasks and keep their largest phase, and every row keeps the promise of its timing
  rule. `Tickets` shows why the one delay each policy computes keeps its promise, and what thinned forms are made of.
- `PhaseTables`, `GroupTables`, `TaskTables` and `Pruning` are the stores with their bounded caches, as classes; a ghost
  plain map says what each stands for.
- `Compilers` and `Expanders` are the two stateful classes of the source, method by method. The fields of the source's
  compiler are spread over the stores; `S()` gathers the abstract state.
- `Grouping` has the keys of groups and the slots that phases are kept under. `Latest`, part of the invariant, says that a
  group has the newest phase of its key.
- `EagerMaxPhase`, `Guarantees`, `Conservation` and `PrefillStarts` state the end results about the finished output; `Waves`
  those about network waves. `Sharing` (which rows share a phase), `Admission` (which rows are accepted, and why one is not)
  and `TaskRows` (which tasks have rows, and when these start) state results in the fields of the input rows alone.
  `Acceptable` says exactly when a row is accepted, `Converts` and `Compiles` what a run leaves behind and that nothing else
  is there.

Phase n of the model is phase `start_phase_id + n`; times are whole nanoseconds. `Rule` names the promise of a row:
`Exactly` and `NoEarlier` for the error and conservative policies; `AfterAll` for Prefill, which never looks at lags;
`PrefillStarts.PrefillRowExactWhen` says exactly when that is the weighted gate nevertheless; `JustAfterAll` for Decode, which
ignores releases. Two kinds of row wait for one phase on purpose, the largest of all rows they transitively depend on: a
max-phase row (`NotBeforeRelease`) starts no earlier than that phase with its own lag, and a Decode input Read (`AtFrontier`)
exactly its latency after it. Local work is `Folded` into a gate over everything, except that a batch begin (`Begin`) waits for
the largest phase of each dependency and an eagerly compacted task (`Compact`) for the largest of all and for the root that
no known floor covered. Both are defined over the DAG, up to that root, which `Derived` in turn ties to the stored forms; that
the stored forms have these values is part of the invariant.

**The rewiring auditor** (`tools/check_toe_reconfiguration.py`): `ToeAudit`. A circuit is a pair of ports. Acceptance is
shown to imply that the used ports never change, that no port repeats, and that no circuit set with the target counts
could have kept more circuits.

**Interval indexes** (`tools/analyze_toe_v3.py`): `Intervals` (merged intervals, overlap), `Zones` (the stabbing index with
running maxima of ends) and `Capacity` (snapshot capacity over a window). Each fast form equals a pointwise definition.

**Routing tables** (`tools/generate_routing_table.py`): `Routing` builds the table, `ShortestRoutes` proves that the assumed
distances 0, 1, 2 are the true ones whenever generation succeeds, and `Delivery` that packets following the table's own
entries arrive, along shortest paths.

**Playback and recording** (`tools/replay_dashboard`): `Playback` (streaming bins against direct counting), `Recording`
(merged route intervals) and `Highlights` (windows, segments, speeds).

**The test runner's worker pool** (`ns-3-ub/test.py`): `WorkerPool`, a state machine whose steps are single actions of
the main thread or a worker, with an interrupt possible at any moment.

`Collections`, `Ordering`, `Listings` and `Chunking` are shared: caches, sorting and bisection, dictionaries of lists, and
uint32 chunks.

## Edge cases of the code

- `prune` stops below a cutoff and skips siblings with the same interned vector and delay (`mooncake_dag_to_traffic_v15.py:637-648`).
  The model does both; `Pruning.PassIsExact` shows that the result is still the rule its docstring states.
- An evicted parent vector is interned again under a second ID (`mooncake_dag_to_traffic_v15.py:517-531`), so equal vectors
  may have different IDs. The model keeps this; only equality of vectors for equal IDs is used.
- A prepared gate taken from the cache skips the check that an input Read names its own P_DONE
  (`mooncake_dag_to_traffic_v15.py:1229-1234`). The model does so, too: `Expanders.Expander.Prepare` states exactly when a
  gate is given.
- A Prefill row looks at no lag (`mooncake_dag_to_traffic_v15.py:456-462`), so it can start before or after its weighted gate:
  `PrefillStarts.CompileLagInput` compiles an input where it does.
- A host cabled to itself is a host and a leaf. The routing generator accepts it, and packets that this host sends to any
  other host go round its cable for ever: `Delivery.DeliversExactlyWhen`.
- The pool has no worker when the process limit is negative (`test.py:1611-1626`); then a run with jobs cannot finish.
  `WorkerPool.EveryRunCompletes` states the exact condition.

## Model

| member | source | states |
|---|---|---|
| Timing.LegalTimesAreRuns | tools/generate_trace/mooncake_dag_to_traffic_v15.py:1056-1064 | Completion times are legal exactly when rows can be given start and finish times that respect phase dependencies, delay and phase completion, for any network times |
| Timing.Eval | tools/generate_trace/mooncake_dag_to_traffic_v15.py:702-719 | The value of a symbolic gate is the least instant not before its root nor any lagged phase completion |
| Timing.ShiftEval | tools/generate_trace/mooncake_dag_to_traffic_v15.py:1114-1115 | Folding a local duration into root and lags adds exactly that duration to the gate and leaves the untimed AND alone |
| Timing.MergeEval | tools/generate_trace/mooncake_dag_to_traffic_v15.py:717-719 | Merging forms term by term is the maximum of the gates, timed and untimed |
| Timing.ReadyIsEval | tools/generate_trace/mooncake_dag_to_traffic_v15.py:456-462 | A dependency list is ready when the unlagged gate over the same phases opens |
| Timing.EveryPhaseCompletes | tools/generate_trace/mooncake_dag_to_traffic_v15.py:1013-1014 | Rows that depend on lower-numbered phases only, with every phase having a row, have an execution for any network times; each phase completes exactly with the last of its rows |
| Dominance.PrunePreserves | tools/generate_trace/mooncake_dag_to_traffic_v15.py:600-609 | Dropping dominated terms changes neither the weighted gate nor the plain AND, in every execution the phase records allow |
| Dominance.KeptIsNeeded | tools/generate_trace/mooncake_dag_to_traffic_v15.py:600-609 | Minimality: for each kept term some consistent execution makes it the strict maximum |
| Dominance.ShiftKeeps | tools/generate_trace/mooncake_dag_to_traffic_v15.py:613-621 | A uniform lag shift keeps the same phases |
| Dominance.AppendKeeps | tools/generate_trace/mooncake_dag_to_traffic_v15.py:534-538 | Registering further phases changes no earlier pruning answer |
| Dominance.LargestIsKept | tools/generate_trace/mooncake_dag_to_traffic_v15.py:759-768 | The largest phase of a gate is never dominated |
| Pruning.Propagate | tools/generate_trace/mooncake_dag_to_traffic_v15.py:649-655 | Sending a threshold raises exactly the parents at or above the cutoff and queues the new ones |
| Pruning.PopKeeps | tools/generate_trace/mooncake_dag_to_traffic_v15.py:629-638 | Taking the largest phase off the heap decides its own term before its lag joins the threshold |
| Pruning.SendKeeps | tools/generate_trace/mooncake_dag_to_traffic_v15.py:639-655 | One visit keeps the pass invariant: arrived thresholds are real chains, sent ones reached every parent, the sibling shortcut included |
| Pruning.ChainSent | tools/generate_trace/mooncake_dag_to_traffic_v15.py:604-608 | When the heap is empty every chain from a term has been followed at its full weight |
| Pruning.PassIsExact | tools/generate_trace/mooncake_dag_to_traffic_v15.py:600-655 | The kept terms are exactly the undominated ones |
| Pruning.CoherentAppend | tools/generate_trace/mooncake_dag_to_traffic_v15.py:534-538 | New phases leave every cached pruning answer equal to a fresh one |
| Pruning.RememberedShift | tools/generate_trace/mooncake_dag_to_traffic_v15.py:613-621 | A cached answer serves every gate that differs from its key by a uniform shift |
| Pruning.LoneTermKept | tools/generate_trace/mooncake_dag_to_traffic_v15.py:611-612 | A single term is returned as it is, rightly |
| Pruning.Pruner.Clear | tools/generate_trace/mooncake_dag_to_traffic_v15.py:487-488 | After a phase record changes the cache is empty, hence coherent |
| Pruning.Pruner.Visit | tools/generate_trace/mooncake_dag_to_traffic_v15.py:629-655 | One heap iteration keeps the pass invariant and moves strictly downwards |
| Pruning.Pruner.Traverse | tools/generate_trace/mooncake_dag_to_traffic_v15.py:622-655 | The heap pass returns exactly the undominated terms |
| Pruning.Pruner.Prune | tools/generate_trace/mooncake_dag_to_traffic_v15.py:600-663 | From the cache or afresh, the result is exactly the undominated terms, and the cache stays coherent |
| Pruning.Pruner.PruneKeyed | tools/generate_trace/mooncake_dag_to_traffic_v15.py:613-663 | The same for gates small enough to be cached, under shift-normalised keys |
| Pruning.Pruner.Memorize | tools/generate_trace/mooncake_dag_to_traffic_v15.py:656-662 | Storing an answer keeps the cache coherent and its weight counter equal to the resident weight |
| Collections.Insert | tools/generate_trace/mooncake_dag_to_traffic_v15.py:399-403 | A new cache entry becomes the newest and adds its own weight to the counter |
| Collections.Refresh | tools/generate_trace/mooncake_dag_to_traffic_v15.py:412-413 | Touching an entry changes its age only and leaves the counter right |
| Collections.Trim | tools/generate_trace/mooncake_dag_to_traffic_v15.py:404-408 | Eviction respects both limits, keeps the newest entry, and splits the entries into resident and evicted without loss; the counter is the resident weight throughout |
| PhaseTables.PhaseTable.constructor | tools/generate_trace/mooncake_dag_to_traffic_v15.py:361-371 | An empty phase table |
| PhaseTables.PhaseTable.Remember | tools/generate_trace/mooncake_dag_to_traffic_v15.py:505-513 | Caching a vector keeps the weight counter and every resident vector right |
| PhaseTables.PhaseTable.Intern | tools/generate_trace/mooncake_dag_to_traffic_v15.py:517-531 | The returned gate ID stands for the given vector; earlier IDs keep their vectors even after eviction |
| PhaseTables.PhaseTable.Register | tools/generate_trace/mooncake_dag_to_traffic_v15.py:515-545 | Appends or overwrites exactly one record, accepts contiguous IDs only, and adds an open seal flag to new phases only |
| PhaseTables.PhaseTable.Lookup | tools/generate_trace/mooncake_dag_to_traffic_v15.py:551-562 | The last registered record, whatever the caches evicted |
| PhaseTables.PhaseTable.Floor | tools/generate_trace/mooncake_dag_to_traffic_v15.py:547-549 | The floor of the last registered record |
| PhaseTables.PhaseTable.SealAll | tools/generate_trace/mooncake_dag_to_traffic_v15.py:497-498 | Seals exactly the given phases |
| GroupTables.SpillKeeps | tools/generate_trace/mooncake_dag_to_traffic_v15.py:404-408 | Saving evicted groups before dropping them refines one plain map |
| GroupTables.GroupTable.Store | tools/generate_trace/mooncake_dag_to_traffic_v15.py:399-408 | The table plus the cache equal the old contents with this one group replaced |
| GroupTables.GroupTable.Load | tools/generate_trace/mooncake_dag_to_traffic_v15.py:410-424 | The last stored or mutated group, reloaded if it was evicted |
| GroupTables.GroupTable.Contains | tools/generate_trace/mooncake_dag_to_traffic_v15.py:434-437 | Known exactly when resident or saved |
| GroupTables.GroupTable.Mutate | tools/generate_trace/mooncake_dag_to_traffic_v15.py:1028-1030 | An in-place update of a resident group is an update of the plain map |
| GroupTables.GroupTable.Flush | tools/generate_trace/mooncake_dag_to_traffic_v15.py:500-503 | Afterwards the saved table alone is the whole map |
| TaskTables.FormTable.Insert | tools/generate_trace/mooncake_dag_to_traffic_v15.py:1135-1137 | Stores one form and loses none |
| TaskTables.FormTable.Find | tools/generate_trace/mooncake_dag_to_traffic_v15.py:588-598 | The stored form, cached or not |
| Dag.DoneExtends | tools/generate_trace/mooncake_dag_to_traffic_v15.py:704-708 | Later tasks never change when an earlier task is complete |
| States.RecordSound | tools/generate_trace/mooncake_dag_to_traffic_v15.py:464-488 | A record widened by a member still under-approximates every execution that also runs the member |
| States.EmitGood | tools/generate_trace/mooncake_dag_to_traffic_v15.py:987-1064 | A row joining a new or shared phase keeps the whole invariant: sound records, exact forms, kept row promises, acyclicity |
| States.EmitFrozen | tools/generate_trace/mooncake_dag_to_traffic_v15.py:425-426 | Joining an open phase changes no sealed phase |
| States.EmitParentsSealed | tools/generate_trace/mooncake_dag_to_traffic_v15.py:494-498 | New members wait for sealed phases only |
| States.AncestorsFrozen | tools/generate_trace/mooncake_dag_to_traffic_v15.py:494-498 | No ancestor of a sealed phase gains a member, parent, delay or floor later on |
| States.FrozenTransitive | tools/generate_trace/mooncake_dag_to_traffic_v15.py:494-498 | What consecutive steps leave unchanged the whole run leaves unchanged |
| States.BarrierForm | tools/generate_trace/mooncake_dag_to_traffic_v15.py:1079 | The stored form of a row is complete exactly when its phase is |
| States.WithFormGood | tools/generate_trace/mooncake_dag_to_traffic_v15.py:1135-1137 | Storing a form with the value of its task keeps the invariant |
| States.SealGood | tools/generate_trace/mooncake_dag_to_traffic_v15.py:494-498 | Sealing keeps the invariant |
| Tickets.ExactTicket | tools/generate_trace/mooncake_dag_to_traffic_v15.py:828-855 | Error policy: a row with one common lag and no uncovered root starts exactly at its weighted DAG gate |
| Tickets.LaterTicket | tools/generate_trace/mooncake_dag_to_traffic_v15.py:835-838 | Conservative policy: the padded delay never starts a row before its weighted DAG gate |
| Tickets.SelectedTicket | tools/generate_trace/mooncake_dag_to_traffic_v15.py:795-827 | Max-phase: the row writes exactly the largest predecessor phase and starts no earlier than that phase with its own lag, nor before its release and its own local time |
| Tickets.PrefillStart | tools/generate_trace/mooncake_dag_to_traffic_v15.py:456-462 | The start of a Prefill row: never before root or any predecessor, at the gate when no lags exist, exactly there when the root is 0 too |
| Tickets.PrefillTicket | tools/generate_trace/mooncake_dag_to_traffic_v15.py:456-462 | Prefill rows wait for all predecessor phases and the release, and are exact over predecessors without time of their own |
| Tickets.PrefillPads | tools/generate_trace/mooncake_dag_to_traffic_v15.py:459-462 | The padding only brings the earliest known start up to the root, and the floor is no less than the dependencies force |
| RowDominance.PrefillExactWhen | tools/generate_trace/mooncake_dag_to_traffic_v15.py:456-462 | A Prefill row starts at its weighted gate in every legal execution of the rows if and only if every undominated lag equals the padding of the root |
| RowDominance.RowKeptIsNeeded | tools/generate_trace/mooncake_dag_to_traffic_v15.py:600-609 | Minimality over the rows with their real delays: each undominated term is the strict maximum in some legal execution |
| RowDominance.RecordsKeepNeeded | tools/generate_trace/mooncake_dag_to_traffic_v15.py:600-609 | Pruning by the records, whose delays and floors may be less than those of the rows, drops no term that a legal execution needs |
| Tickets.DecodeTicket | tools/generate_trace/mooncake_dag_to_traffic_v15.py:739-747 | Decode rows start exactly when all predecessor phases are complete, plus the local delay; pruning loses nothing |
| Tickets.FrontierTicket | tools/generate_trace/mooncake_dag_to_traffic_v15.py:732-738 | Decode input Reads write exactly the largest predecessor phase and start exactly at its completion plus their latency |
| Tickets.BeginFits | tools/generate_trace/mooncake_dag_to_traffic_v15.py:704-719 | The stored form of a batch begin has, in every legal execution, the value of the largest phase of each dependency with its lag, plus its own duration |
| Tickets.CompactFits | tools/generate_trace/mooncake_dag_to_traffic_v15.py:758-773 | An eagerly compacted form has the value of the largest phase of all dependencies, and keeps the root that no known floor covers |
| Tickets.DerivedKept | tools/generate_trace/mooncake_dag_to_traffic_v15.py:494-498 | What a thinned form was made of, and the records it relied on, never change afterwards |
| Tickets.GateStep | tools/generate_trace/mooncake_dag_to_traffic_v15.py:702-719 | Merging one more stored form extends the gate by that dependency |
| Tickets.ShiftGate | tools/generate_trace/mooncake_dag_to_traffic_v15.py:1114-1115 | A local duration moves the gate by exactly that duration |
| Tickets.NormalPruned | tools/generate_trace/mooncake_dag_to_traffic_v15.py:774-775 | Pruned normal forms have the same value |
| Tickets.NormalRootless | tools/generate_trace/mooncake_dag_to_traffic_v15.py:785-786 | A root covered by the known floor and lag of some phase can be dropped without changing the gate |
| Chunking.Chunks | tools/generate_trace/mooncake_dag_to_traffic_v15.py:283-287 | Chunks are positive and fit uint32 |
| Chunking.ChunksSum | tools/generate_trace/mooncake_dag_to_traffic_v15.py:283-287 | The chunks sum to the payload, and there are as many as the rounded-up quotient |
| Chunking.CeilBounds | tools/generate_trace/mooncake_dag_to_traffic_v15.py:1053-1054 | A scaled chunk is at least 1 and the least number whose multiple covers the chunk |
| Chunking.ScaledSum | tools/generate_trace/mooncake_dag_to_traffic_v15.py:1046-1055 | Scaled rows total at least bytes/d and less than bytes/d plus the row count; exactly the bytes for d = 1 |
| Compilers.LocalKept | tools/generate_trace/mooncake_dag_to_traffic_v15.py:1006 | Groups local to a request keep mirroring their phase records when other phases change |
| Compilers.TrackOpen | tools/generate_trace/mooncake_dag_to_traffic_v15.py:997-1006 | A fresh phase disturbs no existing group |
| Compilers.TrackRewrite | tools/generate_trace/mooncake_dag_to_traffic_v15.py:1028-1033 | Rewriting a group and its record together keeps every group in step with its record |
| Compilers.BatchRecord | tools/generate_trace/mooncake_dag_to_traffic_v15.py:464-488 | Widening a batch-wide record by a member claims nothing its members do not justify |
| Compilers.ConsumedForEver | tools/generate_trace/mooncake_dag_to_traffic_v15.py:494-498 | Consumed forms stay as they are for the rest of the run |
| Compilers.GatherStep | tools/generate_trace/mooncake_dag_to_traffic_v15.py:702-719 | Each consumed dependency is merged whole into the gate, which stays exact; a batch begin merges exactly the largest phase of each |
| Compilers.Compiler.constructor | tools/generate_trace/mooncake_dag_to_traffic_v15.py:345-390 | The initial compiler state satisfies the whole invariant |
| Compilers.Compiler.SealTerms | tools/generate_trace/mooncake_dag_to_traffic_v15.py:494-498 | Only seals change, and under a sealing schema every phase of the consumed form is sealed |
| Compilers.Compiler.Incoming | tools/generate_trace/mooncake_dag_to_traffic_v15.py:665-728 | Accepted exactly when all dependencies are stored and an input Read names its own P_DONE; the result is the exact DAG gate, for a batch begin exactly the merged frontiers, and every consumed phase is sealed |
| Compilers.Compiler.Normalize | tools/generate_trace/mooncake_dag_to_traffic_v15.py:758-787 | A normal form of the same value, or under eager max-phase the largest phase with its lag |
| Compilers.Compiler.NativeGate | tools/generate_trace/mooncake_dag_to_traffic_v15.py:789-855 | The ticket keeps the policy's promise and pads no more than a lag or the root; refused exactly when the error policy meets a root or two different lags |
| Compilers.Compiler.NativeSelected | tools/generate_trace/mooncake_dag_to_traffic_v15.py:795-827 | Max-phase selects the largest phase with its own lag |
| Compilers.Compiler.PrefillGate | tools/generate_trace/mooncake_dag_to_traffic_v15.py:456-462 | All predecessor phases, the local delay, and padding for a root beyond the largest known floor |
| Compilers.Compiler.DecodeGate | tools/generate_trace/mooncake_dag_to_traffic_v15.py:730-747 | Accepted exactly when the awaited phases exist and carry no lag; waits for exactly them |
| Compilers.Compiler.Open | tools/generate_trace/mooncake_dag_to_traffic_v15.py:987-996 | Registers exactly one fresh open phase with the first member's record; refused exactly beyond uint32 |
| Compilers.Compiler.Rewrite | tools/generate_trace/mooncake_dag_to_traffic_v15.py:1028-1036 | Changes exactly one record and drops every cached pruning answer |
| Compilers.Compiler.SharedGroup | tools/generate_trace/mooncake_dag_to_traffic_v15.py:410-427 | The open group under a key; a sealed one counts as absent |
| Compilers.Compiler.BatchGroup | tools/generate_trace/mooncake_dag_to_traffic_v15.py:429-443 | Rejects exactly the groups that were consumed already |
| Compilers.Compiler.JoinWave | tools/generate_trace/mooncake_dag_to_traffic_v15.py:978-1036 | Joins the open group of owner, wave and parents, or a fresh phase if there is none or it was sealed; the group then holds the largest delay and floor; refused exactly when a fresh phase is needed and its ID leaves uint32 |
| Compilers.Compiler.JoinBatch | tools/generate_trace/mooncake_dag_to_traffic_v15.py:464-492 | Joins the batch-wide group under record delay 0 with the union of parents; refused exactly when the group was consumed, when the member would wait for it, or when a fresh phase ID leaves uint32 |
| Compilers.Compiler.JoinLocal | tools/generate_trace/mooncake_dag_to_traffic_v15.py:983-1006 | Without streaming groups the same per request, wave and parents; refused exactly when a parent is a phase of the same wave or a fresh phase ID leaves uint32 |
| Compilers.Compiler.JoinPhase | tools/generate_trace/mooncake_dag_to_traffic_v15.py:971-1014 | A network row joins exactly the group its batch type, schema and grouping call for, below its own phase, which is kept under that group for good; refused exactly when the group cannot take it. Which rows that lets share a phase, in their own fields, say the Sharing rows below |
| Compilers.Compiler.EmitChunks | tools/generate_trace/mooncake_dag_to_traffic_v15.py:1045-1078 | One row per uint32 chunk, in order, all with the ticket's phase, dependencies and delay; refused exactly when a traffic ID leaves uint32 |
| Compilers.Compiler.EmitTimer | tools/generate_trace/mooncake_dag_to_traffic_v15.py:857-883 | One zero-byte row for a control phase; refused exactly when the traffic ID leaves uint32 |
| Compilers.Compiler.EmitLands | tools/generate_trace/mooncake_dag_to_traffic_v15.py:987-1079 | Row, record, phase and node together make a valid next state in which only this task was added |
| Compilers.Compiler.NetworkRow | tools/generate_trace/mooncake_dag_to_traffic_v15.py:971-1079 | A network row lands with its whole payload in one open phase; refused exactly when no group can take it or its traffic IDs leave uint32 |
| Compilers.Compiler.TimerRow | tools/generate_trace/mooncake_dag_to_traffic_v15.py:1083-1104 | A control row lands in a phase of its own; refused exactly when its phase or traffic ID leaves uint32 |
| Compilers.Compiler.FoldedForm | tools/generate_trace/mooncake_dag_to_traffic_v15.py:1113-1124 | Local work is folded into a form of exactly its gate plus its duration; a batch begin into exactly its frontiers, an eagerly compacted row into exactly the largest phase of its gate |
| Compilers.Compiler.FoldRow | tools/generate_trace/mooncake_dag_to_traffic_v15.py:1113-1125 | A folded task adds a node and no rows; its form has the value the DAG gives it and is made of exactly the stored forms of its dependencies |
| Waves.ContiguousAccepted | tools/generate_trace/mooncake_dag_to_traffic_v15.py:929-937 | The network rows of a request are accepted exactly when each names a wave and no wave comes back after another one |
| Compilers.Compiler.EnterWave | tools/generate_trace/mooncake_dag_to_traffic_v15.py:929-937 | One row: accepted exactly when the sequence of waves stays contiguous |
| Compilers.Compiler.ConvertNetwork | tools/generate_trace/mooncake_dag_to_traffic_v15.py:924-1079 | Network rows: payload, wave, gate, group and chunks together keep the invariant; where the rule selects one phase, exactly that phase is written. Accepted exactly when stage, payload, wave, gate, group and IDs all allow it |
| Compilers.Compiler.ConvertRow | tools/generate_trace/mooncake_dag_to_traffic_v15.py:902-1137 | One DAG row, accepted exactly when its ID is the largest so far, its dependencies are stored, an input Read names its P_DONE, and its kind of row is acceptable: the recorded DAG then gains exactly this task, its rows carry exactly its payload, its form has exactly the value the DAG gives it, and no sealed phase changes |
| Compilers.Compiler.ConvertRequest | tools/generate_trace/mooncake_dag_to_traffic_v15.py:885-1143 | Exactly the rows of one request join the DAG, as given, with exactly their traffic in order, and their waves are contiguous; on refusal the rows before some position were converted and the row there is not acceptable in the state they left, or, in the schema that groups per request, the request came before |
| Compilers.Compiler.Run | tools/generate_trace/mooncake_dag_to_traffic_v15.py:1368-1397 | The whole input: exactly its rows are in the final DAG, as given, exactly their traffic was written in order and numbered without a gap, the invariant holds, nothing sealed ever changed, and exactly phases in the forms that a sealing row depends on were sealed; on refusal a row is malformed for its schema, a request comes back, or a row is not acceptable in the state the rows before it left |
| Sharing.PhaseMates | tools/generate_trace/mooncake_dag_to_traffic_v15.py:971-1036 | Two rows of different tasks share a phase only if they are reads, or stores, of one Prefill batch and layer, or input Reads of one Decode batch, or have the same owner, wave and written dependencies |
| Sharing.RunPhases | tools/generate_trace/mooncake_dag_to_traffic_v15.py:971-1036 | The same of any two rows that a run converted |
| Sharing.BatchesMeet | tools/generate_trace/mooncake_dag_to_traffic_v15.py:429-443 | Rows of one batch (and layer) are in one phase, and only they are |
| Sharing.WavesMeet | tools/generate_trace/mooncake_dag_to_traffic_v15.py:978-986 | In the other shared groups, rows of one owner, wave and dependencies are in one phase unless it was consumed in between |
| Sharing.RankPhases | tools/generate_trace/mooncake_dag_to_traffic_v15.py:1266-1284 | Ranks share a phase only within one batch, or within one wave and request (or one task without a request) with the same written dependencies |
| Admission.RowsAccepted | tools/generate_trace/mooncake_dag_to_traffic_v15.py:679-690 | In a converted input transfers are of the four kinds, name a wave and carry a payload, nothing else carries one; every dependency is an earlier row; a Decode input Read depends on the last P_DONE of its request alone |
| Admission.StreamedKinds | tools/generate_trace/mooncake_dag_to_traffic_v15.py:55-100 | Streamed transfers are reads and stores of Prefill batches or input Reads and writes of Decode batches |
| Admission.RowRefused | tools/generate_trace/mooncake_dag_to_traffic_v15.py:902-1078 | A row that stops a run is wrong in itself (ID, dependencies, P_DONE, stage, payload, duration, wave, or a gate no traffic row can express), finds no uint32 ID left, or belongs to a batch of which an earlier row is in a phase that an earlier row consumed or that it waits for itself |
| Admission.ClosedBatchRefuses | tools/generate_trace/mooncake_dag_to_traffic_v15.py:429-443 | Once a Prefill row, or with shared groups any streamed row, depends on a phase of a batch, no other row of that batch (and layer) is accepted |
| TaskRows.RowsExactly | tools/generate_trace/mooncake_dag_to_traffic_v15.py:1080-1104 | Exactly transfers, Prefill layers and batch begins, and Decode computations have rows; all but transfers one, of no bytes |
| TaskRows.PrefillRowStarts | tools/generate_trace/mooncake_dag_to_traffic_v15.py:942-951 | A Prefill read starts no earlier than its release, and than every dependency is complete, its storage latency later; a store at once; a control row its duration later; exactly then if nothing is released and no dependency is folded |
| TaskRows.DecodeRowStarts | tools/generate_trace/mooncake_dag_to_traffic_v15.py:732-757 | A Decode input Read starts exactly its storage latency after the largest phase of all rows it transitively depends on; other Decode rows when all phases are complete, control rows their duration later |
| TaskRows.LegacyRowStarts | tools/generate_trace/mooncake_dag_to_traffic_v15.py:960-970 | Rows gated by the timing policy: exactly, or not before, their weighted gate and their latency; under max-phase not before their release nor the largest phase with its lag |
| TaskRows.FoldedTasks | tools/generate_trace/mooncake_dag_to_traffic_v15.py:1113-1124 | A task without rows is complete its duration after its release and all dependencies; a batch begin its duration after the largest phase of each dependency; only eagerly compacted work of no batch keeps its largest phase |
| Expanders.PayloadConserved | tools/generate_trace/mooncake_dag_to_traffic_v15.py:1197-1212 | Over all ranks the emitted bytes total at least bytes/d, less than bytes/d plus the row count, and exactly the logical bytes for d = 1 |
| Expanders.GatheredKept | tools/generate_trace/mooncake_dag_to_traffic_v15.py:1227-1234 | A prepared gate stays exact while later rows are emitted |
| Expanders.GatheredFor | tools/generate_trace/mooncake_dag_to_traffic_v15.py:1274-1277 | The gate is the same for every rank that waits for it |
| Expanders.Expander.Resolve | tools/generate_trace/mooncake_dag_to_traffic_v15.py:1171-1178 | Resolves exactly when every dependency has an alias, to earlier expanded IDs only |
| Expanders.Expander.Prepare | tools/generate_trace/mooncake_dag_to_traffic_v15.py:1227-1264 | From the cache or gathered now, the prepared gate is the exact gate of the logical task; given exactly when an equal one is cached, or all dependencies are stored and an input Read names its own P_DONE |
| Expanders.Expander.Ranks | tools/generate_trace/mooncake_dag_to_traffic_v15.py:1266-1284 | Every rank becomes a task of its own in one phase, with its own bytes, under the common gate, and writes exactly its chunks; no rank form is stored; that it has the logical row's kind, batch, wave, release and latency says TaskRows.RankIsRow; on refusal the row of some rank is not acceptable in the state the ranks before it left |
| TaskRows.MembersExactly | tools/generate_trace/mooncake_dag_to_traffic_v15.py:1189-1214 | A logical transfer is taken exactly with a positive degree and some members of rising ranks below it, each with bytes, together its payload; any other task without members |
| TaskRows.RankIsRow | tools/generate_trace/mooncake_dag_to_traffic_v15.py:1266-1277 | A rank of a compiled logical row is a converted task with the class, stage, batch, layer, request, wave, release and latency of that row, its own bytes, and the aliases as dependencies |
| TaskRows.SingleIsRow | tools/generate_trace/mooncake_dag_to_traffic_v15.py:1266-1284 | A logical task without ranks is one converted task with its own fields and the aliases as dependencies |
| TaskRows.RankPrefillStarts | tools/generate_trace/mooncake_dag_to_traffic_v15.py:942-951 | Every row of a rank of a logical Prefill read starts no earlier than the logical release, and than every alias the logical row depends on is complete, the storage latency later; a store at once |
| TaskRows.RankDecodeStarts | tools/generate_trace/mooncake_dag_to_traffic_v15.py:748-757 | Every row of a rank of a logical Decode input Read starts exactly the storage latency after the largest phase its dependencies transitively wait for |
| TaskRows.OutputStarts | tools/generate_trace/mooncake_dag_to_traffic_v15.py:1180-1302 | In every legal execution of a finished expanded output all rows of all ranks of a logical transfer start so, and what later tasks wait for in its place is complete when its last rank is |
| Expanders.Expander.Alias | tools/generate_trace/mooncake_dag_to_traffic_v15.py:1285-1297 | The alias is a stored task over exactly the phases of the ranks, with exactly their form, and has no rows |
| Expanders.Expander.CompileNetwork | tools/generate_trace/mooncake_dag_to_traffic_v15.py:1218-1297 | Prepared gate, ranks and alias together: exactly these tasks and the ranks' traffic are added; refused only for a stage that is no transfer, a gate that cannot be prepared, or a rank that is not acceptable |
| Expanders.Expander.CompileSingle | tools/generate_trace/mooncake_dag_to_traffic_v15.py:1266-1284 | A task without ranks becomes one row, exactly when that row is acceptable |
| Expanders.Expander.Compile | tools/generate_trace/mooncake_dag_to_traffic_v15.py:1180-1302 | One logical task: increasing IDs, earlier aliases only, valid members, exactly the payload of its members, an alias for all ranks, and no alias ever reassigned; exactly these expanded tasks and this traffic are added; refused only for one of these reasons, or since its rows are |
| Expanders.Expander.Run | tools/generate_trace/mooncake_dag_to_traffic_v15.py:1368-1388 | The whole logical input: in the final output every row has its dependencies resolved to aliases, its ranks converted with their bytes, and its alias stored over exactly their phases; exactly the ranks and aliases of the input are in the DAG, and exactly the ranks' traffic was written in order; on refusal the row at some position is malformed, unlinked or rejected in the state the rows before it left |
| Tops.MergeTop | tools/generate_trace/mooncake_dag_to_traffic_v15.py:717-719 | The largest phase of a merge and its lag come from the largest phases merged |
| Tops.KeptTop | tools/generate_trace/mooncake_dag_to_traffic_v15.py:759-768 | Pruning never drops the largest phase or its lag |
| EagerMaxPhase.StoredIsEager | tools/generate_trace/mooncake_dag_to_traffic_v15.py:758-773 | Every form a run keeps is exactly the step-by-step compaction of the forms it was made of |
| EagerMaxPhase.StoredSelectsTheSame | tools/generate_trace/mooncake_dag_to_traffic_v15.py:758-827 | The compacted forms of a run select the same phase, delay and floor, and the same frontier, as the forms that would have carried everything |
| EagerMaxPhase.EagerSelectsTheSame | tools/generate_trace/mooncake_dag_to_traffic_v15.py:758-827 | Over any DAG of local folds and merges, compacting at every step selects the same phase, delay and floor as selecting last |
| Guarantees.ConsumedNeverGrows | tools/generate_trace/mooncake_dag_to_traffic_v15.py:494-498 | Once a stored form was consumed, no phase in it and no ancestor ever again gains a member, parent, delay or floor |
| Guarantees.AliasIsLatestRank | tools/generate_trace/mooncake_dag_to_traffic_v15.py:1285-1297 | In every legal execution of the finished output the stored form of a logical network task has the value of the last of its ranks, as the whole run left it |
| Guarantees.RunConserves | tools/generate_trace/mooncake_dag_to_traffic_v15.py:1197-1212 | In the finished output the rows of a logical network task's ranks carry its bytes: at least bytes/d, less than bytes/d plus the row count, exactly the bytes for d = 1 |
| Conservation.OutputConserves | tools/generate_trace/mooncake_dag_to_traffic_v15.py:1045-1078 | A whole run writes the traffic of its input rows and not one row more: all rows of the output together total at least bytes/d, less than bytes/d plus the row count, and exactly the bytes of all input rows for d = 1 |
| Conservation.ExpandedConserves | tools/generate_trace/mooncake_dag_to_traffic_v15.py:1180-1302 | The same of a logical run: exactly the ranks and aliases of its input are in the DAG, no alias has a row, and all rows together carry all the logical bytes |
| PrefillStarts.PrefillRowExactWhen | tools/generate_trace/mooncake_dag_to_traffic_v15.py:456-462 | A Prefill row of the finished output starts at its weighted gate in every legal execution if and only if every undominated lag in the gate of its task is its delay beyond its own time |
| PrefillStarts.AllComplete | tools/generate_trace/mooncake_dag_to_traffic_v15.py:456-462 | Otherwise, too, it starts exactly its delay after all predecessor phases are complete |
| PrefillStarts.LaterPhase | tools/generate_trace/mooncake_dag_to_traffic_v15.py:456-462 | A Prefill row waits for the largest phase of each dependency, and its own phase comes later |
| PrefillStarts.LagIsIgnored | tools/generate_trace/mooncake_dag_to_traffic_v15.py:456-462 | In any finished output of a certain four-task input the last Prefill row does not start at its weighted gate in some legal execution |
| PrefillStarts.CompileLagInput | tools/generate_trace/mooncake_dag_to_traffic_v15.py:1368-1397 | That input compiles under every timing policy and grouping, and its last row is not exact |
| Guarantees.RowsWithinTask | tools/generate_trace/mooncake_dag_to_traffic_v15.py:1079 | A task is complete only when the phase of each of its rows is |
| Guarantees.DependenciesFirst | tools/generate_trace/mooncake_dag_to_traffic_v15.py:702-719 | Under every rule that waits for all predecessors a row starts only after every row of every dependency has ended, across folded local work |
| Guarantees.TopIsLargest | tools/generate_trace/mooncake_dag_to_traffic_v15.py:706-711 | The phase that thinned rows wait for is the largest one of all rows they transitively depend on |
| Guarantees.FrontierIsLargest | tools/generate_trace/mooncake_dag_to_traffic_v15.py:732-738 | In every legal execution a Decode input Read starts exactly its latency after that phase, hence never after all predecessors; a max-phase row not before it |
| Guarantees.BeginWaits | tools/generate_trace/mooncake_dag_to_traffic_v15.py:704-719 | A batch begin is not complete before the largest phase of each dependency with its lag and its own duration, and never later than with all of them |
| Guarantees.CompactWaits | tools/generate_trace/mooncake_dag_to_traffic_v15.py:758-773 | An eagerly compacted task keeps its release, its duration and its largest phase, and is never complete later than with all dependencies |
| Guarantees.OutputRuns | tools/generate_trace/mooncake_dag_to_traffic_v15.py:1013-1064 | Every accepted output has an execution for any network times, in which every phase completes and every record, form and row promise holds |
| Guarantees.AcceptedRowsAreExact | tools/generate_trace/mooncake_dag_to_traffic_v15.py:847-855 | Under the error policy an accepted legacy row starts exactly at its weighted DAG gate, in every execution |
| ToeAudit.Pairs | tools/check_toe_reconfiguration.py:18-19 | The leaf pairs in use, each once |
| ToeAudit.SubsetCounts | tools/check_toe_reconfiguration.py:90-91 | A sub-multiset of circuits has no more circuits on any leaf pair |
| ToeAudit.SharedWithinReusable | tools/check_toe_reconfiguration.py:90-92 | No circuit set with the target counts shares more circuits with the current ones than the per-pair minima allow |
| ToeAudit.SameCircuitsSamePorts | tools/check_toe_reconfiguration.py:84-85 | Equal circuit multisets use equal port multisets |
| ToeAudit.PortsReused | tools/check_toe_reconfiguration.py:80-85 | An accepted plan uses exactly the ports that were in use before |
| ToeAudit.AcceptedIsSound | tools/check_toe_reconfiguration.py:80-101 | An accepted plan keeps every port constraint and rewires no more than the target counts force |
| ToeAudit.PlanOkExactly | tools/check_toe_reconfiguration.py:77-92 | From valid circuits a plan is accepted exactly when it splits them, swaps as many circuits as the solver said over the released ports, leads to valid circuits with the target counts, and no circuit set with these counts could keep more of them |
| ToeAudit.EveryPairCovered | tools/check_toe_reconfiguration.py:22-30 | Validated circuits connect every two leaves of different groups |
| ToeAudit.AuditEpoch | tools/check_toe_reconfiguration.py:68-112 | One epoch: accepted exactly when the logs meet every condition; an applied plan is then sound, optimal and recorded as audited; without one nothing contradicts the circuits in use |
| ToeAudit.RunExtends | tools/check_toe_reconfiguration.py:112 | One more applied plan keeps the run invariant |
| ToeAudit.Check | tools/check_toe_reconfiguration.py:64-118 | Accepted exactly when the initial circuits are valid and every summarised epoch, in order, is acceptable from the circuits that the applied plans before it left; a refusal names the first epoch that is not. An accepted log applies exactly the rewired epochs, each optimal, with the initial ports in use throughout |
| ToeAudit.PortsUsedOnce | tools/check_toe_reconfiguration.py:22-30 | In validated circuits no physical port is used twice |
| Ordering.SortByOrdered | tools/analyze_toe_v3.py:2415 | The stable sort used throughout orders its input |
| Ordering.SortByStable | tools/analyze_toe_v3.py:2081-2082 | The sort keeps the order of elements that it need not reorder |
| Ordering.BisectRight | tools/analyze_toe_v3.py:2429 | The first position whose element exceeds the key |
| Intervals.AbsorbCovers | tools/analyze_toe_v3.py:2418-2421 | Absorbing the next interval keeps the list separated and adds exactly its instants |
| Intervals.MergedIntervals | tools/analyze_toe_v3.py:2413-2422 | Separated intervals with exactly the instants of the raw ones, for any input |
| Intervals.CoveredNext | tools/analyze_toe_v3.py:2430-2433 | One clipped interval adds exactly the instants it covers |
| Intervals.Overlap | tools/analyze_toe_v3.py:2425-2434 | The number of covered instants of the window; absent exactly for an open or reversed window |
| Intervals.CoveredTime | tools/analyze_toe_v3.py:2413-2434 | Merging and bisecting counts exactly the instants that some raw interval covers |
| Zones.OnePhasePerEvent | tools/analyze_toe_v3.py:1615-1625 | An instant lies in at most one phase of an event, and never in its aftermath once the next pause began |
| Zones.ScanMembers | tools/analyze_toe_v3.py:2105-2107 | The reference scan yields exactly the windows that hold the instant and the whole bin |
| Zones.OutsideNeverMatches | tools/analyze_toe_v3.py:2104-2106 | Before the first bisection point everything has ended, behind the second nothing has begun |
| Zones.SliceLosesNothing | tools/analyze_toe_v3.py:2104-2107 | The bisected slice yields exactly what a linear scan yields |
| Zones.Index | tools/analyze_toe_v3.py:2093-2098 | Start points and running maxima of the ends, both rising |
| Zones.Intervals | tools/analyze_toe_v3.py:2079-2092 | The sorted windows of the case hold an instant (and a bin) exactly as its events say: before the pause, in it, while recovering, and after that until the next pause, within the run |
| Zones.CaseObserves | tools/analyze_toe_v3.py:1615-1625 | The computed windows of a case hold an instant in a phase of an epoch exactly if some dated event of that epoch has it before its pause (from the window before it, not before 0), in the pause, in the recovery time after it, or in the window after that and before the next dated pause; always before the end of the run |
| Zones.ZoneIndex.constructor | tools/analyze_toe_v3.py:2071-2098 | Every compared case, and no other, is indexed with exactly the windows around its events |
| Zones.ZoneIndex.FindMatches | tools/analyze_toe_v3.py:2100-2107 | For one case or, for the baseline, all targets: exactly the linear scan |
| Zones.HitsObserved | tools/analyze_toe_v3.py:2079-2107 | Over the whole index, pointwise: a hit occurs for a target exactly if the events of that case have the instant and the bin in that phase |
| Capacity.ConstantTime | tools/analyze_toe_v3.py:2878-2884 | Between neighbouring snapshots the capacity is constant |
| Capacity.LastSnapshot | tools/analyze_toe_v3.py:1657-1659 | The epoch in force is that of the last snapshot not after the instant, and epoch 0 before the first |
| Capacity.EitherDirection | tools/analyze_toe_v3.py:2884 | A pair has the same circuits in both directions |
| Capacity.BoundsCut | tools/analyze_toe_v3.py:2878 | The boundaries run from start to end with no snapshot strictly between neighbours |
| Capacity.CapacityIntegral | tools/analyze_toe_v3.py:2874-2885 | The sum over all instants of the capacity in force; absent exactly when some instant has no snapshot |
| Routing.ReadTopology | tools/generate_routing_table.py:30-50 | The dictionaries hold exactly the links, attachments, leaf ports and leaves of the cables |
| Routing.Nearest | tools/generate_routing_table.py:109 | The smallest distance from the attached leaves |
| Routing.PortsAt | tools/generate_routing_table.py:110-114 | Exactly the ports to leaves at that distance |
| Routing.LeafRows | tools/generate_routing_table.py:72-102 | One row per leaf, refused exactly when some leaf has no next hop |
| Routing.HostRows | tools/generate_routing_table.py:106-123 | Every host other than the destination has exactly one entry, and there is no other |
| Routing.DestinationsAttached | tools/generate_routing_table.py:67-68 | The destinations are exactly the attached host ports |
| Routing.GenerateRoutingTable | tools/generate_routing_table.py:25-123 | The whole table; refused exactly when hosts or leaves are missing or some leaf has no route |
| ShortestRoutes.RoutedMeansNear | tools/generate_routing_table.py:57-60 | Generation is refused exactly when some leaf is more than two links from a host-attached leaf |
| ShortestRoutes.DistanceIsShortest | tools/generate_routing_table.py:57-60 | In an accepted table the assumed distance is the true shortest distance |
| ShortestRoutes.AllShortestNextHops | tools/generate_routing_table.py:77-88 | A leaf lists exactly its ports to the neighbours one link nearer |
| ShortestRoutes.LeafDelivers | tools/generate_routing_table.py:72-102 | Whatever listed port is taken at every hop, a packet reaches the destination port after exactly metric hops |
| ShortestRoutes.HostDelivers | tools/generate_routing_table.py:106-123 | The same from every host, which sends to its nearest leaves only |
| Delivery.EveryEntryIsShortest | tools/generate_routing_table.py:72-123 | Every entry of an accepted table lists exactly the shortest next hops, at least one, with their true numbers of hops |
| Delivery.LastPortWire | tools/generate_routing_table.py:45-49 | With one cable per port, the leaf port recorded for a host port is the one its cable ends at |
| Delivery.DeliversExactlyWhen | tools/generate_routing_table.py:72-123 | Every listed port of every entry of an accepted table delivers as announced if and only if no node is both a host and a leaf, or that node is the only host |
| Delivery.EveryEntryDelivers | tools/generate_routing_table.py:72-123 | Following the accepted table's own entries, every listed port delivers to the destination port in exactly as many hops as its metric says |
| Playback.Import | tools/replay_dashboard/task_store.py:69-165 | Accepted exactly when all times are nonnegative, ends follow starts, each row is about a different task of the workload, and some task is complete; every stored task has the start and the end of its row; counts the completed tasks and those of the workload that never started |
| Playback.CeilKeepsSide | tools/replay_dashboard/task_store.py:169-173 | Rounding a time up to a step never moves it across a step boundary |
| Playback.StartedMinusEnded | tools/replay_dashboard/task_store.py:190 | Started minus ended tasks are the running ones, hence never negative |
| Playback.CountsGrow | tools/replay_dashboard/task_store.py:182-190 | Counts never fall from one boundary to the next and never exceed the tasks |
| Playback.CountInIsCountBy | tools/replay_dashboard/task_store.py:183-185 | The bins up to a boundary hold exactly the tasks that count by then |
| Playback.FillBins | tools/replay_dashboard/task_store.py:171-177 | Each bin counts exactly the starts and completions rounded to it |
| Playback.Show | tools/replay_dashboard/task_store.py:186-190 | The totals, counted anew when the last boundary cuts its bin, are the direct counts |
| Playback.CompletionBuckets | tools/replay_dashboard/task_store.py:168-198 | At every emitted boundary, the partial last one included, exactly the direct counts of started, completed and running tasks |
| Recording.GroupByFlow | tools/replay_dashboard/recording.py:10-14 | Every record in its flow, flows in order of first appearance |
| Recording.UseOf | tools/replay_dashboard/recording.py:18-24 | The interval holds exactly the instants at which the record is the flow's latest, has not ended, and no rewiring came after it |
| Recording.InUseWhen | tools/replay_dashboard/recording.py:18-24 | The same of the computed bounds: own end, next record and bisected reset |
| Recording.AddFlow | tools/replay_dashboard/recording.py:15-27 | Adds exactly the non-empty intervals of one flow to their routes |
| Recording.RawIsUsed | tools/replay_dashboard/recording.py:10-27 | The collected intervals hold exactly the instants at which some flow uses the route |
| Recording.AddRoute | tools/replay_dashboard/recording.py:28-36 | Adding the merged intervals of a route keeps all listed intervals apart |
| Recording.UsedMeans | tools/replay_dashboard/recording.py:10-27 | A flow uses a route at an instant exactly if its last record not after the instant, the later one in the input of equal times, names the route, has not ended, and was not followed by a rewiring |
| Recording.RouteIntervals | tools/replay_dashboard/recording.py:7-37 | Per route, sorted separated intervals with exactly the instants at which the record that some flow then goes by directs it over that route |
| Highlights.Windows | tools/replay_dashboard/recording.py:117-121 | Separated windows with exactly the instants around the anchors, within the recording |
| Highlights.MidpointDecides | tools/replay_dashboard/recording.py:123 | A stretch without window edges inside is classified rightly by its midpoint |
| Highlights.SegmentsAreFaithful | tools/replay_dashboard/recording.py:122-123 | The segments tile the recording; slow ones lie inside a window, others meet none except at their ends |
| Highlights.ExactDuration | tools/replay_dashboard/recording.py:124-125 | The speeds play the segments in exactly the requested time |
| Highlights.BuildSchedule | tools/replay_dashboard/recording.py:74-127 | Accepted exactly for a positive interval inside the logs; windows, segments and speeds as above, speeds in inverse proportion to weights |
| WorkerPool.StepKeeps | ns-3-ub/test.py:1086-1170 | Every step of the main thread, of a worker, or of an interrupt keeps the accounting |
| WorkerPool.WorkerMoves | ns-3-ub/test.py:1086-1170 | A worker only moves a job from one place to the next |
| WorkerPool.StepDescends | ns-3-ub/test.py:1086-1170 | Every step strictly reduces what is left to do |
| WorkerPool.NeverStuck | ns-3-ub/test.py:1959-1960 | Unless finished, the main thread or some worker can act: the collector never starves and no join waits forever |
| WorkerPool.NoNewWork | ns-3-ub/test.py:1094-1103 | After an interrupt no worker takes up real work |
| WorkerPool.InterruptDecides | ns-3-ub/test.py:1094-1115 | In a finished run that was interrupted, every job that was not being run, reported or collected at the interrupt is reported broken, any other one as its skip flag asks |
| WorkerPool.AllAsAsked | ns-3-ub/test.py:1109-1115 | In a finished run without an interrupt every job is reported as its skip flag asks |
| WorkerPool.OneStopEach | ns-3-ub/test.py:1936-1939 | A worker is gone exactly after taking one request to stop |
| WorkerPool.FinishedMeansDone | ns-3-ub/test.py:2118-2119 | After the joins each job was reported exactly once, truthfully, and the queues are empty |
| WorkerPool.EveryRunCompletes | ns-3-ub/test.py:1622-2119 | For every interleaving and an interrupt at any moment: the run is bounded and ends finished exactly if there were workers for the jobs; then each job was reported once and each worker took one request to stop |

## Left out

- CSV, JSON, SQLite and gzip handling, argument parsing, progress bars, plots, HTML and dashboards: rows are parsed and typed; tables are maps and files are sequences.
- Validation of single fields (endpoints, priorities, node numbers, ports, dependency modes) and the READ endpoint swap: they only add rejections or copy columns. Ordering, sealing, wave, payload and parent-before-phase rejections are modelled.
- Statistics, examples, mapping and debug output of the compiler, and the `approximate`, `delays` and `types` fields of a group, which feed only statistics.
- The `phases` table and `phase_cache` fallback of `phase()` (`mooncake_dag_to_traffic_v15.py:563-580`): every registered phase has its columns, so the fallback is never reached.
- `prefill_ready_cache`, `known_requests` and the expander's alias cache are a plain map, a set and a map.
- Group records are values written back through the table, not shared mutable objects; `GroupTables.GroupTable.Mutate` stands for the update of the cached object.
- The one-dependency shortcut of `incoming` is the general merge over one dependency, with the same result and the same flag.
- Stages the compiler does not distinguish are one stage; their names, and the check that some of them carry a batch type, are not modelled.
- Guarantees.ConsumedNeverGrows: holds for the default request-wave grouping with streamed rows; per-rank grouping does not seal Decode consumers.
- Admission.RowRefused: says nothing of wave groups local to one request, in the schema that groups per request; when they take a row says Compilers.Compiler.JoinLocal.
- The floating-point capacity check and message texts of the auditor; summary counts other than the applied plans.
- The zone lookup table and `Top` of the analyzer: plain dictionary and heap bookkeeping.
- ShortestRoutes.LeafDelivers: assumes that a physical port has one cable; the generator does not check this.
- ShortestRoutes.HostDelivers: assumes the same, and so do Delivery.EveryEntryDelivers and Delivery.DeliversExactlyWhen: what a packet meets behind a port with two cables is not defined.
- Chapters, focus selection and change groups of the recording, and pre-sampled route intervals, which are only sorted.
- Recording times are ticks of a grid fine enough for every time in the logs, so sums and midpoints are exact; rounding of floating-point seconds is not modelled. Speeds are reals.
- Time stamps in the playback database are whole picoseconds; decimal parsing of microseconds is not modelled.
- The outcome formatting, XML output and per-status counters of the test runner; that a job run returns is assumed.
- The ns-3 C++ stack, the linear-programming solver, pandas tools and the topology generator.
