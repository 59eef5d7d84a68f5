# A verified model of pg_what_is_happening

`pg_what_is_happening` is a PostgreSQL extension that shows what running queries are doing. Each tracked backend
owns a slot in one shared array. When a query starts, the backend walks the plan tree in preorder and records its
topology in the slot. While the query runs, a poller sends SIGUSR2 and the signal handler copies the executor's
counters into the same records. A metrics endpoint and a SQL view read the slots, and a reaper frees those of dead
processes. This project models that in Dafny 4.11 and proves what it is for: that record j always describes plan
node j, that slots are owned, freed and counted consistently whatever the order of events, and that readers get
exactly what the slots hold. `dafny verify dfyconfig.toml` checks all of it.

## How the model is built

| file | what it holds |
|---|---|
| `Plans`, `Rebuild` | plan graphs, possibly shared or cyclic; preorder numbering, truncation, and the inverse reader |
| `NodeWrites`, `PlanWalker`, `TwoPass` | node records, single-field stores, the recursive walk over an array and a counter, its two entry points |
| `PlanLinks` | which pointers of a plan state become its children in the recorded list, and which plan states are recorded |
| `Slots`, `Lifecycle`, `Ownership` | slot records, the hooks as whole operations, histories of events and what they imply |
| `SharedMemory`, `Tracker` | classes: the shared table and one backend process, proved against `Lifecycle` |
| `Interleaving`, `ClaimSafety` | one access to shared memory per step, any number of processes, interrupting handlers and a reaper, nothing serialised |
| `SignalMachine`, `SignalSafety`, `Subtransactions` | the hooks and the handler statement by statement, and what subtransaction aborts do to them |
| `AccessRefinement` | the agreement of the single accesses, uninterrupted, with the hooks of `Lifecycle` |
| `HookRefinement` | the agreement of those statements with `Lifecycle`, with and without errors |
| `Publication`, `LostQuery` | the current query in the machine of single accesses: when it dangles, and a run in which it does |
| `TextFormat`, `Exporter`, `Families` | the exposition of a table, its parser, and the rules of OpenMetrics that it may break |
| `Reads`, `MovingExposition`, `FormatterBuffer`, `MetricsPrinter`, `Scrape` | the exposition read by read, the growable buffer, the printer, one request |
| `StatusScan`, `Readers` | the resumable iterator behind the SQL view, read by read; what both interfaces show of tables in motion |
| `Examples` | concrete lines of the exposition |
| `Layout` | the flat memory region and its address arithmetic |

Decisions that the theorems rest on:

- **Claims and the reaper.** Scan and claim run under a shared lock (src/shared_memory.c:127), as does the reaper
  (src/bg_worker.c:118-120), so neither serialises anything. `Interleaving` has one read or write per step and assumes
  nothing about them. `SignalMachine` and `Lifecycle` assume that a claim is atomic and that the reaper looks at a slot,
  tests its process and frees the slot in one step. `ClaimSafety` shows exactly which steps take a slot away from its
  user without these assumptions, and that exclusive sections, with no reuse of a pid that still labels a slot, exclude
  them.
- **Nesting.** `Lifecycle` allows any nesting of tracked and untracked queries. In `Interleaving` a handler may
  interrupt its own backend's hook at every statement, so also a nested start that is rewriting the topology
  (src/pg_what_is_happening.c:261-291). `SignalMachine` has one query in flight per backend.
- **Errors.** The guarded part of a hook may raise an error before it has a slot, at the entry of any recursive call of
  its walk (src/plan_tree_walker.c:55), between and behind the stores of the header. The handler raises none.
- **Subtransaction aborts** tear a query down without a callback of the extension. `SignalMachine` has them, and marks
  the published query as gone; a handler that then looks at it follows a dangling pointer and the model goes no further.
- **Settings.** The extension is enabled, and the sizes do not change during a run.
- **The executor.** Plan topology is fixed after ExecutorStart (src/signal_handler.c:62-64). Which errors the server
  raises, which processes exist and how the executor's counters grow are parameters. Each backend's plan is its private
  memory. An aborted query's descriptor and plan states live until the abort callback has cleared the pointer
  (src/pg_what_is_happening.c:142): the machines assume that the server calls the callbacks before it frees that memory.
- **Numbers.** Times and counts kept as doubles are reals. `u32` and `i32` fields wrap explicitly; so does the printed
  conversion of `u64` counters. A rendered numeral is any text without a newline and is cut to 255 characters,
  a node tag any text of at most 64 characters that needs no escaping, a help text any line of at most 128.
- **Strings** stand for the characters in front of the terminating NUL.

Where the code and its documentation differ, the model follows the code:

- A query's text keeps one byte less than the configured length (src/pg_what_is_happening.c:275-276).
- Samples carry a `parent_node_id` label that the repository's README.md:72-74 does not list.
- OpenMetrics 1.0 asks that the samples of a metric family come together and that the text ends with `# EOF`. The first
  holds exactly if at most one counted record is printed and no active slot follows it (`FamiliesContiguousIff`,
  `TornTable`), the second never (`NeverEof`).
- The comment at src/shared_memory.c:110-111 says that `poll_generation` survives the zeroing of a slot; the zeroing
  clears it. It is never reset afterwards.
- Ending an inner query, tracked or not, untracks the outer one (`InnerEndUntracksOuter`, `NestedHistory`).
- A query torn down by a subtransaction abort stays published, and the handler then follows a pointer to a query that
  is gone (`SubAbortLeadsAstray`). Where claims are atomic it does so only then (`AstrayIffSubAborted`). As the code
  takes the lock, a query may also go unnoticed because its backend was robbed of its slot: the end hook then finds none
  and leaves the pointer set (`EndHookIff`, `LostSlotDangles`). `DanglesIff` is the exact condition.
- The percentages of a row or of the endpoint may exceed 100, because the total and the node's time are read at
  different moments (`RowOverHundred`); `RowWithinHundredIff` and `SampleWithinHundredIff` say exactly when not.
- An error in the final refresh leaves a slot without a current query (`LeakIff`) until the next tracked start, end,
  abort or exit (`LeakEndsIff`).
- Under the shared lock a backend can lose the slot it works in: to a second claimer (`SharedLockLosesClaim`) or to the
  reaper when a pid is reused (`ReaperTakesReusedPid`). It happens exactly when a claim's or the reaper's store hits a
  slot in which another live process is at work (`OwnershipIff`).
- Node records are aligned for their doubles if and only if the text length is a multiple of 8 (`NodesAlignedIff`).
- The handler's test for unattached shared memory never succeeds (`HandlerCallsAccounted`).

## Model

| member | source | states |
|---|---|---|
| PlanWalker.Walker.Walk | src/plan_tree_walker.c:51-159 | on any graph, even cyclic, the stores made are those of the preorder list cut at the visitor's limit or at the visit before which a recursive call raises an error; the result tells whether the whole list fitted, the visitor stopped it or the error was raised; the recursion is at most one deeper than the budget left |
| PlanWalker.Walker.WalkNode | src/plan_tree_walker.c:60-64 | visiting a node and walking its children is the walk over that node, and a refused visit stops it |
| PlanWalker.Walker.WalkChildren | src/plan_tree_walker.c:66-158 | standard children, then the node kind's own (`RecordedChildren` says which pointers those are), numbered on from one another, unless the first part was stopped |
| PlanWalker.Walker.WalkStandard | src/plan_tree_walker.c:66-95 | left child, right child, then the subplans, in that order |
| PlanWalker.Walker.WalkList | src/plan_tree_walker.c:100-143 | a child array is walked left to right and left at once when a walk is stopped |
| PlanWalker.Walker.Visit | src/plan_tree_walker.c:185-292 | a visit is granted iff the counter is below the budget and, in a refresh, below the first record without magic; it numbers the node with the counter and makes exactly that visitor's stores |
| PlanWalker.Walker.PutTopology | src/plan_tree_walker.c:195-212 | the sixteen stores of the topology visitor, in program order, the magic number last |
| PlanWalker.Walker.PutInstrumentation | src/plan_tree_walker.c:265-282 | the twelve stores of a refresh, in program order |
| NodeWrites.TopologyOpsEffect | src/plan_tree_walker.c:195-212 | those sixteen stores leave nothing of the record's old contents |
| NodeWrites.RefreshOpsEffect | src/plan_tree_walker.c:265-282 | those twelve stores replace all counters and keep tag, ids and magic; each counter is the instrumentation's own, times in microseconds, and of loops one more than are finished while one is running |
| NodeWrites.PassEffect | src/plan_tree_walker.c:185-292 | a pass over a list changes exactly the records it numbers, record j by node j alone |
| TwoPass.Remember | src/plan_tree_walker.c:164-183 | returns min(size, max_nodes); memory is the old one after the stores of the numbered plan, or of its first k nodes if the call after k visits raises an error; recursion at most max_nodes + 1 deep, on shared and cyclic graphs too |
| TwoPass.Collect | src/plan_tree_walker.c:221-237 | the stores of a refresh up to the first record without magic, or up to the error, whatever the records hold; same depth bound |
| TwoPass.StoresPrefix | src/plan_tree_walker.c:55 | what an error inside the walk leaves behind is a prefix of the whole pass, store by store |
| TwoPass.TopologyPass | src/plan_tree_walker.c:164-215 | the first min(size, max_nodes) records become the preorder list of (id, parent, tag) with zero counters, the others are untouched |
| TwoPass.PreorderIsTree | src/plan_tree_walker.c:51-215 | the recorded list reads back as the plan cut at max_nodes however deep the graph is unfolded; parents are smaller than their children and -1 only at node 0 |
| TwoPass.SameShapePreorder | src/signal_handler.c:62-64 | if only counters change, the numbering does not |
| TwoPass.RefreshNeverStops | src/plan_tree_walker.c:251-253 | on records that show the plan's topology the magic test never ends a refresh early |
| TwoPass.TwoPassAgreement | src/plan_tree_walker.c:217-292 | a later refresh pairs each index with the plan node of the first pass: record j shows node j's counters, counter by counter, nodes without instrumentation and records behind the plan keep theirs, no topology field or magic changes |
| TwoPass.StoredReadsBack | src/plan_tree_walker.c:193-197 | a poller can rebuild the tagged plan tree, cut at max_nodes, from parent ids and tags alone |
| PlanLinks.RecordedChildren | src/plan_tree_walker.c:60-158 | the nodes recorded with parent j are, in the order of their numbers, those with a plan behind node j's left child, right child, subplans and then its append plans, CTE plan state, merge plans, AND plans, OR plans or subquery plan, whichever pointers its kind has: all of them if the plan fitted, else the first ones |
| PlanLinks.RecordedRoot | src/plan_tree_walker.c:51-64 | node 0 is the root and has parent -1; nothing is recorded iff there is no root with a plan |
| PlanLinks.RecordedHasPath | src/plan_tree_walker.c:51-159 | even of a truncated plan each recorded node ends a path of such pointers from the root |
| PlanLinks.RecordedIffReached | src/plan_tree_walker.c:51-159 | of a plan that fitted a plan state is recorded iff a path of such pointers through plan states that have a plan leads to it from the root |
| Plans.CutStable | src/plan_tree_walker.c:190-193 | the first n preorder nodes of a graph do not depend on how deep beyond n it is unfolded |
| Plans.FlattenCut | src/plan_tree_walker.c:190-193 | stopping the numbering after n nodes is numbering the plan cut to n nodes |
| Rebuild.ParseAfterFlatten | src/plan_tree_walker.c:60-155 | reading a numbered plan gives the plan back |
| Rebuild.NestedIsNumbering | src/plan_tree_walker.c:60-155 | numbering what was read from a nested array gives the array back |
| Rebuild.NumberingIffNested | src/plan_tree_walker.c:193-197 | an array of (parent, item) is the numbering of some plan iff each node hangs below its predecessor or an ancestor of it |
| Rebuild.NumberingInjective | src/plan_tree_walker.c:193-197 | different plans never share an array |
| Rebuild.SubtreeContiguous | src/plan_tree_walker.c:193-197 | the nodes below a node occupy a contiguous range of ids |
| Rebuild.TruncatedReadsBack | src/plan_tree_walker.c:190-197 | a truncated array is closed under parents, keeps the ancestors of every node it keeps, and reads back as the truncated plan |
| SharedMemory.BackendEntry.constructor | src/shared_memory.c:104-116 | a slot starts with all fields and records zero |
| SharedMemory.Memory.constructor | src/shared_memory.c:79-100 | attaches to memory with any contents, which become the table, with an empty history |
| SharedMemory.Memory.Startup | src/shared_memory.c:79-122 | a region that was not found is zeroed slot by slot, every field of every slot and record, one that was found is taken as it is |
| SharedMemory.Memory.GetOrCreateEntry | src/shared_memory.c:124-171 | the scan and claim loop is the claim of the specification, table and result |
| SharedMemory.Memory.ReleaseEntry | src/shared_memory.h:100-107 | frees the slot, counts one generation modulo 2^32, keeps all else |
| SharedMemory.Memory.ReleaseMyEntry | src/shared_memory.c:191-209 | frees the first slot of the caller, or nothing |
| SharedMemory.Memory.FindEntry | src/signal_handler.c:93-103 | finds the first slot with the caller's pid, or none |
| SharedMemory.Memory.CleanupOrphans | src/shared_memory.c:266-293 | is the reaping of the specification and returns the number of slots freed |
| SharedMemory.Memory.RequestMetrics | src/shared_memory.c:235-252 | signals one pid per active slot, in slot order: a pid is signalled iff it is not 0 and labels a slot, none twice where no two slots carry the same; the result is the number of active slots whose process is alive |
| SharedMemory.SentPids | src/shared_memory.c:235-252 | from the slots signalled: which pids these are, and that none comes twice |
| SharedMemory.Memory.RememberPlan | src/pg_what_is_happening.c:257-262 | the topology pass on one slot's records, or the part of it before an error, leaves every other slot as it was |
| SharedMemory.Memory.CollectPlan | src/pg_what_is_happening.c:342-346 | the final refresh of one slot's records, or the part of it before an error, and no other change |
| SharedMemory.Memory.PublishHeader | src/pg_what_is_happening.c:268-281 | the first k of count, start time, query id and text of one slot, and no other change; the text is the source text or as much of its beginning as fits |
| Slots.StoredTextShows | src/pg_what_is_happening.c:272-281 | the text kept is the beginning of the source text, of one character less than the configured length or the whole text, whichever is shorter, and empty without a source text |
| SharedMemory.Memory.BumpGeneration | src/signal_handler.c:123-125 | the generation of one slot, modulo 2^32, and no other change |
| SharedMemory.Memory.RefreshEntry | src/signal_handler.c:111-125 | the refresh of one slot and its announcement |
| Tracker.Process.QueryStart | src/pg_what_is_happening.c:196-311 | cost filter, one-time initialisation, claim, recording and publication, or the catch block: new table and new process are those of the specification, wherever an error is raised: before the claim, at the entry of any recursive call of the walk, between or behind the four header stores |
| Tracker.Process.TryTrack | src/pg_what_is_happening.c:246-293 | the guarded part with the error it may raise at any of these points |
| Tracker.Process.FillSlot | src/pg_what_is_happening.c:255-292 | topology, header and current query, in this order, as far as the error lets them come |
| Tracker.Process.QueryEnd | src/pg_what_is_happening.c:313-393 | final refresh, release and clearing of the current query, or the catch block, wherever in the refresh an error is raised |
| Tracker.Process.EndOwn | src/pg_what_is_happening.c:342-357 | refresh and release of the slot found, or the stores made before the error and no release |
| Tracker.Process.XactCallback | src/pg_what_is_happening.c:129-151 | an abort clears the current query and releases the slot; any other event changes nothing |
| Tracker.Process.ExitCallback | src/pg_what_is_happening.c:153-180 | releases the caller's slot and forgets the initialisation |
| Tracker.Process.HandleSignal | src/signal_handler.c:66-143 | counts the call under exactly one outcome and, with a query and a slot, refreshes that slot and nothing else |
| Tracker.Process.RefreshOwn | src/signal_handler.c:93-125 | looks for the caller's slot and refreshes it if there is one |
| Tracker.Process.RefreshCounted | src/signal_handler.c:93-127 | that refresh with the outcome it is counted under |
| Tracker.StartShowsQuery | src/pg_what_is_happening.c:246-291 | after a successful start exactly one slot changed, and it shows pid, query id, node count, the plan in preorder with zero counters, and as its text the beginning of the source text: of one character less than the configured length, or the whole text |
| Lifecycle.HistoryBalanced | src/shared_memory.h:100-107 | after any history, with any nesting, crashes and errors: active slots equal claims minus releases, a slot is active iff it was claimed once more than released, its generation is its releases plus its successful refreshes modulo 2^32, no pid names two slots |
| Lifecycle.ApplyOk | src/shared_memory.c:109-113 | every event keeps that balance; no event resets a generation |
| Lifecycle.SignalOutcome | src/signal_handler.c:66-143 | a handler call is counted under exactly one outcome, which the current query, the attached memory and the slot decide; only a success changes the table, and of it the records and the generation of the caller's first slot |
| Lifecycle.EndFrees | src/pg_what_is_happening.c:327-363 | an end hook makes its final stores in the caller's first slot, frees it, counts its generation and clears the current query; without a slot it changes nothing |
| Lifecycle.AbortFrees | src/pg_what_is_happening.c:129-151 | an abort frees the caller's first slot with its records kept, and clears the current query |
| Ownership.ClaimChoice | src/shared_memory.c:124-171 | a claim returns the caller's own slot, else the lowest free one, fails iff there is neither, and changes only the pid of a free slot |
| Ownership.ReapExact | src/shared_memory.c:266-293 | reaping frees exactly the slots of dead processes and keeps every other slot |
| Ownership.ReapTwice | src/shared_memory.c:266-293 | reaping logs one release per orphan, leaves none, and is idempotent |
| Ownership.ViewStep | src/pg_what_is_happening.c:125-393 | the whole system refines, for each single pid, a machine of five bits |
| Ownership.OwnershipByHistory | src/pg_what_is_happening.c:125-393 | a backend that does not crash and whose final refreshes raise no error holds a slot iff its current query is set iff a tracked start succeeded since its last end, abort, exit or failed start |
| Ownership.QueryImpliesSlot | src/pg_what_is_happening.c:125-393 | in all histories a current query is set only while the slot is held |
| Ownership.QueryByHistory | src/pg_what_is_happening.c:125-393 | in all histories, crashes and errors included, the current query is set iff a tracked start succeeded since the last end, abort, exit, crash or failed start |
| Ownership.LeakIff | src/pg_what_is_happening.c:364-382 | from agreement of slot and query, an event leaves a slot without a query iff the slot is held and the event is a crash or an end hook that raises an error |
| Ownership.LeakEndsIff | src/pg_what_is_happening.c:125-393 | such a slot is freed or used again iff its live process starts a tracked query, ends one without an error, aborts or exits, or its dead process is reaped |
| Ownership.LeakHappens | src/pg_what_is_happening.c:364-382 | in a table of any size and with any recorded plan, a history that leaves a slot without a query |
| Ownership.InnerEndUntracksOuter | src/pg_what_is_happening.c:334-361 | the end of any query untracks the backend, also when another query is the published one |
| Ownership.NestedHistory | src/pg_what_is_happening.c:334-361 | in a table of any size, a history in which a tracked query calls an untracked one, whose end leaves the outer query unpublished and without its slot |
| Interleaving.NoPidTwice | src/shared_memory.c:127-157 | at no point of any interleaving do two slots carry one pid, so first-match searches find the only match |
| Interleaving.TopologyAlwaysWellFormed | src/plan_tree_walker.c:190-212 | after every single store of any run, even with two backends in one slot, with handlers that interrupt their own backend's hooks and a reaper that frees slots meanwhile: marked records have their own number and an earlier parent, -1 exactly at 0; all records below the count are marked; the count is at most max_nodes |
| Interleaving.ReaderNeverSkips | src/metrics.c:302-306 | a node once seen below the count never fails the exporter's magic test later |
| Interleaving.PidsStep | src/shared_memory.c:127-157 | one access of any hook, handler or reaper keeps pids unique |
| Interleaving.TopologyStep | src/plan_tree_walker.c:193-212 | one access of any hook, handler or reaper keeps all slots well formed and never takes a mark away |
| Interleaving.RunGains | src/plan_tree_walker.c:212 | along any run records only gain marks and settled ids |
| Interleaving.NoStepExcluded | src/shared_memory.c:124-171 | in every table a process may die, be interrupted unless its handler runs already, and make its next access; between hooks it may begin any job; the reaper may look at any slot in use |
| AccessRefinement.StartMoves | src/pg_what_is_happening.c:246-293 | the single accesses of a tracked start, from its first look at a slot to its return, leave pid, count, generation and records of every slot as the start hook of the specification does |
| AccessRefinement.EndMoves | src/pg_what_is_happening.c:331-362 | those of an end hook leave the slots exactly as the specified end |
| AccessRefinement.LeaveMoves | src/shared_memory.c:191-209 | those of an abort or an exit leave them as the specified release of the own slot |
| AccessRefinement.RaiseMoves | src/pg_what_is_happening.c:294-309 | after an error at any access those of the catch block release the own slot if the hook was a start, and change nothing if it was an end |
| AccessRefinement.PollMoves | src/signal_handler.c:93-125 | those of a handler, wherever it interrupted its process, leave the slots as the specified refresh does, or as they were if there is no slot |
| AccessRefinement.ReapMoves | src/shared_memory.c:266-293 | turn by turn those of the reaper leave the slots as the specified reaping does |
| AccessRefinement.StartActs | src/pg_what_is_happening.c:239-242 | a tracked start initialises its process as the specification does and leaves the current query alone until its last access |
| AccessRefinement.MoveActs | src/pg_what_is_happening.c:290-362 | of all accesses of a hook only the last of a start sets the current query, to its own, and only the last of an end hook that found a slot clears it |
| AccessRefinement.RaiseActs | src/pg_what_is_happening.c:294-309 | the catch blocks do to the process what the specified ones do |
| AccessRefinement.AbortActs | src/pg_what_is_happening.c:129-151 | so does the abort callback |
| ClaimSafety.SerialOwnership | src/shared_memory.c:127-157 | if the sections that claim and those that reap exclude each other and no new process gets a pid that still labels a slot, whoever stores into, counts, refreshes or frees a slot in any run is the backend that the slot names |
| ClaimSafety.OwnershipStepIff | src/shared_memory.c:147-154 | without any such assumption: a step ends the ownership of all writers iff it is a claim's or the reaper's store into a slot in which another live process is at work |
| ClaimSafety.OwnershipIff | src/shared_memory.c:127-157 | up to any point of any run every writer owns its slot iff no such store has been made |
| ClaimSafety.SharedLockLosesClaim | src/shared_memory.c:127 | in a table of any size, a run in which two backends claim slot 0 and the first goes on storing into a slot that names the second |
| ClaimSafety.ReaperTakesReusedPid | src/shared_memory.c:266-293 | in a table of any size, a run with one claimer at a time in which the reaper frees the slot of a new process that got the pid of a dead one |
| SignalSafety.HandlerRefreshesOwnPlan | src/signal_handler.c:73-125 | whenever in any run, with errors, aborts and subtransaction aborts, a handler refreshes, the slot is its own and only its own, the query is the published one, the slot already holds that plan's topology, and each store still to come carries a counter of plan node j into record j |
| SignalSafety.RefreshIsCompleteAtBump | src/signal_handler.c:120-125 | when the generation is bumped every instrumented record shows its plan node's counters |
| SignalSafety.PublishedHasSlot | src/pg_what_is_happening.c:248-291 | between hooks a published query has its slot, filled for its plan unless the query was torn down by a subtransaction abort |
| SignalSafety.HandlerCallsAccounted | src/signal_handler.c:69-127 | outside the handler its calls are the sum of its outcomes, and the unattached outcome never occurs |
| SignalSafety.CountersNeverGoBack | src/plan_tree_walker.c:265-276 | while a query is published, not torn down, and its slot held, no exported tuple count, loop count or time ever decreases, at any statement of any run |
| SignalSafety.StepKept | src/pg_what_is_happening.c:142-393 | every statement of every backend and handler, every error and every abort keeps the whole invariant |
| SignalSafety.NoEventExcluded | src/signal_handler.c:66-143 | at every moment a backend may crash, and a signal is delivered whenever the handler is installed and not running; between hooks queries of any plan begin, run, end and abort, and any dead process' slot can be reaped |
| Subtransactions.AstrayIffSubAborted | src/signal_handler.c:73-91 | where claims are atomic, a handler that comes to look at the current query goes astray iff that query has been torn down by a subtransaction abort since it was set |
| Subtransactions.DeadIffSubAborted | src/pg_what_is_happening.c:129-151 | where claims are atomic, at every point of every run the current query is a dangling pointer iff that has happened |
| Subtransactions.RunIffTrace | src/pg_what_is_happening.c:125-393 | every run of the machine has the steps that these two speak of |
| Subtransactions.SubAbortLeadsAstray | src/pg_what_is_happening.c:142-150 | in a table of any size and for any plan, a run in which it goes astray |
| Subtransactions.RefreshRun | src/signal_handler.c:66-143 | and one, with the same start, in which the handler runs to its end and counts a success |
| Publication.DanglesIff | src/pg_what_is_happening.c:129-393 | with single accesses and nothing serialised, at every point of every run the current query is a dangling pointer iff the published query has been torn down by a subtransaction abort, or its end hook has looked at all slots in vain after another process or the reaper had stored over its backend's pid, and the pointer has not been set or cleared since |
| Publication.EndHookIff | src/pg_what_is_happening.c:331-362 | an end hook that returns without an error leaves the pointer as it was if its search finds no slot and clears it otherwise; it leaves it set only if the backend has been robbed by then, and always if it had been before |
| Publication.LostIffRobbed | src/shared_memory.c:124-171 | between hooks a backend with a published query finds no slot iff another process or the reaper has stored over its pid since its last claim |
| Publication.IntrudesIffRobs | src/shared_memory.c:147-154 | where writers own their slots, the intruding steps of OwnershipStepIff are exactly the robberies of a backend at work |
| Publication.SerialDanglesIff | src/shared_memory.c:127-157 | if the sections that claim and those that reap exclude each other and no labelled pid is reused, the pointer dangles iff a subtransaction abort tore the published query down |
| Publication.NoActExcluded | src/pg_what_is_happening.c:129-311 | every access of the table is one of this machine, and between hooks a query may start, tracked or not, end, or be aborted, wholly or in a subtransaction |
| LostQuery.LostSlotDangles | src/pg_what_is_happening.c:331-361 | in a table of any size from 2 on and for any plan, a run without subtransaction aborts in which a backend loses its slot to a second claimer, its query ends with the pointer set, and its next tracked start shows its pid to pollers |
| HookRefinement.SignalRefines | src/signal_handler.c:66-143 | a handler that interrupts any statement, the published query not being torn down, runs to its end with exactly the effect of the specification's handler, and the hook goes on where it was |
| HookRefinement.StartRefines | src/pg_what_is_happening.c:230-291 | the start hook's statements, uninterrupted, have exactly the effect of the specification's start |
| HookRefinement.StartFaultRefines | src/pg_what_is_happening.c:246-309 | with an error raised before the claim, behind any number of the topology's stores or between the header's, the statements up to the error and the catch block have exactly the effect of the specification's failed start |
| HookRefinement.ClaimRefines | src/pg_what_is_happening.c:246-293 | the same for the guarded part alone |
| HookRefinement.CatchRefines | src/pg_what_is_happening.c:294-309 | the same for the catch block, from any statement of the start |
| HookRefinement.EndRefines | src/pg_what_is_happening.c:327-363 | the same for the end hook without an error |
| HookRefinement.EndFaultRefines | src/pg_what_is_happening.c:327-382 | and with an error raised before the search or behind any number of the refresh's stores |
| HookRefinement.AbortRefines | src/pg_what_is_happening.c:129-151 | the same for the abort callback |
| HookRefinement.Releases | src/shared_memory.h:100-107 | the two stores of a release, one after the other, are the release of the specification |
| HookRefinement.ReleasesOwn | src/shared_memory.c:191-209 | the search for the own slot and its release, statement by statement, are the release of the specification, whether or not there is a slot |
| TextFormat.ReadEscaped | src/metrics.c:316-341 | an escaped label value followed by its quote reads back as the value, and reading stops at that quote |
| TextFormat.EscapeIsClean | src/metrics.c:316-341 | no raw newline and no unescaped quote survives escaping |
| TextFormat.ReadSamplePrinted | src/metrics.c:242-247 | a line parser recovers a printed sample and what follows it |
| TextFormat.ReadRendered | src/metrics.c:250-314 | a whole text of comments and samples reads back as its samples |
| TextFormat.SignedText | src/metrics.c:347-350 | a printed signed number needs no escaping and reads back |
| TextFormat.DecimalText | src/metrics.c:347-350 | a printed unsigned number needs no escaping and reads back |
| Exporter.ExpositionReadsBack | src/metrics.c:250-314 | for every stable table a line parser recovers, in order, each active slot's query id, pid and text, and the readings of its marked nodes with node id, parent id, tag and value |
| Exporter.FourteenPerNode | src/metrics.c:153-181 | where all counted records are marked each yields exactly 14 readings, reading 14 i + k being metric k of record i |
| Exporter.PercentagesConserved | src/metrics.c:147-151 | each percentage lies in [0, 100]; a query's printed ones sum to 0 if no time was spent, else to exactly 100 iff every counted record without the magic number has zero time |
| Exporter.AsLongIs | src/metrics.c:165-176 | a counter is printed as itself below 2^63, and else as the signed 64-bit number congruent to it modulo 2^64 |
| Exporter.ValueIs | src/metrics.c:143-182 | each of the fourteen values, the counters being below 2^63, is the record's own: a million times the seconds are its time, the percentage times the query's time is a hundred times its own, and the others are its fields |
| Exporter.SampleCarriesRecord | src/metrics.c:143-182 | a parser that looks labels up by name finds in a sample the query id, the record's number, parent and tag, and as value the numeral of what the record holds under the sample's printed name |
| Families.FamiliesContiguousIff | src/metrics.c:250-314 | the samples of every metric family come together iff at most one counted marked record is printed and no active slot follows it |
| Families.TornTable | src/metrics.c:250-314 | a concrete table of two slots, one query of two nodes, in which they do not |
| Families.TwoNodesTear | src/metrics.c:143-182 | nor do they in any table of which one query shows two nodes |
| Families.NeverEof | src/metrics.c:250-314 | no line of any exposition is the EOF line |
| MovingExposition.ReadsBack | src/metrics.c:250-314 | whatever is stored between any two reads, a line parser recovers from the text every sample as it was read |
| MovingExposition.ReadsStill | src/metrics.c:250-314 | on a table that does not change what is read is the exposition of that table |
| Formatting.FormatterBuffer.constructor | src/metrics.c:185-191 | an empty buffer of 65536 characters |
| Formatting.FormatterBuffer.EnsureCapacity | src/metrics.c:193-201 | keeps the text and doubles the size at most once; the room asked for is there iff it is less than what one doubling leaves, so always up to 1024; the capacity stays 65536 times a power of two, at most twice the text plus 1024 once such requests made it grow, and more than all growing has copied |
| Formatting.FormatterBuffer.Append | src/metrics.c:203-220 | keeps the text and adds the piece iff the piece fits the room; otherwise the stored piece is cut and the offset runs past it |
| Formatting.Vsnprintf | src/metrics.c:212-213 | as much of the piece as fits and a NUL, and nothing in front of it |
| Formatting.OneDoublingSuffices | src/metrics.c:193-209 | a piece fits after at most one doubling wherever the text ends iff it has at most 1024 characters |
| Formatting.LongPieceTruncated | src/metrics.c:203-220 | no size is enough for every piece: one of twice the size is cut anywhere, one of more than 1024 characters that fits an empty buffer is cut where exactly its length is left |
| Formatting.FormatterBuffer.AppendEscapedChar | src/metrics.c:323-338 | adds the escape of one character, untruncated |
| Formatting.FormatterBuffer.AppendEscaped | src/metrics.c:316-341 | adds exactly the escaped string, of any length |
| MetricsPrinter.MetricPieceIsLine | src/metrics.c:229-248 | the formatted piece, its value cut to 255 characters, is the line of that sample |
| MetricsPrinter.InfoPiecesAreLine | src/metrics.c:343-354 | the three pieces of a query's info are its line |
| MetricsPrinter.MetricPieceIsShort | src/metrics.c:229-248 | a metric piece of values in the program's types never exceeds the room every append asks for |
| MetricsPrinter.AppendMetric | src/metrics.c:229-248 | prints metric k of a node, its value, tag, number and parent each as read at its moment, behind the k metrics before it |
| MetricsPrinter.AppendAllNodeMetrics | src/metrics.c:143-182 | prints exactly the 14 samples of a node, each with its own field, the times of the derived ones read first |
| MetricsPrinter.AppendQueryInfo | src/metrics.c:343-354 | prints exactly the info line |
| MetricsPrinter.TotalQueryTime | src/metrics.c:296-300 | the sum of the times as read, the count being read again before each |
| MetricsPrinter.AppendRecords | src/metrics.c:302-310 | prints the records that carry the magic number when tested and skips the others, as long as the count, read again each turn, allows |
| MetricsPrinter.AppendRecord | src/metrics.c:302-310 | one turn of that loop |
| MetricsPrinter.AppendEntry | src/metrics.c:277-310 | prints a slot that is active when tested |
| MetricsPrinter.AppendHeaders | src/metrics.c:256-273 | prints HELP and TYPE of the query and all metrics |
| MetricsPrinter.FormatOpenMetrics | src/metrics.c:250-314 | whatever is stored between any two reads, the returned buffer holds, untruncated and NUL-terminated, exactly the lines made of what was read, from which a parser recovers every sample |
| MetricsPrinter.StillTableReadsBack | src/metrics.c:250-314 | of a table that does not change a parser learns from that text every query and every reading |
| Examples.InfoLine | src/metrics.c:343-354 | the info line of a query whose text has a quote, a backslash and a newline, character by character |
| Examples.NodeLine | src/metrics.c:229-248 | the line of a root node's cache hits, character by character |
| Examples.InfoHeader | src/metrics.c:256-262 | the HELP and TYPE lines of the query metric, character by character |
| Scrape.ScrapeCleans | src/bg_worker.c:117-136 | after reap, signal and whatever else happens during the wait, a slot that a living process held has its old header and a dead one's is not shown, unless it belongs to a process that starts, ends, aborts or exits meanwhile |
| Scrape.ScrapeShowsLiving | src/bg_worker.c:117-136 | whatever starts, ends, aborts, exits, crashes or is signalled during the wait, a request shows, among the processes that do none of the first four, exactly the queries of the slots that living ones held when it began, in slot order |
| Scrape.ScrapeShowsIff | src/bg_worker.c:117-136 | put as an equivalence: a parser finds a query of a process that does none of those four iff a slot that a living process held when the request began shows it |
| Scrape.MoversAre | src/bg_worker.c:117-136 | the processes left out are those that start, end, abort or exit meanwhile |
| Scrape.HistoryFits | src/bg_worker.c:117-136 | the tables of all histories are tables that a request may find |
| StatusScan.Scan.NextRow | src/pg_what_is_happening.c:434-498 | one call yields the row of the first node at or behind the saved position and saves the position behind it, where every single read of a pid, a count, a time or a column may see memory at another moment |
| StatusScan.ScanIncreases | src/pg_what_is_happening.c:441-496 | however the slots change between reads, positions strictly increase and at most slots x nodes rows remain |
| StatusScan.ScanFromStart | src/pg_what_is_happening.c:425-498 | a whole scan ends after at most slots x nodes rows |
| StatusScan.ScanIsNestedLoop | src/pg_what_is_happening.c:441-496 | on stable memory the rows come at exactly the exporter's cells, in its order |
| StatusScan.ReadStatus | src/pg_what_is_happening.c:399-499 | calling until the end yields one row per cell with that cell's values |
| StatusScan.ExporterVisitsCells | src/metrics.c:275-311 | the readings that a parser gets from the exposition are, in the scan's order, those of the marked cells |
| StatusScan.SameNodesIffMarked | src/metrics.c:302-306 | both interfaces show the same nodes iff every counted record is marked |
| StatusScan.RowCarriesReadings | src/metrics.c:104-141 | a row and the 14 readings of its cell agree on ids and tag, and each reading is the text of the row's value for that metric |
| StatusScan.RowCarriesRecord | src/metrics.c:104-141 | column by column a row holds the slot's pid, query id and text and the record's tag, times and counters, these and the query id being below 2^63; a million times the seconds are the record's time |
| Readers.RowsLinkUp | src/pg_what_is_happening.c:441-496 | a row put together read by read while any number of processes store, fill and free slots carries the number of the node it stands for and names an earlier node as its parent |
| Readers.SameNodesInEveryTable | src/metrics.c:302-306 | in every table of every run the endpoint gives exactly 14 readings for each row of the view |
| Readers.PercentagesInEveryTable | src/metrics.c:147-151 | at one instant, in every table of every run, a query's percentages sum to exactly 100 as soon as any time was spent |
| Readers.ReadingsInEveryTable | src/metrics.c:143-182 | in every table of every run reading 14 i + k of a query is metric k of the node numbered i and names an earlier parent |
| Readers.SamplesLinkUp | src/metrics.c:302-310 | of a record below the count when it is read the endpoint prints all 14 samples, and though each is put together from reads of its own while any number of processes store, each carries the node's number and an earlier parent |
| Readers.RowWithinHundredIff | src/metrics.c:109-113 | a row shows at most 100 percent iff no time was summed or the node's time has grown, between its two reads, by no more than the times summed of the other nodes |
| Readers.SampleWithinHundredIff | src/metrics.c:147-151 | the same for the endpoint |
| Readers.RowOverHundred | src/metrics.c:109-113 | a memory whose times never decrease and a row of it that shows 200 percent |
| Layout.CalcSizeExact | src/shared_memory.c:47-67 | the checked computation raises an error iff the stride or the region exceeds the range of sizes, and is exact otherwise |
| Layout.AreaInside | src/shared_memory.c:214-229 | fields, text and every record lie inside their slot, every slot inside the region |
| Layout.AreasDisjoint | src/shared_memory.h:84-87 | different areas of any slots do not overlap |
| Layout.PlaceOfAddress | src/shared_memory.h:84-87 | every byte of the region belongs to a place, which the address arithmetic maps back to it |
| Layout.AddressOfPlace | src/shared_memory.h:84-87 | and to one place only: places and bytes correspond one to one |
| Layout.NodesAlignedIff | src/shared_memory.c:223-229 | all records are 8-byte aligned iff the text length is a multiple of 8 |
| Layout.MisalignedLength | src/gucs.c:44-47 | an admissible text length for which they are not |
| Layout.FieldsFit | src/shared_memory.h:40-77 | the fields of a structure are aligned, do not overlap, and lie inside it |
| Layout.SizesAreStructs | src/shared_memory.h:40-77 | from the sizes of their fields a record takes 120 bytes and a slot's header 40 |
| Layout.Region.Write | src/shared_memory.c:214-229 | a write through an area's address reaches exactly the bytes it names and no other byte of any slot |
| Layout.Region.StoreText | src/pg_what_is_happening.c:272-281 | the text area then holds the text cut to one byte less than its size, as a C string, and nothing else changed |
| Layout.Region.StoreQueryText | src/pg_what_is_happening.c:272-281 | what the text area holds as a C string after a start is, byte for byte, the text that the slot shows |
| Layout.Region.Startup | src/shared_memory.c:79-122 | a new region is zeroed in every byte behind the header, a found one keeps every byte |

## Left out

- HTTP servers, sockets and the request line: network I/O.
- Background worker registration and its main loop; only the order reap, signal, wait, format is kept.
- Settings, listen addresses, query identifiers and their hash, timestamps: positive constants and arbitrary values.
- The tables of node tag names and help texts: any texts within the stated bounds.
- PostgreSQL's locks, memory contexts, long jumps, logging, tuple forming and memory barriers: critical sections are
  steps, errors are parameters, allocation does not fail.
- Chaining to previous hooks and to the previous SIGUSR2 handler.
- What a handler does once it follows a pointer to a query that is gone: the machine has no further step for it.
- Errors raised inside the signal handler.
- The waiting time after signalling: any events but a second reaping may happen before the table is read.
- IEEE rounding and printf's rendering of doubles.
- StartMoves: leaves out start time, query id and text, which have no accesses of their own in `Interleaving`.
- The other rules of OpenMetrics, such as the place of a family's HELP and TYPE lines.
- FormatOpenMetrics: reads a query's text, a string, at one moment, where the source copies it character by character.
- NextRow: the same.
- OwnershipByHistory: excludes crashes of the backend in question and errors in its final refreshes, where the
  equivalence is false; QueryByHistory covers all histories, LeakIff and LeakEndsIff say exactly when slot and query
  part and meet again.
- SerialOwnership: a sufficient condition that a lock could enforce; OwnershipIff has the exact one.
- AstrayIffSubAborted: assumes atomic claims; DanglesIff does not.
- DeadIffSubAborted: the same.
