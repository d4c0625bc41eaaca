# Homestar: workflows, resumption and receipts

Homestar runs content-addressed workflows. A workflow is a list of tasks, each an
instruction named by its CID, whose arguments may be promises for the results of other
instructions. The runtime compiles the tasks into a dependency graph and a schedule of
batches, finds in its database of receipts how far an earlier run came, fetches the
resources still needed, and lets a worker run the remaining batches, each batch
concurrently. Results are receipts; they are linked in memory, committed to the database
and exchanged over the network. This project models that path from task list to stored
receipts, the two translations it rests on (promises in IPLD arguments, and IPLD values
to and from WIT values), and two event-driven tables beside it: the runner's workers with
their expiration timers, and the event handler's pending queries.

`dafny verify dfyconfig.toml` checks all of it.

## How the model is built

| file | what it holds |
|---|---|
| `Ipld.dfy`, `Wit.dfy`, `WitFixpoint.dfy` | IPLD with key-sorted maps; lowering to WIT values by type, lifting back, both round trips |
| `Inputs.dfy` | parsing and printing of arguments, promises, substitution of links |
| `Workflows.dfy`, `Schedules.dfy` | compilation to a graph, and the schedule of batches |
| `Database.dfy`, `Scheduler.dfy`, `Resume.dfy` | tables and queries, the backward scan for the resume point, the scheduler built from it |
| `Fetching.dfy`, `Losses.dfy` | what is fetched on resuming, over every order the database may return rows in |
| `Replay.dfy` | replay of skipped receipts |
| `Execution.dfy`, `Parameters.dfy` | lowering the arguments of one call, and what the output of one task becomes as a parameter of another |
| `Worker.dfy`, `WorkerLoop.dfy` | a run as a state machine over its interleaved steps, and the loops that drive it |
| `WorkerSafety.dfy`, `WorkerProgress.dfy`, `Interleaving.dfy` | what every step keeps, over all runs |
| `Provenance.dfy` | where every receipt, answer and parameter of a run comes from |
| `Meaning.dfy`, `Posed.dfy` | what a workflow means, and that compiled workflows have a meaning |
| `Refinement.dfy` | a resumed run, and any chain of broken-off runs, agrees with a fresh one |
| `NestedLinks.dfy`, `Gossiping.dfy` | when all runs resolve a link inside an argument alike, and when gossip and a lookup commute |
| `Example.dfy`, `Counterexamples.dfy` | small workflows that meet the conditions of the theorems on whole runs, and two that miss one |
| `Runner.dfy` | workers against timers, and where every handle is |
| `PendingQueries.dfy`, `EventAccounts.dfy`, `Outcomes.dfy`, `EventLoop.dfy` | pending queries, the account of every channel, what it hears over whole event sequences, and the handler's loop |

- A CID is opaque, and so are hashing and text encodings (`Codec`). `Faithful` says that
  printing a CID and parsing it gives it back, which only the round trips need.
- Executing a Wasm function is an arbitrary deterministic partial function of the module,
  the function name and the lowered parameters (`World`).
- `dagga`, which builds the schedule, is a foreign library. Its contract is `Legal`: each
  node is placed once, after what it reads, and a lower barrier goes first.
  `BuildSchedule` is a layering method that meets it, and fails only if no legal
  schedule exists.
- A run of a worker is a sequence of events: a batch starts, one stage of one lookup is
  done, a task is joined, a receipt is committed or not, a task fails and its batch is
  given up, a receipt arrives by gossip, the worker is aborted. `Run` is defined exactly for
  the sequences that can happen, so a theorem about every `evs` with `Run(...).Some?` is
  about every interleaving. The class `WorkerRun` has the loops of the source; each
  method is shown to take steps of this machine and no others, and the steps the script of
  the executor and the network says (`Plays`).
- What a workflow means (`Denote`) is defined without the machine: batches are evaluated in
  order, each task on the values of its arguments.
- In the event handler's state, `kinds`, `asked`, `submitted`, `keys` and `phase` record
  what the swarm and the callers know; in the class they are ghost.
- Network answers, database connections, module contents and the order of completion are
  arguments or events, restricted only where a theorem says so.
- Integers carry their WIT width explicitly; IPLD floats and `float64` are reals.

## Where the code does less than it seems to

The model does in each case what the source does; the lemmas that settle the case are named.

- The resume point is found by counting receipts. For distinct tasks that have at most one
  receipt each the count is right. In general a finished batch is accepted exactly when each
  task has one receipt, so a finished batch with a second receipt for one task is refused
  and run again (`CountingExactly`); and a batch that is not finished can be accepted
  (`CountingMiscounts`).
- A task that has a receipt, in a batch that is not finished, is run again, but each of its receipts
  has taken one of its entries from the vector of resources to fetch
  (`DropAllEntries`, `ScanCounts`). Which entry goes depends on the order in which the database
  returns rows, because entries are removed by swapping in the last one
  (`RowOrderMatters`). `EntryLostExactly` says which entries some order takes,
  `ModulesFetchedExactly` and `ResourceFetchedExactly` when modules and other resources
  are fetched in every order. Without its module the run fails; without a link it can go on,
  execute the task with the bare link and commit another output (`DroppedLinkBreaks`).
- A promise inside an IPLD argument does not order tasks. If it is looked up too early, or the
  database connection fails, it is left in place without an error (`UnansweredStays`,
  `BrokenStays`). `NestedExactly` says when all runs resolve it alike. If the promised task is in
  the same batch, what the other is executed with depends on timing (`NestedPromisesRace`).
  The theorems on whole runs therefore ask that links inside arguments be settled:
  earlier batches, fetched resources, or nothing at all; and for a resumed run that the
  skipped tasks they lead to be in the pivot (`SkippedLinkBreaks`), and with lost
  batches that they lead to no task that is run.
- A receipt that arrives by gossip is stored, but neither linked nor committed for the workflow.
  If a lookup for its instruction is under way that only the network can answer, what the
  linkmap and the join rows hold afterwards depends on which comes first (`GossipRaces`,
  `GossipExactly`).
- Rerunning a workflow that is still tracked leaves its old timer behind, and that timer
  aborts the rerun (`LeakedTimerAborts`, `MatchedExactly`). So does the message the first worker
  sends when it ends (`LateDropAborts`, `LateDropExactly`), and the first worker itself can no
  longer be aborted (`RerunOrphans`).
- Replay asserts that receipts come out in the order of the pointers. That holds exactly when
  every pointer has one receipt (`ReplayInOrder`); tasks of batches before the
  resume point may have none (`SkippedInOrder`, `SkippedUnreceipted`).
- A receipt's CID is taken over the invocation, the result and the metadata, not over the instruction.
  Theorems that need the receipts of a run to be told apart by their CIDs say so (`HashedJob`).
- An instruction found in the fetched resources is answered from there before the database
  is asked, although the comment on the worker's `run` does not name that step.
- Surplus arguments are dropped without a look, because types and arguments are zipped
  (`LowerParams`), and the branch a promise names does not select among results.
- Lowering a map at a type that is not a list of tuples aborts the call instead of reporting
  the mismatch, because the type is unwrapped before it is tested; the model has an
  error of its own for it (`Panic`).
- A provider query whose only provider is the local peer, or that finishes without one, is neither
  answered nor removed: it stays pending, and its channel silent, until another
  result ends it (`PendingExactly`). Nor is a request whose provider cannot be reached
  (`RequestPendingExactly`).

## Model

| member | source | states |
|---|---|---|
| `Refinement.ResumeRefinesFresh` | homestar-runtime/src/scheduler.rs:98-206 | Resume refines fresh: from any sound receipts, a successful run of what the scheduler left to run commits, for every task left, the output a successful fresh run committed, under every interleaving of either run, with links inside arguments to resources, to earlier batches and to the pivot |
| `Refinement.CrashesRefineFresh` | homestar-runtime/src/scheduler.rs:98-206 | Crash and resume: after any number of attempts broken off by aborts, failures or lost batches, the database holds nothing but receipts of the fresh run, and an attempt that succeeds commits the fresh run's outputs |
| `Refinement.AttemptsSound` | homestar-runtime/src/worker.rs:337-502 | Whatever becomes of each of a chain of attempts, the receipts they leave are sound |
| `Refinement.SoundExactly` | homestar-runtime/src/scheduler.rs:128-144 | Receipts are sound if and only if each is one of the fresh run's or the outside's |
| `Refinement.RestartIsSound` | homestar-runtime/src/scheduler.rs:98-206 | Whatever becomes of one restarted worker, it leaves sound tables, and receipts for all its tasks if it succeeds |
| `Refinement.LinksFetchedExactly` | homestar-runtime/src/scheduler.rs:112-175 | The links of all tasks left to run are fetched in every order of rows if and only if each is kept by some task from the pivot on, a condition on schedule and receipts alone, if no two tasks of one batch share a link and no task has two receipts |
| `Refinement.KeptLinks` | homestar-runtime/src/scheduler.rs:112-175 | Under that condition a resumed run has all the resources its arguments link to, whatever order the rows came in |
| `Refinement.ResumedResolvesAlike` | homestar-runtime/src/worker.rs:217-240 | In every run that starts from the scheduler, whenever nothing waits to be committed, the linkmap and any row of the database answer a CID alike |
| `Refinement.ResumesCoherent` | homestar-runtime/src/scheduler.rs:132-205 | The linkmap the scheduler hands over agrees with the database |
| `Refinement.ResumesGrounded` | homestar-runtime/src/scheduler.rs:132-205 | It holds outputs of stored receipts, so a resumed run is one of those whose receipts, answers and parameters are accounted for |
| `Posed.CompiledIsWellPosed` | homestar-runtime/src/workflow.rs:141-229 | A compiled workflow is one the theorems on whole runs are about: an ordered schedule of expanded tasks is well posed as soon as links inside arguments settle |
| `Posed.IndexedIsCompiled` | homestar-runtime/src/workflow.rs:172-197 | The index compilation builds is the one resuming assumes, for every ordered schedule of distinct tasks |
| `Posed.StartsItsTasks` | homestar-runtime/src/worker.rs:337-436 | Starting a batch of a compiled workflow runs exactly the tasks whose instruction is a wasm/run, each with the module its instruction names, and fails if and only if one of these modules was not fetched |
| `Meaning.PartIsMeaningful` | homestar-runtime/src/scheduler.rs:177-205 | The meaning of the whole workflow is a meaning of what is left to run, as far as its links to resources are fetched and its links to skipped tasks reach the pivot |
| `Meaning.EvaluationIsMeaning` | homestar-runtime/src/worker.rs:337-502 | Evaluating the batches in order, independently of the run, gives every CID of a well-posed workflow the value it computes from the values of its arguments |
| `WorkerSafety.Safety` | homestar-runtime/src/worker.rs:383-501 | Over every run, with failures, given-up batches and aborted workers: every receipt stored, linked or waiting to be committed carries its own instruction's value |
| `WorkerSafety.SafetyStep` | homestar-runtime/src/worker.rs:383-501 | Every single event keeps all receipts, the linkmap and the lookups under way sound |
| `WorkerSafety.JoinedValue` | homestar-runtime/src/worker.rs:457-472 | The receipt made of a task's output is the value of the instruction, whatever order its lookups were answered in |
| `WorkerSafety.ArgumentsRefine` | homestar-core/src/workflow/input.rs:162-191 | Arguments resolved occurrence by occurrence equal those resolved at once by the meaning, except where a promise is still unresolved; what a resolved argument is passed as is `PromisePassed` and `CalledWithArguments` |
| `WorkerSafety.NeverPassesPromise` | homestar-runtime/src/worker.rs:383-447 | No task is joined whose call passed an unresolved promise |
| `Provenance.CalledWithArguments` | homestar-runtime/src/worker.rs:383-472 | Over every run, a task that is joined was called with one parameter for each argument passed: for an awaited instruction the output of a receipt for it that the run has, or the resource fetched under it; for plain IPLD the argument with each link left in place or replaced by what came for it; each at the type of its own parameter |
| `Provenance.AllAccounted` | homestar-runtime/src/worker.rs:200-291 | Over every run, every receipt stored or about to be committed was there at the start, came from outside, or certifies the output of a call the run made; every linkmap entry and every answer to a lookup is the output of such a receipt for that instruction, or a resource |
| `Provenance.JoinAccounted` | homestar-runtime/src/worker.rs:457-472 | The receipt of a joined task names its instruction and its invocation, holds the output and the function called, and is named by the hash of invocation, output and metadata |
| `WorkerProgress.Coherence` | homestar-runtime/src/worker.rs:217-291 | While commits succeed, over every run each linkmap entry is the output of a stored receipt for that instruction, or of the one being committed |
| `WorkerProgress.ResolvesAlike` | homestar-runtime/src/worker.rs:217-240 | A coherent linkmap and the database give the same answer for a CID |
| `WorkerProgress.CommitsEverything` | homestar-runtime/src/worker.rs:337-502 | A run that succeeds has stored a receipt for every task it was given |
| `Interleaving.Independence` | homestar-runtime/src/worker.rs:396-501 | Two runs of one batch from the same state whose tasks all succeed and that hear the same foretold gossip end with the same linkmap and the same tables, however lookups, completions, commits and gossip interleave |
| `Gossiping.GossipExactly` | homestar-runtime/src/worker.rs:238-291 | Hearing a receipt and looking up its instruction end alike in every order if and only if the receipt was foretold: its instruction is linked or fetched, or has receipts already, with the same output |
| `Gossiping.GossipRaces` | homestar-runtime/src/worker.rs:238-291 | Otherwise two orders of the same events end in different states: with the receipt first it is found as a row, with it last the network answers, which is linked and committed for the workflow, or another row does |
| `Interleaving.CalmRunBetween` | homestar-runtime/src/worker.rs:396-501 | At every point of such a run the linkmap and tables are a closed form of which tasks are joined, which lookups are answered and which gossip was heard |
| `Refinement.LinkmapSound` | homestar-runtime/src/scheduler.rs:132-144 | The linkmap built from sound receipts holds values of its instructions |
| `NestedLinks.NestedExactly` | homestar-core/src/workflow/input.rs:263-336 | A link at any position inside any argument, that no task of its batch makes: all runs resolve it alike if and only if it is linked or fetched when the batch runs or nobody answers it |
| `NestedLinks.BrokenStays` | homestar-runtime/src/worker.rs:238-240 | If it is neither linked nor fetched and the connection fails, it is left in place whatever the tables hold |
| `NestedLinks.UnansweredStays` | homestar-core/src/workflow/input.rs:263-336 | A link inside an argument that is found nowhere goes through all stages and is left in place, with no error |
| `NestedLinks.NestedPromisesRace` | homestar-core/src/workflow/input.rs:51-59 | A link at any position inside an argument to a task of the same batch: joined before or after the lookup, that task decides what the other executes with, and the two differ if and only if its output does not read as the bare link |
| `NestedLinks.ArgumentsDiffer` | homestar-core/src/workflow/input.rs:162-191 | An answered and an unanswered lookup give the same arguments if and only if the answer reads as the bare link |
| `NestedLinks.SubstAtDiffers` | homestar-core/src/workflow/input.rs:263-336 | Two sets of answers that differ at one occurrence substitute to the same value if and only if the two answers read the same there |
| `NestedLinks.DroppedLinkStays` | homestar-runtime/src/worker.rs:383-394 | A task whose link argument was not fetched can be executed with the bare link instead of its bytes |
| `Counterexamples.DroppedLinkBreaks` | homestar-runtime/src/scheduler.rs:133-138 | A resumption that meets every condition of the resume theorem but one: the receipts of an unfinished batch took a task's link from the fetch, and run again with the bare link it commits another output than the fresh run |
| `Counterexamples.SkippedLinkBreaks` | homestar-runtime/src/scheduler.rs:177-205 | Another: a link inside an argument leads to a skipped task before the pivot, the database cannot be reached, and the resumed run commits another output than the fresh run |
| `Example.BlurredAlike` | homestar-runtime/src/scheduler.rs:293-362 | A two-task workflow meets all conditions of the resume theorem: run afresh, and resumed from a database that holds the first receipt, it commits the same output |
| `Example.CrashedAlike` | homestar-runtime/src/worker.rs:337-502 | It meets all conditions of the crash theorem: a run aborted after its first commit leaves a database from which the resumed run commits the same output |
| `Example.EitherOrder` | homestar-runtime/src/worker.rs:437-501 | A batch of two tasks meets all conditions of the theorem on interleavings, and ends alike in either order |
| `Worker.LookEffect` | homestar-runtime/src/worker.rs:200-291 | A stage of a lookup changes nothing but its own stage, and, if and only if it is the network's answer, links that answer unless its instruction is linked, and commits it |
| `Worker.HearEffect` | homestar-runtime/src/event_handler/swarm_event.rs:483-488 | A receipt heard by gossip is stored unless its key is there, and neither linked nor joined to the workflow; one that answers a lookup given up is linked unless its instruction is, and committed if it can be; nothing that is there changes |
| `Worker.JoinEffect` | homestar-runtime/src/worker.rs:457-472 | Joining a task links the output of its receipt under its CID, over an entry that is there, and leaves the receipt to be committed, or fails the run; nothing else changes |
| `WorkerLoop.WorkerRun.constructor` | homestar-runtime/src/worker.rs:185-189 | A worker starts from the scheduler's linkmap and the database as it is |
| `WorkerLoop.WorkerRun.StartBatch` | homestar-runtime/src/worker.rs:337-436 | The loop that spawns a batch: tasks without a handler are skipped, a module not fetched fails the run, otherwise exactly the tasks of the batch run with their modules |
| `WorkerLoop.WorkerRun.ResolveCid` | homestar-runtime/src/worker.rs:200-291 | One stage of the lookup chain: linkmap, resources, database, network; without a connection the lookup ends, a query that fails goes on to the network, and a row is used if and only if the query is answered and one is stored |
| `WorkerLoop.WorkerRun.Look` | homestar-runtime/src/worker.rs:383-394 | A lookup under way takes a step of the state machine |
| `WorkerLoop.WorkerRun.Call` | homestar-wasm/src/wasmtime/world.rs:156-220 | The call of a task is the execution of its resolved arguments |
| `WorkerLoop.WorkerRun.Join` | homestar-runtime/src/worker.rs:437-472 | A joined task is linked and pending, or fails the run; its batch is given up if and only if its call fails |
| `WorkerLoop.WorkerRun.CommitPending` | homestar-runtime/src/worker.rs:483-484 | The pending receipt is committed, or the run fails |
| `WorkerLoop.WorkerRun.Store` | homestar-runtime/src/db.rs:133-147 | A commit stores both rows, or neither when the database or the foreign key fails |
| `WorkerLoop.WorkerRun.RunBatch` | homestar-runtime/src/worker.rs:337-501 | One batch: spawn, then do what the script says, pick by pick, until all are done or one fails; a pick is passed over only if nothing it names can happen, and the worker is aborted only at the end of the script |
| `WorkerLoop.WorkerRun.RunQueue` | homestar-runtime/src/worker.rs:337-502 | All batches: whatever the executor and the network decide, the loops make the run of the state machine that the script says, pick by pick, and return normally only after every batch was started and closed |
| `WorkerLoop.LoopsAreSafe` | homestar-runtime/src/worker.rs:337-502 | The loops leave sound receipts if they started with and heard of sound receipts |
| `Scheduler.PushPairs` | homestar-runtime/src/scheduler.rs:114-127 | A batch pushes the resources of its tasks up to the first task with none recorded, and gives pointers only if all are recorded |
| `Scheduler.DropFound` | homestar-runtime/src/scheduler.rs:132-144 | Each receipt found removes the first entry of its task by swapping in the last; the linkmap holds an output for exactly the instructions found |
| `Scheduler.DropEntries` | homestar-runtime/src/scheduler.rs:133-138 | Removing by swap takes exactly one entry of the task and keeps every entry of the others |
| `Scheduler.DropAllEntries` | homestar-runtime/src/scheduler.rs:132-138 | Over all receipts found, in any order, a task keeps exactly its entries minus its receipts, but not less than none |
| `Scheduler.RowOrderMatters` | homestar-runtime/src/scheduler.rs:132-138 | Which entries go depends on the order of the rows: of a task with two resources either can be the one left |
| `Scheduler.ScannedIs` | homestar-runtime/src/scheduler.rs:113-163 | After the whole scan the vector holds part of what was pushed, only resources of scanned tasks, and all resources of every task no receipt is found for |
| `Scheduler.ScanCounts` | homestar-runtime/src/scheduler.rs:113-163 | After the whole scan every task has lost exactly one entry for each of its receipts, as far as it had entries, whatever number of resources and receipts it has and whichever lookups fail |
| `Scheduler.Scan` | homestar-runtime/src/scheduler.rs:112-166 | The pivot is the last batch that hits, its linkmap is exact, no later batch hits, and the vector is what the pushes and removals down to the pivot leave |
| `Resume.Init` | homestar-runtime/src/scheduler.rs:98-206 | The scheduler splits the schedule after the pivot and fetches exactly the resources in the vector the scan leaves, or fails with the fetch |
| `Resume.FetchCoverage` | homestar-runtime/src/scheduler.rs:112-175 | Every task from the pivot on that no receipt is found for has all its resources fetched, and nothing is fetched that belongs to earlier batches only |
| `Resume.CountingExactly` | homestar-runtime/src/scheduler.rs:146-150 | For any batch of distinct tasks and any tables: a finished batch has as many receipts as tasks if and only if each task has exactly one; with at most one receipt for each task of the batch, the counts agree if and only if it is finished |
| `Resume.HitExactly` | homestar-runtime/src/scheduler.rs:114-150 | The scan takes a batch of distinct tasks for finished if and only if the lookup was answered, all its tasks are indexed and they have as many receipts as there are tasks; a finished batch if and only if each has one |
| `Resume.CountingMiscounts` | homestar-runtime/src/scheduler.rs:146-150 | With two receipts for one instruction the count accepts a batch with a task that has none |
| `Resume.PivotCorrectness` | homestar-runtime/src/scheduler.rs:112-205 | The pivot is the last batch looked up in which every task has a receipt, no batch looked up after it is fully receipted, and the linkmap has exactly the pivot's tasks, if no task of the schedule has two receipts |
| `Fetching.ModulesFetchedExactly` | homestar-runtime/src/scheduler.rs:113-171 | Every task left to run has its module fetched in every order of rows if and only if each one found receipted shares it with a task no receipt is found for, with any links, receipts and failed lookups |
| `Fetching.SharedFetched` | homestar-runtime/src/scheduler.rs:113-171 | Resources of any kind that are so shared are fetched in every order of rows |
| `Losses.EntryLostExactly` | homestar-runtime/src/scheduler.rs:112-166 | Some order of rows takes a resource from a task in the scan if and only if its batch is looked up, the task has a receipt, the resource stands once in its list, and it stands first there or a task before it has a receipt and the other receipts of the batch outnumber the entries behind it |
| `Losses.BatchLosesExactly` | homestar-runtime/src/scheduler.rs:132-144 | The same for one batch and whatever the vector held before it |
| `Losses.ResourceFetchedExactly` | homestar-runtime/src/scheduler.rs:112-175 | A resource is fetched in every order of rows if and only if some task from the pivot on carries it and no order takes it from that task, if no two tasks of one batch carry it |
| `Replay.Gather` | homestar-runtime/src/worker.rs:305-316 | The pointers are the instructions of the skipped tasks, batch by batch (their order is `PointersInOrder`) |
| `Replay.PointersInOrder` | homestar-runtime/src/worker.rs:305-316 | The pointer of a task stands behind those of all tasks of earlier batches and of the tasks before it in its own |
| `Replay.Notify` | homestar-runtime/src/event_handler/event.rs:515-534 | The emitted receipts are those found, sorted by pointer position, in stable order; with distinct pointers they are in pointer order if and only if each has exactly one receipt |
| `Replay.ReplayExactly` | homestar-runtime/src/event_handler/event.rs:521-534 | Sorted receipts have the order of the pointers if and only if equal pointers stand together and each has as many receipts as pointers, whatever order the database gave |
| `Replay.ReplayInOrder` | homestar-runtime/src/event_handler/event.rs:521-534 | With distinct pointers, the order is theirs if and only if each has exactly one stored receipt |
| `Replay.SkippedInOrder` | homestar-runtime/src/worker.rs:305-316 | If no skipped task has two receipts, that holds if and only if every skipped batch is fully receipted |
| `Replay.SkippedUnreceipted` | homestar-runtime/src/scheduler.rs:112-166 | A schedule and a database on which resuming skips a task that has no receipt |
| `Workflows.LookupTable` | homestar-runtime/src/workflow.rs:231-240 | Exactly the instruction CIDs of the tasks are in the table, each with the index of the last task that has it |
| `Workflows.InFlowReads` | homestar-runtime/src/workflow.rs:176-187 | The reads are the indices of the awaited tasks of this workflow, in order; promises for other instructions are dropped |
| `Workflows.DeferredsAre` | homestar-core/src/workflow/input.rs:51-59 | A CID is among the deferred ones if and only if some argument is a promise for it |
| `Workflows.LinksAre` | homestar-core/src/workflow/input.rs:62-70 | A CID is among the links if and only if some argument is that link itself |
| `Workflows.DeferredsInOrder` | homestar-core/src/workflow/input.rs:51-59 | Deferred CIDs come in the order of the arguments |
| `Workflows.LinksInOrder` | homestar-core/src/workflow/input.rs:62-70 | So do the links |
| `Workflows.ReadsAre` | homestar-runtime/src/workflow.rs:176-187 | A task reads exactly the last tasks of the workflow with the CIDs it awaits |
| `Workflows.ExpandedExactly` | homestar-runtime/src/workflow.rs:153-170 | A task compiles to exactly the node that has the CID, the url and the operation of its instruction, its invocation, the string under func and one argument for each element of the list under args |
| `Workflows.PrintsBack` | homestar-wasm/src/io.rs:60-78 | Printing the arguments of a node gives the args list of its instruction back if and only if its promises name a branch |
| `Workflows.RecordResources` | homestar-runtime/src/workflow.rs:172-197 | A task's module, then its links, are recorded under its CID; a CID that is there gets only the links |
| `Workflows.IndexResources` | homestar-runtime/src/workflow.rs:172-197 | Under every CID stand the module of its first task and the links of all its tasks, in order; so a task that shares its CID with no other has exactly its own module and links |
| `Workflows.CompileDag` | homestar-runtime/src/workflow.rs:152-229 | The graph has one node per task, with its reads, and a barrier exactly on tasks that neither await nor are awaited |
| `Workflows.AddUnawaits` | homestar-runtime/src/workflow.rs:214-222 | Appending the nodes without reads, with barriers where nobody awaits them, completes the graph |
| `Workflows.CompileAot` | homestar-runtime/src/workflow.rs:152-229 | Compilation fails if and only if some task is no inlined instruction or its input no call, with the error of the first such task; otherwise every node holds its task, graph and index are as above, and under the CID of each instruction stand its own url first and then exactly the links that are arguments of its tasks, in order |
| `Schedules.BuildSchedule` | homestar-runtime/src/workflow.rs:143-149 | A schedule that meets the contract of the scheduling library with no empty batch, or none if there is no legal one |
| `Schedules.ScheduleLegality` | homestar-runtime/src/workflow.rs:141-229 | For distinct CIDs every legal schedule puts every task in exactly one batch, strictly after the tasks it awaits, and lone tasks after all others |
| `Schedules.Graph` | homestar-runtime/src/workflow.rs:141-150 | The whole build has these properties, and fails on distinct tasks that compile only if no schedule could have them |
| `Database.Db.constructor` | homestar-runtime/src/db.rs:112-123 | The tables start empty |
| `Database.Db.StoreReceipt` | homestar-runtime/src/db.rs:152-162 | A receipt whose CID is there changes nothing and returns no row |
| `Database.Db.StoreReceipts` | homestar-runtime/src/db.rs:165-182 | A batch of stores is the stores one after the other, and counts the new rows |
| `Database.Db.StoreWorkflow` | homestar-runtime/src/db.rs:233-248 | The workflow is stored, once |
| `Database.Db.CommitReceipt` | homestar-runtime/src/db.rs:133-147 | Receipt and join row together, or nothing when the workflow is not stored |
| `Database.Db.FindInstructionPointers` | homestar-runtime/src/db.rs:187-194 | Exactly the rows whose instruction is asked for, each once, in no promised order |
| `Database.Db.FindInstructionByCid` | homestar-runtime/src/db.rs:199-206 | A row is found if and only if one is stored for the instruction |
| `Database.Db.WorkflowProgress` | homestar-runtime/src/db.rs:300-318 | A stored workflow's progress lists each receipt committed for it once |
| `Database.Convergence` | homestar-runtime/src/db.rs:133-182 | Two sequences of commits and gossip stores with the same set of operations leave equal tables, in any order and with any repetition |
| `Database.OrderMattersExactly` | homestar-runtime/src/db.rs:152-162 | Two stores commute if and only if they do not compete for a free key with different receipts |
| `Database.ProgressIs` | homestar-runtime/src/db.rs:251-318 | A workflow's join rows are exactly the receipts committed for it |
| `Database.ApplyIs` | homestar-runtime/src/db.rs:133-182 | What a sequence of operations leaves, in a form in which order and repetition do not occur |
| `Inputs.ParsePrintParse` | homestar-core/src/workflow/input.rs:93-129 | Parsing what was printed from parsed arguments parses to the same, for every IPLD list |
| `Inputs.PrintParseExactly` | homestar-core/src/workflow/input.rs:93-129 | Printing parsed arguments gives the list back if and only if every one-key map with a link names one of the three branches |
| `Inputs.PrintInputExactly` | homestar-core/src/workflow/pointer.rs:105-146 | The same for one argument, a result, a promise or plain IPLD |
| `Inputs.ParsedExactly` | homestar-core/src/workflow/input.rs:93-129 | An element of an argument list is read as a result if and only if it is a pair with one of the three tags, as a promise if and only if it is a one-key map with a link, and otherwise as itself |
| `Inputs.SubstResult` | homestar-core/src/workflow/instruction_result.rs:62-77 | A result as IPLD has the links of its value and no others to substitute |
| `Inputs.ResolveLinksIsSubst` | homestar-core/src/workflow/input.rs:263-336 | Resolution of links with its inlined child cases is plain structural substitution: the whole result under the pointer branch, its value elsewhere |
| `Inputs.SubstNothing` | homestar-core/src/workflow/input.rs:263-336 | If no lookup succeeds, nothing changes |
| `Inputs.SubstTwice` | homestar-core/src/workflow/input.rs:263-336 | Resolving with one lookup and then another is one pass with the first or else the second, if the first's results have no link the second resolves |
| `Inputs.SubstAtAgrees` | homestar-core/src/workflow/input.rs:263-336 | Substitution with an answer per occurrence is substitution by lookup when the answers are the lookup's |
| `Execution.LowerArgs` | homestar-wasm/src/wasmtime/world.rs:173-195 | Success if and only if every argument that is passed lowers; one parameter each, of the type of its position if and only if the argument fits that type, and then it lifts back to the argument if and only if the argument is exact |
| `Execution.LowerParams` | homestar-wasm/src/wasmtime/world.rs:173-195 | The fold over zipped types and arguments computes these parameters or the first error; surplus arguments are not looked at |
| `Execution.ParameterTyped` | homestar-wasm/src/wasmtime/ipld.rs:60-78 | A parameter of any type gets a value of that type, the argument lowered at it, if and only if the argument fits it |
| `Execution.PromisePassed` | homestar-core/src/workflow/input.rs:162-191 | An awaited instruction is passed as what was found for it would be if it stood there itself; if nothing was found the call fails with its CID |
| `Parameters.LowersExactly` | homestar-wasm/src/wasmtime/ipld.rs:170-337 | Which arguments lower at all at which parameter, for every type and value |
| `Parameters.ScalarPassed` | homestar-wasm/src/wasmtime/ipld.rs:170-283 | What a parameter that is no list gets, whatever its type: the text of a string, of null, of a CID, of bytes in base 64, or the truth value or number itself; a list stands for its first element |
| `Parameters.ValuePassesOn` | homestar-wasm/src/io.rs:107-125 | A value one task returns is the value the task that awaits it is called with, at a parameter of its type, if and only if its text is canonical |
| `Parameters.ResultsPassOn` | homestar-wasm/src/io.rs:107-125 | Several results of one type arrive as a list of them, under the same condition |
| `Parameters.VoidAndChar` | homestar-wasm/src/io.rs:107-125 | A function without a result is awaited as null, a char as text of one character |
| `Parameters.ValueReadsBack` | homestar-wasm/src/io.rs:45-58 | A component value found for a link reads as IPLD that lowers back to it if and only if its text is canonical |
| `Execution.NoPromisePassed` | homestar-wasm/src/wasmtime/world.rs:185-191 | A call that is made passes no unresolved promise |
| `Execution.SucceedsAsResolved` | homestar-wasm/src/wasmtime/world.rs:173-195 | A call that succeeds on partly resolved arguments gives what it gives on fully resolved ones |
| `Wit.LowerItems` | homestar-wasm/src/wasmtime/ipld.rs:252-272 | A list lowers if and only if all its items do, item by item |
| `Wit.LowerEntries` | homestar-wasm/src/wasmtime/ipld.rs:314-327 | A map lowers if and only if all its entries do, entry by entry |
| `Wit.LiftItems` | homestar-wasm/src/wasmtime/ipld.rs:423-430 | A list lifts if and only if all its items do, item by item |
| `Wit.LiftEntries` | homestar-wasm/src/wasmtime/ipld.rs:381-406 | A list of pairs lifts if and only if all its entries do, entry by entry |
| `Wit.LowerTyped` | homestar-wasm/src/wasmtime/ipld.rs:170-337 | Lowering at a type gives a value of that type if and only if the IPLD value fits it |
| `Wit.LiftsExactly` | homestar-wasm/src/wasmtime/ipld.rs:340-440 | Which values lift |
| `Wit.LiftsLast` | homestar-wasm/src/wasmtime/ipld.rs:381-406 | A list of pairs lifts to the map in key order that has for each key the value of the last pair with it |
| `IpldModel.LessExactly` | homestar-wasm/src/wasmtime/ipld.rs:381-406 | Keys are in the lexicographic order of a BTreeMap |
| `Wit.RoundTripExactly` | homestar-wasm/src/wasmtime/ipld.rs:170-440 | Lowering and lifting gives the IPLD value back if and only if the value and the type avoid the ambiguous forms, for every type and nesting depth |
| `Wit.RoundTripList` | homestar-wasm/src/wasmtime/ipld.rs:252-272 | That for lists |
| `Wit.RoundTripMap` | homestar-wasm/src/wasmtime/ipld.rs:284-332 | That for maps as lists of pairs |
| `WitFixpoint.LowerBuilds` | homestar-wasm/src/wasmtime/ipld.rs:170-337 | Whatever lowering gives is a value with consistent element types and ascending keys |
| `WitFixpoint.LiftThenLower` | homestar-wasm/src/wasmtime/ipld.rs:340-440 | A value of a liftable type lifts, and lowers to itself if and only if its strings are canonical |
| `WitFixpoint.OnePassFixedPoint` | homestar-wasm/src/wasmtime/ipld.rs:223-431 | If a value fits its type, lowering, lifting and lowering again gives the same WIT value if and only if no string in it is a non-canonical CID text, also for values that do not round trip |
| `Runner.SafeStep` | homestar-runtime/src/runner.rs:413-501 | Every step keeps each tracked worker's key live and its own, and ends no timer but those of the workflows it is about |
| `Runner.AlwaysSafe` | homestar-runtime/src/runner.rs:335-357 | So over every sequence of runs, collections, drops, expiries, aborts and cleanups, with reruns and reused keys |
| `Runner.MatchedExactly` | homestar-runtime/src/runner.rs:413-435 | A step keeps timers and workers in one-to-one correspondence if and only if it does not rerun a tracked workflow and no worker finishes between the two passes of a collection |
| `Runner.AlwaysMatched` | homestar-runtime/src/runner.rs:413-501 | So over every run without such a step |
| `Runner.LeakedTimerAborts` | homestar-runtime/src/runner.rs:737-745 | After a rerun the old timer is still live, and its expiry aborts the rerun and cancels its timer |
| `Runner.LateDropAborts` | homestar-runtime/src/worker.rs:507-516 | The message of an ended worker, handled after its workflow was rerun, aborts the rerun and its tasks |
| `Runner.LateDropExactly` | homestar-runtime/src/worker.rs:507-516 | Over every run between a worker's start and the message that it ended: the message aborts another worker if and only if a later run of the workflow is still tracked |
| `Runner.NothingLost` | homestar-runtime/src/runner.rs:413-510 | Over every run each handle the runner was given can be aborted, was aborted, has ended or was overwritten by a rerun; and nothing else is aborted |
| `Runner.HandlesKept` | homestar-runtime/src/runner.rs:413-510 | The same for every single step |
| `Runner.ForgetsExactly` | homestar-runtime/src/runner.rs:413-435 | After a collection nothing that ended can be aborted any more if and only if its passes saw all of it |
| `Runner.CollectedForGood` | homestar-runtime/src/runner.rs:413-435 | Whatever ran before and after: what had ended before such a collection is in no table afterwards, unless its handle is handed out again |
| `Runner.RerunOrphans` | homestar-runtime/src/runner.rs:743-745 | The worker whose handle a rerun overwrites is not aborted in any continuation |
| `Runner.ShutdownAborts` | homestar-runtime/src/runner.rs:448-485 | At shutdown everything that was started, has not ended and was not overwritten is aborted |
| `Runner.RunLoop` | homestar-runtime/src/runner.rs:245-395 | The loop over any steps keeps timers safe, matched to workers if nothing leaks, and loses no handle but as above |
| `Runner.RemoveTimers` | homestar-runtime/src/runner.rs:424-429 | The first pass of a collection removes exactly the timers of finished workers |
| `Runner.Runner.constructor` | homestar-runtime/src/runner.rs:167-214 | The tables start empty |
| `Runner.Runner.RunWorker` | homestar-runtime/src/runner.rs:732-745 | A timer is added and the worker tracked under its CID, replacing an entry that is there |
| `Runner.Runner.AppendOrInsert` | homestar-runtime/src/runner.rs:94-100 | The runner can abort what it could abort before and the new handles, and no others; timers stay safe |
| `Runner.Runner.Gc` | homestar-runtime/src/runner.rs:413-435 | After a collection exactly the workers not found finished by the second pass are tracked, exactly the timers of workers found finished by the first are gone, exactly the tasks not found finished are left, and no workflow with none |
| `Runner.Runner.AbortWorker` | homestar-runtime/src/runner.rs:335-342 | A dropped worker loses its entry, its timer and its tasks, exactly its handle and those of its tasks are aborted, and no other workflow is touched; one that is not tracked changes nothing |
| `Runner.Runner.OnExpired` | homestar-runtime/src/runner.rs:347-357 | An expired timer does the same to the workflow it names |
| `Runner.Runner.AbortWorkers` | homestar-runtime/src/runner.rs:448-485 | Everything the runner can abort is aborted; the tables stay |
| `Runner.Runner.CleanupWorkers` | homestar-runtime/src/runner.rs:458-473 | All tables and the queue are empty, and nothing is aborted by it |
| `Outcomes.ResponseAccounting` | homestar-runtime/src/event_handler/swarm_event.rs:530-712 | Over every event sequence: a record query's channel gets at most one response, a provider query's at most one error or at most one response per provider found, a provide query's none; with nothing pending exactly one, or exactly one per provider; each about the key asked for; each with the outcome the event said; and the providers asked are exactly those found, without the local peer |
| `Outcomes.HeardExactly` | homestar-runtime/src/event_handler/swarm_event.rs:530-712 | Over every event sequence a channel heard exactly what some event said to it: that the record found for its query decodes or does not, that its query failed, or what a provider asked for it answered |
| `Outcomes.SucceedsExactly` | homestar-runtime/src/event_handler/swarm_event.rs:570-630 | A channel heard of a record if and only if the result that ended its query was a record that decodes |
| `Outcomes.SoughtExactly` | homestar-runtime/src/event_handler/swarm_event.rs:530-567 | The providers asked for a channel are exactly those found for its query, without the local peer |
| `Outcomes.FirstInFirstOut` | homestar-runtime/src/event_handler.rs:283-300 | Over every event sequence messages are handled in the order they came, none lost and none made up, and each provider found gets one request |
| `EventAccounts.StepKeeps` | homestar-runtime/src/event_handler/swarm_event.rs:530-712 | Every event keeps what a channel is owed in one place: the channel, a query, a request or a response |
| `EventAccounts.StepHolds` | homestar-runtime/src/event_handler/swarm_event.rs:530-712 | No event loses what a channel is owed |
| `EventAccounts.StepAbout` | homestar-runtime/src/event_handler/swarm_event.rs:954-1011 | Every event keeps what is under way for a channel about the key it was made for |
| `EventAccounts.OriginsAre` | homestar-runtime/src/event_handler/swarm_event.rs:954-1011 | A channel got exactly the responses sent to it, each once |
| `EventAccounts.Responses` | homestar-runtime/src/event_handler/swarm_event.rs:530-712 | What each event makes a channel hear, with its outcome, and that it comes from where nothing came before: a response straight from its query is its first, and no provider answers it twice |
| `EventAccounts.PendingExactly` | homestar-runtime/src/event_handler/swarm_event.rs:530-567 | Over every event sequence a query is pending, and its channel without a response, if and only if no result ended it; that there are no more providers, or that all are the local peer, does not end it |
| `EventAccounts.RequestPendingExactly` | homestar-runtime/src/event_handler/swarm_event.rs:954-1011 | Over every event sequence a request to a provider is pending, and its channel without that provider's response, if and only if the response did not arrive; that the provider could not be reached is not noticed |
| `EventLoop.EventHandler.constructor` | homestar-runtime/src/event_handler.rs:169-209 | No query or request is pending, and the account of channels is in order |
| `EventLoop.EventHandler.Turn` | homestar-runtime/src/event_handler.rs:283-300 | Every turn of the loop keeps what every channel is owed in exactly one place and about its key, and lets each channel hear exactly what the event says to it, success or failure, and nothing from where it heard before |
| `EventLoop.Serve` | homestar-runtime/src/event_handler.rs:283-300 | The handler's loop over any script of events: every channel heard what it is due and no more, exactly what the events said, each response is about its key, and once nothing is pending every channel heard all of it |

## Left out

- libp2p, Kademlia, gossip, mDNS and IPFS: only the events they deliver, in any order.
- wasmtime: instantiation, fuel, host functions and component calls are one opaque partial function.
- Hashing, CBOR and JSON bytes, base64, CID text: opaque functions.
- `float32`: its rounding is an opaque function, so the round trips say nothing about rounded values; NaN and infinities are not reals and do not occur.
- The tag stack of `ipld.rs`: it is created empty and nothing in the modelled conversions pushes to it.
- `TryFrom<Ipld> for Input`, at `input.rs` lines 213-247: arguments are parsed through `Args`, which does not use it.
- Conversions of indexed resources, receipts, workflow info and capsules to and from IPLD and SQL: field copying around opaque codecs.
- SQLite setup, pools, pragmas, `update_local_name`, `find_receipt_*`: set-up and lookups by key.
- Progress counts in workflow info, and the `max` with the resume step: a count shown to users, which no decision of the runtime reads.
- Time: deadlines and timer durations are not modelled; a lookup may end without an answer and a timer may expire at any moment.
- `PutRecord` results, inbound requests, gossip handling and record storage in the event handler: these queries have no channel to answer.
- Shutdown apart from the abort of workers, RPC, CLI, web server, notifications, logging, metrics, settings, keys.
- RunQueue: the executor's choices are a script; when it ends before the tasks do the worker counts as aborted. The order in which tasks of other workers touch the shared database is modelled by gossip events only.
- BuildSchedule: proved against the contract of `dagga`, whose own code is not part of this model.
- ResumeRefinesFresh: asks that the resources arguments link to were fetched, because `DroppedLinkBreaks` is a run that commits another output otherwise, and that a link to a skipped task lead to the pivot, because `SkippedLinkBreaks` is one. `WellPosed` leaves out links inside arguments to tasks of the same or a later batch, where `NestedPromisesRace` shows that two runs can execute a task with different arguments, and links that only receipts from outside the workflow answer, where `NestedExactly` shows that two runs can resolve them differently.
- EntryLostExactly: like what rests on it, for tasks with at most one receipt. With more, `ScanCounts` says how many entries go and `LostFetchedExactly` what it takes when all of them do.
- ResourceFetchedExactly: like `LinksFetchedExactly`, exact if no two tasks of one batch share the resource; `KeeperFetched` is without that condition, and sufficient.
- Independence: like `CalmRunBetween`, about gossip that was foretold, because `GossipRaces` shows that other gossip changes the linkmap and the tables, and about runs in which no link inside an argument leads to a task of the same batch, because of `NestedPromisesRace`.
- AlwaysMatched: one direction over whole runs, because an expiry or a cleanup can restore the correspondence; `MatchedExactly` is exact for each step.
