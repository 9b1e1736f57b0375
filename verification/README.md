# Durable execution engine

A model, with proofs, of the sequential execution engine in `src/execution/` and of the static gate that admits a
graph to it.

An execution graph is validated with Kahn's algorithm and decomposed into tasks. A scheduler repeatedly takes the
first task that is ready, starts an attempt, registers and validates what the attempt produced, and skips or cancels
the rest when something fails. Every trace append is one commit of the whole run to a store. A new process can load
any committed snapshot and go on: successes whose outputs still validate are reused, an attempt left open is
reconciled with the backend, failures are preserved, and everything else is run.

## How the model is built

* `Machine` is the run as a transition system: one label is one trace append, and one append is one durable commit.
  `Invariants` holds the invariant `Good` (eleven parts) and shows each part inductive over every label.
* `Scheduling` says, as functions, which labels each method of the scheduler commits. `Sessions` and `Runs` show that a
  process only ever takes enabled labels and, unless an exception stops it, leaves no task stranded.
* `Chains` defines a history: a start and any number of resumes, each process cut off after any of its commits, with
  arbitrary executors, reconciliation answers and receipt checks, any order of the tasks, and any number of ids lost
  in the crash. `Durable` is what the store then holds. `Histories`, `Skips`, `Transparency`, `Outcomes`, `Reuse`,
  `Manifest`, `Readiness`, `Reports`, `Reruns`, `Remedies`, `Cancellations`, `Survival`, `Endings`, `Settlements`,
  `Annotations` and `Races` prove the theorems about all histories; `Refusals` is a small one. `Records` and `Evidence`
  say what one dispatch leaves on record, and what artifacts are judged by, without the functions that compute it.
* The mutable classes are in `Trace` (`TraceBuilder`), `Tracker`, `Store`, `Coordinator`, `Scheduler` and `Engine`.
  Every method of `Scheduler.SequentialScheduler` is proved to change memory and the store exactly as its function in
  `Scheduling` says, and `Engine.ExecutionEngine.StartRun` and `LoadAndResumeRun` to take a store that holds the
  durable state of one history to one that holds the durable state of the longer history. Both also return, as a ghost
  `trail`, every snapshot the store held on the way, and the k-th of them is shown to be what a crash after the k-th
  commit leaves, which is what `LoadAndResumeRun` asks of the snapshot it loads. So the theorems about histories are
  theorems about what the engine stores at any moment; `Engine.SnapshotsAreSound` spells some of them out.

The executor, the reconciliation port and the receipt check are functions in `Env`. Executor and reconciliation answers
may depend on the task and the attempt id, so every behaviour of theirs is covered, run by run. Attempt, event and
artifact ids come from one counter. Fingerprints are the payloads they digest; a list sorted by id is a multiset, which
for distinct ids is the same thing. An exception that ends a process is an `Err` result, and what is stored is then the
last commit.

## What the code does that may surprise

* `src/execution/scheduling.py:176-182` calls `_cancel_all` without the run state it requires, so a dispatch that ends
  CANCELLED raises right after its TASK_CANCELLED is committed. The model does the same (`Scheduling.Loop`): such a
  process counts as ended by an exception, next to engine errors, and the engine returns no result. A process gets there
  exactly when `Cancellations.CancelsAt` does, a simulation from the starting statuses, the next free id and the
  executor (`Cancellations.StartCancels`, `Cancellations.ResumeCancels`); what is stored is the history cut after that
  commit (`Cancellations.CancelledResumeIsStored`), and the next resume skips the rest and ends the run CANCELLED
  (`Cancellations.CancelledThenResumed`).
* RUN_RESUMED is appended to the unwrapped builder, so it is in the memory of the process that resumed and never in the
  store. `Machine.Mem` puts it in its place; the trace is valid with it and without it (`Histories.TracesAreValid`).
* A recorded success whose outputs no longer validate becomes pending while its result stays on record. Because of it,
  a report is not always constructible: its validator refuses it exactly when such a stale success is left at the end
  (`Reports.ReportExact`). Told from the stored state, that is exactly when some rejected success is not among the
  tasks the resume is going to start (`Reruns.ReportExactlyWhen`); which tasks those are, `Reruns.ResumeReruns`
  computes from the statuses, the next free id, the executor and one reconciliation answer. There is certainly no report
  when a failure or a cancellation is on record, or an open attempt that does not reconcile as a success
  (`Reruns.RejectedSuccessHasNoReport`); there certainly is one, whatever the executor does, exactly when no success is
  rejected but that of the task the resume starts first (`Reruns.ReportIsCertain`); and some executor gets one exactly
  when the resume is not barred from starting tasks or rejects nothing (`Remedies.EngineReportIsPossible`).
  `Refusals.StaleReportIsRefused` is a download and a training whose report, in the second process, is refused exactly
  when the dataset receipt is gone.
* Nothing but receipts can make a recorded success fail the reuse check, and only those of the artifacts that prove its
  required outputs (`Reuse.SuccessIsReusable`).
* `docs/architecture/EXECUTION_RUNTIME.md:160` promises an explicit, traceable recovery transition for a rejected
  success. The code makes none: neither the reload nor any commit of the resume says that the task became pending
  (`Survival.RejectionIsUntraced`).
* Lines 155-156 of that document keep skipped and cancelled tasks. The code keeps a cancelled task exactly when an
  attempt of it was cancelled, and never a skipped one: they are pending after a reload, or successful if they have a
  result on record that passes the reuse check (`Survival.SkippedIsForgotten`, `Survival.CancelledSurvivesWith`). While
  a failure or a cancelled attempt is on record, what is pending is skipped again (`Survival.BadEndIsFinal`), so a
  rejected success can be skipped by one resume and be a success again in the next
  (`Survival.SkippedSuccessComesBack`). A run cancelled at its start has no results, so `load_and_resume_run`, which
  does not look at the run status, runs it from scratch (`Survival.CancelledRunIsRun`).
* A dispatch puts an empty provisional result in place of the earlier one and merges the two only when it ends. If the
  process dies in between, the earlier attempts are still on record, but not the artifacts and errors they had
  (`Settlements.OpenForgets`); a process that goes on to the end loses nothing (`Settlements.RecordsGrow`).
* Input-blocking a task replaces its result, and with it the attempts it made earlier. Attempts are conserved all the
  same, because decomposed tasks have inputs that name no artifact: such a task is blocked in every process or in none.
* `load_and_resume_run` loads the snapshot (`src/execution/engine.py:281`) before it takes the writer
  (`src/execution/engine.py:236`). If another process commits in between, nothing is refused: the trace in the store then
  repeats sequence numbers, validly only if one of the two commits nothing (`Races.LateWriterBreaksTrace`), and the
  results lack the attempts the other one made (`Races.LateWriterForgetsAttempts`). The transitions these speak of are
  those the engine sends (`Races.EngineSends`), and taking the writer in turn stores them all (`Races.TakeTurns`).
* The fingerprints sort nodes by id, so a graph with its nodes in another order is accepted by a resume and runs the
  same tasks in another order (`Fingerprints.CompatibleGraphsRunTheSameTasks`). Histories allow for it; the order decides
  which tasks still run beside a failure, but not how the run ends (`Outcomes.OutcomeInAnyOrder`).

## Model

| member | source | states |
|---|---|---|
| Transparency.ResumeIsTransparent | src/execution/engine.py:277-300 | However often a run was crashed and resumed, after any commits, if all processes scan the tasks in the same order and agree on what executing a task leads to, no resume rejects a recorded success, and an open attempt reconciles as what it would have come to, a resume ends in the same statuses and run status as the run never interrupted. |
| Outcomes.OutcomeInAnyOrder | src/execution/scheduling.py:135-210 | The same without the common order, for the run status: SUCCESS exactly when every task can be fed and executing it leads to success, otherwise FAILED. |
| Outcomes.OutcomeOfStart | src/execution/scheduling.py:135-210 | A run never interrupted has the run status of that same condition. |
| Histories.AttemptsConserved | src/execution/scheduling.py:501-533 | In every stored state of every history, the attempts of each result are, in order, the attempts its trace started, and the totals agree. |
| Histories.AttemptsClosedOnce | src/execution/scheduling.py:547-728 | No attempt belongs to two results or twice to one, and each has exactly one closing event unless it is the last attempt of a result still running. |
| Histories.DependenciesComeFirst | src/execution/scheduling.py:431-443 | In every stored trace, a start comes after the completion of each dependency of the task, across any number of resumes. |
| Histories.TracesAreValid | src/execution/trace.py:11-39 | Every stored trace, and the one in memory with RUN_RESUMED, passes trace validation; sequences keep rising over reloads. |
| Annotations.StoredIsAnnotated | src/execution/scheduling.py:598-615 | In every stored state the registrations in the trace are those of the stored artifacts, in order, with task and attempt, each of an attempt that was started; an event that names a cause closes the attempt that its cause started; and every event names the task, the attempt and the reason that go with its kind, and no others. |
| Histories.FailFastForever | src/execution/scheduling.py:120-134 | After a TASK_FAILED or TASK_BLOCKED is stored no start follows, and any later resume, whatever ids the crash lost, starts nothing and ends FAILED. |
| Histories.FailureIsPermanent | src/execution/resume.py:166-171 | Resuming a state with a failed result starts no attempt, changes no result and ends FAILED whatever the collaborators answer. |
| Histories.AtMostOneOpen | src/execution/scheduling.py:135-182 | No stored state has two running tasks. |
| Histories.OpenAttemptIsNotRaced | src/execution/scheduling.py:233-285 | If the open attempt reconciles as still running, lost or unknown, the resume starts nothing, keeps all results and artifacts, and ends INTERRUPTED or RECONCILIATION_REQUIRED accordingly. |
| Histories.FreshLogIsFaithful | src/execution/scheduling.py:156-182 | At every commit of a fresh run, replaying the stored trace gives exactly the stored statuses, and running, successful and failed tasks have results that say so. |
| Histories.StartedAtMostOnce | src/execution/scheduling.py:135-182 | In one process, however it is scheduled, TASK_STARTED is committed at most once for a task, and not at all once the task is past READY. |
| Runs.SessionTrail | src/execution/scheduling.py:59-210 | From any good memory a process takes enabled steps only and, unless an exception ends it, which an engine error and a cancelled dispatch do, ends with every task terminal and the matching run status, or stopped on one open attempt. |
| Runs.LoopTrail | src/execution/scheduling.py:135-182 | Unless an engine error or a cancelled dispatch ends it, the scheduling loop leaves every task terminal; no task stays pending. |
| Runs.NothingLeft | src/execution/scheduling.py:431-490 | On a graph with a ranking, when nothing is ready and nothing is input-blocked, nothing is pending. |
| Runs.IndeterminateOne | src/execution/scheduling.py:101-108 | The indeterminate list names exactly the running task, if there is one, and never two. |
| Endings.SessionEnds | src/execution/scheduling.py:184-202 | A process that no exception stops appends one closing event, as its last: RUN_COMPLETED exactly when every task succeeded, RUN_CANCELLED, RUN_INTERRUPTED or RUN_FAILED exactly with the run status it goes with; one that an exception stops appends none. |
| Endings.StoredEnding | src/execution/scheduling.py:184-202 | The stored trace of every history whose last process ran to its end ends in that event, in agreement with the stored run status and statuses. |
| Endings.RunStartsOnce | src/execution/scheduling.py:82-87 | Every stored trace creates the tasks, then, if anything was committed, starts the run, and does neither again however often the run is resumed. |
| Endings.ResumeIsRemembered | src/execution/engine.py:217-224 | A resumed process remembers one event more than it stores, RUN_RESUMED, between what was stored and what it commits. |
| Invariants.GoodStep | src/execution/scheduling.py:59-210 | Every enabled commit keeps all eleven parts of the invariant. |
| Invariants.GoodRuns | src/execution/scheduling.py:59-210 | The invariant holds after any sequence of enabled commits. |
| Invariants.ConservedStep | src/execution/scheduling.py:501-533 | One commit keeps results and started attempts in agreement. |
| Invariants.ClosedOnceStep | src/execution/scheduling.py:547-728 | One commit keeps each attempt closed exactly once or open. |
| Invariants.FailureStep | src/execution/scheduling.py:171-174 | One commit keeps starts away from recorded failures. |
| Invariants.WellTracedStep | src/execution/trace.py:75-105 | One commit keeps the stored trace and the one in memory valid. |
| Invariants.ReusableStep | src/execution/artifacts/in_memory.py:430-467 | One commit keeps every recorded success provable from the stored artifacts. |
| Chains.ChainGood | src/execution/engine.py:206-216 | Every stored state of every history satisfies the invariant. |
| Chains.HistoriesGoOn | src/execution/engine.py:277-300 | Every plan has a history cut off after each number of commits its process makes, and every history one for each number of commits its resume makes, and no others. |
| Chains.ReloadGood | src/execution/engine.py:206-224 | Reloading a good state into a new process gives a good memory. |
| Machine.LabelsAreLegal | src/execution/transitions.py:66-80 | Every commit moves every task along the ordinary status table or not at all, so no InvalidTransitionError is raised. |
| Transitions.WalksAreShort | src/execution/transitions.py:8-80 | However calls with and without recovery are mixed, a status changes at most three times, and no call can change it further exactly when it is terminal. |
| Transitions.MovesExactly | src/execution/transitions.py:8-80 | A task that has not ended may take the next step or fail or be cancelled, and be skipped while it is not running; recovery lets a pending task take any other status, and changes nothing else. |
| Transitions.SuccessTakesAllSteps | src/execution/transitions.py:8-37 | Without recovery a pending task succeeds only through READY and RUNNING. |
| Skips.PropagationIsExact | src/execution/scheduling.py:790-813 | When one task has just failed, the propagation fixpoint skips exactly the tasks that reach it over dependencies. |
| Skips.FreshSkipsAreExact | src/execution/scheduling.py:171-174 | In a fresh run in which a task failed, the tasks its trace calls skipped as blocked by it are exactly its descendants, and all other skipped tasks are called fail-fast. |
| Skips.PriorSkipsSayWhy | src/execution/scheduling.py:120-134 | What a resume beside a recorded failure or cancellation skips, its trace says it skips for the prior terminal state. |
| Graphs.IsAcyclic | src/execution/validation.py:89-130 | The queue algorithm accepts exactly the graphs that have a topological ranking, which are exactly those in which no id is its own ancestor, repeated dependency entries included. |
| Graphs.Tabulate | src/execution/validation.py:90-95 | The indegree table counts every dependency entry, and each adjacency list holds a child once per entry. |
| Graphs.ReleaseChildren | src/execution/validation.py:99-105 | Decrementing the children keeps each count equal to the entries still waiting and queues an id exactly when its count reaches zero. |
| Planning.ValidateExecutionGraph | src/execution/validation.py:39-66 | Accepts exactly the graphs with identity, nodes, distinct ids, known dependencies and a ranking, and names the first of these that is missing. |
| Planning.ValidateTaskDag | src/execution/validation.py:69-86 | Accepts exactly the task lists with distinct ids, known dependencies and a ranking, and names the first of these that is missing. |
| Decomposition.Decompose | src/execution/decomposition.py:87-153 | Succeeds exactly on accepted graphs whose nodes make valid tasks. Each task takes over, field by field, its node's id, dependencies, title, rationale or else title, stage, spec, bindings and assets, and promises the one required output of its stage; there is one TASK_CREATED event a task, numbered in order. |
| Decomposition.MadeAlike | src/execution/decomposition.py:98-131 | Two nodes make the same task exactly when they agree on all of that; only a rationale that repeats the title may be missing in one of them. |
| Decomposition.InputsForNode | src/execution/decomposition.py:64-84 | Bindings first, then assets; none names an artifact, and bindings are required only without an executable spec. |
| Decomposition.DecomposedIsAccepted | src/execution/decomposition.py:148 | The task DAG of an accepted graph is accepted. |
| Decomposition.SameAncestors | src/execution/decomposition.py:96-131 | A task is an ancestor of another exactly when its node is an ancestor of the other's node. |
| Decomposition.DecomposedPlanIsValid | src/execution/decomposition.py:87-153 | The plan made from an accepted graph meets everything the scheduler theorems assume. |
| Decomposition.TaskIdInjective | src/execution/decomposition.py:22-24 | Different nodes get different task ids. |
| Readiness.AncestorIds | src/execution_materialization/validation.py:163-173 | The worklist computes exactly the ids reachable over dependencies, and fails exactly when an unknown id is reachable. |
| Readiness.ValidateReadiness | src/execution_materialization/validation.py:19-128 | READY exactly when the nodes are complete, every working directory's clone is an ancestor and every node result is ready; otherwise UNSUPPORTED or BLOCKED as the errors and results say. The report lists exactly the errors there are: of the graph, of single nodes, of producers that come too late, and of results that are not ready. |
| Readiness.CheckNodes | src/execution_materialization/validation.py:30-87 | No errors exactly when every node is complete; the producer of a directory is the clone recorded last for it. |
| Readiness.ProducerIsLast | src/execution_materialization/validation.py:86-87 | The producer of a directory is the last node that clones into it. |
| Readiness.CheckProducers | src/execution_materialization/validation.py:89-104 | No errors exactly when every producer of a working directory is an ancestor of the node working there. |
| Readiness.CloneRunsFirst | src/execution_materialization/validation.py:89-104 | On a READY graph, in every history, a node working in a cloned directory starts only after that clone completed. |
| Readiness.AncestorsComeFirst | src/execution/scheduling.py:408-443 | In every stored trace all ancestors of a started task, not only its dependencies, completed before the start. |
| Readiness.AdmittedNeverBlocks | src/application/platform_execution.py:238-263 | No history of a graph that passed the gate contains TASK_BLOCKED. |
| Decomposition.StarvedNode | src/execution/decomposition.py:64-74 | A task can never be fed exactly when its node has bindings and no executable spec. |
| InputResolver.ResolveInputs | src/execution/input_resolver/in_memory.py:16-91 | One entry an input; ready exactly when nothing blocks, which is exactly when required inputs are valid and all dependencies succeeded; the blocking dependencies are exactly the unsuccessful ones. |
| Sessions.StaticReady | src/execution/scheduling.py:415-428 | For tasks whose inputs name no artifact the resolver agrees with the dependency check unless a required input can never be filled. |
| Verdicts.DispatchVerdict | src/execution/scheduling.py:491-728 | Whether a dispatch aborts, and the status it gives the task, is determined by the executor's report alone. |
| Verdicts.ReconcileVerdict | src/execution/scheduling.py:233-407 | One reconciliation round either ends the process and touches nothing else, or closes the open attempt with the status that the answer, and for a reported success the stored artifacts, determine. |
| Records.DispatchRecords | src/execution/scheduling.py:491-789 | Every candidate becomes an artifact that carries it. For a failed, cancelled or rejected report the result lists the ids it listed before and then exactly those of this attempt, for a success those of the newest artifact of each declared output; the reported errors follow the earlier ones, with the code of a rejection before them and one code of its own where a failure brought none; the summary is the reported reason; the closing event names the TASK_STARTED of the attempt as its cause. An executor exception adds its error and nothing else. |
| Settlements.OpenAttemptIsSettled | src/execution/scheduling.py:233-406 | The attempt a resume finds open ends with the attempts, ids and errors on record kept, followed by the error the backend brought or the default one, by the code of a rejected success, or by nothing; a success lists the newest artifact of each declared output. Its closing event has no cause and notes the reconciliation; an answer that settles nothing leaves the result alone, and the last event says why the process stopped. |
| Settlements.RecordsGrow | src/execution/scheduling.py:155-163 | No resume loses anything on record: each result ends with the attempts, ids and errors it had and what was added after them, unless an exception left a new attempt of its task open. |
| Settlements.OpenForgets | src/execution/scheduling.py:511-525 | A stored open attempt remembers all earlier attempts of its task, and neither the artifacts nor the errors they had. |
| Settlements.UnfedRecord | src/execution/scheduling.py:466-488 | A stored task with a required input that nothing can fill has no result, or one without attempts whose one error says so. |
| Settlements.TerminalStays | src/execution/transitions.py:8-37 | Whatever a process commits, a task that reached a terminal status keeps it, and its result. |
| Artifacts.ValidatePromotes | src/execution/artifacts/in_memory.py:156-298 | Validation changes nothing but the validity of the attempt's own artifacts, whatever its verdict. |
| Artifacts.ValidateAccepts | src/execution/artifacts/in_memory.py:172-298 | Accepted ids are the newest artifacts of the declarations, valid afterwards, with one for every required output. |
| Artifacts.ValidatedSatisfies | src/execution/artifacts/in_memory.py:430-467 | A result whose outputs were accepted passes the reuse check, older attempts' artifacts notwithstanding, exactly while the receipt of the artifact that proves each required output holds, and always in a tracker that looks for no receipts. |
| Artifacts.ReuseNeedsReceipts | src/execution/artifacts/in_memory.py:400-467 | When a result lists one artifact of its last attempt per name, as every recorded success does, nothing but the receipts of the proving artifacts decides whether it is reused. |
| Artifacts.ValidatedOnce | src/execution/artifacts/in_memory.py:172-298 | After an accepting validation the result lists at most one artifact of its last attempt per name. |
| Artifacts.SatisfiesStable | src/execution/artifacts/in_memory.py:430-467 | The reuse check looks only at artifacts of the result's last attempt. |
| Evidence.JudgeExactly | src/execution/artifacts/in_memory.py:172-298 | An artifact is accepted exactly when rule, kind, scope, owner, location, digest and state are in order; a missing one is passed over exactly when it is optional; validation stops at an unknown rule or at an artifact that is foreign, unsafe or of the wrong digest, and otherwise goes on and fails in the end. |
| Evidence.PromotedExactly | src/execution/artifacts/in_memory.py:156-298 | Validation makes valid exactly what it accepts before it stops, whatever its verdict. |
| Evidence.SatisfiesExactly | src/execution/artifacts/in_memory.py:430-467 | A result is reusable exactly when it is of this run and task, has an attempt, and for each required output the first listed artifact of the last attempt that is as declared, valid, safe and with its receipt has the right digest. |
| Tracker.ArtifactTracker.RegisterCandidate | src/execution/artifacts/in_memory.py:96-152 | Refuses exactly unsafe locations, leaving everything as it was; otherwise stores the candidate unchecked under a fresh id. |
| Tracker.ArtifactTracker.ValidateRequiredOutputs | src/execution/artifacts/in_memory.py:156-298 | Result and promoted artifacts are those of the specification, on the raising paths too. |
| Tracker.ArtifactTracker.ByName | src/execution/artifacts/in_memory.py:172-179 | The dictionary by name holds the newest artifact of the attempt under each name. |
| Tracker.ArtifactTracker.ResultSatisfiesRequiredOutputs | src/execution/artifacts/in_memory.py:430-467 | True exactly when the result is of this run and task, has an attempt, and each required output is proven by the first listed matching artifact of the last attempt. |
| Tracker.ArtifactTracker.Invalidate | src/execution/artifacts/in_memory.py:308-330 | Refuses an unknown id; otherwise marks that artifact invalid in place. |
| Tracker.InvalidatedOnly | src/execution/artifacts/in_memory.py:308-330 | Invalidating one artifact leaves the lookup of every other as it was. |
| Tracker.ArtifactTracker.HydrateArtifacts | src/execution/artifacts/in_memory.py:422-425 | Each stored artifact is put under its id, in order. |
| Tracker.HydrateFresh | src/execution/artifacts/in_memory.py:422-428 | Hydrating an empty tracker from a stored list and listing it again gives the same list. |
| Tracker.HydrateTwice | src/execution/artifacts/in_memory.py:422-425 | Hydrating what is already there changes nothing. |
| Trace.ValidateTraceEvents | src/execution/trace.py:11-39 | Accepts exactly the traces of one run with distinct ids, rising sequences, causes that came earlier and conclusions of attempts started earlier; otherwise names the first check that the first bad event fails. |
| Trace.TraceBuilder.Create | src/execution/trace.py:45-65 | A builder is made exactly from a valid history, and goes on one past its largest sequence number. |
| Trace.TraceBuilder.Append | src/execution/trace.py:75-105 | Appends one event with a fresh id and the next sequence, or refuses and keeps events and sequence. |
| Trace.TraceBuilder.Build | src/execution/trace.py:107-118 | Returns the events exactly when they validate. |
| Store.ExecutionStore.CreateRun | src/execution/persistence/in_memory.py:30-33 | Refuses an existing run; otherwise adds exactly the given snapshot. |
| Store.ExecutionStore.LoadSnapshot | src/execution/persistence/in_memory.py:35-39 | The stored snapshot, or not found. |
| Store.ExecutionStore.CommitTransition | src/execution/persistence/in_memory.py:41-71 | Writer, then run, then replay, then the commit's own checks; a replay returns the revision and changes nothing, a commit replaces the snapshot of this run only. |
| Store.ExecutionStore.SaveReport | src/execution/persistence/in_memory.py:73-76 | Sets the report of the run's snapshot and nothing else, for the writer only. |
| Store.ExecutionStore.AcquireWriter | src/execution/persistence/in_memory.py:99-103 | One writer a run; a second acquisition is refused without effect. |
| Store.ExecutionStore.ReleaseWriter | src/execution/persistence/in_memory.py:105-106 | The run has no writer afterwards, the others keep theirs. |
| Store.RevisionCounts | src/execution/persistence/in_memory.py:57-58 | Whatever commits are delivered, the revision is the number of committed transitions and never falls. |
| Store.ReplayIsIdempotent | src/execution/persistence/in_memory.py:44-45 | Delivering any stretch of a journal again, after all of it was delivered, changes nothing. |
| Store.JournalIsStored | src/execution/persistence/in_memory.py:50-69 | A journal of well-formed transitions with fresh ids is stored without loss: all its events in order, one revision each, exactly its ids added. |
| Store.LastWordIsStored | src/execution/persistence/in_memory.py:50-71 | Run, statuses and results of the snapshot are those of the last transition, its artifacts and report those of the last one that had any. |
| Store.AnswerIsRevision | src/execution/persistence/in_memory.py:41-71 | A commit answers with the revision the snapshot then has, or with the reason the transition was refused. |
| Coordinator.TransitionCommitter.Commit | src/execution/persistence/coordinator.py:51-73 | Does nothing when nothing is pending; without a writer or a run it is refused and changes nothing; otherwise one commit named after the last pending event, and pending is cleared exactly when the store accepts. |
| Coordinator.PersistingTraceBuilder.Append | src/execution/persistence/coordinator.py:98-126 | After an append nothing is pending, the store holds the trace in memory minus RUN_RESUMED, one event and one revision more, and the snapshot says what memory says, as all earlier ones did at their commits; only an ill-formed event is refused. |
| Scheduler.SequentialScheduler.Run | src/execution/scheduling.py:59-210 | Does to memory and store exactly what the session function says, and returns the final state, trace and manifest exactly when no exception ended it and the trace validates; an exception comes out as the one the last attempt of a task caused: an engine error or unsafe location with the attempt open, or the missing argument with the attempt cancelled. |
| Scheduler.SequentialScheduler.RunSession | src/execution/scheduling.py:86-182 | RUN_STARTED once, cancellation at start, reconciliation, prior failures, then the loop, in that order. |
| Scheduler.SequentialScheduler.RunLoop | src/execution/scheduling.py:135-182 | The loop terminates, commits exactly the labels of the loop function, and passes on the exception that ended it; a cancelled dispatch is one, raised with its TASK_CANCELLED committed. |
| Scheduler.SequentialScheduler.DispatchTask | src/execution/scheduling.py:491-728 | Commits exactly the labels of the dispatch function and returns the recorded result, or leaves with the last commit standing. |
| Scheduler.SequentialScheduler.RegisterCandidates | src/execution/scheduling.py:592-617 | Registers candidates in order, one commit each, up to the first unsafe location. |
| Scheduler.SequentialScheduler.ConcludeOutcome | src/execution/scheduling.py:618-728 | Cancelled, failed, rejected by validation or successful, in that order of precedence, each with its status, result and event. |
| Scheduler.SequentialScheduler.ReconcileIndeterminateTasks | src/execution/scheduling.py:211-407 | Each reported state has its effect, with the error the backend brought or the default one; still running, lost and unknown stop the process. |
| Scheduler.ReadyTaskIds | src/execution/scheduling.py:408-430 | Exactly the pending tasks with successful dependencies and resolved inputs, in task order. |
| Scheduler.SequentialScheduler.FailFirstInputBlocked | src/execution/scheduling.py:445-490 | Fails and reports the first pending task that waits only for an input, or changes nothing. |
| Scheduler.SequentialScheduler.PropagateSkips | src/execution/scheduling.py:790-813 | The sweeps end and leave the fixpoint. |
| Scheduler.SequentialScheduler.SkipRemainingPending | src/execution/scheduling.py:814-829 | Skips every pending task, in order, with the given reason. |
| Scheduler.SequentialScheduler.SkipTasks | src/execution/scheduling.py:830-847 | Skips those of the listed tasks that are pending, in order. |
| Endings.SkipTasksExactly | src/execution/scheduling.py:830-847 | The listed pending tasks are skipped, and nothing else changes. |
| Scheduler.SequentialScheduler.CancelAll | src/execution/scheduling.py:848-884 | Cancels every unfinished task in order and ends the run CANCELLED. |
| Endings.CancelAllExactly | src/execution/scheduling.py:848-884 | Every listed task that has not ended is cancelled and every other keeps its status; results and artifacts stay, and the run is CANCELLED. |
| Scheduling.BuildResult | src/execution/scheduling.py:729-789 | A result carries the given attempts, the prior artifacts with the new ones added once, and the prior errors first with every new one after them; a failure always has a summary. |
| Manifest.ArtifactIdsFromResults | src/execution/scheduling.py:885-915 | Distinct ids, in task order and in the order of their first listing, exactly those still valid, declared, and made by the last attempt of a recorded success. |
| Evidence.ListedExactly | src/execution/scheduling.py:885-915 | An id is listed exactly when a recorded success lists it and it is, for one of the declared outputs, such an artifact. |
| Manifest.ManifestIsUnique | src/execution/scheduling.py:885-915 | There is only one such list. |
| Manifest.EachOutputListedOnce | src/execution/scheduling.py:885-915 | The one id that proves a required output of a recorded success is listed for it exactly when its receipt holds, and no other id ever is. |
| Reports.AssembleReport | src/execution/report.py:45-104 | Counts, results, attempts, errors, skipped and cancelled tasks are those of the final state. |
| Reports.ReportSays | src/execution/report.py:45-104 | Told task by task: how many tasks have each status, which were skipped and which cancelled, every result and every error of theirs and no other, and as many attempts as the trace started. |
| Reports.ValidateReport | src/models/execution_engine.py:706-727 | Accepts exactly the reports whose counts, attempts, owners and failure evidence agree. |
| Reports.ReportExact | src/execution/report.py:45-119 | The report of an ended process is accepted exactly when no stale success is left in its memory; it says SUCCESS exactly when all tasks succeeded, and counts the starts in the trace. |
| Reports.FreshReportExists | src/execution/engine.py:151-165 | Every fresh run that no exception ended, neither an engine error nor a cancelled dispatch, has an accepted report; when those happen, `Reruns.LoopStarts` and `Cancellations.StartCancels` say. |
| Reports.ResumedReportExists | src/execution/engine.py:247-261 | So has every such resume that rejected no recorded success. |
| Reruns.ReportExactlyWhen | src/execution/engine.py:247-261 | From the stored state: a resume is ended by an exception exactly when the tasks it is going to start say so, and otherwise its report is accepted exactly when every rejected success is one of them. |
| Reruns.ResumeStarts | src/execution/scheduling.py:59-210 | The tasks a resume starts, and whether an engine error or a cancelled dispatch ends it, are those computed from the reloaded statuses, the id supply, the executor and the answer about the open attempt. |
| Reruns.LoopStarts | src/execution/scheduling.py:135-182 | The same for the scheduling loop, with the attempt id each task will get. |
| Reruns.StaleRuns | src/execution/scheduling.py:501-533 | Whatever commits follow, a stale success is stale until its task is started again, and no task ever becomes stale in a process. |
| Reruns.ReportFollowsVerdicts | src/execution/engine.py:247-261 | When executing a task leads to the same status at any attempt: an exception exactly when a task it starts is cancelled, and otherwise a report exactly when every rejected success is SUCCESS or FAILED in the statuses the run is heading for. |
| Reruns.ReportIsCertain | src/execution/resume.py:148-158 | Every executor that causes no exception gives a report exactly when no success is rejected but that of the first task to start. |
| Remedies.ReportIsPossible | src/execution/resume.py:148-158 | If every task can succeed, some executor gives a report exactly when the resume is not barred from starting tasks, or rejects nothing. |
| Remedies.EngineReportIsPossible | src/execution/decomposition.py:34-61 | Every task decomposition makes can succeed, so for what the engine runs, in every stored state of every history, the same holds outright. |
| Remedies.CanSucceedExactly | src/execution/artifacts/in_memory.py:172-298 | A task can succeed exactly when all its outputs have known rules and the required ones the scope the scheduler registers under. |
| Reruns.BarredReport | src/execution/resume.py:148-158 | A resume barred from starting tasks is ended by no exception, and its report is accepted exactly when it rejects nothing. |
| Reruns.RejectedSuccessHasNoReport | src/execution/resume.py:148-158 | No resume has a report that rejected a success beside a recorded failure or cancellation, or beside an open attempt that does not reconcile as a success. |
| Reruns.BarredWhen | src/execution/scheduling.py:101-134 | A resume is kept from starting anything exactly by such a record. |
| Cancellations.LoopCancels | src/execution/scheduling.py:174-182 | From any calm memory the loop stops on a cancelled dispatch exactly when the simulation does, with TASK_CANCELLED of that attempt as its last commit and no other task cancelled; otherwise it cancels nothing. |
| Cancellations.StartCancels | src/execution/scheduling.py:174-182 | For a fresh run the same, told before it begins; what is stored is the history cut after that commit. |
| Cancellations.ResumeCancels | src/execution/scheduling.py:174-182 | For a resume that may start tasks, exactly when it is left by a cancelled dispatch, told from the stored state. |
| Cancellations.CancelledResumeIsStored | src/execution/scheduling.py:174-182 | What is stored after such a resume of any history is that history cut after its TASK_CANCELLED. |
| Cancellations.CancelledThenResumed | src/execution/scheduling.py:120-134 | With a cancelled attempt on record no exception ends a resume; it starts nothing, keeps results and artifacts and that task CANCELLED, skips what the reload made pending, and ends the run CANCELLED. |
| Refusals.StaleReportIsRefused | src/models/execution_engine.py:708-713 | A graph the engine accepts, and two processes: a dataset is downloaded, the process dies with the training started, and the resume finds the training still running. Its report is accepted exactly while the dataset receipt is there. |
| Refusals.ExampleIsPlanned | src/execution/decomposition.py:87-153 | The two tasks of that example are what the engine plans for a graph of one download and one training. |
| Survival.SkippedIsForgotten | src/execution/resume.py:140-179 | After a reload a skipped task is SUCCESS exactly when its result, if it has one, passes the reuse check, and PENDING otherwise. |
| Survival.CancelledSurvivesWith | src/execution/resume.py:140-179 | A cancelled task is CANCELLED after a reload exactly when its result is, and then an attempt was made; otherwise it fares like a skipped one. |
| Survival.RejectionIsUntraced | src/execution/engine.py:206-224 | A rejected success becomes pending with its result and the trace as they were, and no event the resume commits names PENDING. |
| Survival.BadEndIsFinal | src/execution/scheduling.py:120-134 | With a failure or cancellation on record a resume keeps results and artifacts, and ends with every task pending after the reload skipped and the others as they were. |
| Survival.SkippedSuccessComesBack | src/execution/resume.py:148-158 | A success that such a resume rejected and skipped keeps its result, and is a success again after a later reload exactly when the receipts of its proofs hold then. |
| Survival.CancelledRunIsRun | src/execution/scheduling.py:88-100 | A run cancelled at its start is stored CANCELLED with every task cancelled; a resume starts from the statuses of a new run and starts the first ready task. |
| Survival.SkippedTasksAreStored | src/execution/scheduling.py:171-174 | A run whose first dispatch fails is stored with every other task skipped; a reload finds them pending, and the resume skips them again. |
| Races.LateWriterBreaksTrace | src/execution/engine.py:277-300 | Two resumes of one loaded snapshot, the second committing after the first gave the writer back: nothing is refused, and the stored trace is valid exactly when one of them commits nothing. |
| Races.LateWriterForgetsAttempts | src/execution/persistence/in_memory.py:50-69 | The stored results are then those of the second; they hold exactly the attempts the trace started for a task unless the first one started it. |
| Races.EngineSends | src/execution/persistence/coordinator.py:98-126 | What the engine has left in the store after any number of commits of a resume is what that many transitions make of the snapshot it loaded, and they are those the two results above are about. |
| Races.TakeTurns | src/execution/persistence/in_memory.py:41-106 | When one process takes the writer, commits a journal and gives the writer back, and then another does, neither is refused and the store holds both journals, delivered one after the other. |
| Reports.CountsAddUp | src/execution/report.py:55-57 | Status counts add up to the number of tasks. |
| Reuse.SuccessIsReusable | src/execution/engine.py:206-214 | In every stored state of every history a recorded success passes the reuse check exactly while the receipts of the artifacts that prove its required outputs hold, whatever the receipt check says of anything else. |
| Reuse.SucceededRunIsReused | src/execution/engine.py:206-216 | Resuming a run whose tasks all succeeded, none of them rejected, starts nothing, keeps results and artifacts, and ends SUCCESS. |
| Reuse.SucceededRunStartsNothing | src/execution/engine.py:206-216 | It starts nothing exactly when nothing is rejected, which is exactly when the receipts of every recorded success hold. |
| Reuse.SucceededRunKeepsManifest | src/execution/engine.py:206-216 | Its manifest is that of the stored run, id by id, when the receipt checks of the two processes say the same of the stored artifacts. |
| Resume.EvaluateResumeTasks | src/execution/resume.py:129-179 | Every task is, in task order and once, in exactly the lists its stored result calls for. |
| Resume.ApplyResumeReuse | src/execution/resume.py:182-204 | Each task gets the status of its list; no recovery transition is refused. |
| Resume.ReuseIsReload | src/execution/resume.py:129-204 | Evaluation and reuse together give every task the status of the reloaded machine state. |
| Fingerprints.AssertResumeCompatible | src/execution/resume.py:108-126 | Accepts exactly an equal graph id and version, with task and graph payloads equal where one is on file, and reports the first difference in that order. |
| Fingerprints.CompatibleGraphsRunTheSameTasks | src/execution/resume.py:32-82 | A graph with the stored task fingerprint runs exactly the stored tasks, in an order that is a permutation. |
| Fingerprints.TaskPrintsExactly | src/execution/resume.py:32-82 | Two accepted graphs have the same task fingerprint exactly when every node of one has a counterpart in the other that makes the same task. |
| Fingerprints.TaskPrintsAlike | src/execution/resume.py:37-79 | The fingerprint tells two tasks apart exactly when they differ in more than the hints of their outputs. |
| Fingerprints.GraphPrintsExactly | src/execution/resume.py:85-105 | Two accepted graphs have the same graph fingerprint exactly when graph id, strategy id and, node by node, id, stage, title, rationale and the multisets of dependencies, bindings and assets are equal. |
| Fingerprints.CompatibleExactly | src/execution/resume.py:108-126 | Both fingerprints together accept exactly the same graph of the same strategy, its nodes in any order. |
| Fingerprints.ReorderedGraphIsCompatible | src/execution/resume.py:85-105 | Listing the nodes in another order changes neither fingerprint. |
| Engine.ExecutionEngine.StartRun | src/execution/engine.py:81-179 | Refuses a bad graph, saying what is wrong with it first, an existing run and a held writer; otherwise stores the durable state of the one-process history, and before that, after each commit, the state a crash there leaves; one revision a commit, gives the writer back, touches no other run, and returns exactly when no exception ended it, be it an engine error or a cancelled dispatch, otherwise naming it. |
| Engine.ExecutionEngine.LoadAndResumeRun | src/execution/engine.py:181-300 | Refuses an unknown run, a bad graph, a held writer and any graph but that of the run with its nodes in any order, with the store as it was, naming the first difference; otherwise takes the durable state of a history, through each of those a crash leaves, to that of the longer one, and returns exactly when nothing aborts and every rejected success is started again, told from the stored state. |
| Engine.PrintsExactly | src/execution/engine.py:193-205 | The snapshot of any history is resumed with a graph exactly when it is the graph of the run, its nodes in any order. |
| Engine.ExecutionEngine.Drive | src/execution/engine.py:143-168 | Saves an accepted report and returns it, with the statuses, results, trace and manifest of the end, exactly when nothing aborted and nothing is stale; the writer is released on every path. |
| Engine.SnapshotsAreSound | src/execution/persistence/in_memory.py:41-71 | Every snapshot the engine leaves has a valid trace in dependency order without starts after a failure, and per task exactly the attempts that trace started. |

## Left out

- Invariants.GoodStep: covers tasks whose inputs name no artifact, which is all that decomposition makes; for other tasks an input-blocked failure could replace earlier attempts.
- Engine.ExecutionEngine.LoadAndResumeRun: a process is assumed to begin with an empty tracker, or with the stored artifacts in it, because the platform makes an engine and a tracker for each run (src/application/platform_execution.py:123, src/application/runtime/execution_wiring.py:78); a tracker shared by several runs would store their artifacts together. Loading and taking the writer are one step; `Races` says what another process committing between the two leads to.
- Engine.ExecutionEngine.StartRun: the same assumption about the tracker; and the run has its own id counter, starting at zero, because ids are only ever compared within one run.
- Scheduler.SequentialScheduler.ReconcileIndeterminateTasks: the list is taken in task order where the code follows the order of the stored results; reachable states have at most one entry.
- Coordinator.TransitionCommitter.Commit: results are committed and loaded as a table by task id, not as the tuple ordered by task.
- Fingerprints.AssertResumeCompatible: the engine passes it the version constant, which is what every run of this version of the program records.
- Histories.StartedAtMostOnce: the executor call itself is not an event; it follows each start within one dispatch.
- Scheduling.BuildResult: log references, metrics, backend name, and start and completion times of a result are not modelled.
- Reports.AssembleReport: durations, metrics, lineage and the summary text are not modelled.
- A receipt check that changes while a process runs: it is one function for each process, so a task that is run again and rewrites its own receipt is not modelled.
- Running without persistence, where nothing is ever stored.
- Timestamps, time zones, uuid generation and SHA-256, and with them the order of resumable runs by update time and the choice of a run to resume.
- Logs, metrics, metadata and size bounds of results, redaction and backend names.
- Of events: actors, and the parts of payloads other than reasons, what a skip is blocked by, and the id of a registered artifact.
- Of specifications: the fields that never reach a task (backend kind, template, provenance, source ids).
- Path normalisation and URI safety: a location carries the verdict of the safety check.
- The local executor, preparation commands, log files, receipt and digest reads: executor outcomes and one receipt check stand for them.
- The file store, its journal and lock files: the in-memory store is the persistence modelled.
- White space in labels is the ASCII white space only.
- Discovery, strategy and planning validators, agents, prompts, document parsing, command line, configuration and the legacy orchestrator: field checks and fixed chains of stages, with no state of a run.
