/** Value types of the execution engine: tasks, attempts, results, artifacts and trace events. */
module Model {
  datatype Option<+T> = None | Some(value: T)

  datatype Result<+T, +E> = Ok(value: T) | Err(error: E)

  type TaskId = string
  type RunId = string

  datatype Status = Pending | Ready | Running | Success | Failed | Skipped | Cancelled

  datatype RunStatus =
    | PendingRun | RunningRun | SuccessRun | FailedRun | CancelledRun
    | InterruptedRun | ReconciliationRequired

  /** What the backend says of an attempt; a reported failure may bring its own error. */
  datatype ReconciliationState =
    | StillRunning | Succeeded | ReportedFailed(error: Option<Failure>) | ReportedCancelled | Lost | Unknown

  datatype EventKind =
    | TaskCreated | TaskReady | TaskStarted | TaskCompleted | TaskFailed | TaskBlocked
    | TaskSkipped | TaskCancelled | ArtifactRegistered
    | RunStarted | RunInterrupted | RunResumed | RunCompleted | RunFailed | RunCancelled

  datatype Scope = RepositoryScope | RuntimeRun | External

  datatype Validity = Unchecked | Valid | Invalid

  /** A location reference together with the verdict of the path-safety check on it. */
  datatype Location = Location(ref: string, safe: bool)

  /** `artifactId` is None where the source holds the empty string. */
  datatype InputRef = InputRef(name: string, artifactId: Option<nat>, kind: string, required: bool, role: string)

  datatype OutputDecl = OutputDecl(name: string, kind: string, required: bool, scope: Scope, rule: string, hint: string)

  datatype Stage =
    | CloneRepository | PrepareEnvironment | DownloadDataset | DownloadCheckpoints
    | GenerateConfig | Training | Evaluation | Comparison

  /**
    What a task is to execute; dictionaries are lists of pairs, in the order in which they are written out.
    `target` is the target path of the typed preparation request inside `command`, if one parses.
  */
  datatype Spec = Spec(
    command: seq<string>,
    workingDirectory: string,
    environment: seq<(string, string)>,
    timeout: Option<string>,
    artifactPaths: seq<(string, string)>,
    target: Option<string>)

  /** The part of a task the scheduler never looks at. */
  datatype Payload = Payload(name: string, description: string, stage: Stage, bindings: seq<string>,
      assets: seq<string>, spec: Option<Spec>)

  datatype Task = Task(
    id: TaskId,
    deps: seq<TaskId>,
    inputs: seq<InputRef>,
    outputs: seq<OutputDecl>,
    payload: Payload)

  /** The tasks of one run. The order in which they are scanned is kept apart, in `Plan`. */
  datatype Dag = Dag(runId: RunId, tasks: map<TaskId, Task>)

  datatype Plan = Plan(dag: Dag, order: seq<TaskId>)

  datatype Failure = Failure(code: string, phase: string, task: TaskId, attempt: Option<nat>)

  /** Attempt, event and artifact ids are drawn from one supply of fresh numbers. */
  datatype TaskResult = TaskResult(
    runId: RunId,
    taskId: TaskId,
    status: Status,
    attempts: seq<nat>,
    artifactIds: seq<nat>,
    errors: seq<Failure>,
    summary: Option<string>)

  datatype Artifact = Artifact(
    id: nat,
    name: string,
    kind: string,
    runId: RunId,
    taskId: TaskId,
    attempt: nat,
    scope: Scope,
    location: Location,
    digest: string,
    validity: Validity)

  datatype Candidate = Candidate(name: string, kind: string, location: Location, digest: string)

  datatype EventId = CreatedId(run: RunId, task: TaskId) | FreshId(n: nat)

  datatype Note = NoNote | BlockedBy(task: TaskId) | Reason(text: string) | Registered(artifact: nat)

  datatype Event = Event(
    id: EventId,
    kind: EventKind,
    runId: RunId,
    sequence: nat,
    task: TaskId,
    attempt: Option<nat>,
    note: Note,
    cause: Option<EventId>)

  datatype RunReport = RunReport(
    runId: RunId,
    status: RunStatus,
    counts: map<Status, nat>,
    results: seq<TaskResult>,
    attemptCount: nat,
    errors: seq<Failure>,
    skipped: seq<TaskId>,
    cancelled: seq<TaskId>,
    artifactIds: seq<nat>)

  /** What one executor call may do: raise an engine error, raise anything else, or report. */
  datatype Outcome =
    | EngineError
    | Exception
    | Outcome(candidates: seq<Candidate>, succeeded: bool, cancelled: bool, errors: seq<Failure>, reason: string)

  /** The collaborators of one process: executor, reconciliation port and receipt check. */
  datatype Env = Env(
    exec: (TaskId, nat) -> Outcome,
    reconcile: (TaskId, nat) -> ReconciliationState,
    receiptOk: string -> bool)

  function Last<T>(s: seq<T>): T
    requires s != []
  {
    s[|s| - 1]
  }

  ghost predicate Distinct<T(!new)>(s: seq<T>) {
    forall i, j :: 0 <= i < j < |s| ==> s[i] != s[j]
  }

  /** A numbering that puts every task after its dependencies. */
  ghost predicate Ranks(tasks: map<TaskId, Task>, rank: map<TaskId, nat>) {
    && rank.Keys == tasks.Keys
    && forall t, d :: t in tasks && d in tasks[t].deps ==> d in rank && rank[d] < rank[t]
  }

  ghost predicate ValidDag(dag: Dag) {
    && "" !in dag.tasks
    && (forall t :: t in dag.tasks ==> dag.tasks[t].id == t)
    && (forall t, d :: t in dag.tasks && d in dag.tasks[t].deps ==> d in dag.tasks)
    && exists rank :: Ranks(dag.tasks, rank)
  }

  /** What decomposition guarantees of every task: inputs never name an artifact. */
  ghost predicate StaticInputs(dag: Dag) {
    forall t, i :: t in dag.tasks && 0 <= i < |dag.tasks[t].inputs| ==> dag.tasks[t].inputs[i].artifactId == None
  }

  ghost predicate DistinctOutputs(dag: Dag) {
    forall t :: t in dag.tasks ==>
      forall i, j :: 0 <= i < j < |dag.tasks[t].outputs| ==>
            dag.tasks[t].outputs[i].name != dag.tasks[t].outputs[j].name
  }

  ghost predicate ValidPlan(plan: Plan) {
    && ValidDag(plan.dag)
    && StaticInputs(plan.dag)
    && DistinctOutputs(plan.dag)
    && plan.order != [] && Distinct(plan.order)
    && (forall t :: t in plan.order <==> t in plan.dag.tasks)
  }
}
