/**
  The scheduler as a transition system. One label is one trace append, and one trace append is one
  durable commit, so a crash can only fall between two labels.
 */
module Machine {
  import opened Model
  import opened Artifacts
  import opened Trace
  import Transitions

  /** The RUN_RESUMED event of this process: held by the in-memory trace only, at position `at`. */
  datatype Mark = Mark(at: nat, event: Event)

  datatype Core = Core(
    run: RunStatus,
    status: map<TaskId, Status>,
    results: map<TaskId, TaskResult>,
    trace: seq<Event>,
    artifacts: seq<Artifact>,
    nextSeq: nat,
    supply: nat,
    mark: Option<Mark>)

  datatype Label =
    | RunStart
    | MakeReady(t: TaskId)
    | Start(t: TaskId)
    | Register(t: TaskId, candidate: Candidate)
    | Close(t: TaskId, result: TaskResult, artifacts: seq<Artifact>, note: Note, cause: Option<EventId>)
    | Block(t: TaskId, result: TaskResult, note: Note)
    | Skip(t: TaskId, note: Note)
    | CancelTask(t: TaskId)
    | EndRun(final: RunStatus, note: Note)

  /** The trace held in memory: the durable one with this process's RUN_RESUMED in its place. */
  function Mem(c: Core): seq<Event> {
    match c.mark
    case None => c.trace
    case Some(m) => if m.at <= |c.trace| then c.trace[..m.at] + [m.event] + c.trace[m.at..] else c.trace
  }

  /**
    What one commit writes: the run status, possibly a new status and result of task `t`, the artifact
    list, how many fresh ids were drawn before the event id, and the event itself.
  */
  datatype Change = Change(
    run: RunStatus,
    t: TaskId,
    status: Option<Status>,
    result: Option<TaskResult>,
    artifacts: seq<Artifact>,
    drawn: nat,
    kind: EventKind,
    attempt: Option<nat>,
    note: Note,
    cause: Option<EventId>)

  function EventOf(dag: Dag, c: Core, ch: Change): Event {
    Event(FreshId(c.supply + ch.drawn), ch.kind, dag.runId, c.nextSeq, ch.t, ch.attempt, ch.note, ch.cause)
  }

  function Commit(dag: Dag, c: Core, ch: Change): Core {
    Core(
      ch.run,
      if ch.status.Some? then c.status[ch.t := ch.status.value] else c.status,
      if ch.result.Some? then c.results[ch.t := ch.result.value] else c.results,
      c.trace + [EventOf(dag, c, ch)],
      ch.artifacts,
      c.nextSeq + 1,
      c.supply + ch.drawn + 1,
      c.mark)
  }

  function AttemptOf(r: TaskResult): Option<nat> {
    if r.attempts == [] then None else Some(Last(r.attempts))
  }

  function PriorAttempts(c: Core, t: TaskId): seq<nat> {
    if t in c.results then c.results[t].attempts else []
  }

  function RunningResult(dag: Dag, c: Core, t: TaskId, attempt: nat): TaskResult {
    TaskResult(dag.runId, t, Running, PriorAttempts(c, t) + [attempt], [], [], Some("running"))
  }

  function NewArtifact(dag: Dag, c: Core, t: TaskId, cand: Candidate): Artifact {
    Artifact(c.supply, cand.name, cand.kind, dag.runId, t,
      if PriorAttempts(c, t) == [] then 0 else Last(PriorAttempts(c, t)),
      RuntimeRun, cand.location, cand.digest, Unchecked)
  }

  function ClosingKind(s: Status): EventKind {
    if s == Success then TaskCompleted else if s == Cancelled then TaskCancelled else TaskFailed
  }

  function EndKind(s: RunStatus): EventKind {
    match s
    case SuccessRun => RunCompleted
    case CancelledRun => RunCancelled
    case InterruptedRun => RunInterrupted
    case ReconciliationRequired => RunInterrupted
    case _ => RunFailed
  }

  function Effect(dag: Dag, c: Core, l: Label): Change {
    match l
    case RunStart =>
      Change(RunningRun, "", None, None, c.artifacts, 0, RunStarted, None, NoNote, None)
    case MakeReady(t) =>
      Change(c.run, t, Some(Ready), None, c.artifacts, 0, TaskReady, None, NoNote, None)
    case Start(t) =>
      Change(c.run, t, Some(Running), Some(RunningResult(dag, c, t, c.supply)), c.artifacts, 1, TaskStarted,
          Some(c.supply), NoNote, None)
    case Register(t, cand) =>
      var art := NewArtifact(dag, c, t, cand);
      Change(c.run, t, None, None, c.artifacts + [art], 1, ArtifactRegistered, Some(art.attempt), Registered(art.id),
          None)
    case Close(t, r, arts, note, cause) =>
      Change(c.run, t, Some(r.status), Some(r), arts, 0, ClosingKind(r.status), AttemptOf(r), note, cause)
    case Block(t, r, note) =>
      Change(c.run, t, Some(Failed), Some(r), c.artifacts, 0, TaskBlocked, None, note, None)
    case Skip(t, note) =>
      Change(c.run, t, Some(Skipped), None, c.artifacts, 0, TaskSkipped, None, note, None)
    case CancelTask(t) =>
      Change(c.run, t, Some(Cancelled), None, c.artifacts, 0, TaskCancelled, None, NoNote, None)
    case EndRun(final, note) =>
      Change(final, "", None, None, c.artifacts, 0, EndKind(final), None, note, None)
  }

  function Apply(dag: Dag, c: Core, l: Label): Core {
    Commit(dag, c, Effect(dag, c, l))
  }

  // ---- Guards ----

  ghost predicate Calm(c: Core) {
    forall t :: t in c.status ==> c.status[t] in {Pending, Success}
  }

  ghost predicate Idle(c: Core) {
    forall t :: t in c.status ==> c.status[t] !in {Ready, Running}
  }

  predicate DepsDone(dag: Dag, c: Core, t: TaskId)
    requires t in dag.tasks
  {
    forall d :: d in dag.tasks[t].deps ==>
      d in c.status && c.status[d] == Success && (d in c.results ==> c.results[d].status == Success)
  }

  /** A required input that no artifact can ever fill. */
  predicate Starved(task: Task) {
    exists i :: 0 <= i < |task.inputs| && task.inputs[i].required
  }

  predicate Doomed(s: Status) {
    s in {Failed, Skipped, Cancelled}
  }

  function TerminalRunStatus(status: map<TaskId, Status>): RunStatus {
    if exists t :: t in status && status[t] == Running then RunningRun
    else if exists t :: t in status && status[t] == Cancelled then CancelledRun
    else if exists t :: t in status && status[t] == Failed then FailedRun
    else if status != map[] && (forall t :: t in status ==> status[t] == Success) then SuccessRun
    else FailedRun
  }

  predicate WellClosed(r: TaskResult) {
    && r.attempts != []
    && (r.status == Success ==> r.summary.Some?)
    && (r.status == Failed ==> r.errors != [])
    && (r.status == Cancelled ==> r.summary.Some?)
  }

  /** A result may close the open attempt of its task: same attempts, proven outputs if it is a success. */
  ghost predicate CloseOk(dag: Dag, c: Core, r: TaskResult, arts: seq<Artifact>, cause: Option<EventId>) {
    var t := r.taskId;
    && t in dag.tasks && t in c.status && c.status[t] == Running && t in c.results
    && r.runId == dag.runId && r.status in {Success, Failed, Cancelled}
    && WellClosed(r) && r.attempts == c.results[t].attempts
    && (forall id :: id in r.artifactIds ==> id < c.supply)
    && Promoted(c.artifacts, arts, Last(r.attempts))
    && (r.status == Success ==> Satisfies(arts, dag.runId, dag.tasks[t], r, Trust()) && OneProofEach(arts, r))
    && (cause.Some? ==> StartedBy(c.trace, cause.value, t, Last(r.attempts)))
  }

  ghost predicate Enabled(dag: Dag, c: Core, l: Label) {
    match l
    case RunStart =>
      forall i :: 0 <= i < |c.trace| ==> c.trace[i].kind != RunStarted
    case MakeReady(t) =>
      && t in dag.tasks && t in c.status && c.status[t] == Pending && Calm(c)
      && DepsDone(dag, c, t) && !Starved(dag.tasks[t])
    case Start(t) =>
      t in dag.tasks && t in c.status && c.status[t] == Ready && DepsDone(dag, c, t) && !Starved(dag.tasks[t])
    case Register(t, cand) =>
      t in dag.tasks && t in c.status && c.status[t] == Running && LocationOk(cand.location)
    case Close(t, r, arts, note, cause) =>
      r.taskId == t && CloseOk(dag, c, r, arts, cause)
    case Block(t, r, note) =>
      && t in dag.tasks && t in c.status && c.status[t] == Pending && Calm(c)
      && DepsDone(dag, c, t) && Starved(dag.tasks[t])
      && r == TaskResult(dag.runId, t, Failed, [], [], [Failure("required_input_unavailable", "input_resolution", t,
            None)], Some("input_blocked"))
      && note == Reason("required_input_unavailable")
    case Skip(t, note) =>
      && t in dag.tasks && t in c.status && c.status[t] == Pending && Idle(c)
      && exists u :: u in c.status && Doomed(c.status[u])
    case CancelTask(t) =>
      t in dag.tasks && t in c.status && c.status[t] == Pending && Idle(c)
    case EndRun(final, note) =>
      if exists t :: t in c.status && c.status[t] == Running
      then final in {InterruptedRun, ReconciliationRequired} && note.Reason?
      else final == TerminalRunStatus(c.status) && note == NoNote
  }

  // ---- Sequences of labels ----

  function Exec(dag: Dag, c: Core, ls: seq<Label>): Core {
    if ls == [] then c else Apply(dag, Exec(dag, c, ls[..|ls| - 1]), ls[|ls| - 1])
  }

  ghost predicate Runs(dag: Dag, c: Core, ls: seq<Label>) {
    ls == [] || (Runs(dag, c, ls[..|ls| - 1]) && Enabled(dag, Exec(dag, c, ls[..|ls| - 1]), ls[|ls| - 1]))
  }

  lemma RunsAppend(dag: Dag, c: Core, ls: seq<Label>, l: Label)
    ensures Exec(dag, c, ls + [l]) == Apply(dag, Exec(dag, c, ls), l)
    ensures Runs(dag, c, ls + [l]) <==> Runs(dag, c, ls) && Enabled(dag, Exec(dag, c, ls), l)
  {
    assert (ls + [l])[..|ls|] == ls;
  }

  lemma {:induction false} RunsPrefix(dag: Dag, c: Core, ls: seq<Label>, k: nat)
    requires Runs(dag, c, ls) && k <= |ls|
    ensures Runs(dag, c, ls[..k])
  {
    if k == |ls| {
      assert ls[..k] == ls;
    } else {
      RunsPrefix(dag, c, ls[..|ls| - 1], k);
      assert ls[..|ls| - 1][..k] == ls[..k];
    }
  }

  /** Every label moves every task along the ordinary status table, or leaves it alone. */
  lemma LabelsAreLegal(dag: Dag, c: Core, l: Label, t: TaskId)
    requires Enabled(dag, c, l) && t in c.status
    ensures t in Apply(dag, c, l).status
    ensures var was, now := c.status[t], Apply(dag, c, l).status[t];
            was == now || now in Transitions.Allowed(was)
  {
  }
}
