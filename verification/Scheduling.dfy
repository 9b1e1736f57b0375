/**
  The sequential scheduler as functions: each one appends the labels its source method commits.
  `Scheduler` runs the same steps on mutable state and is proved equal to these.
*/
module Scheduling {
  import opened Model
  import opened Artifacts
  import opened Machine
  import opened InputResolver

  /** Memory now, and the labels committed by this process so far. */
  datatype State = State(core: Core, log: seq<Label>)

  function Do(dag: Dag, s: State, l: Label): State {
    State(Apply(dag, s.core, l), s.log + [l])
  }

  function Pendings(c: Core): set<TaskId> {
    set t | t in c.status && c.status[t] == Pending
  }

  predicate Has(c: Core, t: TaskId, s: Status) {
    t in c.status && c.status[t] == s
  }

  // ---- Readiness ----

  predicate Dispatchable(dag: Dag, c: Core, t: TaskId) {
    && t in dag.tasks && Has(c, t, Pending) && DepsDone(dag, c, t)
    && ResolveReady(c.artifacts, dag.runId, dag.tasks[t], c.results)
  }

  predicate InputBlocked(dag: Dag, c: Core, t: TaskId) {
    && t in dag.tasks && Has(c, t, Pending) && DepsDone(dag, c, t)
    && !ResolveReady(c.artifacts, dag.runId, dag.tasks[t], c.results)
  }

  /** The ready tasks among order[..n], in order. */
  function ReadyIds(p: Plan, c: Core, n: nat): (ids: seq<TaskId>)
    requires n <= |p.order|
    ensures forall t :: t in ids <==> t in p.order[..n] && Dispatchable(p.dag, c, t)
    ensures ids != [] ==> Dispatchable(p.dag, c, ids[0])
  {
    if n == 0 then []
    else
      assert p.order[..n] == p.order[..n - 1] + [p.order[n - 1]];
      ReadyIds(p, c, n - 1) + if Dispatchable(p.dag, c, p.order[n - 1]) then [p.order[n - 1]] else []
  }

  /** The first input-blocked task among order[i..]. */
  function FirstBlocked(p: Plan, c: Core, i: nat): (r: Option<TaskId>)
    requires i <= |p.order|
    ensures r.Some? ==> r.value in p.order && InputBlocked(p.dag, c, r.value)
    ensures r.None? ==> forall t :: t in p.order[i..] ==> !InputBlocked(p.dag, c, t)
    decreases |p.order| - i
  {
    if i == |p.order| then None
    else if InputBlocked(p.dag, c, p.order[i]) then Some(p.order[i])
    else FirstBlocked(p, c, i + 1)
  }

  // ---- Skipping and cancelling ----

  predicate HitByFailure(dag: Dag, c: Core, t: TaskId) {
    && t in dag.tasks && Has(c, t, Pending)
    && exists d :: d in dag.tasks[t].deps && (Has(c, d, Failed) || Has(c, d, Skipped))
  }

  /** One sweep of _propagate_skips over order[i..]. */
  function SkipSweep(p: Plan, s: State, f: TaskId, i: nat): (r: State)
    requires i <= |p.order|
    ensures Pendings(r.core) <= Pendings(s.core)
    ensures |r.log| >= |s.log|
    ensures r.log == s.log ==> r == s
    ensures r.log != s.log ==> |r.log| > |s.log| && Pendings(r.core) < Pendings(s.core)
    decreases |p.order| - i
  {
    if i == |p.order| then s
    else
      var t := p.order[i];
      if HitByFailure(p.dag, s.core, t) then
        var s' := Do(p.dag, s, Skip(t, BlockedBy(f)));
        assert t in Pendings(s.core) && t !in Pendings(s'.core);
        SkipSweep(p, s', f, i + 1)
      else SkipSweep(p, s, f, i + 1)
  }

  /** _propagate_skips: sweep until a sweep changes nothing. */
  function PropagateSkips(p: Plan, s: State, f: TaskId): (r: State)
    ensures Pendings(r.core) <= Pendings(s.core)
    decreases Pendings(s.core)
  {
    var s' := SkipSweep(p, s, f, 0);
    if |s'.log| == |s.log| then s' else PropagateSkips(p, s', f)
  }

  /** _skip_remaining_pending over order[i..]. */
  function SkipRemaining(p: Plan, s: State, reason: string, i: nat): (r: State)
    requires i <= |p.order|
    ensures Pendings(r.core) <= Pendings(s.core)
    decreases |p.order| - i
  {
    if i == |p.order| then s
    else
      var t := p.order[i];
      SkipRemaining(p, if Has(s.core, t, Pending) then Do(p.dag, s, Skip(t, Reason(reason))) else s, reason, i + 1)
  }

  /** _skip_tasks over ids[i..]. */
  function SkipTasks(dag: Dag, s: State, ids: seq<TaskId>, reason: string, i: nat): (r: State)
    requires i <= |ids|
    ensures Pendings(r.core) <= Pendings(s.core)
    ensures i < |ids| && Has(s.core, ids[i], Pending) ==> Pendings(r.core) < Pendings(s.core)
    decreases |ids| - i
  {
    if i == |ids| then s
    else
      var s' := if Has(s.core, ids[i], Pending) then Do(dag, s, Skip(ids[i], Reason(reason))) else s;
      assert Has(s.core, ids[i], Pending) ==> ids[i] in Pendings(s.core) && ids[i] !in Pendings(s'.core);
      SkipTasks(dag, s', ids, reason, i + 1)
  }

  predicate Cancellable(c: Core, t: TaskId) {
    t in c.status && c.status[t] in {Pending, Ready, Running}
  }

  function CancelSweep(p: Plan, s: State, i: nat): State
    requires i <= |p.order|
    decreases |p.order| - i
  {
    if i == |p.order| then s
    else CancelSweep(p, if Cancellable(s.core, p.order[i]) then Do(p.dag, s, CancelTask(p.order[i])) else s, i + 1)
  }

  /** _cancel_all, which only a process cancelled at its start gets to run. */
  function CancelAll(p: Plan, s: State): State {
    Do(p.dag, CancelSweep(p, s, 0), EndRun(CancelledRun, NoNote))
  }

  // ---- Results ----

  /** _build_result: history of the prior result first, then what this attempt adds. */
  function BuildResult(
    dag: Dag, t: TaskId, status: Status, attempts: seq<nat>, prior: Option<TaskResult>,
    ids: seq<nat>, extra: seq<Failure>, reported: seq<Failure>, summary: Option<string>): (r: TaskResult)
    ensures r.runId == dag.runId && r.taskId == t && r.status == status && r.attempts == attempts
    ensures extra != [] || reported != [] ==> r.errors != []
    ensures summary.Some? || status == Failed ==> r.summary.Some?
    ensures r.artifactIds == Merge(if prior.Some? then prior.value.artifactIds else [], ids)
    ensures (if prior.Some? then prior.value.errors else []) <= r.errors
    ensures (forall f :: f in extra || f in reported ==> f in r.errors)
  {
    TaskResult(dag.runId, t, status, attempts,
      Merge(if prior.Some? then prior.value.artifactIds else [], ids),
      (if prior.Some? then prior.value.errors else []) + extra + reported,
      if summary == None && status == Failed then Some("failed") else summary)
  }

  function CloseWith(dag: Dag, s: State, r: TaskResult, arts: seq<Artifact>, note: Note,
      cause: Option<EventId>): (s': State)
    ensures s'.core.status == s.core.status[r.taskId := r.status]
    ensures s'.core.results == s.core.results[r.taskId := r]
  {
    Do(dag, s, Close(r.taskId, r, arts, note, cause))
  }

  // ---- Dispatch ----

  /** A state, and whether an exception ended the process there. */
  datatype Step = Step(state: State, aborted: bool)

  datatype Registration = Registration(state: State, ids: seq<nat>, aborted: bool)

  /** The registration loop of _dispatch_task over cands[i..]; an unsafe location raises. */
  function RegisterAll(dag: Dag, s: State, t: TaskId, cands: seq<Candidate>, ids: seq<nat>, i: nat): (r: Registration)
    requires i <= |cands|
    ensures r.state.core.status == s.core.status && r.state.core.results == s.core.results
    decreases |cands| - i
  {
    if i == |cands| then Registration(s, ids, false)
    else if !LocationOk(cands[i].location) then Registration(s, ids, true)
    else RegisterAll(dag, Do(dag, s, Register(t, cands[i])), t, cands, ids + [s.core.supply], i + 1)
  }

  /** The end of a dispatch whose executor reported `out`, once its candidates are registered. */
  function Conclude(p: Plan, s: State, t: TaskId, attempts: seq<nat>, prior: Option<TaskResult>, out: Outcome,
      ids: seq<nat>, started: EventId): (s': State)
    requires out.Outcome? && attempts != [] && t in p.dag.tasks
    ensures t in s'.core.results && s'.core.results[t].status in {Success, Failed, Cancelled}
    ensures s'.core.status == s.core.status[t := s'.core.results[t].status]
  {
    var a := Last(attempts);
    var cause := Some(started);
    if out.cancelled then
      CloseWith(p.dag, s, BuildResult(p.dag, t, Cancelled, attempts, prior, ids, [], out.errors, Some(out.reason)),
          s.core.artifacts, NoNote, cause)
    else if !out.succeeded then
      var extra := if out.errors == [] then [Failure("execution_failed", "execution", t, Some(a))] else [];
      CloseWith(p.dag, s, BuildResult(p.dag, t, Failed, attempts, prior, ids, extra, out.errors, Some(out.reason)),
          s.core.artifacts, NoNote, cause)
    else
      var v := Validate(s.core.artifacts, p.dag.runId, t, a, p.dag.tasks[t].outputs);
      match v.verdict
      case Err(code) =>
        CloseWith(p.dag, s, BuildResult(p.dag, t, Failed, attempts, prior, ids,
            [Failure(code, "artifact_validation", t, Some(a))], out.errors, Some(out.reason)),
          v.artifacts, Reason("artifact_validation"), cause)
      case Ok(valid) =>
        CloseWith(p.dag, s, BuildResult(p.dag, t, Success, attempts, prior, valid, [], out.errors, Some(out.reason)),
            v.artifacts, NoNote, cause)
  }

  /** What follows the executor call, once TASK_STARTED is committed. */
  function AfterStart(p: Plan, s: State, t: TaskId, attempts: seq<nat>, prior: Option<TaskResult>, out: Outcome,
      started: EventId): (r: Step)
    requires t in p.dag.tasks && attempts != []
    ensures !r.aborted ==> t in r.state.core.results && r.state.core.results[t].status in {Success, Failed, Cancelled}
    ensures !r.aborted ==> r.state.core.status == s.core.status[t := r.state.core.results[t].status]
  {
    match out
    case EngineError => Step(s, true)
    case Exception =>
      var failure := Failure("executor_exception", "execution", t, Some(Last(attempts)));
      Step(CloseWith(p.dag, s, BuildResult(p.dag, t, Failed, attempts, prior, [], [failure], [], None),
          s.core.artifacts, Reason("executor_exception"), Some(started)), false)
    case Outcome(cands, _, _, _, _) =>
      var reg := RegisterAll(p.dag, s, t, cands, [], 0);
      if reg.aborted then Step(reg.state, true)
      else Step(Conclude(p, reg.state, t, attempts, prior, out, reg.ids, started), false)
  }

  function PriorResult(c: Core, t: TaskId): Option<TaskResult> {
    if t in c.results then Some(c.results[t]) else None
  }

  /** _dispatch_task. */
  function Dispatch(p: Plan, e: Env, s: State, t: TaskId): (r: Step)
    requires t in p.dag.tasks
    ensures !r.aborted ==> t in r.state.core.results && r.state.core.results[t].status in {Success, Failed, Cancelled}
    ensures !r.aborted ==> r.state.core.status == s.core.status[t := r.state.core.results[t].status]
  {
    var a := s.core.supply;
    AfterStart(p, Do(p.dag, s, Start(t)), t, PriorAttempts(s.core, t) + [a], PriorResult(s.core, t), e.exec(t, a),
        FreshId(a + 1))
  }

  // ---- Reconciliation ----

  predicate Indeterminate(c: Core, t: TaskId) {
    t in c.results && (c.results[t].status == Running || Has(c, t, Running))
  }

  function IndeterminateIds(p: Plan, c: Core, n: nat): (ids: seq<TaskId>)
    requires n <= |p.order|
    ensures forall t :: t in ids <==> t in p.order[..n] && Indeterminate(c, t)
    ensures ids != [] ==> ids[0] in p.order[..n] && Indeterminate(c, ids[0])
  {
    if n == 0 then []
    else
      assert p.order[..n] == p.order[..n - 1] + [p.order[n - 1]];
      IndeterminateIds(p, c, n - 1) + if Indeterminate(c, p.order[n - 1]) then [p.order[n - 1]] else []
  }

  datatype Reconciled = Reconciled(state: State, blocked: bool)

  /** The backend says the attempt succeeded: its outputs must still validate. */
  function ReconcileSuccess(p: Plan, s: State, t: TaskId, prior: TaskResult): State
    requires t in p.dag.tasks && prior.attempts != []
  {
    var a := Last(prior.attempts);
    var v := Validate(s.core.artifacts, p.dag.runId, t, a, p.dag.tasks[t].outputs);
    match v.verdict
    case Err(code) =>
      CloseWith(p.dag, s, BuildResult(p.dag, t, Failed, prior.attempts, Some(prior), prior.artifactIds,
          [Failure(code, "artifact_validation", t, Some(a))], [], None),
        v.artifacts, Reason("artifact_validation"), None)
    case Ok(valid) =>
      CloseWith(p.dag, s, BuildResult(p.dag, t, Success, prior.attempts, Some(prior), valid, [], [],
          Some("reconciled_success")),
        v.artifacts, Reason("reconciliation"), None)
  }

  /** The error the backend reported, or the default one. */
  function ReportedError(t: TaskId, a: nat, error: Option<Failure>): Failure {
    if error.Some? then error.value else Failure("reconciliation_failed", "reconciliation", t, Some(a))
  }

  /** One round of _reconcile_indeterminate_tasks. */
  function ReconcileOne(p: Plan, e: Env, s: State, t: TaskId): Reconciled {
    if t !in s.core.results || t !in p.dag.tasks || s.core.results[t].attempts == [] then Reconciled(s, false)
    else
      var prior := s.core.results[t];
      var a := Last(prior.attempts);
      match e.reconcile(t, a)
      case StillRunning => Reconciled(Do(p.dag, s, EndRun(InterruptedRun, Reason("still_running"))), true)
      case Unknown => Reconciled(Do(p.dag, s, EndRun(ReconciliationRequired, Reason("unknown"))), true)
      case Lost => Reconciled(Do(p.dag, s, EndRun(ReconciliationRequired, Reason("lost"))), true)
      case ReportedFailed(error) =>
        var failure := ReportedError(t, a, error);
        Reconciled(CloseWith(p.dag, s, BuildResult(p.dag, t, Failed, prior.attempts, Some(prior), prior.artifactIds,
            [failure], [], None),
          s.core.artifacts, Reason("reconciliation"), None), false)
      case ReportedCancelled =>
        Reconciled(CloseWith(p.dag, s, BuildResult(p.dag, t, Cancelled, prior.attempts, Some(prior), prior.artifactIds,
            [], [], Some("cancelled")),
          s.core.artifacts, NoNote, None), false)
      case Succeeded => Reconciled(ReconcileSuccess(p, s, t, prior), false)
  }

  function Reconcile(p: Plan, e: Env, s: State, ids: seq<TaskId>, i: nat): Reconciled
    requires i <= |ids|
    decreases |ids| - i
  {
    if i == |ids| then Reconciled(s, false)
    else
      var r := ReconcileOne(p, e, s, ids[i]);
      if r.blocked then r else Reconcile(p, e, r.state, ids, i + 1)
  }

  // ---- The run ----

  /** terminal_run_status, with a task still running reported as needing reconciliation. */
  function FinalStatus(c: Core): RunStatus {
    if exists t :: t in c.status && c.status[t] == Running then ReconciliationRequired else TerminalRunStatus(c.status)
  }

  function Finish(p: Plan, s: State): State {
    Do(p.dag, s, EndRun(FinalStatus(s.core), NoNote))
  }

  function BlockedResult(dag: Dag, t: TaskId): TaskResult {
    TaskResult(dag.runId, t, Failed, [], [], [Failure("required_input_unavailable", "input_resolution", t, None)],
        Some("input_blocked"))
  }

  function FailFastFrom(p: Plan, s: State, f: TaskId): (r: State)
    ensures Pendings(r.core) <= Pendings(s.core)
  {
    SkipRemaining(p, PropagateSkips(p, s, f), "fail_fast", 0)
  }

  /**
    The loop of run. A cancelled dispatch raises: the call of _cancel_all there lacks the run state the method
    requires, so the process is left with TASK_CANCELLED as its last commit.
  */
  function Loop(p: Plan, e: Env, s: State, failed: bool): Step
    decreases Pendings(s.core)
  {
    var ready := ReadyIds(p, s.core, |p.order|);
    if ready == [] then
      match FirstBlocked(p, s.core, 0)
      case None => Step(Finish(p, s), false)
      case Some(t) => Step(Finish(p, FailFastFrom(p, Do(p.dag, s,
          Block(t, BlockedResult(p.dag, t), Reason("required_input_unavailable"))), t)), false)
    else if failed then
      assert ready[0] in ready;
      Loop(p, e, SkipTasks(p.dag, s, ready, "upstream_failure", 0), true)
    else
      var t := ready[0];
      assert t in ready;
      var s1 := Do(p.dag, s, MakeReady(t));
      assert t in Pendings(s.core);
      var d := Dispatch(p, e, s1, t);
      if d.aborted then d
      else
        assert Pendings(d.state.core) == Pendings(s.core) - {t};
        var status := d.state.core.results[t].status;
        if status == Failed then Loop(p, e, FailFastFrom(p, d.state, t), true)
        else if status == Cancelled then Step(d.state, true)
        else Loop(p, e, d.state, failed)
  }

  predicate AnyDoomed(c: Core) {
    exists t :: t in c.status && Doomed(c.status[t])
  }

  function Opening(p: Plan, c: Core): State {
    var s := State(c.(run := RunningRun), []);
    if exists i :: 0 <= i < |c.trace| && c.trace[i].kind == RunStarted then s else Do(p.dag, s, RunStart)
  }

  /** SequentialScheduler.run: everything one process commits, starting from memory `c`. */
  function Session(p: Plan, e: Env, c: Core, cancelled: bool): Step {
    var s := Opening(p, c);
    if cancelled then Step(CancelAll(p, s), false)
    else
      var r := Reconcile(p, e, s, IndeterminateIds(p, s.core, |p.order|), 0);
      if r.blocked then Step(r.state, false)
      else
        var s' := if AnyDoomed(r.state.core) then SkipRemaining(p, r.state, "prior_terminal_state", 0) else r.state;
        Loop(p, e, s', false)
  }
}
