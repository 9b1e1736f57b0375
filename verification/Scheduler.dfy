/**
  The sequential scheduler on mutable state. Every method is proved to do to memory and to the store
  exactly what its function in module Scheduling says.
*/
module Scheduler {
  import opened Model
  import opened Transitions
  import opened Artifacts
  import opened Trace
  import opened Machine
  import opened InputResolver
  import opened Tracker
  import opened Coordinator
  import opened Scheduling
  import Manifest

  /** What the scheduling methods need of a task list: known, named tasks whose dependencies are known. */
  ghost predicate Usable(p: Plan) {
    && "" !in p.dag.tasks
    && (forall t :: t in p.order ==> t in p.dag.tasks)
    && (forall t, d :: t in p.dag.tasks && d in p.dag.tasks[t].deps ==> d in p.dag.tasks)
  }

  datatype SchedulerResult = SchedulerResult(
    run: RunStatus,
    statuses: map<TaskId, Status>,
    results: map<TaskId, TaskResult>,
    trace: seq<Event>,
    artifactIds: seq<nat>)

  /** What ends a process: two engine errors, a call that lacks an argument, and a trace that does not validate. */
  datatype Abort = ExecutorRaised | UnsafeCandidate | MissingRunState | BadTrace(error: TraceError)

  /** The exception an executor report leads to. */
  ghost predicate Explains(out: Outcome, abort: Abort) {
    match out
    case EngineError => abort == ExecutorRaised
    case Exception => false
    case Outcome(cands, _, cancelled, _, _) =>
      if exists i :: 0 <= i < |cands| && !LocationOk(cands[i].location) then abort == UnsafeCandidate
      else cancelled && abort == MissingRunState
  }

  /** The last attempt of `t` is what `abort` is about: a cancelled one is closed, any other is still open. */
  ghost predicate Blames(e: Env, c: Core, t: TaskId, abort: Abort) {
    && Has(c, t, if abort == MissingRunState then Cancelled else Running)
    && PriorAttempts(c, t) != [] && Explains(e.exec(t, Last(PriorAttempts(c, t))), abort)
  }

  /** An exception that left the loop comes from the last attempt of some task. */
  ghost predicate Blamed(e: Env, c: Core, abort: Abort) {
    exists t :: Blames(e, c, t, abort)
  }

  /** A task list and the dictionaries that go with it. */
  ghost predicate Consistent(dag: Dag, c: Core) {
    && c.status.Keys == dag.tasks.Keys
    && (forall t, d :: t in dag.tasks && d in dag.tasks[t].deps ==> d in dag.tasks)
  }

  /** The dictionaries a scheduling step reads. */
  datatype Tables = Tables(status: map<TaskId, Status>, results: map<TaskId, TaskResult>, artifacts: seq<Artifact>)

  ghost predicate Shows(v: Tables, c: Core) {
    v.status == c.status && v.results == c.results && v.artifacts == c.artifacts
  }

  // ---- Readiness ----

  /** _dependencies_satisfied. */
  method DependenciesSatisfied(dag: Dag, v: Tables, ghost c: Core, t: TaskId) returns (ok: bool)
    requires Shows(v, c) && Consistent(dag, c) && t in dag.tasks
    ensures ok == DepsDone(dag, c, t)
  {
    var deps := dag.tasks[t].deps;
    for i := 0 to |deps|
      invariant forall j :: 0 <= j < i ==>
                  deps[j] in c.status && c.status[deps[j]] == Success && (deps[j] in c.results ==>
                        c.results[deps[j]].status == Success)
    {
      var d := deps[i];
      assert d in deps;
      if v.status[d] != Success {
        return false;
      }
      if d in v.results && v.results[d].status != Success {
        return false;
      }
    }
    return true;
  }

  /** Whether a task waits for nothing but its inputs, and whether those resolve. */
  method Examine(dag: Dag, v: Tables, ghost c: Core, t: TaskId) returns (waiting: bool, resolved: bool)
    requires Shows(v, c) && Consistent(dag, c) && t in dag.tasks
    ensures waiting && resolved <==> Dispatchable(dag, c, t)
    ensures waiting && !resolved <==> InputBlocked(dag, c, t)
  {
    hide DepsDone, ResolveReady;
    if v.status[t] != Pending {
      return false, false;
    }
    var satisfied := DependenciesSatisfied(dag, v, c, t);
    if !satisfied {
      return false, false;
    }
    var inputs, isReady, blocking := ResolveInputs(v.artifacts, dag.runId, dag.tasks[t], v.results);
    return true, isReady;
  }

  /** _ready_task_ids. */
  method ReadyTaskIds(p: Plan, v: Tables, ghost c: Core) returns (ready: seq<TaskId>)
    requires Shows(v, c) && Consistent(p.dag, c) && forall t :: t in p.order ==> t in p.dag.tasks
    ensures ready == ReadyIds(p, c, |p.order|)
  {
    hide Dispatchable, InputBlocked, Consistent, Shows, ReadyIds;
    ready := [];
    NoneReadyYet(p, c);
    for i := 0 to |p.order|
      invariant ready == ReadyIds(p, c, i)
    {
      var t := p.order[i];
      ReadyNext(p, c, i);
      var waiting, resolved := Examine(p.dag, v, c, t);
      if waiting && resolved {
        ready := ready + [t];
      }
    }
  }

  lemma NoneReadyYet(p: Plan, c: Core)
    ensures ReadyIds(p, c, 0) == []
  {
  }

  lemma ReadyNext(p: Plan, c: Core, i: nat)
    requires i < |p.order|
    ensures ReadyIds(p, c, i + 1)
         == ReadyIds(p, c, i) + if Dispatchable(p.dag, c, p.order[i]) then [p.order[i]] else []
  {
    hide Dispatchable;
  }

  /** The search loop of _fail_first_input_blocked_task. */
  method FirstInputBlocked(p: Plan, v: Tables, ghost c: Core) returns (blocked: Option<TaskId>)
    requires Shows(v, c) && Consistent(p.dag, c) && forall t :: t in p.order ==> t in p.dag.tasks
    ensures blocked == FirstBlocked(p, c, 0)
  {
    hide Dispatchable, InputBlocked;
    for i := 0 to |p.order|
      invariant FirstBlocked(p, c, 0) == FirstBlocked(p, c, i)
    {
      var t := p.order[i];
      var waiting, resolved := Examine(p.dag, v, c, t);
      if waiting && !resolved {
        return Some(t);
      }
    }
    return None;
  }

  /** The test of _propagate_skips. */
  method DependencyFailed(dag: Dag, v: Tables, ghost c: Core, t: TaskId) returns (hit: bool)
    requires Shows(v, c) && Consistent(dag, c) && t in dag.tasks
    ensures hit == HitByFailure(dag, c, t)
  {
    if v.status[t] != Pending {
      return false;
    }
    var deps := dag.tasks[t].deps;
    return exists d :: d in deps && d in v.status && v.status[d] in {Failed, Skipped};
  }

  lemma SweepNext(p: Plan, s: State, f: TaskId, i: nat)
    requires i < |p.order|
    ensures SkipSweep(p, s, f, i)
         == SkipSweep(p, if HitByFailure(p.dag, s.core, p.order[i]) then Do(p.dag, s, Skip(p.order[i], BlockedBy(f)))
                         else s, f, i + 1)
  {
    hide Do, HitByFailure;
  }

  lemma SweepEnds(p: Plan, s: State, f: TaskId)
    ensures SkipSweep(p, s, f, |p.order|) == s
  {
  }

  lemma HitIsPending(dag: Dag, c: Core, t: TaskId)
    ensures HitByFailure(dag, c, t) ==> t in c.status && c.status[t] == Pending
  {
  }

  class SequentialScheduler {
    const env: Env
    const tracker: ArtifactTracker

    constructor (env: Env, tracker: ArtifactTracker)
      ensures this.env == env && this.tracker == tracker
    {
      this.env, this.tracker := env, tracker;
    }

    /** In step with the store, and committing this scheduler's artifacts. */
    ghost predicate InStep(tb: PersistingTraceBuilder)
      reads tb.Repr(), tb.committer.store
    {
      tb.Valid() && Serves(tb)
    }

    /** A builder as the engine hands it over. */
    ghost predicate Receives(tb: PersistingTraceBuilder)
      reads tb.Repr(), tb.committer.store
    {
      tb.Attached() && Serves(tb) && MarkedResumed(tb.mark)
    }

    ghost predicate Serves(tb: PersistingTraceBuilder) {
      tb.committer.tracker == tracker && tb.inner.ids == tracker.ids && Usable(tb.state.plan)
    }

    // ---- One status change, one append ----

    /** Moves one task along the ordinary table and commits the event that says so. */
    method Move(tb: PersistingTraceBuilder, t: TaskId, target: Status, kind: EventKind, note: Note, ghost step: Label)
      requires InStep(tb) && t in tb.state.plan.dag.tasks && target in AllowedTransitions(tb.state.status[t], false)
      requires kind in {TaskReady, TaskSkipped, TaskCancelled}
      requires Effect(tb.state.plan.dag, tb.Memory(), step)
            == Change(tb.state.run, t, Some(target), None, tb.committer.tracker.artifacts, 0, kind, None, note, None)
      modifies tb.Repr()
      ensures InStep(tb) && tb.Now() == Do(tb.state.plan.dag, old(tb.Now()), step)
    {
      hide PersistingTraceBuilder.Linked, PersistingTraceBuilder.Synced, Record, Exec, Usable, Effect, Transition,
          AllowedTransitions, Announces, WellFormed, EventOf, Mem;
      NamedTask(tb.state.plan, t);
      ghost var c := tb.Memory();
      label before:
      var next := Transition(tb.state.status[t], target, false);
      tb.state.status := tb.state.status[t := next.value];
      StateMoved@before(tb);
      MoveAnnounced(tb.state.plan.dag, c, tb.Memory(), t, target, kind, note, step);
      var e := tb.Append(kind, t, None, note, None, c, step);
      assert e.Ok?;
    }

    /** The dictionaries as they stand. */
    function View(tb: PersistingTraceBuilder): Tables
      reads tb.state, tb.committer.tracker
    {
      Tables(tb.state.status, tb.state.results, tb.committer.tracker.artifacts)
    }

    /** _fail_first_input_blocked_task. */
    method FailFirstInputBlocked(tb: PersistingTraceBuilder) returns (blocked: Option<TaskId>)
      requires InStep(tb)
      modifies tb.Repr()
      ensures InStep(tb) && blocked == FirstBlocked(tb.state.plan, old(tb.Memory()), 0)
      ensures tb.Now() == match blocked
                          case None => old(tb.Now())
                          case Some(t) => Do(tb.state.plan.dag, old(tb.Now()),
                              Block(t, BlockedResult(tb.state.plan.dag, t), Reason("required_input_unavailable")))
    {
      hide PersistingTraceBuilder.Linked, PersistingTraceBuilder.Synced, PersistingTraceBuilder.Recorded,
          Dispatchable, DepsDone, ResolveReady;
      var p := tb.state.plan;
      blocked := FirstInputBlocked(p, View(tb), tb.Memory());
      if blocked.Some? {
        BlockTask(tb, blocked.value);
      }
    }

    method BlockTask(tb: PersistingTraceBuilder, t: TaskId)
      requires InStep(tb) && t in tb.state.plan.dag.tasks && tb.state.status[t] == Pending
      modifies tb.Repr()
      ensures InStep(tb)
      ensures var l := Block(t, BlockedResult(tb.state.plan.dag, t), Reason("required_input_unavailable"));
              tb.Now() == Do(tb.state.plan.dag, old(tb.Now()), l)
    {
      hide PersistingTraceBuilder.Linked, PersistingTraceBuilder.Synced, Record, Exec;
      ghost var c := tb.Memory();
      label before:
      var runId := tb.state.plan.dag.runId;
      var next := Transition(tb.state.status[t], Failed, false);
      tb.state.status := tb.state.status[t := next.value];
      var error := Failure("required_input_unavailable", "input_resolution", t, None);
      var result := TaskResult(runId, t, Failed, [], [], [error], Some("input_blocked"));
      tb.state.results := tb.state.results[t := result];
      StateMoved@before(tb);
      var e := tb.Append(TaskBlocked, t, None, Reason("required_input_unavailable"), None, c,
          Block(t, result, Reason("required_input_unavailable")));
      assert e.Ok?;
    }

    // ---- Skipping and cancelling ----

    /** The inner loop of _propagate_skips; `changed` when it skipped something. */
    method SweepSkips(tb: PersistingTraceBuilder, f: TaskId) returns (changed: bool)
      requires InStep(tb)
      modifies tb.Repr()
      ensures InStep(tb) && tb.Now() == SkipSweep(tb.state.plan, old(tb.Now()), f, 0)
      ensures changed == (|tb.log| != |old(tb.log)|)
    {
      hide PersistingTraceBuilder.Linked, PersistingTraceBuilder.Synced, PersistingTraceBuilder.Recorded, Do, Apply,
          HitByFailure, SkipSweep;
      var p := tb.state.plan;
      changed := false;
      ghost var goal := SkipSweep(p, tb.Now(), f, 0);
      for i := 0 to |p.order|
        invariant InStep(tb) && SkipSweep(p, tb.Now(), f, i) == goal
        invariant |tb.log| >= |old(tb.log)| && changed == (|tb.log| != |old(tb.log)|)
      {
        var t := p.order[i];
        assert t in p.order;
        SweepNext(p, tb.Now(), f, i);
        var hit := DependencyFailed(p.dag, View(tb), tb.Memory(), t);
        assert hit ==> tb.state.status[t] == Pending by { HitIsPending(p.dag, tb.Memory(), t); }
        if hit {
          ghost var s := tb.Now();
          LogGrows(p.dag, s, Skip(t, BlockedBy(f)));
          Move(tb, t, Skipped, TaskSkipped, BlockedBy(f), Skip(t, BlockedBy(f)));
          changed := true;
        }
      }
      SweepEnds(p, tb.Now(), f);
    }

    /** _propagate_skips: sweeps until one changes nothing. */
    method PropagateSkips(tb: PersistingTraceBuilder, f: TaskId)
      requires InStep(tb)
      modifies tb.Repr()
      ensures InStep(tb) && tb.Now() == Scheduling.PropagateSkips(tb.state.plan, old(tb.Now()), f)
    {
      hide PersistingTraceBuilder.Linked, PersistingTraceBuilder.Synced, PersistingTraceBuilder.Recorded;
      var p := tb.state.plan;
      ghost var goal := Scheduling.PropagateSkips(p, tb.Now(), f);
      var changed := true;
      while changed
        invariant InStep(tb) && (if changed then Scheduling.PropagateSkips(p, tb.Now(), f) else tb.Now()) == goal
        decreases Pendings(tb.Memory()), if changed then 1 else 0
      {
        changed := SweepSkips(tb, f);
      }
    }

    /** _skip_remaining_pending. */
    method SkipRemainingPending(tb: PersistingTraceBuilder, reason: string)
      requires InStep(tb)
      modifies tb.Repr()
      ensures InStep(tb) && tb.Now() == SkipRemaining(tb.state.plan, old(tb.Now()), reason, 0)
    {
      hide PersistingTraceBuilder.Linked, PersistingTraceBuilder.Synced, PersistingTraceBuilder.Recorded, Do;
      var p := tb.state.plan;
      ghost var goal := SkipRemaining(p, tb.Now(), reason, 0);
      for i := 0 to |p.order|
        invariant InStep(tb) && SkipRemaining(p, tb.Now(), reason, i) == goal
      {
        var t := p.order[i];
        assert t in p.order;
        if tb.state.status[t] == Pending {
          Move(tb, t, Skipped, TaskSkipped, Reason(reason), Skip(t, Reason(reason)));
        }
      }
    }

    /** _skip_tasks. */
    method SkipTasks(tb: PersistingTraceBuilder, ids: seq<TaskId>, reason: string)
      requires InStep(tb) && forall t :: t in ids ==> t in tb.state.plan.dag.tasks
      modifies tb.Repr()
      ensures InStep(tb) && tb.Now() == Scheduling.SkipTasks(tb.state.plan.dag, old(tb.Now()), ids, reason, 0)
    {
      hide PersistingTraceBuilder.Linked, PersistingTraceBuilder.Synced, PersistingTraceBuilder.Recorded, Do;
      var p := tb.state.plan;
      ghost var goal := Scheduling.SkipTasks(p.dag, tb.Now(), ids, reason, 0);
      for i := 0 to |ids|
        invariant InStep(tb) && Scheduling.SkipTasks(p.dag, tb.Now(), ids, reason, i) == goal
      {
        var t := ids[i];
        assert t in ids;
        if tb.state.status[t] == Pending {
          Move(tb, t, Skipped, TaskSkipped, Reason(reason), Skip(t, Reason(reason)));
        }
      }
    }

    /** Sets the run status and commits the event that ends the process. */
    method EndWith(tb: PersistingTraceBuilder, final: RunStatus, note: Note)
      requires InStep(tb)
      modifies tb.Repr()
      ensures InStep(tb) && tb.Now() == Do(tb.state.plan.dag, old(tb.Now()), EndRun(final, note))
      ensures tb.state.status == old(tb.state.status)
    {
      hide PersistingTraceBuilder.Linked, PersistingTraceBuilder.Synced, Record, Exec;
      ghost var c := tb.Memory();
      label before:
      tb.state.run := final;
      StateMoved@before(tb);
      var kind :=
        if final == SuccessRun then RunCompleted
        else if final == CancelledRun then RunCancelled
        else if final in {InterruptedRun, ReconciliationRequired} then RunInterrupted
        else RunFailed;
      var e := tb.Append(kind, "", None, note, None, c, EndRun(final, note));
      assert e.Ok?;
    }

    /** _cancel_all. */
    method CancelAll(tb: PersistingTraceBuilder)
      requires InStep(tb)
      modifies tb.Repr()
      ensures InStep(tb) && tb.Now() == Scheduling.CancelAll(tb.state.plan, old(tb.Now()))
    {
      hide PersistingTraceBuilder.Linked, PersistingTraceBuilder.Synced, PersistingTraceBuilder.Recorded, Do;
      var p := tb.state.plan;
      ghost var goal := CancelSweep(p, tb.Now(), 0);
      for i := 0 to |p.order|
        invariant InStep(tb) && CancelSweep(p, tb.Now(), i) == goal
      {
        var t := p.order[i];
        assert t in p.order;
        if tb.state.status[t] in {Pending, Ready, Running} {
          Move(tb, t, Cancelled, TaskCancelled, NoNote, CancelTask(t));
        }
      }
      EndWith(tb, CancelledRun, NoNote);
    }

    // ---- Dispatch ----

    /** Draws the attempt id and records the provisional result, before TASK_STARTED is appended. */
    method Provision(tb: PersistingTraceBuilder, t: TaskId) returns (attempt: nat)
      requires InStep(tb) && t in tb.state.plan.dag.tasks && tb.state.status[t] == Ready
      modifies tb.state, tb.inner.ids
      ensures tb.Linked() && tb.Covers() && attempt == old(tb.inner.ids.next)
      ensures Announces(tb.state.plan.dag, old(tb.Memory()), tb.Memory(), Start(t), TaskStarted, t, Some(attempt),
          NoNote, None)
    {
      hide PersistingTraceBuilder.Linked, PersistingTraceBuilder.Synced, PersistingTraceBuilder.Recorded, Announces,
          Effect, Usable, Transition, AllowedTransitions, Mem, Drawn, RunningResult;
      ghost var c := tb.Memory();
      label before:
      ArtifactsDrawn(tb);
      attempt := tb.inner.ids.Draw();
      DrawnBefore(tracker.artifacts, attempt);
      SourcesMoved@before(tb);
      label drawn:
      var prior := if t in tb.state.results then tb.state.results[t].attempts else [];
      var result := TaskResult(tb.state.plan.dag.runId, t, Running, prior + [attempt], [], [], Some("running"));
      ReadyRuns(tb.state.plan.dag, c, t, result);
      tb.state.results := tb.state.results[t := result];
      var next := Transition(tb.state.status[t], Running, false);
      tb.state.status := tb.state.status[t := next.value];
      StateMoved@drawn(tb);
      StartAnnounced(tb.state.plan.dag, c, tb.Memory(), t);
    }

    method StartTask(tb: PersistingTraceBuilder, t: TaskId) returns (attempt: nat, started: EventId)
      requires InStep(tb) && t in tb.state.plan.dag.tasks && tb.state.status[t] == Ready
      modifies tb.Repr()
      ensures InStep(tb) && tb.Now() == Do(tb.state.plan.dag, old(tb.Now()), Start(t))
      ensures attempt == old(tb.inner.ids.next) && started == FreshId(attempt + 1)
    {
      hide PersistingTraceBuilder.Linked, PersistingTraceBuilder.Synced, PersistingTraceBuilder.Covers, Record, Exec,
          Announces, Effect, Usable, WellFormed, EventOf, Apply, Mem;
      NamedTask(tb.state.plan, t);
      ghost var c := tb.Memory();
      attempt := Provision(tb, t);
      StartFormed(tb.state.plan.dag, c, t);
      var e := tb.Append(TaskStarted, t, Some(attempt), NoNote, None, c, Start(t));
      assert e.Ok?;
      started := e.value.id;
    }

    /** One round of the registration loop; an unsafe location raises before anything is recorded. */
    method RegisterOne(tb: PersistingTraceBuilder, t: TaskId, attempt: nat, cand: Candidate)
        returns (r: Result<nat, TrackerError>)
      requires InStep(tb) && t in tb.state.plan.dag.tasks
      requires PriorAttempts(tb.Memory(), t) != [] && attempt == Last(PriorAttempts(tb.Memory(), t))
      modifies tb.Repr()
      ensures InStep(tb) && (r.Ok? <==> LocationOk(cand.location))
      ensures tb.state.results == old(tb.state.results)
      ensures tb.Now() == if r.Ok? then Do(tb.state.plan.dag, old(tb.Now()), Register(t, cand)) else old(tb.Now())
      ensures r.Ok? ==> r.value == old(tb.inner.ids.next)
    {
      hide PersistingTraceBuilder.Linked, PersistingTraceBuilder.Synced, PersistingTraceBuilder.Covers, Record, Exec,
          Announces, Effect, Usable, Apply, Mem, WellFormed, EventOf;
      if cand.location.ref != "" && !cand.location.safe {
        return Err(UnsafeLocation);
      }
      NamedTask(tb.state.plan, t);
      ghost var c := tb.Memory();
      var artifact := RegisterSafe(tb, t, attempt, cand);
      RegisterFormed(tb.state.plan.dag, c, t, cand);
      var e := tb.Append(ArtifactRegistered, t, Some(attempt), Registered(artifact.id), None, c, Register(t, cand));
      assert e.Ok?;
      return Ok(artifact.id);
    }

    /** Registers a safe candidate, before ARTIFACT_REGISTERED is appended. */
    method RegisterSafe(tb: PersistingTraceBuilder, t: TaskId, attempt: nat, cand: Candidate)
        returns (artifact: Artifact)
      requires InStep(tb) && LocationOk(cand.location)
      requires PriorAttempts(tb.Memory(), t) != [] && attempt == Last(PriorAttempts(tb.Memory(), t))
      modifies tracker, tb.inner.ids
      ensures tb.Linked() && tb.Covers() && artifact.id == old(tb.inner.ids.next)
      ensures Announces(tb.state.plan.dag, old(tb.Memory()), tb.Memory(), Register(t, cand), ArtifactRegistered, t,
          Some(attempt), Registered(artifact.id), None)
    {
      hide PersistingTraceBuilder.Linked, PersistingTraceBuilder.Synced, PersistingTraceBuilder.Recorded, Announces,
          Effect, Usable, Put, Mem;
      ArtifactsDrawn(tb);
      ghost var c := tb.Memory();
      label before:
      var registered := tracker.RegisterCandidate(tb.state.plan.dag.runId, t, attempt, cand, RuntimeRun);
      artifact := registered.value;
      PutNew(c.artifacts, artifact);
      SourcesMoved@before(tb);
      RegisterAnnounced(tb.state.plan.dag, c, tb.Memory(), t, cand, artifact);
    }

    method RegisterCandidates(tb: PersistingTraceBuilder, t: TaskId, attempt: nat, cands: seq<Candidate>)
        returns (ids: seq<nat>, raised: bool)
      requires InStep(tb) && t in tb.state.plan.dag.tasks
      requires PriorAttempts(tb.Memory(), t) != [] && attempt == Last(PriorAttempts(tb.Memory(), t))
      modifies tb.Repr()
      ensures InStep(tb)
      ensures Registration(tb.Now(), ids, raised) == RegisterAll(tb.state.plan.dag, old(tb.Now()), t, cands, [], 0)
      ensures raised ==> exists i :: 0 <= i < |cands| && !LocationOk(cands[i].location)
    {
      hide PersistingTraceBuilder.Linked, PersistingTraceBuilder.Synced, PersistingTraceBuilder.Recorded, Do,
          LocationOk;
      var dag := tb.state.plan.dag;
      ids := [];
      ghost var goal := RegisterAll(dag, tb.Now(), t, cands, [], 0);
      for i := 0 to |cands|
        invariant InStep(tb) && tb.state.results == old(tb.state.results)
        invariant RegisterAll(dag, tb.Now(), t, cands, ids, i) == goal
      {
        var r := RegisterOne(tb, t, attempt, cands[i]);
        if r.Err? {
          return ids, true;
        }
        ids := ids + [r.value];
      }
      return ids, false;
    }

    /** Runs the tracker's validation; memory changes only in the artifacts it promotes. */
    method ValidateOutputs(tb: PersistingTraceBuilder, t: TaskId, attempt: nat)
        returns (verdict: Result<seq<nat>, string>)
      requires InStep(tb) && t in tb.state.plan.dag.tasks
      modifies tracker
      ensures tb.Linked() && tb.Covers()
      ensures var dag := tb.state.plan.dag;
              var v := Validate(old(tracker.artifacts), dag.runId, t, attempt, dag.tasks[t].outputs);
              tb.Memory() == old(tb.Memory()).(artifacts := v.artifacts) && verdict == v.verdict
    {
      ArtifactsDrawn(tb);
      hide PersistingTraceBuilder.Linked, PersistingTraceBuilder.Synced, PersistingTraceBuilder.Recorded, Validate;
      ghost var arts := tracker.artifacts;
      label before:
      verdict := tracker.ValidateRequiredOutputs(tb.state.plan.dag.runId, t, attempt,
          tb.state.plan.dag.tasks[t].outputs);
      ValidatePromotes(arts, tb.state.plan.dag.runId, t, attempt, tb.state.plan.dag.tasks[t].outputs);
      PromotedDrawn(arts, tracker.artifacts, attempt, tb.inner.ids.next);
      SourcesMoved@before(tb);
    }

    /** Moves a task to a final status, records its result and commits the closing event. */
    method Close(tb: PersistingTraceBuilder, result: TaskResult, kind: EventKind, note: Note, cause: Option<EventId>,
        recovery: bool, ghost before: Core)
      requires tb.Linked() && tb.Covers() && Serves(tb) && result.taskId in tb.state.plan.dag.tasks
      requires result.status in {Success, Failed, Cancelled}
      requires result.status in AllowedTransitions(tb.state.status[result.taskId], recovery)
      requires result.attempts != [] && kind == ClosingKind(result.status)
      requires tb.Memory() == before.(artifacts := tracker.artifacts) && tb.Began(before)
      modifies tb.Repr()
      ensures InStep(tb)
      ensures var s := State(before, old(tb.log));
              tb.Now() == CloseWith(tb.state.plan.dag, s, result, old(tracker.artifacts), note, cause)
    {
      hide PersistingTraceBuilder.Linked, PersistingTraceBuilder.Synced, Record, Exec, Transition, AllowedTransitions;
      var t := result.taskId;
      label start:
      var next := Transition(tb.state.status[t], result.status, recovery);
      tb.state.status := tb.state.status[t := next.value];
      tb.state.results := tb.state.results[t := result];
      StateMoved@start(tb);
      var e := tb.Append(kind, t, Some(result.attempts[|result.attempts| - 1]), note, cause, before,
          Label.Close(t, result, tracker.artifacts, note, cause));
      assert e.Ok?;
    }

    /** The end of a dispatch once the candidates are registered. */
    method ConcludeOutcome(tb: PersistingTraceBuilder, t: TaskId, attempts: seq<nat>, prior: Option<TaskResult>,
        out: Outcome, produced: seq<nat>, started: EventId)
      requires InStep(tb) && t in tb.state.plan.dag.tasks && tb.state.status[t] == Running
      requires out.Outcome? && attempts != []
      modifies tb.Repr()
      ensures InStep(tb)
      ensures tb.Now() == Conclude(tb.state.plan, old(tb.Now()), t, attempts, prior, out, produced, started)
    {
      hide PersistingTraceBuilder.Linked, PersistingTraceBuilder.Synced, Record, Exec, BuildResult, CloseWith, Validate;
      var dag := tb.state.plan.dag;
      var attempt := attempts[|attempts| - 1];
      ghost var c := tb.Memory();
      if out.cancelled {
        var result := BuildResult(dag, t, Cancelled, attempts, prior, produced, [], out.errors, Some(out.reason));
        Close(tb, result, TaskCancelled, NoNote, Some(started), false, c);
        return;
      }
      if !out.succeeded {
        var extra := if out.errors == [] then [Failure("execution_failed", "execution", t, Some(attempt))] else [];
        var result := BuildResult(dag, t, Failed, attempts, prior, produced, extra, out.errors, Some(out.reason));
        Close(tb, result, TaskFailed, NoNote, Some(started), false, c);
        return;
      }
      ConcludeValidated(tb, t, attempts, prior, out, produced, started);
    }

    /** A reported success counts only if its outputs validate. */
    method ConcludeValidated(tb: PersistingTraceBuilder, t: TaskId, attempts: seq<nat>, prior: Option<TaskResult>,
        out: Outcome, produced: seq<nat>, started: EventId)
      requires InStep(tb) && t in tb.state.plan.dag.tasks && tb.state.status[t] == Running
      requires out.Outcome? && attempts != [] && out.succeeded && !out.cancelled
      modifies tb.Repr()
      ensures InStep(tb)
      ensures tb.Now() == Conclude(tb.state.plan, old(tb.Now()), t, attempts, prior, out, produced, started)
    {
      hide PersistingTraceBuilder.Linked, PersistingTraceBuilder.Synced, Record, Exec, BuildResult, CloseWith,
          Validate, Conclude;
      var dag := tb.state.plan.dag;
      var attempt := attempts[|attempts| - 1];
      ghost var c := tb.Memory();
      ghost var s := tb.Now();
      ConcludeCases(tb.state.plan, s, t, attempts, prior, out, produced, started);
      var verdict := ValidateOutputs(tb, t, attempt);
      match verdict
      case Err(code) =>
        var failure := Failure(code, "artifact_validation", t, Some(attempt));
        var result := BuildResult(dag, t, Failed, attempts, prior, produced, [failure], out.errors, Some(out.reason));
        Close(tb, result, TaskFailed, Reason("artifact_validation"), Some(started), false, c);
      case Ok(valid) =>
        var result := BuildResult(dag, t, Success, attempts, prior, valid, [], out.errors, Some(out.reason));
        Close(tb, result, TaskCompleted, NoNote, Some(started), false, c);
    }

    /** What follows the executor call. */
    method RecordOutcome(tb: PersistingTraceBuilder, t: TaskId, attempts: seq<nat>, prior: Option<TaskResult>,
        outcome: Outcome, started: EventId)
      returns (abort: Option<Abort>)
      requires InStep(tb) && t in tb.state.plan.dag.tasks && tb.state.status[t] == Running
      requires attempts != [] && PriorAttempts(tb.Memory(), t) == attempts
      modifies tb.Repr()
      ensures InStep(tb)
      ensures Step(tb.Now(), abort.Some?)
           == AfterStart(tb.state.plan, old(tb.Now()), t, attempts, prior, outcome, started)
      ensures abort.Some? ==> Explains(outcome, abort.value) && abort.value != MissingRunState
      ensures abort.Some? ==> tb.state.results == old(tb.state.results) && tb.state.status == old(tb.state.status)
    {
      hide PersistingTraceBuilder.Linked, PersistingTraceBuilder.Synced, Record, Exec, BuildResult, CloseWith,
          Conclude, RegisterAll, Do;
      var dag := tb.state.plan.dag;
      var attempt := attempts[|attempts| - 1];
      match outcome
      case EngineError =>
        return Some(ExecutorRaised);
      case Exception =>
        var failure := Failure("executor_exception", "execution", t, Some(attempt));
        var result := BuildResult(dag, t, Failed, attempts, prior, [], [failure], [], None);
        Close(tb, result, TaskFailed, Reason("executor_exception"), Some(started), false, tb.Memory());
        return None;
      case Outcome(cands, _, _, _, _) =>
        var produced, raised := RegisterCandidates(tb, t, attempt, cands);
        if raised {
          return Some(UnsafeCandidate);
        }
        ConcludeOutcome(tb, t, attempts, prior, outcome, produced, started);
        return None;
    }

    /** _dispatch_task: Err when an engine error leaves the process, with the last commit standing. */
    method DispatchTask(tb: PersistingTraceBuilder, t: TaskId) returns (r: Result<TaskResult, Abort>)
      requires InStep(tb) && t in tb.state.plan.dag.tasks && tb.state.status[t] == Ready
      modifies tb.Repr()
      ensures InStep(tb) && Step(tb.Now(), r.Err?) == Dispatch(tb.state.plan, env, old(tb.Now()), t)
      ensures r.Err? ==> Blames(env, tb.Memory(), t, r.error)
      ensures r.Ok? ==> t in tb.state.results && r.value == tb.state.results[t]
      ensures r.Ok? && r.value.status == Cancelled ==> Blames(env, tb.Memory(), t, MissingRunState)
    {
      hide PersistingTraceBuilder.Linked, PersistingTraceBuilder.Synced, PersistingTraceBuilder.Recorded, AfterStart,
          Do, Explains, PersistingTraceBuilder.Covers, Mem, Usable, EventOf;
      var dag := tb.state.plan.dag;
      var prior := if t in tb.state.results then Some(tb.state.results[t]) else None;
      var priorAttempts := if t in tb.state.results then tb.state.results[t].attempts else [];
      ghost var s := tb.Now();
      var attempt, started := StartTask(tb, t);
      StartedFacts(dag, s, t);
      var outcome := env.exec(t, attempt);
      CancelledBy(tb.state.plan, tb.Now(), t, priorAttempts + [attempt], prior, outcome, started);
      var abort := RecordOutcome(tb, t, priorAttempts + [attempt], prior, outcome, started);
      return if abort.Some? then Err(abort.value) else Ok(tb.state.results[t]);
    }

    // ---- Reconciliation ----

    /** One round of _reconcile_indeterminate_tasks. */
    method ReconcileRound(tb: PersistingTraceBuilder, t: TaskId) returns (blocked: bool)
      requires InStep(tb) && t in tb.state.plan.dag.tasks && tb.state.status[t] == Running
      modifies tb.Repr()
      ensures InStep(tb) && Reconciled(tb.Now(), blocked) == ReconcileOne(tb.state.plan, env, old(tb.Now()), t)
      ensures forall u :: u in tb.state.status && u != t ==> tb.state.status[u] == old(tb.state.status)[u]
    {
      hide PersistingTraceBuilder.Linked, PersistingTraceBuilder.Synced, PersistingTraceBuilder.Recorded, BuildResult,
          ReconcileSuccess, CloseWith;
      ghost var s := tb.Now();
      if t !in tb.state.results || tb.state.results[t].attempts == [] {
        return false;
      }
      var dag := tb.state.plan.dag;
      var prior := tb.state.results[t];
      var attempt := prior.attempts[|prior.attempts| - 1];
      ReconcileCases(tb.state.plan, env, s, t);
      hide ReconcileOne, ClosedAs;
      var reported := env.reconcile(t, attempt);
      match reported
      case StillRunning =>
        EndWith(tb, InterruptedRun, Reason("still_running"));
        return true;
      case Unknown =>
        EndWith(tb, ReconciliationRequired, Reason("unknown"));
        return true;
      case Lost =>
        EndWith(tb, ReconciliationRequired, Reason("lost"));
        return true;
      case ReportedFailed(error) =>
        SettleAs(tb, t, prior, Failed, error);
        return false;
      case ReportedCancelled =>
        SettleAs(tb, t, prior, Cancelled, None);
        return false;
      case Succeeded =>
        ReconcileReportedSuccess(tb, t, prior);
        return false;
    }

    /** Closes an attempt the backend reports as failed or cancelled. */
    method SettleAs(
      tb: PersistingTraceBuilder, t: TaskId, prior: TaskResult, status: Status, reported: Option<Failure>)
      requires InStep(tb) && t in tb.state.plan.dag.tasks && tb.state.status[t] == Running && prior.attempts != []
      requires status in {Failed, Cancelled}
      modifies tb.Repr()
      ensures InStep(tb) && tb.Now() == ClosedAs(tb.state.plan, old(tb.Now()), t, prior, status, reported)
      ensures forall u :: u in tb.state.status && u != t ==> tb.state.status[u] == old(tb.state.status)[u]
    {
      hide PersistingTraceBuilder.Linked, PersistingTraceBuilder.Synced, Record, Exec, BuildResult, CloseWith;
      var dag := tb.state.plan.dag;
      var attempt := prior.attempts[|prior.attempts| - 1];
      if status == Failed {
        var error :=
          if reported.Some? then reported.value
          else Failure("reconciliation_failed", "reconciliation", t, Some(attempt));
        var result := BuildResult(dag, t, Failed, prior.attempts, Some(prior), prior.artifactIds, [error], [], None);
        Close(tb, result, TaskFailed, Reason("reconciliation"), None, true, tb.Memory());
      } else {
        var result := BuildResult(dag, t, Cancelled, prior.attempts, Some(prior), prior.artifactIds, [], [],
            Some("cancelled"));
        Close(tb, result, TaskCancelled, NoNote, None, true, tb.Memory());
      }
    }

    method ReconcileReportedSuccess(tb: PersistingTraceBuilder, t: TaskId, prior: TaskResult)
      requires InStep(tb) && t in tb.state.plan.dag.tasks && tb.state.status[t] == Running && prior.attempts != []
      modifies tb.Repr()
      ensures InStep(tb) && tb.Now() == ReconcileSuccess(tb.state.plan, old(tb.Now()), t, prior)
      ensures forall u :: u in tb.state.status && u != t ==> tb.state.status[u] == old(tb.state.status)[u]
    {
      hide PersistingTraceBuilder.Linked, PersistingTraceBuilder.Synced, Record, Exec, BuildResult, CloseWith, Validate;
      var dag := tb.state.plan.dag;
      var attempt := prior.attempts[|prior.attempts| - 1];
      ghost var c := tb.Memory();
      var verdict := ValidateOutputs(tb, t, attempt);
      match verdict
      case Err(code) =>
        var failure := Failure(code, "artifact_validation", t, Some(attempt));
        var result := BuildResult(dag, t, Failed, prior.attempts, Some(prior), prior.artifactIds, [failure], [], None);
        Close(tb, result, TaskFailed, Reason("artifact_validation"), None, true, c);
      case Ok(valid) =>
        var result := BuildResult(dag, t, Success, prior.attempts, Some(prior), valid, [], [],
            Some("reconciled_success"));
        Close(tb, result, TaskCompleted, Reason("reconciliation"), None, true, c);
    }

    /** _reconcile_indeterminate_tasks: true when an attempt that cannot be settled ends the process. */
    method ReconcileIndeterminateTasks(tb: PersistingTraceBuilder, ids: seq<TaskId>) returns (blocked: bool)
      requires InStep(tb) && Distinct(ids)
      requires forall t :: t in ids ==> t in tb.state.plan.dag.tasks && tb.state.status[t] == Running
      modifies tb.Repr()
      ensures InStep(tb) && Reconciled(tb.Now(), blocked) == Reconcile(tb.state.plan, env, old(tb.Now()), ids, 0)
    {
      hide PersistingTraceBuilder.Linked, PersistingTraceBuilder.Synced, PersistingTraceBuilder.Recorded, ReconcileOne;
      var p := tb.state.plan;
      ghost var goal := Reconcile(p, env, tb.Now(), ids, 0);
      for i := 0 to |ids|
        invariant InStep(tb) && Reconcile(p, env, tb.Now(), ids, i) == goal
        invariant forall j :: i <= j < |ids| ==> ids[j] in tb.state.status && tb.state.status[ids[j]] == Running
      {
        assert ids[i] in ids;
        blocked := ReconcileRound(tb, ids[i]);
        if blocked {
          return true;
        }
      }
      return false;
    }

    // ---- The run ----

    /** Fails fast after `f`: everything still pending is skipped. */
    method FailFast(tb: PersistingTraceBuilder, f: TaskId)
      requires InStep(tb)
      modifies tb.Repr()
      ensures InStep(tb) && tb.Now() == FailFastFrom(tb.state.plan, old(tb.Now()), f)
    {
      hide PersistingTraceBuilder.Linked, PersistingTraceBuilder.Synced, PersistingTraceBuilder.Recorded,
          Scheduling.PropagateSkips, SkipRemaining;
      PropagateSkips(tb, f);
      SkipRemainingPending(tb, "fail_fast");
    }

    /** The end of an ordinary run: the final status and its event. */
    method FinishRun(tb: PersistingTraceBuilder)
      requires InStep(tb)
      modifies tb.Repr()
      ensures InStep(tb) && tb.Now() == Finish(tb.state.plan, old(tb.Now()))
    {
      hide PersistingTraceBuilder.Linked, PersistingTraceBuilder.Synced, PersistingTraceBuilder.Recorded, Do,
          TerminalRunStatus;
      var final := TerminalRunStatus(tb.state.status);
      if exists t :: t in tb.state.status && tb.state.status[t] == Running {
        final := ReconciliationRequired;
      }
      EndWith(tb, final, NoNote);
    }

    /** One dispatch of the first ready task and what its result entails; Err when the process must stop. */
    method RunOne(tb: PersistingTraceBuilder, t: TaskId) returns (r: Result<Status, Abort>)
      requires InStep(tb) && t in tb.state.plan.dag.tasks && tb.state.status[t] == Pending
      modifies tb.Repr()
      ensures InStep(tb)
      ensures var s := old(tb.Now());
              var d := Dispatch(tb.state.plan, env, Do(tb.state.plan.dag, s, MakeReady(t)), t);
              && (r.Err? <==> d.aborted || d.state.core.results[t].status == Cancelled)
              && (r.Ok? ==> r.value == d.state.core.results[t].status)
              && tb.Now() == if r == Ok(Failed) then FailFastFrom(tb.state.plan, d.state, t) else d.state
      ensures r.Err? ==> Blames(env, tb.Memory(), t, r.error)
    {
      hide PersistingTraceBuilder.Linked, PersistingTraceBuilder.Synced, PersistingTraceBuilder.Recorded, Do,
          Dispatch, FailFastFrom;
      ReadyStatus(tb.state.plan.dag, tb.Now(), t);
      Move(tb, t, Ready, TaskReady, NoNote, MakeReady(t));
      var dispatched := DispatchTask(tb, t);
      if dispatched.Err? {
        return Err(dispatched.error);
      }
      if dispatched.value.status == Cancelled {
        return Err(MissingRunState);
      }
      if dispatched.value.status == Failed {
        FailFast(tb, t);
      }
      return Ok(dispatched.value.status);
    }

    /** The scheduling loop; what it returns is the exception that ended it. */
    method RunLoop(tb: PersistingTraceBuilder) returns (abort: Option<Abort>)
      requires InStep(tb)
      modifies tb.Repr()
      ensures InStep(tb) && Step(tb.Now(), abort.Some?) == Loop(tb.state.plan, env, old(tb.Now()), false)
      ensures abort.Some? ==> Blamed(env, tb.Memory(), abort.value)
    {
      hide PersistingTraceBuilder.Linked, PersistingTraceBuilder.Synced, PersistingTraceBuilder.Recorded, Do,
          Dispatch, FailFastFrom, Scheduling.SkipTasks, Finish, ReadyIds, FirstBlocked, Loop;
      var p := tb.state.plan;
      ghost var goal := Loop(p, env, tb.Now(), false);
      var failed := false;
      while true
        invariant InStep(tb) && Loop(p, env, tb.Now(), failed) == goal
        decreases Pendings(tb.Memory())
      {
        var ready := ReadyTaskIds(p, View(tb), tb.Memory());
        if ready == [] {
          LoopEnds(p, env, tb.Now(), failed);
          var blocked := FailFirstInputBlocked(tb);
          if blocked.Some? {
            FailFast(tb, blocked.value);
          }
          FinishRun(tb);
          return None;
        }
        LoopGoesOn(p, env, tb.Now(), failed);
        if failed {
          SkipTasks(tb, ready, "upstream_failure");
          continue;
        }
        var r := RunOne(tb, ready[0]);
        if r.Err? {
          return Some(r.error);
        }
        failed := r.value == Failed;
      }
    }

    /** Marks the run as running and commits RUN_STARTED unless the trace has one. */
    method Open(tb: PersistingTraceBuilder)
      requires Receives(tb)
      modifies tb.Repr()
      ensures InStep(tb) && tb.Now() == Opening(tb.state.plan, old(tb.Memory()))
    {
      StartedInMemory(tb);
      hide PersistingTraceBuilder.Linked, PersistingTraceBuilder.Synced, Record, Exec;
      ghost var c := tb.Memory();
      label before:
      tb.state.run := RunningRun;
      StateMoved@before(tb);
      if !exists i :: 0 <= i < |tb.inner.events| && tb.inner.events[i].kind == RunStarted {
        var e := tb.Append(RunStarted, "", None, NoNote, None, tb.Memory(), RunStart);
        assert e.Ok?;
      }
    }

    /** Everything run does before it returns, and the exception that ended it. */
    method RunSession(tb: PersistingTraceBuilder, cancelled: bool) returns (abort: Option<Abort>)
      requires Receives(tb)
      requires Distinct(tb.state.plan.order) && Recoverable(tb.state.plan, tb.Memory())
      modifies tb.Repr()
      ensures InStep(tb) && Step(tb.Now(), abort.Some?) == Session(tb.state.plan, env, old(tb.Memory()), cancelled)
      ensures abort.Some? ==> Blamed(env, tb.Memory(), abort.value)
    {
      hide PersistingTraceBuilder.Linked, PersistingTraceBuilder.Synced, PersistingTraceBuilder.Recorded, AnyDoomed,
          Opening, Loop, Reconcile, IndeterminateIds, SkipRemaining, Scheduling.CancelAll;
      var p := tb.state.plan;
      OpeningKeeps(p, tb.Memory());
      Open(tb);
      if cancelled {
        CancelAll(tb);
        return None;
      }
      var ids := IndeterminateTasks(p, View(tb), tb.Memory());
      IndeterminateFacts(p, tb.Memory(), |p.order|);
      if ids != [] {
        var blocked := ReconcileIndeterminateTasks(tb, ids);
        if blocked {
          return None;
        }
      } else {
        NothingToReconcile(p, env, tb.Now());
      }
      abort := RunReconciled(tb);
    }

    /** The run once nothing is indeterminate: tasks that already ended badly keep the rest from starting. */
    method RunReconciled(tb: PersistingTraceBuilder) returns (abort: Option<Abort>)
      requires InStep(tb)
      modifies tb.Repr()
      ensures InStep(tb)
      ensures var s := old(tb.Now());
              var s' := if AnyDoomed(s.core) then SkipRemaining(tb.state.plan, s, "prior_terminal_state", 0) else s;
              Step(tb.Now(), abort.Some?) == Loop(tb.state.plan, env, s', false)
      ensures abort.Some? ==> Blamed(env, tb.Memory(), abort.value)
    {
      hide PersistingTraceBuilder.Linked, PersistingTraceBuilder.Synced, PersistingTraceBuilder.Recorded, Loop,
          SkipRemaining;
      if exists t :: t in tb.state.status && tb.state.status[t] in {Failed, Skipped, Cancelled} {
        SkipRemainingPending(tb, "prior_terminal_state");
      }
      abort := RunLoop(tb);
    }

    /** SequentialScheduler.run. The returned trace is the one in memory, and it must validate. */
    method Run(tb: PersistingTraceBuilder, cancelled: bool) returns (r: Result<SchedulerResult, Abort>)
      requires Receives(tb)
      requires Distinct(tb.state.plan.order) && Recoverable(tb.state.plan, tb.Memory())
      modifies tb.Repr()
      ensures InStep(tb)
      ensures var session := Session(tb.state.plan, env, old(tb.Memory()), cancelled);
              && tb.Now() == session.state
              && (r.Ok? <==> !session.aborted && ValidTrace(tb.inner.runId, tb.inner.events))
              && (session.aborted ==> Blamed(env, session.state.core, r.error))
      ensures r.Ok? ==>
                && r.value.run == tb.state.run && r.value.statuses == tb.state.status
                && r.value.results == tb.state.results
                && r.value.trace == tb.inner.events
                && Manifest.IsManifest(tb.state.plan, tb.Memory(), tracker.receiptOk, r.value.artifactIds)
    {
      hide Session;
      var abort := RunSession(tb, cancelled);
      if abort.Some? {
        return Err(abort.value);
      }
      r := Summarize(tb);
    }

    method Summarize(tb: PersistingTraceBuilder) returns (r: Result<SchedulerResult, Abort>)
      requires InStep(tb)
      ensures r.Ok? <==> ValidTrace(tb.inner.runId, tb.inner.events)
      ensures r.Ok? ==>
                && r.value.run == tb.state.run && r.value.statuses == tb.state.status
                && r.value.results == tb.state.results
                && r.value.trace == tb.inner.events
                && Manifest.IsManifest(tb.state.plan, tb.Memory(), tracker.receiptOk, r.value.artifactIds)
    {
      var built := tb.inner.Build();
      if built.Err? {
        return Err(BadTrace(built.error));
      }
      var flat := Flat(tb.state.run, tb.state.status, tb.state.results, tracker.artifacts);
      var ids := Manifest.ArtifactIdsFromResults(tb.state.plan, flat, tracker.receiptOk);
      Manifest.SameManifest(tb.state.plan, flat, tb.Memory(), tracker.receiptOk, tracker.receiptOk, ids);
      return Ok(SchedulerResult(tb.state.run, tb.state.status, tb.state.results, built.value, ids));
    }
  }

  /** The loop with nothing ready: at most one input-blocked task is failed, and the run ends. */
  lemma LoopEnds(p: Plan, e: Env, s: State, failed: bool)
    requires ReadyIds(p, s.core, |p.order|) == []
    ensures Loop(p, e, s, failed) == Step(Finish(p,
              match FirstBlocked(p, s.core, 0)
              case None => s
              case Some(t) => FailFastFrom(p, Do(p.dag, s, Block(t, BlockedResult(p.dag, t),
                  Reason("required_input_unavailable"))), t)), false)
  {
    hide Do, Finish, FailFastFrom, ReadyIds, FirstBlocked, Dispatch;
  }

  /** The loop with something ready: what one more round leaves to do, with fewer tasks pending. */
  lemma LoopGoesOn(p: Plan, e: Env, s: State, failed: bool)
    requires ReadyIds(p, s.core, |p.order|) != []
    ensures var ready := ReadyIds(p, s.core, |p.order|);
            var s' := Scheduling.SkipTasks(p.dag, s, ready, "upstream_failure", 0);
            && (forall t :: t in ready ==> t in p.dag.tasks && Has(s.core, t, Pending))
            && (failed ==> Pendings(s'.core) < Pendings(s.core) && Loop(p, e, s, failed) == Loop(p, e, s', true))
    ensures !failed ==>
              var t := ReadyIds(p, s.core, |p.order|)[0];
              var d := Dispatch(p, e, Do(p.dag, s, MakeReady(t)), t);
              if d.aborted then Loop(p, e, s, failed) == d
              else
                && t in d.state.core.results && Pendings(d.state.core) < Pendings(s.core)
                && Pendings(FailFastFrom(p, d.state, t).core) < Pendings(s.core)
                && Loop(p, e, s, failed) ==
                     if d.state.core.results[t].status == Failed then Loop(p, e, FailFastFrom(p, d.state, t), true)
                     else if d.state.core.results[t].status == Cancelled then Step(d.state, true)
                     else Loop(p, e, d.state, failed)
  {
    hide Finish, FailFastFrom, ReadyIds, FirstBlocked, Dispatch, Scheduling.SkipTasks;
    var t := ReadyIds(p, s.core, |p.order|)[0];
    assert t in Pendings(s.core);
    var d := Dispatch(p, e, Do(p.dag, s, MakeReady(t)), t);
    if !d.aborted {
      assert Pendings(d.state.core) == Pendings(s.core) - {t};
    }
  }

  /** What a reported failure or cancellation leaves behind. */
  function ClosedAs(p: Plan, s: State, t: TaskId, prior: TaskResult, status: Status, error: Option<Failure>): State
    requires prior.attempts != []
  {
    if status == Failed then
      CloseWith(p.dag, s, BuildResult(p.dag, t, Failed, prior.attempts, Some(prior), prior.artifactIds,
          [ReportedError(t, Last(prior.attempts), error)], [], None),
        s.core.artifacts, Reason("reconciliation"), None)
    else
      CloseWith(p.dag, s, BuildResult(p.dag, t, Cancelled, prior.attempts, Some(prior), prior.artifactIds, [], [],
          Some("cancelled")),
        s.core.artifacts, NoNote, None)
  }

  lemma ReconcileCases(p: Plan, e: Env, s: State, t: TaskId)
    requires t in s.core.results && t in p.dag.tasks && s.core.results[t].attempts != []
    ensures var prior := s.core.results[t];
            ReconcileOne(p, e, s, t) ==
            match e.reconcile(t, Last(prior.attempts))
            case StillRunning => Reconciled(Do(p.dag, s, EndRun(InterruptedRun, Reason("still_running"))), true)
            case Unknown => Reconciled(Do(p.dag, s, EndRun(ReconciliationRequired, Reason("unknown"))), true)
            case Lost => Reconciled(Do(p.dag, s, EndRun(ReconciliationRequired, Reason("lost"))), true)
            case ReportedFailed(error) => Reconciled(ClosedAs(p, s, t, prior, Failed, error), false)
            case ReportedCancelled => Reconciled(ClosedAs(p, s, t, prior, Cancelled, None), false)
            case Succeeded => Reconciled(ReconcileSuccess(p, s, t, prior), false)
  {
    hide Do, BuildResult, CloseWith, ReconcileSuccess;
  }

  lemma ReadyStatus(dag: Dag, s: State, t: TaskId)
    requires t in s.core.status
    ensures Do(dag, s, MakeReady(t)).core.status == s.core.status[t := Ready]
  {
  }

  ghost predicate MarkedResumed(mark: Option<Mark>) {
    mark.Some? ==> mark.value.event.kind == RunResumed
  }

  lemma StartedInMemory(tb: PersistingTraceBuilder)
    requires tb.Linked() && MarkedResumed(tb.mark)
    ensures (exists i :: 0 <= i < |tb.inner.events| && tb.inner.events[i].kind == RunStarted)
       <==> (exists i :: 0 <= i < |tb.Memory().trace| && tb.Memory().trace[i].kind == RunStarted)
  {
    StartedInMem(tb.Memory());
  }

  lemma StartedInMem(c: Core)
    requires (c.mark.Some? ==> c.mark.value.at <= |c.trace|) && MarkedResumed(c.mark)
    ensures (exists i :: 0 <= i < |Mem(c)| && Mem(c)[i].kind == RunStarted) <==>
          (exists i :: 0 <= i < |c.trace| && c.trace[i].kind == RunStarted)
  {
    if c.mark.Some? {
      var at := c.mark.value.at;
      var mem := Mem(c);
      forall i | 0 <= i < |c.trace| && c.trace[i].kind == RunStarted
        ensures exists j :: 0 <= j < |mem| && mem[j].kind == RunStarted
      {
        assert mem[if i < at then i else i + 1].kind == RunStarted;
      }
      forall i | 0 <= i < |mem| && mem[i].kind == RunStarted
        ensures exists j :: 0 <= j < |c.trace| && c.trace[j].kind == RunStarted
      {
        assert c.trace[if i < at then i else i - 1].kind == RunStarted;
      }
    } else {
      assert Mem(c) == c.trace;
    }
  }

  lemma OpeningKeeps(p: Plan, c: Core)
    ensures Opening(p, c).core.status == c.status && Opening(p, c).core.results == c.results
  {
  }

  /** An attempt recorded as open belongs to a task that was reloaded as running. */
  ghost predicate Recoverable(p: Plan, c: Core) {
    forall t :: t in p.order && Indeterminate(c, t) ==> Has(c, t, Running)
  }

  /** The comprehension that collects the indeterminate tasks. */
  method IndeterminateTasks(p: Plan, v: Tables, ghost c: Core) returns (ids: seq<TaskId>)
    requires Shows(v, c)
    ensures ids == IndeterminateIds(p, c, |p.order|)
  {
    hide IndeterminateIds;
    ids := [];
    NoneIndeterminateYet(p, c);
    for i := 0 to |p.order|
      invariant ids == IndeterminateIds(p, c, i)
    {
      var t := p.order[i];
      IndeterminateNext(p, c, i);
      if t in v.results && (v.results[t].status == Running || (t in v.status && v.status[t] == Running)) {
        ids := ids + [t];
      }
    }
  }

  lemma NoneIndeterminateYet(p: Plan, c: Core)
    ensures IndeterminateIds(p, c, 0) == []
  {
  }

  lemma IndeterminateNext(p: Plan, c: Core, i: nat)
    requires i < |p.order|
    ensures IndeterminateIds(p, c, i + 1)
         == IndeterminateIds(p, c, i) + if Indeterminate(c, p.order[i]) then [p.order[i]] else []
  {
    hide Indeterminate;
  }

  lemma {:induction false} IndeterminateFacts(p: Plan, c: Core, n: nat)
    requires n <= |p.order| && Distinct(p.order)
    ensures Distinct(IndeterminateIds(p, c, n))
    ensures forall t :: t in IndeterminateIds(p, c, n) ==> t in p.order && Indeterminate(c, t)
  {
    hide Indeterminate, IndeterminateIds;
    NoneIndeterminateYet(p, c);
    if n > 0 {
      IndeterminateFacts(p, c, n - 1);
      IndeterminateNext(p, c, n - 1);
      assert p.order[n - 1] !in p.order[..n - 1];
    }
  }

  lemma NothingToReconcile(p: Plan, e: Env, s: State)
    ensures Reconcile(p, e, s, [], 0) == Reconciled(s, false)
  {
  }

  /** The tables as a state; trace, ids and mark do not matter to what reads it. */
  function Flat(run: RunStatus, status: map<TaskId, Status>, results: map<TaskId, TaskResult>,
      artifacts: seq<Artifact>): Core {
    Core(run, status, results, [], artifacts, 0, 0, None)
  }

  lemma ConcludeCases(p: Plan, s: State, t: TaskId, attempts: seq<nat>, prior: Option<TaskResult>, out: Outcome,
      ids: seq<nat>, started: EventId)
    requires out.Outcome? && attempts != [] && t in p.dag.tasks && out.succeeded && !out.cancelled
    ensures var v := Validate(s.core.artifacts, p.dag.runId, t, Last(attempts), p.dag.tasks[t].outputs);
            Conclude(p, s, t, attempts, prior, out, ids, started) ==
            match v.verdict
            case Err(code) =>
              CloseWith(p.dag, s, BuildResult(p.dag, t, Failed, attempts, prior, ids,
                  [Failure(code, "artifact_validation", t, Some(Last(attempts)))], out.errors, Some(out.reason)),
                v.artifacts, Reason("artifact_validation"), Some(started))
            case Ok(valid) =>
              CloseWith(p.dag, s, BuildResult(p.dag, t, Success, attempts, prior, valid, [], out.errors,
                  Some(out.reason)), v.artifacts, NoNote, Some(started))
  {
    hide BuildResult, CloseWith, Validate;
  }

  lemma NamedTask(p: Plan, t: TaskId)
    requires Usable(p) && t in p.dag.tasks
    ensures t != ""
  {
  }

  lemma DrawnBefore(arts: seq<Artifact>, supply: nat)
    requires Drawn(arts, supply)
    ensures Drawn(arts, supply + 1)
  {
  }

  lemma ReadyRuns(dag: Dag, c: Core, t: TaskId, r: TaskResult)
    requires r == TaskResult(dag.runId, t, Running, PriorAttempts(c, t) + [c.supply], [], [], Some("running"))
    ensures r == RunningResult(dag, c, t, c.supply) && Running in AllowedTransitions(Ready, false)
  {
  }

  lemma MoveAnnounced(dag: Dag, c: Core, now: Core, t: TaskId, target: Status, kind: EventKind, note: Note, step: Label)
    requires Effect(dag, c, step) == Change(c.run, t, Some(target), None, c.artifacts, 0, kind, None, note, None)
    requires kind in {TaskReady, TaskSkipped, TaskCancelled} && t != ""
    requires now == c.(status := c.status[t := target])
    ensures Announces(dag, c, now, step, kind, t, None, note, None) && WellFormed(EventOf(dag, c, Effect(dag, c, step)))
  {
    hide Effect;
  }

  lemma StartAnnounced(dag: Dag, c: Core, now: Core, t: TaskId)
    requires now == c.(status := c.status[t := Running], results := c.results[t := RunningResult(dag, c, t, c.supply)],
        supply := c.supply + 1)
    ensures Announces(dag, c, now, Start(t), TaskStarted, t, Some(c.supply), NoNote, None)
  {
  }

  lemma StartFormed(dag: Dag, c: Core, t: TaskId)
    ensures t != "" ==> WellFormed(EventOf(dag, c, Effect(dag, c, Start(t))))
    ensures EventOf(dag, c, Effect(dag, c, Start(t))).id == FreshId(c.supply + 1)
  {
  }

  lemma RegisterAnnounced(dag: Dag, c: Core, now: Core, t: TaskId, cand: Candidate, art: Artifact)
    requires art == NewArtifact(dag, c, t, cand)
    requires now == c.(artifacts := c.artifacts + [art], supply := c.supply + 1)
    ensures Announces(dag, c, now, Register(t, cand), ArtifactRegistered, t, Some(art.attempt), Registered(art.id),
        None)
  {
  }

  lemma RegisterFormed(dag: Dag, c: Core, t: TaskId, cand: Candidate)
    ensures t != "" ==> WellFormed(EventOf(dag, c, Effect(dag, c, Register(t, cand))))
  {
  }

  lemma StartedFacts(dag: Dag, s: State, t: TaskId)
    ensures var c := Do(dag, s, Start(t)).core;
            && Has(c, t, Running) && PriorAttempts(c, t) == PriorAttempts(s.core, t) + [s.core.supply]
  {
  }

  lemma PromotedDrawn(arts: seq<Artifact>, arts': seq<Artifact>, attempt: nat, supply: nat)
    requires Drawn(arts, supply) && Promoted(arts, arts', attempt)
    ensures Drawn(arts', supply)
  {
    forall i, j | 0 <= i < j < |arts'|
      ensures arts'[i].id != arts'[j].id
    {
      assert arts'[i].id == arts[i].id && arts'[j].id == arts[j].id;
    }
  }

  lemma {:induction false} AllRegistered(dag: Dag, s: State, t: TaskId, cands: seq<Candidate>, ids: seq<nat>, i: nat)
    requires i <= |cands| && !RegisterAll(dag, s, t, cands, ids, i).aborted
    ensures forall j :: i <= j < |cands| ==> LocationOk(cands[j].location)
    decreases |cands| - i
  {
    hide Do, LocationOk;
    if i < |cands| {
      AllRegistered(dag, Do(dag, s, Register(t, cands[i])), t, cands, ids + [s.core.supply], i + 1);
    }
  }

  /** Only a report that says so, with every location safe, closes an attempt as cancelled. */
  lemma CancelledBy(p: Plan, s: State, t: TaskId, attempts: seq<nat>, prior: Option<TaskResult>, out: Outcome,
      started: EventId)
    requires t in p.dag.tasks && attempts != []
    ensures var r := AfterStart(p, s, t, attempts, prior, out, started);
            !r.aborted && r.state.core.results[t].status == Cancelled ==>
              && r.state.core.results[t].attempts == attempts && Has(r.state.core, t, Cancelled)
              && Explains(out, MissingRunState)
  {
    hide Do, RegisterAll, Validate, LocationOk;
    match out
    case EngineError =>
    case Exception =>
    case Outcome(cands, _, _, _, _) =>
      if !RegisterAll(p.dag, s, t, cands, [], 0).aborted {
        AllRegistered(p.dag, s, t, cands, [], 0);
      }
  }

  lemma LogGrows(dag: Dag, s: State, l: Label)
    ensures |Do(dag, s, l).log| == |s.log| + 1
  {
  }
}
