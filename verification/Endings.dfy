/** How processes begin and end in the trace: one RUN_STARTED a run, one closing event a process. */
module Endings {
  import opened Model
  import opened Machine
  import opened Invariants
  import opened Scheduling
  import opened Sessions
  import opened Runs
  import opened Chains
  import Artifacts
  import Transitions

  // ---- What a process appends to its log ----

  /** Later in the same process, with no end of it in between. */
  ghost predicate Adds(s: State, s': State) {
    s.log <= s'.log && forall i :: |s.log| <= i < |s'.log| ==> !s'.log[i].EndRun?
  }

  /** Later in the same process, which ended there and not before. */
  ghost predicate Ends(s: State, s': State) {
    && |s.log| < |s'.log| && s.log <= s'.log && Last(s'.log).EndRun?
    && forall i :: |s.log| <= i < |s'.log| - 1 ==> !s'.log[i].EndRun?
  }

  /** Stopped short by an exception, or ended. */
  ghost predicate Closed(s: State, r: Step) {
    if r.aborted then Adds(s, r.state) else Ends(s, r.state)
  }

  lemma AddsNothing(s: State)
    ensures Adds(s, s)
  {
  }

  lemma AddsOne(dag: Dag, s: State, l: Label)
    ensures if l.EndRun? then Ends(s, Do(dag, s, l)) else Adds(s, Do(dag, s, l))
  {
  }

  lemma AddsThen(s: State, m: State, s': State)
    requires Adds(s, m)
    ensures Adds(m, s') ==> Adds(s, s')
    ensures Ends(m, s') ==> Ends(s, s')
  {
    if Adds(m, s') || Ends(m, s') {
      assert forall i :: |s.log| <= i < |m.log| ==> s'.log[i] == m.log[i];
    }
  }

  lemma {:induction false} SweepAdds(p: Plan, s: State, f: TaskId, i: nat)
    requires i <= |p.order|
    ensures Adds(s, SkipSweep(p, s, f, i))
    decreases |p.order| - i
  {
    hide Do, HitByFailure, Adds;
    if i == |p.order| {
      AddsNothing(s);
    } else if HitByFailure(p.dag, s.core, p.order[i]) {
      var s' := Do(p.dag, s, Skip(p.order[i], BlockedBy(f)));
      AddsOne(p.dag, s, Skip(p.order[i], BlockedBy(f)));
      SweepAdds(p, s', f, i + 1);
      AddsThen(s, s', SkipSweep(p, s', f, i + 1));
    } else {
      SweepAdds(p, s, f, i + 1);
    }
  }

  lemma {:induction false} PropagateAdds(p: Plan, s: State, f: TaskId)
    ensures Adds(s, PropagateSkips(p, s, f))
    decreases Pendings(s.core)
  {
    hide Adds;
    SweepAdds(p, s, f, 0);
    var s' := SkipSweep(p, s, f, 0);
    if |s'.log| != |s.log| {
      PropagateAdds(p, s', f);
      AddsThen(s, s', PropagateSkips(p, s', f));
    }
  }

  lemma {:induction false} RemainingAdds(p: Plan, s: State, reason: string, i: nat)
    requires i <= |p.order|
    ensures Adds(s, SkipRemaining(p, s, reason, i))
    decreases |p.order| - i
  {
    hide Do, Adds;
    if i == |p.order| {
      AddsNothing(s);
    } else if Has(s.core, p.order[i], Pending) {
      var s' := Do(p.dag, s, Skip(p.order[i], Reason(reason)));
      AddsOne(p.dag, s, Skip(p.order[i], Reason(reason)));
      RemainingAdds(p, s', reason, i + 1);
      AddsThen(s, s', SkipRemaining(p, s', reason, i + 1));
    } else {
      RemainingAdds(p, s, reason, i + 1);
    }
  }

  lemma {:induction false} SkipTasksAdds(dag: Dag, s: State, ids: seq<TaskId>, reason: string, i: nat)
    requires i <= |ids|
    ensures Adds(s, SkipTasks(dag, s, ids, reason, i))
    decreases |ids| - i
  {
    hide Do, Adds;
    if i == |ids| {
      AddsNothing(s);
    } else if Has(s.core, ids[i], Pending) {
      var s' := Do(dag, s, Skip(ids[i], Reason(reason)));
      AddsOne(dag, s, Skip(ids[i], Reason(reason)));
      SkipTasksAdds(dag, s', ids, reason, i + 1);
      AddsThen(s, s', SkipTasks(dag, s', ids, reason, i + 1));
    } else {
      SkipTasksAdds(dag, s, ids, reason, i + 1);
    }
  }

  lemma {:induction false} CancelSweepAdds(p: Plan, s: State, i: nat)
    requires i <= |p.order|
    ensures Adds(s, CancelSweep(p, s, i))
    decreases |p.order| - i
  {
    hide Do, Adds;
    if i == |p.order| {
      AddsNothing(s);
    } else if Cancellable(s.core, p.order[i]) {
      var s' := Do(p.dag, s, CancelTask(p.order[i]));
      AddsOne(p.dag, s, CancelTask(p.order[i]));
      CancelSweepAdds(p, s', i + 1);
      AddsThen(s, s', CancelSweep(p, s', i + 1));
    } else {
      CancelSweepAdds(p, s, i + 1);
    }
  }

  lemma FailFastAdds(p: Plan, s: State, f: TaskId)
    ensures Adds(s, FailFastFrom(p, s, f))
  {
    hide Adds;
    PropagateAdds(p, s, f);
    RemainingAdds(p, PropagateSkips(p, s, f), "fail_fast", 0);
    AddsThen(s, PropagateSkips(p, s, f), FailFastFrom(p, s, f));
  }

  lemma FinishEnds(p: Plan, s: State)
    ensures Ends(s, Finish(p, s))
  {
    AddsOne(p.dag, s, EndRun(FinalStatus(s.core), NoNote));
    hide Do, FinalStatus;
  }

  lemma {:induction false} RegisterAdds(dag: Dag, s: State, t: TaskId, cands: seq<Candidate>, ids: seq<nat>, i: nat)
    requires i <= |cands|
    ensures Adds(s, RegisterAll(dag, s, t, cands, ids, i).state)
    decreases |cands| - i
  {
    hide Do, Adds, Artifacts.LocationOk;
    if i == |cands| || !Artifacts.LocationOk(cands[i].location) {
      AddsNothing(s);
    } else {
      var s' := Do(dag, s, Register(t, cands[i]));
      AddsOne(dag, s, Register(t, cands[i]));
      RegisterAdds(dag, s', t, cands, ids + [s.core.supply], i + 1);
      AddsThen(s, s', RegisterAll(dag, s', t, cands, ids + [s.core.supply], i + 1).state);
    }
  }

  lemma CloseAdds(dag: Dag, s: State, r: TaskResult, arts: seq<Artifact>, note: Note, cause: Option<EventId>)
    ensures Adds(s, CloseWith(dag, s, r, arts, note, cause))
  {
    AddsOne(dag, s, Close(r.taskId, r, arts, note, cause));
    hide Do;
  }

  lemma ConcludeAdds(p: Plan, s: State, t: TaskId, attempts: seq<nat>, prior: Option<TaskResult>, out: Outcome,
      ids: seq<nat>, started: EventId)
    requires out.Outcome? && attempts != [] && t in p.dag.tasks
    ensures Adds(s, Conclude(p, s, t, attempts, prior, out, ids, started))
  {
    hide Adds, CloseWith, BuildResult, Artifacts.Validate;
    forall r, arts, note, cause
      ensures Adds(s, CloseWith(p.dag, s, r, arts, note, cause))
    {
      CloseAdds(p.dag, s, r, arts, note, cause);
    }
  }

  lemma DispatchAdds(p: Plan, e: Env, s: State, t: TaskId)
    requires t in p.dag.tasks
    ensures Adds(s, Dispatch(p, e, s, t).state)
  {
    hide Adds, Do, CloseWith, Conclude, RegisterAll, BuildResult;
    var a := s.core.supply;
    var s1 := Do(p.dag, s, Start(t));
    AddsOne(p.dag, s, Start(t));
    var attempts := PriorAttempts(s.core, t) + [a];
    match e.exec(t, a)
    case EngineError =>
      AddsNothing(s1);
    case Exception =>
      var failure := Failure("executor_exception", "execution", t, Some(Last(attempts)));
      var r := BuildResult(p.dag, t, Failed, attempts, PriorResult(s.core, t), [], [failure], [], None);
      CloseAdds(p.dag, s1, r, s1.core.artifacts, Reason("executor_exception"), Some(FreshId(a + 1)));
      AddsThen(s, s1, CloseWith(p.dag, s1, r, s1.core.artifacts, Reason("executor_exception"), Some(FreshId(a + 1))));
    case Outcome(cands, _, _, _, _) =>
      RegisterAdds(p.dag, s1, t, cands, [], 0);
      var reg := RegisterAll(p.dag, s1, t, cands, [], 0);
      AddsThen(s, s1, reg.state);
      if !reg.aborted {
        ConcludeAdds(p, reg.state, t, attempts, PriorResult(s.core, t), e.exec(t, a), reg.ids, FreshId(a + 1));
        AddsThen(s, reg.state,
            Conclude(p, reg.state, t, attempts, PriorResult(s.core, t), e.exec(t, a), reg.ids, FreshId(a + 1)));
      }
  }

  lemma ReconcileOneAdds(p: Plan, e: Env, s: State, t: TaskId)
    ensures var r := ReconcileOne(p, e, s, t);
            if r.blocked then Ends(s, r.state) else Adds(s, r.state)
  {
    hide Adds, Ends, Apply, BuildResult, Artifacts.Validate, ReportedError;
    AddsNothing(s);
    var r := ReconcileOne(p, e, s, t);
    if r.state != s {
      var l := Last(r.state.log);
      AddsOne(p.dag, s, l);
    }
  }

  lemma {:induction false} ReconcileAdds(p: Plan, e: Env, s: State, ids: seq<TaskId>, i: nat)
    requires i <= |ids|
    ensures var r := Reconcile(p, e, s, ids, i);
            if r.blocked then Ends(s, r.state) else Adds(s, r.state)
    decreases |ids| - i
  {
    hide Adds, Ends, ReconcileOne;
    if i == |ids| {
      AddsNothing(s);
    } else {
      var r := ReconcileOne(p, e, s, ids[i]);
      ReconcileOneAdds(p, e, s, ids[i]);
      if !r.blocked {
        ReconcileAdds(p, e, r.state, ids, i + 1);
        AddsThen(s, r.state, Reconcile(p, e, r.state, ids, i + 1).state);
      }
    }
  }

  // ---- The loop and the whole process ----

  lemma ClosedThen(s: State, m: State, r: Step)
    requires Adds(s, m) && Closed(m, r)
    ensures Closed(s, r)
  {
    hide Adds, Ends;
    AddsThen(s, m, r.state);
  }

  /** The loop ends the process once, last, unless an exception stops it; then it does not end it at all. */
  lemma {:induction false} LoopCloses(p: Plan, e: Env, s: State, failed: bool)
    ensures Closed(s, Loop(p, e, s, failed))
    decreases Pendings(s.core), 1
  {
    hide Adds, Ends, Closed, Do, Finish, FailFastFrom, Dispatch, InputBlocked, BlockedResult, SkipTasks, DepsDone;
    var ready := ReadyIds(p, s.core, |p.order|);
    if ready == [] {
      match FirstBlocked(p, s.core, 0)
      case None =>
        FinishCloses(p, s);
      case Some(t) =>
        BlockedCloses(p, s, t);
    } else if failed {
      assert ready[0] in ready;
      var s' := SkipTasks(p.dag, s, ready, "upstream_failure", 0);
      SkipTasksAdds(p.dag, s, ready, "upstream_failure", 0);
      LoopCloses(p, e, s', true);
      ClosedThen(s, s', Loop(p, e, s', true));
    } else {
      RoundCloses(p, e, s, ready[0]);
    }
  }

  lemma FinishCloses(p: Plan, s: State)
    ensures Closed(s, Step(Finish(p, s), false))
  {
    hide Ends, Adds, Finish;
    FinishEnds(p, s);
  }

  lemma BlockedCloses(p: Plan, s: State, t: TaskId)
    ensures var s1 := Do(p.dag, s, Block(t, BlockedResult(p.dag, t), Reason("required_input_unavailable")));
            Closed(s, Step(Finish(p, FailFastFrom(p, s1, t)), false))
  {
    hide Adds, Do, Finish, FailFastFrom, BlockedResult, Closed;
    var l := Block(t, BlockedResult(p.dag, t), Reason("required_input_unavailable"));
    var s1 := Do(p.dag, s, l);
    AddsOne(p.dag, s, l);
    FailFastAdds(p, s1, t);
    FinishCloses(p, FailFastFrom(p, s1, t));
    ClosedThen(s1, FailFastFrom(p, s1, t), Step(Finish(p, FailFastFrom(p, s1, t)), false));
    ClosedThen(s, s1, Step(Finish(p, FailFastFrom(p, s1, t)), false));
  }

  lemma {:induction false} RoundCloses(p: Plan, e: Env, s: State, t: TaskId)
    requires ReadyIds(p, s.core, |p.order|) != [] && t == ReadyIds(p, s.core, |p.order|)[0]
    ensures Closed(s, Loop(p, e, s, false))
    decreases Pendings(s.core), 0
  {
    hide Adds, Ends, Finish, FailFastFrom, Dispatch, InputBlocked, BlockedResult, SkipTasks, Closed;
    assert t in ReadyIds(p, s.core, |p.order|);
    var s1 := Do(p.dag, s, MakeReady(t));
    AddsOne(p.dag, s, MakeReady(t));
    var d := Dispatch(p, e, s1, t);
    assert s1.core.status == s.core.status[t := Ready];
    hide Do;
    DispatchAdds(p, e, s1, t);
    AddsThen(s, s1, d.state);
    if d.aborted {
      AbortCloses(s, d.state);
    } else {
      assert t in Pendings(s.core) && Pendings(d.state.core) == Pendings(s.core) - {t};
      var status := d.state.core.results[t].status;
      if status == Failed {
        var s2 := FailFastFrom(p, d.state, t);
        FailFastAdds(p, d.state, t);
        AddsThen(s, d.state, s2);
        PendingsShrink(p, d.state, t);
        LoopCloses(p, e, s2, true);
        ClosedThen(s, s2, Loop(p, e, s2, true));
      } else if status == Cancelled {
        AbortCloses(s, d.state);
      } else {
        LoopCloses(p, e, d.state, false);
        ClosedThen(s, d.state, Loop(p, e, d.state, false));
      }
    }
  }

  lemma PendingsShrink(p: Plan, s: State, t: TaskId)
    ensures Pendings(FailFastFrom(p, s, t).core) <= Pendings(s.core)
  {
  }

  lemma AbortCloses(s: State, s': State)
    requires Adds(s, s')
    ensures Closed(s, Step(s', true))
  {
  }

  lemma CancelAllCloses(p: Plan, s: State)
    ensures Closed(s, Step(CancelAll(p, s), false))
  {
    CancelSweepAdds(p, s, 0);
    AddsOne(p.dag, CancelSweep(p, s, 0), EndRun(CancelledRun, NoNote));
    hide Adds, Ends, CancelSweep, Do;
    AddsThen(s, CancelSweep(p, s, 0), CancelAll(p, s));
  }

  lemma OpeningAdds(p: Plan, c: Core)
    ensures Adds(State(c.(run := RunningRun), []), Opening(p, c))
  {
  }

  lemma SessionCloses(p: Plan, e: Env, c: Core, cancelled: bool)
    ensures Closed(Opening(p, c), Session(p, e, c, cancelled))
  {
    hide Adds, Ends, Closed, Opening, CancelAll, Reconcile, IndeterminateIds, SkipRemaining, Loop, AnyDoomed;
    var s := Opening(p, c);
    if cancelled {
      CancelAllCloses(p, s);
    } else {
      var r := Reconcile(p, e, s, IndeterminateIds(p, s.core, |p.order|), 0);
      ReconcileAdds(p, e, s, IndeterminateIds(p, s.core, |p.order|), 0);
      if r.blocked {
        BlockCloses(s, r.state);
      } else {
        SettledCloses(p, e, r.state);
        var s' := if AnyDoomed(r.state.core) then SkipRemaining(p, r.state, "prior_terminal_state", 0) else r.state;
        ClosedThen(s, r.state, Loop(p, e, s', false));
      }
    }
  }

  lemma BlockCloses(s: State, s': State)
    requires Ends(s, s')
    ensures Closed(s, Step(s', false))
  {
  }

  lemma SettledCloses(p: Plan, e: Env, s: State)
    ensures var s' := if AnyDoomed(s.core) then SkipRemaining(p, s, "prior_terminal_state", 0) else s;
            Adds(s, s') && Closed(s, Loop(p, e, s', false))
  {
    hide Adds, Closed, SkipRemaining, Loop, AnyDoomed;
    AddsNothing(s);
    RemainingAdds(p, s, "prior_terminal_state", 0);
    var s' := if AnyDoomed(s.core) then SkipRemaining(p, s, "prior_terminal_state", 0) else s;
    LoopCloses(p, e, s', false);
    ClosedThen(s, s', Loop(p, e, s', false));
  }

  // ---- The closing event ----

  predicate Closing(kind: EventKind) {
    kind in {RunCompleted, RunFailed, RunCancelled, RunInterrupted}
  }

  lemma ClosingLabel(dag: Dag, c: Core, l: Label)
    ensures Closing(Last(Apply(dag, c, l).trace).kind) <==> l.EndRun?
    ensures Apply(dag, c, l).trace[..|c.trace|] == c.trace && |Apply(dag, c, l).trace| == |c.trace| + 1
  {
  }

  /** The events of a process, one a label, of which those that close it are its ends. */
  lemma {:induction false} ClosingEvents(dag: Dag, c: Core, ls: seq<Label>)
    ensures var trace := Exec(dag, c, ls).trace;
            && c.trace <= trace && |trace| == |c.trace| + |ls|
            && forall i :: 0 <= i < |ls| ==> (Closing(trace[|c.trace| + i].kind) <==> ls[i].EndRun?)
  {
    hide Apply, Closing;
    if ls != [] {
      var front := ls[..|ls| - 1];
      ClosingEvents(dag, c, front);
      ClosingLabel(dag, Exec(dag, c, front), Last(ls));
    }
  }

  /** The kind of a closing event says how the run stands. */
  ghost predicate Tells(kind: EventKind, c: Core) {
    && (kind == RunCompleted <==> forall t :: t in c.status ==> c.status[t] == Success)
    && (kind == RunCompleted <==> c.run == SuccessRun)
    && (kind == RunCancelled <==> c.run == CancelledRun)
    && (kind == RunInterrupted <==> c.run in {InterruptedRun, ReconciliationRequired})
    && (kind == RunFailed <==> c.run == FailedRun)
  }

  lemma EndTells(dag: Dag, c: Core, final: RunStatus, note: Note)
    requires Ended(Apply(dag, c, EndRun(final, note))) && Apply(dag, c, EndRun(final, note)).status != map[]
    ensures var c' := Apply(dag, c, EndRun(final, note));
            Tells(Last(c'.trace).kind, c')
  {
    var c' := Apply(dag, c, EndRun(final, note));
    assert c'.status == c.status && c'.run == final && Last(c'.trace).kind == EndKind(final);
    hide Apply;
    assert c'.status.Keys != {};
    var t :| t in c'.status;
    if forall u :: u in c'.status ==> c'.status[u] == Success {
      assert c'.status[t] == Success;
    } else {
      var u :| u in c'.status && c'.status[u] != Success;
    }
  }

  lemma EndOfLog(dag: Dag, c: Core, s: State)
    requires Trail(dag, c, s) && s.log != [] && Last(s.log).EndRun? && Ended(s.core) && dag.tasks != map[]
    ensures s.core.trace != [] && Tells(Last(s.core.trace).kind, s.core)
  {
    hide Good, Tells, Ended, Apply;
    TrailDomain(dag, c, s);
    var l := Last(s.log);
    ClosingLabel(dag, Exec(dag, c, s.log[..|s.log| - 1]), l);
    EndTells(dag, Exec(dag, c, s.log[..|s.log| - 1]), l.final, l.note);
  }

  lemma SomeTask(p: Plan)
    requires ValidPlan(p)
    ensures p.dag.tasks != map[]
  {
    FirstTask(p);
  }

  /** Nothing closes the process among its events but the last, if even that. */
  ghost predicate ClosesOnce(events: seq<Event>, n: nat, ended: bool) {
    && n <= |events| && (ended ==> n < |events| && Closing(Last(events).kind))
    && forall i :: n <= i < (if ended then |events| - 1 else |events|) ==> !Closing(events[i].kind)
  }

  lemma ClosedTrace(dag: Dag, c: Core, s: State, ended: bool)
    requires Trail(dag, c, s)
    requires if ended then Ends(State(c, []), s) else Adds(State(c, []), s)
    ensures c.trace <= s.core.trace && ClosesOnce(s.core.trace, |c.trace|, ended)
  {
    hide Good, Closing;
    ClosingEvents(dag, c, s.log);
    forall i | |c.trace| <= i < |s.core.trace|
      ensures Closing(s.core.trace[i].kind) <==> s.log[i - |c.trace|].EndRun?
    {
      assert i == |c.trace| + (i - |c.trace|);
    }
  }

  lemma SessionAdds(p: Plan, e: Env, c: Core, cancelled: bool)
    ensures Closed(State(c.(run := RunningRun), []), Session(p, e, c, cancelled))
  {
    hide Adds, Ends, Closed, Opening, Session;
    OpeningAdds(p, c);
    SessionCloses(p, e, c, cancelled);
    ClosedThen(State(c.(run := RunningRun), []), Opening(p, c), Session(p, e, c, cancelled));
  }

  /**
    A process that no exception stops appends one closing event, as its last: RUN_COMPLETED exactly when every
    task succeeded, and otherwise the one that goes with the run status. A process an exception stops appends none.
  */
  lemma SessionEnds(p: Plan, e: Env, c: Core, cancelled: bool)
    requires ValidPlan(p) && Good(p.dag, c) && Loaded(c)
    requires cancelled ==> forall t :: t in c.status ==> c.status[t] == Pending
    ensures var r := Session(p, e, c, cancelled);
            && c.trace <= r.state.core.trace
            && ClosesOnce(r.state.core.trace, |c.trace|, !r.aborted)
            && (!r.aborted ==> Tells(Last(r.state.core.trace).kind, r.state.core))
  {
    hide Good, Trail, Session, Adds, Ends, Tells, ClosesOnce, Ended, ValidPlan;
    var c0 := c.(run := RunningRun);
    var r := Session(p, e, c, cancelled);
    SessionTrail(p, e, c, cancelled);
    SessionAdds(p, e, c, cancelled);
    ClosedTrace(p.dag, c0, r.state, !r.aborted);
    if !r.aborted {
      SomeTask(p);
      EndsLast(State(c0, []), r.state);
      EndOfLog(p.dag, c0, r.state);
    }
  }

  lemma EndsLast(s: State, s': State)
    requires Ends(s, s')
    ensures s'.log != [] && Last(s'.log).EndRun?
  {
  }

  // ---- What cancelling and skipping reach ----

  lemma {:induction false} CancelSweepExactly(p: Plan, s: State, i: nat)
    requires i <= |p.order| && Distinct(p.order)
    ensures var c := CancelSweep(p, s, i).core;
            && c.status.Keys == s.core.status.Keys && c.results == s.core.results && c.artifacts == s.core.artifacts
            && forall t :: t in c.status ==>
                 c.status[t] == if t in p.order[i..] && s.core.status[t] in {Pending, Ready, Running} then Cancelled
                                else s.core.status[t]
    decreases |p.order| - i
  {
    if i < |p.order| {
      var t := p.order[i];
      assert p.order[i..] == [t] + p.order[i + 1..];
      assert t !in p.order[i + 1..];
      CancelSweepExactly(p, if Cancellable(s.core, t) then Do(p.dag, s, CancelTask(t)) else s, i + 1);
    }
  }

  /** Cancelling a run cancels every listed task that has not ended, and nothing else, and ends it CANCELLED. */
  lemma CancelAllExactly(p: Plan, s: State, t: TaskId)
    requires Distinct(p.order) && t in s.core.status
    ensures var c := CancelAll(p, s).core;
            && c.run == CancelledRun && c.results == s.core.results && c.artifacts == s.core.artifacts
            && t in c.status
            && c.status[t] == if t in p.order && s.core.status[t] in {Pending, Ready, Running} then Cancelled
                              else s.core.status[t]
  {
    CancelSweepExactly(p, s, 0);
    assert p.order[0..] == p.order;
    hide CancelSweep;
  }

  /** Skipping listed tasks skips those that are pending, and nothing else. */
  lemma {:induction false} SkipTasksExactly(dag: Dag, s: State, ids: seq<TaskId>, reason: string, i: nat)
    requires i <= |ids|
    ensures var c := SkipTasks(dag, s, ids, reason, i).core;
            && c.status.Keys == s.core.status.Keys && c.results == s.core.results && c.artifacts == s.core.artifacts
            && forall t :: t in c.status ==>
                 c.status[t] == if t in ids[i..] && s.core.status[t] == Pending then Skipped else s.core.status[t]
    decreases |ids| - i
  {
    if i < |ids| {
      assert ids[i..] == [ids[i]] + ids[i + 1..];
      SkipTasksExactly(dag, if Has(s.core, ids[i], Pending) then Do(dag, s, Skip(ids[i], Reason(reason))) else s, ids,
          reason, i + 1);
    }
  }

  // ---- In the store ----

  /** The last process of the history ran to its end, undisturbed by any exception. */
  ghost predicate Finished(dag: Dag, ch: Chain)
    requires ValidChain(dag, ch)
  {
    match ch
    case Begun(plan, env, cancelled, commits) =>
      var r := BeginSession(plan, env, cancelled);
      !r.aborted && commits == |r.state.log|
    case Resumed(prior, lost, order, env, commits) =>
      var r := ResumeSession(Plan(dag, order), env, Lose(Durable(dag, prior), lost));
      !r.aborted && commits == |r.state.log|
  }

  lemma AfterAll(dag: Dag, stored: Core, c: Core, s: State)
    requires Trail(dag, c.(run := RunningRun), s) && s.log != []
    ensures After(dag, stored, c, s.log, |s.log|) == s.core
  {
    hide Good;
    assert s.log[..|s.log|] == s.log;
  }

  lemma EndedLog(dag: Dag, c: Core, s: State)
    requires Trail(dag, c, s) && |c.trace| < |s.core.trace|
    ensures s.log != []
  {
    hide Good;
  }

  /** The stored trace of a finished history ends in the event that goes with the stored run status and statuses. */
  lemma StoredEnding(dag: Dag, ch: Chain)
    requires ValidChain(dag, ch) && Finished(dag, ch)
    ensures var c := Durable(dag, ch);
            c.trace != [] && Closing(Last(c.trace).kind) && Tells(Last(c.trace).kind, c)
  {
    hide Good, Trail, BeginSession, ResumeSession, After, Reload, Lose, Tells, Closing, Ended, ValidPlan, Loaded;
    match ch
    case Begun(plan, env, cancelled, commits) =>
      var r := BeginSession(plan, env, cancelled);
      InitGood(plan);
      InitPending(plan);
      BeginTrail(plan, env, cancelled);
      SessionOf(plan, env, cancelled);
      SessionEnds(plan, env, Init(plan), cancelled);
      EndedLog(dag, Init(plan).(run := RunningRun), r.state);
      AfterAll(dag, Init(plan), Init(plan), r.state);
    case Resumed(prior, lost, order, env, commits) =>
      var plan, stored := Plan(dag, order), Lose(Durable(dag, prior), lost);
      var r := ResumeSession(plan, env, stored);
      ChainGood(dag, prior);
      LoseGood(dag, Durable(dag, prior), lost);
      ReloadGood(dag, env, stored);
      ResumeTrail(plan, env, stored);
      ResumeOf(plan, env, stored);
      SessionEnds(plan, env, Reload(dag, env, stored), false);
      EndedLog(dag, Reload(dag, env, stored).(run := RunningRun), r.state);
      AfterAll(dag, stored, Reload(dag, env, stored), r.state);
  }

  lemma InitPending(p: Plan)
    ensures forall t :: t in Init(p).status ==> Init(p).status[t] == Pending
  {
  }

  lemma SessionOf(p: Plan, e: Env, cancelled: bool)
    ensures BeginSession(p, e, cancelled) == Session(p, e, Init(p), cancelled)
  {
    hide Session;
  }

  lemma ResumeOf(p: Plan, e: Env, stored: Core)
    ensures ResumeSession(p, e, stored) == Session(p, e, Reload(p.dag, e, stored), false)
  {
    hide Session, Reload;
  }

  // ---- RUN_STARTED ----

  ghost predicate OnlyCreated(events: seq<Event>) {
    forall i :: 0 <= i < |events| ==> events[i].kind == TaskCreated
  }

  /** The run was started at event `n`, after its tasks were created, and never again. */
  ghost predicate StartedAt(events: seq<Event>, n: nat) {
    && n < |events| && events[n].kind == RunStarted && OnlyCreated(events[..n])
    && forall i :: n < i < |events| ==> events[i].kind !in {RunStarted, RunResumed, TaskCreated}
  }

  lemma LaterKind(dag: Dag, c: Core, l: Label, n: nat)
    requires Enabled(dag, c, l) && StartedAt(c.trace, n)
    ensures StartedAt(Apply(dag, c, l).trace, n)
  {
    hide Calm, DepsDone, Starved, CloseOk, Idle, TerminalRunStatus;
    var trace := Apply(dag, c, l).trace;
    assert trace[..n] == c.trace[..n];
  }

  lemma {:induction false} LaterKinds(dag: Dag, c: Core, ls: seq<Label>, n: nat)
    requires Machine.Runs(dag, c, ls) && StartedAt(c.trace, n)
    ensures StartedAt(Exec(dag, c, ls).trace, n)
  {
    hide Enabled, Apply, StartedAt;
    if ls != [] {
      LaterKinds(dag, c, ls[..|ls| - 1], n);
      LaterKind(dag, Exec(dag, c, ls[..|ls| - 1]), Last(ls), n);
    }
  }

  lemma {:induction false} FirstKinds(dag: Dag, c: Core, ls: seq<Label>)
    requires Machine.Runs(dag, c, ls) && OnlyCreated(c.trace) && ls != [] && ls[0] == RunStart
    ensures StartedAt(Exec(dag, c, ls).trace, |c.trace|)
  {
    hide Enabled, StartedAt;
    if |ls| == 1 {
      RunStartKind(dag, c);
      assert ls == [RunStart] && Exec(dag, c, []) == c;
    } else {
      hide Apply;
      FirstKinds(dag, c, ls[..|ls| - 1]);
      LaterKind(dag, Exec(dag, c, ls[..|ls| - 1]), Last(ls), |c.trace|);
    }
  }

  lemma RunStartKind(dag: Dag, c: Core)
    requires OnlyCreated(c.trace)
    ensures StartedAt(Apply(dag, c, RunStart).trace, |c.trace|)
  {
    var trace := Apply(dag, c, RunStart).trace;
    assert trace[..|c.trace|] == c.trace;
  }

  /** A process whose run was not started yet starts it first. */
  lemma StartsFirst(p: Plan, e: Env, c: Core, cancelled: bool)
    requires OnlyCreated(c.trace)
    ensures var log := Session(p, e, c, cancelled).state.log;
            log != [] && log[0] == RunStart
  {
    hide Session, Do;
    SessionCloses(p, e, c, cancelled);
    ClosedGrows(Opening(p, c), Session(p, e, c, cancelled));
    OpeningIsStart(p, c);
  }

  lemma OpeningIsStart(p: Plan, c: Core)
    requires OnlyCreated(c.trace)
    ensures Opening(p, c).log == [RunStart]
  {
  }

  lemma ClosedGrows(s: State, r: Step)
    requires Closed(s, r)
    ensures s.log <= r.state.log
  {
  }

  /** Nothing but the creation of the tasks, or the run started once, right after it. */
  ghost predicate StartedOnce(events: seq<Event>) {
    OnlyCreated(events) || exists n :: StartedAt(events, n)
  }

  lemma AfterStarted(p: Plan, e: Env, stored: Core, c: Core, cancelled: bool, k: nat)
    requires StartedOnce(stored.trace) && c.trace == stored.trace && k <= |Session(p, e, c, cancelled).state.log|
    requires Machine.Runs(p.dag, c.(run := RunningRun), Session(p, e, c, cancelled).state.log)
    ensures StartedOnce(After(p.dag, stored, c, Session(p, e, c, cancelled).state.log, k).trace)
  {
    hide Session, Machine.Runs, StartedAt, Exec;
    if k > 0 {
      var c0, log := c.(run := RunningRun), Session(p, e, c, cancelled).state.log;
      RunsPrefix(p.dag, c0, log, k);
      if OnlyCreated(c.trace) {
        StartsFirst(p, e, c, cancelled);
        FirstKinds(p.dag, c0, log[..k]);
      } else {
        var n :| StartedAt(c.trace, n);
        LaterKinds(p.dag, c0, log[..k], n);
      }
    }
  }

  lemma TrailRuns(dag: Dag, c: Core, s: State)
    requires Trail(dag, c, s)
    ensures Machine.Runs(dag, c, s.log)
  {
    hide Good;
  }

  /**
    In every stored trace the tasks are created, then, if anything was committed, the run is started, and neither
    happens again, however often the run is resumed.
  */
  lemma {:induction false} RunStartsOnce(dag: Dag, ch: Chain)
    requires ValidChain(dag, ch)
    ensures StartedOnce(Durable(dag, ch).trace)
  {
    hide Good, Trail, BeginSession, ResumeSession, After, Reload, Lose, ValidPlan, StartedOnce, Ended;
    match ch
    case Begun(plan, env, cancelled, commits) =>
      BeginTrail(plan, env, cancelled);
      SessionOf(plan, env, cancelled);
      InitCreated(plan);
      TrailRuns(dag, Init(plan).(run := RunningRun), BeginSession(plan, env, cancelled).state);
      AfterStarted(plan, env, Init(plan), Init(plan), cancelled, commits);
    case Resumed(prior, lost, order, env, commits) =>
      var plan, stored := Plan(dag, order), Lose(Durable(dag, prior), lost);
      RunStartsOnce(dag, prior);
      ChainGood(dag, prior);
      LoseGood(dag, Durable(dag, prior), lost);
      ResumeTrail(plan, env, stored);
      ResumeOf(plan, env, stored);
      TrailRuns(dag, Reload(dag, env, stored).(run := RunningRun), ResumeSession(plan, env, stored).state);
      ReloadedTrace(dag, env, Durable(dag, prior), lost);
      AfterStarted(plan, env, stored, Reload(dag, env, stored), false, commits);
  }

  lemma InitCreated(p: Plan)
    ensures StartedOnce(Init(p).trace)
  {
  }

  lemma ReloadedTrace(dag: Dag, e: Env, c: Core, lost: nat)
    ensures Lose(c, lost).trace == c.trace && Reload(dag, e, Lose(c, lost)).trace == c.trace
  {
  }

  // ---- RUN_RESUMED ----

  lemma {:induction false} MarkStays(dag: Dag, c: Core, ls: seq<Label>)
    ensures Exec(dag, c, ls).mark == c.mark && c.trace <= Exec(dag, c, ls).trace
  {
    hide Effect, EventOf;
    if ls != [] {
      MarkStays(dag, c, ls[..|ls| - 1]);
    }
  }

  /**
    The process that resumes a run remembers one event more than it stores: RUN_RESUMED, after everything that was
    stored and before everything it commits.
  */
  lemma ResumeIsRemembered(p: Plan, e: Env, stored: Core)
    requires ValidPlan(p) && Good(p.dag, stored)
    ensures var c := ResumeSession(p, e, stored).state.core;
            && stored.trace <= c.trace && c.mark.Some?
            && Mem(c) == stored.trace + [c.mark.value.event] + c.trace[|stored.trace|..]
            && c.mark.value.event.kind == RunResumed && c.mark.value.event.runId == p.dag.runId
  {
    hide Good, Trail, ResumeSession, Ended;
    ResumeTrail(p, e, stored);
    var c0 := Reload(p.dag, e, stored).(run := RunningRun);
    TrailMark(p.dag, c0, ResumeSession(p, e, stored).state);
  }

  lemma TrailMark(dag: Dag, c: Core, s: State)
    requires Trail(dag, c, s)
    ensures s.core.mark == c.mark && c.trace <= s.core.trace
  {
    hide Good;
    MarkStays(dag, c, s.log);
  }
}
