/** Which tasks a failure skips, and under which name. */
module Skips {
  import opened Model
  import opened Machine
  import opened Invariants
  import opened InputResolver
  import opened Scheduling
  import opened Sessions
  import opened Runs
  import opened Chains
  import Readiness
  import Reruns
  import Survival
  import G = Graphs
  import Artifacts

  /** The skips committed for `note` are exactly those tasks that went from pending to skipped, plus earlier ones. */
  ghost predicate SkipsLogged(s: State, r: State, note: Note) {
    && (forall t :: Skip(t, note) in r.log <==>
          Skip(t, note) in s.log || (Has(s.core, t, Pending) && Has(r.core, t, Skipped)))
    && (forall l :: l in r.log && (l.Skip? ==> l.note != note) ==> l in s.log)
    && (forall l :: l in s.log ==> l in r.log)
    && r.core.status.Keys == s.core.status.Keys
    && (forall t :: t in s.core.status ==>
          r.core.status[t] == s.core.status[t] || (s.core.status[t] == Pending && r.core.status[t] == Skipped))
  }

  lemma SkipsLoggedDo(dag: Dag, s: State, t: TaskId, note: Note)
    requires Has(s.core, t, Pending)
    ensures SkipsLogged(s, Do(dag, s, Skip(t, note)), note)
  {
  }

  lemma SkipsLoggedTrans(s: State, m: State, r: State, note: Note)
    requires SkipsLogged(s, m, note) && SkipsLogged(m, r, note)
    ensures SkipsLogged(s, r, note)
  {
  }

  lemma SkipsLoggedSelf(s: State, note: Note)
    ensures SkipsLogged(s, s, note)
  {
  }

  lemma {:induction false} SweepLogged(p: Plan, s: State, f: TaskId, i: nat)
    requires i <= |p.order|
    ensures SkipsLogged(s, SkipSweep(p, s, f, i), BlockedBy(f))
    decreases |p.order| - i
  {
    hide Do, SkipsLogged;
    if i == |p.order| {
      SkipsLoggedSelf(s, BlockedBy(f));
    } else if HitByFailure(p.dag, s.core, p.order[i]) {
      var s' := Do(p.dag, s, Skip(p.order[i], BlockedBy(f)));
      SkipsLoggedDo(p.dag, s, p.order[i], BlockedBy(f));
      SweepLogged(p, s', f, i + 1);
      SkipsLoggedTrans(s, s', SkipSweep(p, s', f, i + 1), BlockedBy(f));
    } else {
      SweepLogged(p, s, f, i + 1);
    }
  }

  lemma {:induction false} PropagateLogged(p: Plan, s: State, f: TaskId)
    ensures SkipsLogged(s, PropagateSkips(p, s, f), BlockedBy(f))
    decreases Pendings(s.core)
  {
    hide SkipsLogged;
    SweepLogged(p, s, f, 0);
    var s' := SkipSweep(p, s, f, 0);
    if |s'.log| != |s.log| {
      PropagateLogged(p, s', f);
      SkipsLoggedTrans(s, s', PropagateSkips(p, s', f), BlockedBy(f));
    }
  }

  lemma {:induction false} RemainingLogged(p: Plan, s: State, reason: string, i: nat)
    requires i <= |p.order|
    ensures SkipsLogged(s, SkipRemaining(p, s, reason, i), Reason(reason))
    decreases |p.order| - i
  {
    hide Do, SkipsLogged;
    if i == |p.order| {
      SkipsLoggedSelf(s, Reason(reason));
    } else if Has(s.core, p.order[i], Pending) {
      var s' := Do(p.dag, s, Skip(p.order[i], Reason(reason)));
      SkipsLoggedDo(p.dag, s, p.order[i], Reason(reason));
      RemainingLogged(p, s', reason, i + 1);
      SkipsLoggedTrans(s, s', SkipRemaining(p, s', reason, i + 1), Reason(reason));
    } else {
      RemainingLogged(p, s, reason, i + 1);
    }
  }

  // ---- The fixpoint ----

  ghost predicate NoneHit(p: Plan, c: Core) {
    forall t :: t in p.order ==> !HitByFailure(p.dag, c, t)
  }

  lemma {:induction false} SweepUnchanged(p: Plan, s: State, f: TaskId, i: nat)
    requires i <= |p.order| && |SkipSweep(p, s, f, i).log| == |s.log|
    ensures forall t :: t in p.order[i..] ==> !HitByFailure(p.dag, s.core, t)
    decreases |p.order| - i
  {
    if i < |p.order| {
      assert p.order[i..] == [p.order[i]] + p.order[i + 1..];
      if !HitByFailure(p.dag, s.core, p.order[i]) {
        SweepUnchanged(p, s, f, i + 1);
      }
    }
  }

  /** Propagation stops only when no pending task depends on a failed or skipped one. */
  lemma {:induction false} PropagateIsFixpoint(p: Plan, s: State, f: TaskId)
    ensures NoneHit(p, PropagateSkips(p, s, f).core)
    decreases Pendings(s.core)
  {
    var s' := SkipSweep(p, s, f, 0);
    if |s'.log| == |s.log| {
      SweepUnchanged(p, s, f, 0);
      assert p.order[0..] == p.order;
      assert s'.log == s.log by { SweepPrefix(p, s, f, 0); }
    } else {
      PropagateIsFixpoint(p, s', f);
    }
  }

  lemma {:induction false} SweepPrefix(p: Plan, s: State, f: TaskId, i: nat)
    requires i <= |p.order|
    ensures s.log <= SkipSweep(p, s, f, i).log
    decreases |p.order| - i
  {
    if i < |p.order| {
      if HitByFailure(p.dag, s.core, p.order[i]) {
        SweepPrefix(p, Do(p.dag, s, Skip(p.order[i], BlockedBy(f))), f, i + 1);
      } else {
        SweepPrefix(p, s, f, i + 1);
      }
    }
  }

  /** Only tasks that reach `f` are skipped: the failed task is `f` alone, and skipped tasks reach it. */
  ghost predicate SkippedReach(dag: Dag, c: Core, f: TaskId) {
    && (forall t :: Has(c, t, Failed) ==> t == f)
    && (forall t :: Has(c, t, Skipped) ==> t in dag.tasks && G.Reaches(Readiness.TaskDeps(dag), t, f))
  }

  lemma HitReaches(dag: Dag, c: Core, f: TaskId, t: TaskId)
    requires SkippedReach(dag, c, f) && HitByFailure(dag, c, t)
    ensures G.Reaches(Readiness.TaskDeps(dag), t, f)
  {
    hide G.Reaches;
    var deps := Readiness.TaskDeps(dag);
    var d :| d in dag.tasks[t].deps && (Has(c, d, Failed) || Has(c, d, Skipped));
    if Has(c, d, Failed) {
      G.ReachesDirect(deps, t, d);
    } else {
      G.ReachesStep(deps, t, d, f);
    }
  }

  lemma SkipKeepsReach(dag: Dag, s: State, f: TaskId, t: TaskId)
    requires SkippedReach(dag, s.core, f) && t in dag.tasks && G.Reaches(Readiness.TaskDeps(dag), t, f)
    ensures SkippedReach(dag, Do(dag, s, Skip(t, BlockedBy(f))).core, f)
  {
    hide G.Reaches;
    var c := Do(dag, s, Skip(t, BlockedBy(f))).core;
    assert c.status == s.core.status[t := Skipped];
    forall u | Has(c, u, Failed) ensures u == f {
      assert Has(s.core, u, Failed);
    }
    forall u | Has(c, u, Skipped) ensures u in dag.tasks && G.Reaches(Readiness.TaskDeps(dag), u, f) {
      assert u == t || Has(s.core, u, Skipped);
    }
  }

  lemma {:induction false} SweepReach(p: Plan, s: State, f: TaskId, i: nat)
    requires i <= |p.order| && SkippedReach(p.dag, s.core, f)
    ensures SkippedReach(p.dag, SkipSweep(p, s, f, i).core, f)
    decreases |p.order| - i
  {
    hide G.Reaches;
    if i < |p.order| {
      if HitByFailure(p.dag, s.core, p.order[i]) {
        HitReaches(p.dag, s.core, f, p.order[i]);
        SkipKeepsReach(p.dag, s, f, p.order[i]);
        SweepReach(p, Do(p.dag, s, Skip(p.order[i], BlockedBy(f))), f, i + 1);
      } else {
        SweepReach(p, s, f, i + 1);
      }
    }
  }

  lemma {:induction false} PropagateReach(p: Plan, s: State, f: TaskId)
    requires SkippedReach(p.dag, s.core, f)
    ensures SkippedReach(p.dag, PropagateSkips(p, s, f).core, f)
    decreases Pendings(s.core)
  {
    hide SkippedReach;
    SweepReach(p, s, f, 0);
    var s' := SkipSweep(p, s, f, 0);
    if |s'.log| != |s.log| {
      PropagateReach(p, s', f);
    }
  }

  /** Memory of a fresh run when `f` has just failed: successes are closed under dependencies. */
  ghost predicate JustFailed(dag: Dag, c: Core, f: TaskId) {
    && c.status.Keys == dag.tasks.Keys
    && Has(c, f, Failed)
    && (forall t :: t in c.status && t != f ==> c.status[t] in {Pending, Success})
    && SuccessClosed(dag, c)
  }

  ghost predicate SuccessClosed(dag: Dag, c: Core) {
    forall t, d :: t in dag.tasks && Has(c, t, Success) && d in dag.tasks[t].deps ==> Has(c, d, Success)
  }

  /** At the fixpoint every task that reaches a failed or skipped task is itself failed or skipped. */
  lemma {:induction false} FixpointCovers(p: Plan, c: Core, path: seq<string>)
    requires NoneHit(p, c) && (forall t :: t in p.order <==> t in p.dag.tasks) && c.status.Keys == p.dag.tasks.Keys
    requires SuccessClosed(p.dag, c) && forall t :: t in c.status ==> c.status[t] in {Pending, Success, Failed, Skipped}
    requires G.IsPath(Readiness.TaskDeps(p.dag), path) && Has(c, path[|path| - 1], Failed)
    ensures Has(c, path[0], Failed) || Has(c, path[0], Skipped)
    decreases |path|
  {
    var t, d := path[0], path[1];
    if |path| > 2 {
      FixpointCovers(p, c, path[1..]);
    }
    assert d in p.dag.tasks[t].deps && t in p.order;
    assert Has(c, d, Failed) || Has(c, d, Skipped);
    assert !HitByFailure(p.dag, c, t);
    assert c.status[t] == Success ==> Has(c, d, Success);
  }

  lemma PropagatedMemory(p: Plan, s: State, f: TaskId)
    requires JustFailed(p.dag, s.core, f)
    ensures var c := PropagateSkips(p, s, f).core;
            && c.status.Keys == p.dag.tasks.Keys && Has(c, f, Failed)
            && SuccessClosed(p.dag, c)
            && (forall t :: t in c.status ==> c.status[t] in {Pending, Success, Failed, Skipped})
  {
    PropagateLogged(p, s, f);
    hide PropagateSkips;
    var c := PropagateSkips(p, s, f).core;
    forall t, d | t in p.dag.tasks && Has(c, t, Success) && d in p.dag.tasks[t].deps
      ensures Has(c, d, Success)
    {
      assert Has(s.core, t, Success);
      assert Has(s.core, d, Success);
    }
  }

  /** Propagation skips exactly the pending tasks that reach the failed one. */
  lemma PropagationIsExact(p: Plan, s: State, f: TaskId, t: TaskId)
    requires ValidPlan(p) && JustFailed(p.dag, s.core, f) && t in p.dag.tasks && t != f
    ensures Has(PropagateSkips(p, s, f).core, t, Skipped) <==> G.Reaches(Readiness.TaskDeps(p.dag), t, f)
  {
    FreshReach(p, s, f);
    PropagateReach(p, s, f);
    PropagateIsFixpoint(p, s, f);
    PropagatedMemory(p, s, f);
    hide PropagateSkips, NoneHit, SuccessClosed, ValidDag, StaticInputs, DistinctOutputs;
    var c := PropagateSkips(p, s, f).core;
    if G.Reaches(Readiness.TaskDeps(p.dag), t, f) {
      var path :| G.IsPath(Readiness.TaskDeps(p.dag), path) && path[0] == t && path[|path| - 1] == f;
      FixpointCovers(p, c, path);
    }
  }

  lemma FreshReach(p: Plan, s: State, f: TaskId)
    requires JustFailed(p.dag, s.core, f)
    ensures SkippedReach(p.dag, s.core, f)
  {
  }

  // ---- At the level of a fresh run ----

  ghost predicate NoSkips(log: seq<Label>) {
    forall l :: l in log ==> !l.Skip?
  }

  /** What the log says once `f` has failed in a fresh run. */
  ghost predicate SkipsAreExact(dag: Dag, s: State, f: TaskId) {
    && (forall t :: t in dag.tasks ==>
          (Skip(t, BlockedBy(f)) in s.log <==> t != f && G.Reaches(Readiness.TaskDeps(dag), t, f)))
    && (forall t :: t in dag.tasks ==>
          (Skip(t, Reason("fail_fast")) in s.log <==>
                Has(s.core, t, Skipped) && !G.Reaches(Readiness.TaskDeps(dag), t, f)))
    && (forall l :: l in s.log && l.Skip? ==> l.t in dag.tasks && l.note in {BlockedBy(f), Reason("fail_fast")})
  }

  lemma FailFastIsExact(p: Plan, s: State, f: TaskId)
    requires ValidPlan(p) && JustFailed(p.dag, s.core, f) && NoSkips(s.log)
    ensures var r := FailFastFrom(p, s, f);
            SkipsAreExact(p.dag, r, f) && Has(r.core, f, Failed) && (forall t :: Has(r.core, t, Failed) ==> t == f)
  {
    var m := PropagateSkips(p, s, f);
    var r := FailFastFrom(p, s, f);
    PropagateLogged(p, s, f);
    RemainingLogged(p, m, "fail_fast", 0);
    forall t | t in p.dag.tasks
      ensures Skip(t, BlockedBy(f)) in r.log <==> t != f && G.Reaches(Readiness.TaskDeps(p.dag), t, f)
      ensures Skip(t, Reason("fail_fast")) in r.log <==>
            Has(r.core, t, Skipped) && !G.Reaches(Readiness.TaskDeps(p.dag), t, f)
    {
      ExactFor(p, s, m, r, f, t);
    }
    FailFastRest(p, s, m, r, f);
  }

  lemma FailFastRest(p: Plan, s: State, m: State, r: State, f: TaskId)
    requires JustFailed(p.dag, s.core, f) && NoSkips(s.log)
    requires SkipsLogged(s, m, BlockedBy(f)) && SkipsLogged(m, r, Reason("fail_fast"))
    ensures Has(r.core, f, Failed) && (forall t :: Has(r.core, t, Failed) ==> t == f)
    ensures forall l :: l in r.log && l.Skip? ==> l.t in p.dag.tasks && l.note in {BlockedBy(f), Reason("fail_fast")}
  {
    forall t | Has(r.core, t, Failed)
      ensures t == f
    {
      assert Has(m.core, t, Failed) && Has(s.core, t, Failed);
    }
    forall l | l in r.log && l.Skip?
      ensures l.t in p.dag.tasks && l.note in {BlockedBy(f), Reason("fail_fast")}
    {
      if l.note != Reason("fail_fast") {
        assert l in m.log;
        assert l == Skip(l.t, l.note);
      } else {
        assert l == Skip(l.t, Reason("fail_fast"));
      }
    }
  }

  lemma ExactFor(p: Plan, s: State, m: State, r: State, f: TaskId, t: TaskId)
    requires ValidPlan(p) && JustFailed(p.dag, s.core, f) && NoSkips(s.log) && t in p.dag.tasks
    requires m == PropagateSkips(p, s, f) && r == FailFastFrom(p, s, f)
    requires SkipsLogged(s, m, BlockedBy(f)) && SkipsLogged(m, r, Reason("fail_fast"))
    ensures Skip(t, BlockedBy(f)) in r.log <==> t != f && G.Reaches(Readiness.TaskDeps(p.dag), t, f)
    ensures Skip(t, Reason("fail_fast")) in r.log <==>
          Has(r.core, t, Skipped) && !G.Reaches(Readiness.TaskDeps(p.dag), t, f)
  {
    hide PropagateSkips, FailFastFrom, G.Reaches, ValidDag;
    if t != f {
      PropagationIsExact(p, s, f, t);
    }
  }

  // ---- Through the loop ----

  lemma {:induction false} RegisterNoSkips(dag: Dag, s: State, t: TaskId, cands: seq<Candidate>, ids: seq<nat>, i: nat)
    requires i <= |cands| && NoSkips(s.log)
    ensures NoSkips(RegisterAll(dag, s, t, cands, ids, i).state.log)
    decreases |cands| - i
  {
    if i < |cands| && Artifacts.LocationOk(cands[i].location) {
      RegisterNoSkips(dag, Do(dag, s, Register(t, cands[i])), t, cands, ids + [s.core.supply], i + 1);
    }
  }

  lemma DispatchNoSkips(p: Plan, e: Env, s: State, t: TaskId)
    requires t in p.dag.tasks && NoSkips(s.log)
    ensures NoSkips(Dispatch(p, e, s, t).state.log)
  {
    hide Apply, BuildResult;
    var a := s.core.supply;
    var s1 := Do(p.dag, s, Start(t));
    match e.exec(t, a)
    case EngineError =>
    case Exception =>
    case Outcome(cands, _, _, _, _) =>
      RegisterNoSkips(p.dag, s1, t, cands, [], 0);
      var reg := RegisterAll(p.dag, s1, t, cands, [], 0);
      if !reg.aborted {
        ConcludeNoSkips(p, reg.state, t, PriorAttempts(s.core, t) + [a], PriorResult(s.core, t), e.exec(t, a), reg.ids,
            FreshId(a + 1));
      }
  }

  lemma ConcludeNoSkips(p: Plan, s: State, t: TaskId, attempts: seq<nat>, prior: Option<TaskResult>, out: Outcome,
      ids: seq<nat>, started: EventId)
    requires out.Outcome? && attempts != [] && t in p.dag.tasks && NoSkips(s.log)
    ensures NoSkips(Conclude(p, s, t, attempts, prior, out, ids, started).log)
  {
    hide Apply, BuildResult, Artifacts.Validate;
  }

  /** The claim of a whole fresh run about the task that failed, if one did. */
  ghost predicate FreshClaim(dag: Dag, s: State) {
    forall f :: Has(s.core, f, Failed) ==> SkipsAreExact(dag, s, f)
  }

  lemma FinishClaim(p: Plan, s: State)
    requires FreshClaim(p.dag, s)
    ensures FreshClaim(p.dag, Finish(p, s))
  {
    hide G.Reaches, TerminalRunStatus;
    var s' := Finish(p, s);
    assert s'.core.status == s.core.status;
    assert forall l: Label :: l.Skip? ==> (l in s'.log <==> l in s.log);
    forall f | Has(s'.core, f, Failed)
      ensures SkipsAreExact(p.dag, s', f)
    {
      assert SkipsAreExact(p.dag, s, f);
    }
  }

  lemma FailFastClaim(p: Plan, s: State, f: TaskId)
    requires ValidPlan(p) && JustFailed(p.dag, s.core, f) && NoSkips(s.log)
    ensures FreshClaim(p.dag, FailFastFrom(p, s, f))
  {
    hide FailFastFrom, SkipsAreExact;
    FailFastIsExact(p, s, f);
  }

  lemma SettledLoop(p: Plan, e: Env, s: State)
    requires ValidPlan(p) && NonePending(s.core)
    ensures forall failed :: Loop(p, e, s, failed) == Step(Finish(p, s), false)
  {
    EmptyReady(p, s.core);
  }

  lemma CalmClaim(dag: Dag, s: State)
    requires Calm(s.core)
    ensures FreshClaim(dag, s)
  {
  }

  lemma {:induction false} LoopClaim(p: Plan, e: Env, c0: Core, s: State)
    requires ValidPlan(p) && Trail(p.dag, c0, s) && Calm(s.core) && SuccessClosed(p.dag, s.core) && NoSkips(s.log)
    ensures var r := Loop(p, e, s, false);
            !r.aborted ==> FreshClaim(p.dag, r.state)
    decreases Pendings(s.core)
  {
    hide Good, Trail, Do, Dispatch, Finish, FailFastFrom, Dispatchable, InputBlocked, FreshClaim,
        SuccessClosed, NoSkips, JustFailed, BlockedResult, ValidPlan;
    TrailDomain(p.dag, c0, s);
    var ready := ReadyIds(p, s.core, |p.order|);
    if ready == [] {
      match FirstBlocked(p, s.core, 0)
      case None =>
        CalmClaim(p.dag, s);
        FinishClaim(p, s);
      case Some(t) =>
        var s1 := Do(p.dag, s, Block(t, BlockedResult(p.dag, t), Reason("required_input_unavailable")));
        BlockedJustFailed(p, c0, s, t);
        FailFastClaim(p, s1, t);
        FinishClaim(p, FailFastFrom(p, s1, t));
    } else {
      RoundClaim(p, e, c0, s, ready[0]);
    }
  }

  lemma ClosedAfter(dag: Dag, c: Core, c': Core, t: TaskId, status: Status)
    requires c.status.Keys == dag.tasks.Keys && Calm(c) && SuccessClosed(dag, c)
    requires Has(c, t, Pending) && t in dag.tasks && DepsDone(dag, c, t) && c'.status == c.status[t := status]
    ensures status == Failed ==> JustFailed(dag, c', t)
    ensures status == Success ==> SuccessClosed(dag, c')
  {
    forall u, d | status in {Failed, Success} && u in dag.tasks && Has(c', u, Success) && d in dag.tasks[u].deps
      ensures Has(c', d, Success)
    {
      assert u != t ==> Has(c, u, Success);
      assert Has(c, d, Success);
    }
  }

  lemma BlockedJustFailed(p: Plan, c0: Core, s: State, t: TaskId)
    requires ValidPlan(p) && Trail(p.dag, c0, s) && Calm(s.core) && SuccessClosed(p.dag, s.core) && NoSkips(s.log)
    requires InputBlocked(p.dag, s.core, t)
    ensures var s1 := Do(p.dag, s, Block(t, BlockedResult(p.dag, t), Reason("required_input_unavailable")));
            JustFailed(p.dag, s1.core, t) && NoSkips(s1.log)
  {
    hide Good, Trail, JustFailed, SuccessClosed, DepsDone, Calm, ValidPlan;
    TrailDomain(p.dag, c0, s);
    ClosedAfter(p.dag, s.core, Do(p.dag, s, Block(t, BlockedResult(p.dag, t),
        Reason("required_input_unavailable"))).core, t, Failed);
  }

  lemma ReadyNoSkips(p: Plan, s: State, t: TaskId)
    requires NoSkips(s.log)
    ensures var s1 := Do(p.dag, s, MakeReady(t));
            NoSkips(s1.log) && s1.core.status == s.core.status[t := Ready]
  {
  }

  lemma DispatchedJustClosed(p: Plan, e: Env, c0: Core, s: State, t: TaskId)
    requires ValidPlan(p) && Trail(p.dag, c0, s) && Calm(s.core) && SuccessClosed(p.dag, s.core) && NoSkips(s.log)
    requires Dispatchable(p.dag, s.core, t)
    requires !Dispatch(p, e, Do(p.dag, s, MakeReady(t)), t).aborted
    ensures var d := Dispatch(p, e, Do(p.dag, s, MakeReady(t)), t);
            var status := d.state.core.results[t].status;
            && NoSkips(d.state.log) && d.state.core.status == s.core.status[t := status]
            && (status == Failed ==> JustFailed(p.dag, d.state.core, t))
            && (status == Success ==> SuccessClosed(p.dag, d.state.core) && Calm(d.state.core))
  {
    hide Good, Trail, Dispatch, Do, JustFailed, SuccessClosed, DepsDone, ResolveReady, NoSkips, Calm, ValidPlan;
    TrailDomain(p.dag, c0, s);
    var s1 := Do(p.dag, s, MakeReady(t));
    ReadyNoSkips(p, s, t);
    DispatchNoSkips(p, e, s1, t);
    var d := Dispatch(p, e, s1, t);
    var status := d.state.core.results[t].status;
    assert d.state.core.status == s.core.status[t := status];
    ClosedAfter(p.dag, s.core, d.state.core, t, status);
    CalmAfter(s.core, d.state.core, t, status);
  }

  lemma {:induction false} RoundClaim(p: Plan, e: Env, c0: Core, s: State, t: TaskId)
    requires ValidPlan(p) && Trail(p.dag, c0, s) && Calm(s.core) && SuccessClosed(p.dag, s.core) && NoSkips(s.log)
    requires ReadyIds(p, s.core, |p.order|) != [] && t == ReadyIds(p, s.core, |p.order|)[0]
    ensures var r := Loop(p, e, s, false);
            !r.aborted ==> FreshClaim(p.dag, r.state)
    decreases Pendings(s.core), 0
  {
    hide Good, Trail, Do, Dispatch, Finish, FailFastFrom, FreshClaim, SuccessClosed, NoSkips, JustFailed,
        ValidPlan;
    ReadyTrail(p, c0, s, t);
    var s1 := Do(p.dag, s, MakeReady(t));
    DispatchTrail(p, e, c0, s1, t);
    var d := Dispatch(p, e, s1, t);
    if !d.aborted {
      DispatchedJustClosed(p, e, c0, s, t);
      var status := d.state.core.results[t].status;
      assert t in Pendings(s.core);
      assert Pendings(d.state.core) == Pendings(s.core) - {t};
      if status == Failed {
        CalmAfter(s.core, d.state.core, t, status);
        FailFastTrail(p, c0, d.state, t);
        FailFastClaim(p, d.state, t);
        SettledLoop(p, e, FailFastFrom(p, d.state, t));
        FinishClaim(p, FailFastFrom(p, d.state, t));
      } else if status == Success {
        LoopClaim(p, e, c0, d.state);
      }
    }
  }

  lemma LogSkipsAreExact(plan: Plan, env: Env, f: TaskId)
    requires ValidPlan(plan) && !BeginSession(plan, env, false).aborted
    requires Has(BeginSession(plan, env, false).state.core, f, Failed)
    ensures SkipsAreExact(plan.dag, BeginSession(plan, env, false).state, f)
  {
    hide Good, Trail, Loop, Opening, FreshClaim, SkipsAreExact, SuccessClosed, NoSkips, Calm, ValidPlan, BeginSession;
    var s := Opening(plan, Init(plan));
    BeginsWithLoop(plan, env);
    FreshQuiet(plan, s);
    LoopClaim(plan, env, Init(plan).(run := RunningRun), s);
    ClaimOf(plan.dag, BeginSession(plan, env, false).state, f);
  }

  // ---- In the trace ----

  /** An event says that `t` was skipped, and why. */
  ghost predicate SaysSkipped(events: seq<Event>, t: TaskId, note: Note) {
    exists i :: 0 <= i < |events| && events[i].kind == TaskSkipped && events[i].task == t && events[i].note == note
  }

  lemma SkipEvent(dag: Dag, c: Core, l: Label)
    ensures var e := EventOf(dag, c, Effect(dag, c, l));
            (e.kind == TaskSkipped <==> l.Skip?) && (l.Skip? ==> e.task == l.t && e.note == l.note)
  {
  }

  /** The skips of a process, in its events as in its labels. */
  lemma {:induction false} SkipEvents(dag: Dag, c: Core, ls: seq<Label>)
    ensures var trace := Exec(dag, c, ls).trace;
            && c.trace <= trace && |trace| == |c.trace| + |ls|
            && forall i :: |c.trace| <= i < |trace| ==>
                 var l := ls[i - |c.trace|];
                 && (trace[i].kind == TaskSkipped <==> l.Skip?)
                 && (l.Skip? ==> trace[i].task == l.t && trace[i].note == l.note)
  {
    hide Effect, EventOf;
    if ls != [] {
      var front := ls[..|ls| - 1];
      SkipEvents(dag, c, front);
      SkipEvent(dag, Exec(dag, c, front), Last(ls));
    }
  }

  /** Without skips before, the trace says what the log says. */
  lemma SkipsAreTraced(dag: Dag, c: Core, s: State, t: TaskId, note: Note)
    requires Trail(dag, c, s) && forall i :: 0 <= i < |c.trace| ==> c.trace[i].kind != TaskSkipped
    ensures SaysSkipped(s.core.trace, t, note) <==> Skip(t, note) in s.log
  {
    hide Good;
    SkipEvents(dag, c, s.log);
    var trace := s.core.trace;
    if Skip(t, note) in s.log {
      var k :| 0 <= k < |s.log| && s.log[k] == Skip(t, note);
      assert trace[|c.trace| + k].kind == TaskSkipped;
    }
    if SaysSkipped(trace, t, note) {
      var i :| 0 <= i < |trace| && trace[i].kind == TaskSkipped && trace[i].task == t && trace[i].note == note;
      assert s.log[i - |c.trace|] == Skip(t, note);
    }
  }

  /** What the trace says of the skipped tasks once `f` has failed in a fresh run. */
  ghost predicate TraceSkipsAreExact(dag: Dag, c: Core, f: TaskId) {
    && (forall t :: t in dag.tasks ==>
          (SaysSkipped(c.trace, t, BlockedBy(f)) <==> t != f && G.Reaches(Readiness.TaskDeps(dag), t, f)))
    && (forall t :: t in dag.tasks ==>
          (SaysSkipped(c.trace, t, Reason("fail_fast")) <==>
                Has(c, t, Skipped) && !G.Reaches(Readiness.TaskDeps(dag), t, f)))
    && (forall i :: 0 <= i < |c.trace| && c.trace[i].kind == TaskSkipped ==>
          c.trace[i].task in dag.tasks && c.trace[i].note in {BlockedBy(f), Reason("fail_fast")})
  }

  /**
    In a fresh run in which `f` failed, the tasks its trace calls skipped as blocked by `f` are exactly those that
    reach `f` over dependencies; every other skipped task is skipped as fail-fast.
  */
  lemma FreshSkipsAreExact(plan: Plan, env: Env, f: TaskId)
    requires ValidPlan(plan) && !BeginSession(plan, env, false).aborted
    requires Has(BeginSession(plan, env, false).state.core, f, Failed)
    ensures TraceSkipsAreExact(plan.dag, BeginSession(plan, env, false).state.core, f)
  {
    hide Good, Trail, ValidPlan, BeginSession, G.Reaches, SaysSkipped, Ended;
    LogSkipsAreExact(plan, env, f);
    BeginTrail(plan, env, false);
    var s := BeginSession(plan, env, false).state;
    var c0 := Init(plan).(run := RunningRun);
    forall t, note
      ensures SaysSkipped(s.core.trace, t, note) <==> Skip(t, note) in s.log
    {
      SkipsAreTraced(plan.dag, c0, s, t, note);
    }
    TracedReasons(plan.dag, c0, s, f);
  }

  lemma TracedReasons(dag: Dag, c: Core, s: State, f: TaskId)
    requires Trail(dag, c, s) && SkipsAreExact(dag, s, f)
    requires forall i :: 0 <= i < |c.trace| ==> c.trace[i].kind != TaskSkipped
    ensures forall i :: 0 <= i < |s.core.trace| && s.core.trace[i].kind == TaskSkipped ==>
              s.core.trace[i].task in dag.tasks && s.core.trace[i].note in {BlockedBy(f), Reason("fail_fast")}
  {
    hide Good, G.Reaches;
    SkipEvents(dag, c, s.log);
  }

  /** What a resume beside a failure or a cancellation skips, it skips because of the prior end. */
  lemma PriorSkipsSayWhy(p: Plan, e: Env, stored: Core)
    requires ValidPlan(p) && Good(p.dag, stored) && Reruns.EndedBadly(stored.results)
    ensures var trace := ResumeSession(p, e, stored).state.core.trace;
            && stored.trace <= trace
            && forall i :: |stored.trace| <= i < |trace| && trace[i].kind == TaskSkipped ==>
                 trace[i].note == Reason("prior_terminal_state")
  {
    hide Good, Trail, ValidPlan, Reload, ResumeSession, Exec, Ended;
    PriorSkips(p, e, stored);
    ResumeTrail(p, e, stored);
    Reruns.ReloadSupply(p.dag, e, stored);
    TrailEvents(p.dag, Reload(p.dag, e, stored).(run := RunningRun), ResumeSession(p, e, stored).state);
  }

  lemma TrailEvents(dag: Dag, c: Core, s: State)
    requires Trail(dag, c, s) && forall l :: l in s.log && l.Skip? ==> l.note == Reason("prior_terminal_state")
    ensures c.trace <= s.core.trace
    ensures forall i :: |c.trace| <= i < |s.core.trace| && s.core.trace[i].kind == TaskSkipped ==>
              s.core.trace[i].note == Reason("prior_terminal_state")
  {
    hide Good;
    SkipEvents(dag, c, s.log);
  }

  lemma PriorSkips(p: Plan, e: Env, stored: Core)
    requires ValidPlan(p) && Good(p.dag, stored) && Reruns.EndedBadly(stored.results)
    ensures forall l :: l in ResumeSession(p, e, stored).state.log && l.Skip? ==>
              l.note == Reason("prior_terminal_state")
  {
    hide Good, Trail, ValidPlan, Reload, Opening, IndeterminateIds, Reconcile, SkipRemaining, Loop, ReconcileOne,
        AnyDoomed, Loaded, Reruns.EndedBadly, SomeDoomed, Finish;
    var c := Reload(p.dag, e, stored);
    var c0 := c.(run := RunningRun);
    ReloadGood(p.dag, e, stored);
    Reruns.ReloadSupply(p.dag, e, stored);
    Reruns.ReloadDoomed(p.dag, e, stored);
    OpeningTrail(p, c);
    var s := Opening(p, c);
    Reruns.SameDoom(c, s.core);
    IndeterminateTrail(p, c0, s);
    Survival.NothingRuns(p.dag, e, stored);
    assert forall t :: Has(s.core, t, Running) <==> Has(c, t, Running);
    Reruns.NoneOpenIsIdle(s.core);
    ReconcileUnfold(p, e, s, []);
    Survival.DoomedSome(s.core);
    SkipRemainingTrail(p, c0, s, "prior_terminal_state", 0);
    RemainingLogged(p, s, "prior_terminal_state", 0);
    var s1 := SkipRemaining(p, s, "prior_terminal_state", 0);
    TrailDomain(p.dag, c0, s1);
    NothingPending(p, s1.core);
    SettledLoop(p, e, s1);
    FinishSkips(p, s1);
  }

  lemma NothingPending(p: Plan, c: Core)
    requires ValidPlan(p) && c.status.Keys == p.dag.tasks.Keys
    requires forall t :: t in p.order[0..] ==> !Has(c, t, Pending)
    ensures NonePending(c)
  {
    AllInOrder(p, c);
  }

  lemma FinishSkips(p: Plan, s: State)
    ensures forall l :: l in Finish(p, s).log && l.Skip? ==> l in s.log
  {
  }

  lemma FreshQuiet(plan: Plan, s: State)
    requires s.core.status == Init(plan).status && (s.log == [] || s.log == [RunStart])
    ensures Calm(s.core) && SuccessClosed(plan.dag, s.core) && NoSkips(s.log)
  {
  }

  lemma ClaimOf(dag: Dag, s: State, f: TaskId)
    requires FreshClaim(dag, s) && Has(s.core, f, Failed)
    ensures SkipsAreExact(dag, s, f)
  {
  }
}
