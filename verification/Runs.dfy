/** Whole processes: from a loaded memory to the last commit. */
module Runs {
  import opened Model
  import opened Artifacts
  import opened Trace
  import opened Machine
  import opened InputResolver
  import opened Invariants
  import opened Scheduling
  import opened Sessions

  // ---- No task is stranded ----

  /** If nothing can be dispatched and nothing is input-blocked, a calm memory has nothing pending. */
  lemma {:induction false} Unstranded(dag: Dag, c: Core, rank: map<TaskId, nat>, t: TaskId)
    requires ValidDag(dag) && Ranks(dag.tasks, rank) && Shape(dag, c) && Calm(c)
    requires forall u :: u in dag.tasks ==> !Dispatchable(dag, c, u) && !InputBlocked(dag, c, u)
    requires t in dag.tasks
    ensures c.status[t] != Pending
    decreases rank[t]
  {
    forall d | d in dag.tasks[t].deps
      ensures c.status[d] == Success && (d in c.results ==> c.results[d].status == Success)
    {
      Unstranded(dag, c, rank, d);
    }
    assert DepsDone(dag, c, t);
  }

  lemma NothingLeft(p: Plan, c: Core)
    requires ValidPlan(p) && Shape(p.dag, c) && Calm(c)
    requires ReadyIds(p, c, |p.order|) == [] && FirstBlocked(p, c, 0) == None
    ensures NonePending(c)
  {
    hide Dispatchable, InputBlocked;
    var rank :| Ranks(p.dag.tasks, rank);
    var ready := ReadyIds(p, c, |p.order|);
    assert p.order[..|p.order|] == p.order && p.order[0..] == p.order;
    forall u | u in p.dag.tasks
      ensures !Dispatchable(p.dag, c, u) && !InputBlocked(p.dag, c, u)
    {
      assert u in p.order;
      assert u !in ready;
    }
    forall t | t in c.status
      ensures c.status[t] != Pending
    {
      Unstranded(p.dag, c, rank, t);
    }
  }

  /** How a process that was not aborted leaves memory. */
  ghost predicate Settled(c: Core) {
    AllTerminal(c) && c.run == TerminalRunStatus(c.status)
  }

  lemma FinishTrail(p: Plan, c0: Core, s: State)
    requires ValidPlan(p) && Trail(p.dag, c0, s) && NonePending(s.core) && Idle(s.core)
    ensures var s' := Finish(p, s);
            && Trail(p.dag, c0, s') && Settled(s'.core)
            && s'.core.status == s.core.status && s'.core.results == s.core.results
  {
    hide Good, Trail, TerminalRunStatus, Do;
    EndTrail(p.dag, c0, s, FinalStatus(s.core), NoNote);
  }

  // ---- The scheduling loop ----

  lemma ReadyTrail(p: Plan, c0: Core, s: State, t: TaskId)
    requires ValidPlan(p) && Trail(p.dag, c0, s) && Calm(s.core) && Dispatchable(p.dag, s.core, t)
    ensures var s' := Do(p.dag, s, MakeReady(t));
            Trail(p.dag, c0, s') && ReadyToStart(p.dag, s'.core, t) && s'.core.status == s.core.status[t := Ready]
  {
    hide Good;
    NotStarved(p.dag, c0, s, t);
    TrailDo(p.dag, c0, s, MakeReady(t));
  }

  lemma NotStarved(dag: Dag, c0: Core, s: State, t: TaskId)
    requires StaticInputs(dag) && Trail(dag, c0, s) && t in dag.tasks && DepsDone(dag, s.core, t)
    ensures ResolveReady(s.core.artifacts, dag.runId, dag.tasks[t], s.core.results) <==> !Starved(dag.tasks[t])
  {
    TrailGood(dag, c0, s);
    StaticReady(dag, s.core, t);
  }

  lemma BlockTrail(p: Plan, c0: Core, s: State, t: TaskId)
    requires ValidPlan(p) && Trail(p.dag, c0, s) && Calm(s.core) && InputBlocked(p.dag, s.core, t)
    ensures var s' := Do(p.dag, s, Block(t, BlockedResult(p.dag, t), Reason("required_input_unavailable")));
            Trail(p.dag, c0, s') && Idle(s'.core) && SomeDoomed(s'.core) && s'.core.status == s.core.status[t := Failed]
  {
    hide Good;
    NotStarved(p.dag, c0, s, t);
    TrailDo(p.dag, c0, s, Block(t, BlockedResult(p.dag, t), Reason("required_input_unavailable")));
    var s' := Do(p.dag, s, Block(t, BlockedResult(p.dag, t), Reason("required_input_unavailable")));
    assert Doomed(s'.core.status[t]);
  }

  lemma CalmAfter(c: Core, c': Core, t: TaskId, status: Status)
    requires Calm(c) && t in c.status && c'.status == c.status[t := status]
    ensures status == Success ==> Calm(c')
    ensures status in {Failed, Cancelled} ==> Idle(c') && SomeDoomed(c') && c'.status[t] == status
  {
    if status in {Failed, Cancelled} {
      assert Doomed(c'.status[t]);
    }
  }

  /** Where the loop may be entered: nothing failed yet, or nothing left to do. */
  ghost predicate LoopEntry(c: Core, failed: bool) {
    (Calm(c) && !failed) || (NonePending(c) && Idle(c))
  }

  lemma EmptyReady(p: Plan, c: Core)
    requires ValidPlan(p) && NonePending(c)
    ensures ReadyIds(p, c, |p.order|) == [] && FirstBlocked(p, c, 0) == None
  {
  }

  /** The loop takes enabled steps, and unless aborted leaves every task terminal with the matching run status. */
  lemma {:induction false} LoopTrail(p: Plan, e: Env, c0: Core, s: State, failed: bool)
    requires ValidPlan(p) && Trail(p.dag, c0, s) && LoopEntry(s.core, failed)
    ensures var r := Loop(p, e, s, failed);
            Trail(p.dag, c0, r.state) && (!r.aborted ==> Settled(r.state.core))
    decreases Pendings(s.core)
  {
    hide Good, Trail, Do, Dispatch, Finish, FailFastFrom, TerminalRunStatus, Dispatchable, InputBlocked,
        BlockedResult, Settled;
    var ready := ReadyIds(p, s.core, |p.order|);
    if NonePending(s.core) {
      EmptyReady(p, s.core);
      FinishTrail(p, c0, s);
    } else if ready == [] {
      match FirstBlocked(p, s.core, 0)
      case None =>
        TrailGood(p.dag, c0, s);
        ShapeOf(p.dag, s.core);
        NothingLeft(p, s.core);
        assert false;
      case Some(t) =>
        BlockTrail(p, c0, s, t);
        var s' := Do(p.dag, s, Block(t, BlockedResult(p.dag, t), Reason("required_input_unavailable")));
        FailFastTrail(p, c0, s', t);
        FinishTrail(p, c0, FailFastFrom(p, s', t));
    } else {
      LoopRoundTrail(p, e, c0, s, ready[0]);
    }
  }

  lemma ShapeOf(dag: Dag, c: Core)
    requires Good(dag, c)
    ensures Shape(dag, c) && Exclusive(c)
  {
  }

  lemma {:induction false} LoopRoundTrail(p: Plan, e: Env, c0: Core, s: State, t: TaskId)
    requires ValidPlan(p) && Trail(p.dag, c0, s) && Calm(s.core)
    requires ReadyIds(p, s.core, |p.order|) != [] && t == ReadyIds(p, s.core, |p.order|)[0]
    ensures var r := Loop(p, e, s, false);
            Trail(p.dag, c0, r.state) && (!r.aborted ==> Settled(r.state.core))
    decreases Pendings(s.core), 0
  {
    hide Good, Trail, Do, Dispatch, Finish, FailFastFrom, TerminalRunStatus, Settled;
    assert t in ReadyIds(p, s.core, |p.order|);
    ReadyTrail(p, c0, s, t);
    var s1 := Do(p.dag, s, MakeReady(t));
    DispatchTrail(p, e, c0, s1, t);
    var d := Dispatch(p, e, s1, t);
    if !d.aborted {
      var status := d.state.core.results[t].status;
      CalmAfter(s.core, d.state.core, t, status);
      assert Pendings(d.state.core) == Pendings(s.core) - {t};
      assert t in Pendings(s.core);
      if status == Failed {
        FailFastTrail(p, c0, d.state, t);
        LoopTrail(p, e, c0, FailFastFrom(p, d.state, t), true);
      } else if status == Success {
        LoopTrail(p, e, c0, d.state, false);
      }
    }
  }

  lemma CancelAllSettled(p: Plan, s: State)
    requires AllTerminal(CancelAll(p, s).core)
    requires exists t :: t in CancelAll(p, s).core.status && CancelAll(p, s).core.status[t] == Cancelled
    ensures Settled(CancelAll(p, s).core)
  {
  }

  // ---- The whole process ----

  lemma IndeterminateIsRunning(dag: Dag, c: Core, t: TaskId)
    requires Shape(dag, c)
    ensures Indeterminate(c, t) <==> Has(c, t, Running)
  {
  }

  lemma {:induction false} IndeterminateAtMostOne(p: Plan, c: Core, n: nat)
    requires n <= |p.order| && Distinct(p.order)
    requires forall t, u :: Indeterminate(c, t) && Indeterminate(c, u) ==> t == u
    ensures |IndeterminateIds(p, c, n)| <= 1
  {
    hide Indeterminate;
    if n > 0 {
      IndeterminateAtMostOne(p, c, n - 1);
      assert p.order[n - 1] !in p.order[..n - 1];
    }
  }

  /** At most one task is indeterminate, and it is the one that is running. */
  lemma IndeterminateOne(p: Plan, c: Core)
    requires ValidPlan(p) && Shape(p.dag, c) && Exclusive(c)
    ensures var ids := IndeterminateIds(p, c, |p.order|);
            && (ids == [] ==> forall t :: t in c.status ==> c.status[t] != Running)
            && (ids != [] ==> |ids| == 1 && Has(c, ids[0], Running) && ids[0] in p.dag.tasks)
            && (forall t :: Has(c, t, Running) ==> ids == [t])
  {
    assert p.order[..|p.order|] == p.order;
    hide Fits, Indeterminate, ValidDag, StaticInputs, DistinctOutputs;
    forall t
      ensures Indeterminate(c, t) <==> Has(c, t, Running)
    {
      IndeterminateIsRunning(p.dag, c, t);
    }
    IndeterminateAtMostOne(p, c, |p.order|);
  }

  /** Memory as a process finds it: nothing is in the middle of being started. */
  ghost predicate Loaded(c: Core) {
    forall t :: t in c.status ==> c.status[t] != Ready
  }

  lemma GoodRunRecords(dag: Dag, c: Core, run: RunStatus)
    requires Conserved(dag, c) && Separate(c) && StarvedNeverRan(dag, c) && Ordered(dag, c) && FailureKnown(c)
    requires Reusable(dag, c) && ClosedOnce(c)
    ensures var c' := c.(run := run);
            && Conserved(dag, c') && Separate(c') && StarvedNeverRan(dag, c')
            && Ordered(dag, c') && FailureKnown(c') && Reusable(dag, c') && ClosedOnce(c')
  {
    hide Satisfies, StartsOf, CompletedBefore, Distinct, FailFast, Starved;
  }

  lemma GoodRun(dag: Dag, c: Core, run: RunStatus)
    requires Good(dag, c)
    ensures Good(dag, c.(run := run))
  {
    hide Fits, Conserved, Separate, StarvedNeverRan, Ordered, FailureKnown, Reusable, ClosedOnce;
    GoodRunRecords(dag, c, run);
  }

  lemma OpeningTrail(p: Plan, c: Core)
    requires Good(p.dag, c)
    ensures var s := Opening(p, c);
            && Trail(p.dag, c.(run := RunningRun), s)
            && s.core.status == c.status && s.core.results == c.results && s.core.artifacts == c.artifacts
            && s.core.run == RunningRun
            && (s.log == [] || s.log == [RunStart])
  {
    hide Good;
    GoodRun(p.dag, c, RunningRun);
    var s := State(c.(run := RunningRun), []);
    assert Trail(p.dag, c.(run := RunningRun), s);
    if forall i :: 0 <= i < |c.trace| ==> c.trace[i].kind != RunStarted {
      TrailDo(p.dag, c.(run := RunningRun), s, RunStart);
    }
  }

  /** A process stopped by an attempt it could not reconcile. */
  ghost predicate Interrupted(c: Core) {
    !Idle(c) && c.run in {InterruptedRun, ReconciliationRequired}
  }

  /** After reconciliation, the loop may be entered once prior failures have skipped what is pending. */
  lemma EnterLoop(p: Plan, c0: Core, s: State)
    requires ValidPlan(p) && Trail(p.dag, c0, s) && Idle(s.core)
    ensures var s' := if AnyDoomed(s.core) then SkipRemaining(p, s, "prior_terminal_state", 0) else s;
            Trail(p.dag, c0, s') && LoopEntry(s'.core, false)
  {
    hide Good, Trail;
    if AnyDoomed(s.core) {
      SkipRemainingTrail(p, c0, s, "prior_terminal_state", 0);
      assert p.order[0..] == p.order;
      TrailDomain(p.dag, c0, SkipRemaining(p, s, "prior_terminal_state", 0));
    }
  }

  lemma ReconcileUnfold(p: Plan, e: Env, s: State, ids: seq<TaskId>)
    requires |ids| <= 1
    ensures Reconcile(p, e, s, ids, 0) == if ids == [] then Reconciled(s, false) else ReconcileOne(p, e, s, ids[0])
  {
    hide ReconcileOne;
    if ids != [] {
      var r := ReconcileOne(p, e, s, ids[0]);
      assert Reconcile(p, e, r.state, ids, 1) == Reconciled(r.state, false);
    }
  }

  /** The indeterminate ids along a trail: the running task if there is one. */
  lemma IndeterminateTrail(p: Plan, c0: Core, s: State)
    requires ValidPlan(p) && Trail(p.dag, c0, s)
    ensures var ids := IndeterminateIds(p, s.core, |p.order|);
            && |ids| <= 1
            && (ids == [] ==> forall t :: t in s.core.status ==> s.core.status[t] != Running)
            && (ids != [] ==> Has(s.core, ids[0], Running))
            && (forall t :: Has(s.core, t, Running) ==> ids == [t])
  {
    hide Good, Trail, Shape, Exclusive, IndeterminateIds, ValidPlan;
    TrailGood(p.dag, c0, s);
    ShapeOf(p.dag, s.core);
    IndeterminateOne(p, s.core);
  }

  lemma ReconcileTrail(p: Plan, e: Env, c0: Core, s: State)
    requires ValidPlan(p) && Trail(p.dag, c0, s) && Loaded(s.core)
    ensures var r := Reconcile(p, e, s, IndeterminateIds(p, s.core, |p.order|), 0);
            && Trail(p.dag, c0, r.state)
            && (r.blocked ==> Interrupted(r.state.core))
            && (!r.blocked ==> Idle(r.state.core))
  {
    hide Good, Trail, ReconcileOne, Reconcile, IndeterminateIds, ValidPlan;
    IndeterminateTrail(p, c0, s);
    var ids := IndeterminateIds(p, s.core, |p.order|);
    ReconcileUnfold(p, e, s, ids);
    if ids != [] {
      ReconcileOneTrail(p, e, c0, s, ids[0]);
      var r := ReconcileOne(p, e, s, ids[0]);
      if r.blocked {
        assert Has(r.state.core, ids[0], Running);
      } else {
        forall u | u in r.state.core.status
          ensures r.state.core.status[u] !in {Ready, Running}
        {
          assert Has(s.core, u, Running) ==> ids == [u];
        }
      }
    }
  }

  /** The last commit of a process: everything terminal, or stopped on an open attempt. */
  ghost predicate Ended(c: Core) {
    Settled(c) || Interrupted(c)
  }

  /** Every process takes enabled steps only; if no exception stops it, it ends with no task stranded. */
  lemma SessionTrail(p: Plan, e: Env, c: Core, cancelled: bool)
    requires ValidPlan(p) && Good(p.dag, c) && Loaded(c)
    requires (cancelled ==> forall t :: t in c.status ==> c.status[t] == Pending)
    ensures var r := Session(p, e, c, cancelled);
            Trail(p.dag, c.(run := RunningRun), r.state) && (!r.aborted ==> Ended(r.state.core))
  {
    hide Good, Trail, Opening, CancelAll, TerminalRunStatus, Loop, Reconcile, Settled, IndeterminateIds, SkipRemaining,
        AnyDoomed, ValidPlan, Loaded;
    var c0 := c.(run := RunningRun);
    OpeningTrail(p, c);
    var s := Opening(p, c);
    if cancelled {
      CancelledTrail(p, c0, s);
    } else {
      SameLoaded(c, s.core);
      ReconcileTrail(p, e, c0, s);
      var r := Reconcile(p, e, s, IndeterminateIds(p, s.core, |p.order|), 0);
      if !r.blocked {
        EnterLoop(p, c0, r.state);
        var s' := if AnyDoomed(r.state.core) then SkipRemaining(p, r.state, "prior_terminal_state", 0) else r.state;
        LoopTrail(p, e, c0, s', false);
      }
    }
  }

  lemma SameLoaded(c: Core, c': Core)
    requires c.status == c'.status
    ensures Loaded(c) <==> Loaded(c')
  {
  }

  lemma FirstTask(p: Plan)
    requires ValidPlan(p)
    ensures p.order != [] && p.order[0] in p.dag.tasks
  {
    assert p.order[0] in p.order;
  }

  /** A process cancelled at its start cancels every task. */
  lemma CancelledTrail(p: Plan, c0: Core, s: State)
    requires ValidPlan(p) && Trail(p.dag, c0, s) && forall t :: t in s.core.status ==> s.core.status[t] == Pending
    ensures Trail(p.dag, c0, CancelAll(p, s)) && Ended(CancelAll(p, s).core)
  {
    hide Good, Trail, CancelAll, ValidPlan, Settled, Interrupted;
    TrailDomain(p.dag, c0, s);
    FirstTask(p);
    CancelAllTrail(p, c0, s, p.order[0]);
    assert CancelAll(p, s).core.status[p.order[0]] == Cancelled;
    CancelAllSettled(p, s);
  }
}
