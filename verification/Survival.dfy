/** What a reload keeps of the statuses in the store, and what it forgets. */
module Survival {
  import opened Model
  import opened Artifacts
  import opened Machine
  import opened Invariants
  import opened Scheduling
  import opened Sessions
  import opened Runs
  import opened Chains
  import opened Verdicts
  import opened Reruns
  import Reuse
  import Transitions
  import Histories
  import T = Transparency

  // ---- Skipped and cancelled tasks ----

  /** The recorded result of `t` passes the reuse check. */
  predicate Accepts(dag: Dag, e: Env, stored: Core, t: TaskId)
    requires t in stored.results && t in dag.tasks
  {
    Satisfies(stored.artifacts, dag.runId, dag.tasks[t], stored.results[t], e.receiptOk)
  }

  /** A skipped task is skipped no longer: it is pending, or a success again if its result passes the reuse check. */
  lemma SkippedIsForgotten(dag: Dag, e: Env, stored: Core, t: TaskId)
    requires Good(dag, stored) && Has(stored, t, Skipped)
    ensures t in dag.tasks && t in Reload(dag, e, stored).status
    ensures var now := Reload(dag, e, stored).status[t];
            && now in {Pending, Success}
            && (now == Success <==> t in stored.results && Accepts(dag, e, stored, t))
            && (t in stored.results ==> stored.results[t].status == Success)
  {
    hide Satisfies, Exclusive, Supplied, Conserved, Separate, StarvedNeverRan, Ordered, FailureKnown, ClosedOnce,
      WellTraced, Reusable;
    if t in stored.results {
      assert Fits(dag, t, stored.results[t], stored.status[t]);
    }
  }

  /** A cancelled task stays cancelled exactly when an attempt of it was; otherwise it fares like a skipped one. */
  lemma CancelledSurvivesWith(dag: Dag, e: Env, stored: Core, t: TaskId)
    requires Good(dag, stored) && Has(stored, t, Cancelled)
    ensures t in dag.tasks && t in Reload(dag, e, stored).status
    ensures var now := Reload(dag, e, stored).status[t];
            && now in {Cancelled, Pending, Success}
            && (now == Cancelled <==> t in stored.results && stored.results[t].status == Cancelled)
            && (now == Success <==>
                  t in stored.results && stored.results[t].status == Success && Accepts(dag, e, stored, t))
            && (t in stored.results && stored.results[t].status == Cancelled ==> stored.results[t].attempts != [])
  {
    hide Satisfies, Exclusive, Supplied, Conserved, Separate, StarvedNeverRan, Ordered, FailureKnown, ClosedOnce,
      WellTraced, Reusable;
    if t in stored.results {
      assert Fits(dag, t, stored.results[t], stored.status[t]);
    }
  }

  // ---- A rejected success ----

  lemma LabelNamesNoPending(dag: Dag, c: Core, l: Label)
    requires Enabled(dag, c, l)
    ensures Histories.StatusNamed(EventOf(dag, c, Effect(dag, c, l)).kind) != Some(Pending)
  {
    hide Calm, DepsDone, Satisfies, Promoted, TerminalRunStatus, Idle;
  }

  /** Nothing after the first `n` events says that a task became pending. */
  ghost predicate NothingReset(events: seq<Event>, n: nat) {
    forall i :: n <= i < |events| ==> Histories.StatusNamed(events[i].kind) != Some(Pending)
  }

  lemma {:induction false} NoneReset(dag: Dag, c: Core, ls: seq<Label>)
    requires Machine.Runs(dag, c, ls)
    ensures c.trace <= Exec(dag, c, ls).trace && NothingReset(Exec(dag, c, ls).trace, |c.trace|)
  {
    if ls != [] {
      var front := ls[..|ls| - 1];
      NoneReset(dag, c, front);
      LabelNamesNoPending(dag, Exec(dag, c, front), Last(ls));
      hide Enabled, Effect, EventOf;
    }
  }

  /**
    A rejected success is made pending with its result kept, and neither the reload nor anything the resume
    commits says so: the only events of a task that name a status name a later one.
  */
  lemma RejectionIsUntraced(p: Plan, e: Env, stored: Core, t: TaskId)
    requires ValidPlan(p) && Good(p.dag, stored) && Rejected(p.dag, e, stored, t)
    ensures var c := Reload(p.dag, e, stored);
            Has(c, t, Pending) && c.results == stored.results && c.trace == stored.trace
    ensures var trace := ResumeSession(p, e, stored).state.core.trace;
            stored.trace <= trace && NothingReset(trace, |stored.trace|)
  {
    hide Good, Trail, ResumeSession, Ended, Reload, ValidPlan;
    RejectedRan(p.dag, e, stored, t);
    ReloadSupply(p.dag, e, stored);
    ResumeTrail(p, e, stored);
    TrailResets(p.dag, Reload(p.dag, e, stored).(run := RunningRun), ResumeSession(p, e, stored).state);
  }

  lemma TrailResets(dag: Dag, c: Core, s: State)
    requires Trail(dag, c, s)
    ensures c.trace <= s.core.trace && NothingReset(s.core.trace, |c.trace|)
  {
    hide Good;
    NoneReset(dag, c, s.log);
  }

  // ---- Resuming after a bad end ----

  /** What follows reconciliation, when something has ended badly and nothing is active. */
  lemma SkipsAndEnds(p: Plan, e: Env, c0: Core, s: State)
    requires ValidPlan(p) && Trail(p.dag, c0, s) && Idle(s.core) && SomeDoomed(s.core)
    ensures var r := Loop(p, e, SkipRemaining(p, s, "prior_terminal_state", 0), false);
            && !r.aborted && r.state.core.status == T.SkipAll(s.core.status)
            && r.state.core.results == s.core.results && r.state.core.artifacts == s.core.artifacts
  {
    hide Good, Trail, Loop, Finish, SkipRemaining, ValidPlan;
    SkipRemainingTrail(p, c0, s, "prior_terminal_state", 0);
    var s1 := SkipRemaining(p, s, "prior_terminal_state", 0);
    TrailDomain(p.dag, c0, s1);
    T.SkippedEverything(p, s.core, s1.core);
    T.LoopIsFinish(p, e, s1);
    FinishKeeps(p, s1);
  }

  lemma FinishKeeps(p: Plan, s: State)
    ensures var c := Finish(p, s).core;
            c.status == s.core.status && c.results == s.core.results && c.artifacts == s.core.artifacts
  {
  }

  /** With a failure or cancellation on record, a resume only skips what the reload made pending. */
  lemma BadEndIsFinal(p: Plan, e: Env, stored: Core)
    requires ValidPlan(p) && Good(p.dag, stored) && EndedBadly(stored.results)
    ensures var r := ResumeSession(p, e, stored);
            && !r.aborted && r.state.core.status == T.SkipAll(Reload(p.dag, e, stored).status)
            && r.state.core.results == stored.results && r.state.core.artifacts == stored.artifacts
  {
    hide Good, Trail, ValidPlan, Reload, Opening, IndeterminateIds, Reconcile, SkipRemaining, Loop, ReconcileOne,
      AnyDoomed, Loaded, EndedBadly, SomeDoomed;
    var c := Reload(p.dag, e, stored);
    var c0 := c.(run := RunningRun);
    ReloadGood(p.dag, e, stored);
    ReloadSupply(p.dag, e, stored);
    ReloadDoomed(p.dag, e, stored);
    OpeningTrail(p, c);
    var s := Opening(p, c);
    SameDoom(c, s.core);
    IndeterminateTrail(p, c0, s);
    NothingRuns(p.dag, e, stored);
    assert forall t :: Has(s.core, t, Running) <==> Has(c, t, Running);
    NoneOpenIsIdle(s.core);
    ReconcileUnfold(p, e, s, []);
    DoomedSome(s.core);
    SkipsAndEnds(p, e, c0, s);
  }

  lemma DoomedSome(c: Core)
    requires AnyDoomed(c)
    ensures SomeDoomed(c)
  {
  }

  lemma NothingRuns(dag: Dag, e: Env, stored: Core)
    requires Good(dag, stored) && EndedBadly(stored.results)
    ensures forall t :: !Has(Reload(dag, e, stored), t, Running)
  {
    hide Good, Reload, EndedBadly;
    forall t
      ensures !Has(Reload(dag, e, stored), t, Running)
    {
      if Has(Reload(dag, e, stored), t, Running) {
        OpenAlone(dag, e, stored, t);
      }
    }
  }

  /**
    A success that one resume rejected and then skipped keeps its result; a later resume reloads the skipped task
    as a success exactly while the receipts of its proofs hold.
  */
  lemma SkippedSuccessComesBack(p: Plan, e: Env, e': Env, stored: Core, t: TaskId)
    requires ValidPlan(p) && Good(p.dag, stored) && EndedBadly(stored.results) && Rejected(p.dag, e, stored, t)
    ensures stored.results[t].attempts != []
    ensures var c := ResumeSession(p, e, stored).state.core;
            && Has(c, t, Skipped) && t in c.results && c.results[t] == stored.results[t]
            && (Has(Reload(p.dag, e', c), t, Success)
                <==> ReceiptsHold(stored.artifacts, p.dag.runId, p.dag.tasks[t], stored.results[t], e'.receiptOk))
  {
    hide Good, Trail, ResumeSession, Ended, ValidPlan, Satisfies, Reload, ReceiptsHold;
    BadEndIsFinal(p, e, stored);
    RejectedRan(p.dag, e, stored, t);
    ResumeTrail(p, e, stored);
    var c := ResumeSession(p, e, stored).state.core;
    TrailGood(p.dag, Reload(p.dag, e, stored).(run := RunningRun), ResumeSession(p, e, stored).state);
    Reuse.ReusableExactly(p.dag, stored, t, e'.receiptOk);
    SkippedIsForgotten(p.dag, e', c, t);
  }

  // ---- A run cancelled at its start ----

  lemma CancelsEverything(p: Plan, e: Env)
    requires ValidPlan(p)
    ensures var s := BeginSession(p, e, true).state;
            && s.log != [] && s.core.run == CancelledRun && s.core.results == map[]
            && s.core.status.Keys == p.dag.tasks.Keys && forall t :: t in p.dag.tasks ==> s.core.status[t] == Cancelled
  {
    hide Good, Trail, Opening, CancelAll, Init;
    InitGood(p);
    var c := Init(p);
    InitIs(p);
    OpeningTrail(p, c);
    var s := Opening(p, c);
    var c0 := c.(run := RunningRun);
    OrderIsTasks(p);
    assert p.order[0] in p.order;
    hide ValidPlan;
    CancelAllTrail(p, c0, s, p.order[0]);
    CancelAllLogs(p, s);
    TrailDomain(p.dag, c0, CancelAll(p, s));
    forall t | t in p.dag.tasks
      ensures CancelAll(p, s).core.status[t] == Cancelled
    {
      assert s.core.status[t] == Pending;
      assert t in CancelAll(p, s).core.status && Transitions.Terminal(CancelAll(p, s).core.status[t]);
    }
  }

  lemma InitIs(p: Plan)
    ensures Init(p).results == map[] && Init(p).status.Keys == p.dag.tasks.Keys
    ensures forall t :: t in p.dag.tasks ==> Init(p).status[t] == Pending
  {
  }

  lemma CancelAllLogs(p: Plan, s: State)
    ensures CancelAll(p, s).log != []
  {
  }

  /**
    A run cancelled before anything ran is stored as CANCELLED with every task cancelled; a resume forgets all
    of it, starts from scratch, and starts the first task that is ready.
  */
  lemma CancelledRunIsRun(p: Plan, e: Env, e': Env, lost: nat)
    requires ValidPlan(p)
    ensures var ch := Begun(p, e, true, |BeginSession(p, e, true).state.log|);
            && ValidChain(p.dag, ch)
            && var stored := Lose(Durable(p.dag, ch), lost);
               && stored.run == CancelledRun && (forall t :: t in p.dag.tasks ==> Has(stored, t, Cancelled))
               && Reload(p.dag, e', stored).status == Init(p).status
               && forall t :: T.FirstReady(p, Init(p).status, |p.order|) == Some(t) ==>
                    Start(t) in ResumeSession(p, e', stored).state.log
  {
    hide Good, BeginSession, ResumeSession, ValidPlan, Durable, Init, T.FirstReady;
    CancelsEverything(p, e);
    StoredAtEnd(p, e, true);
    var ch := Begun(p, e, true, |BeginSession(p, e, true).state.log|);
    ChainGood(p.dag, ch);
    LoseGood(p.dag, Durable(p.dag, ch), lost);
    var stored := Lose(Durable(p.dag, ch), lost);
    InitIs(p);
    ResumeStarts(p, e', stored);
    NoResultsReload(p, e', stored);
    NothingRecorded(p, e', stored);
  }

  lemma NoResultsReload(p: Plan, e: Env, stored: Core)
    requires stored.results == map[]
    ensures Reload(p.dag, e, stored).status == map t | t in p.dag.tasks :: Pending
    ensures Reload(p.dag, e, stored).status == Init(p).status
  {
  }

  lemma NothingRecorded(p: Plan, e: Env, stored: Core)
    requires stored.results == map[]
    ensures forall t :: T.FirstReady(p, Reload(p.dag, e, stored).status, |p.order|) == Some(t) ==>
          t in ResumeReruns(p, e, stored).started
  {
    hide T.FirstReady, Verdict;
  }

  // ---- A run whose first task fails ----

  /** The first dispatch fails, and the loop skips everything else. */
  lemma FirstFailure(p: Plan, e: Env, t: TaskId)
    requires ValidPlan(p) && T.FirstReady(p, Init(p).status, |p.order|) == Some(t)
    requires Verdict(p.dag, t, e.exec(t, 2)) == Some(Failed)
    ensures var s := BeginSession(p, e, false).state;
            && s.log != [] && s.core.status.Keys == p.dag.tasks.Keys && Has(s.core, t, Failed)
            && s.core.results.Keys == {t}
            && forall u :: u in p.dag.tasks && u != t ==> Has(s.core, u, Skipped)
  {
    hide Good, Trail, BeginSession, Do, Dispatch, FailFastFrom, ValidPlan, Finish, T.FirstReady, Verdict, Calm,
        Dispatchable, ReadyIds, FirstBlocked, Init, Opening;
    BeginsWithLoop(p, e);
    var c0 := Init(p).(run := RunningRun);
    var s := Opening(p, Init(p));
    T.ChoicesAgree(p, c0, s);
    RoundMemory(p, e, c0, s, t);
    var s1 := Do(p.dag, s, MakeReady(t));
    var d := Dispatch(p, e, s1, t).state;
    ReadyKeepsResults(p.dag, s, t);
    T.DispatchResults(p, e, s1, t);
    CalmAfter(s.core, d.core, t, Failed);
    FailFastTrail(p, c0, d, t);
    EmptyReady(p, FailFastFrom(p, d, t).core);
    FinishKeeps(p, FailFastFrom(p, d, t));
    TrailDomain(p.dag, c0, FailFastFrom(p, d, t));
    Histories.FinishLog(p, FailFastFrom(p, d, t));
    OthersSkipped(p, d.core, FailFastFrom(p, d, t).core, t);
    assert BeginSession(p, e, false).state == Finish(p, FailFastFrom(p, d, t));
  }

  lemma ReadyKeepsResults(dag: Dag, s: State, t: TaskId)
    ensures Do(dag, s, MakeReady(t)).core.results == s.core.results
  {
  }

  lemma OthersSkipped(p: Plan, c: Core, c': Core, t: TaskId)
    requires c.status == Init(p).status[t := Failed] && OnlyPendingMoved(c, c', Skipped) && NonePending(c')
    requires t in p.dag.tasks && c'.status.Keys == p.dag.tasks.Keys
    ensures Has(c', t, Failed) && forall u :: u in p.dag.tasks && u != t ==> Has(c', u, Skipped)
  {
  }

  /**
    A run whose first task fails is stored with that task failed and every other skipped; a reload, whatever the
    receipts, finds the others pending, and the resume skips them again.
  */
  lemma SkippedTasksAreStored(p: Plan, e: Env, e': Env, lost: nat, t: TaskId)
    requires ValidPlan(p) && T.FirstReady(p, Init(p).status, |p.order|) == Some(t)
    requires Verdict(p.dag, t, e.exec(t, 2)) == Some(Failed)
    ensures var ch := Begun(p, e, false, |BeginSession(p, e, false).state.log|);
            && ValidChain(p.dag, ch)
            && var stored := Lose(Durable(p.dag, ch), lost);
               && Has(stored, t, Failed)
               && forall u :: u in p.dag.tasks && u != t ==>
                    && Has(stored, u, Skipped) && Has(Reload(p.dag, e', stored), u, Pending)
                    && Has(ResumeSession(p, e', stored).state.core, u, Skipped)
  {
    hide Good, BeginSession, ResumeSession, ValidPlan, Durable, Init, T.FirstReady, Verdict, Reload, Lose;
    FirstFailure(p, e, t);
    StoredAtEnd(p, e, false);
    var ch := Begun(p, e, false, |BeginSession(p, e, false).state.log|);
    ChainGood(p.dag, ch);
    LoseGood(p.dag, Durable(p.dag, ch), lost);
    var stored := Lose(Durable(p.dag, ch), lost);
    LoseKeeps(Durable(p.dag, ch), lost);
    FailureRecorded(p.dag, stored, t);
    BadEndIsFinal(p, e', stored);
    forall u | u in p.dag.tasks && u != t
      ensures Has(Reload(p.dag, e', stored), u, Pending) && Has(ResumeSession(p, e', stored).state.core, u, Skipped)
    {
      NoResultReload(p.dag, e', stored, u);
    }
  }

  lemma LoseKeeps(c: Core, lost: nat)
    ensures Lose(c, lost).status == c.status && Lose(c, lost).results == c.results
  {
  }

  lemma FailureRecorded(dag: Dag, c: Core, t: TaskId)
    requires Good(dag, c) && Has(c, t, Failed)
    ensures EndedBadly(c.results)
  {
  }

  lemma NoResultReload(dag: Dag, e: Env, c: Core, u: TaskId)
    requires u !in c.results && u in dag.tasks
    ensures var st := Reload(dag, e, c).status;
            Has(Reload(dag, e, c), u, Pending) && u in T.SkipAll(st) && T.SkipAll(st)[u] == Skipped
  {
  }
}
