/** Where an executor that reports a cancellation leaves a run, and what a resume makes of it. */
module Cancellations {
  import opened Model
  import opened Machine
  import opened Invariants
  import opened Scheduling
  import opened Sessions
  import opened Runs
  import opened Chains
  import opened Verdicts
  import opened Reruns
  import Artifacts
  import Survival
  import T = Transparency

  // ---- When the loop meets a cancelled dispatch ----

  /** The task whose dispatch is cancelled when the loop begins with statuses `st` and the next id is `supply`. */
  function CancelsAt(p: Plan, e: Env, st: T.StatusMap, supply: nat): Option<TaskId>
    decreases T.PendingIn(st)
  {
    match T.FirstReady(p, st, |p.order|)
    case None => None
    case Some(t) =>
      assert t in T.PendingIn(st) && T.PendingIn(st[t := Success]) == T.PendingIn(st) - {t};
      var out := e.exec(t, supply + 1);
      match Verdict(p.dag, t, out)
      case Some(Success) => CancelsAt(p, e, st[t := Success], supply + 3 + IdsDrawn(out))
      case Some(Cancelled) => Some(t)
      case _ => None
  }

  ghost predicate AnyCancelled(c: Core) {
    exists t :: Has(c, t, Cancelled)
  }

  /** The last commit was the TASK_CANCELLED that closed an attempt of `t`. */
  ghost predicate EndsCancelling(c: Core, t: TaskId) {
    && c.trace != [] && Last(c.trace).kind == TaskCancelled && Last(c.trace).task == t
    && Has(c, t, Cancelled) && t in c.results && c.results[t].status == Cancelled
    && c.results[t].attempts != [] && Last(c.trace).attempt == Some(Last(c.results[t].attempts))
  }

  /** The loop ended in a cancelled dispatch of the given task, or in none. */
  ghost predicate CancelledAs(r: Step, cancelled: Option<TaskId>) {
    match cancelled
    case None => !AnyCancelled(r.state.core)
    case Some(t) =>
      r.aborted && EndsCancelling(r.state.core, t) && forall u :: Has(r.state.core, u, Cancelled) ==> u == t
  }

  lemma ConcludeEvent(p: Plan, s: State, t: TaskId, attempts: seq<nat>, prior: Option<TaskResult>, out: Outcome,
      ids: seq<nat>, started: EventId)
    requires out.Outcome? && attempts != [] && t in p.dag.tasks
    ensures var c := Conclude(p, s, t, attempts, prior, out, ids, started).core;
            c.results[t].status == Cancelled ==> EndsCancelling(c, t)
  {
    hide Artifacts.Validate, Artifacts.Merge;
  }

  /** A dispatch that gives a task CANCELLED commits just that last. */
  lemma DispatchEvent(p: Plan, e: Env, s: State, t: TaskId)
    requires t in p.dag.tasks
    ensures var d := Dispatch(p, e, s, t);
            !d.aborted && d.state.core.results[t].status == Cancelled ==> EndsCancelling(d.state.core, t)
  {
    hide EndsCancelling, RegisterAll, Conclude, Do;
    var a := s.core.supply;
    var attempts := PriorAttempts(s.core, t) + [a];
    var s1 := Do(p.dag, s, Start(t));
    match e.exec(t, a)
    case EngineError =>
    case Exception =>
    case Outcome(cands, _, _, _, _) =>
      var reg := RegisterAll(p.dag, s1, t, cands, [], 0);
      if !reg.aborted {
        ConcludeEvent(p, reg.state, t, attempts, PriorResult(s.core, t), e.exec(t, a), reg.ids, FreshId(a + 1));
      }
  }

  /** An aborted dispatch leaves its task running. */
  lemma AbortedRunning(p: Plan, e: Env, s: State, t: TaskId)
    requires t in p.dag.tasks && Dispatch(p, e, s, t).aborted
    ensures Dispatch(p, e, s, t).state.core.status == s.core.status[t := Running]
  {
    hide RegisterAll, Conclude;
  }

  lemma NoneCancelled(c: Core, c': Core, t: TaskId, status: Status)
    requires Calm(c) && c'.status == c.status[t := status] && status != Cancelled
    ensures !AnyCancelled(c')
  {
  }

  lemma CalmNotCancelled(c: Core)
    requires Calm(c)
    ensures !AnyCancelled(c)
  {
  }

  lemma SkippedNotCancelled(c: Core, c': Core)
    requires OnlyPendingMoved(c, c', Skipped) && !AnyCancelled(c)
    ensures !AnyCancelled(c')
  {
    forall t
      ensures !Has(c', t, Cancelled)
    {
      assert !Has(c, t, Cancelled);
    }
  }

  lemma FinishNotCancelled(p: Plan, s: State)
    requires !AnyCancelled(s.core)
    ensures !AnyCancelled(Finish(p, s).core)
  {
    T.FinishStatus(p, s);
    hide Finish;
    assert forall t :: Has(Finish(p, s).core, t, Cancelled) == Has(s.core, t, Cancelled);
  }

  /** A failure that is followed by fail-fast skipping cancels nothing. */
  lemma FailedNotCancelled(p: Plan, c0: Core, s: State, f: TaskId)
    requires ValidPlan(p) && Trail(p.dag, c0, s) && Idle(s.core) && SomeDoomed(s.core) && !AnyCancelled(s.core)
    ensures !AnyCancelled(Finish(p, FailFastFrom(p, s, f)).core)
  {
    hide Good, Trail, AnyCancelled, FailFastFrom, Finish, ValidPlan, OnlyPendingMoved;
    FailFastTrail(p, c0, s, f);
    SkippedNotCancelled(s.core, FailFastFrom(p, s, f).core);
    FinishNotCancelled(p, FailFastFrom(p, s, f));
  }

  /** The loop meets a cancelled dispatch exactly when the simulation does, and goes no further. */
  lemma {:induction false} LoopCancels(p: Plan, e: Env, c0: Core, s: State)
    requires ValidPlan(p) && Trail(p.dag, c0, s) && Calm(s.core)
    ensures CancelledAs(Loop(p, e, s, false), CancelsAt(p, e, s.core.status, s.core.supply))
    decreases Pendings(s.core)
  {
    hide Good, Trail, Do, Dispatch, FailFastFrom, BlockedResult, Dispatchable, InputBlocked, ValidPlan, Finish,
        T.FirstReady, AnyCancelled, Verdict, Calm;
    T.ChoicesAgree(p, c0, s);
    match T.FirstReady(p, s.core.status, |p.order|)
    case None =>
      match FirstBlocked(p, s.core, 0) {
        case None =>
          CalmNotCancelled(s.core);
          FinishNotCancelled(p, s);
        case Some(t) =>
          var s1 := Do(p.dag, s, Block(t, BlockedResult(p.dag, t), Reason("required_input_unavailable")));
          BlockTrail(p, c0, s, t);
          NoneCancelled(s.core, s1.core, t, Failed);
          FailedNotCancelled(p, c0, s1, t);
      }
    case Some(t) =>
      RoundCancels(p, e, c0, s, t);
  }

  lemma OnlyCancelled(c: Core, c': Core, t: TaskId)
    requires Calm(c) && c'.status == c.status[t := Cancelled]
    ensures forall u :: Has(c', u, Cancelled) ==> u == t
  {
  }

  lemma {:induction false} RoundCancels(p: Plan, e: Env, c0: Core, s: State, t: TaskId)
    requires ValidPlan(p) && Trail(p.dag, c0, s) && Calm(s.core)
    requires T.FirstReady(p, s.core.status, |p.order|) == Some(t)
    requires ReadyIds(p, s.core, |p.order|) != [] && ReadyIds(p, s.core, |p.order|)[0] == t
    ensures CancelledAs(Loop(p, e, s, false), CancelsAt(p, e, s.core.status, s.core.supply))
    decreases Pendings(s.core), 0
  {
    hide Good, Trail, Do, Dispatch, FailFastFrom, ValidPlan, Finish, T.FirstReady, Verdict, IdsDrawn, Calm,
        Dispatchable, InputBlocked, ReadyIds, FirstBlocked, AnyCancelled, EndsCancelling;
    RoundMemory(p, e, c0, s, t);
    ReadyIs(p, s, t);
    var s1 := Do(p.dag, s, MakeReady(t));
    var d := Dispatch(p, e, s1, t);
    if d.aborted {
      AbortedRunning(p, e, s1, t);
      NoneCancelled(s.core, d.state.core, t, Running);
    } else {
      DispatchEvent(p, e, s1, t);
      var status := d.state.core.results[t].status;
      CalmAfter(s.core, d.state.core, t, status);
      assert t in Pendings(s.core) && Pendings(d.state.core) == Pendings(s.core) - {t};
      if status == Success {
        LoopCancels(p, e, c0, d.state);
      } else if status == Failed {
        NoneCancelled(s.core, d.state.core, t, Failed);
        FailFastTrail(p, c0, d.state, t);
        EmptyReady(p, FailFastFrom(p, d.state, t).core);
        FailedNotCancelled(p, c0, d.state, t);
      } else {
        OnlyCancelled(s.core, d.state.core, t);
      }
    }
  }

  lemma ReadyIs(p: Plan, s: State, t: TaskId)
    ensures Do(p.dag, s, MakeReady(t)).core.status[t := Running] == s.core.status[t := Running]
  {
  }

  // ---- Whole processes ----

  /**
    A first process is left by an exception right after the TASK_CANCELLED of a dispatch of `t` exactly when the
    simulation from all tasks pending meets it; what is stored then is the history cut after that commit.
    If the simulation meets none, the process cancels nothing.
  */
  lemma StartCancels(p: Plan, e: Env, t: TaskId)
    requires ValidPlan(p)
    ensures var r := BeginSession(p, e, false);
            var ch := Begun(p, e, false, |r.state.log|);
            var cancelled := CancelsAt(p, e, Init(p).status, 1);
            && ValidChain(p.dag, ch)
            && (cancelled == None ==> !AnyCancelled(r.state.core))
            && (cancelled == Some(t) <==> r.aborted && EndsCancelling(r.state.core, t))
            && (cancelled == Some(t) ==> Durable(p.dag, ch) == r.state.core)
  {
    hide Good, Trail, BeginSession, Loop, Init, ValidPlan, Calm, Opening, Ended, Durable, EndsCancelling;
    BeginsWithLoop(p, e);
    LoopCancels(p, e, Init(p).(run := RunningRun), Opening(p, Init(p)));
    StoredAtEnd(p, e, false);
    BeginTrail(p, e, false);
    var s := BeginSession(p, e, false).state;
    CancelsMeans(s.core, t);
    NothingLogged(p, s, t);
  }

  lemma CancelsMeans(c: Core, t: TaskId)
    ensures EndsCancelling(c, t) ==> Has(c, t, Cancelled) && AnyCancelled(c)
  {
  }

  lemma NothingLogged(p: Plan, s: State, t: TaskId)
    requires Trail(p.dag, Init(p).(run := RunningRun), s)
    ensures Has(s.core, t, Cancelled) ==> s.log != []
  {
    hide Good;
  }

  /** The same for a resume that nothing bars from starting tasks. */
  lemma ResumeCancels(p: Plan, e: Env, stored: Core, t: TaskId)
    requires ValidPlan(p) && Good(p.dag, stored) && EntryOf(p, e, stored).From?
    ensures var r := ResumeSession(p, e, stored);
            var at := EntryOf(p, e, stored);
            var cancelled := CancelsAt(p, e, at.status, at.supply);
            && (cancelled == None ==> !AnyCancelled(r.state.core))
            && (cancelled == Some(t) <==> r.aborted && EndsCancelling(r.state.core, t))
  {
    hide Good, Trail, ResumeSession, Loop, ValidPlan, Calm, EntryOf, EndsCancelling, Reload;
    var s := ResumeIsLoop(p, e, stored);
    LoopCancels(p, e, Reload(p.dag, e, stored).(run := RunningRun), s);
    CancelsMeans(ResumeSession(p, e, stored).state.core, t);
  }

  /** A task cancelled already when the process began would have barred every start. */
  lemma NoneCancelledAtEntry(p: Plan, e: Env, stored: Core, t: TaskId)
    requires Good(p.dag, stored) && EntryOf(p, e, stored).From?
    ensures !Has(Reload(p.dag, e, stored).(run := RunningRun), t, Cancelled)
  {
    hide Good, Reload;
    ReloadDoomedOne(p.dag, e, stored, t);
  }

  lemma NothingDone(dag: Dag, c: Core, s: State)
    requires Trail(dag, c, s) && s.log == []
    ensures s.core == c
  {
    hide Good;
  }

  /** What is stored after such a resume of any history is that history cut after the TASK_CANCELLED. */
  lemma CancelledResumeIsStored(p: Plan, e: Env, ch: Chain, lost: nat, t: TaskId)
    requires ValidPlan(p) && ValidChain(p.dag, ch) && EntryOf(p, e, Lose(Durable(p.dag, ch), lost)).From?
    ensures var stored := Lose(Durable(p.dag, ch), lost);
            var r := ResumeSession(p, e, stored);
            var at := EntryOf(p, e, stored);
            var ch' := Chain.Resumed(ch, lost, p.order, e, |r.state.log|);
            && ValidChain(p.dag, ch')
            && (CancelsAt(p, e, at.status, at.supply) == Some(t) ==>
                  r.aborted && EndsCancelling(r.state.core, t) && Durable(p.dag, ch') == r.state.core)
  {
    hide Good, Trail, ResumeSession, ValidPlan, ValidChain, Durable, EntryOf, EndsCancelling, Reload, Lose, Ended, Exec,
        CancelsAt;
    ChainGood(p.dag, ch);
    LoseGood(p.dag, Durable(p.dag, ch), lost);
    var stored := Lose(Durable(p.dag, ch), lost);
    var s := ResumeSession(p, e, stored).state;
    ResumeCancels(p, e, stored, t);
    ResumeTrail(p, e, stored);
    CancelsMeans(s.core, t);
    ResumedAt(p, ch, lost, e, |s.log|);
    if s.log == [] {
      NothingDone(p.dag, Reload(p.dag, e, stored).(run := RunningRun), s);
      NoneCancelledAtEntry(p, e, stored, t);
    } else {
      AllOfLog(p.dag, Reload(p.dag, e, stored).(run := RunningRun), s);
    }
  }

  lemma AllOfLog(dag: Dag, c: Core, s: State)
    requires Trail(dag, c, s)
    ensures Exec(dag, c, s.log[..|s.log|]) == s.core
  {
    hide Good;
    assert s.log[..|s.log|] == s.log;
  }

  // ---- The resume after it ----

  lemma CancelledEnd(c: Core, t: TaskId)
    requires Ended(c) && Has(c, t, Cancelled) && forall u :: u in c.status ==> c.status[u] !in {Ready, Running}
    ensures c.run == CancelledRun
  {
  }

  lemma SkipKeeps(st: T.StatusMap, t: TaskId, s: Status)
    requires t in st && st[t] == s && s != Pending && forall u :: u in st ==> st[u] !in {Ready, Running}
    ensures T.SkipAll(st)[t] == s && forall u :: u in st ==> T.SkipAll(st)[u] !in {Ready, Running}
  {
  }

  /**
    With a cancelled attempt on record, no exception ends a resume: it keeps the task cancelled, skips what the
    reload made pending, starts nothing and ends the run CANCELLED. Whether it has a report is decided by the
    successes it rejects.
  */
  lemma CancelledThenResumed(p: Plan, e: Env, stored: Core, t: TaskId)
    requires ValidPlan(p) && Good(p.dag, stored) && t in stored.results && stored.results[t].status == Cancelled
    ensures var r := ResumeSession(p, e, stored);
            && !r.aborted && r.state.core.run == CancelledRun && Has(r.state.core, t, Cancelled)
            && r.state.core.status == T.SkipAll(Reload(p.dag, e, stored).status)
            && r.state.core.results == stored.results && r.state.core.artifacts == stored.artifacts
            && forall u :: Start(u) !in r.state.log
  {
    hide Good, Trail, ResumeSession, ValidPlan, Reload, Ended, EntryOf, T.SkipAll;
    assert EndedBadly(stored.results);
    Survival.BadEndIsFinal(p, e, stored);
    Survival.NothingRuns(p.dag, e, stored);
    CancelledReload(p.dag, e, stored, t);
    var st := Reload(p.dag, e, stored).status;
    ReloadGood(p.dag, e, stored);
    IdleLoaded(Reload(p.dag, e, stored));
    SkipKeeps(st, t, Cancelled);
    ResumeTrail(p, e, stored);
    ResumeStarts(p, e, stored);
    BarredWhen(p, e, stored);
    SameKeys(st);
    CancelledEnd(ResumeSession(p, e, stored).state.core, t);
  }

  lemma IdleLoaded(c: Core)
    requires Loaded(c) && forall u :: !Has(c, u, Running)
    ensures forall u :: u in c.status ==> c.status[u] !in {Ready, Running}
  {
    NoneOpenIsIdle(c);
  }

  lemma SameKeys(st: T.StatusMap)
    ensures T.SkipAll(st).Keys == st.Keys
  {
  }

  lemma CancelledReload(dag: Dag, e: Env, stored: Core, t: TaskId)
    requires Good(dag, stored) && t in stored.results && stored.results[t].status == Cancelled
    ensures Has(Reload(dag, e, stored), t, Cancelled)
  {
    ResultsOf(dag, stored);
    hide Good, Artifacts.Satisfies;
  }
}
