/** Where a run ends does not depend on the order in which its processes scan the tasks. */
module Outcomes {
  import opened Model
  import opened Machine
  import opened Invariants
  import opened Scheduling
  import opened Sessions
  import opened Runs
  import opened Chains
  import opened Transparency

  /** Every task can be fed and comes to success. */
  predicate AllSucceed(dag: Dag, verdict: TaskId -> Status) {
    forall t :: t in dag.tasks ==> !Starved(dag.tasks[t]) && verdict(t) == Success
  }

  /** Statuses no verdict contradicts. */
  ghost predicate Just(dag: Dag, verdict: TaskId -> Status, st: StatusMap) {
    && st.Keys == dag.tasks.Keys
    && (forall t :: t in st ==> st[t] !in {Ready, Cancelled})
    && (forall t :: t in st && st[t] == Success ==> verdict(t) == Success)
    && (forall t :: t in st && st[t] == Failed ==> Starved(dag.tasks[t]) || verdict(t) != Success)
    && ((exists t :: t in st && st[t] == Skipped) ==> exists t :: t in st && st[t] == Failed)
  }

  lemma JustSkipped(dag: Dag, verdict: TaskId -> Status, st: StatusMap, t: TaskId)
    requires Just(dag, verdict, st) && t in st && st[t] == Failed
    ensures Just(dag, verdict, SkipAll(st))
  {
    assert SkipAll(st)[t] == Failed;
    hide Starved;
  }

  lemma JustMore(dag: Dag, verdict: TaskId -> Status, st: StatusMap, t: TaskId, s: Status)
    requires Just(dag, verdict, st) && t in st && st[t] == Pending && s in {Success, Failed}
    requires if s == Success then verdict(t) == Success else Starved(dag.tasks[t]) || verdict(t) != Success
    ensures Just(dag, verdict, st[t := s])
  {
    hide Starved;
    if f :| f in st && st[f] == Failed {
      assert st[t := s][f] == Failed;
    }
  }

  lemma {:induction false} JustFuture(p: Plan, verdict: TaskId -> Status, st: StatusMap)
    requires Just(p.dag, verdict, st)
    ensures Just(p.dag, verdict, Future(p, verdict, st))
    decreases PendingIn(st)
  {
    hide FirstReady, FirstStarved, Just, SkipAll, Starved;
    match FirstReady(p, st, |p.order|)
    case None =>
      match FirstStarved(p, st, 0) {
        case None =>
        case Some(t) =>
          JustMore(p.dag, verdict, st, t, Failed);
          JustSkipped(p.dag, verdict, st[t := Failed], t);
      }
    case Some(t) =>
      assert t in PendingIn(st) && PendingIn(st[t := Success]) == PendingIn(st) - {t};
      if verdict(t) == Success {
        JustMore(p.dag, verdict, st, t, Success);
        JustFuture(p, verdict, st[t := Success]);
      } else {
        JustMore(p.dag, verdict, st, t, Failed);
        JustSkipped(p.dag, verdict, st[t := Failed], t);
      }
  }

  lemma JustPresumed(dag: Dag, verdict: TaskId -> Status, st: StatusMap)
    requires Just(dag, verdict, st) && forall t :: t in dag.tasks ==> verdict(t) in {Success, Failed}
    ensures Just(dag, verdict, Presumed(verdict, st))
  {
    hide Starved;
    if f :| f in st && st[f] == Failed {
      assert Presumed(verdict, st)[f] == Failed;
    }
  }

  lemma JustCourse(p: Plan, verdict: TaskId -> Status, st: StatusMap)
    requires Just(p.dag, verdict, st) && forall t :: t in p.dag.tasks ==> verdict(t) in {Success, Failed}
    ensures Just(p.dag, verdict, Course(p, verdict, st))
  {
    hide Just, Future, SkipAll;
    JustPresumed(p.dag, verdict, st);
    var settled := Presumed(verdict, st);
    if t :| t in settled && settled[t] == Failed {
      JustSkipped(p.dag, verdict, settled, t);
    } else {
      JustFuture(p, verdict, settled);
    }
  }

  /** A course keeps what has succeeded or failed. */
  lemma CourseKeeps(p: Plan, verdict: TaskId -> Status, st: StatusMap, t: TaskId)
    requires t in st && st[t] in {Success, Failed}
    ensures t in Course(p, verdict, st) && Course(p, verdict, st)[t] == st[t]
  {
    hide Future;
    FutureKeeps(p, verdict, Presumed(verdict, st), t);
  }

  // ---- Along a history ----

  ghost predicate JustStored(dag: Dag, verdict: TaskId -> Status, c: Core) {
    Just(dag, verdict, ResultStatus(dag, c.results))
  }

  lemma JustFrom(dag: Dag, verdict: TaskId -> Status, st: StatusMap, goal: StatusMap)
    requires Just(dag, verdict, goal) && st.Keys == dag.tasks.Keys
    requires forall t :: t in st ==> st[t] in {Pending, Success, Running, Failed}
    requires forall t :: t in st && st[t] in {Success, Failed} ==> goal[t] == st[t]
    ensures Just(dag, verdict, st)
  {
    hide Starved;
  }

  lemma StoredKinds(dag: Dag, c: Core)
    requires Good(dag, c) && !AnyWith(c.results, Cancelled)
    ensures var st := ResultStatus(dag, c.results);
            st.Keys == dag.tasks.Keys && forall t :: t in st ==> st[t] in {Pending, Success, Running, Failed}
  {
    ResultKinds(dag, c);
    hide Good;
  }

  lemma OnJustCourse(p: Plan, verdict: TaskId -> Status, goal: StatusMap, c: Core)
    requires OnCourse(p, verdict, goal, c) && Just(p.dag, verdict, goal) && Good(p.dag, c)
    ensures JustStored(p.dag, verdict, c)
  {
    StoredKinds(p.dag, c);
    hide Good, Course, Just, ResultStatus;
    var st := ResultStatus(p.dag, c.results);
    forall t | t in st && st[t] in {Success, Failed}
      ensures t in goal && goal[t] == st[t]
    {
      CourseKeeps(p, verdict, st, t);
    }
    JustKeys(p.dag, verdict, goal);
    JustFrom(p.dag, verdict, st, goal);
  }

  lemma JustKeys(dag: Dag, verdict: TaskId -> Status, st: StatusMap)
    requires Just(dag, verdict, st)
    ensures st.Keys == dag.tasks.Keys
  {
  }

  lemma JustNotCancelled(dag: Dag, verdict: TaskId -> Status, c: Core)
    requires Good(dag, c) && JustStored(dag, verdict, c)
    ensures !AnyWith(c.results, Cancelled)
  {
    ResultKinds(dag, c);
    hide Good, Starved;
    forall t | t in c.results
      ensures c.results[t].status != Cancelled
    {
      assert ResultStatus(dag, c.results)[t] == c.results[t].status;
    }
  }

  lemma FaithfulVerdicts(dag: Dag, e: Env, verdict: TaskId -> Status)
    requires Faithful(dag, e, verdict)
    ensures forall t :: t in dag.tasks ==> verdict(t) in {Success, Failed}
  {
    forall t | t in dag.tasks
      ensures verdict(t) in {Success, Failed}
    {
      FaithfulVerdict(dag, e, verdict, t);
    }
  }

  lemma JustGoal(p: Plan, verdict: TaskId -> Status)
    ensures Just(p.dag, verdict, Goal(p, verdict))
  {
    hide Future;
    JustFuture(p, verdict, Init(p).status);
  }

  /** Where a resume goes that takes what it finds at its word. */
  function CourseOf(p: Plan, verdict: TaskId -> Status, stored: Core): StatusMap {
    Course(p, verdict, ResultStatus(p.dag, stored.results))
  }

  lemma StoredOnCourse(p: Plan, verdict: TaskId -> Status, e: Env, stored: Core)
    requires Good(p.dag, stored) && JustStored(p.dag, verdict, stored) && Faithful(p.dag, e, verdict)
    ensures OnCourse(p, verdict, CourseOf(p, verdict, stored), stored)
    ensures Just(p.dag, verdict, CourseOf(p, verdict, stored))
  {
    FaithfulVerdicts(p.dag, e, verdict);
    JustCourse(p, verdict, ResultStatus(p.dag, stored.results));
    JustNotCancelled(p.dag, verdict, stored);
    hide Good, Course, Faithful, Just;
  }

  lemma {:induction false} ChainIsJust(dag: Dag, verdict: TaskId -> Status, ch: Chain)
    requires ValidChain(dag, ch) && SteadyChain(dag, verdict, ch)
    ensures JustStored(dag, verdict, Durable(dag, ch))
    decreases ch
  {
    hide Good, OnCourse, AllOnCourse, BeginSession, ResumeSession, After, Reload, Lose, Faithful, Goal, ValidPlan,
        Recovers, Just, JustStored, CourseOf;
    ChainGood(dag, ch);
    match ch
    case Begun(p, env, cancelled, commits) =>
      BeginOnCourse(p, verdict, env);
      AfterOnCourse(p, verdict, Goal(p, verdict), Init(p), Init(p), BeginSession(p, env, false).state, commits);
      JustGoal(p, verdict);
      OnJustCourse(p, verdict, Goal(p, verdict), Durable(dag, ch));
    case Resumed(prior, lost, order, env, commits) =>
      var p, stored := Plan(dag, order), Lose(Durable(dag, prior), lost);
      ChainIsJust(dag, verdict, prior);
      ChainGood(dag, prior);
      LoseGood(dag, Durable(dag, prior), lost);
      LoseJust(dag, verdict, Durable(dag, prior), lost);
      var goal := CourseOf(p, verdict, stored);
      StoredOnCourse(p, verdict, env, stored);
      ResumeOnCourse(p, verdict, goal, env, stored);
      AfterOnCourse(p, verdict, goal, stored, Reload(dag, env, stored), ResumeSession(p, env, stored).state, commits);
      OnJustCourse(p, verdict, goal, Durable(dag, ch));
  }

  lemma LoseJust(dag: Dag, verdict: TaskId -> Status, c: Core, lost: nat)
    requires JustStored(dag, verdict, c)
    ensures JustStored(dag, verdict, Lose(c, lost))
  {
    hide Just;
  }

  // ---- The outcome ----

  lemma CourseSettles(p: Plan, verdict: TaskId -> Status, st: StatusMap)
    requires forall t :: t in st ==> st[t] in {Pending, Success, Running, Failed}
    requires forall t :: t in st ==> verdict(t) in {Success, Failed}
    ensures forall t :: t in Course(p, verdict, st) ==> Course(p, verdict, st)[t] !in {Ready, Running}
  {
    hide Future;
    var settled := Presumed(verdict, st);
    if !exists t :: t in settled && settled[t] == Failed {
      forall t | t in Future(p, verdict, settled)
        ensures Future(p, verdict, settled)[t] !in {Ready, Running}
      {
        FutureHasNoActive(p, verdict, settled, t);
      }
    }
  }

  lemma NeverStarved(dag: Dag, c: Core, t: TaskId)
    requires Good(dag, c) && Has(c, t, Success)
    ensures t in dag.tasks && !Starved(dag.tasks[t])
  {
    hide Exclusive, Supplied, Conserved, Separate, Ordered, FailureKnown, ClosedOnce, WellTraced, Reusable;
  }

  /** Just final statuses decide the run status. */
  lemma JustEnd(p: Plan, verdict: TaskId -> Status, c: Core)
    requires ValidPlan(p) && Good(p.dag, c) && Ended(c) && Just(p.dag, verdict, c.status)
    requires forall t :: t in c.status ==> c.status[t] !in {Ready, Running}
    ensures c.run == if AllSucceed(p.dag, verdict) then SuccessRun else FailedRun
  {
    forall t | Has(c, t, Success)
      ensures !Starved(p.dag.tasks[t])
    {
      NeverStarved(p.dag, c, t);
    }
    assert p.order[0] in p.dag.tasks;
    hide Good, Starved, ValidPlan;
    JustRun(p.dag, verdict, c);
  }

  lemma JustRun(dag: Dag, verdict: TaskId -> Status, c: Core)
    requires Ended(c) && Just(dag, verdict, c.status) && c.status != map[]
    requires forall t :: t in c.status ==> c.status[t] !in {Ready, Running}
    requires forall t :: Has(c, t, Success) ==> !Starved(dag.tasks[t])
    ensures c.run == if AllSucceed(dag, verdict) then SuccessRun else FailedRun
  {
    hide Starved;
    forall t | t in c.status && c.status[t] == Success
      ensures !Starved(dag.tasks[t]) && verdict(t) == Success
    {
      assert Has(c, t, Success);
    }
  }

  /**
    Whatever orders the processes of a run scan its tasks in, as long as they agree on verdicts and take what they
    find at its word: the run ends SUCCESS exactly when every task can be fed and comes to success, else FAILED.
  */
  lemma OutcomeInAnyOrder(
    dag: Dag, verdict: TaskId -> Status, ch: Chain, lost: nat, order: seq<TaskId>, e: Env)
    requires ValidChain(dag, ch) && SteadyChain(dag, verdict, ch) && ValidPlan(Plan(dag, order))
    requires Faithful(dag, e, verdict) && Recovers(Plan(dag, order), verdict, e, Lose(Durable(dag, ch), lost))
    ensures var r := ResumeSession(Plan(dag, order), e, Lose(Durable(dag, ch), lost));
            !r.aborted && r.state.core.run == if AllSucceed(dag, verdict) then SuccessRun else FailedRun
  {
    hide Good, Trail, OnCourse, AllOnCourse, ResumeSession, Reload, Lose, Faithful, ValidPlan, Recovers, Just,
        JustStored, Durable, AllSucceed, Ended, Course;
    var p, stored := Plan(dag, order), Lose(Durable(dag, ch), lost);
    ChainIsJust(dag, verdict, ch);
    ChainGood(dag, ch);
    LoseGood(dag, Durable(dag, ch), lost);
    LoseJust(dag, verdict, Durable(dag, ch), lost);
    StoredOnCourse(p, verdict, e, stored);
    ResumeOnCourse(p, verdict, CourseOf(p, verdict, stored), e, stored);
    ResumeTrail(p, e, stored);
    var s := ResumeSession(p, e, stored).state;
    TrailGood(dag, Reload(dag, e, stored).(run := RunningRun), s);
    FaithfulVerdicts(dag, e, verdict);
    JustNotCancelled(dag, verdict, stored);
    StoredKinds(dag, stored);
    CourseSettles(p, verdict, ResultStatus(dag, stored.results));
    JustEnd(p, verdict, s.core);
  }

  /** A run that was never interrupted ends the same. */
  lemma OutcomeOfStart(p: Plan, verdict: TaskId -> Status, e: Env)
    requires ValidPlan(p) && Faithful(p.dag, e, verdict)
    ensures var r := BeginSession(p, e, false);
            !r.aborted && r.state.core.run == if AllSucceed(p.dag, verdict) then SuccessRun else FailedRun
  {
    hide Good, Trail, OnCourse, AllOnCourse, BeginSession, Faithful, ValidPlan, Just, AllSucceed, Ended, Course, Future;
    BeginOnCourse(p, verdict, e);
    BeginTrail(p, e, false);
    var s := BeginSession(p, e, false).state;
    TrailGood(p.dag, Init(p).(run := RunningRun), s);
    JustGoal(p, verdict);
    forall t | t in s.core.status
      ensures s.core.status[t] !in {Ready, Running}
    {
      FutureHasNoActive(p, verdict, Init(p).status, t);
    }
    JustEnd(p, verdict, s.core);
  }
}
