/**
  Histories of one run: a start and any number of resumes, each process stopped after any of its
  commits, with arbitrary executors, reconciliation answers and receipt checks.
*/
module Chains {
  import opened Model
  import opened Artifacts
  import opened Trace
  import opened Machine
  import opened Invariants
  import opened Scheduling
  import opened Sessions
  import opened Runs

  function CreatedEvent(run: RunId, t: TaskId, sequence: nat): Event {
    Event(CreatedId(run, t), TaskCreated, run, sequence, t, None, NoNote, None)
  }

  function CreatedEvents(run: RunId, order: seq<TaskId>, first: nat): (events: seq<Event>)
    ensures |events| == |order|
    ensures forall i :: 0 <= i < |order| ==> events[i] == CreatedEvent(run, order[i], first + i)
  {
    seq(|order|, i requires 0 <= i < |order| => CreatedEvent(run, order[i], first + i))
  }

  /** The snapshot create_run stores. */
  function Init(p: Plan): Core {
    Core(PendingRun, map t | t in p.dag.tasks :: Pending, map[], CreatedEvents(p.dag.runId, p.order, 0), [], |p.order|,
        0, None)
  }

  /** evaluate_resume_tasks followed by apply_resume_reuse, for one task. */
  function ResumedStatus(dag: Dag, e: Env, c: Core, t: TaskId): Status
    requires t in dag.tasks
  {
    if t !in c.results then Pending
    else
      var r := c.results[t];
      match r.status
      case Success => if Satisfies(c.artifacts, dag.runId, dag.tasks[t], r, e.receiptOk) then Success else Pending
      case Running => Running
      case Pending => Pending
      case Ready => Pending
      case s => s
  }

  /** A recorded success that fails the reuse check under `e`. */
  predicate Rejected(dag: Dag, e: Env, stored: Core, t: TaskId) {
    && t in stored.results && t in dag.tasks && stored.results[t].status == Success
    && !Satisfies(stored.artifacts, dag.runId, dag.tasks[t], stored.results[t], e.receiptOk)
  }

  /** A resume accepts every recorded success. */
  ghost predicate NothingRejected(dag: Dag, e: Env, stored: Core) {
    forall t :: !Rejected(dag, e, stored, t)
  }

  /** Memory of a new process that loaded `c`: trace, results and artifacts survive, nothing else does. */
  function Reload(dag: Dag, e: Env, c: Core): Core {
    var next := NextSequence(c.trace);
    var resumed := Event(FreshId(c.supply), RunResumed, dag.runId, next, "", None, NoNote, None);
    Core(c.run, map t | t in dag.tasks :: ResumedStatus(dag, e, c, t), c.results, c.trace, c.artifacts,
      next + 1, c.supply + 1, Some(Mark(|c.trace|, resumed)))
  }

  /** What a crash loses besides memory: ids drawn after the last commit are never handed out again. */
  function Lose(c: Core, lost: nat): Core {
    c.(supply := c.supply + lost)
  }

  datatype Chain =
    | Begun(plan: Plan, env: Env, cancelled: bool, commits: nat)
    | Resumed(prior: Chain, lost: nat, order: seq<TaskId>, env: Env, commits: nat)

  function BeginSession(plan: Plan, env: Env, cancelled: bool): Step {
    Session(plan, env, Init(plan), cancelled)
  }

  function ResumeSession(plan: Plan, env: Env, stored: Core): Step {
    Session(plan, env, Reload(plan.dag, env, stored), false)
  }

  /** The memory in which a resume begins to run. */
  function ProcessMemory(plan: Plan, env: Env, stored: Core): Core {
    Reload(plan.dag, env, stored).(run := RunningRun)
  }

  /** The labels of a resume. */
  function LogOf(plan: Plan, env: Env, stored: Core): seq<Label> {
    ResumeSession(plan, env, stored).state.log
  }

  /** What is stored after the first `k` commits of a process that began in memory `c`. */
  function After(dag: Dag, stored: Core, c: Core, log: seq<Label>, k: nat): Core
    requires k <= |log|
  {
    if k == 0 then stored else Exec(dag, c.(run := RunningRun), log[..k])
  }

  ghost predicate ValidChain(dag: Dag, ch: Chain)
    decreases ch, 0
  {
    match ch
    case Begun(plan, env, cancelled, commits) =>
      plan.dag == dag && ValidPlan(plan) && commits <= |BeginSession(plan, env, cancelled).state.log|
    case Resumed(prior, lost, order, env, commits) =>
      && ValidChain(dag, prior) && ValidPlan(Plan(dag, order))
      && commits <= |ResumeSession(Plan(dag, order), env, Lose(Durable(dag, prior), lost)).state.log|
  }

  /** The stored state after the last crash of the chain. */
  ghost function Durable(dag: Dag, ch: Chain): Core
    requires ValidChain(dag, ch)
    decreases ch, 1
  {
    match ch
    case Begun(plan, env, cancelled, commits) =>
      After(dag, Init(plan), Init(plan), BeginSession(plan, env, cancelled).state.log, commits)
    case Resumed(prior, lost, order, env, commits) =>
      var stored := Lose(Durable(dag, prior), lost);
      After(dag, stored, Reload(dag, env, stored), ResumeSession(Plan(dag, order), env, stored).state.log, commits)
  }

  /**
    Every plan has histories cut off after any number of commits of its session, and every history can be
    resumed and cut off again likewise: the theorems about them are not about nothing.
  */
  lemma HistoriesGoOn(plan: Plan, env: Env, cancelled: bool, ch: Chain, lost: nat, commits: nat)
    requires ValidPlan(plan)
    ensures commits <= |BeginSession(plan, env, cancelled).state.log|
       <==> ValidChain(plan.dag, Begun(plan, env, cancelled, commits))
    ensures ValidChain(plan.dag, ch) ==>
              (commits <= |ResumeSession(plan, env, Lose(Durable(plan.dag, ch), lost)).state.log|
               <==> ValidChain(plan.dag, Resumed(ch, lost, plan.order, env, commits)))
  {
    hide BeginSession, ResumeSession, ValidPlan, After;
    assert Plan(plan.dag, plan.order) == plan;
  }

  // ---- Good states begin and reload ----

  lemma {:induction false} CreatedIsQuiet(events: seq<Event>)
    requires forall i :: 0 <= i < |events| ==> events[i].kind == TaskCreated
    ensures forall t :: StartsOf(events, t) == []
    ensures forall a :: ClosingCount(events, a) == 0
    ensures CountStarts(events) == 0
  {
    if events != [] {
      CreatedIsQuiet(events[..|events| - 1]);
    }
  }

  lemma InitTraced(p: Plan)
    requires ValidPlan(p)
    ensures WellTraced(p.dag, Init(p)) && Supplied(Init(p))
  {
    var c := Init(p);
    forall i | 0 <= i < |c.trace|
      ensures Follows(p.dag.runId, c.trace, i)
    {
    }
    assert Mem(c) == c.trace;
  }

  lemma PlanNames(p: Plan)
    requires ValidPlan(p)
    ensures "" !in p.dag.tasks && (forall t :: t in p.order <==> t in p.dag.tasks)
  {
  }

  lemma InitShape(p: Plan)
    requires ValidPlan(p)
    ensures Shape(p.dag, Init(p)) && Exclusive(Init(p)) && Loaded(Init(p))
  {
    PlanNames(p);
    hide Fits, ValidPlan, CreatedEvents;
  }

  lemma InitRecords(p: Plan)
    requires forall t :: StartsOf(Init(p).trace, t) == []
    requires forall a :: ClosingCount(Init(p).trace, a) == 0
    ensures var c := Init(p);
            && Conserved(p.dag, c) && Separate(c) && StarvedNeverRan(p.dag, c)
            && Ordered(p.dag, c) && FailureKnown(c) && ClosedOnce(c) && Reusable(p.dag, c)
  {
    hide StartsOf, ClosingCount, CompletedBefore;
  }

  lemma InitGood(p: Plan)
    requires ValidPlan(p)
    ensures Good(p.dag, Init(p)) && Loaded(Init(p))
  {
    hide Shape, Exclusive, Supplied, Conserved, Separate, StarvedNeverRan, Ordered, FailureKnown, ClosedOnce,
        WellTraced, Reusable, Loaded, ValidPlan;
    CreatedIsQuiet(Init(p).trace);
    InitTraced(p);
    InitShape(p);
    InitRecords(p);
  }

  lemma ReloadShape(dag: Dag, e: Env, c: Core)
    requires Shape(dag, c)
    ensures Shape(dag, Reload(dag, e, c)) && Loaded(Reload(dag, e, c))
  {
    hide Satisfies;
    var c' := Reload(dag, e, c);
    forall t | t in c'.results
      ensures t in c'.status && Fits(dag, t, c'.results[t], c'.status[t])
    {
      assert Fits(dag, t, c.results[t], c.status[t]);
    }
    forall t | t in c'.status && c'.status[t] in {Running, Success, Failed}
      ensures t in c'.results && c'.results[t].status == c'.status[t]
    {
      assert t in c.results;
    }
    forall t | t in c'.status
      ensures c'.status[t] != Ready
    {
      assert t in c.results ==> Fits(dag, t, c.results[t], c.status[t]);
    }
  }

  lemma ReloadExclusive(dag: Dag, e: Env, c: Core)
    requires Shape(dag, c) && Exclusive(c)
    ensures Exclusive(Reload(dag, e, c))
  {
    hide Satisfies;
    var c' := Reload(dag, e, c);
    forall t, u | t in c'.status && u in c'.status && t != u && c'.status[t] in {Ready, Running}
      ensures c'.status[u] in {Pending, Success}
    {
      assert t in c.results && Fits(dag, t, c.results[t], c.status[t]);
      assert c.results[t].status == Running;
      if u in c.results {
        assert c.results[u].status == Success;
      }
    }
  }

  lemma ReloadTraced(dag: Dag, e: Env, c: Core)
    requires Supplied(c) && WellTraced(dag, c) && ClosedOnce(c)
    ensures var c' := Reload(dag, e, c);
            Supplied(c') && WellTraced(dag, c') && ClosedOnce(c')
  {
    var c' := Reload(dag, e, c);
    assert Mem(c') == c.trace + [c'.mark.value.event];
    ValidTraceAppend(dag.runId, c.trace, c'.mark.value.event);
  }

  lemma ReloadRecords(dag: Dag, e: Env, c: Core)
    requires Conserved(dag, c) && Separate(c) && StarvedNeverRan(dag, c) && Ordered(dag, c) && FailureKnown(c)
    requires Reusable(dag, c)
    ensures var c' := Reload(dag, e, c);
            && Conserved(dag, c') && Separate(c') && StarvedNeverRan(dag, c')
            && Ordered(dag, c') && FailureKnown(c') && Reusable(dag, c')
  {
    hide Satisfies, NextSequence, ResumedStatus, StartsOf, CompletedBefore, Distinct, FailFast;
  }

  /** A reload keeps every invariant. */
  lemma ReloadGood(dag: Dag, e: Env, c: Core)
    requires Good(dag, c)
    ensures Good(dag, Reload(dag, e, c)) && Loaded(Reload(dag, e, c))
  {
    hide Shape, Exclusive, Supplied, Conserved, Separate, StarvedNeverRan, Ordered, FailureKnown, ClosedOnce,
        WellTraced, Reusable, Reload, Loaded;
    ReloadShape(dag, e, c);
    ReloadExclusive(dag, e, c);
    ReloadTraced(dag, e, c);
    ReloadRecords(dag, e, c);
  }

  lemma LoseGood(dag: Dag, c: Core, lost: nat)
    requires Good(dag, c)
    ensures Good(dag, Lose(c, lost))
  {
    hide Shape, Exclusive, Supplied, Conserved, Separate, StarvedNeverRan, Ordered, FailureKnown, ClosedOnce,
        WellTraced, Reusable, Lose;
    LoseRecords(dag, c, lost);
    LoseShape(dag, c, lost);
    LoseSupply(dag, c, lost);
  }

  lemma LoseShape(dag: Dag, c: Core, lost: nat)
    requires Shape(dag, c) && Exclusive(c) && WellTraced(dag, c)
    ensures var c' := Lose(c, lost);
            Shape(dag, c') && Exclusive(c') && WellTraced(dag, c')
  {
    assert Mem(Lose(c, lost)) == Mem(c);
    hide Fits, ValidTrace, Mem;
  }

  lemma LoseSupply(dag: Dag, c: Core, lost: nat)
    requires Supplied(c) && ClosedOnce(c)
    ensures var c' := Lose(c, lost);
            Supplied(c') && ClosedOnce(c')
  {
    hide ClosingCount;
  }

  lemma LoseRecords(dag: Dag, c: Core, lost: nat)
    requires Conserved(dag, c) && Separate(c) && StarvedNeverRan(dag, c) && Ordered(dag, c) && FailureKnown(c)
    requires Reusable(dag, c)
    ensures var c' := Lose(c, lost);
            && Conserved(dag, c') && Separate(c') && StarvedNeverRan(dag, c')
            && Ordered(dag, c') && FailureKnown(c') && Reusable(dag, c')
  {
    hide Satisfies, StartsOf, CompletedBefore, Distinct, FailFast, Starved, OneProofEach;
  }

  lemma BeginTrail(plan: Plan, env: Env, cancelled: bool)
    requires ValidPlan(plan)
    ensures var r := BeginSession(plan, env, cancelled);
            Trail(plan.dag, Init(plan).(run := RunningRun), r.state) && (!r.aborted ==> Ended(r.state.core))
  {
    hide Good, Trail, Session;
    InitGood(plan);
    SessionTrail(plan, env, Init(plan), cancelled);
  }

  lemma ResumeTrail(plan: Plan, env: Env, stored: Core)
    requires ValidPlan(plan) && Good(plan.dag, stored)
    ensures var r := ResumeSession(plan, env, stored);
            Trail(plan.dag, Reload(plan.dag, env, stored).(run := RunningRun), r.state) && (!r.aborted ==>
                  Ended(r.state.core))
  {
    hide Good, Trail, Session, Reload;
    ReloadGood(plan.dag, env, stored);
    SessionTrail(plan, env, Reload(plan.dag, env, stored), false);
  }

  lemma AfterGood(dag: Dag, stored: Core, c: Core, s: State, k: nat)
    requires Good(dag, stored) && Trail(dag, c.(run := RunningRun), s) && k <= |s.log|
    ensures Good(dag, After(dag, stored, c, s.log, k))
  {
    hide Good;
    if k > 0 {
      RunsPrefix(dag, c.(run := RunningRun), s.log, k);
      GoodRuns(dag, c.(run := RunningRun), s.log[..k]);
    }
  }

  /** Every stored state of every history is good. */
  lemma {:induction false} ChainGood(dag: Dag, ch: Chain)
    requires ValidChain(dag, ch)
    ensures Good(dag, Durable(dag, ch))
  {
    hide Good, Trail, BeginSession, ResumeSession, After, Reload, Lose;
    match ch
    case Begun(plan, env, cancelled, commits) =>
      InitGood(plan);
      BeginTrail(plan, env, cancelled);
      AfterGood(dag, Init(plan), Init(plan), BeginSession(plan, env, cancelled).state, commits);
    case Resumed(prior, lost, order, env, commits) =>
      ChainGood(dag, prior);
      LoseGood(dag, Durable(dag, prior), lost);
      var stored := Lose(Durable(dag, prior), lost);
      ResumeTrail(Plan(dag, order), env, stored);
      AfterGood(dag, stored, Reload(dag, env, stored), ResumeSession(Plan(dag, order), env, stored).state, commits);
  }

  /** A first process stopped after its last commit leaves what it had in memory. */
  lemma StoredAtEnd(p: Plan, e: Env, cancelled: bool)
    requires ValidPlan(p)
    ensures var s := BeginSession(p, e, cancelled).state;
            var ch := Begun(p, e, cancelled, |s.log|);
            ValidChain(p.dag, ch) && (s.log != [] ==> Durable(p.dag, ch) == s.core)
  {
    hide Good, BeginSession, ValidPlan, Init, Ended;
    BeginTrail(p, e, cancelled);
    var s := BeginSession(p, e, cancelled).state;
    assert s.log[..|s.log|] == s.log;
  }

  /** A resume stopped after `k` commits leaves what those make of the state it loaded. */
  lemma ResumedAt(p: Plan, ch: Chain, lost: nat, e: Env, k: nat)
    requires ValidChain(p.dag, ch) && ValidPlan(p)
    requires k <= |ResumeSession(p, e, Lose(Durable(p.dag, ch), lost)).state.log|
    ensures var stored := Lose(Durable(p.dag, ch), lost);
            var log, ch' := ResumeSession(p, e, stored).state.log, Resumed(ch, lost, p.order, e, k);
            ValidChain(p.dag, ch') && Durable(p.dag, ch') == After(p.dag, stored, Reload(p.dag, e, stored), log, k)
  {
    assert Plan(p.dag, p.order) == p;
    hide ResumeSession, After, ValidPlan, Reload;
  }

  lemma InitCalm(p: Plan, c: Core)
    requires c.status == Init(p).status
    ensures Calm(c) && !AnyDoomed(c) && forall t :: !Has(c, t, Running)
  {
  }

  lemma OpeningInit(p: Plan)
    ensures var s := Opening(p, Init(p));
            s.log == [RunStart] && s.core.supply == 1 && s.core.status == Init(p).status && s.core.results == map[]
  {
  }

  /** A first process that is not cancelled goes straight to its loop. */
  lemma BeginsWithLoop(p: Plan, e: Env)
    requires ValidPlan(p)
    ensures var s := Opening(p, Init(p));
            && Trail(p.dag, Init(p).(run := RunningRun), s) && Calm(s.core) && s.core.status == Init(p).status
            && s.core.results == map[] && s.core.supply == 1 && s.log == [RunStart]
            && BeginSession(p, e, false) == Loop(p, e, s, false)
  {
    hide Good, Trail, Opening, Loop, IndeterminateIds, ValidPlan, SkipRemaining, Calm, Init, AnyDoomed;
    InitGood(p);
    OpeningTrail(p, Init(p));
    OpeningInit(p);
    var s := Opening(p, Init(p));
    InitCalm(p, s.core);
    IndeterminateTrail(p, Init(p).(run := RunningRun), s);
    ReconcileUnfold(p, e, s, []);
  }
}
