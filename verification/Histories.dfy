/** Theorems about every history of starts, crashes and resumes. */
module Histories {
  import opened Model
  import opened Artifacts
  import opened Trace
  import opened Machine
  import opened Invariants
  import opened Scheduling
  import opened Sessions
  import opened Runs
  import opened Chains
  import Transitions

  // ---- Attempts ----

  function TotalAttempts(order: seq<TaskId>, c: Core): nat {
    if order == [] then 0 else TotalAttempts(order[..|order| - 1], c) + |PriorAttempts(c, order[|order| - 1])|
  }

  function TotalStarts(order: seq<TaskId>, events: seq<Event>): nat {
    if order == [] then 0 else TotalStarts(order[..|order| - 1], events) + |StartsOf(events, order[|order| - 1])|
  }

  lemma {:induction false} TotalsAgree(order: seq<TaskId>, dag: Dag, c: Core)
    requires Conserved(dag, c) && forall t :: t in order ==> t in dag.tasks
    ensures TotalAttempts(order, c) == TotalStarts(order, c.trace)
  {
    if order != [] {
      TotalsAgree(order[..|order| - 1], dag, c);
    }
  }

  lemma {:induction false} StartAddsOne(order: seq<TaskId>, events: seq<Event>, e: Event)
    requires Distinct(order)
    ensures TotalStarts(order, events + [e])
         == TotalStarts(order, events) + if e.kind == TaskStarted && e.attempt.Some? && e.task in order then 1 else 0
  {
    if order != [] {
      var front := order[..|order| - 1];
      StartAddsOne(front, events, e);
      AppendReads(events, e);
      assert order == front + [order[|order| - 1]];
    }
  }

  lemma {:induction false} StartsCounted(order: seq<TaskId>, events: seq<Event>)
    requires Distinct(order)
    requires forall i :: 0 <= i < |events| && events[i].kind == TaskStarted ==>
          events[i].task in order && events[i].attempt.Some?
    ensures TotalStarts(order, events) == CountStarts(events)
  {
    if events == [] {
      NoStarts0(order);
    } else {
      var front := events[..|events| - 1];
      var last := events[|events| - 1];
      forall i | 0 <= i < |front| && front[i].kind == TaskStarted
        ensures front[i].task in order && front[i].attempt.Some?
      {
        assert events[i] == front[i];
      }
      StartsCounted(order, front);
      StartAddsOne(order, front, last);
      assert events == front + [last];
    }
  }

  lemma {:induction false} NoStarts0(order: seq<TaskId>)
    ensures TotalStarts(order, []) == 0
  {
    if order != [] {
      NoStarts0(order[..|order| - 1]);
    }
  }

  /**
    In every stored state the attempts of each result are, in order, the attempts the trace started,
    so the attempt total of the results is the number of starts.
  */
  lemma AttemptsConserved(dag: Dag, ch: Chain, order: seq<TaskId>)
    requires ValidChain(dag, ch) && ValidPlan(Plan(dag, order))
    ensures var c := Durable(dag, ch);
            && (forall t :: t in dag.tasks ==> PriorAttempts(c, t) == StartsOf(c.trace, t))
            && TotalAttempts(order, c) == CountStarts(c.trace)
  {
    ChainGood(dag, ch);
    hide Good, Durable, ValidChain, ValidPlan, StartsOf, TotalAttempts, CountStarts;
    GoodTotals(Plan(dag, order), Durable(dag, ch));
  }

  lemma TracedStarts(dag: Dag, c: Core)
    requires Good(dag, c)
    ensures Conserved(dag, c)
    ensures forall i :: 0 <= i < |c.trace| && c.trace[i].kind == TaskStarted ==>
              c.trace[i].task in dag.tasks && c.trace[i].attempt.Some?
  {
    hide Shape, Exclusive, Supplied, Conserved, Separate, StarvedNeverRan, FailureKnown, ClosedOnce, WellTraced,
        Reusable, CompletedBefore;
  }

  lemma GoodTotals(p: Plan, c: Core)
    requires ValidPlan(p) && Good(p.dag, c)
    ensures forall t :: t in p.dag.tasks ==> PriorAttempts(c, t) == StartsOf(c.trace, t)
    ensures TotalAttempts(p.order, c) == CountStarts(c.trace)
  {
    TracedStarts(p.dag, c);
    hide Good, StartsOf, TotalAttempts, CountStarts, TotalStarts, ValidDag, StaticInputs, DistinctOutputs;
    TotalsAgree(p.order, p.dag, c);
    StartsCounted(p.order, c.trace);
  }

  lemma ClosedOnceIn(c: Core, t: TaskId, i: nat)
    requires ClosedOnce(c) && Separate(c) && t in c.results && i < |c.results[t].attempts|
    ensures var a := c.results[t].attempts[i];
            && (ClosingCount(c.trace, a) == 0 <==> c.results[t].status == Running && i == |c.results[t].attempts| - 1)
            && ClosingCount(c.trace, a) <= 1
            && forall u, j :: u in c.results && 0 <= j < |c.results[u].attempts| && c.results[u].attempts[j] == a ==>
                  u == t && j == i
  {
    hide ClosingCount;
    var a := c.results[t].attempts[i];
    forall u, j | u in c.results && 0 <= j < |c.results[u].attempts| && c.results[u].attempts[j] == a
      ensures u == t && j == i
    {
      assert a in c.results[u].attempts && a in c.results[t].attempts;
      assert Distinct(c.results[t].attempts);
    }
  }

  /** No attempt is ever shared, and each is closed exactly once unless it is the one still open. */
  lemma AttemptsClosedOnce(dag: Dag, ch: Chain, t: TaskId, i: nat)
    requires ValidChain(dag, ch)
    requires t in Durable(dag, ch).results && i < |Durable(dag, ch).results[t].attempts|
    ensures var c := Durable(dag, ch);
            var a := c.results[t].attempts[i];
            && (ClosingCount(c.trace, a) == 0 <==> c.results[t].status == Running && i == |c.results[t].attempts| - 1)
            && ClosingCount(c.trace, a) <= 1
            && (forall u, j :: u in c.results && 0 <= j < |c.results[u].attempts| && c.results[u].attempts[j] == a ==>
                  u == t && j == i)
  {
    ChainGood(dag, ch);
    hide ValidChain, Durable, Shape, Exclusive, Supplied, Conserved, StarvedNeverRan, Ordered, FailureKnown,
        WellTraced, Reusable;
    ClosedOnceIn(Durable(dag, ch), t, i);
  }

  // ---- Order ----

  /** Every start in the stored trace comes after the completion of each of its dependencies. */
  lemma DependenciesComeFirst(dag: Dag, ch: Chain, j: nat, d: TaskId)
    requires ValidChain(dag, ch) && j < |Durable(dag, ch).trace| && Durable(dag, ch).trace[j].kind == TaskStarted
    ensures var trace := Durable(dag, ch).trace;
            trace[j].task in dag.tasks && (d in dag.tasks[trace[j].task].deps ==> CompletedBefore(trace, j, d))
  {
    ChainGood(dag, ch);
  }

  /** The stored trace, and the one in memory with this process's RUN_RESUMED, both pass validation. */
  lemma TracesAreValid(dag: Dag, ch: Chain)
    requires ValidChain(dag, ch)
    ensures var c := Durable(dag, ch);
            ValidTrace(dag.runId, c.trace) && ValidTrace(dag.runId, Mem(c))
  {
    ChainGood(dag, ch);
  }

  // ---- Failure ----

  ghost predicate NoStarts(log: seq<Label>) {
    forall i :: 0 <= i < |log| ==> !log[i].Start?
  }

  lemma {:induction false} SkipRemainingQuiet(p: Plan, s: State, reason: string, i: nat)
    requires i <= |p.order| && NoStarts(s.log)
    ensures NoStarts(SkipRemaining(p, s, reason, i).log)
    decreases |p.order| - i
  {
    if i < |p.order| {
      var t := p.order[i];
      var s' := if Has(s.core, t, Pending) then Do(p.dag, s, Skip(t, Reason(reason))) else s;
      SkipRemainingQuiet(p, s', reason, i + 1);
    }
  }

  ghost predicate FailedOnly(c: Core) {
    && (exists t :: t in c.status && c.status[t] == Failed)
    && forall t :: t in c.status ==> c.status[t] !in {Ready, Running, Cancelled}
  }

  lemma FailedReload(dag: Dag, e: Env, c: Core)
    requires Good(dag, c) && HasFailed(c)
    ensures FailedOnly(Reload(dag, e, c))
  {
    hide Good, Reload, ResumedStatus, Exclusive;
    ReloadGood(dag, e, c);
    ReloadKeeps(dag, e, c);
    var c' := Reload(dag, e, c);
    ShapeOf(dag, c');
    var t :| t in c.results && c.results[t].status == Failed;
    assert c'.status[t] == Failed;
    forall u | u in c'.status
      ensures c'.status[u] !in {Ready, Running, Cancelled}
    {
      ReloadCancelled(dag, e, c, u);
    }
  }

  lemma ReloadKeeps(dag: Dag, e: Env, c: Core)
    ensures var c' := Reload(dag, e, c);
            c'.results == c.results && c'.trace == c.trace && c'.artifacts == c.artifacts && c'.run == c.run
  {
  }

  lemma ReloadCancelled(dag: Dag, e: Env, c: Core, u: TaskId)
    requires u in dag.tasks
    ensures Reload(dag, e, c).status[u] == Cancelled ==> u in c.results && c.results[u].status == Cancelled
  {
  }

  lemma FailedTerminal(status: map<TaskId, Status>, t: TaskId)
    requires t in status && status[t] == Failed
    requires forall u :: u in status ==> status[u] !in {Running, Cancelled}
    ensures TerminalRunStatus(status) == FailedRun
  {
  }

  lemma FailedFinish(p: Plan, e: Env, c0: Core, s: State, t: TaskId)
    requires ValidPlan(p) && Trail(p.dag, c0, s) && NoStarts(s.log) && NonePending(s.core)
    requires Has(s.core, t, Failed)
    requires forall u :: u in s.core.status ==> s.core.status[u] !in {Ready, Running, Cancelled}
    ensures var r := Loop(p, e, s, false);
            && !r.aborted && NoStarts(r.state.log)
            && r.state.core.run == FailedRun && r.state.core.results == s.core.results
  {
    EmptyReady(p, s.core);
    hide Good, Trail, Finish, TerminalRunStatus, Settled, ReadyIds, FirstBlocked;
    FinishTrail(p, c0, s);
    assert Loop(p, e, s, false) == Step(Finish(p, s), false);
    FailedTerminal(s.core.status, t);
    FinishLog(p, s);
    SettledRun(Finish(p, s).core);
  }

  lemma SettledRun(c: Core)
    requires Settled(c)
    ensures c.run == TerminalRunStatus(c.status)
  {
  }

  lemma FinishLog(p: Plan, s: State)
    ensures Finish(p, s).log == s.log + [EndRun(FinalStatus(s.core), NoNote)]
  {
  }

  lemma QuietEnd(p: Plan, e: Env, c0: Core, s: State)
    requires ValidPlan(p) && Trail(p.dag, c0, s) && FailedOnly(s.core) && NoStarts(s.log)
    ensures var s1 := SkipRemaining(p, s, "prior_terminal_state", 0);
            var r := Loop(p, e, s1, false);
            && !r.aborted && NoStarts(r.state.log)
            && r.state.core.run == FailedRun && r.state.core.results == s.core.results
  {
    hide Good, Trail, Loop, SkipRemaining, ValidPlan, NoStarts;
    var t :| t in s.core.status && s.core.status[t] == Failed;
    assert Doomed(s.core.status[t]);
    SkipRemainingTrail(p, c0, s, "prior_terminal_state", 0);
    SkipRemainingQuiet(p, s, "prior_terminal_state", 0);
    var s1 := SkipRemaining(p, s, "prior_terminal_state", 0);
    TrailDomain(p.dag, c0, s1);
    AllInOrder(p, s1.core);
    FailedFinish(p, e, c0, s1, t);
  }

  /**
    Once a failure is stored, resuming the run calls no executor, changes no result, and ends FAILED,
    whatever the collaborators answer.
  */
  lemma FailureIsPermanent(plan: Plan, e: Env, stored: Core)
    requires ValidPlan(plan) && Good(plan.dag, stored) && HasFailed(stored)
    ensures var r := ResumeSession(plan, e, stored);
            && !r.aborted && NoStarts(r.state.log)
            && r.state.core.run == FailedRun && r.state.core.results == stored.results
  {
    hide Good, Trail, Reload, Opening, Loop, SkipRemaining;
    ReloadGood(plan.dag, e, stored);
    ReloadKeeps(plan.dag, e, stored);
    FailedReload(plan.dag, e, stored);
    var c := Reload(plan.dag, e, stored);
    OpeningTrail(plan, c);
    var s := Opening(plan, c);
    NothingIndeterminate(plan, c.(run := RunningRun), s);
    QuietEnd(plan, e, c.(run := RunningRun), s);
  }

  lemma NothingIndeterminate(p: Plan, c0: Core, s: State)
    requires ValidPlan(p) && Trail(p.dag, c0, s) && FailedOnly(s.core)
    ensures IndeterminateIds(p, s.core, |p.order|) == [] && AnyDoomed(s.core)
  {
    hide Good, Trail, ValidPlan, IndeterminateIds;
    IndeterminateTrail(p, c0, s);
    var t :| t in s.core.status && s.core.status[t] == Failed;
    assert Doomed(s.core.status[t]);
  }

  /** A failure anywhere in the stored trace means no later start in it, and only quiet failing resumes after it. */
  lemma FailFastForever(dag: Dag, ch: Chain, lost: nat, i: nat, order: seq<TaskId>, e: Env)
    requires ValidChain(dag, ch) && ValidPlan(Plan(dag, order))
    requires i < |Durable(dag, ch).trace| && Fatal(Durable(dag, ch).trace[i].kind)
    ensures forall j :: i < j < |Durable(dag, ch).trace| ==> Durable(dag, ch).trace[j].kind != TaskStarted
    ensures var r := ResumeSession(Plan(dag, order), e, Lose(Durable(dag, ch), lost));
            !r.aborted && NoStarts(r.state.log) && r.state.core.run == FailedRun
  {
    ChainGood(dag, ch);
    LoseGood(dag, Durable(dag, ch), lost);
    assert HasFailed(Durable(dag, ch));
    assert HasFailed(Lose(Durable(dag, ch), lost));
    hide Good, ResumeSession, Durable;
    FailureIsPermanent(Plan(dag, order), e, Lose(Durable(dag, ch), lost));
  }

  // ---- Indeterminate work ----

  /** At most one attempt is open in any stored state. */
  lemma AtMostOneOpen(dag: Dag, ch: Chain, t: TaskId, u: TaskId)
    requires ValidChain(dag, ch)
    requires t in Durable(dag, ch).status && u in Durable(dag, ch).status
    requires Durable(dag, ch).status[t] == Running && Durable(dag, ch).status[u] == Running
    ensures t == u
  {
    ChainGood(dag, ch);
  }

  /** The run status that an attempt nobody could settle leaves. */
  function StoppedRun(reported: ReconciliationState): RunStatus {
    if reported == StillRunning then InterruptedRun else ReconciliationRequired
  }

  /**
    A resume whose open attempt is still running, lost or unknown calls no executor, commits at most
    RUN_STARTED and RUN_INTERRUPTED, and leaves every result and status of the open attempt alone.
  */
  lemma OpenAttemptIsNotRaced(plan: Plan, e: Env, stored: Core, t: TaskId)
    requires ValidPlan(plan) && Good(plan.dag, stored)
    requires t in stored.results && stored.results[t].status == Running && stored.results[t].attempts != []
    requires e.reconcile(t, Last(stored.results[t].attempts)) in {StillRunning, Lost, Unknown}
    ensures var r := ResumeSession(plan, e, stored);
            && !r.aborted && NoStarts(r.state.log) && |r.state.log| <= 2
            && r.state.core.results == stored.results && r.state.core.artifacts == stored.artifacts
            && Has(r.state.core, t, Running)
            && r.state.core.run == StoppedRun(e.reconcile(t, Last(stored.results[t].attempts)))
  {
    hide Good, Trail, Reload, Opening, Loop, SkipRemaining;
    hide IndeterminateIds, Reconcile, ValidPlan;
    ReloadGood(plan.dag, e, stored);
    ReloadKeeps(plan.dag, e, stored);
    var c := Reload(plan.dag, e, stored);
    OpenStaysOpen(plan.dag, c, t);
    OpeningTrail(plan, c);
    var s := Opening(plan, c);
    IndeterminateTrail(plan, c.(run := RunningRun), s);
    ReconcileUnfold(plan, e, s, [t]);
    BlockedRound(plan, e, s, t);
  }

  lemma OpenStaysOpen(dag: Dag, c: Core, t: TaskId)
    requires Good(dag, c) && t in c.results && c.results[t].status == Running
    ensures Has(c, t, Running) && t in dag.tasks
  {
  }

  lemma BlockedRound(p: Plan, e: Env, s: State, t: TaskId)
    requires t in s.core.results && t in p.dag.tasks && s.core.results[t].attempts != []
    requires e.reconcile(t, Last(s.core.results[t].attempts)) in {StillRunning, Lost, Unknown}
    ensures var r := ReconcileOne(p, e, s, t);
            && r.blocked && |r.state.log| == |s.log| + 1 && r.state.log[..|s.log|] == s.log && Last(r.state.log).EndRun?
            && r.state.core.results == s.core.results && r.state.core.artifacts == s.core.artifacts
            && r.state.core.status == s.core.status
            && r.state.core.run == StoppedRun(e.reconcile(t, Last(s.core.results[t].attempts)))
  {
  }

  // ---- The trace as a log of statuses ----

  function StatusNamed(kind: EventKind): Option<Status> {
    match kind
    case TaskCreated => Some(Pending)
    case TaskReady => Some(Ready)
    case TaskStarted => Some(Running)
    case TaskCompleted => Some(Success)
    case TaskFailed => Some(Failed)
    case TaskBlocked => Some(Failed)
    case TaskSkipped => Some(Skipped)
    case TaskCancelled => Some(Cancelled)
    case _ => None
  }

  /** Replays events over a status map. */
  function Fold(status: map<TaskId, Status>, events: seq<Event>): map<TaskId, Status> {
    if events == [] then status
    else
      var last := events[|events| - 1];
      var before := Fold(status, events[..|events| - 1]);
      if StatusNamed(last.kind).Some? then before[last.task := StatusNamed(last.kind).value] else before
  }

  lemma FoldAppend(status: map<TaskId, Status>, events: seq<Event>, e: Event)
    ensures Fold(status, events + [e]) ==
              var before := Fold(status, events);
              if StatusNamed(e.kind).Some? then before[e.task := StatusNamed(e.kind).value] else before
  {
    assert (events + [e])[..|events|] == events;
  }

  lemma {:induction false} FoldConcat(status: map<TaskId, Status>, first: seq<Event>, second: seq<Event>)
    ensures Fold(status, first + second) == Fold(Fold(status, first), second)
  {
    if second == [] {
      assert first + second == first;
    } else {
      FoldConcat(status, first, second[..|second| - 1]);
      assert (first + second)[..|first + second| - 1] == first + second[..|second| - 1];
    }
  }

  lemma LabelIsLogged(dag: Dag, c: Core, l: Label)
    requires Enabled(dag, c, l)
    ensures Apply(dag, c, l).status ==
              var e := EventOf(dag, c, Effect(dag, c, l));
              if StatusNamed(e.kind).Some? then c.status[e.task := StatusNamed(e.kind).value] else c.status
  {
    hide Calm, DepsDone, Satisfies, Promoted, TerminalRunStatus;
  }

  /** Along a process, replaying the events it committed over the statuses it began with gives its statuses. */
  lemma {:induction false} ProcessIsLogged(dag: Dag, c: Core, ls: seq<Label>)
    requires Machine.Runs(dag, c, ls)
    ensures var c' := Exec(dag, c, ls);
            && |c'.trace| == |c.trace| + |ls| && c.trace <= c'.trace
            && c'.status == Fold(c.status, c'.trace[|c.trace|..])
  {
    if ls != [] {
      var front := ls[..|ls| - 1];
      ProcessIsLogged(dag, c, front);
      var m := Exec(dag, c, front);
      var l := Last(ls);
      LabelIsLogged(dag, m, l);
      var e := EventOf(dag, m, Effect(dag, m, l));
      var c' := Exec(dag, c, ls);
      assert c'.trace == m.trace + [e];
      assert c'.trace[|c.trace|..] == m.trace[|c.trace|..] + [e];
      FoldAppend(c.status, m.trace[|c.trace|..], e);
    }
  }

  lemma {:induction false} FoldCreated(run: RunId, order: seq<TaskId>, n: nat)
    requires n <= |order|
    ensures Fold(map[], CreatedEvents(run, order, 0)[..n]) == map t | t in order[..n] :: Pending
  {
    var events := CreatedEvents(run, order, 0);
    if n > 0 {
      FoldCreated(run, order, n - 1);
      assert events[..n] == events[..n - 1] + [events[n - 1]];
      FoldAppend(map[], events[..n - 1], events[n - 1]);
      assert order[..n] == order[..n - 1] + [order[n - 1]];
    }
  }

  /**
    In a fresh run, at every commit, replaying the whole stored trace gives exactly the stored
    statuses, and a task that is running, successful or failed has a result saying so.
  */
  lemma FreshLogIsFaithful(plan: Plan, env: Env, cancelled: bool, commits: nat)
    requires ValidChain(plan.dag, Begun(plan, env, cancelled, commits))
    ensures var c := Durable(plan.dag, Begun(plan, env, cancelled, commits));
            && c.status == Fold(map[], c.trace)
            && forall t :: t in c.status && c.status[t] in {Running, Success, Failed} ==>
                  t in c.results && c.results[t].status == c.status[t]
  {
    var ch := Begun(plan, env, cancelled, commits);
    ChainGood(plan.dag, ch);
    ShapeOf(plan.dag, Durable(plan.dag, ch));
    hide Good, BeginSession, Exclusive;
    InitIsLogged(plan);
    if commits > 0 {
      BeginTrail(plan, env, cancelled);
      FreshPrefixLogged(plan, BeginSession(plan, env, cancelled).state, commits);
    }
  }

  lemma InitIsLogged(plan: Plan)
    requires ValidPlan(plan)
    ensures Init(plan).status == Fold(map[], Init(plan).trace)
  {
    FoldCreated(plan.dag.runId, plan.order, |plan.order|);
    assert Init(plan).trace[..|plan.order|] == Init(plan).trace;
    assert plan.order[..|plan.order|] == plan.order;
  }

  lemma FreshPrefixLogged(plan: Plan, s: State, k: nat)
    requires ValidPlan(plan) && Trail(plan.dag, Init(plan).(run := RunningRun), s) && k <= |s.log|
    ensures var c := Exec(plan.dag, Init(plan).(run := RunningRun), s.log[..k]);
            c.status == Fold(map[], c.trace)
  {
    hide Good, Init, ValidPlan, Enabled;
    var c0 := Init(plan).(run := RunningRun);
    InitIsLogged(plan);
    RunsPrefix(plan.dag, c0, s.log, k);
    ProcessIsLogged(plan.dag, c0, s.log[..k]);
    var c := Exec(plan.dag, c0, s.log[..k]);
    FoldConcat(map[], c0.trace, c.trace[|c0.trace|..]);
    assert c.trace == c0.trace + c.trace[|c0.trace|..];
  }

  // ---- Termination measure of one process ----

  function StartsIn(log: seq<Label>, t: TaskId): nat {
    if log == [] then 0 else StartsIn(log[..|log| - 1], t) + if log[|log| - 1] == Start(t) then 1 else 0
  }

  lemma {:induction false} StartedAtMostOnce(dag: Dag, c: Core, ls: seq<Label>, t: TaskId)
    requires Machine.Runs(dag, c, ls) && t in c.status
    ensures t in Exec(dag, c, ls).status
    ensures StartsIn(ls, t) + (if Transitions.Height(Exec(dag, c, ls).status[t]) >= 2 then 1 else 0) <= 1
  {
    if ls != [] {
      var front := ls[..|ls| - 1];
      StartedAtMostOnce(dag, c, front, t);
      var m := Exec(dag, c, front);
      LabelsAreLegal(dag, m, Last(ls), t);
      if Last(ls) == Start(t) {
        StartLeavesReady(dag, m, Last(ls), t);
      }
      hide Enabled, Apply;
    }
  }

  lemma StartLeavesReady(dag: Dag, c: Core, l: Label, t: TaskId)
    requires Enabled(dag, c, l) && t in c.status && l == Start(t)
    ensures c.status[t] == Ready && t in Apply(dag, c, l).status && Apply(dag, c, l).status[t] == Running
  {
  }
}
