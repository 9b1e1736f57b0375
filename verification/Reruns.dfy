/** Which tasks a process starts, told from where it begins; and with it, which resumes end with a report. */
module Reruns {
  import opened Model
  import opened Artifacts
  import opened Machine
  import opened Invariants
  import opened Scheduling
  import opened Sessions
  import opened Runs
  import opened Chains
  import opened Verdicts
  import opened Reports
  import T = Transparency

  // ---- A stale success is cured by starting its task again, and by nothing else ----

  ghost predicate StaleAt(c: Core, t: TaskId) {
    t in c.results && t in c.status && c.results[t].status == Success && c.status[t] != Success
  }

  lemma StaleStep(dag: Dag, c: Core, l: Label, t: TaskId)
    requires Shape(dag, c) && StarvedNeverRan(dag, c) && Enabled(dag, c, l)
    ensures StaleAt(Apply(dag, c, l), t) <==> StaleAt(c, t) && l != Start(t)
  {
    hide Satisfies, OneProofEach, Promoted, TerminalRunStatus;
  }

  lemma {:induction false} StaleRuns(dag: Dag, c: Core, ls: seq<Label>, t: TaskId)
    requires Good(dag, c) && Machine.Runs(dag, c, ls)
    ensures StaleAt(Exec(dag, c, ls), t) <==> StaleAt(c, t) && Start(t) !in ls
  {
    hide Good, Enabled, StaleAt, Shape, StarvedNeverRan;
    if ls != [] {
      var front, last := ls[..|ls| - 1], ls[|ls| - 1];
      assert ls == front + [last];
      GoodRuns(dag, c, front);
      StaleRuns(dag, c, front, t);
      StaleParts(dag, Exec(dag, c, front));
      StaleStep(dag, Exec(dag, c, front), last, t);
    }
  }

  lemma StaleParts(dag: Dag, c: Core)
    requires Good(dag, c)
    ensures Shape(dag, c) && StarvedNeverRan(dag, c)
  {
  }

  lemma ReloadedStale(dag: Dag, e: Env, stored: Core, t: TaskId)
    ensures StaleAt(Reload(dag, e, stored), t) <==> Rejected(dag, e, stored, t)
  {
    hide Satisfies;
  }

  lemma StaleOrNot(c: Core)
    ensures NoStale(c) <==> forall t :: !StaleAt(c, t)
  {
    forall t | t in c.results && t in c.status && c.results[t].status == Success
      ensures c.status[t] == Success <==> !StaleAt(c, t)
    {
    }
    assert forall t :: StaleAt(c, t) ==> t in c.results && t in c.status;
  }

  /** A resume leaves nothing stale exactly when it started every rejected success again. */
  lemma FreshNeedsReruns(plan: Plan, e: Env, stored: Core)
    requires ValidPlan(plan) && Good(plan.dag, stored)
    ensures NoStale(ResumeSession(plan, e, stored).state.core)
       <==> forall t :: Rejected(plan.dag, e, stored, t) ==> Start(t) in ResumeSession(plan, e, stored).state.log
  {
    hide Good, Trail, ResumeSession, Ended, ValidPlan, NoStale, StaleAt, Rejected, Reload;
    ResumeTrail(plan, e, stored);
    var s := ResumeSession(plan, e, stored).state;
    var c := Reload(plan.dag, e, stored).(run := RunningRun);
    StaleOrNot(s.core);
    forall t
      ensures StaleAt(s.core, t) <==> Rejected(plan.dag, e, stored, t) && Start(t) !in s.log
    {
      StaleTrail(plan.dag, c, s, t);
      ReloadedStale(plan.dag, e, stored, t);
      StaleRun(Reload(plan.dag, e, stored), t);
    }
  }

  lemma StaleTrail(dag: Dag, c: Core, s: State, t: TaskId)
    requires Trail(dag, c, s)
    ensures StaleAt(s.core, t) <==> StaleAt(c, t) && Start(t) !in s.log
  {
    hide Good, StaleAt;
    StaleRuns(dag, c, s.log, t);
  }

  lemma StaleRun(c: Core, t: TaskId)
    ensures StaleAt(c.(run := RunningRun), t) <==> StaleAt(c, t)
  {
  }

  // ---- The tasks a process starts, from statuses, the id supply and the executor alone ----

  datatype Rerun = Rerun(started: set<TaskId>, aborted: bool)

  /** How many ids registration and the closing event draw after TASK_STARTED. */
  function IdsDrawn(out: Outcome): nat {
    if out.Outcome? then 2 * |out.candidates| + 1 else 1
  }

  /** What the loop starts from statuses `st` when the next id is `supply`. */
  function Reruns(p: Plan, e: Env, st: T.StatusMap, supply: nat): Rerun
    decreases T.PendingIn(st)
  {
    match T.FirstReady(p, st, |p.order|)
    case None => Rerun({}, false)
    case Some(t) =>
      assert t in T.PendingIn(st) && T.PendingIn(st[t := Success]) == T.PendingIn(st) - {t};
      var out := e.exec(t, supply + 1);
      match Verdict(p.dag, t, out)
      case None => Rerun({t}, true)
      case Some(verdict) =>
        if verdict != Success then Rerun({t}, verdict == Cancelled)
        else
          var rest := Reruns(p, e, st[t := Success], supply + 3 + IdsDrawn(out));
          Rerun({t} + rest.started, rest.aborted)
  }

  /** The same starts. */
  ghost predicate SameStarts(a: seq<Label>, b: seq<Label>) {
    forall t :: Start(t) in a <==> Start(t) in b
  }

  lemma QuietDo(dag: Dag, s: State, l: Label)
    requires !l.Start?
    ensures SameStarts(s.log, Do(dag, s, l).log)
  {
  }

  lemma SameStartsTwice(a: seq<Label>, b: seq<Label>, c: seq<Label>)
    requires SameStarts(a, b) && SameStarts(b, c)
    ensures SameStarts(a, c)
  {
  }

  lemma {:induction false} QuietSweep(p: Plan, s: State, f: TaskId, i: nat)
    requires i <= |p.order|
    ensures SameStarts(s.log, SkipSweep(p, s, f, i).log)
    decreases |p.order| - i
  {
    hide Do, HitByFailure, SameStarts;
    if i == |p.order| {
      SameStartsSelf(s.log);
    } else if HitByFailure(p.dag, s.core, p.order[i]) {
      var s' := Do(p.dag, s, Skip(p.order[i], BlockedBy(f)));
      QuietDo(p.dag, s, Skip(p.order[i], BlockedBy(f)));
      QuietSweep(p, s', f, i + 1);
      SameStartsTwice(s.log, s'.log, SkipSweep(p, s', f, i + 1).log);
    } else {
      QuietSweep(p, s, f, i + 1);
    }
  }

  lemma SameStartsSelf(a: seq<Label>)
    ensures SameStarts(a, a)
  {
  }

  lemma {:induction false} QuietPropagate(p: Plan, s: State, f: TaskId)
    ensures SameStarts(s.log, PropagateSkips(p, s, f).log)
    decreases Pendings(s.core)
  {
    hide SameStarts;
    QuietSweep(p, s, f, 0);
    var s' := SkipSweep(p, s, f, 0);
    if |s'.log| != |s.log| {
      QuietPropagate(p, s', f);
      SameStartsTwice(s.log, s'.log, PropagateSkips(p, s', f).log);
    }
  }

  lemma {:induction false} QuietRemaining(p: Plan, s: State, reason: string, i: nat)
    requires i <= |p.order|
    ensures SameStarts(s.log, SkipRemaining(p, s, reason, i).log)
    decreases |p.order| - i
  {
    hide Do, SameStarts;
    if i == |p.order| {
      SameStartsSelf(s.log);
    } else if Has(s.core, p.order[i], Pending) {
      var s' := Do(p.dag, s, Skip(p.order[i], Reason(reason)));
      QuietDo(p.dag, s, Skip(p.order[i], Reason(reason)));
      QuietRemaining(p, s', reason, i + 1);
      SameStartsTwice(s.log, s'.log, SkipRemaining(p, s', reason, i + 1).log);
    } else {
      QuietRemaining(p, s, reason, i + 1);
    }
  }

  lemma QuietFailFast(p: Plan, s: State, f: TaskId)
    ensures SameStarts(s.log, Finish(p, FailFastFrom(p, s, f)).log)
  {
    hide Do, SameStarts, PropagateSkips, SkipRemaining, FinalStatus;
    QuietPropagate(p, s, f);
    QuietRemaining(p, PropagateSkips(p, s, f), "fail_fast", 0);
    SameStartsTwice(s.log, PropagateSkips(p, s, f).log, FailFastFrom(p, s, f).log);
    QuietFinish(p, FailFastFrom(p, s, f));
    SameStartsTwice(s.log, FailFastFrom(p, s, f).log, Finish(p, FailFastFrom(p, s, f)).log);
  }

  lemma QuietFinish(p: Plan, s: State)
    ensures SameStarts(s.log, Finish(p, s).log)
  {
    QuietDo(p.dag, s, EndRun(FinalStatus(s.core), NoNote));
    hide Do, SameStarts, FinalStatus;
  }

  // ---- Dispatch: one start, and how many ids it draws ----

  lemma {:induction false} RegisterQuiet(dag: Dag, s: State, t: TaskId, cands: seq<Candidate>, ids: seq<nat>, i: nat)
    requires i <= |cands|
    ensures var r := RegisterAll(dag, s, t, cands, ids, i);
            SameStarts(s.log, r.state.log) && (!r.aborted ==> r.state.core.supply == s.core.supply + 2 * (|cands| - i))
    decreases |cands| - i
  {
    hide SameStarts, LocationOk;
    if i == |cands| || !LocationOk(cands[i].location) {
      SameStartsSelf(s.log);
    } else {
      var s' := Do(dag, s, Register(t, cands[i]));
      QuietDo(dag, s, Register(t, cands[i]));
      assert s'.core.supply == s.core.supply + 2;
      hide Do;
      RegisterQuiet(dag, s', t, cands, ids + [s.core.supply], i + 1);
      SameStartsTwice(s.log, s'.log, RegisterAll(dag, s', t, cands, ids + [s.core.supply], i + 1).state.log);
    }
  }

  lemma CloseQuiet(dag: Dag, s: State, r: TaskResult, arts: seq<Artifact>, note: Note, cause: Option<EventId>)
    ensures var s' := CloseWith(dag, s, r, arts, note, cause);
            SameStarts(s.log, s'.log) && s'.core.supply == s.core.supply + 1
  {
  }

  lemma AfterStartQuiet(
    p: Plan, s: State, t: TaskId, attempts: seq<nat>, prior: Option<TaskResult>, out: Outcome, started: EventId)
    requires t in p.dag.tasks && attempts != []
    ensures var r := AfterStart(p, s, t, attempts, prior, out, started);
            SameStarts(s.log, r.state.log) && (!r.aborted ==> r.state.core.supply == s.core.supply + IdsDrawn(out))
  {
    hide SameStarts, CloseWith, RegisterAll, BuildResult, Conclude;
    match out
    case EngineError =>
      SameStartsSelf(s.log);
    case Exception =>
      var failure := Failure("executor_exception", "execution", t, Some(Last(attempts)));
      CloseQuiet(p.dag, s, BuildResult(p.dag, t, Failed, attempts, prior, [], [failure], [], None), s.core.artifacts,
        Reason("executor_exception"), Some(started));
    case Outcome(cands, _, _, _, _) =>
      RegisterQuiet(p.dag, s, t, cands, [], 0);
      var reg := RegisterAll(p.dag, s, t, cands, [], 0);
      if !reg.aborted {
        ConcludeQuiet(p, reg.state, t, attempts, prior, out, reg.ids, started);
        SameStartsTwice(s.log, reg.state.log, Conclude(p, reg.state, t, attempts, prior, out, reg.ids, started).log);
      }
  }

  lemma ConcludeQuiet(
    p: Plan, s: State, t: TaskId, attempts: seq<nat>, prior: Option<TaskResult>, out: Outcome, ids: seq<nat>,
    started: EventId)
    requires out.Outcome? && attempts != [] && t in p.dag.tasks
    ensures var s' := Conclude(p, s, t, attempts, prior, out, ids, started);
            SameStarts(s.log, s'.log) && s'.core.supply == s.core.supply + 1
  {
    var l := T.ConcludeIsClose(p, s, t, attempts, prior, out, ids, started);
    hide BuildResult, Validate, Merge;
  }

  lemma DispatchStarts(p: Plan, e: Env, s: State, t: TaskId)
    requires t in p.dag.tasks
    ensures var d := Dispatch(p, e, s, t);
            && (forall u :: Start(u) in d.state.log <==> Start(u) in s.log || u == t)
            && (!d.aborted ==> d.state.core.supply == s.core.supply + 2 + IdsDrawn(e.exec(t, s.core.supply)))
  {
    hide AfterStart, IdsDrawn;
    var a := s.core.supply;
    var s1 := Do(p.dag, s, Start(t));
    assert s1.core.supply == a + 2 && s1.log == s.log + [Start(t)];
    hide Do;
    AfterStartQuiet(p, s1, t, PriorAttempts(s.core, t) + [a], PriorResult(s.core, t), e.exec(t, a), FreshId(a + 1));
  }

  // ---- The loop ----

  /** `r` started what `s` had, and `more`. */
  ghost predicate StartedMore(s: State, r: Step, more: Rerun) {
    r.aborted == more.aborted && forall t :: Start(t) in r.state.log <==> Start(t) in s.log || t in more.started
  }

  lemma QuietLast(s: State, r: State, more: Rerun)
    requires SameStarts(s.log, r.log) && more == Rerun({}, false)
    ensures StartedMore(s, Step(r, false), more)
  {
  }

  /** The loop starts exactly what `Reruns` says, and aborts exactly when it says. */
  lemma {:induction false} LoopStarts(p: Plan, e: Env, c0: Core, s: State)
    requires ValidPlan(p) && Trail(p.dag, c0, s) && Calm(s.core)
    ensures StartedMore(s, Loop(p, e, s, false), Reruns(p, e, s.core.status, s.core.supply))
    decreases Pendings(s.core)
  {
    hide Good, Trail, Do, Dispatch, FailFastFrom, BlockedResult, Dispatchable, InputBlocked, ValidPlan,
      Finish, SameStarts, T.FirstReady, StartedMore, Verdict, Calm;
    T.ChoicesAgree(p, c0, s);
    match T.FirstReady(p, s.core.status, |p.order|)
    case None =>
      match FirstBlocked(p, s.core, 0) {
        case None =>
          QuietFinish(p, s);
          QuietLast(s, Finish(p, s), Rerun({}, false));
        case Some(t) =>
          var l := Block(t, BlockedResult(p.dag, t), Reason("required_input_unavailable"));
          QuietDo(p.dag, s, l);
          QuietFailFast(p, Do(p.dag, s, l), t);
          SameStartsTwice(s.log, Do(p.dag, s, l).log, Finish(p, FailFastFrom(p, Do(p.dag, s, l), t)).log);
          QuietLast(s, Finish(p, FailFastFrom(p, Do(p.dag, s, l), t)), Rerun({}, false));
      }
    case Some(t) =>
      RoundStarts(p, e, c0, s, t);
  }

  lemma MadeReady(dag: Dag, s: State, t: TaskId)
    ensures var s' := Do(dag, s, MakeReady(t));
            && s'.core.supply == s.core.supply + 1 && s'.core.status == s.core.status[t := Ready]
            && forall u :: Start(u) in s'.log <==> Start(u) in s.log
  {
  }

  lemma DispatchableIsPending(dag: Dag, c: Core, t: TaskId)
    requires Dispatchable(dag, c, t)
    ensures t in dag.tasks && Has(c, t, Pending)
  {
  }

  /** Memory after a round that dispatched `t`, as far as the next round looks at it. */
  lemma RoundMemory(p: Plan, e: Env, c0: Core, s: State, t: TaskId)
    requires ValidPlan(p) && Trail(p.dag, c0, s) && Calm(s.core) && Dispatchable(p.dag, s.core, t)
    ensures var d := Dispatch(p, e, Do(p.dag, s, MakeReady(t)), t);
            var out := e.exec(t, s.core.supply + 1);
            && Trail(p.dag, c0, d.state)
            && (d.aborted <==> Verdict(p.dag, t, out) == None)
            && (forall u :: Start(u) in d.state.log <==> Start(u) in s.log || u == t)
            && (!d.aborted ==>
                 && t in d.state.core.results && Verdict(p.dag, t, out) == Some(d.state.core.results[t].status)
                 && d.state.core.status == s.core.status[t := d.state.core.results[t].status]
                 && d.state.core.supply == s.core.supply + 3 + IdsDrawn(out))
  {
    hide Good, Trail, Do, Dispatch, ValidPlan, Verdict, Supplied, Dispatchable, IdsDrawn, Calm;
    var s1 := Do(p.dag, s, MakeReady(t));
    MadeReady(p.dag, s, t);
    ReadyTrail(p, c0, s, t);
    DispatchableIsPending(p.dag, s.core, t);
    T.TrailDomainResults(p.dag, c0, s1);
    DispatchTrail(p, e, c0, s1, t);
    DispatchVerdict(p, e, s1, t);
    DispatchStarts(p, e, s1, t);
  }

  /** A dispatch of `t` and what followed it. */
  lemma StartedThen(s: State, d: State, t: TaskId, r: Step, rest: Rerun)
    requires forall u :: Start(u) in d.log <==> Start(u) in s.log || u == t
    requires StartedMore(d, r, rest)
    ensures StartedMore(s, r, Rerun({t} + rest.started, rest.aborted))
  {
  }

  lemma StartedOnly(s: State, d: State, t: TaskId, r: State)
    requires forall u :: Start(u) in d.log <==> Start(u) in s.log || u == t
    requires SameStarts(d.log, r.log)
    ensures StartedMore(s, Step(r, false), Rerun({t}, false))
  {
  }

  lemma StartedLast(s: State, d: State, t: TaskId)
    requires forall u :: Start(u) in d.log <==> Start(u) in s.log || u == t
    ensures StartedMore(s, Step(d, true), Rerun({t}, true))
  {
  }

  lemma {:induction false} RoundStarts(p: Plan, e: Env, c0: Core, s: State, t: TaskId)
    requires ValidPlan(p) && Trail(p.dag, c0, s) && Calm(s.core)
    requires T.FirstReady(p, s.core.status, |p.order|) == Some(t)
    requires ReadyIds(p, s.core, |p.order|) != [] && ReadyIds(p, s.core, |p.order|)[0] == t
    ensures StartedMore(s, Loop(p, e, s, false), Reruns(p, e, s.core.status, s.core.supply))
    decreases Pendings(s.core), 0
  {
    hide Good, Trail, Do, Dispatch, FailFastFrom, ValidPlan, Finish, SameStarts, T.FirstReady, Verdict,
      IdsDrawn, Calm, Dispatchable, InputBlocked, ReadyIds, FirstBlocked, StartedMore;
    RoundMemory(p, e, c0, s, t);
    var d := Dispatch(p, e, Do(p.dag, s, MakeReady(t)), t);
    if d.aborted {
      StartedLast(s, d.state, t);
    } else {
      var status := d.state.core.results[t].status;
      CalmAfter(s.core, d.state.core, t, status);
      assert t in Pendings(s.core) && Pendings(d.state.core) == Pendings(s.core) - {t};
      if status == Success {
        LoopStarts(p, e, c0, d.state);
        StartedThen(s, d.state, t, Loop(p, e, d.state, false),
          Reruns(p, e, d.state.core.status, d.state.core.supply));
      } else if status == Failed {
        FailFastTrail(p, c0, d.state, t);
        EmptyReady(p, FailFastFrom(p, d.state, t).core);
        QuietFailFast(p, d.state, t);
        StartedOnly(s, d.state, t, Finish(p, FailFastFrom(p, d.state, t)));
      } else {
        StartedLast(s, d.state, t);
      }
    }
  }

  // ---- A whole process ----

  /** Where the loop of a resume begins, if a prior failure or an unsettled attempt does not bar it. */
  datatype Entry = Barred | From(status: T.StatusMap, supply: nat)

  function EntryOf(p: Plan, e: Env, stored: Core): Entry {
    var status, supply := Reload(p.dag, e, stored).status, stored.supply + OpeningDraw(stored);
    if EndedBadly(stored.results) then Barred
    else
      match OpenAttempt(p, stored.results, 0)
      case None => From(status, supply)
      case Some(u) =>
        if Settles(p, e, stored, u) == Some(Success) then From(status[u := Success], supply + 1) else Barred
  }

  /** What a resume starts, told from the stored state. */
  function ResumeReruns(p: Plan, e: Env, stored: Core): Rerun {
    match EntryOf(p, e, stored)
    case Barred => Rerun({}, false)
    case From(status, supply) => Reruns(p, e, status, supply)
  }

  /** The task whose recorded attempt is open. */
  function OpenAttempt(p: Plan, results: map<TaskId, TaskResult>, i: nat): (r: Option<TaskId>)
    requires i <= |p.order|
    ensures r.Some? ==> r.value in p.order[i..] && r.value in results && results[r.value].status == Running
    ensures r.None? ==> forall t :: t in p.order[i..] && t in results ==> results[t].status != Running
    decreases |p.order| - i
  {
    if i == |p.order| then None
    else
      assert p.order[i..] == [p.order[i]] + p.order[i + 1..];
      var t := p.order[i];
      if t in results && results[t].status == Running then Some(t) else OpenAttempt(p, results, i + 1)
  }

  /** One round commits no start; it blocks, or gives the open attempt its status, as `Settles` says. */
  ghost predicate SettledAs(p: Plan, e: Env, s: State, t: TaskId, r: Reconciled) {
    && (r.blocked <==> Settles(p, e, s.core, t) == None)
    && (!r.blocked ==> t in r.state.core.results && Settles(p, e, s.core, t) == Some(r.state.core.results[t].status))
    && (!r.blocked ==> r.state.core.supply == s.core.supply + 1)
    && SameStarts(s.log, r.state.log)
  }

  lemma ReconcileSettles(p: Plan, e: Env, c0: Core, s: State, t: TaskId)
    requires ValidPlan(p) && Trail(p.dag, c0, s) && Has(s.core, t, Running)
    ensures SettledAs(p, e, s, t, ReconcileOne(p, e, s, t))
  {
    hide Good, Trail, ValidPlan, ReconcileOne, Settles, SameStarts, CloseWith;
    TrailGood(p.dag, c0, s);
    OpenFacts(p.dag, s.core, t);
    ReconcileVerdict(p, e, s, t);
    var r := ReconcileOne(p, e, s, t);
    if r.blocked {
      var final, note :| r.state == Do(p.dag, s, EndRun(final, note));
      QuietDo(p.dag, s, EndRun(final, note));
    } else {
      var result, arts, note :| SettledBy(p, e, s, t, r.state, result, arts, note);
      CloseQuiet(p.dag, s, result, arts, note, None);
    }
  }

  /** Once something has ended badly, what is pending is skipped and nothing starts. */
  lemma DoomedStarts(p: Plan, e: Env, c0: Core, s: State)
    requires ValidPlan(p) && Trail(p.dag, c0, s) && Idle(s.core) && SomeDoomed(s.core)
    ensures StartedMore(s, Loop(p, e, SkipRemaining(p, s, "prior_terminal_state", 0), false), Rerun({}, false))
  {
    hide Good, Trail, ValidPlan, SkipRemaining, Loop, Finish, SameStarts, StartedMore;
    SkipRemainingTrail(p, c0, s, "prior_terminal_state", 0);
    var s1 := SkipRemaining(p, s, "prior_terminal_state", 0);
    TrailDomain(p.dag, c0, s1);
    AllInOrder(p, s1.core);
    T.LoopIsFinish(p, e, s1);
    QuietRemaining(p, s, "prior_terminal_state", 0);
    QuietFinish(p, s1);
    SameStartsTwice(s.log, s1.log, Finish(p, s1).log);
    QuietLast(s, Finish(p, s1), Rerun({}, false));
  }

  lemma StatusKinds(s: Status)
    ensures s in {Ready, Running} || s in {Pending, Success} || Doomed(s)
  {
  }

  lemma IdleIsCalm(c: Core)
    requires Idle(c) && !AnyDoomed(c)
    ensures Calm(c)
  {
    forall t | t in c.status
      ensures c.status[t] in {Pending, Success}
    {
      StatusKinds(c.status[t]);
    }
  }

  /** What follows reconciliation, from a state in which nothing is active. */
  lemma SettledStarts(p: Plan, e: Env, c0: Core, s: State)
    requires ValidPlan(p) && Trail(p.dag, c0, s) && Idle(s.core)
    ensures var s' := if AnyDoomed(s.core) then SkipRemaining(p, s, "prior_terminal_state", 0) else s;
            var more := if AnyDoomed(s.core) then Rerun({}, false) else Reruns(p, e, s.core.status, s.core.supply);
            StartedMore(s, Loop(p, e, s', false), more)
  {
    hide Good, Trail, ValidPlan, SkipRemaining, Loop, StartedMore, Reruns;
    if AnyDoomed(s.core) {
      DoomedStarts(p, e, c0, s);
    } else {
      IdleIsCalm(s.core);
      LoopStarts(p, e, c0, s);
    }
  }

  /** A process that started exactly what `more` says, and was aborted exactly when it says. */
  ghost predicate Starts(r: Step, more: Rerun) {
    r.aborted == more.aborted && forall t :: Start(t) in r.state.log <==> t in more.started
  }

  /** How many ids a resume draws before it looks at its first task. */
  function OpeningDraw(stored: Core): nat {
    if exists i :: 0 <= i < |stored.trace| && stored.trace[i].kind == RunStarted then 1 else 2
  }

  lemma ReloadSupply(dag: Dag, e: Env, c: Core)
    ensures Reload(dag, e, c).supply == c.supply + 1 && Reload(dag, e, c).trace == c.trace
    ensures Reload(dag, e, c).results == c.results && Reload(dag, e, c).artifacts == c.artifacts
  {
  }

  lemma OpeningStarts(p: Plan, e: Env, stored: Core)
    ensures var s := Opening(p, Reload(p.dag, e, stored));
            s.core.supply == stored.supply + OpeningDraw(stored) && (s.log == [] || s.log == [RunStart])
  {
    ReloadSupply(p.dag, e, stored);
    hide Reload;
  }

  lemma NoStartsYet(s: State, r: Step, more: Rerun)
    requires StartedMore(s, r, more) && (s.log == [] || s.log == [RunStart])
    ensures Starts(r, more)
  {
  }

  /** Among good results only an open attempt or a failure is not a success, and there is one of them at most. */
  lemma ResultsOf(dag: Dag, c: Core)
    requires Good(dag, c)
    ensures forall t :: t in c.results ==>
          t in dag.tasks && c.results[t].status in {Success, Running, Failed, Cancelled}
    ensures forall t, u ::
              t in c.results && u in c.results && c.results[t].status != Success && c.results[u].status != Success ==>
                t == u
  {
  }

  /** A failure or a cancellation is on record. */
  predicate EndedBadly(results: map<TaskId, TaskResult>) {
    exists t :: t in results && results[t].status in {Failed, Cancelled}
  }

  lemma ReloadDoomedOne(dag: Dag, e: Env, stored: Core, t: TaskId)
    requires Good(dag, stored)
    ensures t in Reload(dag, e, stored).status && Doomed(Reload(dag, e, stored).status[t])
       <==> t in stored.results && stored.results[t].status in {Failed, Cancelled}
  {
    ResultsOf(dag, stored);
    hide Good, Satisfies;
  }

  lemma ReloadDoomed(dag: Dag, e: Env, stored: Core)
    requires Good(dag, stored)
    ensures AnyDoomed(Reload(dag, e, stored)) <==> EndedBadly(stored.results)
  {
    hide Good, Reload, Doomed;
    var c := Reload(dag, e, stored);
    if EndedBadly(stored.results) {
      var t :| t in stored.results && stored.results[t].status in {Failed, Cancelled};
      ReloadDoomedOne(dag, e, stored, t);
    }
    if t :| t in c.status && Doomed(c.status[t]) {
      ReloadDoomedOne(dag, e, stored, t);
    }
  }

  lemma ReloadOpen(dag: Dag, e: Env, stored: Core, t: TaskId)
    requires Good(dag, stored)
    ensures Has(Reload(dag, e, stored), t, Running) <==> t in stored.results && stored.results[t].status == Running
  {
    ResultsOf(dag, stored);
    hide Good, Satisfies;
  }

  lemma OpenAttemptFound(p: Plan, e: Env, stored: Core)
    requires ValidPlan(p) && Good(p.dag, stored)
    ensures var open := OpenAttempt(p, stored.results, 0);
            forall t :: open == Some(t) <==> Has(Reload(p.dag, e, stored), t, Running)
  {
    hide Reload, Good, ValidPlan;
    ResultsOf(p.dag, stored);
    OrderIsTasks(p);
    assert p.order[0..] == p.order;
    forall t
      ensures OpenAttempt(p, stored.results, 0) == Some(t) <==> Has(Reload(p.dag, e, stored), t, Running)
    {
      ReloadOpen(p.dag, e, stored, t);
    }
  }

  lemma OrderIsTasks(p: Plan)
    requires ValidPlan(p)
    ensures forall t :: t in p.order <==> t in p.dag.tasks
  {
  }

  lemma SameDoom(c: Core, c': Core)
    requires c.status == c'.status
    ensures AnyDoomed(c) == AnyDoomed(c')
    ensures Loaded(c) <==> Loaded(c')
  {
  }

  lemma NoneOpenIsIdle(c: Core)
    requires Loaded(c) && forall t :: !Has(c, t, Running)
    ensures Idle(c)
  {
    forall t | t in c.status
      ensures c.status[t] !in {Ready, Running}
    {
      assert !Has(c, t, Running);
    }
  }

  /** The resume with an open attempt, from where it begins to reconcile. */
  lemma OpenStarts(p: Plan, e: Env, c0: Core, s: State, u: TaskId)
    requires ValidPlan(p) && Trail(p.dag, c0, s) && Loaded(s.core) && !AnyDoomed(s.core)
    requires Has(s.core, u, Running) && forall t :: Has(s.core, t, Running) ==> t == u
    ensures var r := ReconcileOne(p, e, s, u);
            var s' := if AnyDoomed(r.state.core) then SkipRemaining(p, r.state, "prior_terminal_state", 0) else r.state;
            var more := if Settles(p, e, s.core, u) != Some(Success) then Rerun({}, false)
                        else Reruns(p, e, s.core.status[u := Success], s.core.supply + 1);
            StartedMore(s, if r.blocked then Step(r.state, false) else Loop(p, e, s', false), more)
  {
    hide Good, Trail, ValidPlan, ReconcileOne, SkipRemaining, Loop, StartedMore, Reruns, Settles, SameStarts;
    ReconcileSettles(p, e, c0, s, u);
    ReconcileOneTrail(p, e, c0, s, u);
    var r := ReconcileOne(p, e, s, u);
    if r.blocked {
      QuietLast(s, r.state, Rerun({}, false));
    } else {
      var status := r.state.core.results[u].status;
      SettledIdle(s.core, r.state.core, u, status);
      SettledStarts(p, e, c0, r.state);
      var s' := if AnyDoomed(r.state.core) then SkipRemaining(p, r.state, "prior_terminal_state", 0) else r.state;
      StartedSince(s, r.state, Loop(p, e, s', false),
        if status != Success then Rerun({}, false) else Reruns(p, e, r.state.core.status, r.state.core.supply));
    }
  }

  lemma SettledIdle(c: Core, c': Core, u: TaskId, status: Status)
    requires Loaded(c) && !AnyDoomed(c) && status in {Success, Failed, Cancelled}
    requires Has(c, u, Running) && forall t :: Has(c, t, Running) ==> t == u
    requires c'.status == c.status[u := status]
    ensures Idle(c') && (AnyDoomed(c') <==> status != Success)
  {
    forall t | t in c'.status
      ensures c'.status[t] !in {Ready, Running}
    {
      assert t != u ==> !Has(c, t, Running);
    }
    if status != Success {
      assert Doomed(c'.status[u]);
    }
    if t :| t in c'.status && Doomed(c'.status[t]) {
      assert t != u ==> AnyDoomed(c);
    }
  }

  lemma StartedSince(s: State, s': State, r: Step, more: Rerun)
    requires SameStarts(s.log, s'.log) && StartedMore(s', r, more)
    ensures StartedMore(s, r, more)
  {
  }

  /** What a whole resume starts, and whether it is aborted, told from the stored state. */
  lemma ResumeStarts(p: Plan, e: Env, stored: Core)
    requires ValidPlan(p) && Good(p.dag, stored)
    ensures Starts(ResumeSession(p, e, stored), ResumeReruns(p, e, stored))
  {
    hide Good, Trail, ValidPlan, Reload, Opening, IndeterminateIds, Reconcile, SkipRemaining, Loop, StartedMore, Reruns,
      ReconcileOne, Settles, OpenAttempt, Starts, AnyDoomed, Loaded, OpeningDraw, EndedBadly;
    var c := Reload(p.dag, e, stored);
    var c0 := c.(run := RunningRun);
    ReloadGood(p.dag, e, stored);
    ReloadSupply(p.dag, e, stored);
    ReloadDoomed(p.dag, e, stored);
    OpenAttemptFound(p, e, stored);
    OpeningTrail(p, c);
    OpeningStarts(p, e, stored);
    var s := Opening(p, c);
    SameDoom(c, s.core);
    IndeterminateTrail(p, c0, s);
    ReconcileUnfold(p, e, s, IndeterminateIds(p, s.core, |p.order|));
    match OpenAttempt(p, stored.results, 0)
    case None =>
      assert forall t :: Has(s.core, t, Running) <==> Has(c, t, Running);
      NoneOpenIsIdle(s.core);
      SettledStarts(p, e, c0, s);
      NoStartsYet(s, ResumeSession(p, e, stored), ResumeReruns(p, e, stored));
    case Some(u) =>
      assert Has(c, u, Running) && forall t :: Has(c, t, Running) ==> t == u;
      OpenAlone(p.dag, e, stored, u);
      SettlesSame(p, e, stored, s.core, u);
      OpenStarts(p, e, c0, s, u);
      NoStartsYet(s, ResumeSession(p, e, stored), ResumeReruns(p, e, stored));
  }

  /** A resume that nothing bars goes on in its loop, from where `EntryOf` says. */
  lemma ResumeIsLoop(p: Plan, e: Env, stored: Core) returns (s: State)
    requires ValidPlan(p) && Good(p.dag, stored) && EntryOf(p, e, stored).From?
    ensures Trail(p.dag, Reload(p.dag, e, stored).(run := RunningRun), s) && Calm(s.core)
    ensures s.core.status == EntryOf(p, e, stored).status && s.core.supply == EntryOf(p, e, stored).supply
    ensures ResumeSession(p, e, stored) == Loop(p, e, s, false)
  {
    hide Good, Trail, ValidPlan, Reload, Opening, IndeterminateIds, Reconcile, SkipRemaining, Loop, ReconcileOne,
        Settles, OpenAttempt, AnyDoomed, Loaded, OpeningDraw, EndedBadly;
    var c := Reload(p.dag, e, stored);
    var c0 := c.(run := RunningRun);
    ReloadGood(p.dag, e, stored);
    ReloadSupply(p.dag, e, stored);
    ReloadDoomed(p.dag, e, stored);
    OpenAttemptFound(p, e, stored);
    OpeningTrail(p, c);
    OpeningStarts(p, e, stored);
    s := Opening(p, c);
    SameDoom(c, s.core);
    IndeterminateTrail(p, c0, s);
    ReconcileUnfold(p, e, s, IndeterminateIds(p, s.core, |p.order|));
    match OpenAttempt(p, stored.results, 0)
    case None =>
      assert forall t :: Has(s.core, t, Running) <==> Has(c, t, Running);
      NoneOpenIsIdle(s.core);
      IdleIsCalm(s.core);
    case Some(u) =>
      assert Has(c, u, Running) && forall t :: Has(c, t, Running) ==> t == u;
      SettlesSame(p, e, stored, s.core, u);
      ReconcileSettles(p, e, c0, s, u);
      ReconcileOneTrail(p, e, c0, s, u);
      var r := ReconcileOne(p, e, s, u);
      SettledIdle(s.core, r.state.core, u, Success);
      IdleIsCalm(r.state.core);
      s := r.state;
  }

  lemma OpenAlone(dag: Dag, e: Env, stored: Core, u: TaskId)
    requires Good(dag, stored) && Has(Reload(dag, e, stored), u, Running)
    ensures !EndedBadly(stored.results)
  {
    hide Good, Reload;
    ReloadOpen(dag, e, stored, u);
    ResultsOf(dag, stored);
  }

  // ---- Exactly which resumes end with a report ----

  /** `more` starts every rejected success again. */
  ghost predicate Cures(p: Plan, e: Env, stored: Core, more: Rerun) {
    forall t :: Rejected(p.dag, e, stored, t) ==> t in more.started
  }

  /** What a resume leaves, told from the stored state: whether it is aborted, and whether anything is stale. */
  lemma FreshExactlyWhen(p: Plan, e: Env, stored: Core)
    requires ValidPlan(p) && Good(p.dag, stored)
    ensures ResumeSession(p, e, stored).aborted <==> ResumeReruns(p, e, stored).aborted
    ensures NoStale(ResumeSession(p, e, stored).state.core) <==> Cures(p, e, stored, ResumeReruns(p, e, stored))
  {
    hide Good, ValidPlan, ResumeSession, ResumeReruns, Rejected, NoStale;
    ResumeStarts(p, e, stored);
    FreshNeedsReruns(p, e, stored);
  }

  /**
    The condition before the resume: unless an exception ends it, its report is accepted exactly when
    every rejected success is among the tasks it is going to start.
  */
  lemma ReportExactlyWhen(p: Plan, e: Env, stored: Core, ids: seq<nat>, r: RunReport)
    requires ValidPlan(p) && Good(p.dag, stored)
    requires Describes(p, ResumeSession(p, e, stored).state.core, ids, r)
    ensures ResumeSession(p, e, stored).aborted <==> ResumeReruns(p, e, stored).aborted
    ensures !ResumeReruns(p, e, stored).aborted ==> (ReportOk(r) <==> Cures(p, e, stored, ResumeReruns(p, e, stored)))
  {
    hide Good, Trail, Ended, ValidPlan, ResumeSession, ResumeReruns, Describes, ReportOk, Cures, NoStale, Reload;
    FreshExactlyWhen(p, e, stored);
    ResumeTrail(p, e, stored);
    var s := ResumeSession(p, e, stored);
    TrailGood(p.dag, Reload(p.dag, e, stored).(run := RunningRun), s.state);
    if !s.aborted {
      ReportExact(p, s.state.core, ids, r);
    }
  }

  /** A resume that is barred from starting anything has a report exactly when it rejects nothing. */
  lemma BarredReport(p: Plan, e: Env, stored: Core, ids: seq<nat>, r: RunReport)
    requires ValidPlan(p) && Good(p.dag, stored) && EntryOf(p, e, stored).Barred?
    requires Describes(p, ResumeSession(p, e, stored).state.core, ids, r)
    ensures !ResumeSession(p, e, stored).aborted && (ReportOk(r) <==> NothingRejected(p.dag, e, stored))
  {
    hide Good, ValidPlan, ResumeSession, Describes, ReportOk, Rejected, EntryOf;
    ReportExactlyWhen(p, e, stored, ids, r);
    assert ResumeReruns(p, e, stored) == Rerun({}, false);
  }

  /**
    When it is certain that no report exists: a success is rejected, and a recorded failure or cancellation,
    or an open attempt that does not reconcile as a success, bars every start.
  */
  lemma RejectedSuccessHasNoReport(p: Plan, e: Env, stored: Core, t: TaskId, ids: seq<nat>, r: RunReport)
    requires ValidPlan(p) && Good(p.dag, stored) && Rejected(p.dag, e, stored, t)
    requires EndedBadly(stored.results) || exists u :: Unsettled(p, e, stored, u)
    requires Describes(p, ResumeSession(p, e, stored).state.core, ids, r)
    ensures !ResumeSession(p, e, stored).aborted && !ReportOk(r)
  {
    hide Good, ValidPlan, ResumeSession, Describes, ReportOk, Rejected, Settles, Reload, Cures;
    BarredWhen(p, e, stored);
    ReportExactlyWhen(p, e, stored, ids, r);
    assert t !in ResumeReruns(p, e, stored).started;
    NotCured(p, e, stored, t);
  }

  lemma NotCured(p: Plan, e: Env, stored: Core, t: TaskId)
    requires Rejected(p.dag, e, stored, t) && t !in ResumeReruns(p, e, stored).started
    ensures !Cures(p, e, stored, ResumeReruns(p, e, stored))
  {
    hide Rejected, ResumeReruns;
  }

  /** An open attempt that does not reconcile as a success. */
  ghost predicate Unsettled(p: Plan, e: Env, stored: Core, u: TaskId) {
    u in stored.results && stored.results[u].status == Running && Settles(p, e, stored, u) != Some(Success)
  }

  /** A resume is barred from starting anything exactly by a bad end on record or an unsettled attempt. */
  lemma BarredWhen(p: Plan, e: Env, stored: Core)
    requires ValidPlan(p) && Good(p.dag, stored)
    ensures EntryOf(p, e, stored) == Barred
       <==> EndedBadly(stored.results) || exists u :: Unsettled(p, e, stored, u)
  {
    hide Good, ValidPlan, Settles, Reload, EndedBadly, OpenAttempt;
    OpenAttemptFound(p, e, stored);
    forall u
      ensures OpenAttempt(p, stored.results, 0) == Some(u)
         <==> u in stored.results && stored.results[u].status == Running
    {
      ReloadOpen(p.dag, e, stored, u);
    }
    match OpenAttempt(p, stored.results, 0)
    case None =>
      assert forall u :: OpenAttempt(p, stored.results, 0) != Some(u);
    case Some(u) =>
      assert Unsettled(p, e, stored, u) <==> Settles(p, e, stored, u) != Some(Success);
  }

  // ---- Whatever the executor does ----

  /** With this executor the resume ends in an exception, or cures every rejected success. */
  ghost predicate CuredBy(p: Plan, e: Env, stored: Core, exec: (TaskId, nat) -> Outcome) {
    var more := ResumeReruns(p, e.(exec := exec), stored);
    more.aborted || Cures(p, e, stored, more)
  }

  /** The task a resume starts first. */
  function FirstStarted(p: Plan, e: Env, stored: Core): Option<TaskId> {
    match EntryOf(p, e, stored)
    case Barred => None
    case From(status, _) => T.FirstReady(p, status, |p.order|)
  }

  /**
    A report is certain, whatever the executor does, exactly when no success is rejected but the one whose task
    the resume starts first; with a second one, an executor that raises at the first task leaves it stale.
  */
  lemma ReportIsCertain(p: Plan, e: Env, stored: Core)
    ensures (forall exec :: CuredBy(p, e, stored, exec))
       <==> forall t :: Rejected(p.dag, e, stored, t) ==> FirstStarted(p, e, stored) == Some(t)
  {
    hide EntryOf, Rejected, Verdict, T.FirstReady;
    if forall t :: Rejected(p.dag, e, stored, t) ==> FirstStarted(p, e, stored) == Some(t) {
      forall exec: (TaskId, nat) -> Outcome
        ensures CuredBy(p, e, stored, exec)
      {
        EntrySame(p, e, stored, exec);
      }
    } else {
      var t :| Rejected(p.dag, e, stored, t) && FirstStarted(p, e, stored) != Some(t);
      var exec := (u: TaskId, a: nat) => Exception;
      EntrySame(p, e, stored, exec);
      FailingStarts(p, e, stored, exec);
      assert !CuredBy(p, e, stored, exec);
    }
  }

  lemma EntrySame(p: Plan, e: Env, stored: Core, exec: (TaskId, nat) -> Outcome)
    ensures EntryOf(p, e.(exec := exec), stored) == EntryOf(p, e, stored)
    ensures FirstStarted(p, e.(exec := exec), stored) == FirstStarted(p, e, stored)
  {
    hide Validate, Satisfies;
  }

  lemma FailingStarts(p: Plan, e: Env, stored: Core, exec: (TaskId, nat) -> Outcome)
    requires forall u, a :: exec(u, a) == Exception
    ensures ResumeReruns(p, e.(exec := exec), stored)
         == Rerun(if FirstStarted(p, e, stored).Some? then {FirstStarted(p, e, stored).value} else {}, false)
  {
    EntrySame(p, e, stored, exec);
    hide EntryOf, T.FirstReady;
  }

  // ---- When executors agree on verdicts ----

  /** What executing a task leads to does not depend on the attempt, and is no engine error. */
  ghost predicate Agrees(dag: Dag, e: Env, verdict: TaskId -> Status) {
    forall t, a :: t in dag.tasks ==> Verdict(dag, t, e.exec(t, a)) == Some(verdict(t))
  }

  /** The tasks started are those whose final status says that they ran. */
  lemma {:induction false} RerunsAreTheFuture(
    p: Plan, e: Env, verdict: TaskId -> Status, st: T.StatusMap, supply: nat, t: TaskId)
    requires Agrees(p.dag, e, verdict) && t in st && st[t] == Pending && t in p.dag.tasks && !Starved(p.dag.tasks[t])
    ensures t in T.Future(p, verdict, st)
    ensures t in Reruns(p, e, st, supply).started <==> T.Future(p, verdict, st)[t] in {Success, Failed}
    decreases T.PendingIn(st)
  {
    hide T.FirstReady, T.FirstStarved, Verdict, Starved;
    T.FutureKeeps(p, verdict, st, t);
    match T.FirstReady(p, st, |p.order|)
    case None =>
    case Some(u) =>
      assert u in T.PendingIn(st) && T.PendingIn(st[u := Success]) == T.PendingIn(st) - {u};
      var out := e.exec(u, supply + 1);
      assert Verdict(p.dag, u, out) == Some(verdict(u));
      if verdict(u) == Success {
        T.FutureKeeps(p, verdict, st[u := Success], u);
        if t != u {
          RerunsAreTheFuture(p, e, verdict, st[u := Success], supply + 3 + IdsDrawn(out), t);
        }
      }
  }

  /** With agreed verdicts only a cancelled task can leave the loop by an exception. */
  lemma {:induction false} AbortsByVerdict(p: Plan, e: Env, verdict: TaskId -> Status, st: T.StatusMap, supply: nat)
    requires Agrees(p.dag, e, verdict)
    ensures var more := Reruns(p, e, st, supply);
            more.aborted <==> exists t :: t in more.started && verdict(t) == Cancelled
    decreases T.PendingIn(st)
  {
    hide T.FirstReady, Verdict;
    match T.FirstReady(p, st, |p.order|)
    case None =>
    case Some(u) =>
      assert u in T.PendingIn(st) && T.PendingIn(st[u := Success]) == T.PendingIn(st) - {u};
      var out := e.exec(u, supply + 1);
      assert Verdict(p.dag, u, out) == Some(verdict(u));
      if verdict(u) == Success {
        AbortsByVerdict(p, e, verdict, st[u := Success], supply + 3 + IdsDrawn(out));
      } else {
        assert u in Reruns(p, e, st, supply).started;
      }
  }

  lemma RejectedRan(dag: Dag, e: Env, stored: Core, t: TaskId)
    requires Good(dag, stored) && Rejected(dag, e, stored, t)
    ensures t in dag.tasks && !Starved(dag.tasks[t])
    ensures t in Reload(dag, e, stored).status && Reload(dag, e, stored).status[t] == Pending
  {
    StaleParts(dag, stored);
    hide Good, Satisfies;
  }

  lemma RejectedIsPending(p: Plan, e: Env, stored: Core, t: TaskId)
    requires ValidPlan(p) && Good(p.dag, stored) && Rejected(p.dag, e, stored, t) && EntryOf(p, e, stored).From?
    ensures t in p.dag.tasks && !Starved(p.dag.tasks[t])
    ensures var status := EntryOf(p, e, stored).status; t in status && status[t] == Pending
  {
    hide Good, ValidPlan, Rejected, Settles, Reload, Starved;
    RejectedRan(p.dag, e, stored, t);
    OpenAttemptFound(p, e, stored);
    assert OpenAttempt(p, stored.results, 0) != Some(t);
  }

  /**
    With agreed verdicts: unless a task it starts is cancelled, the report of a resume is accepted exactly when
    the future has every rejected success run again.
  */
  lemma ReportFollowsVerdicts(p: Plan, e: Env, verdict: TaskId -> Status, stored: Core, ids: seq<nat>, r: RunReport)
    requires ValidPlan(p) && Good(p.dag, stored) && Agrees(p.dag, e, verdict) && EntryOf(p, e, stored).From?
    requires Describes(p, ResumeSession(p, e, stored).state.core, ids, r)
    ensures var end := T.Future(p, verdict, EntryOf(p, e, stored).status);
            var aborted := exists t :: t in ResumeReruns(p, e, stored).started && verdict(t) == Cancelled;
            && ResumeSession(p, e, stored).aborted == aborted
            && (!aborted ==>
                 (ReportOk(r) <==>
                  forall t :: Rejected(p.dag, e, stored, t) ==> t in end && end[t] in {Success, Failed}))
  {
    hide Good, ValidPlan, ResumeSession, Describes, ReportOk, Rejected, EntryOf, Reruns, T.Future, Agrees, Starved;
    var at := EntryOf(p, e, stored);
    ReportExactlyWhen(p, e, stored, ids, r);
    AbortsByVerdict(p, e, verdict, at.status, at.supply);
    forall t | Rejected(p.dag, e, stored, t)
      ensures var end := T.Future(p, verdict, at.status);
              t in end && (t in Reruns(p, e, at.status, at.supply).started <==> end[t] in {Success, Failed})
    {
      RejectedIsPending(p, e, stored, t);
      RerunsAreTheFuture(p, e, verdict, at.status, at.supply, t);
    }
  }
}
