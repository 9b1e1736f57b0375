/** Crashing and resuming any number of times does not change where a run ends. */
module Transparency {
  import opened Model
  import opened Artifacts
  import opened Machine
  import opened InputResolver
  import opened Invariants
  import opened Scheduling
  import opened Sessions
  import opened Runs
  import opened Chains
  import opened Verdicts

  type StatusMap = map<TaskId, Status>

  // ---- What remains to happen, as a function of statuses and verdicts alone ----

  predicate StatusDeps(dag: Dag, st: StatusMap, t: TaskId)
    requires t in dag.tasks
  {
    forall d :: d in dag.tasks[t].deps ==> d in st && st[d] == Success
  }

  predicate StatusOpen(dag: Dag, st: StatusMap, t: TaskId, starved: bool) {
    t in dag.tasks && t in st && st[t] == Pending && StatusDeps(dag, st, t) && Starved(dag.tasks[t]) == starved
  }

  function FirstReady(p: Plan, st: StatusMap, n: nat): (r: Option<TaskId>)
    requires n <= |p.order|
    ensures r.Some? ==> StatusOpen(p.dag, st, r.value, false)
  {
    if n == 0 then None
    else
      var before := FirstReady(p, st, n - 1);
      if before.Some? then before
      else if StatusOpen(p.dag, st, p.order[n - 1], false) then Some(p.order[n - 1])
      else None
  }

  function FirstStarved(p: Plan, st: StatusMap, i: nat): (r: Option<TaskId>)
    requires i <= |p.order|
    ensures r.Some? ==> StatusOpen(p.dag, st, r.value, true)
    decreases |p.order| - i
  {
    if i == |p.order| then None
    else if StatusOpen(p.dag, st, p.order[i], true) then Some(p.order[i])
    else FirstStarved(p, st, i + 1)
  }

  function SkipAll(st: StatusMap): StatusMap {
    map t | t in st :: if st[t] == Pending then Skipped else st[t]
  }

  function PendingIn(st: StatusMap): set<TaskId> {
    set t | t in st && st[t] == Pending
  }

  /** The final statuses of a run that has reached `st` without a failure. */
  function Future(p: Plan, verdict: TaskId -> Status, st: StatusMap): StatusMap
    decreases PendingIn(st)
  {
    match FirstReady(p, st, |p.order|)
    case None =>
      (match FirstStarved(p, st, 0)
       case None => st
       case Some(t) => SkipAll(st[t := Failed]))
    case Some(t) =>
      assert t in PendingIn(st) && PendingIn(st[t := Success]) == PendingIn(st) - {t};
      if verdict(t) == Success then Future(p, verdict, st[t := Success]) else SkipAll(st[t := Failed])
  }

  lemma {:induction false} FutureKeeps(p: Plan, verdict: TaskId -> Status, st: StatusMap, t: TaskId)
    requires t in st
    ensures t in Future(p, verdict, st) && (st[t] != Pending ==> Future(p, verdict, st)[t] == st[t])
    decreases PendingIn(st)
  {
    hide FirstReady, FirstStarved;
    match FirstReady(p, st, |p.order|)
    case None =>
    case Some(u) =>
      assert u in PendingIn(st) && PendingIn(st[u := Success]) == PendingIn(st) - {u};
      FutureKeeps(p, verdict, st[u := Success], t);
  }

  lemma OpenAgrees(dag: Dag, c: Core, t: TaskId)
    requires StaticInputs(dag) && Shape(dag, c)
    ensures Dispatchable(dag, c, t) <==> StatusOpen(dag, c.status, t, false)
    ensures InputBlocked(dag, c, t) <==> StatusOpen(dag, c.status, t, true)
  {
    if t in dag.tasks {
      DepsAgree(dag, c, t);
      if DepsDone(dag, c, t) {
        StaticReady(dag, c, t);
      }
    }
  }

  lemma DepsAgree(dag: Dag, c: Core, t: TaskId)
    requires Shape(dag, c) && t in dag.tasks
    ensures DepsDone(dag, c, t) <==> StatusDeps(dag, c.status, t)
  {
  }

  lemma {:induction false} ReadyAgrees(p: Plan, c: Core, n: nat)
    requires n <= |p.order|
    requires forall t :: Dispatchable(p.dag, c, t) <==> StatusOpen(p.dag, c.status, t, false)
    ensures match FirstReady(p, c.status, n)
            case None => ReadyIds(p, c, n) == []
            case Some(t) => ReadyIds(p, c, n) != [] && ReadyIds(p, c, n)[0] == t
  {
    hide Dispatchable, StatusOpen;
    if n > 0 {
      ReadyAgrees(p, c, n - 1);
    }
  }

  lemma {:induction false} StarvedAgrees(p: Plan, c: Core, i: nat)
    requires i <= |p.order|
    requires forall t :: InputBlocked(p.dag, c, t) <==> StatusOpen(p.dag, c.status, t, true)
    ensures FirstBlocked(p, c, i) == FirstStarved(p, c.status, i)
    decreases |p.order| - i
  {
    hide InputBlocked, StatusOpen;
    if i < |p.order| {
      StarvedAgrees(p, c, i + 1);
    }
  }

  lemma ChoicesAgree(p: Plan, c0: Core, s: State)
    requires ValidPlan(p) && Trail(p.dag, c0, s)
    ensures match FirstReady(p, s.core.status, |p.order|)
            case None => ReadyIds(p, s.core, |p.order|) == []
            case Some(t) => ReadyIds(p, s.core, |p.order|) != [] && ReadyIds(p, s.core, |p.order|)[0] == t
    ensures FirstBlocked(p, s.core, 0) == FirstStarved(p, s.core.status, 0)
  {
    hide Good, Trail, Shape, Dispatchable, InputBlocked, StatusOpen, Exclusive;
    TrailGood(p.dag, c0, s);
    ShapeOf(p.dag, s.core);
    forall t
      ensures Dispatchable(p.dag, s.core, t) <==> StatusOpen(p.dag, s.core.status, t, false)
      ensures InputBlocked(p.dag, s.core, t) <==> StatusOpen(p.dag, s.core.status, t, true)
    {
      OpenAgrees(p.dag, s.core, t);
    }
    ReadyAgrees(p, s.core, |p.order|);
    StarvedAgrees(p, s.core, 0);
  }

  // ---- Which stored results lead to the goal ----

  /** The statuses a process starts from when every recorded success is still valid. */
  function ResultStatus(dag: Dag, results: map<TaskId, TaskResult>): StatusMap {
    map t | t in dag.tasks :: if t in results then results[t].status else Pending
  }

  ghost predicate AnyWith(results: map<TaskId, TaskResult>, s: Status) {
    exists t :: t in results && results[t].status == s
  }

  /** The statuses once an open attempt has come to its verdict. */
  function Presumed(verdict: TaskId -> Status, st: StatusMap): StatusMap {
    map t | t in st :: if st[t] == Running then verdict(t) else st[t]
  }

  /** Where a run with statuses `st` ends. */
  function Course(p: Plan, verdict: TaskId -> Status, st: StatusMap): StatusMap {
    var settled := Presumed(verdict, st);
    if exists t :: t in settled && settled[t] == Failed then SkipAll(settled) else Future(p, verdict, settled)
  }

  /** Everything a commit must tell a later process for it to end in `goal`. */
  ghost predicate OnCourse(p: Plan, verdict: TaskId -> Status, goal: StatusMap, c: Core) {
    !AnyWith(c.results, Cancelled) && Course(p, verdict, ResultStatus(p.dag, c.results)) == goal
  }

  lemma CalmCourse(p: Plan, verdict: TaskId -> Status, st: StatusMap)
    requires forall t :: t in st ==> st[t] in {Pending, Success}
    ensures Presumed(verdict, st) == st && Course(p, verdict, st) == Future(p, verdict, st)
  {
    hide Future;
    assert Presumed(verdict, st) == st;
  }

  lemma FailedCourse(p: Plan, verdict: TaskId -> Status, st: StatusMap, t: TaskId)
    requires t in st && st[t] == Failed && forall u :: u in st ==> st[u] != Running
    ensures Presumed(verdict, st) == st && Course(p, verdict, st) == SkipAll(st)
  {
    hide Future, SkipAll;
    assert Presumed(verdict, st) == st;
  }

  /** An open attempt is on the course its verdict sets. */
  lemma OpenCourse(p: Plan, verdict: TaskId -> Status, st: StatusMap, t: TaskId)
    requires t in st && st[t] == Running && verdict(t) in {Success, Failed}
    requires forall u :: u in st && u != t ==> st[u] in {Pending, Success}
    ensures Presumed(verdict, st) == st[t := verdict(t)]
    ensures Course(p, verdict, st) == Course(p, verdict, st[t := verdict(t)])
  {
    hide Future, SkipAll;
    assert Presumed(verdict, st) == st[t := verdict(t)];
    assert Presumed(verdict, st[t := verdict(t)]) == st[t := verdict(t)];
  }

  ghost predicate AllOnCourse(p: Plan, verdict: TaskId -> Status, goal: StatusMap, c0: Core, s: State) {
    && s.core == Exec(p.dag, c0, s.log)
    && forall k :: 0 <= k <= |s.log| ==> OnCourse(p, verdict, goal, Exec(p.dag, c0, s.log[..k]))
  }

  lemma DoOnCourse(p: Plan, verdict: TaskId -> Status, goal: StatusMap, c0: Core, s: State, l: Label)
    requires AllOnCourse(p, verdict, goal, c0, s) && OnCourse(p, verdict, goal, Do(p.dag, s, l).core)
    ensures AllOnCourse(p, verdict, goal, c0, Do(p.dag, s, l))
  {
    hide OnCourse, Apply;
    RunsAppend(p.dag, c0, s.log, l);
    var s' := Do(p.dag, s, l);
    forall k | 0 <= k <= |s'.log|
      ensures OnCourse(p, verdict, goal, Exec(p.dag, c0, s'.log[..k]))
    {
      if k <= |s.log| {
        assert s'.log[..k] == s.log[..k];
      } else {
        assert s'.log[..k] == s'.log;
      }
    }
  }

  lemma NowOnCourse(p: Plan, verdict: TaskId -> Status, goal: StatusMap, c0: Core, s: State)
    requires AllOnCourse(p, verdict, goal, c0, s)
    ensures OnCourse(p, verdict, goal, s.core)
  {
    hide OnCourse;
    assert s.log[..|s.log|] == s.log;
  }

  /** Labels that leave results alone leave the course alone. */
  lemma QuietOnCourse(p: Plan, verdict: TaskId -> Status, goal: StatusMap, c0: Core, s: State, l: Label)
    requires AllOnCourse(p, verdict, goal, c0, s) && !l.Start? && !l.Close? && !l.Block?
    ensures AllOnCourse(p, verdict, goal, c0, Do(p.dag, s, l))
  {
    NowOnCourse(p, verdict, goal, c0, s);
    SameCourse(p, verdict, goal, s.core, Do(p.dag, s, l).core);
    hide AllOnCourse, OnCourse;
    DoOnCourse(p, verdict, goal, c0, s, l);
  }

  lemma SameCourse(p: Plan, verdict: TaskId -> Status, goal: StatusMap, c: Core, c': Core)
    requires c.results == c'.results && OnCourse(p, verdict, goal, c)
    ensures OnCourse(p, verdict, goal, c')
  {
  }

  lemma {:induction false} SweepOnCourse(p: Plan, verdict: TaskId -> Status, goal: StatusMap, c0: Core, s: State,
      f: TaskId, i: nat)
    requires i <= |p.order| && AllOnCourse(p, verdict, goal, c0, s)
    ensures AllOnCourse(p, verdict, goal, c0, SkipSweep(p, s, f, i))
    decreases |p.order| - i
  {
    hide AllOnCourse, Do;
    if i < |p.order| {
      if HitByFailure(p.dag, s.core, p.order[i]) {
        QuietOnCourse(p, verdict, goal, c0, s, Skip(p.order[i], BlockedBy(f)));
        SweepOnCourse(p, verdict, goal, c0, Do(p.dag, s, Skip(p.order[i], BlockedBy(f))), f, i + 1);
      } else {
        SweepOnCourse(p, verdict, goal, c0, s, f, i + 1);
      }
    }
  }

  lemma {:induction false} PropagateOnCourse(p: Plan, verdict: TaskId -> Status, goal: StatusMap, c0: Core, s: State,
      f: TaskId)
    requires AllOnCourse(p, verdict, goal, c0, s)
    ensures AllOnCourse(p, verdict, goal, c0, PropagateSkips(p, s, f))
    decreases Pendings(s.core)
  {
    hide AllOnCourse;
    SweepOnCourse(p, verdict, goal, c0, s, f, 0);
    var s' := SkipSweep(p, s, f, 0);
    if |s'.log| != |s.log| {
      PropagateOnCourse(p, verdict, goal, c0, s', f);
    }
  }

  lemma {:induction false} RemainingOnCourse(p: Plan, verdict: TaskId -> Status, goal: StatusMap, c0: Core, s: State,
      reason: string, i: nat)
    requires i <= |p.order| && AllOnCourse(p, verdict, goal, c0, s)
    ensures AllOnCourse(p, verdict, goal, c0, SkipRemaining(p, s, reason, i))
    decreases |p.order| - i
  {
    hide AllOnCourse, Do;
    if i < |p.order| {
      if Has(s.core, p.order[i], Pending) {
        QuietOnCourse(p, verdict, goal, c0, s, Skip(p.order[i], Reason(reason)));
        RemainingOnCourse(p, verdict, goal, c0, Do(p.dag, s, Skip(p.order[i], Reason(reason))), reason, i + 1);
      } else {
        RemainingOnCourse(p, verdict, goal, c0, s, reason, i + 1);
      }
    }
  }

  lemma {:induction false} RegisterOnCourse(p: Plan, verdict: TaskId -> Status, goal: StatusMap, c0: Core, s: State,
      t: TaskId, cands: seq<Candidate>, ids: seq<nat>, i: nat)
    requires i <= |cands| && AllOnCourse(p, verdict, goal, c0, s)
    ensures AllOnCourse(p, verdict, goal, c0, RegisterAll(p.dag, s, t, cands, ids, i).state)
    decreases |cands| - i
  {
    hide AllOnCourse, Do;
    if i < |cands| && LocationOk(cands[i].location) {
      QuietOnCourse(p, verdict, goal, c0, s, Register(t, cands[i]));
      RegisterOnCourse(p, verdict, goal, c0, Do(p.dag, s, Register(t, cands[i])), t, cands, ids + [s.core.supply],
          i + 1);
    }
  }

  lemma FailFastOnCourse(p: Plan, verdict: TaskId -> Status, goal: StatusMap, c0: Core, s: State, f: TaskId)
    requires AllOnCourse(p, verdict, goal, c0, s)
    ensures AllOnCourse(p, verdict, goal, c0, Finish(p, FailFastFrom(p, s, f)))
  {
    hide AllOnCourse, Do;
    PropagateOnCourse(p, verdict, goal, c0, s, f);
    RemainingOnCourse(p, verdict, goal, c0, PropagateSkips(p, s, f), "fail_fast", 0);
    QuietOnCourse(p, verdict, goal, c0, FailFastFrom(p, s, f), EndRun(FinalStatus(FailFastFrom(p, s, f).core), NoNote));
  }

  lemma AfterStartOnCourse(p: Plan, verdict: TaskId -> Status, goal: StatusMap, c0: Core, s: State, t: TaskId,
      attempts: seq<nat>, prior: Option<TaskResult>, out: Outcome, started: EventId)
    requires t in p.dag.tasks && attempts != [] && AllOnCourse(p, verdict, goal, c0, s)
    requires !AfterStart(p, s, t, attempts, prior, out, started).aborted
    requires OnCourse(p, verdict, goal, AfterStart(p, s, t, attempts, prior, out, started).state.core)
    ensures AllOnCourse(p, verdict, goal, c0, AfterStart(p, s, t, attempts, prior, out, started).state)
  {
    hide AllOnCourse, OnCourse, Do, BuildResult, Conclude, RegisterAll;
    match out
    case EngineError =>
    case Exception =>
      var r := BuildResult(p.dag, t, Failed, attempts, prior, [],
          [Failure("executor_exception", "execution", t, Some(Last(attempts)))], [], None);
      DoOnCourse(p, verdict, goal, c0, s, Close(t, r, s.core.artifacts, Reason("executor_exception"), Some(started)));
    case Outcome(cands, _, _, _, _) =>
      RegisterOnCourse(p, verdict, goal, c0, s, t, cands, [], 0);
      var reg := RegisterAll(p.dag, s, t, cands, [], 0);
      ConcludeOnCourse(p, verdict, goal, c0, reg.state, t, attempts, prior, out, reg.ids, started);
  }

  /** A dispatch stays on course if the result it records does. */
  lemma DispatchOnCourse(p: Plan, verdict: TaskId -> Status, goal: StatusMap, c0: Core, e: Env, s: State, t: TaskId)
    requires t in p.dag.tasks && AllOnCourse(p, verdict, goal, c0, s) && !Dispatch(p, e, s, t).aborted
    requires OnCourse(p, verdict, goal, Do(p.dag, s, Start(t)).core)
    requires OnCourse(p, verdict, goal, Dispatch(p, e, s, t).state.core)
    ensures AllOnCourse(p, verdict, goal, c0, Dispatch(p, e, s, t).state)
  {
    var a := s.core.supply;
    hide AllOnCourse, OnCourse, Do, AfterStart, PriorAttempts, PriorResult;
    DoOnCourse(p, verdict, goal, c0, s, Start(t));
    AfterStartOnCourse(p, verdict, goal, c0, Do(p.dag, s, Start(t)), t, PriorAttempts(s.core, t) + [a],
        PriorResult(s.core, t), e.exec(t, a), FreshId(a + 1));
  }

  /** A task started first in line is on course: what it will do is what was to come. */
  lemma StartedOnCourse(p: Plan, verdict: TaskId -> Status, goal: StatusMap, c: Core, s: State, t: TaskId)
    requires Level(p, verdict, goal, c) && s.core.results == c.results && verdict(t) in {Success, Failed}
    requires forall u :: u in c.results ==> u in p.dag.tasks
    requires FirstReady(p, c.status, |p.order|) == Some(t)
    ensures OnCourse(p, verdict, goal, Do(p.dag, s, Start(t)).core)
  {
    var c' := Do(p.dag, s, Start(t)).core;
    assert c'.results == c.results[t := RunningResult(p.dag, s.core, t, s.core.supply)];
    hide Do, FirstReady;
    var st := c.status[t := Running];
    assert ResultStatus(p.dag, c'.results) == st;
    OpenCourse(p, verdict, st, t);
    assert st[t := verdict(t)] == c.status[t := verdict(t)];
    NextCourse(p, verdict, c.status, t);
    hide Future, SkipAll, Course, Presumed;
    assert forall u :: u in c.results ==> c.results[u].status == c.status[u];
  }

  lemma NextCourse(p: Plan, verdict: TaskId -> Status, st: StatusMap, t: TaskId)
    requires FirstReady(p, st, |p.order|) == Some(t) && verdict(t) in {Success, Failed}
    requires forall u :: u in st ==> st[u] in {Pending, Success}
    ensures Course(p, verdict, st[t := verdict(t)]) == Future(p, verdict, st)
  {
    hide FirstReady, SkipAll, Course;
    if verdict(t) == Success {
      CalmCourse(p, verdict, st[t := Success]);
    } else {
      FailedCourse(p, verdict, st[t := Failed], t);
    }
  }

  lemma ConcludeOnCourse(p: Plan, verdict: TaskId -> Status, goal: StatusMap, c0: Core, s: State, t: TaskId,
      attempts: seq<nat>, prior: Option<TaskResult>, out: Outcome, ids: seq<nat>, started: EventId)
    requires out.Outcome? && attempts != [] && t in p.dag.tasks && AllOnCourse(p, verdict, goal, c0, s)
    requires OnCourse(p, verdict, goal, Conclude(p, s, t, attempts, prior, out, ids, started).core)
    ensures AllOnCourse(p, verdict, goal, c0, Conclude(p, s, t, attempts, prior, out, ids, started))
  {
    var r := Conclude(p, s, t, attempts, prior, out, ids, started);
    var l := ConcludeIsClose(p, s, t, attempts, prior, out, ids, started);
    hide AllOnCourse, OnCourse, Do, Conclude;
    DoOnCourse(p, verdict, goal, c0, s, l);
  }

  lemma ConcludeIsClose(p: Plan, s: State, t: TaskId, attempts: seq<nat>, prior: Option<TaskResult>, out: Outcome,
      ids: seq<nat>, started: EventId) returns (l: Label)
    requires out.Outcome? && attempts != [] && t in p.dag.tasks
    ensures Conclude(p, s, t, attempts, prior, out, ids, started) == Do(p.dag, s, l)
  {
    hide BuildResult, Validate;
    l := Last(Conclude(p, s, t, attempts, prior, out, ids, started).log);
  }

  // ---- The loop reaches the goal ----

  /** Executors that reach the same verdicts and never abort or cancel. */
  ghost predicate Faithful(dag: Dag, e: Env, verdict: TaskId -> Status) {
    forall t, a :: t in dag.tasks ==>
          Verdict(dag, t, e.exec(t, a)) == Some(verdict(t)) && verdict(t) in {Success, Failed}
  }

  /** What is on record counts: successes are accepted again, and an open attempt reconciles as its verdict. */
  ghost predicate Recovers(p: Plan, verdict: TaskId -> Status, e: Env, stored: Core) {
    && NothingRejected(p.dag, e, stored)
    && forall t :: t in stored.results && stored.results[t].status == Running ==>
          Settles(p, e, stored, t) == Some(verdict(t))
  }

  /** Statuses say exactly what the results say: no failure yet, nothing stale. */
  ghost predicate Level(p: Plan, verdict: TaskId -> Status, goal: StatusMap, c: Core) {
    Calm(c) && c.status == ResultStatus(p.dag, c.results) && Future(p, verdict, c.status) == goal
  }

  /** Two result maps that differ at most at `t`, which the second one has. */
  ghost predicate SameElsewhere(r: map<TaskId, TaskResult>, r': map<TaskId, TaskResult>, t: TaskId) {
    && (forall u :: u in r' <==> u == t || u in r)
    && (forall u :: u in r && u != t ==> r'[u] == r[u])
  }

  lemma ConcludeResults(p: Plan, s: State, t: TaskId, attempts: seq<nat>, prior: Option<TaskResult>, out: Outcome,
      ids: seq<nat>, started: EventId)
    requires out.Outcome? && attempts != [] && t in p.dag.tasks
    ensures SameElsewhere(s.core.results, Conclude(p, s, t, attempts, prior, out, ids, started).core.results, t)
  {
    hide BuildResult, Validate, Do;
  }

  lemma AfterStartResults(p: Plan, s: State, t: TaskId, attempts: seq<nat>, prior: Option<TaskResult>, out: Outcome,
      started: EventId)
    requires t in p.dag.tasks && attempts != [] && !AfterStart(p, s, t, attempts, prior, out, started).aborted
    ensures SameElsewhere(s.core.results, AfterStart(p, s, t, attempts, prior, out, started).state.core.results, t)
  {
    hide BuildResult, Conclude, RegisterAll, Do;
    if out.Outcome? {
      var reg := RegisterAll(p.dag, s, t, out.candidates, [], 0);
      ConcludeResults(p, reg.state, t, attempts, prior, out, reg.ids, started);
    }
  }

  lemma StartResults(dag: Dag, s: State, t: TaskId)
    ensures SameElsewhere(s.core.results, Do(dag, s, Start(t)).core.results, t)
  {
  }

  lemma SameElsewhereTwice(a: map<TaskId, TaskResult>, b: map<TaskId, TaskResult>, c: map<TaskId, TaskResult>,
      t: TaskId)
    requires SameElsewhere(a, b, t) && SameElsewhere(b, c, t)
    ensures SameElsewhere(a, c, t)
  {
  }

  /** A dispatch leaves the results of all other tasks alone. */
  lemma DispatchResults(p: Plan, e: Env, s: State, t: TaskId)
    requires t in p.dag.tasks && !Dispatch(p, e, s, t).aborted
    ensures SameElsewhere(s.core.results, Dispatch(p, e, s, t).state.core.results, t)
  {
    hide Do, AfterStart, SameElsewhere;
    var a := s.core.supply;
    var s1 := Do(p.dag, s, Start(t));
    StartResults(p.dag, s, t);
    AfterStartResults(p, s1, t, PriorAttempts(s.core, t) + [a], PriorResult(s.core, t), e.exec(t, a), FreshId(a + 1));
    SameElsewhereTwice(s.core.results, s1.core.results, Dispatch(p, e, s, t).state.core.results, t);
  }

  lemma ClosedOnCourse(p: Plan, verdict: TaskId -> Status, goal: StatusMap, c: Core, c': Core, t: TaskId,
      status: Status)
    requires Calm(c) && c.status == ResultStatus(p.dag, c.results) && t in p.dag.tasks
    requires forall u :: u in c.results ==> u in p.dag.tasks && c.results[u].status != Pending
    requires status in {Success, Failed} && t in c'.results && c'.results[t].status == status
    requires SameElsewhere(c.results, c'.results, t)
    requires if status == Failed then SkipAll(c.status[t := Failed]) == goal
             else Future(p, verdict, c.status[t := Success]) == goal
    ensures OnCourse(p, verdict, goal, c') && ResultStatus(p.dag, c'.results) == c.status[t := status]
  {
    hide Future, SkipAll, Course, Presumed;
    assert ResultStatus(p.dag, c'.results) == c.status[t := status];
    if status == Failed {
      FailedCourse(p, verdict, c.status[t := Failed], t);
    } else {
      CalmCourse(p, verdict, c.status[t := Success]);
    }
    forall u | u in c'.results
      ensures c'.results[u].status in {Success, Failed} && (u != t ==> c'.results[u].status == Success)
    {
      assert u != t ==> c.status[u] == c.results[u].status;
    }
  }

  lemma SkippedAll(c: Core, c': Core)
    requires OnlyPendingMoved(c, c', Skipped) && NonePending(c')
    ensures c'.status == SkipAll(c.status)
  {
  }

  lemma BlockOnCourse(p: Plan, verdict: TaskId -> Status, goal: StatusMap, c0: Core, s: State, t: TaskId)
    requires ValidPlan(p) && Trail(p.dag, c0, s) && AllOnCourse(p, verdict, goal, c0, s)
    requires Level(p, verdict, goal, s.core)
    requires InputBlocked(p.dag, s.core, t) && SkipAll(s.core.status[t := Failed]) == goal
    ensures AllOnCourse(p, verdict, goal, c0,
        Do(p.dag, s, Block(t, BlockedResult(p.dag, t), Reason("required_input_unavailable"))))
  {
    hide Good, Trail, Future, SkipAll, OnCourse, AllOnCourse, ValidPlan, DepsDone, ResolveReady, Supplied, Do;
    var l := Block(t, BlockedResult(p.dag, t), Reason("required_input_unavailable"));
    TrailDomainResults(p.dag, c0, s);
    BlockResults(p.dag, s, t);
    ClosedOnCourse(p, verdict, goal, s.core, Do(p.dag, s, l).core, t, Failed);
    DoOnCourse(p, verdict, goal, c0, s, l);
  }

  lemma BlockResults(dag: Dag, s: State, t: TaskId)
    ensures var r := Do(dag, s, Block(t, BlockedResult(dag, t), Reason("required_input_unavailable"))).core.results;
            SameElsewhere(s.core.results, r, t) && r[t].status == Failed
  {
  }

  lemma TrailDomainResults(dag: Dag, c0: Core, s: State)
    requires Trail(dag, c0, s)
    ensures forall u :: u in s.core.results ==> u in dag.tasks && s.core.results[u].status != Pending
    ensures Supplied(s.core)
  {
    TrailGood(dag, c0, s);
  }

  /** From a level memory the loop stays on course and ends exactly in the goal. */
  lemma {:induction false} LoopOnCourse(p: Plan, verdict: TaskId -> Status, goal: StatusMap, c0: Core, e: Env, s: State)
    requires ValidPlan(p) && Faithful(p.dag, e, verdict) && Trail(p.dag, c0, s)
    requires AllOnCourse(p, verdict, goal, c0, s) && Level(p, verdict, goal, s.core)
    ensures var r := Loop(p, e, s, false);
            !r.aborted && AllOnCourse(p, verdict, goal, c0, r.state) && r.state.core.status == goal
    decreases Pendings(s.core)
  {
    hide Good, Trail, Do, Dispatch, FailFastFrom, BlockedResult, AllOnCourse, OnCourse, Dispatchable,
        InputBlocked, StatusOpen, Faithful, ValidPlan, TerminalRunStatus, Finish;
    ChoicesAgree(p, c0, s);
    match FirstReady(p, s.core.status, |p.order|)
    case None =>
      match FirstBlocked(p, s.core, 0) {
        case None =>
          FinishOnCourse(p, verdict, goal, c0, s);
        case Some(t) =>
          var s1 := Do(p.dag, s, Block(t, BlockedResult(p.dag, t), Reason("required_input_unavailable")));
          BlockOnCourse(p, verdict, goal, c0, s, t);
          BlockTrail(p, c0, s, t);
          FailFastTrail(p, c0, s1, t);
          FailFastOnCourse(p, verdict, goal, c0, s1, t);
          SkippedAll(s1.core, FailFastFrom(p, s1, t).core);
          FinishStatus(p, FailFastFrom(p, s1, t));
      }
    case Some(t) =>
      RoundOnCourse(p, verdict, goal, c0, e, s, t);
  }

  lemma FinishStatus(p: Plan, s: State)
    ensures Finish(p, s).core.status == s.core.status && Finish(p, s).core.results == s.core.results
  {
  }

  lemma FinishOnCourse(p: Plan, verdict: TaskId -> Status, goal: StatusMap, c0: Core, s: State)
    requires AllOnCourse(p, verdict, goal, c0, s)
    ensures AllOnCourse(p, verdict, goal, c0, Finish(p, s)) && Finish(p, s).core.status == s.core.status
  {
    hide AllOnCourse;
    FinishStatus(p, s);
    QuietOnCourse(p, verdict, goal, c0, s, EndRun(FinalStatus(s.core), NoNote));
  }

  lemma DispatchLevel(p: Plan, verdict: TaskId -> Status, goal: StatusMap, c0: Core, e: Env, s: State, t: TaskId)
    requires ValidPlan(p) && Faithful(p.dag, e, verdict) && Trail(p.dag, c0, s)
    requires AllOnCourse(p, verdict, goal, c0, s) && Level(p, verdict, goal, s.core)
    requires Dispatchable(p.dag, s.core, t) && FirstReady(p, s.core.status, |p.order|) == Some(t)
    ensures var d := Dispatch(p, e, Do(p.dag, s, MakeReady(t)), t);
            && !d.aborted && d.state.core.results[t].status == verdict(t)
            && d.state.core.status == s.core.status[t := verdict(t)]
            && AllOnCourse(p, verdict, goal, c0, d.state)
            && (verdict(t) == Success ==> Level(p, verdict, goal, d.state.core))
            && (verdict(t) == Failed ==> SkipAll(d.state.core.status) == goal)
  {
    hide Good, Trail, Dispatch, AllOnCourse, OnCourse, Supplied, Verdict, ResolveReady, ValidPlan, FirstReady, Course;
    var s1 := Do(p.dag, s, MakeReady(t));
    QuietOnCourse(p, verdict, goal, c0, s, MakeReady(t));
    ReadyTrail(p, c0, s, t);
    TrailDomainResults(p.dag, c0, s);
    TrailDomainResults(p.dag, c0, s1);
    assert s1.core.status == s.core.status[t := Ready] && s1.core.results == s.core.results;
    FaithfulVerdict(p.dag, e, verdict, t);
    StartedOnCourse(p, verdict, goal, s.core, s1, t);
    hide Do;
    DispatchVerdict(p, e, s1, t);
    var d := Dispatch(p, e, s1, t);
    assert d.state.core.status == s.core.status[t := verdict(t)];
    DispatchResults(p, e, s1, t);
    ClosedOnCourse(p, verdict, goal, s.core, d.state.core, t, verdict(t));
    DispatchOnCourse(p, verdict, goal, c0, e, s1, t);
  }

  lemma {:induction false} RoundOnCourse(p: Plan, verdict: TaskId -> Status, goal: StatusMap, c0: Core, e: Env,
      s: State, t: TaskId)
    requires ValidPlan(p) && Faithful(p.dag, e, verdict) && Trail(p.dag, c0, s)
    requires AllOnCourse(p, verdict, goal, c0, s) && Level(p, verdict, goal, s.core)
    requires FirstReady(p, s.core.status, |p.order|) == Some(t)
    requires ReadyIds(p, s.core, |p.order|) != [] && ReadyIds(p, s.core, |p.order|)[0] == t
    ensures var r := Loop(p, e, s, false);
            !r.aborted && AllOnCourse(p, verdict, goal, c0, r.state) && r.state.core.status == goal
    decreases Pendings(s.core), 0
  {
    hide Good, Trail, Do, Dispatch, Finish, FailFastFrom, AllOnCourse, OnCourse, Future, SkipAll, ValidPlan,
        FirstReady, TerminalRunStatus;
    var s1 := Do(p.dag, s, MakeReady(t));
    DispatchLevel(p, verdict, goal, c0, e, s, t);
    ReadyTrail(p, c0, s, t);
    DispatchTrail(p, e, c0, s1, t);
    var d := Dispatch(p, e, s1, t);
    assert t in Pendings(s.core);
    FaithfulVerdict(p.dag, e, verdict, t);
    if verdict(t) == Success {
      assert Pendings(d.state.core) == Pendings(s.core) - {t};
      LoopOnCourse(p, verdict, goal, c0, e, d.state);
    } else {
      CalmAfter(s.core, d.state.core, t, Failed);
      FailFastTrail(p, c0, d.state, t);
      FailFastOnCourse(p, verdict, goal, c0, d.state, t);
      SkippedAll(d.state.core, FailFastFrom(p, d.state, t).core);
      FinishStatus(p, FailFastFrom(p, d.state, t));
      EmptyReady(p, FailFastFrom(p, d.state, t).core);
    }
  }

  lemma FaithfulVerdict(dag: Dag, e: Env, verdict: TaskId -> Status, t: TaskId)
    requires Faithful(dag, e, verdict) && t in dag.tasks
    ensures verdict(t) in {Success, Failed}
  {
    assert Verdict(dag, t, e.exec(t, 0)) == Some(verdict(t));
  }

  // ---- Whole processes and chains ----

  lemma OpeningOnCourse(p: Plan, verdict: TaskId -> Status, goal: StatusMap, c: Core)
    requires OnCourse(p, verdict, goal, c)
    ensures AllOnCourse(p, verdict, goal, c.(run := RunningRun), Opening(p, c))
    ensures Opening(p, c).core.results == c.results && Opening(p, c).core.status == c.status
  {
    hide OnCourse, AllOnCourse, Apply;
    var c0 := c.(run := RunningRun);
    SameCourse(p, verdict, goal, c, c0);
    BaseOnCourse(p, verdict, goal, c0);
    QuietOnCourse(p, verdict, goal, c0, State(c0, []), RunStart);
    RunStartKeeps(p.dag, c0);
  }

  lemma RunStartKeeps(dag: Dag, c: Core)
    ensures Apply(dag, c, RunStart).results == c.results && Apply(dag, c, RunStart).status == c.status
  {
  }

  lemma BaseOnCourse(p: Plan, verdict: TaskId -> Status, goal: StatusMap, c0: Core)
    requires OnCourse(p, verdict, goal, c0)
    ensures AllOnCourse(p, verdict, goal, c0, State(c0, []))
  {
    hide OnCourse;
  }

  lemma LevelSession(p: Plan, verdict: TaskId -> Status, goal: StatusMap, e: Env, c: Core)
    requires ValidPlan(p) && Faithful(p.dag, e, verdict) && Good(p.dag, c)
    requires OnCourse(p, verdict, goal, c) && Level(p, verdict, goal, c)
    ensures var r := Session(p, e, c, false);
            !r.aborted && AllOnCourse(p, verdict, goal, c.(run := RunningRun), r.state) && r.state.core.status == goal
  {
    hide Good, Trail, OnCourse, AllOnCourse, Opening, Loop, Future, IndeterminateIds, ValidPlan, Faithful,
        SkipRemaining;
    OpeningTrail(p, c);
    OpeningOnCourse(p, verdict, goal, c);
    var s := Opening(p, c);
    var c0 := c.(run := RunningRun);
    IndeterminateTrail(p, c0, s);
    assert IndeterminateIds(p, s.core, |p.order|) == [];
    assert !AnyDoomed(s.core);
    LoopOnCourse(p, verdict, goal, c0, e, s);
  }

  /** With nothing rejected, a reload takes every recorded status as it stands. */
  lemma ReloadStatus(dag: Dag, e: Env, c: Core)
    requires Good(dag, c) && NothingRejected(dag, e, c)
    ensures Reload(dag, e, c).status == ResultStatus(dag, c.results)
  {
    ResultKinds(dag, c);
    hide Good, Satisfies;
    forall t | t in dag.tasks
      ensures ResumedStatus(dag, e, c, t) == if t in c.results then c.results[t].status else Pending
    {
      assert !Rejected(dag, e, c, t);
    }
    hide ResumedStatus, NothingRejected;
  }

  lemma FailedSession(p: Plan, verdict: TaskId -> Status, goal: StatusMap, e: Env, c: Core)
    requires ValidPlan(p) && Good(p.dag, c) && OnCourse(p, verdict, goal, c)
    requires (exists t :: t in c.status && c.status[t] == Failed) && forall t :: t in c.status ==>
          c.status[t] !in {Ready, Running}
    requires SkipAll(c.status) == goal
    ensures var r := Session(p, e, c, false);
            !r.aborted && AllOnCourse(p, verdict, goal, c.(run := RunningRun), r.state) && r.state.core.status == goal
  {
    hide Good, Trail, OnCourse, AllOnCourse, Opening, Loop, SkipAll, IndeterminateIds, Finish, Do;
    OpeningTrail(p, c);
    OpeningOnCourse(p, verdict, goal, c);
    var s := Opening(p, c);
    var c0 := c.(run := RunningRun);
    IndeterminateTrail(p, c0, s);
    assert IndeterminateIds(p, s.core, |p.order|) == [];
    var t :| t in c.status && c.status[t] == Failed;
    assert Doomed(s.core.status[t]);
    hide SkipRemaining, ValidPlan;
    FailedSkips(p, verdict, goal, e, c0, s);
  }

  lemma FailedSkips(p: Plan, verdict: TaskId -> Status, goal: StatusMap, e: Env, c0: Core, s: State)
    requires ValidPlan(p) && Trail(p.dag, c0, s) && AllOnCourse(p, verdict, goal, c0, s) && Idle(s.core)
    requires SomeDoomed(s.core)
    requires SkipAll(s.core.status) == goal
    ensures var r := Loop(p, e, SkipRemaining(p, s, "prior_terminal_state", 0), false);
            !r.aborted && AllOnCourse(p, verdict, goal, c0, r.state) && r.state.core.status == goal
  {
    hide Good, Trail, AllOnCourse, Loop, SkipAll, Finish, SkipRemaining, ValidPlan;
    SkipRemainingTrail(p, c0, s, "prior_terminal_state", 0);
    RemainingOnCourse(p, verdict, goal, c0, s, "prior_terminal_state", 0);
    var s1 := SkipRemaining(p, s, "prior_terminal_state", 0);
    TrailDomain(p.dag, c0, s1);
    SkippedEverything(p, s.core, s1.core);
    LoopIsFinish(p, e, s1);
    FinishOnCourse(p, verdict, goal, c0, s1);
  }

  lemma SkippedEverything(p: Plan, c: Core, c': Core)
    requires ValidPlan(p) && OnlyPendingMoved(c, c', Skipped) && c'.status.Keys == p.dag.tasks.Keys
    requires forall t :: t in p.order[0..] ==> !Has(c', t, Pending)
    ensures c'.status == SkipAll(c.status) && NonePending(c')
  {
    assert p.order[0..] == p.order;
  }

  lemma LoopIsFinish(p: Plan, e: Env, s: State)
    requires ValidPlan(p) && NonePending(s.core)
    ensures Loop(p, e, s, false) == Step(Finish(p, s), false)
  {
    EmptyReady(p, s.core);
  }

  /** The statuses every uncancelled run with these verdicts ends in. */
  function Goal(p: Plan, verdict: TaskId -> Status): StatusMap {
    Future(p, verdict, Init(p).status)
  }

  lemma InitOnCourse(p: Plan, verdict: TaskId -> Status)
    ensures OnCourse(p, verdict, Goal(p, verdict), Init(p)) && Level(p, verdict, Goal(p, verdict), Init(p))
  {
    assert Init(p).status == ResultStatus(p.dag, Init(p).results);
    CalmCourse(p, verdict, Init(p).status);
    hide Future, Course;
  }

  lemma BeginOnCourse(p: Plan, verdict: TaskId -> Status, e: Env)
    requires ValidPlan(p) && Faithful(p.dag, e, verdict)
    ensures var r := BeginSession(p, e, false);
            && !r.aborted && r.state.core.status == Goal(p, verdict)
            && AllOnCourse(p, verdict, Goal(p, verdict), Init(p).(run := RunningRun), r.state)
    ensures OnCourse(p, verdict, Goal(p, verdict), Init(p))
  {
    hide Good, Session, Goal, OnCourse, AllOnCourse, Level, Init, ValidPlan, Faithful;
    InitGood(p);
    InitOnCourse(p, verdict);
    LevelSession(p, verdict, Goal(p, verdict), e, Init(p));
  }

  lemma ResultKinds(dag: Dag, c: Core)
    requires Good(dag, c)
    ensures forall t :: t in c.results ==>
          t in dag.tasks && c.results[t].status in {Success, Running, Failed, Cancelled}
  {
  }

  lemma ReloadOnCourse(p: Plan, verdict: TaskId -> Status, goal: StatusMap, e: Env, stored: Core)
    requires Good(p.dag, stored) && NothingRejected(p.dag, e, stored) && OnCourse(p, verdict, goal, stored)
    ensures var c := Reload(p.dag, e, stored);
            && OnCourse(p, verdict, goal, c) && c.status == ResultStatus(p.dag, c.results)
            && c.results == stored.results && c.artifacts == stored.artifacts
  {
    ReloadStatus(p.dag, e, stored);
    ReloadRecord(p.dag, e, stored);
    SameCourse(p, verdict, goal, stored, Reload(p.dag, e, stored));
    hide Good, OnCourse, Reload, NothingRejected;
  }

  lemma ReloadRecord(dag: Dag, e: Env, c: Core)
    ensures Reload(dag, e, c).results == c.results && Reload(dag, e, c).artifacts == c.artifacts
  {
  }

  /** Memory whose statuses are those of its results, with at most one of them other than pending or successful. */
  ghost predicate Even(dag: Dag, c: Core) {
    && c.status == ResultStatus(dag, c.results)
    && (forall t :: t in c.status ==> c.status[t] in {Pending, Success, Running, Failed})
    && (forall t, u :: t in c.status && u in c.status && t != u && c.status[t] !in {Pending, Success} ==>
          c.status[u] in {Pending, Success})
  }

  lemma EvenMemory(dag: Dag, c: Core)
    requires Good(dag, c) && c.status == ResultStatus(dag, c.results) && !AnyWith(c.results, Cancelled)
    ensures Even(dag, c)
  {
    ResultKinds(dag, c);
    ShapeOf(dag, c);
    hide Good, Shape;
    forall t | t in c.status
      ensures c.status[t] in {Pending, Success, Running, Failed}
    {
      assert t in c.results ==> c.status[t] == c.results[t].status;
    }
  }

  lemma FailedEven(p: Plan, verdict: TaskId -> Status, goal: StatusMap, c: Core, t: TaskId)
    requires Even(p.dag, c) && OnCourse(p, verdict, goal, c) && Has(c, t, Failed)
    ensures SkipAll(c.status) == goal && forall u :: u in c.status ==> c.status[u] !in {Ready, Running}
  {
    FailedCourse(p, verdict, c.status, t);
    hide Course, SkipAll;
  }

  lemma CalmEven(p: Plan, verdict: TaskId -> Status, goal: StatusMap, c: Core)
    requires Even(p.dag, c) && OnCourse(p, verdict, goal, c) && forall t :: !Has(c, t, Failed) && !Has(c, t, Running)
    ensures Level(p, verdict, goal, c)
  {
    forall t | t in c.status
      ensures c.status[t] in {Pending, Success}
    {
      assert !Has(c, t, Failed) && !Has(c, t, Running);
    }
    CalmCourse(p, verdict, c.status);
    hide Course, Future;
  }

  /** Closing the open attempt with its verdict keeps the course. */
  lemma SettledOnCourse(p: Plan, verdict: TaskId -> Status, goal: StatusMap, s: State, t: TaskId, r: TaskResult,
      arts: seq<Artifact>, note: Note)
    requires Even(p.dag, s.core) && OnCourse(p, verdict, goal, s.core) && Has(s.core, t, Running)
    requires r.taskId == t && r.status == verdict(t) && verdict(t) in {Success, Failed} && t in p.dag.tasks
    ensures var c := CloseWith(p.dag, s, r, arts, note, None).core;
            OnCourse(p, verdict, goal, c) && Even(p.dag, c) && c.status == s.core.status[t := verdict(t)]
  {
    hide CloseWith, Course, ResultStatus, Future, SkipAll;
    OpenCourse(p, verdict, s.core.status, t);
    SettledStatus(p.dag, s.core, r);
  }

  lemma SettledStatus(dag: Dag, c: Core, r: TaskResult)
    requires c.status == ResultStatus(dag, c.results) && r.taskId in dag.tasks
    requires r.status != Cancelled && !AnyWith(c.results, Cancelled)
    ensures c.status[r.taskId := r.status] == ResultStatus(dag, c.results[r.taskId := r])
    ensures !AnyWith(c.results[r.taskId := r], Cancelled)
  {
  }

  /** From where the open attempt is settled, the process ends in the goal. */
  lemma SettledGoal(p: Plan, verdict: TaskId -> Status, goal: StatusMap, e: Env, c0: Core, s: State, t: TaskId)
    requires ValidPlan(p) && Faithful(p.dag, e, verdict) && Trail(p.dag, c0, s) && AllOnCourse(p, verdict, goal, c0, s)
    requires Even(p.dag, s.core) && Has(s.core, t, verdict(t)) && verdict(t) in {Success, Failed}
    requires forall u :: u in s.core.status && u != t ==> s.core.status[u] in {Pending, Success}
    ensures var s' := if AnyDoomed(s.core) then SkipRemaining(p, s, "prior_terminal_state", 0) else s;
            var r := Loop(p, e, s', false);
            !r.aborted && AllOnCourse(p, verdict, goal, c0, r.state) && r.state.core.status == goal
  {
    hide Good, Trail, OnCourse, AllOnCourse, Loop, SkipAll, SkipRemaining, ValidPlan, Faithful, Even, Level;
    NowOnCourse(p, verdict, goal, c0, s);
    if verdict(t) == Failed {
      FailedEven(p, verdict, goal, s.core, t);
      assert Doomed(s.core.status[t]);
      FailedSkips(p, verdict, goal, e, c0, s);
    } else {
      CalmEven(p, verdict, goal, s.core);
      assert !AnyDoomed(s.core);
      LoopOnCourse(p, verdict, goal, c0, e, s);
    }
  }

  lemma OpenStandsAlone(dag: Dag, c: Core, t: TaskId)
    requires Good(dag, c) && Even(dag, c) && Has(c, t, Running)
    ensures t in dag.tasks && t in c.results && c.results[t].attempts != [] && Loaded(c)
    ensures forall u :: u in c.status && u != t ==> c.status[u] in {Pending, Success}
  {
    OpenFacts(dag, c, t);
    hide Good;
  }

  /** A process that finds an open attempt and settles it with its verdict. */
  lemma OpenSession(p: Plan, verdict: TaskId -> Status, goal: StatusMap, e: Env, c: Core, t: TaskId)
    requires ValidPlan(p) && Faithful(p.dag, e, verdict) && Good(p.dag, c) && OnCourse(p, verdict, goal, c)
    requires Even(p.dag, c) && Has(c, t, Running) && Settles(p, e, c, t) == Some(verdict(t))
    ensures var r := Session(p, e, c, false);
            !r.aborted && AllOnCourse(p, verdict, goal, c.(run := RunningRun), r.state) && r.state.core.status == goal
  {
    hide Good, Trail, OnCourse, AllOnCourse, Opening, Loop, IndeterminateIds, ValidPlan, Faithful, SkipRemaining, Even,
        ReconcileOne, Reconcile, AnyDoomed, Settles, CloseWith;
    var c0 := c.(run := RunningRun);
    OpenStandsAlone(p.dag, c, t);
    FaithfulVerdict(p.dag, e, verdict, t);
    OpeningTrail(p, c);
    OpeningOnCourse(p, verdict, goal, c);
    var s := Opening(p, c);
    NowOnCourse(p, verdict, goal, c0, s);
    SameEven(p.dag, c, s.core);
    SettlesSame(p, e, c, s.core, t);
    IndeterminateTrail(p, c0, s);
    ReconcileUnfold(p, e, s, [t]);
    ReconcileVerdict(p, e, s, t);
    ReconcileOneTrail(p, e, c0, s, t);
    var r := ReconcileOne(p, e, s, t);
    var result, arts, note :| SettledBy(p, e, s, t, r.state, result, arts, note);
    SettledOnCourse(p, verdict, goal, s, t, result, arts, note);
    CloseOnCourse(p, verdict, goal, c0, s, result, arts, note);
    SettledGoal(p, verdict, goal, e, c0, r.state, t);
  }

  lemma CloseOnCourse(p: Plan, verdict: TaskId -> Status, goal: StatusMap, c0: Core, s: State, r: TaskResult,
      arts: seq<Artifact>, note: Note)
    requires AllOnCourse(p, verdict, goal, c0, s)
    requires OnCourse(p, verdict, goal, CloseWith(p.dag, s, r, arts, note, None).core)
    ensures AllOnCourse(p, verdict, goal, c0, CloseWith(p.dag, s, r, arts, note, None))
  {
    hide OnCourse, AllOnCourse, Do;
    DoOnCourse(p, verdict, goal, c0, s, Close(r.taskId, r, arts, note, None));
  }

  lemma SameEven(dag: Dag, c: Core, c': Core)
    requires c.status == c'.status && c.results == c'.results
    ensures Even(dag, c) <==> Even(dag, c')
  {
  }

  lemma ResumeOnCourse(p: Plan, verdict: TaskId -> Status, goal: StatusMap, e: Env, stored: Core)
    requires ValidPlan(p) && Faithful(p.dag, e, verdict) && Good(p.dag, stored)
    requires OnCourse(p, verdict, goal, stored) && Recovers(p, verdict, e, stored)
    ensures var r := ResumeSession(p, e, stored);
            && !r.aborted && r.state.core.status == goal
            && AllOnCourse(p, verdict, goal, Reload(p.dag, e, stored).(run := RunningRun), r.state)
  {
    hide Good, Session, Reload, OnCourse, AllOnCourse, Level, SkipAll, Faithful, ValidPlan, NothingRejected, Even,
        Settles;
    ReloadGood(p.dag, e, stored);
    ReloadOnCourse(p, verdict, goal, e, stored);
    var c := Reload(p.dag, e, stored);
    OnCourseUncancelled(p, verdict, goal, c);
    EvenMemory(p.dag, c);
    if t :| Has(c, t, Failed) {
      FailedEven(p, verdict, goal, c, t);
      FailedSession(p, verdict, goal, e, c);
    } else if t :| Has(c, t, Running) {
      OpenResult(p.dag, c, t);
      SettlesSame(p, e, stored, c, t);
      OpenSession(p, verdict, goal, e, c, t);
    } else {
      CalmEven(p, verdict, goal, c);
      LevelSession(p, verdict, goal, e, c);
    }
  }

  lemma OnCourseUncancelled(p: Plan, verdict: TaskId -> Status, goal: StatusMap, c: Core)
    requires OnCourse(p, verdict, goal, c)
    ensures !AnyWith(c.results, Cancelled)
  {
  }

  lemma OpenResult(dag: Dag, c: Core, t: TaskId)
    requires Even(dag, c) && Has(c, t, Running)
    ensures t in c.results && c.results[t].status == Running
  {
  }

  /** A history in which every process agrees on the verdicts and every resume takes what it finds at its word. */
  ghost predicate SteadyChain(dag: Dag, verdict: TaskId -> Status, ch: Chain)
    requires ValidChain(dag, ch)
    decreases ch
  {
    match ch
    case Begun(plan, env, cancelled, _) => !cancelled && Faithful(dag, env, verdict)
    case Resumed(prior, lost, order, env, _) =>
      && Faithful(dag, env, verdict) && SteadyChain(dag, verdict, prior)
      && Recovers(Plan(dag, order), verdict, env, Lose(Durable(dag, prior), lost))
  }

  /** Every process scans the tasks in the order of `p`. */
  predicate InOrder(p: Plan, ch: Chain) {
    match ch
    case Begun(plan, _, _, _) => plan.order == p.order
    case Resumed(prior, _, order, _, _) => order == p.order && InOrder(p, prior)
  }

  lemma AfterOnCourse(p: Plan, verdict: TaskId -> Status, goal: StatusMap, stored: Core, c: Core, s: State, k: nat)
    requires k <= |s.log| && OnCourse(p, verdict, goal, stored)
    requires AllOnCourse(p, verdict, goal, c.(run := RunningRun), s)
    ensures OnCourse(p, verdict, goal, After(p.dag, stored, c, s.log, k))
  {
    hide OnCourse;
  }

  lemma LoseOnCourse(p: Plan, verdict: TaskId -> Status, goal: StatusMap, c: Core, lost: nat)
    requires OnCourse(p, verdict, goal, c)
    ensures OnCourse(p, verdict, goal, Lose(c, lost))
    ensures Lose(c, lost).results == c.results
  {
  }

  lemma {:induction false} ChainOnCourse(p: Plan, verdict: TaskId -> Status, ch: Chain)
    requires ValidPlan(p) && ValidChain(p.dag, ch) && SteadyChain(p.dag, verdict, ch) && InOrder(p, ch)
    ensures OnCourse(p, verdict, Goal(p, verdict), Durable(p.dag, ch))
    decreases ch
  {
    hide Good, OnCourse, AllOnCourse, BeginSession, ResumeSession, After, Reload, Faithful, Goal, ValidPlan, Recovers;
    var goal := Goal(p, verdict);
    match ch
    case Begun(plan, env, cancelled, commits) =>
      assert plan == p;
      BeginOnCourse(p, verdict, env);
      AfterOnCourse(p, verdict, goal, Init(p), Init(p), BeginSession(p, env, false).state, commits);
    case Resumed(prior, lost, order, env, commits) =>
      ChainOnCourse(p, verdict, prior);
      ChainGood(p.dag, prior);
      LoseGood(p.dag, Durable(p.dag, prior), lost);
      LoseOnCourse(p, verdict, goal, Durable(p.dag, prior), lost);
      var stored := Lose(Durable(p.dag, prior), lost);
      assert Plan(p.dag, order) == p;
      ResumeOnCourse(p, verdict, goal, env, stored);
      AfterOnCourse(p, verdict, goal, stored, Reload(p.dag, env, stored), ResumeSession(p, env, stored).state, commits);
  }

  /**
    Resume transparency. However often a run was crashed and resumed, between any two commits, as long as the
    processes agree on verdicts, no resume rejects a recorded success and an open attempt reconciles as what it
    would have come to, resuming it ends in the same task statuses and the same run status as a run that was
    never interrupted.
  */
  lemma ResumeIsTransparent(p: Plan, verdict: TaskId -> Status, e0: Env, e: Env, ch: Chain, lost: nat)
    requires ValidPlan(p) && ValidChain(p.dag, ch) && SteadyChain(p.dag, verdict, ch) && InOrder(p, ch)
    requires Faithful(p.dag, e0, verdict) && Faithful(p.dag, e, verdict)
    requires Recovers(p, verdict, e, Lose(Durable(p.dag, ch), lost))
    ensures var u, r := BeginSession(p, e0, false), ResumeSession(p, e, Lose(Durable(p.dag, ch), lost));
            && !u.aborted && !r.aborted
            && r.state.core.status == u.state.core.status
            && r.state.core.run == u.state.core.run
  {
    hide Good, Trail, OnCourse, AllOnCourse, BeginSession, ResumeSession, Reload, Faithful, Goal, Durable, Lose,
        Recovers;
    var stored := Lose(Durable(p.dag, ch), lost);
    ChainGood(p.dag, ch);
    LoseGood(p.dag, Durable(p.dag, ch), lost);
    ChainOnCourse(p, verdict, ch);
    LoseOnCourse(p, verdict, Goal(p, verdict), Durable(p.dag, ch), lost);
    BeginOnCourse(p, verdict, e0);
    ResumeOnCourse(p, verdict, Goal(p, verdict), e, stored);
    BeginTrail(p, e0, false);
    ResumeTrail(p, e, stored);
    SameEnd(BeginSession(p, e0, false).state.core, ResumeSession(p, e, stored).state.core, p, verdict);
  }

  lemma {:induction false} FutureHasNoActive(p: Plan, verdict: TaskId -> Status, st: StatusMap, t: TaskId)
    requires t in Future(p, verdict, st) && forall u :: u in st ==> st[u] in {Pending, Success}
    ensures Future(p, verdict, st)[t] !in {Ready, Running}
    decreases PendingIn(st)
  {
    match FirstReady(p, st, |p.order|)
    case None =>
    case Some(u) =>
      assert u in PendingIn(st) && PendingIn(st[u := Success]) == PendingIn(st) - {u};
      if verdict(u) == Success {
        FutureHasNoActive(p, verdict, st[u := Success], t);
      }
  }

  lemma SameEnd(a: Core, b: Core, p: Plan, verdict: TaskId -> Status)
    requires a.status == b.status == Goal(p, verdict) && Ended(a) && Ended(b)
    ensures a.run == b.run
  {
    forall t | t in a.status
      ensures a.status[t] !in {Ready, Running}
    {
      FutureHasNoActive(p, verdict, Init(p).status, t);
    }
    hide Goal, Future, TerminalRunStatus;
  }
}
