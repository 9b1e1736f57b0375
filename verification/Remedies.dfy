/** Which resumes some executor gets a report from. */
module Remedies {
  import opened Model
  import opened Artifacts
  import opened Trace
  import opened Machine
  import opened Invariants
  import opened Scheduling
  import opened Sessions
  import opened Chains
  import opened Verdicts
  import opened Reruns
  import opened Planning
  import opened Decomposition
  import T = Transparency

  // ---- Which tasks can succeed ----

  ghost predicate CanSucceed(dag: Dag, t: TaskId)
    requires t in dag.tasks
  {
    exists out: Outcome :: Verdict(dag, t, out) == Some(Success)
  }

  /** Every output has a rule that is known, and what is required is of the kind an executor registers. */
  predicate Feasible(task: Task) {
    forall k :: 0 <= k < |task.outputs| ==>
      SupportedRule(task.outputs[k].rule) && (task.outputs[k].required ==> task.outputs[k].scope == RuntimeRun)
  }

  function CandidateFor(d: OutputDecl): Candidate {
    Candidate(d.name, d.kind, Location("", true), d.hint)
  }

  /** One candidate for each required output. */
  function CandidatesFor(outputs: seq<OutputDecl>): seq<Candidate> {
    if outputs == [] then []
    else
      var last := outputs[|outputs| - 1];
      CandidatesFor(outputs[..|outputs| - 1]) + if last.required then [CandidateFor(last)] else []
  }

  lemma NewestAppend(cands: seq<Candidate>, cand: Candidate, name: string)
    ensures NewestCandidate(cands + [cand], name)
         == if cand.name == name then Some(cand) else NewestCandidate(cands, name)
  {
    assert (cands + [cand])[..|cands|] == cands;
  }

  lemma {:induction false} NoCandidate(outputs: seq<OutputDecl>, name: string)
    requires forall i :: 0 <= i < |outputs| ==> outputs[i].name != name
    ensures NewestCandidate(CandidatesFor(outputs), name) == None
  {
    if outputs != [] {
      var front, last := outputs[..|outputs| - 1], outputs[|outputs| - 1];
      NoCandidate(front, name);
      NewestAppend(CandidatesFor(front), CandidateFor(last), name);
      assert !last.required ==> CandidatesFor(outputs) == CandidatesFor(front);
    }
  }

  lemma {:induction false} CandidateFound(outputs: seq<OutputDecl>, k: nat)
    requires k < |outputs| && forall i, j :: 0 <= i < j < |outputs| ==> outputs[i].name != outputs[j].name
    ensures NewestCandidate(CandidatesFor(outputs), outputs[k].name)
         == if outputs[k].required then Some(CandidateFor(outputs[k])) else None
  {
    var front, last := outputs[..|outputs| - 1], outputs[|outputs| - 1];
    NewestAppend(CandidatesFor(front), CandidateFor(last), outputs[k].name);
    assert !last.required ==> CandidatesFor(outputs) == CandidatesFor(front);
    if k < |front| {
      assert front[k] == outputs[k];
      CandidateFound(front, k);
    } else {
      NoCandidate(front, last.name);
    }
  }

  lemma {:induction false} CandidatesSafe(outputs: seq<OutputDecl>)
    ensures forall i :: 0 <= i < |CandidatesFor(outputs)| ==> LocationOk(CandidatesFor(outputs)[i].location)
  {
    if outputs != [] {
      CandidatesSafe(outputs[..|outputs| - 1]);
    }
  }

  lemma SuccessIsFeasible(dag: Dag, t: TaskId, out: Outcome)
    requires t in dag.tasks && Verdict(dag, t, out) == Some(Success)
    ensures Feasible(dag.tasks[t])
  {
    var outputs := dag.tasks[t].outputs;
    forall k | 0 <= k < |outputs|
      ensures SupportedRule(outputs[k].rule) && (outputs[k].required ==> outputs[k].scope == RuntimeRun)
    {
      assert JudgeReport(dag, t, outputs[k], out.candidates) in {Accept, Ignore};
    }
  }

  lemma FeasibleSucceeds(dag: Dag, t: TaskId)
    requires t in dag.tasks && DistinctOutputs(dag) && Feasible(dag.tasks[t])
    ensures Verdict(dag, t, Outcome(CandidatesFor(dag.tasks[t].outputs), true, false, [], "done")) == Some(Success)
  {
    var outputs := dag.tasks[t].outputs;
    CandidatesSafe(outputs);
    forall k | 0 <= k < |outputs|
      ensures JudgeReport(dag, t, outputs[k], CandidatesFor(outputs)) in {Accept, Ignore}
    {
      CandidateFound(outputs, k);
    }
    hide JudgeReport, LocationOk, CandidatesFor;
  }

  /** A task can succeed exactly when its declared outputs are feasible. */
  lemma CanSucceedExactly(dag: Dag, t: TaskId)
    requires t in dag.tasks && DistinctOutputs(dag)
    ensures CanSucceed(dag, t) <==> Feasible(dag.tasks[t])
  {
    hide Verdict, Feasible, DistinctOutputs;
    if CanSucceed(dag, t) {
      var out: Outcome :| Verdict(dag, t, out) == Some(Success);
      SuccessIsFeasible(dag, t, out);
    }
    if Feasible(dag.tasks[t]) {
      FeasibleSucceeds(dag, t);
    }
  }

  // ---- An executor that gets everything done ----

  ghost function SomeSuccess(dag: Dag, t: TaskId): (out: Outcome)
    requires t in dag.tasks && CanSucceed(dag, t)
    ensures Verdict(dag, t, out) == Some(Success)
  {
    var out: Outcome :| Verdict(dag, t, out) == Some(Success);
    out
  }

  ghost function Producing(dag: Dag): (TaskId, nat) -> Outcome {
    (t: TaskId, a: nat) => if t in dag.tasks && CanSucceed(dag, t) then SomeSuccess(dag, t) else Exception
  }

  function Succeeding(): TaskId -> Status {
    (t: TaskId) => Success
  }

  lemma ProducingSucceeds(dag: Dag, e: Env)
    requires forall t :: t in dag.tasks ==> CanSucceed(dag, t)
    ensures Agrees(dag, e.(exec := Producing(dag)), Succeeding())
  {
    hide Verdict;
  }

  // ---- What once succeeded can succeed again ----

  /** The tasks an attempt was ever made of. */
  function Attempted(c: Core): set<TaskId> {
    set t | t in c.results && c.results[t].attempts != []
  }

  /** A set of tasks that can all be fed and lean on no task outside of it. */
  ghost predicate Runnable(dag: Dag, ran: set<TaskId>) {
    forall t :: t in ran ==> t in dag.tasks && !Starved(dag.tasks[t]) && forall d :: d in dag.tasks[t].deps ==> d in ran
  }

  lemma {:induction false} StartsThere(events: seq<Event>, t: TaskId, i: nat)
    requires i < |events| && events[i].kind == TaskStarted && events[i].task == t && events[i].attempt.Some?
    ensures StartsOf(events, t) != []
  {
    if i < |events| - 1 {
      StartsThere(events[..|events| - 1], t, i);
    }
  }

  lemma DependencyRan(dag: Dag, events: seq<Event>, t: TaskId, d: TaskId)
    requires StartsInOrder(dag, events) && ValidTrace(dag.runId, events) && StartsOf(events, t) != []
    requires t in dag.tasks && d in dag.tasks[t].deps
    ensures StartsOf(events, d) != []
  {
    StartWitness(events, t, StartsOf(events, t)[0]);
    var j :| 0 <= j < |events| && events[j].kind == TaskStarted && events[j].task == t;
    assert CompletedBefore(events, j, d);
    var i :| 0 <= i < j && events[i].kind == TaskCompleted && events[i].task == d;
    assert Follows(dag.runId, events, i);
    var k :|
      && 0 <= k < i && events[k].kind == TaskStarted
      && events[k].task == d && events[k].attempt == events[i].attempt;
    StartsThere(events, d, k);
  }

  lemma GoodParts(dag: Dag, c: Core)
    requires Good(dag, c)
    ensures StartsInOrder(dag, c.trace) && ValidTrace(dag.runId, c.trace)
    ensures Conserved(dag, c) && StarvedNeverRan(dag, c) && forall t :: t in c.results ==> t in dag.tasks
  {
    hide Exclusive, Supplied, Separate, FailureKnown, ClosedOnce, Reusable, StartsInOrder, ValidTrace, Conserved,
        StarvedNeverRan;
  }

  lemma AttemptedRuns(p: Plan, c: Core)
    requires ValidPlan(p) && Good(p.dag, c)
    ensures Runnable(p.dag, Attempted(c))
  {
    hide Good, StartsInOrder, ValidTrace, ValidDag, Starved, StartsOf, StarvedNeverRan;
    GoodParts(p.dag, c);
    forall t | t in Attempted(c)
      ensures t in p.dag.tasks && !Starved(p.dag.tasks[t]) && forall d :: d in p.dag.tasks[t].deps ==> d in Attempted(c)
    {
      AttemptedFed(p.dag, c, t);
      forall d | d in p.dag.tasks[t].deps
        ensures d in Attempted(c)
      {
        KnownDependency(p.dag, t, d);
        DependencyRan(p.dag, c.trace, t, d);
        assert PriorAttempts(c, d) != [];
      }
    }
  }

  lemma AttemptedFed(dag: Dag, c: Core, t: TaskId)
    requires StarvedNeverRan(dag, c) && t in c.results && t in dag.tasks && c.results[t].attempts != []
    ensures !Starved(dag.tasks[t])
  {
  }

  lemma KnownDependency(dag: Dag, t: TaskId, d: TaskId)
    requires ValidDag(dag) && t in dag.tasks && d in dag.tasks[t].deps
    ensures d in dag.tasks
  {
  }

  lemma {:induction false} NoneReady(p: Plan, st: T.StatusMap, n: nat, t: TaskId)
    requires n <= |p.order| && T.FirstReady(p, st, n) == None && t in p.order[..n]
    ensures !T.StatusOpen(p.dag, st, t, false)
  {
    hide T.StatusOpen;
    assert p.order[..n] == p.order[..n - 1] + [p.order[n - 1]];
    if t in p.order[..n - 1] {
      NoneReady(p, st, n - 1, t);
    }
  }

  /** When nothing is ready, whatever is runnable has succeeded. */
  lemma {:induction false} RunnableDone(p: Plan, st: T.StatusMap, ran: set<TaskId>, rank: map<TaskId, nat>, t: TaskId)
    requires ValidPlan(p) && Ranks(p.dag.tasks, rank) && Runnable(p.dag, ran) && t in ran
    requires st.Keys == p.dag.tasks.Keys && forall u :: u in st ==> st[u] in {Pending, Success}
    requires T.FirstReady(p, st, |p.order|) == None
    ensures st[t] == Success
    decreases rank[t]
  {
    hide T.FirstReady, Starved;
    forall d | d in p.dag.tasks[t].deps
      ensures d in st && st[d] == Success
    {
      RunnableDone(p, st, ran, rank, d);
    }
    assert p.order[..|p.order|] == p.order;
    NoneReady(p, st, |p.order|, t);
  }

  /** With every execution a success, a run gets whatever is runnable done. */
  lemma {:induction false} FutureDone(p: Plan, st: T.StatusMap, ran: set<TaskId>, t: TaskId)
    requires ValidPlan(p) && Runnable(p.dag, ran) && t in ran
    requires st.Keys == p.dag.tasks.Keys && forall u :: u in st ==> st[u] in {Pending, Success}
    ensures t in T.Future(p, Succeeding(), st) && T.Future(p, Succeeding(), st)[t] == Success
    decreases T.PendingIn(st)
  {
    hide T.FirstReady, T.FirstStarved, Starved;
    match T.FirstReady(p, st, |p.order|)
    case None =>
      var rank :| Ranks(p.dag.tasks, rank);
      hide ValidPlan;
      RunnableDone(p, st, ran, rank, t);
      T.FutureKeeps(p, Succeeding(), st, t);
    case Some(u) =>
      assert u in T.PendingIn(st) && T.PendingIn(st[u := Success]) == T.PendingIn(st) - {u};
      FutureDone(p, st[u := Success], ran, t);
  }

  // ---- When a report is possible ----

  /** With this executor the resume raises nothing and cures every rejected success. */
  ghost predicate ReportedBy(p: Plan, e: Env, stored: Core, exec: (TaskId, nat) -> Outcome) {
    var more := ResumeReruns(p, e.(exec := exec), stored);
    !more.aborted && Cures(p, e, stored, more)
  }

  lemma EntryCalm(p: Plan, e: Env, stored: Core)
    requires ValidPlan(p) && Good(p.dag, stored) && EntryOf(p, e, stored).From?
    ensures var st := EntryOf(p, e, stored).status;
            st.Keys == p.dag.tasks.Keys && forall t :: t in st ==> st[t] in {Pending, Success}
  {
    hide Good, Trail, ValidPlan, EntryOf, Reload, ResumeSession, Loop;
    var s := ResumeIsLoop(p, e, stored);
    TrailDomain(p.dag, Reload(p.dag, e, stored).(run := RunningRun), s);
  }

  lemma RejectedAttempted(dag: Dag, e: Env, stored: Core, t: TaskId)
    requires Good(dag, stored) && Rejected(dag, e, stored, t)
    ensures t in Attempted(stored)
  {
    hide Satisfies, Exclusive, Supplied, Conserved, Separate, StarvedNeverRan, Ordered, FailureKnown, ClosedOnce,
        WellTraced, Reusable;
    assert Fits(dag, t, stored.results[t], stored.status[t]);
  }

  /** Once everything executed succeeds, every rejected success is cured. */
  lemma ProducingCures(p: Plan, e: Env, stored: Core)
    requires ValidPlan(p) && Good(p.dag, stored) && EntryOf(p, e, stored).From?
    requires forall t :: t in p.dag.tasks ==> CanSucceed(p.dag, t)
    ensures ReportedBy(p, e, stored, Producing(p.dag))
  {
    hide Good, ValidPlan, Rejected, Reruns.Reruns, T.Future, Starved, EntryOf, Agrees, Attempted, Runnable, CanSucceed,
        Producing;
    var e' := e.(exec := Producing(p.dag));
    ProducingSucceeds(p.dag, e);
    EntrySame(p, e, stored, Producing(p.dag));
    EntryCalm(p, e, stored);
    AttemptedRuns(p, stored);
    var at := EntryOf(p, e, stored);
    AbortsByVerdict(p, e', Succeeding(), at.status, at.supply);
    forall t | Rejected(p.dag, e, stored, t)
      ensures t in Reruns.Reruns(p, e', at.status, at.supply).started
    {
      RejectedIsPending(p, e, stored, t);
      RejectedAttempted(p.dag, e, stored, t);
      RerunsAreTheFuture(p, e', Succeeding(), at.status, at.supply, t);
      FutureDone(p, at.status, Attempted(stored), t);
    }
  }

  /**
    If every task can succeed, some executor gets a report from a resume exactly when the resume is not barred
    from starting tasks, or rejects nothing.
  */
  lemma ReportIsPossible(p: Plan, e: Env, stored: Core)
    requires ValidPlan(p) && Good(p.dag, stored) && forall t :: t in p.dag.tasks ==> Feasible(p.dag.tasks[t])
    ensures (exists exec :: ReportedBy(p, e, stored, exec))
       <==> EntryOf(p, e, stored).From? || NothingRejected(p.dag, e, stored)
  {
    forall t | t in p.dag.tasks
      ensures CanSucceed(p.dag, t)
    {
      CanSucceedExactly(p.dag, t);
    }
    hide Good, ValidPlan, Rejected, EntryOf, CanSucceed, Feasible, Producing;
    if EntryOf(p, e, stored).From? {
      ProducingCures(p, e, stored);
    } else {
      BarredReports(p, e, stored);
      assert ReportedBy(p, e, stored, e.exec) <==> NothingRejected(p.dag, e, stored);
    }
  }

  /** Every task the engine makes of a node declares one output, and one that an executor can supply. */
  lemma DecomposedIsFeasible(g: Graph, run: RunId, t: TaskId)
    requires t in PlanFor(g, run).dag.tasks
    ensures Feasible(PlanFor(g, run).dag.tasks[t])
  {
    var i := PlanTask(g, run, t);
  }

  /** So for what the engine runs the answer is unconditional: in every stored state of every history. */
  lemma EngineReportIsPossible(g: Graph, run: RunId, e: Env, ch: Chain, lost: nat)
    requires GraphOk(g) && ValidChain(PlanFor(g, run).dag, ch)
    ensures var p := PlanFor(g, run);
            var stored := Lose(Durable(p.dag, ch), lost);
            (exists exec :: ReportedBy(p, e, stored, exec))
            <==> EntryOf(p, e, stored).From? || NothingRejected(p.dag, e, stored)
  {
    hide Good, ValidPlan, EntryOf, NothingRejected, ReportedBy, Feasible, ValidChain, Durable, PlanFor, GraphOk, Lose;
    var p := PlanFor(g, run);
    DecomposedPlanIsValid(g, run);
    ChainGood(p.dag, ch);
    LoseGood(p.dag, Durable(p.dag, ch), lost);
    forall t | t in p.dag.tasks
      ensures Feasible(p.dag.tasks[t])
    {
      DecomposedIsFeasible(g, run, t);
    }
    ReportIsPossible(p, e, Lose(Durable(p.dag, ch), lost));
  }

  lemma BarredReports(p: Plan, e: Env, stored: Core)
    requires EntryOf(p, e, stored).Barred?
    ensures forall exec :: ReportedBy(p, e, stored, exec) <==> NothingRejected(p.dag, e, stored)
  {
    hide Rejected, EntryOf;
    forall exec: (TaskId, nat) -> Outcome
      ensures ReportedBy(p, e, stored, exec) <==> NothingRejected(p.dag, e, stored)
    {
      EntrySame(p, e, stored, exec);
    }
  }
}
