/** Run reports: what they count, and exactly when their validator accepts them. */
module Reports {
  import opened Model
  import opened Machine
  import opened Invariants
  import opened Scheduling
  import opened Sessions
  import opened Runs
  import opened Chains
  import Histories
  import Artifacts
  import Trace

  function StatusCount(order: seq<TaskId>, status: map<TaskId, Status>, s: Status): nat {
    if order == [] then 0
    else
      var last := order[|order| - 1];
      StatusCount(order[..|order| - 1], status, s) + if last in status && status[last] == s then 1 else 0
  }

  function WithStatus(order: seq<TaskId>, status: map<TaskId, Status>, s: Status): seq<TaskId> {
    if order == [] then []
    else
      var last := order[|order| - 1];
      WithStatus(order[..|order| - 1], status, s) + if last in status && status[last] == s then [last] else []
  }

  /** The results of the tasks that have one, in task order. */
  function ResultsIn(order: seq<TaskId>, c: Core): seq<TaskResult> {
    if order == [] then []
    else
      var last := order[|order| - 1];
      ResultsIn(order[..|order| - 1], c) + if last in c.results then [c.results[last]] else []
  }

  function ResultCount(results: seq<TaskResult>, s: Status): nat {
    if results == [] then 0
    else ResultCount(results[..|results| - 1], s) + if results[|results| - 1].status == s then 1 else 0
  }

  function AttemptSum(results: seq<TaskResult>): nat {
    if results == [] then 0 else AttemptSum(results[..|results| - 1]) + |results[|results| - 1].attempts|
  }

  function ErrorsIn(results: seq<TaskResult>): seq<Failure> {
    if results == [] then [] else ErrorsIn(results[..|results| - 1]) + results[|results| - 1].errors
  }

  function CountOf(counts: map<Status, nat>, s: Status): nat {
    if s in counts then counts[s] else 0
  }

  /** What the report must say about memory `c`. */
  ghost predicate Describes(p: Plan, c: Core, ids: seq<nat>, r: RunReport) {
    && r.runId == p.dag.runId && r.status == c.run && r.artifactIds == ids
    && (forall s :: CountOf(r.counts, s) == StatusCount(p.order, c.status, s))
    && r.results == ResultsIn(p.order, c)
    && r.attemptCount == AttemptSum(r.results)
    && r.errors == ErrorsIn(r.results)
    && r.skipped == WithStatus(p.order, c.status, Skipped)
    && r.cancelled == WithStatus(p.order, c.status, Cancelled)
  }

  /** How many attempts the results have, and their errors. */
  method SumUp(results: seq<TaskResult>) returns (attempts: nat, errors: seq<Failure>)
    ensures attempts == AttemptSum(results) && errors == ErrorsIn(results)
  {
    attempts, errors := 0, [];
    for i := 0 to |results|
      invariant attempts == AttemptSum(results[..i]) && errors == ErrorsIn(results[..i])
    {
      assert results[..i + 1][..i] == results[..i];
      attempts := attempts + |results[i].attempts|;
      errors := errors + results[i].errors;
    }
    assert results[..|results|] == results;
  }

  /** assemble_execution_report. */
  method AssembleReport(p: Plan, c: Core, ids: seq<nat>) returns (r: RunReport)
    requires forall t :: t in p.order ==> t in c.status
    ensures Describes(p, c, ids, r)
  {
    var counts: map<Status, nat> := map[];
    var skipped, cancelled, results := [], [], [];
    for i := 0 to |p.order|
      invariant forall s :: CountOf(counts, s) == StatusCount(p.order[..i], c.status, s)
      invariant skipped == WithStatus(p.order[..i], c.status, Skipped)
      invariant cancelled == WithStatus(p.order[..i], c.status, Cancelled)
      invariant results == ResultsIn(p.order[..i], c)
    {
      var t := p.order[i];
      assert p.order[..i + 1][..i] == p.order[..i];
      var s := c.status[t];
      counts := counts[s := CountOf(counts, s) + 1];
      if s == Skipped {
        skipped := skipped + [t];
      }
      if s == Cancelled {
        cancelled := cancelled + [t];
      }
      if t in c.results {
        results := results + [c.results[t]];
      }
    }
    assert p.order[..|p.order|] == p.order;
    var attempts, errors := SumUp(results);
    r := RunReport(p.dag.runId, c.run, counts, results, attempts, errors, skipped, cancelled, ids);
  }

  /** The validator of the report model. */
  ghost predicate ReportOk(r: RunReport) {
    && (forall s :: ResultCount(r.results, s) <= CountOf(r.counts, s))
    && (r.status == SuccessRun ==> forall s :: s != Success ==> CountOf(r.counts, s) == 0)
    && r.attemptCount == AttemptSum(r.results)
    && (forall i :: 0 <= i < |r.results| ==> r.results[i].runId == r.runId)
    && (r.status == FailedRun ==> r.errors != [] || r.skipped != [])
  }

  /** The report model's validator: result counts, success purity, attempt count, ownership, failure evidence. */
  method ValidateReport(r: RunReport) returns (ok: bool)
    ensures ok <==> ReportOk(r)
  {
    var counts: map<Status, nat> := map[];
    var attempts := 0;
    for i := 0 to |r.results|
      invariant forall s :: CountOf(counts, s) == ResultCount(r.results[..i], s)
      invariant attempts == AttemptSum(r.results[..i])
    {
      assert r.results[..i + 1][..i] == r.results[..i];
      var s := r.results[i].status;
      counts := counts[s := CountOf(counts, s) + 1];
      attempts := attempts + |r.results[i].attempts|;
    }
    assert r.results[..|r.results|] == r.results;
    assert forall s :: s in counts && CountOf(r.counts, s) < counts[s] ==>
          ResultCount(r.results, s) > CountOf(r.counts, s);
    if exists s :: s in counts && CountOf(r.counts, s) < counts[s] {
      return false;
    }
    assert forall s :: ResultCount(r.results, s) == CountOf(counts, s);
    if r.status == SuccessRun && exists s :: s in r.counts && s != Success && r.counts[s] > 0 {
      ghost var s :| s in r.counts && s != Success && r.counts[s] > 0;
      assert CountOf(r.counts, s) > 0;
      return false;
    }
    if r.attemptCount != attempts || exists i :: 0 <= i < |r.results| && r.results[i].runId != r.runId {
      return false;
    }
    return r.status != FailedRun || r.errors != [] || r.skipped != [];
  }

  lemma {:induction false} SameResultsIn(order: seq<TaskId>, c: Core, c': Core)
    requires c.results == c'.results
    ensures ResultsIn(order, c) == ResultsIn(order, c')
  {
    if order != [] {
      SameResultsIn(order[..|order| - 1], c, c');
    }
  }

  /** A report says the same about two memories with the same run, statuses and results. */
  lemma DescribesSame(p: Plan, c: Core, c': Core, ids: seq<nat>, r: RunReport)
    requires c.run == c'.run && c.status == c'.status && c.results == c'.results && Describes(p, c, ids, r)
    ensures Describes(p, c', ids, r)
  {
    SameResultsIn(p.order, c, c');
  }

  /** No success is on record under a task that no longer counts as successful. */
  ghost predicate NoStale(c: Core) {
    forall t :: t in c.results && t in c.status && c.results[t].status == Success ==> c.status[t] == Success
  }

  // ---- Counting ----

  lemma {:induction false} CountsAgree(order: seq<TaskId>, dag: Dag, c: Core, s: Status)
    requires Shape(dag, c) && NoStale(c)
    ensures ResultCount(ResultsIn(order, c), s) <= StatusCount(order, c.status, s)
  {
    if order != [] {
      var front := order[..|order| - 1];
      var last := order[|order| - 1];
      CountsAgree(front, dag, c, s);
      if last in c.results {
        assert Fits(dag, last, c.results[last], c.status[last]);
        assert c.results[last].status == c.status[last];
        CountAppend(ResultsIn(front, c), c.results[last], s);
      } else {
        assert ResultsIn(order, c) == ResultsIn(front, c);
      }
    }
  }

  lemma CountAppend(results: seq<TaskResult>, r: TaskResult, s: Status)
    ensures ResultCount(results + [r], s) == ResultCount(results, s) + if r.status == s then 1 else 0
    ensures AttemptSum(results + [r]) == AttemptSum(results) + |r.attempts|
    ensures ErrorsIn(results + [r]) == ErrorsIn(results) + r.errors
  {
    assert (results + [r])[..|results|] == results;
  }

  lemma SuccessRecorded(dag: Dag, c: Core, t: TaskId)
    requires Shape(dag, c) && t in c.status && c.status[t] == Success
    ensures t in c.results && c.results[t].status == Success
  {
    hide Fits;
  }

  /** What one task adds to the successes on record and to the successful tasks. */
  lemma SuccessesStep(order: seq<TaskId>, dag: Dag, c: Core)
    requires Shape(dag, c) && order != []
    ensures var front, last := order[..|order| - 1], order[|order| - 1];
            && ResultCount(ResultsIn(order, c), Success)
               == ResultCount(ResultsIn(front, c), Success)
                  + (if last in c.results && c.results[last].status == Success then 1 else 0)
            && (last in c.status && c.status[last] == Success ==>
                  last in c.results && c.results[last].status == Success)
  {
    hide Shape;
    var front, last := order[..|order| - 1], order[|order| - 1];
    if last in c.status && c.status[last] == Success {
      SuccessRecorded(dag, c, last);
    }
    if last in c.results {
      CountAppend(ResultsIn(front, c), c.results[last], Success);
    } else {
      assert ResultsIn(order, c) == ResultsIn(front, c);
    }
  }

  /** Every successful task has a successful result, so a stale success makes the results outnumber the tasks. */
  lemma {:induction false} StaleOutnumbers(order: seq<TaskId>, dag: Dag, c: Core, t: TaskId)
    requires Shape(dag, c)
    ensures ResultCount(ResultsIn(order, c), Success) >= StatusCount(order, c.status, Success)
    ensures t in order && t in c.results && c.results[t].status == Success ==>
              t in c.status && c.status[t] != Success ==>
              ResultCount(ResultsIn(order, c), Success) > StatusCount(order, c.status, Success)
  {
    if order != [] {
      hide Shape, ResultCount, ResultsIn;
      var front, last := order[..|order| - 1], order[|order| - 1];
      StaleOutnumbers(front, dag, c, t);
      SuccessesStep(order, dag, c);
      assert order == front + [last];
    }
  }

  lemma {:induction false} RunIdsAgree(order: seq<TaskId>, dag: Dag, c: Core)
    requires Shape(dag, c)
    ensures forall i :: 0 <= i < |ResultsIn(order, c)| ==> ResultsIn(order, c)[i].runId == dag.runId
  {
    if order != [] {
      RunIdsAgree(order[..|order| - 1], dag, c);
      var last := order[|order| - 1];
      if last in c.results {
        assert Fits(dag, last, c.results[last], c.status[last]);
      }
    }
  }

  lemma {:induction false} AttemptsAgree(order: seq<TaskId>, c: Core)
    ensures AttemptSum(ResultsIn(order, c)) == Histories.TotalAttempts(order, c)
  {
    if order != [] {
      var front := order[..|order| - 1];
      var last := order[|order| - 1];
      AttemptsAgree(front, c);
      if last in c.results {
        CountAppend(ResultsIn(front, c), c.results[last], Success);
      } else {
        assert ResultsIn(order, c) == ResultsIn(front, c);
      }
    }
  }

  lemma {:induction false} FailureHasErrors(order: seq<TaskId>, dag: Dag, c: Core, t: TaskId)
    requires Shape(dag, c) && t in order && t in c.status && c.status[t] == Failed
    ensures ErrorsIn(ResultsIn(order, c)) != []
  {
    var front := order[..|order| - 1];
    var last := order[|order| - 1];
    assert order == front + [last];
    if last in c.results {
      CountAppend(ResultsIn(front, c), c.results[last], Success);
    } else {
      assert ResultsIn(order, c) == ResultsIn(front, c);
    }
    if t == last {
      assert Fits(dag, t, c.results[t], c.status[t]);
    } else {
      FailureHasErrors(front, dag, c, t);
    }
  }

  lemma {:induction false} WithStatusHas(order: seq<TaskId>, status: map<TaskId, Status>, s: Status, t: TaskId)
    ensures t in WithStatus(order, status, s) <==> t in order && t in status && status[t] == s
  {
    if order != [] {
      WithStatusHas(order[..|order| - 1], status, s, t);
      assert order == order[..|order| - 1] + [order[|order| - 1]];
    }
  }

  lemma {:induction false} CountZero(order: seq<TaskId>, status: map<TaskId, Status>, s: Status)
    requires forall t :: t in order ==> t in status && status[t] != s
    ensures StatusCount(order, status, s) == 0
  {
    if order != [] {
      CountZero(order[..|order| - 1], status, s);
    }
  }

  /** The status counts of a report add up to the number of tasks. */
  lemma {:induction false} CountsAddUp(order: seq<TaskId>, status: map<TaskId, Status>)
    requires forall t :: t in order ==> t in status
    ensures StatusCount(order, status, Pending) + StatusCount(order, status, Ready) + StatusCount(order, status,
        Running)
          + StatusCount(order, status, Success) + StatusCount(order, status, Failed) + StatusCount(order, status,
              Skipped)
          + StatusCount(order, status, Cancelled) == |order|
  {
    if order != [] {
      CountsAddUp(order[..|order| - 1], status);
    }
  }

  /** The tasks of a list that have a status. */
  function TasksWith(order: seq<TaskId>, status: map<TaskId, Status>, s: Status): set<TaskId> {
    set t | t in order && t in status && status[t] == s
  }

  lemma {:induction false} CountIsSize(order: seq<TaskId>, status: map<TaskId, Status>, s: Status)
    requires Distinct(order)
    ensures StatusCount(order, status, s) == |TasksWith(order, status, s)|
  {
    hide TasksWith;
    if order == [] {
      assert TasksWith(order, status, s) == {} by { NoTasks(status, s); }
    } else {
      CountIsSize(order[..|order| - 1], status, s);
      OneTaskMore(order, status, s);
    }
  }

  lemma NoTasks(status: map<TaskId, Status>, s: Status)
    ensures TasksWith([], status, s) == {}
  {
  }

  lemma OneTaskMore(order: seq<TaskId>, status: map<TaskId, Status>, s: Status)
    requires Distinct(order) && order != []
    ensures var front, last := order[..|order| - 1], order[|order| - 1];
            && last !in TasksWith(front, status, s)
            && TasksWith(order, status, s)
               == TasksWith(front, status, s) + if last in status && status[last] == s then {last} else {}
  {
    var front, last := order[..|order| - 1], order[|order| - 1];
    assert order == front + [last] && last !in front;
  }

  /** The result of one of the listed tasks. */
  ghost predicate ResultOf(order: seq<TaskId>, c: Core, r: TaskResult) {
    exists t :: t in order && t in c.results && c.results[t] == r
  }

  /** An error of one of the listed tasks. */
  ghost predicate ErrorOf(order: seq<TaskId>, c: Core, f: Failure) {
    exists t :: t in order && t in c.results && f in c.results[t].errors
  }

  lemma ResultOfMore(order: seq<TaskId>, c: Core, r: TaskResult)
    requires order != []
    ensures var front, last := order[..|order| - 1], order[|order| - 1];
            ResultOf(order, c, r) <==> ResultOf(front, c, r) || (last in c.results && c.results[last] == r)
  {
    assert order == order[..|order| - 1] + [order[|order| - 1]];
  }

  lemma {:induction false} ResultsAre(order: seq<TaskId>, c: Core, r: TaskResult)
    ensures r in ResultsIn(order, c) <==> ResultOf(order, c, r)
  {
    if order != [] {
      hide ResultOf;
      ResultsAre(order[..|order| - 1], c, r);
      ResultOfMore(order, c, r);
    }
  }

  lemma ErrorOfMore(order: seq<TaskId>, c: Core, f: Failure)
    requires order != []
    ensures var front, last := order[..|order| - 1], order[|order| - 1];
            ErrorOf(order, c, f) <==> ErrorOf(front, c, f) || (last in c.results && f in c.results[last].errors)
  {
    assert order == order[..|order| - 1] + [order[|order| - 1]];
  }

  lemma {:induction false} ErrorsAre(order: seq<TaskId>, c: Core, f: Failure)
    ensures f in ErrorsIn(ResultsIn(order, c)) <==> ErrorOf(order, c, f)
  {
    if order != [] {
      hide ErrorOf;
      var front, last := order[..|order| - 1], order[|order| - 1];
      ErrorsAre(front, c, f);
      ErrorOfMore(order, c, f);
      if last in c.results {
        CountAppend(ResultsIn(front, c), c.results[last], Success);
      } else {
        assert ResultsIn(order, c) == ResultsIn(front, c);
      }
    }
  }

  /**
    What a report says, task by task: how many tasks have each status, which were skipped and which cancelled, the
    result of every task that has one, every error of theirs and no other, and how many attempts the trace started.
  */
  lemma ReportSays(p: Plan, c: Core, ids: seq<nat>, r: RunReport)
    requires ValidPlan(p) && Good(p.dag, c) && Describes(p, c, ids, r)
    ensures r.runId == p.dag.runId && r.status == c.run && r.artifactIds == ids
    ensures forall s :: CountOf(r.counts, s) == |set t | t in p.order && Has(c, t, s)|
    ensures forall t :: t in r.skipped <==> t in p.order && Has(c, t, Skipped)
    ensures forall t :: t in r.cancelled <==> t in p.order && Has(c, t, Cancelled)
    ensures forall x :: x in r.results <==> ResultOf(p.order, c, x)
    ensures forall f :: f in r.errors <==> ErrorOf(p.order, c, f)
    ensures r.attemptCount == Trace.CountStarts(c.trace)
  {
    hide Good, ValidDag, StaticInputs, DistinctOutputs, ResultOf, ErrorOf;
    forall x
      ensures x in r.results <==> ResultOf(p.order, c, x)
    {
      ResultsAre(p.order, c, x);
    }
    forall f
      ensures f in r.errors <==> ErrorOf(p.order, c, f)
    {
      ErrorsAre(p.order, c, f);
    }
    Histories.GoodTotals(p, c);
    AttemptsAgree(p.order, c);
    forall s
      ensures CountOf(r.counts, s) == |set t | t in p.order && Has(c, t, s)|
    {
      CountIsSize(p.order, c.status, s);
      assert TasksWith(p.order, c.status, s) == set t | t in p.order && Has(c, t, s);
    }
    forall t
      ensures t in r.skipped <==> t in p.order && Has(c, t, Skipped)
      ensures t in r.cancelled <==> t in p.order && Has(c, t, Cancelled)
    {
      WithStatusHas(p.order, c.status, Skipped, t);
      WithStatusHas(p.order, c.status, Cancelled, t);
    }
  }

  // ---- When the validator accepts ----

  lemma SuccessMeansAll(c: Core)
    requires Ended(c) && c.status != map[]
    ensures c.run == SuccessRun <==> forall t :: t in c.status ==> c.status[t] == Success
  {
  }

  lemma FailureEvidence(p: Plan, c: Core)
    requires ValidPlan(p) && Shape(p.dag, c) && Ended(c) && c.run == FailedRun
    ensures ErrorsIn(ResultsIn(p.order, c)) != [] || WithStatus(p.order, c.status, Skipped) != []
  {
    if exists t :: t in c.status && c.status[t] == Failed {
      var t :| t in c.status && c.status[t] == Failed;
      FailureHasErrors(p.order, p.dag, c, t);
    } else {
      assert p.order[0] in p.dag.tasks && p.order[0] in c.status;
      var t := SkippedOne(c);
      WithStatusHas(p.order, c.status, Skipped, t);
      assert t in WithStatus(p.order, c.status, Skipped);
    }
  }

  lemma SkippedOne(c: Core) returns (t: TaskId)
    requires Ended(c) && c.run == FailedRun && c.status != map[] && forall t :: t in c.status ==> c.status[t] != Failed
    ensures t in c.status && c.status[t] == Skipped
  {
    t :| t in c.status && c.status[t] == Skipped;
  }

  lemma FreshCounts(p: Plan, c: Core, ids: seq<nat>, r: RunReport)
    requires ValidPlan(p) && Shape(p.dag, c) && Ended(c) && Describes(p, c, ids, r) && NoStale(c)
    ensures ReportOk(r)
  {
    RunIdsAgree(p.order, p.dag, c);
    SuccessInPlan(p, c);
    if r.status == FailedRun {
      FailureEvidence(p, c);
    }
    hide Shape, Ended, ValidDag, StaticInputs, DistinctOutputs, NoStale;
    forall s
      ensures ResultCount(r.results, s) <= CountOf(r.counts, s)
    {
      CountsAgree(p.order, p.dag, c, s);
    }
    if r.status == SuccessRun {
      forall s | s != Success
        ensures CountOf(r.counts, s) == 0
      {
        CountZero(p.order, c.status, s);
      }
    }
  }

  lemma StaleCounts(p: Plan, c: Core, ids: seq<nat>, r: RunReport)
    requires ValidPlan(p) && Shape(p.dag, c) && Describes(p, c, ids, r) && !NoStale(c)
    ensures !ReportOk(r)
  {
    var t :| t in c.results && t in c.status && c.results[t].status == Success && c.status[t] != Success;
    StaleOutnumbers(p.order, p.dag, c, t);
    assert t in p.order;
    assert ResultCount(r.results, Success) > CountOf(r.counts, Success);
  }

  lemma SuccessInPlan(p: Plan, c: Core)
    requires ValidPlan(p) && Shape(p.dag, c) && Ended(c)
    ensures c.run == SuccessRun <==> forall t :: t in p.dag.tasks ==> c.status[t] == Success
    ensures forall t :: t in p.order <==> t in c.status
  {
    assert p.order[0] in p.dag.tasks && p.order[0] in c.status;
    SuccessMeansAll(c);
  }

  /**
    At the end of any process that was not aborted, the report can be constructed exactly when no
    recorded success is stale; it succeeds exactly when every task did, and it counts every start.
  */
  lemma ReportExact(p: Plan, c: Core, ids: seq<nat>, r: RunReport)
    requires ValidPlan(p) && Good(p.dag, c) && Ended(c) && Describes(p, c, ids, r)
    ensures ReportOk(r) <==> NoStale(c)
    ensures r.status == SuccessRun <==> forall t :: t in p.dag.tasks ==> t in c.status && c.status[t] == Success
    ensures r.attemptCount == Trace.CountStarts(c.trace)
  {
    ShapeOf(p.dag, c);
    Histories.GoodTotals(p, c);
    SuccessInPlan(p, c);
    AttemptsAgree(p.order, c);
    hide Good, Ended, Shape, Exclusive, ValidPlan, NoStale, ReportOk;
    if NoStale(c) {
      FreshCounts(p, c, ids, r);
    } else {
      StaleCounts(p, c, ids, r);
    }
  }

  // ---- Stale successes come only from a rejection at resume ----

  lemma NoStaleStep(dag: Dag, c: Core, l: Label)
    requires Shape(dag, c) && NoStale(c) && Enabled(dag, c, l)
    ensures NoStale(Apply(dag, c, l))
  {
    hide Enabled, Effect, Fits;
    EnabledShape(dag, c, l);
    MovedWasNotDone(dag, c, l);
  }

  lemma MovedWasNotDone(dag: Dag, c: Core, l: Label)
    requires Shape(dag, c) && Enabled(dag, c, l)
    ensures var ch := Effect(dag, c, l);
            && (ch.status.Some? && ch.result.None? ==> ch.t in c.status && c.status[ch.t] != Success)
            && (ch.result.Some? ==> ch.status == Some(ch.result.value.status))
  {
    hide Calm, DepsDone, Machine.Starved, Idle, Machine.TerminalRunStatus, Artifacts.Satisfies, CloseOk, Fits;
  }

  lemma {:induction false} NoStaleRuns(dag: Dag, c: Core, ls: seq<Label>)
    requires Good(dag, c) && NoStale(c) && Machine.Runs(dag, c, ls)
    ensures NoStale(Exec(dag, c, ls))
  {
    hide Good, Enabled, NoStale;
    if ls != [] {
      NoStaleRuns(dag, c, ls[..|ls| - 1]);
      GoodRuns(dag, c, ls[..|ls| - 1]);
      ShapeOf(dag, Exec(dag, c, ls[..|ls| - 1]));
      NoStaleStep(dag, Exec(dag, c, ls[..|ls| - 1]), ls[|ls| - 1]);
    }
  }

  lemma SessionNotStale(dag: Dag, c: Core, s: State)
    requires Trail(dag, c, s) && NoStale(c)
    ensures NoStale(s.core)
  {
    hide Good;
    NoStaleRuns(dag, c, s.log);
  }

  /** Every fresh run that was not aborted has a report. */
  lemma FreshReportExists(plan: Plan, e: Env, cancelled: bool, ids: seq<nat>, r: RunReport)
    requires ValidPlan(plan) && !BeginSession(plan, e, cancelled).aborted
    requires Describes(plan, BeginSession(plan, e, cancelled).state.core, ids, r)
    ensures ReportOk(r)
  {
    hide Good, BeginSession, Trail, Ended, Describes, ValidPlan, NoStale;
    BeginTrail(plan, e, cancelled);
    var s := BeginSession(plan, e, cancelled).state;
    InitNotStale(plan);
    SessionNotStale(plan.dag, Init(plan).(run := RunningRun), s);
    TrailGood(plan.dag, Init(plan).(run := RunningRun), s);
    ReportExact(plan, s.core, ids, r);
  }

  lemma InitNotStale(plan: Plan)
    ensures NoStale(Init(plan).(run := RunningRun))
  {
  }

  /** Every resume that rejected no recorded success, and was not aborted, has a report. */
  lemma ResumedReportExists(plan: Plan, e: Env, stored: Core, ids: seq<nat>, r: RunReport)
    requires ValidPlan(plan) && Good(plan.dag, stored) && NothingRejected(plan.dag, e, stored)
    requires !ResumeSession(plan, e, stored).aborted
    requires Describes(plan, ResumeSession(plan, e, stored).state.core, ids, r)
    ensures ReportOk(r)
  {
    hide Good, ResumeSession, Trail, Ended, Describes, ValidPlan, NoStale, Reload;
    ResumeTrail(plan, e, stored);
    var s := ResumeSession(plan, e, stored).state;
    var c := Reload(plan.dag, e, stored).(run := RunningRun);
    AcceptedNotStale(plan.dag, e, stored);
    SessionNotStale(plan.dag, c, s);
    TrailGood(plan.dag, c, s);
    ReportExact(plan, s.core, ids, r);
  }

  lemma AcceptedNotStale(dag: Dag, e: Env, stored: Core)
    requires NothingRejected(dag, e, stored)
    ensures NoStale(Reload(dag, e, stored).(run := RunningRun))
  {
    hide Artifacts.Satisfies;
    var c := Reload(dag, e, stored);
    forall t | t in c.results && t in c.status && c.results[t].status == Success
      ensures c.status[t] == Success
    {
      assert !Rejected(dag, e, stored, t);
    }
  }
}
