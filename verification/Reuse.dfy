/** Recorded successes are reusable: resuming a run that succeeded executes nothing and keeps everything. */
module Reuse {
  import opened Model
  import opened Artifacts
  import opened Machine
  import opened Invariants
  import opened Scheduling
  import opened Sessions
  import opened Runs
  import opened Chains
  import opened Histories
  import opened Verdicts
  import Manifest
  import Remedies
  import Reruns
  import Transparency

  /** A recorded success passes the reuse check exactly while the receipts of the artifacts that prove it hold. */
  lemma ReusableExactly(dag: Dag, c: Core, t: TaskId, receiptOk: string -> bool)
    requires Good(dag, c) && t in c.results && c.results[t].status == Success
    ensures t in dag.tasks && c.results[t].attempts != []
    ensures Satisfies(c.artifacts, dag.runId, dag.tasks[t], c.results[t], receiptOk)
       <==> ReceiptsHold(c.artifacts, dag.runId, dag.tasks[t], c.results[t], receiptOk)
  {
    Transparency.ResultKinds(dag, c);
    Manifest.ReusableOf(dag, c, t);
    hide Good, Satisfies, ReceiptsHold, OneProofEach;
    ReuseNeedsReceipts(c.artifacts, dag.runId, dag.tasks[t], c.results[t], receiptOk);
  }

  /** So it is in every stored state of every history: nothing but a receipt can make a recorded success fail. */
  lemma SuccessIsReusable(dag: Dag, ch: Chain, t: TaskId, receiptOk: string -> bool)
    requires ValidChain(dag, ch)
    requires t in Durable(dag, ch).results && Durable(dag, ch).results[t].status == Success
    ensures t in dag.tasks && Durable(dag, ch).results[t].attempts != []
    ensures var c := Durable(dag, ch);
            Satisfies(c.artifacts, dag.runId, dag.tasks[t], c.results[t], receiptOk)
            <==> ReceiptsHold(c.artifacts, dag.runId, dag.tasks[t], c.results[t], receiptOk)
  {
    hide Good, Durable, ValidChain, Satisfies, ReceiptsHold;
    ChainGood(dag, ch);
    ReusableExactly(dag, Durable(dag, ch), t, receiptOk);
  }

  ghost predicate AllSucceeded(dag: Dag, c: Core) {
    forall t :: t in dag.tasks ==> t in c.results && c.results[t].status == Success
  }

  /** Resuming a run whose tasks all succeeded, none rejected: no start, same results, same artifacts, SUCCESS. */
  lemma SucceededRunIsReused(plan: Plan, e: Env, stored: Core)
    requires ValidPlan(plan) && Good(plan.dag, stored) && AllSucceeded(plan.dag, stored)
    requires NothingRejected(plan.dag, e, stored)
    ensures var r := ResumeSession(plan, e, stored);
            && !r.aborted && NoStarts(r.state.log) && r.state.core.run == SuccessRun
            && r.state.core.results == stored.results && r.state.core.artifacts == stored.artifacts
  {
    hide Good, Trail, Opening, Loop, SkipRemaining, IndeterminateIds, ReconcileOne, ValidPlan, NothingRejected;
    ReloadGood(plan.dag, e, stored);
    ReloadKeeps(plan.dag, e, stored);
    Transparency.ReloadStatus(plan.dag, e, stored);
    var c := Reload(plan.dag, e, stored);
    assert forall t :: t in c.status ==> c.status[t] == Success;
    hide Reload;
    OpeningTrail(plan, c);
    var s := Opening(plan, c);
    IndeterminateTrail(plan, c.(run := RunningRun), s);
    assert IndeterminateIds(plan, s.core, |plan.order|) == [];
    assert !AnyDoomed(s.core);
    Transparency.LoopIsFinish(plan, e, s);
    FinishLog(plan, s);
    Transparency.FinishStatus(plan, s);
    FinishTrail(plan, c.(run := RunningRun), s);
    SucceededEnd(plan, c.(run := RunningRun), s);
  }

  /** It starts nothing exactly when nothing is rejected, which only a broken receipt can bring about. */
  lemma SucceededRunStartsNothing(plan: Plan, e: Env, stored: Core)
    requires ValidPlan(plan) && Good(plan.dag, stored) && AllSucceeded(plan.dag, stored)
    ensures NoStarts(ResumeSession(plan, e, stored).state.log) <==> NothingRejected(plan.dag, e, stored)
    ensures NothingRejected(plan.dag, e, stored) <==>
              forall t :: t in plan.dag.tasks ==> RecordHolds(plan.dag, e, stored, t)
  {
    hide Good, ResumeSession, ValidPlan, RecordHolds, Rejected;
    forall t
      ensures Rejected(plan.dag, e, stored, t) <==> t in plan.dag.tasks && !RecordHolds(plan.dag, e, stored, t)
    {
      RejectedExactly(plan.dag, e, stored, t);
    }
    if NothingRejected(plan.dag, e, stored) {
      SucceededRunIsReused(plan, e, stored);
    } else {
      var t :| Rejected(plan.dag, e, stored, t);
      RejectedRestarts(plan, e, stored, t);
    }
  }

  lemma RejectedExactly(dag: Dag, e: Env, stored: Core, t: TaskId)
    requires Good(dag, stored) && AllSucceeded(dag, stored)
    ensures Rejected(dag, e, stored, t) <==> t in dag.tasks && !RecordHolds(dag, e, stored, t)
  {
    hide Good, Satisfies, ReceiptsHold;
    if t in dag.tasks {
      ReusableExactly(dag, stored, t, e.receiptOk);
    }
  }

  /** The receipts of the recorded success of `t` hold. */
  predicate RecordHolds(dag: Dag, e: Env, stored: Core, t: TaskId)
    requires t in dag.tasks
  {
    && t in stored.results && stored.results[t].attempts != []
    && ReceiptsHold(stored.artifacts, dag.runId, dag.tasks[t], stored.results[t], e.receiptOk)
  }

  lemma SuccessIsNotBarred(plan: Plan, e: Env, stored: Core)
    requires ValidPlan(plan) && Good(plan.dag, stored) && AllSucceeded(plan.dag, stored)
    ensures Reruns.EntryOf(plan, e, stored).From?
  {
    Reruns.ResultsOf(plan.dag, stored);
    hide Good, ValidPlan, Settles;
    Reruns.BarredWhen(plan, e, stored);
  }

  /** A rejected success makes the resume start something. */
  lemma RejectedRestarts(plan: Plan, e: Env, stored: Core, t: TaskId)
    requires ValidPlan(plan) && Good(plan.dag, stored) && AllSucceeded(plan.dag, stored)
    requires Rejected(plan.dag, e, stored, t)
    ensures !NoStarts(ResumeSession(plan, e, stored).state.log)
  {
    hide Good, ResumeSession, ValidPlan, Rejected, Reruns.EntryOf, AllSucceeded, Remedies.Attempted,
        Remedies.Runnable, Transparency.FirstReady, Verdict;
    SuccessIsNotBarred(plan, e, stored);
    Reruns.ResumeStarts(plan, e, stored);
    var at := Reruns.EntryOf(plan, e, stored);
    match Transparency.FirstReady(plan, at.status, |plan.order|)
    case Some(u) =>
      assert u in Reruns.ResumeReruns(plan, e, stored).started;
      var log := ResumeSession(plan, e, stored).state.log;
      var i :| 0 <= i < |log| && log[i] == Start(u);
    case None =>
      Remedies.EntryCalm(plan, e, stored);
      Remedies.AttemptedRuns(plan, stored);
      Remedies.RejectedAttempted(plan.dag, e, stored, t);
      Reruns.RejectedIsPending(plan, e, stored, t);
      var rank := PlanRank(plan);
      Remedies.RunnableDone(plan, at.status, Remedies.Attempted(stored), rank, t);
      assert false;
  }

  lemma PlanRank(plan: Plan) returns (rank: map<TaskId, nat>)
    requires ValidPlan(plan)
    ensures Ranks(plan.dag.tasks, rank)
  {
    rank :| Ranks(plan.dag.tasks, rank);
  }

  /** The resumed run lists what the stored run listed, in the same order, if the receipts read the same. */
  lemma SucceededRunKeepsManifest(
    plan: Plan, e: Env, stored: Core, receiptOk: string -> bool, ids: seq<nat>, ids': seq<nat>)
    requires ValidPlan(plan) && Good(plan.dag, stored) && AllSucceeded(plan.dag, stored)
    requires NothingRejected(plan.dag, e, stored) && Manifest.SameReceipts(stored.artifacts, receiptOk, e.receiptOk)
    requires Manifest.IsManifest(plan, stored, receiptOk, ids)
    requires Manifest.IsManifest(plan, ResumeSession(plan, e, stored).state.core, e.receiptOk, ids')
    ensures ids == ids'
  {
    hide Good, ResumeSession, Manifest.IsManifest, NothingRejected, Manifest.SameReceipts;
    SucceededRunIsReused(plan, e, stored);
    Manifest.SameManifest(plan, stored, ResumeSession(plan, e, stored).state.core, receiptOk, e.receiptOk, ids);
    Manifest.ManifestIsUnique(plan, ResumeSession(plan, e, stored).state.core, e.receiptOk, ids, ids');
  }

  lemma SucceededEnd(p: Plan, c0: Core, s: State)
    requires ValidPlan(p) && Trail(p.dag, c0, s) && forall t :: t in s.core.status ==> s.core.status[t] == Success
    ensures Finish(p, s).core.run == SuccessRun && Finish(p, s).core.artifacts == s.core.artifacts
  {
    hide Good, Trail, ValidPlan, Finish, FinalStatus;
    TrailDomain(p.dag, c0, s);
    FirstTask(p);
    AllSuccessIsSuccess(s.core, p.order[0]);
    FinishedRun(p, s);
  }

  lemma FinishedRun(p: Plan, s: State)
    ensures Finish(p, s).core.run == FinalStatus(s.core) && Finish(p, s).core.artifacts == s.core.artifacts
  {
    hide FinalStatus;
  }

  lemma AllSuccessIsSuccess(c: Core, t: TaskId)
    requires t in c.status && forall u :: u in c.status ==> c.status[u] == Success
    ensures FinalStatus(c) == SuccessRun
  {
  }
}
