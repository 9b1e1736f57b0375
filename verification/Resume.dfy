/** What a resumed process keeps of the stored results. */
module Resume {
  import opened Model
  import opened Transitions
  import opened Artifacts
  import opened Machine
  import opened Tracker
  import opened Chains

  datatype ResumeEvaluation = ResumeEvaluation(
    reusable: seq<TaskId>,
    pending: seq<TaskId>,
    indeterminate: seq<TaskId>,
    rejected: seq<TaskId>,
    preserved: map<TaskId, Status>)

  datatype Verdict = NoResult | Reuse | Reject | Indeterminate | Redo | Preserve(status: Status)

  /** How a stored result bears on its task. */
  function Classify(arts: seq<Artifact>, dag: Dag, prior: map<TaskId, TaskResult>, receiptOk: string -> bool,
      t: TaskId): Verdict
    requires t in dag.tasks
  {
    if t !in prior then NoResult
    else match prior[t].status
      case Success => if Satisfies(arts, dag.runId, dag.tasks[t], prior[t], receiptOk) then Reuse else Reject
      case Running => Indeterminate
      case Pending => Redo
      case Ready => Redo
      case s => Preserve(s)
  }

  /** The four lists of an evaluation. */
  datatype Bin = Reusable | Undone | Unsettled | Rejected

  predicate Belongs(bin: Bin, verdict: Verdict) {
    match bin
    case Reusable => verdict == Reuse
    case Undone => verdict in {NoResult, Reject, Redo}
    case Unsettled => verdict == Indeterminate
    case Rejected => verdict == Reject
  }

  /** Those of a list of tasks that belong in `bin`, in order. */
  ghost function Picked(bin: Bin, order: seq<TaskId>, verdict: TaskId -> Verdict): seq<TaskId> {
    if order == [] then []
    else
      var last := order[|order| - 1];
      Picked(bin, order[..|order| - 1], verdict) + if Belongs(bin, verdict(last)) then [last] else []
  }

  /** `list` holds exactly those of the first `k` tasks that belong in `bin`, in order. */
  ghost predicate Filled(bin: Bin, list: seq<TaskId>, order: seq<TaskId>, k: nat, verdict: TaskId -> Verdict)
    requires k <= |order|
  {
    && list == Picked(bin, order[..k], verdict)
    && forall t :: t in list <==> t in order[..k] && Belongs(bin, verdict(t))
  }

  ghost predicate Sorted(p: Plan, ev: ResumeEvaluation, k: nat, verdict: TaskId -> Verdict)
    requires k <= |p.order|
  {
    && Filled(Reusable, ev.reusable, p.order, k, verdict)
    && Filled(Undone, ev.pending, p.order, k, verdict)
    && Filled(Unsettled, ev.indeterminate, p.order, k, verdict)
    && Filled(Rejected, ev.rejected, p.order, k, verdict)
    && (forall t :: t in ev.preserved <==> t in p.order[..k] && verdict(t).Preserve?)
    && (forall t :: t in ev.preserved ==> verdict(t) == Preserve(ev.preserved[t]))
  }

  ghost function Verdicts(arts: seq<Artifact>, dag: Dag, prior: map<TaskId, TaskResult>,
      receiptOk: string -> bool): TaskId -> Verdict {
    t => if t in dag.tasks then Classify(arts, dag, prior, receiptOk, t) else NoResult
  }

  lemma OneMore(bin: Bin, list: seq<TaskId>, order: seq<TaskId>, k: nat, verdict: TaskId -> Verdict)
    requires k < |order| && Filled(bin, list, order, k, verdict)
    ensures Filled(bin, if Belongs(bin, verdict(order[k])) then list + [order[k]] else list, order, k + 1, verdict)
  {
    assert order[..k + 1] == order[..k] + [order[k]];
    assert order[..k + 1][..k] == order[..k];
  }

  lemma SortedStep(p: Plan, ev: ResumeEvaluation, ev': ResumeEvaluation, k: nat, verdict: TaskId -> Verdict)
    requires k < |p.order| && Sorted(p, ev, k, verdict)
    requires var t := p.order[k];
             ev' == match verdict(t)
                    case Reuse => ev.(reusable := ev.reusable + [t])
                    case Reject => ev.(rejected := ev.rejected + [t], pending := ev.pending + [t])
                    case Indeterminate => ev.(indeterminate := ev.indeterminate + [t])
                    case Preserve(s) => ev.(preserved := ev.preserved[t := s])
                    case _ => ev.(pending := ev.pending + [t])
    ensures Sorted(p, ev', k + 1, verdict)
  {
    hide Filled;
    OneMore(Reusable, ev.reusable, p.order, k, verdict);
    OneMore(Undone, ev.pending, p.order, k, verdict);
    OneMore(Unsettled, ev.indeterminate, p.order, k, verdict);
    OneMore(Rejected, ev.rejected, p.order, k, verdict);
    PreservedStep(p.order, k, ev.preserved, ev'.preserved, verdict);
  }

  lemma PreservedStep(order: seq<TaskId>, k: nat, was: map<TaskId, Status>, now: map<TaskId, Status>,
      verdict: TaskId -> Verdict)
    requires k < |order| && (forall t :: t in was <==> t in order[..k] && verdict(t).Preserve?)
    requires forall t :: t in was ==> verdict(t) == Preserve(was[t])
    requires now == match verdict(order[k]) case Preserve(s) => was[order[k] := s] case _ => was
    ensures forall t :: t in now <==> t in order[..k + 1] && verdict(t).Preserve?
    ensures forall t :: t in now ==> verdict(t) == Preserve(now[t])
  {
    assert order[..k + 1] == order[..k] + [order[k]];
  }

  /** evaluate_resume_tasks: every task lands in the lists its stored result calls for, and in no other. */
  method EvaluateResumeTasks(tracker: ArtifactTracker, p: Plan, prior: map<TaskId, TaskResult>)
      returns (ev: ResumeEvaluation)
    requires forall t :: t in p.order ==> t in p.dag.tasks
    ensures Sorted(p, ev, |p.order|, Verdicts(tracker.artifacts, p.dag, prior, tracker.receiptOk))
  {
    ghost var verdict := Verdicts(tracker.artifacts, p.dag, prior, tracker.receiptOk);
    hide Satisfies, Sorted;
    ev := ResumeEvaluation([], [], [], [], map[]);
    EmptySorted(p, verdict);
    for k := 0 to |p.order|
      invariant Sorted(p, ev, k, verdict)
    {
      var t := p.order[k];
      ghost var before := ev;
      if t !in prior {
        ev := ev.(pending := ev.pending + [t]);
      } else {
        var r := prior[t];
        match r.status
        case Success =>
          var valid := tracker.ResultSatisfiesRequiredOutputs(p.dag.runId, p.dag.tasks[t], r);
          if valid {
            ev := ev.(reusable := ev.reusable + [t]);
          } else {
            ev := ev.(rejected := ev.rejected + [t], pending := ev.pending + [t]);
          }
        case Running => ev := ev.(indeterminate := ev.indeterminate + [t]);
        case Pending => ev := ev.(pending := ev.pending + [t]);
        case Ready => ev := ev.(pending := ev.pending + [t]);
        case Failed => ev := ev.(preserved := ev.preserved[t := Failed]);
        case Skipped => ev := ev.(preserved := ev.preserved[t := Skipped]);
        case Cancelled => ev := ev.(preserved := ev.preserved[t := Cancelled]);
      }
      SortedStep(p, before, ev, k, verdict);
    }
  }

  lemma EmptySorted(p: Plan, verdict: TaskId -> Verdict)
    ensures Sorted(p, ResumeEvaluation([], [], [], [], map[]), 0, verdict)
  {
  }

  function Applied(ev: ResumeEvaluation, t: TaskId): Status {
    if t in ev.reusable then Success
    else if t in ev.indeterminate then Running
    else if t in ev.preserved then ev.preserved[t]
    else Pending
  }

  /** apply_resume_reuse: a fresh, pending task takes the status its evaluation gives it; no transition is refused. */
  method ApplyResumeReuse(p: Plan, ev: ResumeEvaluation) returns (statuses: map<TaskId, Status>)
    requires forall t :: t in ev.preserved ==> ev.preserved[t] in {Failed, Skipped, Cancelled}
    ensures forall t :: t in statuses <==> t in p.order
    ensures forall t :: t in p.order ==> statuses[t] == Applied(ev, t)
  {
    statuses := map[];
    for k := 0 to |p.order|
      invariant forall t :: t in statuses <==> t in p.order[..k]
      invariant forall t :: t in p.order[..k] ==> statuses[t] == Applied(ev, t)
    {
      var t := p.order[k];
      assert p.order[..k + 1] == p.order[..k] + [t];
      var next := Ok(Pending);
      if t in ev.reusable {
        next := Transition(Pending, Success, true);
      } else if t in ev.indeterminate {
        next := Transition(Pending, Running, true);
      } else if t in ev.preserved {
        next := Transition(Pending, ev.preserved[t], true);
      }
      statuses := statuses[t := next.value];
    }
    assert p.order[..|p.order|] == p.order;
  }

  lemma PreservedEnded(p: Plan, ev: ResumeEvaluation, arts: seq<Artifact>, prior: map<TaskId, TaskResult>,
      receiptOk: string -> bool)
    requires Sorted(p, ev, |p.order|, Verdicts(arts, p.dag, prior, receiptOk))
    requires forall t :: t in p.order ==> t in p.dag.tasks
    ensures forall t :: t in ev.preserved ==> ev.preserved[t] in {Failed, Skipped, Cancelled}
  {
    hide Satisfies;
    assert p.order[..|p.order|] == p.order;
  }

  /** Evaluation followed by reuse gives each task the status the reload of the machine gives it. */
  lemma ReuseIsReload(p: Plan, ev: ResumeEvaluation, statuses: map<TaskId, Status>, e: Env, c: Core)
    requires forall t :: t in p.order <==> t in p.dag.tasks
    requires Sorted(p, ev, |p.order|, Verdicts(c.artifacts, p.dag, c.results, e.receiptOk))
    requires forall t :: t in statuses <==> t in p.order
    requires forall t :: t in p.order ==> statuses[t] == Applied(ev, t)
    ensures statuses == Reload(p.dag, e, c).status
  {
    hide Satisfies;
    assert p.order[..|p.order|] == p.order;
    forall t | t in p.order
      ensures statuses[t] == ResumedStatus(p.dag, e, c, t)
    {
      AppliedIsResumed(p, ev, e, c, t);
    }
    assert Reload(p.dag, e, c).status == map t | t in p.dag.tasks :: ResumedStatus(p.dag, e, c, t);
  }

  lemma AppliedIsResumed(p: Plan, ev: ResumeEvaluation, e: Env, c: Core, t: TaskId)
    requires t in p.order && t in p.dag.tasks
    requires Sorted(p, ev, |p.order|, Verdicts(c.artifacts, p.dag, c.results, e.receiptOk))
    ensures Applied(ev, t) == ResumedStatus(p.dag, e, c, t)
  {
    hide Satisfies;
    assert p.order[..|p.order|] == p.order;
    var v := Classify(c.artifacts, p.dag, c.results, e.receiptOk, t);
    assert Verdicts(c.artifacts, p.dag, c.results, e.receiptOk)(t) == v;
  }
}
