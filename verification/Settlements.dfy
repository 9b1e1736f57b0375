/** What a resume makes of the attempt it finds open, and what it keeps of everything else on record. */
module Settlements {
  import opened Model
  import opened Artifacts
  import opened Trace
  import opened Machine
  import opened Invariants
  import opened Scheduling
  import opened Sessions
  import opened Runs
  import opened Chains
  import opened Verdicts
  import opened Records
  import Endings
  import Reruns
  import Survival
  import T = Transparency
  import Transitions

  // ---- The answer and the record ----

  /** The outputs of attempt `a` would pass validation. */
  predicate OutputsValid(dag: Dag, arts: seq<Artifact>, t: TaskId, a: nat)
    requires t in dag.tasks
  {
    forall k :: 0 <= k < |dag.tasks[t].outputs| ==>
      var d := dag.tasks[t].outputs[k];
      Judge(d, Newest(arts, dag.runId, a, d.name), dag.runId, t) in {Accept, Ignore}
  }

  predicate Conclusive(answer: ReconciliationState) {
    answer.ReportedFailed? || answer.ReportedCancelled? || answer.Succeeded?
  }

  /** What the answer makes of a result: the same attempts, and nothing lost of what was on record. */
  ghost predicate SettledAs(dag: Dag, arts: seq<Artifact>, prior: TaskResult, answer: ReconciliationState,
      r: TaskResult)
    requires prior.attempts != [] && prior.taskId in dag.tasks
  {
    var t, a := prior.taskId, Last(prior.attempts);
    && r.runId == dag.runId && r.taskId == t && r.attempts == prior.attempts
    && match answer
       case ReportedFailed(error) =>
         && r.status == Failed && r.artifactIds == prior.artifactIds && r.summary == Some("failed")
         && r.errors == prior.errors + [if error.Some? then error.value
                                        else Failure("reconciliation_failed", "reconciliation", t, Some(a))]
       case ReportedCancelled =>
         && r.status == Cancelled && r.artifactIds == prior.artifactIds && r.summary == Some("cancelled")
         && r.errors == prior.errors
       case Succeeded =>
         if OutputsValid(dag, arts, t, a) then
           && r.status == Success && r.summary == Some("reconciled_success") && r.errors == prior.errors
           && r.artifactIds == prior.artifactIds + Chosen(arts, dag.runId, a, dag.tasks[t].outputs)
         else
           && r.status == Failed && r.artifactIds == prior.artifactIds && r.summary == Some("failed")
           && r.errors == prior.errors
                        + [Failure("artifact_validation_failed", "artifact_validation", t, Some(a))]
       case _ => r == prior
  }

  /** Event `e` closes attempt `a` of `t`; no event of this process caused it. */
  predicate Reconciles(e: Event, t: TaskId, a: nat, status: Status, note: Note) {
    && e.task == t && e.attempt == Some(a) && e.note == note && e.cause == None
    && e.kind == match status case Success => TaskCompleted case Cancelled => TaskCancelled case _ => TaskFailed
  }

  /** What the closing event of a reconciliation notes. */
  function NoteOf(answer: ReconciliationState, status: Status): Note {
    if answer.ReportedCancelled? then NoNote
    else if answer.Succeeded? && status == Failed then Reason("artifact_validation")
    else Reason("reconciliation")
  }

  /** What the process notes when the answer stops it. */
  predicate StoppedBy(answer: ReconciliationState, c: Core) {
    match answer
    case StillRunning => c.run == InterruptedRun && c.trace != [] && Last(c.trace).note == Reason("still_running")
    case Lost => c.run == ReconciliationRequired && c.trace != [] && Last(c.trace).note == Reason("lost")
    case Unknown => c.run == ReconciliationRequired && c.trace != [] && Last(c.trace).note == Reason("unknown")
    case _ => false
  }

  lemma OpenRecord(dag: Dag, c: Core, t: TaskId)
    requires Good(dag, c) && Has(c, t, Running)
    ensures t in dag.tasks && t in c.results && c.results[t].status == Running && c.results[t].attempts != []
    ensures c.results[t].runId == dag.runId && c.results[t].taskId == t
    ensures c.results[t].artifactIds == [] && c.results[t].errors == []
  {
    hide Exclusive, Supplied, Conserved, Separate, StarvedNeverRan, Ordered, FailureKnown, ClosedOnce, WellTraced,
        Reusable;
    assert Fits(dag, t, c.results[t], c.status[t]);
  }

  lemma VerdictIsValid(dag: Dag, arts: seq<Artifact>, t: TaskId, a: nat)
    requires t in dag.tasks
    ensures var v := Validate(arts, dag.runId, t, a, dag.tasks[t].outputs).verdict;
            && (v.Ok? <==> OutputsValid(dag, arts, t, a))
            && (v.Ok? ==> v.value == Chosen(arts, dag.runId, a, dag.tasks[t].outputs))
            && (v.Err? ==> v.error == "artifact_validation_failed")
  {
    var outputs := dag.tasks[t].outputs;
    ValidateFromVerdict(arts, arts, dag.runId, t, a, outputs, 0, [], true);
    assert outputs[..0] == [];
    ValidateChosen(arts, arts, dag.runId, t, a, outputs, 0, [], true);
    hide ValidateFrom, Judge, Newest;
  }

  lemma MergeChosen(p: Plan, c: Core, t: TaskId, a: nat, prior: seq<nat>)
    requires ValidPlan(p) && Good(p.dag, c) && t in p.dag.tasks && prior == []
    ensures var chosen := Chosen(c.artifacts, p.dag.runId, a, p.dag.tasks[t].outputs);
            Merge(prior, chosen) == prior + chosen
  {
    hide Shape, Exclusive, Conserved, Separate, StarvedNeverRan, Ordered, FailureKnown, ClosedOnce, WellTraced,
        Reusable, ValidDag, StaticInputs, Chosen;
    ChosenDistinct(c.artifacts, p.dag.runId, a, p.dag.tasks[t].outputs);
    MergeFresh(prior, Chosen(c.artifacts, p.dag.runId, a, p.dag.tasks[t].outputs));
  }

  lemma ClosedWith(dag: Dag, s: State, r: TaskResult, arts: seq<Artifact>, note: Note)
    requires r.attempts != [] && r.status in {Success, Failed, Cancelled}
    ensures var c' := CloseWith(dag, s, r, arts, note, None).core;
            && c'.results == s.core.results[r.taskId := r]
            && |c'.trace| == |s.core.trace| + 1 && s.core.trace <= c'.trace
            && Reconciles(Last(c'.trace), r.taskId, Last(r.attempts), r.status, note)
  {
  }

  /** One round of reconciliation records what the answer calls for, and says so in the trace. */
  lemma RoundRecords(p: Plan, e: Env, s: State, t: TaskId)
    requires ValidPlan(p) && Good(p.dag, s.core) && Has(s.core, t, Running) && t in p.dag.tasks
    ensures t in s.core.results && s.core.results[t].attempts != [] && s.core.results[t].taskId == t
    ensures var prior := s.core.results[t];
            var answer := e.reconcile(t, Last(prior.attempts));
            var r := ReconcileOne(p, e, s, t);
            && (r.blocked <==> !Conclusive(answer)) && s.core.trace <= r.state.core.trace
            && t in r.state.core.results
            && SettledAs(p.dag, s.core.artifacts, prior, answer, r.state.core.results[t])
            && (r.blocked ==> r.state.core.results == s.core.results && StoppedBy(answer, r.state.core))
            && (!r.blocked ==>
                  && |r.state.core.trace| == |s.core.trace| + 1
                  && r.state.core.results == s.core.results[t := r.state.core.results[t]]
                  && Reconciles(Last(r.state.core.trace), t, Last(prior.attempts), r.state.core.results[t].status,
                      NoteOf(answer, r.state.core.results[t].status)))
  {
    hide Good, CloseWith, Validate, OutputsValid, Chosen, Reconciles, Merge, ValidPlan;
    OpenRecord(p.dag, s.core, t);
    var prior := s.core.results[t];
    var a := Last(prior.attempts);
    VerdictIsValid(p.dag, s.core.artifacts, t, a);
    MergeKnown(prior.artifactIds, prior.artifactIds);
    MergeChosen(p, s.core, t, a, prior.artifactIds);
    var v := Validate(s.core.artifacts, p.dag.runId, t, a, p.dag.tasks[t].outputs);
    match e.reconcile(t, a)
    case ReportedFailed(error) =>
      var r := BuildResult(p.dag, t, Failed, prior.attempts, Some(prior), prior.artifactIds,
          [ReportedError(t, a, error)], [], None);
      ClosedWith(p.dag, s, r, s.core.artifacts, Reason("reconciliation"));
    case ReportedCancelled =>
      var r := BuildResult(p.dag, t, Cancelled, prior.attempts, Some(prior), prior.artifactIds, [], [],
          Some("cancelled"));
      ClosedWith(p.dag, s, r, s.core.artifacts, NoNote);
    case Succeeded =>
      if v.verdict.Ok? {
        var r := BuildResult(p.dag, t, Success, prior.attempts, Some(prior), v.verdict.value, [], [],
            Some("reconciled_success"));
        ClosedWith(p.dag, s, r, v.artifacts, Reason("reconciliation"));
      } else {
        var failure := Failure(v.verdict.error, "artifact_validation", t, Some(a));
        var r := BuildResult(p.dag, t, Failed, prior.attempts, Some(prior), prior.artifactIds, [failure], [], None);
        ClosedWith(p.dag, s, r, v.artifacts, Reason("artifact_validation"));
      }
    case _ =>
  }

  // ---- What is closed stays as it is ----

  lemma {:induction false} RunsSplit(dag: Dag, c: Core, a: seq<Label>, b: seq<Label>)
    ensures Exec(dag, c, a + b) == Exec(dag, Exec(dag, c, a), b)
    ensures Machine.Runs(dag, c, a + b) ==> Machine.Runs(dag, Exec(dag, c, a), b)
  {
    hide Enabled, Apply;
    if b == [] {
      assert a + b == a;
    } else {
      RunsSplit(dag, c, a, b[..|b| - 1]);
      assert (a + b)[..|a + b| - 1] == a + b[..|b| - 1];
    }
  }

  /** A task that reached a terminal status keeps it, and its result, whatever else the process commits. */
  lemma TerminalStep(dag: Dag, c: Core, l: Label, t: TaskId)
    requires Enabled(dag, c, l) && t in c.status && Transitions.Terminal(c.status[t])
    ensures var c' := Apply(dag, c, l);
            && t in c'.status && c'.status[t] == c.status[t] && (t in c'.results <==> t in c.results)
            && (t in c.results ==> c'.results[t] == c.results[t]) && c.trace <= c'.trace
  {
    hide Calm, DepsDone, Starved, Idle, TerminalRunStatus, Satisfies, OneProofEach, WellClosed, StartedBy, Promoted;
  }

  lemma {:induction false} TerminalStays(dag: Dag, c: Core, ls: seq<Label>, t: TaskId)
    requires Machine.Runs(dag, c, ls) && t in c.status && Transitions.Terminal(c.status[t])
    ensures var c' := Exec(dag, c, ls);
            && t in c'.status && c'.status[t] == c.status[t] && (t in c'.results <==> t in c.results)
            && (t in c.results ==> c'.results[t] == c.results[t]) && c.trace <= c'.trace
  {
    hide Enabled, Apply, Transitions.Terminal;
    if ls != [] {
      TerminalStays(dag, c, ls[..|ls| - 1], t);
      TerminalStep(dag, Exec(dag, c, ls[..|ls| - 1]), Last(ls), t);
    }
  }

  lemma LaterStays(dag: Dag, c0: Core, s: State, s': State, t: TaskId)
    requires Trail(dag, c0, s) && Trail(dag, c0, s') && s.log <= s'.log
    requires t in s.core.status && Transitions.Terminal(s.core.status[t]) && t in s.core.results
    ensures t in s'.core.results && s'.core.results[t] == s.core.results[t] && s.core.trace <= s'.core.trace
    ensures t in s'.core.status && s'.core.status[t] == s.core.status[t]
  {
    hide Good;
    var rest := s'.log[|s.log|..];
    assert s'.log == s.log + rest;
    RunsSplit(dag, c0, s.log, rest);
    TerminalStays(dag, s.core, rest, t);
  }

  // ---- The resume ----

  /** How the resume ends for the attempt of `t` it found open. */
  ghost predicate Resolved(dag: Dag, stored: Core, c': Core, t: TaskId, answer: ReconciliationState)
    requires t in stored.results && stored.results[t].attempts != [] && stored.results[t].taskId in dag.tasks
  {
    && t in c'.results && stored.trace <= c'.trace
    && SettledAs(dag, stored.artifacts, stored.results[t], answer, c'.results[t])
    && (Conclusive(answer) ==>
          && Has(c', t, c'.results[t].status)
          && exists i :: |stored.trace| <= i < |c'.trace|
               && Reconciles(c'.trace[i], t, Last(stored.results[t].attempts), c'.results[t].status,
                      NoteOf(answer, c'.results[t].status)))
    && (!Conclusive(answer) ==> StoppedBy(answer, c'))
  }

  lemma OpenedAt(p: Plan, e: Env, stored: Core, t: TaskId) returns (s: State)
    requires ValidPlan(p) && Good(p.dag, stored) && t in stored.results && stored.results[t].status == Running
    ensures var c := Reload(p.dag, e, stored);
            && s == Opening(p, c) && Trail(p.dag, c.(run := RunningRun), s)
            && s.core.results == stored.results && s.core.artifacts == stored.artifacts && stored.trace <= s.core.trace
            && Has(s.core, t, Running) && Loaded(s.core)
            && Reconcile(p, e, s, IndeterminateIds(p, s.core, |p.order|), 0) == ReconcileOne(p, e, s, t)
  {
    hide Good, Trail, ValidPlan, Reload, Opening, IndeterminateIds, Reconcile, ReconcileOne, Loaded;
    var c := Reload(p.dag, e, stored);
    ReloadGood(p.dag, e, stored);
    Reruns.ReloadSupply(p.dag, e, stored);
    Reruns.ReloadOpen(p.dag, e, stored, t);
    OpeningTrail(p, c);
    OpeningExtends(p, c);
    s := Opening(p, c);
    SameLoaded(c, s.core);
    IndeterminateTrail(p, c.(run := RunningRun), s);
    ReconcileUnfold(p, e, s, [t]);
  }

  lemma OpeningExtends(p: Plan, c: Core)
    ensures c.trace <= Opening(p, c).core.trace
  {
  }

  /** What follows a reconciliation that did not stop the process, up to its end. */
  lemma GoesOn(p: Plan, e: Env, c0: Core, s: State)
    requires ValidPlan(p) && Trail(p.dag, c0, s) && Idle(s.core)
    ensures var s' := if AnyDoomed(s.core) then SkipRemaining(p, s, "prior_terminal_state", 0) else s;
            var r := Loop(p, e, s', false);
            Trail(p.dag, c0, r.state) && s.log <= r.state.log
  {
    hide Good, Trail, SkipRemaining, Loop, AnyDoomed, ValidPlan, Settled, LoopEntry, Endings.Closed;
    EnterLoop(p, c0, s);
    var s' := if AnyDoomed(s.core) then SkipRemaining(p, s, "prior_terminal_state", 0) else s;
    LoopTrail(p, e, c0, s', false);
    Endings.SettledCloses(p, e, s);
    Endings.ClosedGrows(s, Loop(p, e, s', false));
  }

  lemma RoundIdle(p: Plan, e: Env, c0: Core, s: State, t: TaskId)
    requires ValidPlan(p) && Trail(p.dag, c0, s) && Has(s.core, t, Running) && Loaded(s.core)
    requires !ReconcileOne(p, e, s, t).blocked
    ensures var r := ReconcileOne(p, e, s, t).state;
            && Trail(p.dag, c0, r) && Idle(r.core) && t in r.core.results && Has(r.core, t, r.core.results[t].status)
            && Transitions.Terminal(r.core.status[t])
  {
    hide Good, Trail, ReconcileOne, ValidPlan;
    ReconcileOneTrail(p, e, c0, s, t);
    IndeterminateTrail(p, c0, s);
    var r := ReconcileOne(p, e, s, t).state;
    forall u | u in r.core.status
      ensures r.core.status[u] !in {Ready, Running}
    {
      assert Has(s.core, u, Running) ==> [t] == [u];
      assert u != t ==> r.core.status[u] == s.core.status[u];
    }
  }

  /**
    The attempt a resume finds open is closed as the backend's answer and the stored artifacts have it, with every
    id and error that was on record and the error the backend brought; an answer that settles nothing leaves it
    alone, and the process says why it stopped.
  */
  lemma OpenAttemptIsSettled(p: Plan, e: Env, stored: Core, t: TaskId)
    requires ValidPlan(p) && Good(p.dag, stored) && t in stored.results && stored.results[t].status == Running
    ensures stored.results[t].attempts != [] && stored.results[t].taskId in p.dag.tasks
    ensures Resolved(p.dag, stored, ResumeSession(p, e, stored).state.core, t,
                e.reconcile(t, Last(stored.results[t].attempts)))
  {
    hide Good, Trail, ValidPlan, Reload, Opening, IndeterminateIds, Reconcile, ReconcileOne, SkipRemaining, Loop,
        AnyDoomed, Loaded, SettledAs, Reconciles, StoppedBy, Idle, Transitions.Terminal, NoteOf;
    var s := OpenedAt(p, e, stored, t);
    var c0 := Reload(p.dag, e, stored).(run := RunningRun);
    TrailGood(p.dag, c0, s);
    OpenRecord(p.dag, s.core, t);
    RoundRecords(p, e, s, t);
    var r := ReconcileOne(p, e, s, t);
    if !r.blocked {
      RoundIdle(p, e, c0, s, t);
      GoesOn(p, e, c0, r.state);
      LaterStays(p.dag, c0, r.state, ResumeSession(p, e, stored).state, t);
      var c' := ResumeSession(p, e, stored).state.core;
      var i := |r.state.core.trace| - 1;
      assert |stored.trace| <= i;
      assert c'.trace[i] == Last(r.state.core.trace);
      assert c'.results[t] == r.state.core.results[t];
      assert Reconciles(c'.trace[i], t, Last(stored.results[t].attempts), c'.results[t].status,
          NoteOf(e.reconcile(t, Last(stored.results[t].attempts)), c'.results[t].status));
    }
  }

  // ---- Nothing on record is lost ----

  ghost predicate Extends(r: TaskResult, r': TaskResult) {
    r.attempts <= r'.attempts && r.artifactIds <= r'.artifactIds && r.errors <= r'.errors
  }

  /** Every result is still there and says at least what it said, unless its task was started and is still open. */
  ghost predicate Grown(c: Core, c': Core) {
    forall t :: t in c.results ==>
      t in c'.results && (Extends(c.results[t], c'.results[t])
                          || (c'.results[t].status == Running && c.results[t].attempts < c'.results[t].attempts))
  }

  ghost predicate NoneOpen(c: Core) {
    forall t :: t in c.results ==> c.results[t].status != Running
  }

  lemma GrownThen(c: Core, m: Core, c': Core)
    requires Grown(c, m) && Grown(m, c') && NoneOpen(m)
    ensures Grown(c, c')
  {
    forall t | t in c.results
      ensures t in c'.results
      ensures Extends(c.results[t], c'.results[t])
           || (c'.results[t].status == Running && c.results[t].attempts < c'.results[t].attempts)
    {
      assert t in m.results && Extends(c.results[t], m.results[t]);
    }
  }

  lemma SameGrown(c: Core, c': Core)
    requires c'.results == c.results
    ensures Grown(c, c')
  {
  }

  lemma IdleNoneOpen(dag: Dag, c: Core)
    requires Good(dag, c) && Idle(c)
    ensures NoneOpen(c)
  {
    hide Exclusive, Supplied, Conserved, Separate, StarvedNeverRan, Ordered, FailureKnown, ClosedOnce, WellTraced,
        Reusable;
    forall t | t in c.results
      ensures c.results[t].status != Running
    {
      assert Fits(dag, t, c.results[t], c.status[t]);
    }
  }

  /** A pending task that can never be fed has no result yet. */
  lemma BlockedIsNew(dag: Dag, c: Core, t: TaskId)
    requires Good(dag, c) && Has(c, t, Pending) && t in dag.tasks && Starved(dag.tasks[t])
    ensures t !in c.results
  {
    hide Exclusive, Supplied, Conserved, Separate, Ordered, FailureKnown, ClosedOnce, WellTraced, Reusable, Starved;
    assert t in c.results ==> Fits(dag, t, c.results[t], c.status[t]);
  }

  lemma BlockGrows(p: Plan, c0: Core, s: State, t: TaskId)
    requires ValidPlan(p) && Trail(p.dag, c0, s) && InputBlocked(p.dag, s.core, t)
    ensures Grown(s.core, Do(p.dag, s, Block(t, BlockedResult(p.dag, t), Reason("required_input_unavailable"))).core)
  {
    hide Good, Starved, DepsDone, Trail, ValidDag, DistinctOutputs;
    TrailGood(p.dag, c0, s);
    NotStarved(p.dag, c0, s, t);
    BlockedIsNew(p.dag, s.core, t);
  }

  lemma AttemptGrows(dag: Dag, c: Core, c': Core, t: TaskId, a: nat)
    requires AttemptAdded(dag, c, c', t, a)
    requires c'.results[t].status == Running
          || (IdsBefore(c, t) <= c'.results[t].artifactIds && ErrorsBefore(c, t) <= c'.results[t].errors)
    ensures Grown(c, c')
  {
  }

  lemma DispatchGrows(p: Plan, e: Env, c0: Core, s: State, t: TaskId)
    requires ValidPlan(p) && Trail(p.dag, c0, s) && ReadyToStart(p.dag, s.core, t)
    ensures Grown(s.core, Dispatch(p, e, s, t).state.core)
  {
    hide Good, Trail, ValidPlan, Dispatch, DepsDone, Starved, AttemptAdded, ClosedBy, Adopts, Grown, Chosen, IdsFrom,
        IdsBefore, ErrorsBefore;
    DispatchRecords(p, e, c0, s, t);
    AttemptGrows(p.dag, s.core, Dispatch(p, e, s, t).state.core, t, s.core.supply);
  }

  lemma FailFastGrows(p: Plan, c0: Core, s: State, f: TaskId)
    requires ValidPlan(p) && Trail(p.dag, c0, s) && Idle(s.core) && SomeDoomed(s.core)
    ensures Finish(p, FailFastFrom(p, s, f)).core.results == s.core.results
  {
    hide Good, Trail, ValidPlan, FailFastFrom, Finish, Settled, Idle, SomeDoomed;
    FailFastTrail(p, c0, s, f);
    FinishTrail(p, c0, FailFastFrom(p, s, f));
  }

  lemma CalmIsIdle(c: Core)
    requires Calm(c)
    ensures Idle(c)
  {
  }

  /** The loop keeps what is on record, and adds to it. */
  lemma {:induction false} LoopGrows(p: Plan, e: Env, c0: Core, s: State)
    requires ValidPlan(p) && Trail(p.dag, c0, s) && Calm(s.core)
    ensures Grown(s.core, Loop(p, e, s, false).state.core)
    decreases Pendings(s.core)
  {
    hide Good, Trail, Do, Dispatch, FailFastFrom, BlockedResult, Dispatchable, InputBlocked, ValidPlan, Finish, Grown,
        Calm, T.FirstReady;
    T.ChoicesAgree(p, c0, s);
    match T.FirstReady(p, s.core.status, |p.order|)
    case None =>
      match FirstBlocked(p, s.core, 0) {
        case None =>
          T.FinishStatus(p, s);
          SameGrown(s.core, Finish(p, s).core);
        case Some(t) =>
          var s1 := Do(p.dag, s, Block(t, BlockedResult(p.dag, t), Reason("required_input_unavailable")));
          BlockTrail(p, c0, s, t);
          BlockGrows(p, c0, s, t);
          FailFastGrows(p, c0, s1, t);
          ResultsGrown(s.core, s1.core, Finish(p, FailFastFrom(p, s1, t)).core);
      }
    case Some(t) =>
      RoundGrows(p, e, c0, s, t);
  }

  lemma ResultsGrown(c: Core, m: Core, c': Core)
    requires Grown(c, m) && c'.results == m.results
    ensures Grown(c, c')
  {
  }

  lemma {:induction false} RoundGrows(p: Plan, e: Env, c0: Core, s: State, t: TaskId)
    requires ValidPlan(p) && Trail(p.dag, c0, s) && Calm(s.core)
    requires T.FirstReady(p, s.core.status, |p.order|) == Some(t)
    requires ReadyIds(p, s.core, |p.order|) != [] && ReadyIds(p, s.core, |p.order|)[0] == t
    ensures Grown(s.core, Loop(p, e, s, false).state.core)
    decreases Pendings(s.core), 0
  {
    hide Good, Trail, Do, Dispatch, FailFastFrom, ValidPlan, Finish, Calm, Dispatchable, InputBlocked, ReadyIds,
        FirstBlocked, Grown, ReadyToStart, NoneOpen, Idle, SomeDoomed, T.FirstReady;
    Reruns.RoundMemory(p, e, c0, s, t);
    RoundReady(p, c0, s, t);
    var s1 := Do(p.dag, s, MakeReady(t));
    Survival.ReadyKeepsResults(p.dag, s, t);
    SameGrown(s.core, s1.core);
    DispatchGrows(p, e, c0, s1, t);
    var d := Dispatch(p, e, s1, t);
    SameBefore(s.core, s1.core, d.state.core);
    if !d.aborted {
      var status := d.state.core.results[t].status;
      CalmAfter(s.core, d.state.core, t, status);
      assert t in Pendings(s.core) && Pendings(d.state.core) == Pendings(s.core) - {t};
      if status == Failed {
        FailFastTrail(p, c0, d.state, t);
        EmptyReady(p, FailFastFrom(p, d.state, t).core);
        FailFastGrows(p, c0, d.state, t);
        ResultsGrown(s.core, d.state.core, Finish(p, FailFastFrom(p, d.state, t)).core);
      } else if status == Success {
        LoopGrows(p, e, c0, d.state);
        TrailGood(p.dag, c0, d.state);
        CalmIsIdle(d.state.core);
        IdleNoneOpen(p.dag, d.state.core);
        GrownThen(s.core, d.state.core, Loop(p, e, d.state, false).state.core);
      }
    }
  }

  lemma SameBefore(c: Core, m: Core, c': Core)
    requires c.results == m.results && Grown(m, c')
    ensures Grown(c, c')
  {
  }

  lemma RoundReady(p: Plan, c0: Core, s: State, t: TaskId)
    requires ValidPlan(p) && Trail(p.dag, c0, s) && Calm(s.core)
    requires ReadyIds(p, s.core, |p.order|) != [] && ReadyIds(p, s.core, |p.order|)[0] == t
    ensures var s1 := Do(p.dag, s, MakeReady(t));
            Trail(p.dag, c0, s1) && ReadyToStart(p.dag, s1.core, t)
  {
    hide Good, Trail, ValidPlan, Calm, Do, ReadyToStart;
    ReadyTrail(p, c0, s, t);
  }

  lemma GoesOnGrows(p: Plan, e: Env, c0: Core, s: State)
    requires ValidPlan(p) && Trail(p.dag, c0, s) && Idle(s.core)
    ensures var s' := if AnyDoomed(s.core) then SkipRemaining(p, s, "prior_terminal_state", 0) else s;
            Grown(s.core, Loop(p, e, s', false).state.core)
  {
    hide Good, Trail, SkipRemaining, Loop, ValidPlan, Grown, Idle, Calm, AnyDoomed, SomeDoomed;
    if AnyDoomed(s.core) {
      Survival.DoomedSome(s.core);
      Survival.SkipsAndEnds(p, e, c0, s);
      SameGrown(s.core, Loop(p, e, SkipRemaining(p, s, "prior_terminal_state", 0), false).state.core);
    } else {
      Reruns.IdleIsCalm(s.core);
      LoopGrows(p, e, c0, s);
    }
  }

  lemma SettledGrows(dag: Dag, c: Core, c': Core, t: TaskId, answer: ReconciliationState)
    requires t in c.results && t in c'.results && c'.results == c.results[t := c'.results[t]]
    requires c.results[t].attempts != [] && c.results[t].taskId in dag.tasks
    requires SettledAs(dag, c.artifacts, c.results[t], answer, c'.results[t])
    ensures Grown(c, c')
  {
    hide OutputsValid, Chosen;
  }

  lemma OpenGrows(p: Plan, e: Env, stored: Core, t: TaskId)
    requires ValidPlan(p) && Good(p.dag, stored) && t in stored.results && stored.results[t].status == Running
    ensures Grown(stored, ResumeSession(p, e, stored).state.core)
  {
    hide Good, Trail, ValidPlan, Reload, Opening, IndeterminateIds, Reconcile, ReconcileOne, SkipRemaining, Loop,
        AnyDoomed, Loaded, SettledAs, Reconciles, StoppedBy, Idle, Transitions.Terminal, NoteOf, Grown, NoneOpen;
    var s := OpenedAt(p, e, stored, t);
    var c0 := Reload(p.dag, e, stored).(run := RunningRun);
    TrailGood(p.dag, c0, s);
    OpenRecord(p.dag, s.core, t);
    RoundRecords(p, e, s, t);
    var r := ReconcileOne(p, e, s, t);
    if r.blocked {
      SameGrown(stored, r.state.core);
    } else {
      SettledGrows(p.dag, s.core, r.state.core, t, e.reconcile(t, Last(s.core.results[t].attempts)));
      SameBefore(stored, s.core, r.state.core);
      RoundIdle(p, e, c0, s, t);
      TrailGood(p.dag, c0, r.state);
      IdleNoneOpen(p.dag, r.state.core);
      GoesOnGrows(p, e, c0, r.state);
      GrownThen(stored, r.state.core, ResumeSession(p, e, stored).state.core);
    }
  }

  lemma SettledGrowsOn(p: Plan, e: Env, stored: Core)
    requires ValidPlan(p) && Good(p.dag, stored) && NoneOpen(stored)
    ensures Grown(stored, ResumeSession(p, e, stored).state.core)
  {
    hide Good, Trail, ValidPlan, Reload, Opening, IndeterminateIds, ReconcileOne, SkipRemaining, Loop, AnyDoomed,
        Loaded, Grown;
    var c := Reload(p.dag, e, stored);
    var c0 := c.(run := RunningRun);
    ReloadGood(p.dag, e, stored);
    Reruns.ReloadSupply(p.dag, e, stored);
    OpeningTrail(p, c);
    var s := Opening(p, c);
    forall t
      ensures !Has(c, t, Running)
    {
      Reruns.ReloadOpen(p.dag, e, stored, t);
    }
    Reruns.NoneOpenIsIdle(c);
    IndeterminateTrail(p, c0, s);
    assert IndeterminateIds(p, s.core, |p.order|) == [] by {
      assert forall t :: !Has(s.core, t, Running);
    }
    ReconcileUnfold(p, e, s, []);
    GoesOnGrows(p, e, c0, s);
    SameBefore(stored, s.core, ResumeSession(p, e, stored).state.core);
  }

  /**
    A resume loses nothing: each result on record lists in the end the attempts, artifacts and errors it listed,
    and what was added comes after them. The exception is a task whose new attempt an exception left open.
  */
  lemma RecordsGrow(p: Plan, e: Env, stored: Core)
    requires ValidPlan(p) && Good(p.dag, stored)
    ensures Grown(stored, ResumeSession(p, e, stored).state.core)
  {
    hide Good, ValidPlan, ResumeSession, Grown;
    if t :| t in stored.results && stored.results[t].status == Running {
      OpenGrows(p, e, stored, t);
    } else {
      SettledGrowsOn(p, e, stored);
    }
  }

  /** A stored task with a required input that nothing can fill has no result, or one that says just that. */
  lemma UnfedRecord(dag: Dag, ch: Chain, t: TaskId)
    requires ValidChain(dag, ch) && t in dag.tasks && t in Durable(dag, ch).results
    ensures Starved(dag.tasks[t]) ==> Unfed(dag.runId, t, Durable(dag, ch).results[t])
  {
    hide Durable, ValidChain, Exclusive, Supplied, Conserved, Separate, Ordered, FailureKnown, ClosedOnce, WellTraced,
        Reusable, Starved;
    ChainGood(dag, ch);
  }

  /** An attempt left open remembers its earlier attempts, and neither the artifacts nor the errors they had. */
  lemma OpenForgets(dag: Dag, ch: Chain, t: TaskId)
    requires ValidChain(dag, ch) && t in Durable(dag, ch).results && Durable(dag, ch).results[t].status == Running
    ensures var c := Durable(dag, ch);
            && c.results[t].attempts == StartsOf(c.trace, t)
            && c.results[t].artifactIds == [] && c.results[t].errors == []
  {
    hide Durable, ValidChain, Exclusive, Supplied, Separate, StarvedNeverRan, Ordered, FailureKnown, ClosedOnce,
        WellTraced, Reusable, StartsOf;
    ChainGood(dag, ch);
    var c := Durable(dag, ch);
    assert Fits(dag, t, c.results[t], c.status[t]);
  }
}
