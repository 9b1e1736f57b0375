/** The verdict of a dispatch depends on what the executor reported, not on ids or on history. */
module Verdicts {
  import opened Model
  import opened Artifacts
  import opened Machine
  import opened Invariants
  import opened Scheduling

  /** The last candidate of a name. */
  function NewestCandidate(cands: seq<Candidate>, name: string): Option<Candidate> {
    if cands == [] then None
    else if cands[|cands| - 1].name == name then Some(cands[|cands| - 1])
    else NewestCandidate(cands[..|cands| - 1], name)
  }

  /** How validation judges a declaration against the reported candidates. */
  function JudgeReport(dag: Dag, t: TaskId, d: OutputDecl, cands: seq<Candidate>): Check {
    var found := NewestCandidate(cands, d.name);
    Judge(d, if found == None then None
             else Some(Artifact(0, found.value.name, found.value.kind, dag.runId, t, 0, RuntimeRun,
                 found.value.location, found.value.digest, Unchecked)),
      dag.runId, t)
  }

  /** The task status an executor report leads to; None when the process is aborted by it. */
  function Verdict(dag: Dag, t: TaskId, out: Outcome): Option<Status>
    requires t in dag.tasks
  {
    match out
    case EngineError => None
    case Exception => Some(Failed)
    case Outcome(cands, succeeded, cancelled, _, _) =>
      if exists i :: 0 <= i < |cands| && !LocationOk(cands[i].location) then None
      else if cancelled then Some(Cancelled)
      else if !succeeded then Some(Failed)
      else if forall k :: 0 <= k < |dag.tasks[t].outputs| ==>
            JudgeReport(dag, t, dag.tasks[t].outputs[k], cands) in {Accept, Ignore} then Some(Success)
      else Some(Failed)
  }

  lemma {:induction false} ValidateFromVerdict(
    view: seq<Artifact>, arts: seq<Artifact>, run: RunId, t: TaskId, attempt: nat,
    decls: seq<OutputDecl>, k: nat, accepted: seq<nat>, clean: bool)
    requires k <= |decls|
    ensures ValidateFrom(view, arts, run, t, attempt, decls, k, accepted, clean).verdict.Ok?
       <==> clean && forall j :: k <= j < |decls| ==>
             Judge(decls[j], Newest(view, run, attempt, decls[j].name), run, t) in {Accept, Ignore}
    decreases |decls| - k
  {
    if k < |decls| {
      var found := Newest(view, run, attempt, decls[k].name);
      match Judge(decls[k], found, run, t)
      case Raise =>
      case Complain => ValidateFromVerdict(view, arts, run, t, attempt, decls, k + 1, accepted, false);
      case Ignore => ValidateFromVerdict(view, arts, run, t, attempt, decls, k + 1, accepted, clean);
      case Accept => ValidateFromVerdict(view, Promote(arts, found.value.id), run, t, attempt, decls, k + 1,
          accepted + [found.value.id], clean);
    }
  }

  /** The newest artifact of the attempt under a name carries the newest candidate of that name. */
  ghost predicate Mirrors(dag: Dag, arts: seq<Artifact>, t: TaskId, a: nat, cands: seq<Candidate>, name: string) {
    var found := Newest(arts, dag.runId, a, name);
    var cand := NewestCandidate(cands, name);
    && (found == None <==> cand == None)
    && (found.Some? ==>
          && found.value.kind == cand.value.kind && found.value.location == cand.value.location
          && found.value.digest == cand.value.digest
          && found.value.taskId == t && found.value.scope == RuntimeRun && found.value.validity == Unchecked)
  }

  lemma MirrorsAppend(dag: Dag, arts: seq<Artifact>, t: TaskId, a: nat, cands: seq<Candidate>, name: string,
      art: Artifact, cand: Candidate)
    requires Mirrors(dag, arts, t, a, cands, name)
    requires art.name == cand.name && art.kind == cand.kind && art.location == cand.location
    requires art.digest == cand.digest
    requires art.runId == dag.runId && art.taskId == t && art.attempt == a && art.scope == RuntimeRun
    requires art.validity == Unchecked
    ensures Mirrors(dag, arts + [art], t, a, cands + [cand], name)
  {
    assert (arts + [art])[..|arts|] == arts;
    assert (cands + [cand])[..|cands|] == cands;
  }

  lemma MirrorsAppendAll(dag: Dag, arts: seq<Artifact>, t: TaskId, a: nat, cands: seq<Candidate>, art: Artifact,
      cand: Candidate)
    requires forall name :: Mirrors(dag, arts, t, a, cands, name)
    requires art.name == cand.name && art.kind == cand.kind && art.location == cand.location
    requires art.digest == cand.digest
    requires art.runId == dag.runId && art.taskId == t && art.attempt == a && art.scope == RuntimeRun
    requires art.validity == Unchecked
    ensures forall name :: Mirrors(dag, arts + [art], t, a, cands + [cand], name)
  {
    forall name
      ensures Mirrors(dag, arts + [art], t, a, cands + [cand], name)
    {
      MirrorsAppend(dag, arts, t, a, cands, name, art, cand);
    }
  }

  lemma {:induction false} NoneNewest(arts: seq<Artifact>, run: RunId, a: nat, name: string)
    requires forall i :: 0 <= i < |arts| ==> arts[i].attempt != a
    ensures Newest(arts, run, a, name) == None
  {
    if arts != [] {
      NoneNewest(arts[..|arts| - 1], run, a, name);
    }
  }

  lemma {:induction false} RegisterMirrors(dag: Dag, s: State, t: TaskId, a: nat, cands: seq<Candidate>, ids: seq<nat>,
      i: nat)
    requires i <= |cands|
    requires t in s.core.results && s.core.results[t].attempts != [] && Last(s.core.results[t].attempts) == a
    requires forall name :: Mirrors(dag, s.core.artifacts, t, a, cands[..i], name)
    ensures var r := RegisterAll(dag, s, t, cands, ids, i);
            && (r.aborted <==> exists j :: i <= j < |cands| && !LocationOk(cands[j].location))
            && (!r.aborted ==> forall name :: Mirrors(dag, r.state.core.artifacts, t, a, cands, name))
    decreases |cands| - i
  {
    hide Mirrors, LocationOk;
    if i == |cands| {
      assert cands[..i] == cands;
    } else if LocationOk(cands[i].location) {
      var art := NewArtifact(dag, s.core, t, cands[i]);
      var s' := Do(dag, s, Register(t, cands[i]));
      assert s'.core.artifacts == s.core.artifacts + [art];
      assert cands[..i + 1] == cands[..i] + [cands[i]];
      MirrorsAppendAll(dag, s.core.artifacts, t, a, cands[..i], art, cands[i]);
      hide Do;
      RegisterMirrors(dag, s', t, a, cands, ids + [s.core.supply], i + 1);
    }
  }

  lemma JudgeMirrored(dag: Dag, arts: seq<Artifact>, t: TaskId, a: nat, cands: seq<Candidate>, d: OutputDecl)
    requires Mirrors(dag, arts, t, a, cands, d.name)
    ensures Judge(d, Newest(arts, dag.runId, a, d.name), dag.runId, t) == JudgeReport(dag, t, d, cands)
  {
  }

  lemma ConcludeVerdict(p: Plan, s: State, t: TaskId, attempts: seq<nat>, prior: Option<TaskResult>, out: Outcome,
      ids: seq<nat>, started: EventId)
    requires out.Outcome? && attempts != [] && t in p.dag.tasks
    requires forall i :: 0 <= i < |out.candidates| ==> LocationOk(out.candidates[i].location)
    requires forall name :: Mirrors(p.dag, s.core.artifacts, t, Last(attempts), out.candidates, name)
    ensures var r := Conclude(p, s, t, attempts, prior, out, ids, started);
            t in r.core.results && Verdict(p.dag, t, out) == Some(r.core.results[t].status)
  {
    var outputs := p.dag.tasks[t].outputs;
    ValidateFromVerdict(s.core.artifacts, s.core.artifacts, p.dag.runId, t, Last(attempts), outputs, 0, [], true);
    hide Judge, JudgeReport, Newest, Mirrors, LocationOk;
    forall k | 0 <= k < |outputs|
      ensures var found := Newest(s.core.artifacts, p.dag.runId, Last(attempts), outputs[k].name);
              Judge(outputs[k], found, p.dag.runId, t) == JudgeReport(p.dag, t, outputs[k], out.candidates)
    {
      JudgeMirrored(p.dag, s.core.artifacts, t, Last(attempts), out.candidates, outputs[k]);
    }
    hide ValidateFrom, BuildResult, Do;
  }

  lemma NothingMirrored(dag: Dag, c: Core, t: TaskId, a: nat)
    requires Supplied(c) && a >= c.supply
    ensures forall name :: Mirrors(dag, c.artifacts, t, a, [], name)
  {
    forall name
      ensures Mirrors(dag, c.artifacts, t, a, [], name)
    {
      NoneNewest(c.artifacts, dag.runId, a, name);
    }
  }

  /** A dispatch aborts, or gives the task the status, that the executor's report alone determines. */
  lemma DispatchVerdict(p: Plan, e: Env, s: State, t: TaskId)
    requires t in p.dag.tasks && Supplied(s.core)
    ensures var d := Dispatch(p, e, s, t);
            var v := Verdict(p.dag, t, e.exec(t, s.core.supply));
            && (d.aborted <==> v == None)
            && (!d.aborted ==> v == Some(d.state.core.results[t].status))
  {
    hide Supplied, JudgeReport, Mirrors, LocationOk, Conclude, BuildResult;
    var a := s.core.supply;
    var s1 := Do(p.dag, s, Start(t));
    NothingMirrored(p.dag, s.core, t, a);
    assert s1.core.artifacts == s.core.artifacts;
    var attempts := PriorAttempts(s.core, t) + [a];
    assert s1.core.results[t].attempts == attempts && Last(attempts) == a;
    hide Do;
    match e.exec(t, a)
    case EngineError =>
    case Exception =>
    case Outcome(cands, _, _, _, _) =>
      assert cands[..0] == [];
      RegisterMirrors(p.dag, s1, t, a, cands, [], 0);
      var reg := RegisterAll(p.dag, s1, t, cands, [], 0);
      if !reg.aborted {
        ConcludeVerdict(p, reg.state, t, attempts, PriorResult(s.core, t), e.exec(t, a), reg.ids, FreshId(a + 1));
      }
  }

  // ---- Reconciliation ----

  /** The status reconciliation gives the open attempt of `t`; None when it stops the process. */
  function Settles(p: Plan, e: Env, c: Core, t: TaskId): Option<Status> {
    if t !in c.results || t !in p.dag.tasks || c.results[t].attempts == [] then None
    else
      var a := Last(c.results[t].attempts);
      match e.reconcile(t, a)
      case StillRunning => None
      case Lost => None
      case Unknown => None
      case ReportedFailed(_) => Some(Failed)
      case ReportedCancelled => Some(Cancelled)
      case Succeeded =>
        Some(if Validate(c.artifacts, p.dag.runId, t, a, p.dag.tasks[t].outputs).verdict.Ok? then Success else Failed)
  }

  lemma SettlesSame(p: Plan, e: Env, c: Core, c': Core, t: TaskId)
    requires c.results == c'.results && c.artifacts == c'.artifacts
    ensures Settles(p, e, c, t) == Settles(p, e, c', t)
  {
    hide Validate;
  }

  /** `s'` is `s` with the attempt of `t` closed as reconciliation has it. */
  ghost predicate SettledBy(p: Plan, e: Env, s: State, t: TaskId, s': State, r: TaskResult, arts: seq<Artifact>,
      note: Note) {
    s' == CloseWith(p.dag, s, r, arts, note, None) && r.taskId == t && Settles(p, e, s.core, t) == Some(r.status)
  }

  /** One round of reconciliation ends the process, or closes the attempt with the status `Settles` gives it. */
  lemma ReconcileVerdict(p: Plan, e: Env, s: State, t: TaskId)
    requires t in p.dag.tasks && t in s.core.results && s.core.results[t].attempts != []
    ensures var r := ReconcileOne(p, e, s, t);
            && (r.blocked <==> Settles(p, e, s.core, t) == None)
            && (r.blocked ==> exists final, note :: r.state == Do(p.dag, s, EndRun(final, note)))
            && (!r.blocked ==> exists result, arts, note :: SettledBy(p, e, s, t, r.state, result, arts, note))
  {
    hide Do, BuildResult, CloseWith, Validate, ReportedError;
    var prior := s.core.results[t];
    var a := Last(prior.attempts);
    var r := ReconcileOne(p, e, s, t);
    match e.reconcile(t, a)
    case StillRunning =>
      assert r.state == Do(p.dag, s, EndRun(InterruptedRun, Reason("still_running")));
    case Unknown =>
      assert r.state == Do(p.dag, s, EndRun(ReconciliationRequired, Reason("unknown")));
    case Lost =>
      assert r.state == Do(p.dag, s, EndRun(ReconciliationRequired, Reason("lost")));
    case ReportedFailed(error) =>
      var failure := ReportedError(t, a, error);
      var result := BuildResult(p.dag, t, Failed, prior.attempts, Some(prior), prior.artifactIds, [failure], [], None);
      assert SettledBy(p, e, s, t, r.state, result, s.core.artifacts, Reason("reconciliation"));
    case ReportedCancelled =>
      var result := BuildResult(p.dag, t, Cancelled, prior.attempts, Some(prior), prior.artifactIds, [], [],
          Some("cancelled"));
      assert SettledBy(p, e, s, t, r.state, result, s.core.artifacts, NoNote);
    case Succeeded =>
      SuccessVerdict(p, e, s, t);
  }

  lemma SuccessVerdict(p: Plan, e: Env, s: State, t: TaskId)
    requires t in p.dag.tasks && t in s.core.results && s.core.results[t].attempts != []
    requires e.reconcile(t, Last(s.core.results[t].attempts)) == Succeeded
    ensures exists result, arts, note :: SettledBy(p, e, s, t, ReconcileOne(p, e, s, t).state, result, arts, note)
  {
    hide Do, BuildResult, CloseWith, Validate;
    var prior := s.core.results[t];
    var a := Last(prior.attempts);
    var s' := ReconcileOne(p, e, s, t).state;
    var v := Validate(s.core.artifacts, p.dag.runId, t, a, p.dag.tasks[t].outputs);
    match v.verdict
    case Err(code) =>
      var failure := Failure(code, "artifact_validation", t, Some(a));
      var r := BuildResult(p.dag, t, Failed, prior.attempts, Some(prior), prior.artifactIds, [failure], [], None);
      assert SettledBy(p, e, s, t, s', r, v.artifacts, Reason("artifact_validation"));
    case Ok(valid) =>
      var r := BuildResult(p.dag, t, Success, prior.attempts, Some(prior), valid, [], [], Some("reconciled_success"));
      assert SettledBy(p, e, s, t, s', r, v.artifacts, Reason("reconciliation"));
  }
}
