/** What an attempt leaves on record: artifacts, result and closing event, told from what the executor reported. */
module Records {
  import opened Model
  import opened Artifacts
  import opened Trace
  import opened Machine
  import opened Invariants
  import opened Scheduling
  import Sessions

  // ---- Artifacts ----

  /** The artifact that a candidate becomes, whatever validation makes of it. */
  predicate Carries(art: Artifact, cand: Candidate, run: RunId, t: TaskId, a: nat) {
    && art.name == cand.name && art.kind == cand.kind && art.location == cand.location && art.digest == cand.digest
    && art.runId == run && art.taskId == t && art.attempt == a && art.scope == RuntimeRun
  }

  /** `arts` is `base` with one artifact more for each candidate, in order. */
  ghost predicate Adopts(base: seq<Artifact>, arts: seq<Artifact>, cands: seq<Candidate>, run: RunId, t: TaskId,
      a: nat) {
    && |arts| == |base| + |cands|
    && (forall i :: 0 <= i < |base| ==> arts[i] == base[i])
    && forall i :: 0 <= i < |cands| ==> Carries(arts[|base| + i], cands[i], run, t, a)
  }

  /** The ids of the artifacts from position `n` on. */
  function IdsFrom(arts: seq<Artifact>, n: nat): seq<nat>
    requires n <= |arts|
  {
    seq<nat>(|arts| - n, i requires 0 <= i < |arts| - n => arts[n + i].id)
  }

  /** The newest artifact of the attempt for each declared output that has one, in declaration order. */
  function Chosen(arts: seq<Artifact>, run: RunId, a: nat, decls: seq<OutputDecl>): seq<nat> {
    if decls == [] then []
    else
      var found := Newest(arts, run, a, decls[|decls| - 1].name);
      Chosen(arts, run, a, decls[..|decls| - 1]) + if found.Some? then [found.value.id] else []
  }

  lemma {:induction false} NewestPromoted(arts: seq<Artifact>, arts': seq<Artifact>, run: RunId, a: nat, name: string)
    requires Promoted(arts, arts', a)
    ensures var found, found' := Newest(arts, run, a, name), Newest(arts', run, a, name);
            (found == None <==> found' == None) && (found.Some? ==> found'.value.id == found.value.id)
  {
    if arts != [] {
      NewestPromoted(arts[..|arts| - 1], arts'[..|arts| - 1], run, a, name);
    }
  }

  lemma {:induction false} ChosenPromoted(arts: seq<Artifact>, arts': seq<Artifact>, run: RunId, a: nat,
      decls: seq<OutputDecl>)
    requires Promoted(arts, arts', a)
    ensures Chosen(arts', run, a, decls) == Chosen(arts, run, a, decls)
  {
    if decls != [] {
      ChosenPromoted(arts, arts', run, a, decls[..|decls| - 1]);
      NewestPromoted(arts, arts', run, a, decls[|decls| - 1].name);
    }
  }

  lemma ChosenStep(arts: seq<Artifact>, run: RunId, a: nat, decls: seq<OutputDecl>, k: nat)
    requires k < |decls|
    ensures var found := Newest(arts, run, a, decls[k].name);
            Chosen(arts, run, a, decls[..k + 1])
            == Chosen(arts, run, a, decls[..k]) + if found.Some? then [found.value.id] else []
  {
    assert decls[..k + 1][..k] == decls[..k];
  }

  /** A validation that accepts gives the chosen artifacts. */
  lemma {:induction false} ValidateChosen(
    view: seq<Artifact>, arts: seq<Artifact>, run: RunId, t: TaskId, a: nat, decls: seq<OutputDecl>, k: nat,
    accepted: seq<nat>, clean: bool)
    requires k <= |decls| && (clean ==> accepted == Chosen(view, run, a, decls[..k]))
    ensures var v := ValidateFrom(view, arts, run, t, a, decls, k, accepted, clean).verdict;
            && (v.Ok? ==> v.value == Chosen(view, run, a, decls))
            && (v.Err? ==> v.error == "artifact_validation_failed")
    decreases |decls| - k
  {
    hide Judge, Chosen, Newest, Promote;
    if k == |decls| {
      assert decls[..k] == decls;
    } else {
      var found := Newest(view, run, a, decls[k].name);
      ChosenStep(view, run, a, decls, k);
      JudgeFinds(decls[k], found, run, t);
      match Judge(decls[k], found, run, t)
      case Raise =>
      case Complain =>
        ValidateChosen(view, arts, run, t, a, decls, k + 1, accepted, false);
      case Ignore =>
        ValidateChosen(view, arts, run, t, a, decls, k + 1, accepted, clean);
      case Accept =>
        ValidateChosen(view, Promote(arts, found.value.id), run, t, a, decls, k + 1, accepted + [found.value.id],
            clean);
    }
  }

  lemma JudgeFinds(d: OutputDecl, found: Option<Artifact>, run: RunId, t: TaskId)
    ensures Judge(d, found, run, t) == Accept ==> found.Some?
    ensures Judge(d, found, run, t) == Ignore ==> found == None
  {
  }

  lemma {:induction false} ChosenFrom(arts: seq<Artifact>, run: RunId, a: nat, decls: seq<OutputDecl>, id: nat)
    requires id in Chosen(arts, run, a, decls)
    ensures exists k, i ::
              && 0 <= k < |decls| && 0 <= i < |arts| && arts[i].id == id && arts[i].attempt == a
              && arts[i].name == decls[k].name
  {
    var front, last := decls[..|decls| - 1], decls[|decls| - 1];
    if id in Chosen(arts, run, a, front) {
      ChosenFrom(arts, run, a, front, id);
      var k, i :|
        && 0 <= k < |front| && 0 <= i < |arts| && arts[i].id == id && arts[i].attempt == a
        && arts[i].name == front[k].name;
      assert decls[k] == front[k];
    } else {
      var art := Newest(arts, run, a, last.name).value;
      var i :| 0 <= i < |arts| && arts[i] == art;
      assert decls[|decls| - 1].name == arts[i].name;
    }
  }

  lemma {:induction false} ChosenDistinct(arts: seq<Artifact>, run: RunId, a: nat, decls: seq<OutputDecl>)
    requires DistinctIds(arts) && forall i, j :: 0 <= i < j < |decls| ==> decls[i].name != decls[j].name
    ensures Distinct(Chosen(arts, run, a, decls))
  {
    if decls != [] {
      var front, last := decls[..|decls| - 1], decls[|decls| - 1];
      ChosenDistinct(arts, run, a, front);
      var found := Newest(arts, run, a, last.name);
      if found.Some? && found.value.id in Chosen(arts, run, a, front) {
        ChosenFrom(arts, run, a, front, found.value.id);
        assert false;
      }
    }
  }

  /** Ids that are new to a list, and all different, are added at its end. */
  lemma {:induction false} MergeFresh(prior: seq<nat>, ids: seq<nat>)
    requires Distinct(ids) && forall id :: id in ids ==> id !in prior
    ensures Merge(prior, ids) == prior + ids
  {
    if ids != [] {
      var front, last := ids[..|ids| - 1], ids[|ids| - 1];
      forall id | id in front
        ensures id !in prior && id != last
      {
        assert id in ids;
      }
      MergeFresh(prior, front);
      assert last in ids;
    }
  }

  lemma {:induction false} MergeKnown(prior: seq<nat>, ids: seq<nat>)
    requires forall id :: id in ids ==> id in prior
    ensures Merge(prior, ids) == prior
  {
    if ids != [] {
      forall id | id in ids[..|ids| - 1]
        ensures id in prior
      {
        assert id in ids;
      }
      MergeKnown(prior, ids[..|ids| - 1]);
      assert ids[|ids| - 1] in ids;
    }
  }

  // ---- Registration ----

  /** Where registration stands after the candidates so far: their artifacts and ids, drawn from `low` on. */
  ghost predicate Registering(dag: Dag, base: seq<Artifact>, s: State, t: TaskId, a: nat, cands: seq<Candidate>,
      ids: seq<nat>, low: nat) {
    && Adopts(base, s.core.artifacts, cands, dag.runId, t, a)
    && ids == IdsFrom(s.core.artifacts, |base|) && Distinct(ids)
    && low <= s.core.supply && forall id :: id in ids ==> low <= id < s.core.supply
  }

  lemma DistinctAppend(ids: seq<nat>, id: nat)
    requires Distinct(ids) && forall x :: x in ids ==> x < id
    ensures Distinct(ids + [id])
  {
    forall i, j | 0 <= i < j < |ids| + 1
      ensures (ids + [id])[i] != (ids + [id])[j]
    {
      assert ids[i] in ids;
    }
  }

  lemma RegisterStep(dag: Dag, base: seq<Artifact>, s: State, t: TaskId, a: nat, cands: seq<Candidate>, i: nat,
      ids: seq<nat>, low: nat)
    requires i < |cands| && Registering(dag, base, s, t, a, cands[..i], ids, low)
    requires PriorAttempts(s.core, t) != [] && Last(PriorAttempts(s.core, t)) == a
    ensures Registering(dag, base, Do(dag, s, Register(t, cands[i])), t, a, cands[..i + 1], ids + [s.core.supply], low)
  {
    var s' := Do(dag, s, Register(t, cands[i]));
    var art := NewArtifact(dag, s.core, t, cands[i]);
    assert s'.core.artifacts == s.core.artifacts + [art] && art.id == s.core.supply;
    assert cands[..i + 1] == cands[..i] + [cands[i]];
    assert s'.core.supply == s.core.supply + 2;
    assert Carries(art, cands[i], dag.runId, t, a);
    DistinctAppend(ids, s.core.supply);
    assert IdsFrom(s'.core.artifacts, |base|) == IdsFrom(s.core.artifacts, |base|) + [s.core.supply];
  }

  lemma {:induction false} RegisterAdopts(dag: Dag, base: seq<Artifact>, s: State, t: TaskId, a: nat,
      cands: seq<Candidate>, ids: seq<nat>, i: nat, low: nat)
    requires i <= |cands| && Registering(dag, base, s, t, a, cands[..i], ids, low)
    requires PriorAttempts(s.core, t) != [] && Last(PriorAttempts(s.core, t)) == a
    ensures var r := RegisterAll(dag, s, t, cands, ids, i);
            && (!r.aborted ==> Registering(dag, base, r.state, t, a, cands, r.ids, low))
            && s.core.trace <= r.state.core.trace
    decreases |cands| - i
  {
    hide Registering, LocationOk, PriorAttempts;
    if i == |cands| {
      assert cands[..i] == cands;
    } else if LocationOk(cands[i].location) {
      var s' := Do(dag, s, Register(t, cands[i]));
      RegisterStep(dag, base, s, t, a, cands, i, ids, low);
      assert s'.core.results == s.core.results && s.core.trace <= s'.core.trace;
      hide Do;
      SameAttempts(s.core, s'.core, t);
      RegisterAdopts(dag, base, s', t, a, cands, ids + [s.core.supply], i + 1, low);
    }
  }

  lemma SameAttempts(c: Core, c': Core, t: TaskId)
    requires c'.results == c.results
    ensures PriorAttempts(c', t) == PriorAttempts(c, t)
  {
  }

  // ---- A dispatch ----

  /** The result before, if there was one. */
  function IdsBefore(c: Core, t: TaskId): seq<nat> {
    if t in c.results then c.results[t].artifactIds else []
  }

  function ErrorsBefore(c: Core, t: TaskId): seq<Failure> {
    if t in c.results then c.results[t].errors else []
  }

  /** The last event closed attempt `a` of `t` with this status, and names the start of that attempt as its cause. */
  ghost predicate ClosedBy(c: Core, t: TaskId, a: nat, status: Status, note: Note) {
    && c.trace != []
    && var e := Last(c.trace);
       && e.task == t && e.attempt == Some(a) && e.note == note
       && e.kind == (match status case Success => TaskCompleted case Cancelled => TaskCancelled case _ => TaskFailed)
       && e.cause.Some? && StartedBy(c.trace, e.cause.value, t, a)
  }

  /** What every dispatch that is not stopped adds to the record of `t`, the attempt being `a`. */
  ghost predicate AttemptAdded(dag: Dag, c: Core, c': Core, t: TaskId, a: nat) {
    && t in c'.results && c'.results == c.results[t := c'.results[t]]
    && c'.results[t].runId == dag.runId && c'.results[t].taskId == t
    && c'.results[t].attempts == PriorAttempts(c, t) + [a]
  }

  /** An executor that raised: nothing produced, one error more. */
  ghost predicate RecordsException(dag: Dag, c: Core, c': Core, t: TaskId, a: nat) {
    && AttemptAdded(dag, c, c', t, a) && c'.artifacts == c.artifacts
    && var r := c'.results[t];
       && r.status == Failed && r.artifactIds == IdsBefore(c, t) && r.summary == Some("failed")
       && r.errors == ErrorsBefore(c, t) + [Failure("executor_exception", "execution", t, Some(a))]
       && ClosedBy(c', t, a, Failed, Reason("executor_exception"))
  }

  /**
    An executor that reported: every candidate is an artifact now, and the result lists those of this attempt after
    what it listed before, all of them or, for a success, the chosen ones; the reported errors come last.
  */
  ghost predicate RecordsReport(dag: Dag, c: Core, c': Core, t: TaskId, a: nat, out: Outcome)
    requires out.Outcome? && t in dag.tasks
  {
    && AttemptAdded(dag, c, c', t, a) && Adopts(c.artifacts, c'.artifacts, out.candidates, dag.runId, t, a)
    && var r, ids, errors := c'.results[t], IdsBefore(c, t), ErrorsBefore(c, t);
       && r.summary == Some(out.reason)
       && if out.cancelled then
            && r.status == Cancelled && r.artifactIds == ids + IdsFrom(c'.artifacts, |c.artifacts|)
            && r.errors == errors + out.errors && ClosedBy(c', t, a, Cancelled, NoNote)
          else if !out.succeeded then
            && r.status == Failed && r.artifactIds == ids + IdsFrom(c'.artifacts, |c.artifacts|)
            && r.errors == errors + (if out.errors != [] then out.errors
                                     else [Failure("execution_failed", "execution", t, Some(a))])
            && ClosedBy(c', t, a, Failed, NoNote)
          else if r.status == Success then
            && r.artifactIds == ids + Chosen(c'.artifacts, dag.runId, a, dag.tasks[t].outputs)
            && r.errors == errors + out.errors && ClosedBy(c', t, a, Success, NoNote)
          else
            && r.status == Failed && r.artifactIds == ids + IdsFrom(c'.artifacts, |c.artifacts|)
            && r.errors == errors + [Failure("artifact_validation_failed", "artifact_validation", t, Some(a))]
                         + out.errors
            && ClosedBy(c', t, a, Failed, Reason("artifact_validation"))
  }

  lemma ClosedNow(dag: Dag, s: State, r: TaskResult, arts: seq<Artifact>, note: Note, started: EventId)
    requires r.attempts != [] && r.status in {Success, Failed, Cancelled}
    requires StartedBy(s.core.trace, started, r.taskId, Last(r.attempts))
    ensures var c' := CloseWith(dag, s, r, arts, note, Some(started)).core;
            && c'.results == s.core.results[r.taskId := r] && c'.artifacts == arts
            && ClosedBy(c', r.taskId, Last(r.attempts), r.status, note)
  {
    var c' := CloseWith(dag, s, r, arts, note, Some(started)).core;
    Sessions.StartKept(s.core.trace, c'.trace, started, r.taskId, Last(r.attempts));
    hide StartedBy;
  }

  /** What is known when a dispatch has registered its candidates and is about to close. */
  ghost predicate Produced(p: Plan, c: Core, s: State, t: TaskId, a: nat, out: Outcome, ids: seq<nat>,
      started: EventId) {
    && out.Outcome? && t in p.dag.tasks && t in s.core.results && s.core.results == c.results[t := s.core.results[t]]
    && Registering(p.dag, c.artifacts, s, t, a, out.candidates, ids, a)
    && StartedBy(s.core.trace, started, t, a) && DistinctIds(s.core.artifacts)
    && (forall i :: 0 <= i < |c.artifacts| ==> c.artifacts[i].attempt < a)
    && forall id :: id in IdsBefore(c, t) ==> id < a
  }

  lemma MergeProduced(p: Plan, c: Core, s: State, t: TaskId, a: nat, out: Outcome, ids: seq<nat>, started: EventId)
    requires Produced(p, c, s, t, a, out, ids, started)
    ensures Merge(IdsBefore(c, t), ids) == IdsBefore(c, t) + IdsFrom(s.core.artifacts, |c.artifacts|)
  {
    MergeFresh(IdsBefore(c, t), ids);
    hide IdsBefore, Adopts, Merge, IdsFrom;
  }

  /** The three ends of a dispatch that list everything the attempt registered. */
  lemma UnprovenRecords(p: Plan, c: Core, s: State, t: TaskId, a: nat, out: Outcome, ids: seq<nat>, started: EventId,
      status: Status, extra: seq<Failure>, arts: seq<Artifact>, note: Note)
    requires Produced(p, c, s, t, a, out, ids, started) && status in {Failed, Cancelled}
    requires Promoted(s.core.artifacts, arts, a)
    ensures var r := BuildResult(p.dag, t, status, PriorAttempts(c, t) + [a], PriorResult(c, t), ids, extra,
                out.errors, Some(out.reason));
            var c' := CloseWith(p.dag, s, r, arts, note, Some(started)).core;
            && AttemptAdded(p.dag, c, c', t, a) && Adopts(c.artifacts, c'.artifacts, out.candidates, p.dag.runId, t, a)
            && c'.results[t].status == status && c'.results[t].summary == Some(out.reason)
            && c'.results[t].artifactIds == IdsBefore(c, t) + IdsFrom(c'.artifacts, |c.artifacts|)
            && c'.results[t].errors == ErrorsBefore(c, t) + (extra + out.errors)
            && ClosedBy(c', t, a, status, note)
  {
    hide CloseWith, ClosedBy, StartedBy, DistinctIds, Merge;
    var r := BuildResult(p.dag, t, status, PriorAttempts(c, t) + [a], PriorResult(c, t), ids, extra, out.errors,
        Some(out.reason));
    ClosedNow(p.dag, s, r, arts, note, started);
    MergeProduced(p, c, s, t, a, out, ids, started);
    PromotedAdopts(c.artifacts, s.core.artifacts, arts, out.candidates, p.dag.runId, t, a);
  }

  lemma PromotedAdopts(base: seq<Artifact>, arts: seq<Artifact>, arts': seq<Artifact>, cands: seq<Candidate>,
      run: RunId, t: TaskId, a: nat)
    requires Adopts(base, arts, cands, run, t, a) && Promoted(arts, arts', a)
    requires forall i :: 0 <= i < |base| ==> base[i].attempt < a
    ensures Adopts(base, arts', cands, run, t, a) && IdsFrom(arts', |base|) == IdsFrom(arts, |base|)
  {
  }

  lemma ChosenRecords(p: Plan, c: Core, s: State, t: TaskId, a: nat, out: Outcome, ids: seq<nat>, started: EventId)
    requires ValidPlan(p) && Produced(p, c, s, t, a, out, ids, started)
    requires Validate(s.core.artifacts, p.dag.runId, t, a, p.dag.tasks[t].outputs).verdict.Ok?
    ensures var v := Validate(s.core.artifacts, p.dag.runId, t, a, p.dag.tasks[t].outputs);
            var r := BuildResult(p.dag, t, Success, PriorAttempts(c, t) + [a], PriorResult(c, t), v.verdict.value, [],
                out.errors, Some(out.reason));
            var c' := CloseWith(p.dag, s, r, v.artifacts, NoNote, Some(started)).core;
            && AttemptAdded(p.dag, c, c', t, a) && Adopts(c.artifacts, c'.artifacts, out.candidates, p.dag.runId, t, a)
            && c'.results[t].status == Success && c'.results[t].summary == Some(out.reason)
            && c'.results[t].artifactIds
               == IdsBefore(c, t) + Chosen(c'.artifacts, p.dag.runId, a, p.dag.tasks[t].outputs)
            && c'.results[t].errors == ErrorsBefore(c, t) + out.errors
            && ClosedBy(c', t, a, Success, NoNote)
  {
    hide CloseWith, ClosedBy, StartedBy, DistinctIds, Merge, Validate, Chosen, ValidPlan, Promoted, IdsFrom, Adopts;
    var outputs := p.dag.tasks[t].outputs;
    var v := Validate(s.core.artifacts, p.dag.runId, t, a, outputs);
    ChosenIds(p, c, s, t, a, out, ids, started);
    var r := BuildResult(p.dag, t, Success, PriorAttempts(c, t) + [a], PriorResult(c, t), v.verdict.value, [],
        out.errors, Some(out.reason));
    ClosedNow(p.dag, s, r, v.artifacts, NoNote, started);
    ValidatePromotes(s.core.artifacts, p.dag.runId, t, a, outputs);
    PromotedAdopts(c.artifacts, s.core.artifacts, v.artifacts, out.candidates, p.dag.runId, t, a);
    ChosenPromoted(s.core.artifacts, v.artifacts, p.dag.runId, a, outputs);
  }

  /** What validation accepted is what was chosen, and new to the result. */
  lemma ChosenIds(p: Plan, c: Core, s: State, t: TaskId, a: nat, out: Outcome, ids: seq<nat>, started: EventId)
    requires ValidPlan(p) && Produced(p, c, s, t, a, out, ids, started)
    requires Validate(s.core.artifacts, p.dag.runId, t, a, p.dag.tasks[t].outputs).verdict.Ok?
    ensures var outputs := p.dag.tasks[t].outputs;
            var accepted := Validate(s.core.artifacts, p.dag.runId, t, a, outputs).verdict.value;
            && accepted == Chosen(s.core.artifacts, p.dag.runId, a, outputs)
            && Merge(IdsBefore(c, t), accepted) == IdsBefore(c, t) + accepted
  {
    hide ValidateFrom, StartedBy, ValidDag, StaticInputs;
    var outputs := p.dag.tasks[t].outputs;
    var arts := s.core.artifacts;
    assert outputs[..0] == [];
    ValidateChosen(arts, arts, p.dag.runId, t, a, outputs, 0, [], true);
    ChosenDistinct(arts, p.dag.runId, a, outputs);
    var accepted := Chosen(arts, p.dag.runId, a, outputs);
    forall id | id in accepted
      ensures id !in IdsBefore(c, t)
    {
      ChosenIsNew(p, c, s, t, a, out, ids, started, id);
    }
    hide Chosen, Produced;
    MergeFresh(IdsBefore(c, t), accepted);
  }

  lemma ChosenIsNew(p: Plan, c: Core, s: State, t: TaskId, a: nat, out: Outcome, ids: seq<nat>, started: EventId,
      id: nat)
    requires Produced(p, c, s, t, a, out, ids, started)
    requires id in Chosen(s.core.artifacts, p.dag.runId, a, p.dag.tasks[t].outputs)
    ensures id !in IdsBefore(c, t)
  {
    hide Chosen, StartedBy, IdsBefore;
    var outputs := p.dag.tasks[t].outputs;
    var arts := s.core.artifacts;
    ChosenFrom(arts, p.dag.runId, a, outputs, id);
    var k, i :|
      && 0 <= k < |outputs| && 0 <= i < |arts| && arts[i].id == id && arts[i].attempt == a
      && arts[i].name == outputs[k].name;
    assert i >= |c.artifacts|;
    assert ids[i - |c.artifacts|] == id && id in ids;
  }

  lemma ConcludeRecords(p: Plan, c: Core, s: State, t: TaskId, a: nat, out: Outcome, ids: seq<nat>, started: EventId)
    requires ValidPlan(p) && Produced(p, c, s, t, a, out, ids, started)
    ensures var s' := Conclude(p, s, t, PriorAttempts(c, t) + [a], PriorResult(c, t), out, ids, started);
            RecordsReport(p.dag, c, s'.core, t, a, out)
  {
    hide CloseWith, BuildResult, ClosedBy, Produced, AttemptAdded, Adopts, ValidPlan, Validate, Promoted, IdsFrom,
        Chosen, IdsBefore, ErrorsBefore;
    assert out.Outcome? && t in p.dag.tasks && DistinctIds(s.core.artifacts) by {
      ProducedParts(p, c, s, t, a, out, ids, started);
    }
    Sessions.PromotedSame(s.core.artifacts, a);
    if out.cancelled {
      UnprovenRecords(p, c, s, t, a, out, ids, started, Cancelled, [], s.core.artifacts, NoNote);
    } else if !out.succeeded {
      var extra := if out.errors == [] then [Failure("execution_failed", "execution", t, Some(a))] else [];
      UnprovenRecords(p, c, s, t, a, out, ids, started, Failed, extra, s.core.artifacts, NoNote);
    } else {
      ValidatedRecords(p, c, s, t, a, out, ids, started);
    }
  }

  lemma ProducedParts(p: Plan, c: Core, s: State, t: TaskId, a: nat, out: Outcome, ids: seq<nat>, started: EventId)
    requires Produced(p, c, s, t, a, out, ids, started)
    ensures out.Outcome? && t in p.dag.tasks && DistinctIds(s.core.artifacts)
  {
  }

  lemma ValidatedRecords(p: Plan, c: Core, s: State, t: TaskId, a: nat, out: Outcome, ids: seq<nat>, started: EventId)
    requires ValidPlan(p) && Produced(p, c, s, t, a, out, ids, started) && !out.cancelled && out.succeeded
    ensures var s' := Conclude(p, s, t, PriorAttempts(c, t) + [a], PriorResult(c, t), out, ids, started);
            RecordsReport(p.dag, c, s'.core, t, a, out)
  {
    hide CloseWith, BuildResult, ClosedBy, AttemptAdded, Adopts, ValidPlan, ValidateFrom, Promoted, IdsFrom, Chosen,
        IdsBefore, ErrorsBefore, DistinctIds, StartedBy, Registering;
    var outputs := p.dag.tasks[t].outputs;
    var v := Validate(s.core.artifacts, p.dag.runId, t, a, outputs);
    if v.verdict.Ok? {
      ChosenRecords(p, c, s, t, a, out, ids, started);
    } else {
      RejectedCode(s.core.artifacts, p.dag.runId, t, a, outputs);
      ValidatePromotes(s.core.artifacts, p.dag.runId, t, a, outputs);
      var failure := Failure("artifact_validation_failed", "artifact_validation", t, Some(a));
      UnprovenRecords(p, c, s, t, a, out, ids, started, Failed, [failure], v.artifacts, Reason("artifact_validation"));
    }
  }

  lemma RejectedCode(arts: seq<Artifact>, run: RunId, t: TaskId, a: nat, decls: seq<OutputDecl>)
    ensures var v := Validate(arts, run, t, a, decls).verdict;
            v.Err? ==> v.error == "artifact_validation_failed"
  {
    assert decls[..0] == [];
    ValidateChosen(arts, arts, run, t, a, decls, 0, [], true);
    hide ValidateFrom;
  }

  /** A dispatch that an exception stops leaves its attempt open, with an empty record but for the attempts. */
  ghost predicate LeftOpen(dag: Dag, c: Core, c': Core, t: TaskId, a: nat) {
    && AttemptAdded(dag, c, c', t, a)
    && c'.results[t].status == Running && c'.results[t].artifactIds == [] && c'.results[t].errors == []
  }

  lemma DispatchStarted(p: Plan, c: Core, t: TaskId, s1: State)
    requires Good(p.dag, c) && t in p.dag.tasks && s1.core == Apply(p.dag, c, Start(t))
    ensures var a := c.supply;
            && LeftOpen(p.dag, c, s1.core, t, a) && s1.core.artifacts == c.artifacts
            && PriorAttempts(s1.core, t) == PriorAttempts(c, t) + [a]
            && StartedBy(s1.core.trace, FreshId(a + 1), t, a)
            && Registering(p.dag, c.artifacts, s1, t, a, [], [], a)
            && (forall i :: 0 <= i < |c.artifacts| ==> c.artifacts[i].attempt < a)
            && (forall id :: id in IdsBefore(c, t) ==> id < a)
  {
    hide Shape, Exclusive, Conserved, Separate, StarvedNeverRan, Ordered, FailureKnown, ClosedOnce, WellTraced,
        Reusable, StartedBy;
    Sessions.StartedNow(p.dag, c, t);
  }

  /**
    What a dispatch leaves on record, from any good memory: an executor that raised or reported is recorded as it
    raised or reported, after everything the result said before; one that was stopped leaves its attempt open.
  */
  lemma DispatchRecords(p: Plan, e: Env, c0: Core, s: State, t: TaskId)
    requires ValidPlan(p) && Sessions.Trail(p.dag, c0, s) && Sessions.ReadyToStart(p.dag, s.core, t)
    ensures var a, d := s.core.supply, Dispatch(p, e, s, t);
            match e.exec(t, a)
            case EngineError => d.aborted && LeftOpen(p.dag, s.core, d.state.core, t, a)
            case Exception => !d.aborted && RecordsException(p.dag, s.core, d.state.core, t, a)
            case Outcome(_, _, _, _, _) =>
              if d.aborted then LeftOpen(p.dag, s.core, d.state.core, t, a)
              else RecordsReport(p.dag, s.core, d.state.core, t, a, e.exec(t, a))
  {
    hide Good, Sessions.Trail, BuildResult, CloseWith, Conclude, RegisterAll, AttemptAdded, ValidPlan, Registering,
        StartedBy, Sessions.ReadyToStart, ClosedBy, RecordsReport, IdsBefore, ErrorsBefore, Adopts;
    Sessions.TrailGood(p.dag, c0, s);
    Sessions.StartTrail(p.dag, c0, s, t);
    var a := s.core.supply;
    var s1 := Do(p.dag, s, Start(t));
    DispatchStarted(p, s.core, t, s1);
    hide Do;
    match e.exec(t, a)
    case EngineError =>
    case Exception =>
      ExceptionRecords(p, e, s, t, s1);
    case Outcome(cands, _, _, _, _) =>
      ReportRecords(p, e, c0, s, t, s1);
  }

  lemma ExceptionRecords(p: Plan, e: Env, s: State, t: TaskId, s1: State)
    requires t in p.dag.tasks && s1 == Do(p.dag, s, Start(t)) && e.exec(t, s.core.supply) == Exception
    requires LeftOpen(p.dag, s.core, s1.core, t, s.core.supply) && s1.core.artifacts == s.core.artifacts
    requires StartedBy(s1.core.trace, FreshId(s.core.supply + 1), t, s.core.supply)
    ensures !Dispatch(p, e, s, t).aborted
    ensures RecordsException(p.dag, s.core, Dispatch(p, e, s, t).state.core, t, s.core.supply)
  {
    hide CloseWith, ClosedBy, StartedBy, Do;
    var a := s.core.supply;
    var failure := Failure("executor_exception", "execution", t, Some(a));
    var r := BuildResult(p.dag, t, Failed, PriorAttempts(s.core, t) + [a], PriorResult(s.core, t), [], [failure], [],
        None);
    ClosedNow(p.dag, s1, r, s1.core.artifacts, Reason("executor_exception"), FreshId(a + 1));
  }

  lemma ReportRecords(p: Plan, e: Env, c0: Core, s: State, t: TaskId, s1: State)
    requires ValidPlan(p) && Sessions.Trail(p.dag, c0, s1) && s1 == Do(p.dag, s, Start(t)) && t in p.dag.tasks
    requires Sessions.Open(p.dag, s1, t, PriorAttempts(s.core, t) + [s.core.supply])
    requires LeftOpen(p.dag, s.core, s1.core, t, s.core.supply) && s1.core.artifacts == s.core.artifacts
    requires StartedBy(s1.core.trace, FreshId(s.core.supply + 1), t, s.core.supply)
    requires Registering(p.dag, s.core.artifacts, s1, t, s.core.supply, [], [], s.core.supply)
    requires forall i :: 0 <= i < |s.core.artifacts| ==> s.core.artifacts[i].attempt < s.core.supply
    requires forall id :: id in IdsBefore(s.core, t) ==> id < s.core.supply
    requires e.exec(t, s.core.supply).Outcome?
    ensures var a, d := s.core.supply, Dispatch(p, e, s, t);
            if d.aborted then LeftOpen(p.dag, s.core, d.state.core, t, a)
            else RecordsReport(p.dag, s.core, d.state.core, t, a, e.exec(t, a))
  {
    hide Good, Sessions.Trail, Conclude, RegisterAll, ValidPlan, Registering, StartedBy, RecordsReport, Do,
        DistinctIds, IdsBefore;
    var a, out := s.core.supply, e.exec(t, s.core.supply);
    assert out.candidates[..0] == [];
    RegisterAdopts(p.dag, s.core.artifacts, s1, t, a, out.candidates, [], 0, a);
    Sessions.RegisterTrail(p.dag, c0, s1, t, PriorAttempts(s.core, t) + [a], out.candidates, [], 0);
    var reg := RegisterAll(p.dag, s1, t, out.candidates, [], 0);
    if !reg.aborted {
      Sessions.StartKept(s1.core.trace, reg.state.core.trace, FreshId(a + 1), t, a);
      Sessions.TrailGood(p.dag, c0, reg.state);
      Sessions.OpenFacts(p.dag, reg.state.core, t);
      ConcludeRecords(p, s.core, reg.state, t, a, out, reg.ids, FreshId(a + 1));
    }
  }
}
