/** One process of the scheduler only ever takes enabled steps, and ends with no task stranded. */
module Sessions {
  import opened Model
  import opened Artifacts
  import opened Trace
  import opened Machine
  import opened InputResolver
  import opened Invariants
  import opened Scheduling

  /** `s` was reached from the good state `c0` by enabled labels. */
  ghost predicate Trail(dag: Dag, c0: Core, s: State) {
    && Good(dag, c0)
    && Runs(dag, c0, s.log)
    && s.core == Exec(dag, c0, s.log)
  }

  lemma TrailGood(dag: Dag, c0: Core, s: State)
    requires Trail(dag, c0, s)
    ensures Good(dag, s.core)
  {
    hide Good;
    GoodRuns(dag, c0, s.log);
  }

  lemma TrailDo(dag: Dag, c0: Core, s: State, l: Label)
    requires Trail(dag, c0, s) && Enabled(dag, s.core, l)
    ensures Trail(dag, c0, Do(dag, s, l))
  {
    hide Good, Enabled, Apply;
    RunsAppend(dag, c0, s.log, l);
  }

  lemma TrailDomain(dag: Dag, c0: Core, s: State)
    requires Trail(dag, c0, s)
    ensures s.core.status.Keys == dag.tasks.Keys
  {
    TrailGood(dag, c0, s);
  }

  // ---- Skipping ----

  ghost predicate SomeDoomed(c: Core) {
    exists t :: t in c.status && Doomed(c.status[t])
  }

  /** Only pending tasks moved, and only to `to`. */
  ghost predicate OnlyPendingMoved(c: Core, c': Core, to: Status) {
    && c'.status.Keys == c.status.Keys
    && c'.results == c.results && c'.artifacts == c.artifacts
    && forall t :: t in c.status ==> c'.status[t] == c.status[t] || (c.status[t] == Pending && c'.status[t] == to)
  }

  lemma DoomedStays(c: Core, c': Core)
    requires SomeDoomed(c) && OnlyPendingMoved(c, c', Skipped)
    ensures SomeDoomed(c')
  {
    var t :| t in c.status && Doomed(c.status[t]);
    assert Doomed(c'.status[t]);
  }

  lemma SkipStep(dag: Dag, c0: Core, s: State, t: TaskId, note: Note)
    requires Trail(dag, c0, s) && Idle(s.core) && SomeDoomed(s.core)
    requires t in dag.tasks && Has(s.core, t, Pending)
    ensures var s' := Do(dag, s, Skip(t, note));
            Trail(dag, c0, s') && Idle(s'.core) && SomeDoomed(s'.core) && OnlyPendingMoved(s.core, s'.core, Skipped)
            && Has(s'.core, t, Skipped)
  {
    hide Good;
    TrailDo(dag, c0, s, Skip(t, note));
    DoomedStays(s.core, Do(dag, s, Skip(t, note)).core);
  }

  lemma {:induction false} SkipRemainingTrail(p: Plan, c0: Core, s: State, reason: string, i: nat)
    requires ValidPlan(p) && i <= |p.order|
    requires Trail(p.dag, c0, s) && Idle(s.core) && SomeDoomed(s.core)
    ensures var r := SkipRemaining(p, s, reason, i);
            && Trail(p.dag, c0, r) && Idle(r.core) && SomeDoomed(r.core)
            && OnlyPendingMoved(s.core, r.core, Skipped)
            && forall t :: t in p.order[i..] ==> !Has(r.core, t, Pending)
    decreases |p.order| - i
  {
    hide Good, Trail, Do;
    if i < |p.order| {
      var t := p.order[i];
      assert p.order[i..] == [t] + p.order[i + 1..];
      if Has(s.core, t, Pending) {
        SkipStep(p.dag, c0, s, t, Reason(reason));
        SkipRemainingTrail(p, c0, Do(p.dag, s, Skip(t, Reason(reason))), reason, i + 1);
      } else {
        SkipRemainingTrail(p, c0, s, reason, i + 1);
      }
    }
  }

  lemma {:induction false} SkipSweepTrail(p: Plan, c0: Core, s: State, f: TaskId, i: nat)
    requires ValidPlan(p) && i <= |p.order|
    requires Trail(p.dag, c0, s) && Idle(s.core) && SomeDoomed(s.core)
    ensures var r := SkipSweep(p, s, f, i);
            Trail(p.dag, c0, r) && Idle(r.core) && SomeDoomed(r.core) && OnlyPendingMoved(s.core, r.core, Skipped)
    decreases |p.order| - i
  {
    hide Good, Trail, Do, ValidDag, StaticInputs, DistinctOutputs;
    if i < |p.order| {
      var t := p.order[i];
      if HitByFailure(p.dag, s.core, t) {
        SkipStep(p.dag, c0, s, t, BlockedBy(f));
        SkipSweepTrail(p, c0, Do(p.dag, s, Skip(t, BlockedBy(f))), f, i + 1);
      } else {
        SkipSweepTrail(p, c0, s, f, i + 1);
      }
    }
  }

  lemma {:induction false} PropagateTrail(p: Plan, c0: Core, s: State, f: TaskId)
    requires ValidPlan(p)
    requires Trail(p.dag, c0, s) && Idle(s.core) && SomeDoomed(s.core)
    ensures var r := PropagateSkips(p, s, f);
            Trail(p.dag, c0, r) && Idle(r.core) && SomeDoomed(r.core) && OnlyPendingMoved(s.core, r.core, Skipped)
    decreases Pendings(s.core)
  {
    hide Good, Trail, SkipSweep, ValidPlan, Idle, SomeDoomed;
    SkipSweepTrail(p, c0, s, f, 0);
    var s' := SkipSweep(p, s, f, 0);
    if |s'.log| != |s.log| {
      PropagateTrail(p, c0, s', f);
    }
  }

  ghost predicate NonePending(c: Core) {
    forall t :: t in c.status ==> c.status[t] != Pending
  }

  lemma AllInOrder(p: Plan, c: Core)
    requires ValidPlan(p) && c.status.Keys == p.dag.tasks.Keys
    requires forall t :: t in p.order[0..] ==> !Has(c, t, Pending)
    ensures NonePending(c)
  {
    assert p.order[0..] == p.order;
  }

  /** After fail-fast nothing is pending: the pending tasks, and only they, were skipped. */
  lemma FailFastTrail(p: Plan, c0: Core, s: State, f: TaskId)
    requires ValidPlan(p)
    requires Trail(p.dag, c0, s) && Idle(s.core) && SomeDoomed(s.core)
    ensures var r := FailFastFrom(p, s, f);
            && Trail(p.dag, c0, r) && Idle(r.core) && SomeDoomed(r.core)
            && NonePending(r.core) && OnlyPendingMoved(s.core, r.core, Skipped)
  {
    hide Good, Trail, ValidPlan, PropagateSkips, SkipRemaining;
    PropagateTrail(p, c0, s, f);
    var s' := PropagateSkips(p, s, f);
    SkipRemainingTrail(p, c0, s', "fail_fast", 0);
    TrailDomain(p.dag, c0, FailFastFrom(p, s, f));
    AllInOrder(p, FailFastFrom(p, s, f).core);
  }

  lemma CancelStep(dag: Dag, c0: Core, s: State, t: TaskId)
    requires Trail(dag, c0, s) && Idle(s.core) && t in dag.tasks && Has(s.core, t, Pending)
    ensures var s' := Do(dag, s, CancelTask(t));
            && Trail(dag, c0, s') && Idle(s'.core) && OnlyPendingMoved(s.core, s'.core, Cancelled)
            && Has(s'.core, t, Cancelled)
  {
    hide Good;
    TrailDo(dag, c0, s, CancelTask(t));
  }

  lemma {:induction false} CancelSweepTrail(p: Plan, c0: Core, s: State, i: nat)
    requires ValidPlan(p) && i <= |p.order|
    requires Trail(p.dag, c0, s) && Idle(s.core)
    ensures var r := CancelSweep(p, s, i);
            && Trail(p.dag, c0, r) && Idle(r.core)
            && OnlyPendingMoved(s.core, r.core, Cancelled)
            && forall t :: t in p.order[i..] ==> !Has(r.core, t, Pending)
    decreases |p.order| - i
  {
    hide Good, Trail, Do;
    if i < |p.order| {
      var t := p.order[i];
      assert p.order[i..] == [t] + p.order[i + 1..];
      if Cancellable(s.core, t) {
        CancelStep(p.dag, c0, s, t);
        CancelSweepTrail(p, c0, Do(p.dag, s, CancelTask(t)), i + 1);
      } else {
        CancelSweepTrail(p, c0, s, i + 1);
      }
    }
  }

  ghost predicate AllTerminal(c: Core) {
    forall t :: t in c.status ==> Transitions.Terminal(c.status[t])
  }

  lemma AllCancelled(c: Core, c': Core, t: TaskId)
    requires OnlyPendingMoved(c, c', Cancelled) && Idle(c')
    requires t in c.status && c.status[t] in {Pending, Cancelled}
    requires forall u :: u in c.status ==> !Has(c', u, Pending)
    ensures AllTerminal(c') && Enabled0(c', CancelledRun)
  {
    assert c'.status[t] == Cancelled;
  }

  /** EndRun may announce `final`. */
  ghost predicate Enabled0(c: Core, final: RunStatus) {
    if exists t :: t in c.status && c.status[t] == Running then final in {InterruptedRun, ReconciliationRequired}
    else final == TerminalRunStatus(c.status)
  }

  lemma CancelAllTrail(p: Plan, c0: Core, s: State, t: TaskId)
    requires ValidPlan(p) && Trail(p.dag, c0, s) && Idle(s.core)
    requires t in s.core.status && s.core.status[t] in {Pending, Cancelled}
    ensures var r := CancelAll(p, s);
            && Trail(p.dag, c0, r) && AllTerminal(r.core) && r.core.run == CancelledRun
            && OnlyPendingMoved(s.core, r.core, Cancelled)
  {
    hide Good, Trail, TerminalRunStatus, CancelSweep, Do, Enabled0;
    CancelSweepTrail(p, c0, s, 0);
    var s' := CancelSweep(p, s, 0);
    assert p.order[0..] == p.order;
    TrailDomain(p.dag, c0, s);
    AllCancelled(s.core, s'.core, t);
    EndTrail(p.dag, c0, s', CancelledRun, NoNote);
  }

  lemma EndTrail(dag: Dag, c0: Core, s: State, final: RunStatus, note: Note)
    requires Trail(dag, c0, s) && Enabled0(s.core, final)
    requires if exists t :: t in s.core.status && s.core.status[t] == Running then note.Reason? else note == NoNote
    ensures var s' := Do(dag, s, EndRun(final, note));
            && Trail(dag, c0, s') && s'.core.run == final && s'.core.status == s.core.status
            && s'.core.results == s.core.results && s'.core.artifacts == s.core.artifacts
  {
    hide Good, TerminalRunStatus;
    TrailDo(dag, c0, s, EndRun(final, note));
  }

  // ---- Dispatch ----

  lemma StaticReady(dag: Dag, c: Core, t: TaskId)
    requires StaticInputs(dag) && Shape(dag, c) && t in dag.tasks && DepsDone(dag, c, t)
    ensures ResolveReady(c.artifacts, dag.runId, dag.tasks[t], c.results) <==> !Starved(dag.tasks[t])
  {
    forall d | d in dag.tasks[t].deps
      ensures HasSucceeded(c.results, d)
    {
      assert c.status[d] == Success;
    }
  }

  /** What the dispatch of `t` keeps while its attempt is open. */
  ghost predicate Open(dag: Dag, s: State, t: TaskId, attempts: seq<nat>) {
    && t in dag.tasks && Has(s.core, t, Running) && t in s.core.results
    && attempts != [] && s.core.results[t].attempts == attempts
    && s.core.results[t].artifactIds == []
  }

  lemma {:induction false} RegisterTrail(dag: Dag, c0: Core, s: State, t: TaskId, attempts: seq<nat>,
      cands: seq<Candidate>, ids: seq<nat>, i: nat)
    requires i <= |cands| && Trail(dag, c0, s) && Open(dag, s, t, attempts)
    requires forall id :: id in ids ==> id < s.core.supply
    ensures var r := RegisterAll(dag, s, t, cands, ids, i);
            && Trail(dag, c0, r.state) && Open(dag, r.state, t, attempts)
            && (forall id :: id in r.ids ==> id < r.state.core.supply)
            && r.state.core.supply >= s.core.supply
            && (forall id: nat :: id < s.core.supply ==>
                  Lookup(r.state.core.artifacts, id) == Lookup(s.core.artifacts, id))
            && s.core.trace <= r.state.core.trace
    decreases |cands| - i
  {
    hide Good;
    if i < |cands| && LocationOk(cands[i].location) {
      var s' := Do(dag, s, Register(t, cands[i]));
      TrailDo(dag, c0, s, Register(t, cands[i]));
      forall id: nat | id < s.core.supply
        ensures Lookup(s'.core.artifacts, id) == Lookup(s.core.artifacts, id)
      {
        LookupAppend(s.core.artifacts, NewArtifact(dag, s.core, t, cands[i]), id);
      }
      RegisterTrail(dag, c0, s', t, attempts, cands, ids + [s.core.supply], i + 1);
    }
  }

  lemma StartKept(events: seq<Event>, events': seq<Event>, id: EventId, t: TaskId, a: nat)
    requires events <= events' && StartedBy(events, id, t, a)
    ensures StartedBy(events', id, t, a)
  {
    var i :|
      && 0 <= i < |events| && events[i].id == id
      && events[i].kind == TaskStarted && events[i].task == t && events[i].attempt == Some(a);
    assert events'[i] == events[i];
  }

  /** Facts about the result a dispatch builds on: its artifacts belong to earlier attempts. */
  ghost predicate PriorOk(s: State, prior: Option<TaskResult>, a: nat) {
    prior.Some? ==>
      && (forall id :: id in prior.value.artifactIds ==> id < s.core.supply)
      && Foreign(s.core.artifacts, prior.value.artifactIds, a)
  }

  /** What is known of a task whose attempt is open. */
  lemma OpenFacts(dag: Dag, c: Core, t: TaskId)
    requires Good(dag, c) && Has(c, t, Running)
    ensures t in dag.tasks && t in c.results && c.results[t].attempts != [] && c.results[t].artifactIds == []
    ensures DistinctIds(c.artifacts)
    ensures forall i :: 0 <= i < |c.artifacts| ==> c.artifacts[i].id < c.supply
  {
  }

  lemma CloseTrail(dag: Dag, c0: Core, s: State, r: TaskResult, arts: seq<Artifact>, note: Note, cause: Option<EventId>)
    requires Trail(dag, c0, s) && CloseOk(dag, s.core, r, arts, cause)
    ensures var s' := CloseWith(dag, s, r, arts, note, cause);
            && Trail(dag, c0, s')
            && s'.core.status == s.core.status[r.taskId := r.status] && s'.core.results == s.core.results[r.taskId := r]
            && s'.core.artifacts == arts && s'.log == s.log + [Close(r.taskId, r, arts, note, cause)]
  {
    hide Good, CloseOk;
    TrailDo(dag, c0, s, Close(r.taskId, r, arts, note, cause));
  }

  lemma PromotedSame(arts: seq<Artifact>, attempt: nat)
    ensures Promoted(arts, arts, attempt)
  {
  }

  /** The open attempt of `t` may be closed as failed or cancelled, whatever validation promoted. */
  lemma CloseUnproven(dag: Dag, c0: Core, s: State, t: TaskId, r: TaskResult, arts: seq<Artifact>, note: Note,
      cause: Option<EventId>)
    requires Trail(dag, c0, s) && t in dag.tasks && Has(s.core, t, Running) && t in s.core.results
    requires r.runId == dag.runId && r.taskId == t && r.status in {Failed, Cancelled} && WellClosed(r)
    requires r.attempts == s.core.results[t].attempts && forall id :: id in r.artifactIds ==> id < s.core.supply
    requires Promoted(s.core.artifacts, arts, Last(r.attempts))
    requires cause.Some? ==> StartedBy(s.core.trace, cause.value, t, Last(r.attempts))
    ensures var s' := CloseWith(dag, s, r, arts, note, cause);
            && Trail(dag, c0, s')
            && s'.core.status == s.core.status[t := r.status] && s'.core.results == s.core.results[t := r]
            && s'.log == s.log + [Close(t, r, arts, note, cause)]
  {
    hide Good, Trail, CloseWith, Satisfies, OneProofEach, Promoted, StartedBy, WellClosed;
    CloseTrail(dag, c0, s, r, arts, note, cause);
  }

  /** The open attempt of `t` may be closed as a success with the artifacts that validation accepted. */
  lemma CloseAccepted(p: Plan, c0: Core, s: State, t: TaskId, priorIds: seq<nat>, r: TaskResult, note: Note,
      cause: Option<EventId>)
    requires ValidPlan(p) && Trail(p.dag, c0, s) && t in p.dag.tasks && Has(s.core, t, Running) && t in s.core.results
    requires r.runId == p.dag.runId && r.taskId == t && r.status == Success && WellClosed(r)
    requires r.attempts == s.core.results[t].attempts
    requires cause.Some? ==> StartedBy(s.core.trace, cause.value, t, Last(r.attempts))
    requires forall id :: id in priorIds ==> id < s.core.supply
    requires Foreign(s.core.artifacts, priorIds, Last(r.attempts))
    requires var v := Validate(s.core.artifacts, p.dag.runId, t, Last(r.attempts), p.dag.tasks[t].outputs);
             v.verdict.Ok? && r.artifactIds == Merge(priorIds, v.verdict.value)
    ensures var v := Validate(s.core.artifacts, p.dag.runId, t, Last(r.attempts), p.dag.tasks[t].outputs);
            var s' := CloseWith(p.dag, s, r, v.artifacts, note, cause);
            && Trail(p.dag, c0, s')
            && s'.core.status == s.core.status[t := Success] && s'.core.results == s.core.results[t := r]
            && s'.log == s.log + [Close(t, r, v.artifacts, note, cause)]
  {
    hide Good, Trail, CloseWith, Satisfies, OneProofEach, Validate, Promoted, StartedBy, Foreign, DistinctIds, Merge;
    TrailGood(p.dag, c0, s);
    OpenFacts(p.dag, s.core, t);
    TaskOutputs(p.dag, t);
    hide ValidPlan;
    var a := Last(r.attempts);
    var v := Validate(s.core.artifacts, p.dag.runId, t, a, p.dag.tasks[t].outputs);
    ValidatePromotes(s.core.artifacts, p.dag.runId, t, a, p.dag.tasks[t].outputs);
    ValidatedTrusted(s.core.artifacts, p.dag.runId, p.dag.tasks[t], priorIds, r);
    ValidatedOnce(s.core.artifacts, p.dag.runId, p.dag.tasks[t], priorIds, r);
    AcceptedIdsKnown(s.core.artifacts, p.dag.runId, t, a, p.dag.tasks[t].outputs, s.core.supply);
    CloseTrail(p.dag, c0, s, r, v.artifacts, note, cause);
  }

  lemma TaskOutputs(dag: Dag, t: TaskId)
    requires ValidDag(dag) && DistinctOutputs(dag) && t in dag.tasks
    ensures dag.tasks[t].id == t
    ensures var outputs := dag.tasks[t].outputs;
            forall i, j :: 0 <= i < j < |outputs| ==> outputs[i].name != outputs[j].name
  {
  }

  lemma ConcludeTrail(p: Plan, c0: Core, s: State, t: TaskId, attempts: seq<nat>, prior: Option<TaskResult>,
      out: Outcome, ids: seq<nat>, started: EventId)
    requires ValidPlan(p) && Trail(p.dag, c0, s) && Open(p.dag, s, t, attempts)
    requires out.Outcome? && PriorOk(s, prior, Last(attempts))
    requires forall id :: id in ids ==> id < s.core.supply
    requires StartedBy(s.core.trace, started, t, Last(attempts))
    ensures Trail(p.dag, c0, Conclude(p, s, t, attempts, prior, out, ids, started))
  {
    hide Good, Trail, CloseWith, BuildResult, Validate, Promoted, StartedBy, ValidPlan, Foreign;
    TrailGood(p.dag, c0, s);
    OpenFacts(p.dag, s.core, t);
    var a := Last(attempts);
    PromotedSame(s.core.artifacts, a);
    if out.cancelled {
      var r := BuildResult(p.dag, t, Cancelled, attempts, prior, ids, [], out.errors, Some(out.reason));
      CloseUnproven(p.dag, c0, s, t, r, s.core.artifacts, NoNote, Some(started));
    } else if !out.succeeded {
      var extra := if out.errors == [] then [Failure("execution_failed", "execution", t, Some(a))] else [];
      var r := BuildResult(p.dag, t, Failed, attempts, prior, ids, extra, out.errors, Some(out.reason));
      CloseUnproven(p.dag, c0, s, t, r, s.core.artifacts, NoNote, Some(started));
    } else {
      ValidatedConcludeTrail(p, c0, s, t, attempts, prior, out, ids, started);
    }
  }

  /** The executor reported success: the outputs decide between success and failure. */
  lemma ValidatedConcludeTrail(p: Plan, c0: Core, s: State, t: TaskId, attempts: seq<nat>, prior: Option<TaskResult>,
      out: Outcome, ids: seq<nat>, started: EventId)
    requires ValidPlan(p) && Trail(p.dag, c0, s) && Open(p.dag, s, t, attempts)
    requires out.Outcome? && !out.cancelled && out.succeeded && PriorOk(s, prior, Last(attempts))
    requires forall id :: id in ids ==> id < s.core.supply
    requires StartedBy(s.core.trace, started, t, Last(attempts))
    ensures Trail(p.dag, c0, Conclude(p, s, t, attempts, prior, out, ids, started))
  {
    hide Good, Trail, CloseWith, BuildResult, Validate, Promoted, StartedBy, ValidPlan, Foreign, DistinctIds;
    TrailGood(p.dag, c0, s);
    OpenFacts(p.dag, s.core, t);
    var a := Last(attempts);
    ValidatePromotes(s.core.artifacts, p.dag.runId, t, a, p.dag.tasks[t].outputs);
    var v := Validate(s.core.artifacts, p.dag.runId, t, a, p.dag.tasks[t].outputs);
    var priorIds := if prior.Some? then prior.value.artifactIds else [];
    if v.verdict.Ok? {
      var r := BuildResult(p.dag, t, Success, attempts, prior, v.verdict.value, [], out.errors, Some(out.reason));
      NoneForeign(s.core.artifacts, a);
      CloseAccepted(p, c0, s, t, priorIds, r, NoNote, Some(started));
    } else {
      var failure := Failure(v.verdict.error, "artifact_validation", t, Some(a));
      var r := BuildResult(p.dag, t, Failed, attempts, prior, ids, [failure], out.errors, Some(out.reason));
      CloseUnproven(p.dag, c0, s, t, r, v.artifacts, Reason("artifact_validation"), Some(started));
    }
  }

  lemma NoneForeign(arts: seq<Artifact>, a: nat)
    ensures Foreign(arts, [], a)
  {
  }

  lemma AcceptedIdsKnown(arts: seq<Artifact>, run: RunId, t: TaskId, attempt: nat, decls: seq<OutputDecl>, bound: nat)
    requires DistinctIds(arts) && Validate(arts, run, t, attempt, decls).verdict.Ok?
    requires forall i :: 0 <= i < |arts| ==> arts[i].id < bound
    ensures forall id :: id in Validate(arts, run, t, attempt, decls).verdict.value ==> id < bound
  {
    ValidateAccepts(arts, run, t, attempt, decls);
    var ids := Validate(arts, run, t, attempt, decls).verdict.value;
    forall id | id in ids
      ensures id < bound
    {
      var j :| 0 <= j < |ids| && ids[j] == id;
      var after := Validate(arts, run, t, attempt, decls).artifacts;
      var i :| 0 <= i < |decls| && Accepted(arts, after, run, t, attempt, decls[i], ids[j]);
      assert Newest(arts, run, attempt, decls[i].name).value in arts;
    }
  }

  lemma PriorIsForeign(dag: Dag, c: Core, ids: seq<nat>, a: nat)
    requires Supplied(c) && a >= c.supply
    ensures Foreign(c.artifacts, ids, a)
  {
    forall id | id in ids && Lookup(c.artifacts, id).Some?
      ensures Lookup(c.artifacts, id).value.attempt != a
    {
      LookupSound(c.artifacts, id);
    }
  }

  ghost predicate ReadyToStart(dag: Dag, c: Core, t: TaskId) {
    t in dag.tasks && Has(c, t, Ready) && DepsDone(dag, c, t) && !Starved(dag.tasks[t])
  }

  lemma StartTrail(dag: Dag, c0: Core, s: State, t: TaskId)
    requires Trail(dag, c0, s) && ReadyToStart(dag, s.core, t)
    ensures var s' := Do(dag, s, Start(t));
            && Trail(dag, c0, s') && Open(dag, s', t, PriorAttempts(s.core, t) + [s.core.supply])
            && StartedBy(s'.core.trace, FreshId(s.core.supply + 1), t, s.core.supply)
            && PriorOk(s', PriorResult(s.core, t), s.core.supply)
            && s'.core.artifacts == s.core.artifacts && s'.core.status == s.core.status[t := Running]
  {
    hide Good;
    TrailDo(dag, c0, s, Start(t));
    var s' := Do(dag, s, Start(t));
    StartedNow(dag, s.core, t);
    TrailGood(dag, c0, s);
    if t in s.core.results {
      PriorFacts(dag, s.core, t);
    }
  }

  lemma StartedNow(dag: Dag, c: Core, t: TaskId)
    ensures StartedBy(Apply(dag, c, Start(t)).trace, FreshId(c.supply + 1), t, c.supply)
  {
    var trace := Apply(dag, c, Start(t)).trace;
    assert trace[|c.trace|].id == FreshId(c.supply + 1);
  }

  lemma PriorFacts(dag: Dag, c: Core, t: TaskId)
    requires Good(dag, c) && t in c.results
    ensures forall id :: id in c.results[t].artifactIds ==> id < c.supply
    ensures Foreign(c.artifacts, c.results[t].artifactIds, c.supply)
  {
    PriorIsForeign(dag, c, c.results[t].artifactIds, c.supply);
  }

  lemma PriorKept(s: State, s': State, prior: Option<TaskResult>, a: nat)
    requires PriorOk(s, prior, a) && s'.core.supply >= s.core.supply
    requires forall id: nat :: id < s.core.supply ==> Lookup(s'.core.artifacts, id) == Lookup(s.core.artifacts, id)
    ensures PriorOk(s', prior, a)
  {
  }

  lemma AfterStartTrail(p: Plan, c0: Core, s: State, t: TaskId, attempts: seq<nat>, prior: Option<TaskResult>,
      out: Outcome, started: EventId)
    requires ValidPlan(p) && Trail(p.dag, c0, s) && Open(p.dag, s, t, attempts)
    requires PriorOk(s, prior, Last(attempts)) && StartedBy(s.core.trace, started, t, Last(attempts))
    ensures Trail(p.dag, c0, AfterStart(p, s, t, attempts, prior, out, started).state)
  {
    hide Good, Trail, CloseWith, Conclude, RegisterAll;
    match out
    case EngineError =>
    case Exception =>
      var r := BuildResult(p.dag, t, Failed, attempts, prior, [],
          [Failure("executor_exception", "execution", t, Some(Last(attempts)))], [], None);
      PromotedSame(s.core.artifacts, Last(attempts));
      CloseTrail(p.dag, c0, s, r, s.core.artifacts, Reason("executor_exception"), Some(started));
    case Outcome(cands, _, _, _, _) =>
      RegisterTrail(p.dag, c0, s, t, attempts, cands, [], 0);
      var reg := RegisterAll(p.dag, s, t, cands, [], 0);
      if !reg.aborted {
        StartKept(s.core.trace, reg.state.core.trace, started, t, Last(attempts));
        PriorKept(s, reg.state, prior, Last(attempts));
        ConcludeTrail(p, c0, reg.state, t, attempts, prior, out, reg.ids, started);
      }
  }

  /** A dispatch of a ready task takes enabled steps only. */
  lemma DispatchTrail(p: Plan, e: Env, c0: Core, s: State, t: TaskId)
    requires ValidPlan(p) && Trail(p.dag, c0, s) && ReadyToStart(p.dag, s.core, t)
    ensures Trail(p.dag, c0, Dispatch(p, e, s, t).state)
  {
    hide Good, Trail, AfterStart;
    StartTrail(p.dag, c0, s, t);
    var a := s.core.supply;
    AfterStartTrail(p, c0, Do(p.dag, s, Start(t)), t, PriorAttempts(s.core, t) + [a], PriorResult(s.core, t),
        e.exec(t, a), FreshId(a + 1));
  }

  // ---- Reconciliation ----

  /** What one reconciliation round does to memory. */
  ghost predicate RoundDone(s: State, t: TaskId, r: Reconciled) {
    && (r.blocked ==>
         && r.state.core.status == s.core.status && r.state.core.results == s.core.results
         && r.state.core.artifacts == s.core.artifacts
         && r.state.core.run in {InterruptedRun, ReconciliationRequired}
         && |r.state.log| == |s.log| + 1 && Last(r.state.log).EndRun?)
    && (!r.blocked ==>
         && t in r.state.core.results && r.state.core.results[t].status in {Success, Failed, Cancelled}
         && r.state.core.status == s.core.status[t := r.state.core.results[t].status]
         && |r.state.log| == |s.log| + 1 && Last(r.state.log).Close?)
  }

  lemma ReconcileOneTrail(p: Plan, e: Env, c0: Core, s: State, t: TaskId)
    requires ValidPlan(p) && Trail(p.dag, c0, s) && Has(s.core, t, Running)
    ensures var r := ReconcileOne(p, e, s, t);
            Trail(p.dag, c0, r.state) && RoundDone(s, t, r)
  {
    hide Good, Trail, CloseWith, BuildResult, ReconcileSuccess, Promoted, TerminalRunStatus;
    TrailGood(p.dag, c0, s);
    OpenFacts(p.dag, s.core, t);
    var prior := s.core.results[t];
    var a := Last(prior.attempts);
    match e.reconcile(t, a)
    case StillRunning => EndTrail(p.dag, c0, s, InterruptedRun, Reason("still_running"));
    case Unknown => EndTrail(p.dag, c0, s, ReconciliationRequired, Reason("unknown"));
    case Lost => EndTrail(p.dag, c0, s, ReconciliationRequired, Reason("lost"));
    case ReportedFailed(_) => ReconcileClosedTrail(p, e, c0, s, t);
    case ReportedCancelled => ReconcileClosedTrail(p, e, c0, s, t);
    case Succeeded =>
      ReconcileSuccessTrail(p, c0, s, t);
  }

  lemma ReconcileClosedTrail(p: Plan, e: Env, c0: Core, s: State, t: TaskId)
    requires ValidPlan(p) && Trail(p.dag, c0, s) && Good(p.dag, s.core) && Has(s.core, t, Running)
    requires t in s.core.results && s.core.results[t].attempts != []
    requires var reported := e.reconcile(t, Last(s.core.results[t].attempts));
             reported.ReportedFailed? || reported.ReportedCancelled?
    ensures var r := ReconcileOne(p, e, s, t);
            Trail(p.dag, c0, r.state) && RoundDone(s, t, r)
  {
    hide Good, Trail, CloseWith, BuildResult, ReconcileSuccess, Promoted, ReportedError, ValidPlan;
    OpenFacts(p.dag, s.core, t);
    var prior := s.core.results[t];
    var a := Last(prior.attempts);
    PromotedSame(s.core.artifacts, a);
    if e.reconcile(t, a).ReportedFailed? {
      var failure := ReportedError(t, a, e.reconcile(t, a).error);
      var r := BuildResult(p.dag, t, Failed, prior.attempts, Some(prior), prior.artifactIds, [failure], [], None);
      CloseUnproven(p.dag, c0, s, t, r, s.core.artifacts, Reason("reconciliation"), None);
    } else {
      var r := BuildResult(p.dag, t, Cancelled, prior.attempts, Some(prior), prior.artifactIds, [], [],
          Some("cancelled"));
      CloseUnproven(p.dag, c0, s, t, r, s.core.artifacts, NoNote, None);
    }
  }

  lemma ReconcileSuccessTrail(p: Plan, c0: Core, s: State, t: TaskId)
    requires ValidPlan(p) && Trail(p.dag, c0, s) && Good(p.dag, s.core) && Has(s.core, t, Running)
    requires t in s.core.results && s.core.results[t].attempts != []
    ensures var s' := ReconcileSuccess(p, s, t, s.core.results[t]);
            Trail(p.dag, c0, s') && RoundDone(s, t, Reconciled(s', false))
  {
    hide Good, Trail, CloseWith, BuildResult, Validate, Promoted, ValidPlan, Foreign, DistinctIds;
    OpenFacts(p.dag, s.core, t);
    var prior := s.core.results[t];
    var a := Last(prior.attempts);
    ValidatePromotes(s.core.artifacts, p.dag.runId, t, a, p.dag.tasks[t].outputs);
    var v := Validate(s.core.artifacts, p.dag.runId, t, a, p.dag.tasks[t].outputs);
    if v.verdict.Ok? {
      var r := BuildResult(p.dag, t, Success, prior.attempts, Some(prior), v.verdict.value, [], [],
          Some("reconciled_success"));
      NoneForeign(s.core.artifacts, a);
      CloseAccepted(p, c0, s, t, prior.artifactIds, r, Reason("reconciliation"), None);
    } else {
      var failure := Failure(v.verdict.error, "artifact_validation", t, Some(a));
      var r := BuildResult(p.dag, t, Failed, prior.attempts, Some(prior), prior.artifactIds, [failure], [], None);
      CloseUnproven(p.dag, c0, s, t, r, v.artifacts, Reason("artifact_validation"), None);
    }
  }
}
