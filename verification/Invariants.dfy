/** What every commit keeps. Each part of `Good` is shown inductive over the labels of the machine. */
module Invariants {
  import opened Model
  import opened Artifacts
  import opened Trace
  import opened Machine

  /** How the recorded result of a task fits its status; a stale success may sit under a fresh status. */
  ghost predicate Fits(dag: Dag, t: TaskId, r: TaskResult, s: Status) {
    && r.runId == dag.runId && r.taskId == t
    && match r.status
       case Success => WellClosed(r) && s !in {Running, Failed}
       case Running =>
         r.attempts != [] && r.artifactIds == [] && r.errors == [] && r.summary == Some("running") && s == Running
       case Failed => r.errors != [] && s == Failed
       case Cancelled => WellClosed(r) && s == Cancelled
       case _ => false
  }

  ghost predicate Shape(dag: Dag, c: Core) {
    && c.status.Keys == dag.tasks.Keys && "" !in dag.tasks
    && (forall t :: t in c.results ==> t in c.status && Fits(dag, t, c.results[t], c.status[t]))
    && (forall t :: t in c.status && c.status[t] in {Running, Success, Failed} ==>
          t in c.results && c.results[t].status == c.status[t])
  }

  /** At most one result is open or a failure, and an active task stands alone. */
  ghost predicate Exclusive(c: Core) {
    && (forall t, u ::
          t in c.results && u in c.results && c.results[t].status != Success && c.results[u].status != Success ==>
            t == u)
    && (forall t, u :: t in c.status && u in c.status && t != u && c.status[t] in {Ready, Running} ==>
          c.status[u] in {Pending, Success})
  }

  ghost predicate Supplied(c: Core) {
    && (forall i :: 0 <= i < |c.trace| ==>
          c.trace[i].sequence < c.nextSeq && (c.trace[i].id.FreshId? ==> c.trace[i].id.n < c.supply))
    && (c.mark.Some? ==>
          var e := c.mark.value.event;
          e.sequence < c.nextSeq && e.id.FreshId? && e.id.n < c.supply)
    && (forall i :: 0 <= i < |c.artifacts| ==> c.artifacts[i].id < c.supply && c.artifacts[i].attempt < c.supply)
    && DistinctIds(c.artifacts)
    && (forall t, a :: t in c.results && a in c.results[t].attempts ==> a < c.supply)
    && (forall t, id :: t in c.results && id in c.results[t].artifactIds ==> id < c.supply)
  }

  /** Attempt conservation: a result remembers exactly the attempts the trace says were started. */
  ghost predicate Conserved(dag: Dag, c: Core) {
    forall t :: t in dag.tasks ==> StartsOf(c.trace, t) == PriorAttempts(c, t)
  }

  ghost predicate Separate(c: Core) {
    && (forall t :: t in c.results ==> Distinct(c.results[t].attempts))
    && (forall t, u, a ::
          t in c.results && u in c.results && a in c.results[t].attempts && a in c.results[u].attempts ==>
            t == u)
  }

  /** What is on record of a task that lacks a required input: no attempt, and one error that says so. */
  predicate Unfed(run: RunId, t: TaskId, r: TaskResult) {
    && r.runId == run && r.taskId == t && r.status == Failed && r.attempts == [] && r.artifactIds == []
    && r.errors == [Failure("required_input_unavailable", "input_resolution", t, None)]
    && r.summary == Some("input_blocked")
  }

  /** A task that can never be fed was never started, and only such tasks are reported blocked. */
  ghost predicate StarvedNeverRan(dag: Dag, c: Core) {
    && (forall t :: t in c.results && t in dag.tasks && Starved(dag.tasks[t]) ==> Unfed(dag.runId, t, c.results[t]))
    && (forall i :: 0 <= i < |c.trace| && c.trace[i].kind == TaskBlocked ==>
          && c.trace[i].task in dag.tasks && Starved(dag.tasks[c.trace[i].task])
          && c.trace[i].note == Reason("required_input_unavailable"))
  }

  /** `t` completed among the first `n` events. */
  ghost predicate CompletedBefore(events: seq<Event>, n: nat, t: TaskId)
    requires n <= |events|
  {
    exists i :: 0 <= i < n && events[i].kind == TaskCompleted && events[i].task == t
  }

  /** Every start is preceded by the completion of each dependency. */
  ghost predicate StartsInOrder(dag: Dag, events: seq<Event>) {
    forall j :: 0 <= j < |events| && events[j].kind == TaskStarted ==>
      && events[j].task in dag.tasks && events[j].attempt.Some?
      && forall d :: d in dag.tasks[events[j].task].deps ==> CompletedBefore(events, j, d)
  }

  ghost predicate Ordered(dag: Dag, c: Core) {
    && StartsInOrder(dag, c.trace)
    && forall t :: t in c.results && c.results[t].status == Success ==> CompletedBefore(c.trace, |c.trace|, t)
  }

  predicate Fatal(kind: EventKind) {
    kind == TaskFailed || kind == TaskBlocked
  }

  /** No start after a failure. */
  ghost predicate FailFast(events: seq<Event>) {
    forall i, j :: 0 <= i < j < |events| && Fatal(events[i].kind) ==> events[j].kind != TaskStarted
  }

  ghost predicate HasFailed(c: Core) {
    exists t :: t in c.results && c.results[t].status == Failed
  }

  ghost predicate FailureKnown(c: Core) {
    && FailFast(c.trace)
    && ((exists i :: 0 <= i < |c.trace| && Fatal(c.trace[i].kind)) <==> HasFailed(c))
  }

  /** Every started attempt is closed exactly once, except the one that is still open. */
  ghost predicate ClosedOnce(c: Core) {
    && (forall t, i :: t in c.results && 0 <= i < |c.results[t].attempts| ==>
          ClosingCount(c.trace, c.results[t].attempts[i])
            == if c.results[t].status == Running && i == |c.results[t].attempts| - 1 then 0 else 1)
    && (forall a: nat :: a >= c.supply ==> ClosingCount(c.trace, a) == 0)
  }

  ghost predicate WellTraced(dag: Dag, c: Core) {
    && ValidTrace(dag.runId, c.trace)
    && ValidTrace(dag.runId, Mem(c))
    && (c.mark.Some? ==> c.mark.value.at <= |c.trace|)
  }

  /** Every recorded success still proves its required outputs, receipts aside, and each only once. */
  ghost predicate Reusable(dag: Dag, c: Core) {
    forall t :: t in c.results && t in dag.tasks && c.results[t].status == Success ==>
      Satisfies(c.artifacts, dag.runId, dag.tasks[t], c.results[t], Trust()) && OneProofEach(c.artifacts, c.results[t])
  }

  ghost predicate Good(dag: Dag, c: Core) {
    && Shape(dag, c) && Exclusive(c) && Supplied(c)
    && Conserved(dag, c) && Separate(c) && StarvedNeverRan(dag, c)
    && Ordered(dag, c) && FailureKnown(c) && ClosedOnce(c)
    && WellTraced(dag, c) && Reusable(dag, c)
  }

  // ---- What a commit must respect, part by part; every enabled label does ----

  ghost predicate ShapeGuard(dag: Dag, c: Core, ch: Change) {
    && (ch.result.Some? ==> ch.status.Some? && Fits(dag, ch.t, ch.result.value, ch.status.value))
    && (ch.status.Some? ==> ch.t in c.status)
    && (ch.status.Some? && ch.status.value in {Running, Success, Failed} ==>
          ch.result.Some? && ch.result.value.status == ch.status.value)
    && (ch.status.Some? && ch.result.None? ==> ch.t in c.results ==> Fits(dag, ch.t, c.results[ch.t], ch.status.value))
  }

  lemma EnabledShape(dag: Dag, c: Core, l: Label)
    requires Shape(dag, c) && Enabled(dag, c, l)
    ensures ShapeGuard(dag, c, Effect(dag, c, l))
  {
  }

  lemma ShapeStep(dag: Dag, c: Core, ch: Change)
    requires Shape(dag, c) && ShapeGuard(dag, c, ch)
    ensures Shape(dag, Commit(dag, c, ch))
  {
  }

  ghost predicate ExclusiveGuard(c: Core, ch: Change) {
    && (ch.status.Some? && ch.status.value in {Ready, Running} ==>
          forall u :: u in c.status && u != ch.t ==> c.status[u] in {Pending, Success})
    && (ch.status.Some? && ch.status.value !in {Pending, Success} ==>
          forall u :: u in c.status && u != ch.t ==> c.status[u] !in {Ready, Running})
    && (ch.result.Some? && ch.result.value.status != Success ==>
          forall u :: u in c.results && u != ch.t ==> c.results[u].status == Success)
  }

  lemma EnabledExclusive(dag: Dag, c: Core, l: Label)
    requires Shape(dag, c) && Exclusive(c) && Enabled(dag, c, l)
    ensures ExclusiveGuard(c, Effect(dag, c, l))
  {
  }

  lemma ExclusiveStep(dag: Dag, c: Core, ch: Change)
    requires Exclusive(c) && ExclusiveGuard(c, ch)
    ensures Exclusive(Commit(dag, c, ch))
  {
    var c' := Commit(dag, c, ch);
    forall t, u |
        && t in c'.results && u in c'.results
        && c'.results[t].status != Success && c'.results[u].status != Success
      ensures t == u
    {
      if ch.result.Some? && (t == ch.t || u == ch.t) {
      } else {
        assert t in c.results && u in c.results;
      }
    }
    forall t, u | t in c'.status && u in c'.status && t != u && c'.status[t] in {Ready, Running}
      ensures c'.status[u] in {Pending, Success}
    {
      if ch.status.Some? && (t == ch.t || u == ch.t) {
      } else {
        assert t in c.status && u in c.status;
      }
    }
  }

  ghost predicate SuppliedGuard(c: Core, ch: Change) {
    var supply := c.supply + ch.drawn;
    && (ch.result.Some? ==> forall a :: a in ch.result.value.attempts ==> a < supply)
    && (ch.result.Some? ==> forall id :: id in ch.result.value.artifactIds ==> id < supply)
    && (forall i :: 0 <= i < |ch.artifacts| ==> ch.artifacts[i].id < supply && ch.artifacts[i].attempt < supply)
    && DistinctIds(ch.artifacts)
  }

  lemma EnabledSupplied(dag: Dag, c: Core, l: Label)
    requires Shape(dag, c) && Supplied(c) && Enabled(dag, c, l)
    ensures SuppliedGuard(c, Effect(dag, c, l))
  {
    hide Satisfies, OneProofEach, Calm, Idle, DepsDone, TerminalRunStatus, Starved;
    match l
    case Register(t, cand) => assert Last(c.results[t].attempts) in c.results[t].attempts;
    case Close(t, r, arts, note, cause) => SuppliedPromoted(c, arts, Last(r.attempts));
    case _ =>
  }

  lemma SuppliedPromoted(c: Core, arts: seq<Artifact>, attempt: nat)
    requires Supplied(c) && Promoted(c.artifacts, arts, attempt)
    ensures forall i :: 0 <= i < |arts| ==> arts[i].id < c.supply && arts[i].attempt < c.supply
    ensures DistinctIds(arts)
  {
    forall i, j | 0 <= i < j < |arts|
      ensures arts[i].id != arts[j].id
    {
      assert arts[i].id == c.artifacts[i].id && arts[j].id == c.artifacts[j].id;
    }
  }

  lemma SuppliedStep(dag: Dag, c: Core, ch: Change)
    requires Supplied(c) && SuppliedGuard(c, ch)
    ensures Supplied(Commit(dag, c, ch))
  {
  }

  /** A start adds its attempt at the end; nothing else changes an attempt list. */
  ghost predicate AttemptGuard(dag: Dag, c: Core, ch: Change) {
    && (ch.kind == TaskStarted <==> ch.result.Some? && ch.result.value.status == Running)
    && (ch.kind == TaskStarted ==>
          && ch.t in dag.tasks && ch.attempt == Some(c.supply) && ch.drawn > 0
          && ch.result.value.attempts == PriorAttempts(c, ch.t) + [c.supply]
          && (ch.t in c.results ==> c.results[ch.t].status == Success))
    && (ch.kind != TaskStarted && ch.result.Some? ==> ch.result.value.attempts == PriorAttempts(c, ch.t))
  }

  lemma EnabledAttempt(dag: Dag, c: Core, l: Label)
    requires Shape(dag, c) && StarvedNeverRan(dag, c) && Enabled(dag, c, l)
    ensures AttemptGuard(dag, c, Effect(dag, c, l))
  {
  }

  lemma ConservedStep(dag: Dag, c: Core, ch: Change)
    requires Conserved(dag, c) && AttemptGuard(dag, c, ch)
    ensures Conserved(dag, Commit(dag, c, ch))
  {
    AppendReads(c.trace, EventOf(dag, c, ch));
  }

  lemma SeparateStep(dag: Dag, c: Core, ch: Change)
    requires Supplied(c) && Separate(c) && AttemptGuard(dag, c, ch)
    ensures Separate(Commit(dag, c, ch))
  {
    if ch.result.Some? {
      var r := ch.result.value;
      var prior := PriorAttempts(c, ch.t);
      assert Distinct(prior);
      forall i, j | 0 <= i < j < |r.attempts|
        ensures r.attempts[i] != r.attempts[j]
      {
        assert r.attempts[i] in prior;
      }
      assert Distinct(r.attempts);
      assert forall a :: a in r.attempts ==> a in prior || a == c.supply;
    }
  }

  ghost predicate UnfedGuard(dag: Dag, ch: Change) {
    && (ch.result.Some? ==>
          ch.t in dag.tasks && (Starved(dag.tasks[ch.t]) ==> Unfed(dag.runId, ch.t, ch.result.value)))
    && (ch.kind == TaskBlocked ==>
          ch.t in dag.tasks && Starved(dag.tasks[ch.t]) && ch.note == Reason("required_input_unavailable"))
  }

  lemma EnabledUnfed(dag: Dag, c: Core, l: Label)
    requires Shape(dag, c) && StarvedNeverRan(dag, c) && Enabled(dag, c, l)
    ensures UnfedGuard(dag, Effect(dag, c, l))
  {
    hide Starved, Calm, DepsDone, Idle, TerminalRunStatus, Satisfies, OneProofEach, StartedBy, Promoted;
  }

  lemma StarvedStep(dag: Dag, c: Core, l: Label)
    requires Shape(dag, c) && StarvedNeverRan(dag, c) && Enabled(dag, c, l)
    ensures StarvedNeverRan(dag, Apply(dag, c, l))
  {
    hide Starved, Enabled, Effect, Unfed, Shape;
    EnabledUnfed(dag, c, l);
  }

  lemma CompletedBeforeGrows(events: seq<Event>, e: Event, n: nat, t: TaskId)
    requires n <= |events|
    ensures CompletedBefore(events + [e], n, t) <==> CompletedBefore(events, n, t)
    ensures CompletedBefore(events + [e], |events| + 1, t) <==>
          CompletedBefore(events, |events|, t) || (e.kind == TaskCompleted && e.task == t)
  {
    var all := events + [e];
    assert forall i :: 0 <= i < |events| ==> all[i] == events[i];
    assert all[|events|] == e;
    if CompletedBefore(events, |events|, t) {
      var i :| 0 <= i < |events| && events[i].kind == TaskCompleted && events[i].task == t;
      assert all[i].kind == TaskCompleted;
    }
  }

  /** A start waits for its dependencies; a success is announced as a completion. */
  ghost predicate OrderGuard(dag: Dag, c: Core, ch: Change) {
    && (ch.kind == TaskStarted ==>
          && ch.t in dag.tasks && ch.attempt.Some?
          && forall d :: d in dag.tasks[ch.t].deps ==> d in c.results && c.results[d].status == Success)
    && (ch.result.Some? && ch.result.value.status == Success ==> ch.kind == TaskCompleted)
  }

  lemma EnabledOrder(dag: Dag, c: Core, l: Label)
    requires Shape(dag, c) && Enabled(dag, c, l)
    ensures OrderGuard(dag, c, Effect(dag, c, l))
  {
  }

  lemma OrderedStep(dag: Dag, c: Core, ch: Change)
    requires Ordered(dag, c) && OrderGuard(dag, c, ch)
    ensures Ordered(dag, Commit(dag, c, ch))
  {
    var e := EventOf(dag, c, ch);
    var trace := c.trace + [e];
    forall j | 0 <= j < |trace| && trace[j].kind == TaskStarted
      ensures trace[j].task in dag.tasks && trace[j].attempt.Some?
      ensures forall d :: d in dag.tasks[trace[j].task].deps ==> CompletedBefore(trace, j, d)
    {
      if j < |c.trace| {
        assert c.trace[j].kind == TaskStarted;
      }
      forall d | d in dag.tasks[trace[j].task].deps
        ensures CompletedBefore(trace, j, d)
      {
        CompletedBeforeGrows(c.trace, e, j, d);
      }
    }
    assert StartsInOrder(dag, trace);
    var c' := Commit(dag, c, ch);
    forall t | t in c'.results && c'.results[t].status == Success
      ensures CompletedBefore(trace, |trace|, t)
    {
      CompletedBeforeGrows(c.trace, e, |c.trace|, t);
    }
  }

  /** A start needs a clean record, and a fatal event comes with a failed result, never over an old one. */
  ghost predicate FailureGuard(c: Core, ch: Change) {
    && (ch.kind == TaskStarted ==> !HasFailed(c))
    && (Fatal(ch.kind) <==> ch.result.Some? && ch.result.value.status == Failed)
    && (ch.result.Some? && ch.t in c.results ==> c.results[ch.t].status != Failed)
  }

  lemma ReadyIsClean(dag: Dag, c: Core, t: TaskId)
    requires Shape(dag, c) && Exclusive(c) && t in c.status && c.status[t] == Ready
    ensures !HasFailed(c)
  {
    forall u | u in c.results
      ensures c.results[u].status != Failed
    {
      assert u != t ==> c.status[u] in {Pending, Success};
    }
  }

  lemma EnabledFailure(dag: Dag, c: Core, l: Label)
    requires Shape(dag, c) && Enabled(dag, c, l) && (l.Start? ==> !HasFailed(c))
    ensures FailureGuard(c, Effect(dag, c, l))
  {
    hide HasFailed;
  }

  lemma FailureStep(dag: Dag, c: Core, ch: Change)
    requires FailureKnown(c) && FailureGuard(c, ch)
    ensures FailureKnown(Commit(dag, c, ch))
  {
    var c' := Commit(dag, c, ch);
    var e := EventOf(dag, c, ch);
    assert forall i :: 0 <= i < |c.trace| ==> c'.trace[i] == c.trace[i];
    assert c'.trace[|c.trace|] == e;
    if HasFailed(c) {
      var t :| t in c.results && c.results[t].status == Failed;
      assert t in c'.results && c'.results[t].status == Failed;
      var i :| 0 <= i < |c.trace| && Fatal(c.trace[i].kind);
      assert Fatal(c'.trace[i].kind);
    } else if Fatal(ch.kind) {
      assert c'.results[ch.t].status == Failed;
    } else {
      assert forall t :: t in c'.results ==> c'.results[t].status != Failed;
    }
  }

  /** A closing event names the last attempt of a running task, and closes it. */
  ghost predicate CloseGuard(c: Core, ch: Change) {
    && (ch.kind in {TaskCompleted, TaskFailed, TaskCancelled} && ch.attempt.Some? ==>
          && ch.result.Some? && ch.result.value.status != Running && ch.result.value.attempts != []
          && ch.attempt == Some(Last(ch.result.value.attempts))
          && ch.t in c.results && c.results[ch.t].status == Running)
    && (ch.result.Some? && ch.t in c.results && c.results[ch.t].status == Running ==>
          ch.kind in {TaskCompleted, TaskFailed, TaskCancelled} && ch.attempt.Some?)
  }

  lemma EnabledClose(dag: Dag, c: Core, l: Label)
    requires Shape(dag, c) && Enabled(dag, c, l)
    ensures CloseGuard(c, Effect(dag, c, l))
  {
  }

  lemma ClosedOnceStep(dag: Dag, c: Core, ch: Change)
    requires Supplied(c) && SuppliedGuard(c, ch) && Separate(c) && ClosedOnce(c) && AttemptGuard(dag, c, ch)
    requires CloseGuard(c, ch)
    ensures ClosedOnce(Commit(dag, c, ch))
  {
    var c' := Commit(dag, c, ch);
    var e := EventOf(dag, c, ch);
    AppendReads(c.trace, e);
    forall t, i | t in c'.results && 0 <= i < |c'.results[t].attempts|
      ensures ClosingCount(c'.trace, c'.results[t].attempts[i])
                == if c'.results[t].status == Running && i == |c'.results[t].attempts| - 1 then 0 else 1
    {
      var a := c'.results[t].attempts[i];
      if ch.result.Some? && t == ch.t {
        var prior := PriorAttempts(c, t);
        if i < |prior| {
          assert c.results[t].attempts[i] == a;
          assert Closes(e, a) ==> prior[|prior| - 1] == a;
        }
      } else {
        assert c'.results[t] == c.results[t] && a in c.results[t].attempts;
        assert ch.result.Some? && ch.t in c.results && ch.attempt == Some(a) ==> a !in c.results[ch.t].attempts;
      }
    }
    forall a: nat | a >= c'.supply
      ensures ClosingCount(c'.trace, a) == 0
    {
      assert ch.result.Some? ==> a !in ch.result.value.attempts;
    }
  }

  lemma {:induction false} StartWitness(events: seq<Event>, t: TaskId, a: nat)
    requires a in StartsOf(events, t)
    ensures exists i ::
              && 0 <= i < |events| && events[i].kind == TaskStarted
              && events[i].task == t && events[i].attempt == Some(a)
  {
    var last := events[|events| - 1];
    if last.kind == TaskStarted && last.task == t && last.attempt == Some(a) {
    } else {
      var front := events[..|events| - 1];
      StartWitness(front, t, a);
      var i :| 0 <= i < |front| && front[i].kind == TaskStarted && front[i].task == t && front[i].attempt == Some(a);
      assert events[i] == front[i];
    }
  }

  lemma MemAppend(dag: Dag, c: Core, ch: Change)
    requires c.mark.Some? ==> c.mark.value.at <= |c.trace|
    ensures Mem(Commit(dag, c, ch)) == Mem(c) + [EventOf(dag, c, ch)]
  {
    if c.mark.Some? {
      var at := c.mark.value.at;
      var c' := Commit(dag, c, ch);
      assert c'.trace[..at] == c.trace[..at];
      assert c'.trace[at..] == c.trace[at..] + [EventOf(dag, c, ch)];
    }
  }

  lemma MemMembers(c: Core, e: Event)
    requires c.mark.Some? ==> c.mark.value.at <= |c.trace|
    requires e in Mem(c)
    ensures e in c.trace || (c.mark.Some? && e == c.mark.value.event)
  {
    if c.mark.Some? && e != c.mark.value.event {
      var at := c.mark.value.at;
      assert e in c.trace[..at] || e in c.trace[at..];
    }
  }

  lemma MemHolds(c: Core, i: nat) returns (j: nat)
    requires i < |c.trace|
    requires c.mark.Some? ==> c.mark.value.at <= |c.trace|
    ensures j < |Mem(c)| && Mem(c)[j] == c.trace[i]
  {
    j := if c.mark.Some? && c.mark.value.at <= i then i + 1 else i;
  }

  ghost predicate TraceGuard(dag: Dag, c: Core, ch: Change) {
    && WellFormed(EventOf(dag, c, ch))
    && (Concludes(ch.kind) ==> ch.attempt.Some? && ch.attempt.value in StartsOf(c.trace, ch.t))
    && (ch.cause.Some? ==> HasId(c.trace, ch.cause.value))
  }

  lemma EnabledNames(dag: Dag, c: Core, l: Label)
    requires Shape(dag, c) && Enabled(dag, c, l)
    ensures WellFormed(EventOf(dag, c, Effect(dag, c, l)))
  {
    hide Satisfies, Promoted, Starved, DepsDone, OneProofEach, Fits, TerminalRunStatus;
  }

  lemma EnabledTrace(dag: Dag, c: Core, l: Label)
    requires Shape(dag, c) && Conserved(dag, c) && Enabled(dag, c, l)
    ensures TraceGuard(dag, c, Effect(dag, c, l))
  {
    EnabledNames(dag, c, l);
    hide WellFormed, Satisfies, Promoted, WellClosed, Starved, DepsDone, OneProofEach, EndKind, StartedBy;
    if l.Close? {
      assert Last(l.result.attempts) in PriorAttempts(c, l.t);
      if l.cause.Some? {
        StartHasId(c.trace, l.cause.value, l.t, Last(l.result.attempts));
      }
    }
  }

  lemma StartHasId(events: seq<Event>, id: EventId, t: TaskId, a: nat)
    requires StartedBy(events, id, t, a)
    ensures HasId(events, id)
  {
  }

  lemma WellTracedStep(dag: Dag, c: Core, ch: Change)
    requires Supplied(c) && WellTraced(dag, c) && TraceGuard(dag, c, ch)
    ensures WellTraced(dag, Commit(dag, c, ch))
  {
    var e := EventOf(dag, c, ch);
    MemAppend(dag, c, ch);
    if Concludes(ch.kind) {
      StartWitness(c.trace, ch.t, ch.attempt.value);
      var i :|
        && 0 <= i < |c.trace| && c.trace[i].kind == TaskStarted
        && c.trace[i].task == ch.t && c.trace[i].attempt == ch.attempt;
      var j := MemHolds(c, i);
      assert StartedBefore(c.trace, |c.trace|, e);
      assert StartedBefore(Mem(c), |Mem(c)|, e);
    }
    if ch.cause.Some? {
      var i :| 0 <= i < |c.trace| && c.trace[i].id == ch.cause.value;
      var j := MemHolds(c, i);
      assert HasId(Mem(c), ch.cause.value);
    }
    ValidTraceAppend(dag.runId, c.trace, e);
    forall j | 0 <= j < |Mem(c)|
      ensures Mem(c)[j].id != e.id && Mem(c)[j].sequence < e.sequence
    {
      MemMembers(c, Mem(c)[j]);
    }
    ValidTraceAppend(dag.runId, Mem(c), e);
  }

  /** Successes other than the one being recorded keep their proofs. */
  ghost predicate ReuseGuard(dag: Dag, c: Core, ch: Change) {
    && (ch.result.Some? && ch.result.value.status == Success && ch.t in dag.tasks ==>
          && Satisfies(ch.artifacts, dag.runId, dag.tasks[ch.t], ch.result.value, Trust())
          && OneProofEach(ch.artifacts, ch.result.value))
    && (forall t, id :: t in c.results && c.results[t].status == Success && id in c.results[t].artifactIds ==>
          (ch.result.Some? && t == ch.t) || SameProof(c.artifacts, ch.artifacts, id, Last0(c.results[t].attempts)))
  }

  function Last0(s: seq<nat>): nat {
    if s == [] then 0 else Last(s)
  }

  lemma EnabledReuse(dag: Dag, c: Core, l: Label)
    requires Shape(dag, c) && Supplied(c) && Separate(c) && Enabled(dag, c, l)
    ensures ReuseGuard(dag, c, Effect(dag, c, l))
  {
    var ch := Effect(dag, c, l);
    forall t, id | t in c.results && c.results[t].status == Success && id in c.results[t].artifactIds
      ensures (ch.result.Some? && t == ch.t) || SameProof(c.artifacts, ch.artifacts, id, Last0(c.results[t].attempts))
    {
      if l.Register? {
        LookupAppend(c.artifacts, NewArtifact(dag, c, l.t, l.candidate), id);
      } else if l.Close? && t != l.t {
        var attempt := Last(l.result.attempts);
        assert attempt in c.results[l.t].attempts;
        assert Last(c.results[t].attempts) in c.results[t].attempts;
        LookupPromoted(c.artifacts, ch.artifacts, attempt, id);
      }
    }
  }

  lemma ReusableStep(dag: Dag, c: Core, ch: Change)
    requires Reusable(dag, c) && ReuseGuard(dag, c, ch)
    ensures Reusable(dag, Commit(dag, c, ch))
  {
    var c' := Commit(dag, c, ch);
    forall t | t in c'.results && t in dag.tasks && c'.results[t].status == Success
      ensures Satisfies(c'.artifacts, dag.runId, dag.tasks[t], c'.results[t], Trust())
      ensures OneProofEach(c'.artifacts, c'.results[t])
    {
      if ch.result.Some? && t == ch.t {
      } else {
        OneProofStable(c.artifacts, c'.artifacts, c.results[t]);
        SatisfiesStable(c.artifacts, c'.artifacts, dag.runId, dag.tasks[t], c.results[t], Trust());
      }
    }
  }

  /** The parts of `Good` hold after any enabled label. */
  lemma GoodStep(dag: Dag, c: Core, l: Label)
    requires Good(dag, c) && Enabled(dag, c, l)
    ensures Good(dag, Apply(dag, c, l))
  {
    var ch := Effect(dag, c, l);
    EnabledShape(dag, c, l);
    ShapeStep(dag, c, ch);
    EnabledExclusive(dag, c, l);
    ExclusiveStep(dag, c, ch);
    EnabledSupplied(dag, c, l);
    SuppliedStep(dag, c, ch);
    EnabledAttempt(dag, c, l);
    ConservedStep(dag, c, ch);
    SeparateStep(dag, c, ch);
    StarvedStep(dag, c, l);
    EnabledOrder(dag, c, l);
    OrderedStep(dag, c, ch);
    if l.Start? {
      ReadyIsClean(dag, c, l.t);
    }
    EnabledFailure(dag, c, l);
    FailureStep(dag, c, ch);
    EnabledClose(dag, c, l);
    ClosedOnceStep(dag, c, ch);
    EnabledTrace(dag, c, l);
    WellTracedStep(dag, c, ch);
    EnabledReuse(dag, c, l);
    ReusableStep(dag, c, ch);
  }

  /** Every state along a run is good. */
  lemma {:induction false} GoodRuns(dag: Dag, c: Core, ls: seq<Label>)
    requires Good(dag, c) && Runs(dag, c, ls)
    ensures Good(dag, Exec(dag, c, ls))
  {
    if ls != [] {
      GoodRuns(dag, c, ls[..|ls| - 1]);
      GoodStep(dag, Exec(dag, c, ls[..|ls| - 1]), Last(ls));
    }
  }
}
