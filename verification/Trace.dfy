/** The append-only trace: what a valid history is, and functions that read one. */
module Trace {
  import opened Model

  ghost predicate HasId(events: seq<Event>, id: EventId) {
    exists i :: 0 <= i < |events| && events[i].id == id
  }

  /** The event of that id started attempt `a` of `t`. */
  ghost predicate StartedBy(events: seq<Event>, id: EventId, t: TaskId, a: nat) {
    exists i ::
      && 0 <= i < |events| && events[i].id == id
      && events[i].kind == TaskStarted && events[i].task == t && events[i].attempt == Some(a)
  }

  ghost predicate StartedBefore(events: seq<Event>, n: nat, e: Event)
    requires n <= |events|
  {
    exists i ::
      && 0 <= i < n && events[i].kind == TaskStarted
      && events[i].task == e.task && events[i].attempt == e.attempt
  }

  predicate Concludes(kind: EventKind) {
    kind == TaskCompleted || kind == TaskFailed
  }

  /** The event type itself demands a task of task events and an attempt of the three that need one. */
  predicate WellFormed(e: Event) {
    && (e.kind in {TaskReady, TaskStarted, TaskCompleted, TaskFailed, TaskBlocked, TaskSkipped, TaskCancelled,
                   ArtifactRegistered} ==>
          e.task != "")
    && (e.kind in {TaskStarted, TaskCompleted, TaskFailed} ==> e.attempt.Some?)
  }

  /** Event `i` is acceptable after the events before it. */
  ghost predicate Follows(run: RunId, events: seq<Event>, i: nat)
    requires i < |events|
  {
    && WellFormed(events[i]) && events[i].runId == run
    && (forall j :: 0 <= j < i ==> events[j].id != events[i].id && events[j].sequence < events[i].sequence)
    && (events[i].cause.Some? ==> HasId(events[..i], events[i].cause.value))
    && (Concludes(events[i].kind) ==> StartedBefore(events, i, events[i]))
  }

  /** What validate_trace_events accepts. */
  ghost predicate ValidTrace(run: RunId, events: seq<Event>) {
    forall i :: 0 <= i < |events| ==> Follows(run, events, i)
  }

  lemma ValidTraceAppend(run: RunId, events: seq<Event>, e: Event)
    requires ValidTrace(run, events) && WellFormed(e) && e.runId == run
    requires forall j :: 0 <= j < |events| ==> events[j].id != e.id && events[j].sequence < e.sequence
    requires e.cause.Some? ==> HasId(events, e.cause.value)
    requires Concludes(e.kind) ==> StartedBefore(events, |events|, e)
    ensures ValidTrace(run, events + [e])
  {
    var all := events + [e];
    forall i | 0 <= i < |all|
      ensures Follows(run, all, i)
    {
      assert all[..i] == events[..i];
      if i < |events| {
        assert Follows(run, events, i);
        if Concludes(all[i].kind) {
          var k :|
            && 0 <= k < i && events[k].kind == TaskStarted
            && events[k].task == events[i].task && events[k].attempt == events[i].attempt;
          assert all[k].kind == TaskStarted;
        }
      } else {
        assert events[..i] == events;
        if Concludes(e.kind) {
          var k :|
            && 0 <= k < |events| && events[k].kind == TaskStarted
            && events[k].task == e.task && events[k].attempt == e.attempt;
          assert all[k].kind == TaskStarted;
        }
      }
    }
  }

  /** The attempt ids of a task in the order they were started. */
  function StartsOf(events: seq<Event>, t: TaskId): seq<nat> {
    if events == [] then []
    else
      var last := events[|events| - 1];
      var front := StartsOf(events[..|events| - 1], t);
      if last.kind == TaskStarted && last.task == t && last.attempt.Some? then front + [last.attempt.value] else front
  }

  predicate Closes(e: Event, attempt: nat) {
    e.kind in {TaskCompleted, TaskFailed, TaskCancelled} && e.attempt == Some(attempt)
  }

  function ClosingCount(events: seq<Event>, attempt: nat): nat {
    if events == [] then 0
    else ClosingCount(events[..|events| - 1], attempt) + if Closes(events[|events| - 1], attempt) then 1 else 0
  }

  function CountStarts(events: seq<Event>): nat {
    if events == [] then 0
    else CountStarts(events[..|events| - 1]) + if events[|events| - 1].kind == TaskStarted then 1 else 0
  }

  lemma AppendReads(events: seq<Event>, e: Event)
    ensures forall t :: StartsOf(events + [e], t) ==
              var before := StartsOf(events, t);
                  if e.kind == TaskStarted && e.task == t && e.attempt.Some? then before + [e.attempt.value] else before
    ensures forall a :: ClosingCount(events + [e], a) == ClosingCount(events, a) + if Closes(e, a) then 1 else 0
    ensures CountStarts(events + [e]) == CountStarts(events) + if e.kind == TaskStarted then 1 else 0
  {
    assert (events + [e])[..|events|] == events;
  }

  /** One more than the largest sequence number, or 0 for an empty history. */
  function NextSequence(events: seq<Event>): (n: nat)
    ensures forall i :: 0 <= i < |events| ==> events[i].sequence < n
  {
    if events == [] then 0
    else
      var rest := NextSequence(events[..|events| - 1]);
      var last := events[|events| - 1].sequence + 1;
      if last > rest then last else rest
  }

  // ---- Validation and construction ----

  datatype TraceError =
    | RunMismatch | DuplicateEvent | UnknownCause | DuplicateSequence | NotIncreasing | NotStarted | IllFormed

  ghost predicate AllWellFormed(events: seq<Event>) {
    forall i :: 0 <= i < |events| ==> WellFormed(events[i])
  }

  ghost predicate StartKnown(events: seq<Event>, n: nat, key: (TaskId, Option<nat>))
    requires n <= |events|
  {
    exists i :: 0 <= i < n && events[i].kind == TaskStarted && events[i].task == key.0 && events[i].attempt == key.1
  }

  /** What is wrong with event `i`: the first of the checks, in their order, that it fails. */
  ghost predicate Violates(run: RunId, events: seq<Event>, i: nat, error: TraceError)
    requires i < |events|
  {
    var e := events[i];
    match error
    case RunMismatch => e.runId != run
    case DuplicateEvent => e.runId == run && HasId(events[..i], e.id)
    case UnknownCause =>
      e.runId == run && !HasId(events[..i], e.id) && e.cause.Some? && !HasId(events[..i], e.cause.value)
    case DuplicateSequence =>
      e.runId == run && !HasId(events[..i], e.id) && exists j :: 0 <= j < i && events[j].sequence == e.sequence
    case NotIncreasing =>
      && e.runId == run && !HasId(events[..i], e.id) && (forall j :: 0 <= j < i ==> events[j].sequence != e.sequence)
      && exists j :: 0 <= j < i && events[j].sequence > e.sequence
    case NotStarted =>
      && e.runId == run && !HasId(events[..i], e.id) && (forall j :: 0 <= j < i ==> events[j].sequence < e.sequence)
      && Concludes(e.kind) && !StartedBefore(events, i, e)
    case IllFormed => false
  }

  /** validate_trace_events: one pass with the ids, sequences and starts seen so far. */
  method ValidateTraceEvents(run: RunId, events: seq<Event>) returns (error: Option<TraceError>)
    requires AllWellFormed(events)
    ensures error.None? <==> ValidTrace(run, events)
    ensures error.Some? ==>
              exists i :: 0 <= i < |events| && ValidTrace(run, events[..i]) && Violates(run, events, i, error.value)
  {
    hide Follows, ValidTrace, StartedBefore, HasId, WellFormed, StartKnown;
    var ids: set<EventId> := {};
    var sequences: set<nat> := {};
    var last: int := -1;
    var started: set<(TaskId, Option<nat>)> := {};
    NothingSeen(events);
    for i := 0 to |events|
      invariant forall id :: id in ids <==> HasId(events[..i], id)
      invariant forall n :: n in sequences <==> exists j :: 0 <= j < i && events[j].sequence == n
      invariant forall j :: 0 <= j < i ==> events[j].sequence <= last
      invariant last == -1 || last in sequences
      invariant forall key :: key in started <==> StartKnown(events, i, key)
      invariant forall k :: 0 <= k < i ==> Follows(run, events, k)
    {
      var e := events[i];
      PrefixFollows(run, events, i);
      HasIdStep(events, i);
      StartKnownStep(events, i);
      if e.runId != run {
        ViolationRejects(run, events, i, RunMismatch);
        return Some(RunMismatch);
      }
      if e.id in ids {
        ViolationRejects(run, events, i, DuplicateEvent);
        return Some(DuplicateEvent);
      }
      if e.cause.Some? && e.cause.value !in ids {
        ViolationRejects(run, events, i, UnknownCause);
        return Some(UnknownCause);
      }
      ids := ids + {e.id};
      if e.sequence in sequences {
        ViolationRejects(run, events, i, DuplicateSequence);
        return Some(DuplicateSequence);
      }
      sequences := sequences + {e.sequence};
      if e.sequence <= last {
        ViolationRejects(run, events, i, NotIncreasing);
        return Some(NotIncreasing);
      }
      last := e.sequence;
      if e.kind == TaskStarted && e.task != "" && e.attempt.Some? {
        started := started + {(e.task, e.attempt)};
      }
      StartsAreNamed(e);
      if Concludes(e.kind) && (e.task, e.attempt) !in started {
        ViolationRejects(run, events, i, NotStarted);
        return Some(NotStarted);
      }
      Passes(run, events, i);
    }
    PrefixFollows(run, events, |events|);
    assert events[..|events|] == events;
    return None;
  }

  lemma NothingSeen(events: seq<Event>)
    ensures forall id :: !HasId(events[..0], id)
    ensures forall key :: !StartKnown(events, 0, key)
  {
  }

  lemma StartsAreNamed(e: Event)
    requires WellFormed(e)
    ensures e.kind == TaskStarted ==> e.task != "" && e.attempt.Some?
  {
  }

  lemma ViolationRejects(run: RunId, events: seq<Event>, i: nat, error: TraceError)
    requires i < |events| && Violates(run, events, i, error)
    ensures !Follows(run, events, i) && !ValidTrace(run, events)
  {
    hide WellFormed, StartedBefore;
    if error == DuplicateEvent {
      var j :| 0 <= j < i && events[..i][j].id == events[i].id;
      assert events[j].id == events[i].id;
    }
  }

  lemma Passes(run: RunId, events: seq<Event>, i: nat)
    requires i < |events| && WellFormed(events[i]) && events[i].runId == run
    requires !HasId(events[..i], events[i].id)
    requires forall j :: 0 <= j < i ==> events[j].sequence < events[i].sequence
    requires events[i].cause.Some? ==> HasId(events[..i], events[i].cause.value)
    requires Concludes(events[i].kind) ==> StartedBefore(events, i, events[i])
    ensures Follows(run, events, i)
  {
    hide WellFormed, StartedBefore;
    forall j | 0 <= j < i
      ensures events[j].id != events[i].id
    {
      assert events[..i][j].id == events[j].id;
    }
  }

  lemma PrefixFollows(run: RunId, events: seq<Event>, i: nat)
    requires i <= |events| && forall k :: 0 <= k < i ==> Follows(run, events, k)
    ensures ValidTrace(run, events[..i])
  {
    forall k | 0 <= k < i
      ensures Follows(run, events[..i], k)
    {
      assert Follows(run, events, k) && events[..i][..k] == events[..k];
    }
  }

  lemma HasIdStep(events: seq<Event>, i: nat)
    requires i < |events|
    ensures forall id :: HasId(events[..i + 1], id) <==> HasId(events[..i], id) || id == events[i].id
    ensures HasId(events[..i], events[i].id) <==> exists j :: 0 <= j < i && events[j].id == events[i].id
  {
    assert events[..i + 1] == events[..i] + [events[i]];
    forall id
      ensures HasId(events[..i + 1], id) <==> HasId(events[..i], id) || id == events[i].id
    {
      if HasId(events[..i], id) {
        var j :| 0 <= j < i && events[..i][j].id == id;
        assert events[..i + 1][j].id == id;
      }
      if id == events[i].id {
        assert events[..i + 1][i].id == id;
      }
    }
    forall j | 0 <= j < i && events[j].id == events[i].id
      ensures HasId(events[..i], events[i].id)
    {
      assert events[..i][j].id == events[i].id;
    }
  }

  lemma StartKnownStep(events: seq<Event>, i: nat)
    requires i < |events|
    ensures forall key :: StartKnown(events, i + 1, key)
              <==> StartKnown(events, i, key)
                   || (events[i].kind == TaskStarted && key == (events[i].task, events[i].attempt))
    ensures StartKnown(events, i, (events[i].task, events[i].attempt)) <==> StartedBefore(events, i, events[i])
  {
  }

  /** Where fresh ids come from: no number is handed out twice. */
  class IdSource {
    var next: nat

    constructor (first: nat)
      ensures next == first
    {
      next := first;
    }

    method Draw() returns (n: nat)
      modifies this
      ensures n == old(next) && next == n + 1
    {
      n := next;
      next := next + 1;
    }
  }

  class TraceBuilder {
    const runId: RunId
    const ids: IdSource
    var events: seq<Event>
    var sequence: nat
    var eventIds: set<EventId>

    ghost predicate Valid()
      reads this
    {
      && AllWellFormed(events)
      && (forall id :: id in eventIds <==> HasId(events, id))
      && (forall i :: 0 <= i < |events| ==> events[i].sequence < sequence)
    }

    constructor (runId: RunId, ids: IdSource, events: seq<Event>)
      requires AllWellFormed(events)
      ensures Valid() && this.runId == runId && this.ids == ids
      ensures this.events == events && sequence == NextSequence(events)
    {
      this.runId := runId;
      this.ids := ids;
      this.events := events;
      this.sequence := NextSequence(events);
      this.eventIds := set e | e in events :: e.id;
      new;
      forall id
        ensures id in eventIds <==> HasId(events, id)
      {
        if HasId(events, id) {
          var i :| 0 <= i < |events| && events[i].id == id;
          assert events[i] in events;
        }
      }
    }

    /** A builder starts only from a history that validates. */
    static method Create(runId: RunId, ids: IdSource, initial: seq<Event>) returns (r: Result<TraceBuilder, TraceError>)
      requires AllWellFormed(initial)
      ensures r.Ok? <==> ValidTrace(runId, initial)
      ensures r.Ok? ==>
                && fresh(r.value) && r.value.Valid() && r.value.runId == runId && r.value.ids == ids
                && r.value.events == initial && r.value.sequence == NextSequence(initial)
    {
      var error := ValidateTraceEvents(runId, initial);
      if error.Some? {
        return Err(error.value);
      }
      var builder := new TraceBuilder(runId, ids, initial);
      return Ok(builder);
    }

    /** Appends one event under a fresh id and the next sequence number, or changes nothing but the id supply. */
    method Append(kind: EventKind, task: TaskId, attempt: Option<nat>, note: Note, cause: Option<EventId>)
        returns (r: Result<Event, TraceError>)
      requires Valid()
      modifies this, ids
      ensures Valid()
      ensures ids.next == old(ids.next) + 1
      ensures var e := Event(FreshId(old(ids.next)), kind, runId, old(sequence), task, attempt, note, cause);
              if old(HasId(events, e.id)) || !WellFormed(e)
              then r.Err? && events == old(events) && sequence == old(sequence)
              else r == Ok(e) && events == old(events) + [e] && sequence == old(sequence) + 1
    {
      var n := ids.Draw();
      var proposed := FreshId(n);
      if proposed in eventIds {
        return Err(DuplicateEvent);
      }
      var e := Event(proposed, kind, runId, sequence, task, attempt, note, cause);
      if !WellFormed(e) {
        return Err(IllFormed);
      }
      ghost var before := events;
      events := events + [e];
      eventIds := eventIds + {proposed};
      sequence := sequence + 1;
      assert events[..|before|] == before && events[..|before| + 1] == events;
      HasIdStep(events, |before|);
      return Ok(e);
    }

    /** The finished trace is validated once more. */
    method Build() returns (r: Result<seq<Event>, TraceError>)
      requires Valid()
      ensures r.Ok? <==> ValidTrace(runId, events)
      ensures r.Ok? ==> r.value == events
    {
      var error := ValidateTraceEvents(runId, events);
      return if error.Some? then Err(error.value) else Ok(events);
    }
  }
}
