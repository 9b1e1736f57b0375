/** The execution store: one snapshot a run, replaced whole by each commit. */
module Store {
  import opened Model
  import opened Fingerprints

  datatype Run = Run(id: RunId, graphId: string, status: RunStatus)

  /** Fingerprints stand for the payloads they digest. */
  datatype Snapshot = Snapshot(
    run: Run,
    statuses: map<TaskId, Status>,
    results: map<TaskId, TaskResult>,
    trace: seq<Event>,
    artifacts: seq<Artifact>,
    report: Option<RunReport>,
    revision: nat,
    taskPrint: TaskFingerprint,
    graphPrint: GraphFingerprint,
    committed: set<EventId>)

  datatype Transition = Transition(
    id: EventId,
    run: Run,
    statuses: map<TaskId, Status>,
    results: map<TaskId, TaskResult>,
    events: seq<Event>,
    artifacts: seq<Artifact>,
    report: Option<RunReport>)

  datatype StoreError = RunExists | RunNotFound | WriterConflict | CommitMismatch | EmptyCommit

  predicate Acceptable(run: RunId, tr: Transition) {
    tr.run.id == run && tr.events != []
  }

  /** The snapshot after one commit: a known transition id, or a malformed transition, changes nothing. */
  function Commit(s: Snapshot, run: RunId, tr: Transition): Snapshot {
    if tr.id in s.committed || !Acceptable(run, tr) then s
    else
      s.(run := tr.run, statuses := tr.statuses, results := tr.results, trace := s.trace + tr.events,
         artifacts := if tr.artifacts != [] then tr.artifacts else s.artifacts,
         report := if tr.report.Some? then tr.report else s.report,
         revision := s.revision + 1,
         committed := s.committed + {tr.id})
  }

  function CommitResult(s: Snapshot, run: RunId, tr: Transition): Result<nat, StoreError> {
    if tr.id in s.committed then Ok(s.revision)
    else if tr.run.id != run then Err(CommitMismatch)
    else if tr.events == [] then Err(EmptyCommit)
    else Ok(s.revision + 1)
  }

  /** A journal of commit requests, delivered in order. */
  function Deliver(s: Snapshot, run: RunId, journal: seq<Transition>): Snapshot {
    if journal == [] then s else Commit(Deliver(s, run, journal[..|journal| - 1]), run, journal[|journal| - 1])
  }

  ghost predicate Counted(s: Snapshot) {
    s.revision == |s.committed|
  }

  /** The revision counts the committed transitions, whatever is delivered. */
  lemma {:induction false} RevisionCounts(s: Snapshot, run: RunId, journal: seq<Transition>)
    requires Counted(s)
    ensures Counted(Deliver(s, run, journal))
    ensures Deliver(s, run, journal).revision >= s.revision
  {
    if journal != [] {
      RevisionCounts(s, run, journal[..|journal| - 1]);
    }
  }

  lemma {:induction false} DeliverAppend(s: Snapshot, run: RunId, first: seq<Transition>, second: seq<Transition>)
    ensures Deliver(s, run, first + second) == Deliver(Deliver(s, run, first), run, second)
  {
    if second == [] {
      assert first + second == first;
    } else {
      var all := first + second;
      assert all[..|all| - 1] == first + second[..|second| - 1];
      DeliverAppend(s, run, first, second[..|second| - 1]);
    }
  }

  lemma {:induction false} DeliveredIsKnown(s: Snapshot, run: RunId, journal: seq<Transition>, i: nat)
    requires i < |journal| && Acceptable(run, journal[i])
    ensures journal[i].id in Deliver(s, run, journal).committed
  {
    if i < |journal| - 1 {
      DeliveredIsKnown(s, run, journal[..|journal| - 1], i);
    }
  }

  /** Requests the store already knows, or refuses, leave no trace. */
  lemma {:induction false} KnownIsNoOp(s: Snapshot, run: RunId, journal: seq<Transition>)
    requires forall i :: 0 <= i < |journal| ==> Acceptable(run, journal[i]) ==> journal[i].id in s.committed
    ensures Deliver(s, run, journal) == s
  {
    if journal != [] {
      KnownIsNoOp(s, run, journal[..|journal| - 1]);
    }
  }

  /** Replaying any stretch of a journal, after any longer part of it was delivered, changes nothing. */
  lemma ReplayIsIdempotent(s: Snapshot, run: RunId, journal: seq<Transition>, from: nat, to: nat)
    requires from <= to <= |journal|
    ensures Deliver(s, run, journal + journal[from..to]) == Deliver(s, run, journal)
  {
    var s' := Deliver(s, run, journal);
    var again := journal[from..to];
    DeliverAppend(s, run, journal, again);
    forall i | 0 <= i < |again| && Acceptable(run, again[i])
      ensures again[i].id in s'.committed
    {
      DeliveredIsKnown(s, run, journal, from + i);
    }
    KnownIsNoOp(s', run, again);
  }

  /** All events of a journal, in order. */
  function EventsOf(journal: seq<Transition>): seq<Event> {
    if journal == [] then [] else EventsOf(journal[..|journal| - 1]) + journal[|journal| - 1].events
  }

  /** A journal of well-formed transitions with fresh ids is stored without loss: every event, one revision each. */
  lemma {:induction false} JournalIsStored(s: Snapshot, run: RunId, journal: seq<Transition>)
    requires forall i :: 0 <= i < |journal| ==> Acceptable(run, journal[i]) && journal[i].id !in s.committed
    requires forall i, j :: 0 <= i < j < |journal| ==> journal[i].id != journal[j].id
    ensures var s' := Deliver(s, run, journal);
            && s'.trace == s.trace + EventsOf(journal)
            && s'.revision == s.revision + |journal|
            && (forall id :: id in s'.committed <==>
                  id in s.committed || exists i :: 0 <= i < |journal| && journal[i].id == id)
            && s'.taskPrint == s.taskPrint && s'.graphPrint == s.graphPrint
  {
    if journal != [] {
      JournalIsStored(s, run, journal[..|journal| - 1]);
    }
  }

  /** The last transition of the journal that brings artifacts, and the last that brings a report. */
  function LatestArtifacts(journal: seq<Transition>, before: seq<Artifact>): seq<Artifact> {
    if journal == [] then before
    else if journal[|journal| - 1].artifacts != [] then journal[|journal| - 1].artifacts
    else LatestArtifacts(journal[..|journal| - 1], before)
  }

  function LatestReport(journal: seq<Transition>, before: Option<RunReport>): Option<RunReport> {
    if journal == [] then before
    else if journal[|journal| - 1].report.Some? then journal[|journal| - 1].report
    else LatestReport(journal[..|journal| - 1], before)
  }

  /**
    What the snapshot says of the run, the statuses and the results, the last transition said; its artifacts and its
    report are those of the last transition that had any.
  */
  lemma {:induction false} LastWordIsStored(s: Snapshot, run: RunId, journal: seq<Transition>)
    requires forall i :: 0 <= i < |journal| ==> Acceptable(run, journal[i]) && journal[i].id !in s.committed
    requires forall i, j :: 0 <= i < j < |journal| ==> journal[i].id != journal[j].id
    ensures var s' := Deliver(s, run, journal);
            && s'.artifacts == LatestArtifacts(journal, s.artifacts) && s'.report == LatestReport(journal, s.report)
            && (journal == [] ==> s' == s)
            && (journal != [] ==>
                  && s'.run == Last(journal).run && s'.statuses == Last(journal).statuses
                  && s'.results == Last(journal).results)
  {
    if journal != [] {
      var front := journal[..|journal| - 1];
      LastWordIsStored(s, run, front);
      JournalIsStored(s, run, front);
      assert Last(journal).id !in Deliver(s, run, front).committed;
    }
  }

  /** What a commit answers: the revision the snapshot then has, or why the transition was not accepted. */
  lemma AnswerIsRevision(s: Snapshot, run: RunId, tr: Transition)
    ensures var answer := CommitResult(s, run, tr);
            && (answer.Ok? ==> answer.value == Commit(s, run, tr).revision && tr.id in Commit(s, run, tr).committed)
            && (answer.Ok? <==> tr.id in s.committed || Acceptable(run, tr))
            && (answer == Err(CommitMismatch) <==> tr.id !in s.committed && tr.run.id != run)
            && (answer == Err(EmptyCommit) <==> tr.id !in s.committed && tr.run.id == run && tr.events == [])
            && (answer.Err? ==> Commit(s, run, tr) == s)
  {
  }

  class ExecutionStore {
    var snapshots: map<RunId, Snapshot>
    var writers: map<RunId, nat>
    var writerToken: nat

    constructor ()
      ensures snapshots == map[] && writers == map[] && writerToken == 0
    {
      snapshots, writers, writerToken := map[], map[], 0;
    }

    method CreateRun(s: Snapshot) returns (r: Result<(), StoreError>)
      modifies `snapshots
      ensures if s.run.id in old(snapshots)
              then r == Err(RunExists) && snapshots == old(snapshots)
              else r == Ok(()) && snapshots == old(snapshots)[s.run.id := s]
    {
      if s.run.id in snapshots {
        return Err(RunExists);
      }
      snapshots := snapshots[s.run.id := s];
      return Ok(());
    }

    method LoadSnapshot(run: RunId) returns (r: Result<Snapshot, StoreError>)
      ensures r == if run in snapshots then Ok(snapshots[run]) else Err(RunNotFound)
    {
      if run !in snapshots {
        return Err(RunNotFound);
      }
      return Ok(snapshots[run]);
    }

    /** The writer is checked first, then the run, then whether the transition is a replay. */
    method CommitTransition(run: RunId, tr: Transition) returns (r: Result<nat, StoreError>)
      modifies `snapshots
      ensures if run !in writers then r == Err(WriterConflict) && snapshots == old(snapshots)
              else if run !in old(snapshots) then r == Err(RunNotFound) && snapshots == old(snapshots)
              else r == CommitResult(old(snapshots)[run], run, tr)
                   && snapshots == old(snapshots)[run := Commit(old(snapshots)[run], run, tr)]
    {
      if run !in writers {
        return Err(WriterConflict);
      }
      var loaded := LoadSnapshot(run);
      if loaded.Err? {
        return Err(loaded.error);
      }
      var s := loaded.value;
      assert snapshots == snapshots[run := s];
      if tr.id in s.committed {
        return Ok(s.revision);
      }
      if tr.run.id != run {
        return Err(CommitMismatch);
      }
      if tr.events == [] {
        return Err(EmptyCommit);
      }
      var artifacts := if tr.artifacts != [] then tr.artifacts else s.artifacts;
      var report := if tr.report.Some? then tr.report else s.report;
      var updated := Snapshot(tr.run, tr.statuses, tr.results, s.trace + tr.events, artifacts, report,
                       s.revision + 1, s.taskPrint, s.graphPrint, s.committed + {tr.id});
      snapshots := snapshots[run := updated];
      return Ok(s.revision + 1);
    }

    method SaveReport(run: RunId, report: RunReport) returns (r: Result<(), StoreError>)
      modifies `snapshots
      ensures if run !in writers then r == Err(WriterConflict) && snapshots == old(snapshots)
              else if run !in old(snapshots) then r == Err(RunNotFound) && snapshots == old(snapshots)
              else r == Ok(()) && snapshots == old(snapshots)[run := old(snapshots)[run].(report := Some(report))]
    {
      if run !in writers {
        return Err(WriterConflict);
      }
      var loaded := LoadSnapshot(run);
      if loaded.Err? {
        return Err(loaded.error);
      }
      snapshots := snapshots[run := loaded.value.(report := Some(report))];
      return Ok(());
    }

    /** One writer a run: a second acquisition is refused and changes nothing. */
    method AcquireWriter(run: RunId) returns (r: Result<(), StoreError>)
      modifies `writers, `writerToken
      ensures if run in old(writers)
              then r == Err(WriterConflict) && writers == old(writers) && writerToken == old(writerToken)
              else r == Ok(()) && writerToken == old(writerToken) + 1 && writers == old(writers)[run := writerToken]
    {
      if run in writers {
        return Err(WriterConflict);
      }
      writerToken := writerToken + 1;
      writers := writers[run := writerToken];
      return Ok(());
    }

    method ReleaseWriter(run: RunId)
      modifies `writers
      ensures writers == old(writers) - {run}
    {
      writers := writers - {run};
    }
  }
}
