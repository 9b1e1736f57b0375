/** From a trace append to a durable commit: the run state, the committer and the persisting trace builder. */
module Coordinator {
  import opened Model
  import opened Artifacts
  import opened Trace
  import opened Machine
  import opened Tracker
  import Scheduling
  import S = Store

  /** The scheduler's mutable state, read again at every commit. */
  class SchedulerRunState {
    const plan: Plan
    const graphId: string
    var run: RunStatus
    var status: map<TaskId, Status>
    var results: map<TaskId, TaskResult>

    constructor (plan: Plan, graphId: string, run: RunStatus, status: map<TaskId, Status>, results: map<TaskId,
        TaskResult>)
      ensures this.plan == plan && this.graphId == graphId
      ensures this.run == run && this.status == status && this.results == results
    {
      this.plan, this.graphId := plan, graphId;
      this.run, this.status, this.results := run, status, results;
    }
  }

  class TransitionCommitter {
    const store: S.ExecutionStore
    const runId: RunId
    const tracker: ArtifactTracker
    var pending: seq<Event>

    constructor (store: S.ExecutionStore, runId: RunId, tracker: ArtifactTracker)
      ensures this.store == store && this.runId == runId && this.tracker == tracker && pending == []
    {
      this.store, this.runId, this.tracker, this.pending := store, runId, tracker, [];
    }

    method StageEvent(e: Event)
      modifies `pending
      ensures pending == old(pending) + [e]
    {
      pending := pending + [e];
    }

    /** The transition a commit would send. */
    ghost function Staged(run: S.Run, statuses: map<TaskId, Status>, results: map<TaskId, TaskResult>,
        report: Option<RunReport>): S.Transition
      requires pending != []
      reads this, tracker
    {
      S.Transition(Last(pending).id, run, statuses, map t | t in statuses && t in results :: results[t], pending,
          tracker.artifacts, report)
    }

    /** Nothing pending, nothing done. A refused commit keeps its events pending. */
    method Commit(run: S.Run, statuses: map<TaskId, Status>, results: map<TaskId, TaskResult>,
        report: Option<RunReport>)
      returns (r: Result<(), S.StoreError>)
      modifies `pending, store`snapshots
      ensures old(pending) == [] ==> r == Ok(()) && pending == [] && store.snapshots == old(store.snapshots)
      ensures old(pending) != [] && (runId !in store.writers || runId !in old(store.snapshots)) ==>
                && r == Err(if runId !in store.writers then S.WriterConflict else S.RunNotFound)
                && pending == old(pending) && store.snapshots == old(store.snapshots)
      ensures old(pending) != [] && runId in old(store.snapshots) && runId in store.writers ==>
                var tr := old(Staged(run, statuses, results, report));
                var s := old(store.snapshots)[runId];
                && store.snapshots == old(store.snapshots)[runId := S.Commit(s, runId, tr)]
                && (r.Ok? <==> S.CommitResult(s, runId, tr).Ok?)
                && pending == if r.Ok? then [] else old(pending)
    {
      if pending == [] {
        return Ok(());
      }
      var transition := S.Transition(pending[|pending| - 1].id, run, statuses,
                          map t | t in statuses && t in results :: results[t], pending, tracker.artifacts, report);
      var committed := store.CommitTransition(runId, transition);
      if committed.Err? {
        return Err(committed.error);
      }
      pending := [];
      return Ok(());
    }

    /** stage_event and commit of one event, with nothing else pending. */
    method Send(e: Event, run: S.Run, statuses: map<TaskId, Status>, results: map<TaskId, TaskResult>)
      returns (r: Result<(), S.StoreError>)
      requires pending == [] && runId in store.snapshots && runId in store.writers && results.Keys <= statuses.Keys
      modifies `pending, store`snapshots
      ensures var tr := S.Transition(e.id, run, statuses, results, [e], tracker.artifacts, None);
              var s := old(store.snapshots)[runId];
              && store.snapshots == old(store.snapshots)[runId := S.Commit(s, runId, tr)]
              && (r.Ok? <==> S.CommitResult(s, runId, tr).Ok?) && (r.Ok? ==> pending == [])
    {
      hide S.Commit, S.CommitResult;
      RestrictSame(statuses, results);
      StageEvent(e);
      assert pending == [e];
      r := Commit(run, statuses, results, None);
    }
  }

  class PersistingTraceBuilder {
    const inner: TraceBuilder
    const committer: TransitionCommitter
    const state: SchedulerRunState
    /** The snapshot and the rest of the store when this process began, and its RUN_RESUMED event. */
    ghost const base: S.Snapshot
    ghost const others: map<RunId, S.Snapshot>
    ghost const writers: map<RunId, nat>
    ghost const mark: Option<Mark>
    /** Memory when this process began, already marked as running. */
    ghost const start: Core
    /** The labels committed through this builder, and the snapshot each of the commits left in the store. */
    ghost var log: seq<Label>
    ghost var past: seq<S.Snapshot>

    ghost function Repr(): set<object> {
      {this, inner, inner.ids, committer, committer.store, committer.tracker, state}
    }

    ghost function Snapshot(): S.Snapshot
      reads committer.store
    {
      if committer.runId in committer.store.snapshots then committer.store.snapshots[committer.runId] else base
    }

    /** Everything the process remembers, as the machine's state. */
    ghost function Memory(): Core
      reads Repr(), committer.store
    {
      Core(state.run, state.status, state.results, Snapshot().trace, committer.tracker.artifacts, inner.sequence,
          inner.ids.next, mark)
    }

    ghost predicate Linked()
      reads Repr(), committer.store
    {
      && inner.Valid() && inner.runId == committer.runId && committer.runId == state.plan.dag.runId
      && committer.tracker.ids == inner.ids
      && committer.pending == []
      && committer.runId in committer.store.snapshots && committer.runId in writers
      && committer.store.writers == writers && state.graphId == base.run.graphId
      && committer.store.snapshots - {committer.runId} == others
      && Tied(Memory(), inner.events, Snapshot(), base, |log|)
    }

    /** The snapshot says exactly what memory says. */
    ghost predicate Synced()
      reads Repr(), committer.store
    {
      && Snapshot().run == S.Run(committer.runId, state.graphId, state.run)
      && Snapshot().statuses == state.status
      && Snapshot().results == state.results
      && Snapshot().artifacts == committer.tracker.artifacts
    }

    ghost predicate Covers()
      reads state
    {
      state.status.Keys == state.plan.dag.tasks.Keys && state.results.Keys <= state.status.Keys
    }

    /** Once something was appended, in step with the store. */
    ghost predicate Mirrored()
      reads Repr(), committer.store
    {
      Linked() && Covers() && if log == [] then Snapshot() == base else Synced()
    }

    /** Before the run is marked as running: nothing appended yet. */
    ghost predicate Attached()
      reads Repr(), committer.store
    {
      && Linked() && Covers() && log == [] && past == [] && Snapshot() == base
      && Memory().(run := RunningRun) == start
    }

    /** Every snapshot so far was the one its commit asks for, and the last is the one in the store. */
    ghost predicate Recorded()
      reads Repr(), committer.store
    {
      Began(Memory())
    }

    /** `c` is what the labels so far lead to, and every earlier commit is on record. */
    ghost predicate Began(c: Core)
      reads this, committer.store
    {
      && c == Exec(state.plan.dag, start, log) && Record(state.plan.dag, start, base, committer.runId, log, past)
      && Snapshot() == Latest(base, past)
    }

    /** Between two appends: in step with the store, with every earlier commit on record. */
    ghost predicate Valid()
      reads Repr(), committer.store
    {
      Mirrored() && Recorded()
    }

    ghost function Now(): Scheduling.State
      reads Repr(), committer.store
    {
      Scheduling.State(Memory(), log)
    }

    constructor (inner: TraceBuilder, committer: TransitionCommitter, state: SchedulerRunState,
        ghost mark: Option<Mark>, ghost start: Core)
      requires committer.runId in committer.store.snapshots
      ensures this.inner == inner && this.committer == committer && this.state == state && this.mark == mark
      ensures this.start == start && log == [] && past == []
      ensures base == committer.store.snapshots[committer.runId]
      ensures others == committer.store.snapshots - {committer.runId}
      ensures writers == committer.store.writers
    {
      this.inner, this.committer, this.state := inner, committer, state;
      this.base := committer.store.snapshots[committer.runId];
      this.others := committer.store.snapshots - {committer.runId};
      this.writers := committer.store.writers;
      this.mark, this.start := mark, start;
      this.log, this.past := [], [];
    }

    /** Appends to memory, stages and commits. */
    method Persist(kind: EventKind, task: TaskId, attempt: Option<nat>, note: Note, cause: Option<EventId>,
        ghost before: Core, ghost step: Label)
      returns (r: Result<Event, TraceError>)
      requires Linked() && Covers()
      requires Announces(state.plan.dag, before, Memory(), step, kind, task, attempt, note, cause)
      modifies `log, inner, inner.ids, committer, committer.store
      ensures var e := EventOf(state.plan.dag, before, Effect(state.plan.dag, before, step));
              && (r.Ok? <==> WellFormed(e))
              && (r.Ok? ==>
                   && r.value == e && Mirrored()
                   && Now() == Scheduling.Do(state.plan.dag, Scheduling.State(before, old(log)), step)
                   && Sends(old(Snapshot()), Snapshot(), committer.runId, base.run.graphId, Memory()))
    {
      hide Tied, Mem, HasId, WellFormed, Effect, Announces, Apply, EventOf, S.Commit, S.CommitResult;
      ghost var core, events, snapshot := Memory(), inner.events, Snapshot();
      Announced(state.plan.dag, before, core, step, kind, task, attempt, note, cause);
      TiedFresh(core, events, snapshot, base, |log|);
      var appended := inner.Append(kind, task, attempt, note, cause);
      if appended.Err? {
        return Err(appended.error);
      }
      var e := appended.value;
      ghost var transition := S.Transition(e.id, S.Run(inner.runId, state.graphId, state.run), state.status,
          state.results, [e], committer.tracker.artifacts, None);
      TiedStep(core, events, snapshot, base, |log|, transition, e);
      var committed := committer.Send(e, S.Run(inner.runId, state.graphId, state.run), state.status, state.results);
      assert committed.Ok?;
      log := log + [step];
      return Ok(e);
    }

    /**
      Appends to memory, stages, commits. Afterwards nothing is pending, the store has one event and one
      revision more, and its snapshot says what memory says. `before` is the memory in which the caller
      began the step whose event this is: what the labels so far lead to. Only an ill-formed event is refused.
    */
    method Append(kind: EventKind, task: TaskId, attempt: Option<nat>, note: Note, cause: Option<EventId>,
        ghost before: Core, ghost step: Label)
      returns (r: Result<Event, TraceError>)
      requires Linked() && Covers() && Began(before)
      requires Announces(state.plan.dag, before, Memory(), step, kind, task, attempt, note, cause)
      modifies this, inner, inner.ids, committer, committer.store
      ensures var e := EventOf(state.plan.dag, before, Effect(state.plan.dag, before, step));
              && (r.Ok? <==> WellFormed(e))
              && (r.Ok? ==>
                   && r.value == e && Valid()
                   && Now() == Scheduling.Do(state.plan.dag, Scheduling.State(before, old(log)), step))
    {
      hide Linked, Synced, WellFormed, Effect, Announces, Apply, EventOf, Exec, Record, Left, Sends;
      ghost var labels, snapshots := log, past;
      r := Persist(kind, task, attempt, note, cause, before, step);
      if r.Ok? {
        RunsAppend(state.plan.dag, start, labels, step);
        MirrorLeaves(this);
        RecordStep(state.plan.dag, start, base, labels, snapshots, step, Snapshot());
        label before:
        past := past + [Snapshot()];
        RecordMoved@before(this);
      }
    }
  }

  /** What a process that began at snapshot `base` and committed the labels of `fin` leaves behind. */
  ghost predicate Left(s: S.Snapshot, base: S.Snapshot, run: RunId, fin: Scheduling.State) {
    && (fin.log == [] ==> s.(report := base.report) == base)
    && (fin.log != [] ==> s.run.id == run && s.run.status == fin.core.run && s.results == fin.core.results
                          && s.trace == fin.core.trace && s.artifacts == fin.core.artifacts)
    && (S.Counted(base) ==> S.Counted(s)) && (forall id :: id in s.committed ==> id.FreshId? && id.n < fin.core.supply)
    && s.revision == base.revision + |fin.log|
    && s.taskPrint == base.taskPrint && s.graphPrint == base.graphPrint && s.run.graphId == base.run.graphId
  }

  /** A process after its first `k` labels. */
  function Prefix(dag: Dag, start: Core, log: seq<Label>, k: nat): Scheduling.State
    requires k <= |log|
  {
    Scheduling.State(Exec(dag, start, log[..k]), log[..k])
  }

  /**
    After each label the store held what the process has left by then, which is what the transitions sent so far
    make of the first snapshot.
  */
  ghost predicate Record(dag: Dag, start: Core, base: S.Snapshot, run: RunId, log: seq<Label>, past: seq<S.Snapshot>) {
    && |past| == |log|
    && forall k :: 0 <= k < |log| ==>
         && Left(past[k], base, run, Prefix(dag, start, log, k + 1))
         && past[k] == Delivered(dag, start, base, log[..k + 1])
  }

  function Latest(base: S.Snapshot, past: seq<S.Snapshot>): S.Snapshot {
    if past == [] then base else Last(past)
  }

  /** The transition that stores memory `c` right after an append. */
  function CommitOf(run: RunId, graphId: string, c: Core): S.Transition
    requires c.trace != []
  {
    S.Transition(Last(c.trace).id, S.Run(run, graphId, c.run), c.status, c.results, [Last(c.trace)], c.artifacts, None)
  }

  /** One commit took the store from `s` to `s'`, to store memory `c`. */
  ghost predicate Sends(s: S.Snapshot, s': S.Snapshot, run: RunId, graphId: string, c: Core) {
    c.trace != [] && s' == S.Commit(s, run, CommitOf(run, graphId, c))
  }

  lemma AppliedTrace(dag: Dag, c: Core, l: Label)
    ensures var c' := Apply(dag, c, l);
            && c'.trace == c.trace + [EventOf(dag, c, Effect(dag, c, l))] && Last(c'.trace).sequence == c.nextSeq
            && Last(c'.trace).id.FreshId? && c.supply <= Last(c'.trace).id.n < c'.supply
  {
  }

  /** What a process that began in memory `c` sends to the store for the labels `ls`. */
  function JournalOf(dag: Dag, graphId: string, c: Core, ls: seq<Label>): seq<S.Transition> {
    if ls == [] then []
    else
      AppliedTrace(dag, Exec(dag, c, ls[..|ls| - 1]), Last(ls));
      JournalOf(dag, graphId, c, ls[..|ls| - 1]) + [CommitOf(dag.runId, graphId, Exec(dag, c, ls))]
  }

  /** The snapshot those make of `base`. */
  function Delivered(dag: Dag, start: Core, base: S.Snapshot, log: seq<Label>): S.Snapshot {
    S.Deliver(base, dag.runId, JournalOf(dag, base.run.graphId, start, log))
  }

  /** One label more, one commit more. */
  lemma DeliveredStep(dag: Dag, start: Core, base: S.Snapshot, log: seq<Label>, step: Label, s: S.Snapshot)
    requires Sends(Delivered(dag, start, base, log), s, dag.runId, base.run.graphId, Exec(dag, start, log + [step]))
    ensures s == Delivered(dag, start, base, log + [step])
  {
    hide S.Commit;
    var log' := log + [step];
    assert log'[..|log'| - 1] == log;
    var journal := JournalOf(dag, base.run.graphId, start, log');
    assert journal[..|journal| - 1] == JournalOf(dag, base.run.graphId, start, log);
  }

  lemma LatestDelivered(dag: Dag, start: Core, base: S.Snapshot, run: RunId, log: seq<Label>, past: seq<S.Snapshot>)
    requires Record(dag, start, base, run, log, past)
    ensures Latest(base, past) == Delivered(dag, start, base, log)
  {
    hide Left, Exec;
    assert log[..|log|] == log;
  }

  lemma RecordStep(dag: Dag, start: Core, base: S.Snapshot, log: seq<Label>, past: seq<S.Snapshot>, step: Label,
      s: S.Snapshot)
    requires Record(dag, start, base, dag.runId, log, past)
    requires Left(s, base, dag.runId, Scheduling.State(Exec(dag, start, log + [step]), log + [step]))
    requires Sends(Latest(base, past), s, dag.runId, base.run.graphId, Exec(dag, start, log + [step]))
    ensures Record(dag, start, base, dag.runId, log + [step], past + [s])
  {
    hide Left, Exec, Delivered, Sends;
    LatestDelivered(dag, start, base, dag.runId, log, past);
    DeliveredStep(dag, start, base, log, step, s);
    var log', past' := log + [step], past + [s];
    forall k | 0 <= k < |log'|
      ensures Left(past'[k], base, dag.runId, Prefix(dag, start, log', k + 1))
      ensures past'[k] == Delivered(dag, start, base, log'[..k + 1])
    {
      if k < |log| {
        assert log'[..k + 1] == log[..k + 1];
      } else {
        assert log'[..k + 1] == log';
      }
    }
  }

  lemma MirrorLeaves(tb: PersistingTraceBuilder)
    requires tb.Mirrored()
    ensures Left(tb.Snapshot(), tb.base, tb.committer.runId, tb.Now())
    ensures tb.committer.runId == tb.state.plan.dag.runId
  {
    hide Mem;
  }

  /** Memory and the event arguments are what `step` asks for, begun in memory `c`: only the append is missing. */
  ghost predicate Announces(
    dag: Dag, c: Core, now: Core, step: Label, kind: EventKind, t: TaskId, attempt: Option<nat>, note: Note,
    cause: Option<EventId>)
  {
    var ch := Effect(dag, c, step);
    && ch.kind == kind && ch.t == t && ch.attempt == attempt && ch.note == note && ch.cause == cause
    && now == c.(
         run := ch.run,
         status := if ch.status.Some? then c.status[ch.t := ch.status.value] else c.status,
         results := if ch.result.Some? then c.results[ch.t := ch.result.value] else c.results,
         artifacts := ch.artifacts,
         supply := c.supply + ch.drawn)
  }

  lemma Announced(
    dag: Dag, c: Core, now: Core, step: Label, kind: EventKind, t: TaskId, attempt: Option<nat>, note: Note,
    cause: Option<EventId>)
    requires Announces(dag, c, now, step, kind, t, attempt, note, cause)
    ensures var e := EventOf(dag, c, Effect(dag, c, step));
            && e == Event(FreshId(now.supply), kind, dag.runId, now.nextSeq, t, attempt, note, cause)
            && Apply(dag, c, step) == now.(trace := now.trace + [e], nextSeq := now.nextSeq + 1,
                supply := now.supply + 1)
  {
    hide Effect;
  }

  /** Keeping the record moves nothing else. */
  twostate lemma RecordMoved(tb: PersistingTraceBuilder)
    requires old(tb.Mirrored()) && tb.log == old(tb.log)
    requires unchanged(tb.inner, tb.inner.ids, tb.committer, tb.committer.store, tb.committer.tracker, tb.state)
    ensures tb.Mirrored() && tb.Memory() == old(tb.Memory())
  {
    hide Tied, Mem;
  }

  /** Assigning to the run state breaks no link. */
  twostate lemma StateMoved(tb: PersistingTraceBuilder)
    requires old(tb.Linked())
    requires unchanged(tb, tb.inner, tb.inner.ids, tb.committer, tb.committer.store, tb.committer.tracker)
    ensures tb.Linked()
    ensures tb.Memory() == old(tb.Memory()).(run := tb.state.run, status := tb.state.status,
        results := tb.state.results)
  {
    hide Tied, Mem;
    TiedSame(old(tb.Memory()), tb.Memory(), tb.inner.events, tb.Snapshot(), tb.base, |tb.log|);
  }

  /** Drawing ids and moving artifacts forward breaks no link either. */
  twostate lemma SourcesMoved(tb: PersistingTraceBuilder)
    requires old(tb.Linked())
    requires unchanged(tb, tb.inner, tb.committer, tb.committer.store)
    requires tb.inner.ids.next >= old(tb.inner.ids.next)
    requires tb.committer.tracker.artifacts == [] ==> old(tb.committer.tracker.artifacts) == []
    requires Drawn(tb.committer.tracker.artifacts, tb.inner.ids.next)
    ensures tb.Linked()
    ensures tb.Memory() == old(tb.Memory()).(run := tb.state.run, status := tb.state.status,
        results := tb.state.results,
                             artifacts := tb.committer.tracker.artifacts, supply := tb.inner.ids.next)
  {
    hide Tied, Mem, Drawn;
    TiedKept(old(tb.Memory()), tb.Memory(), tb.inner.events, tb.Snapshot(), tb.base, |tb.log|);
  }

  lemma ArtifactsDrawn(tb: PersistingTraceBuilder)
    requires tb.Linked()
    ensures Drawn(tb.committer.tracker.artifacts, tb.inner.ids.next)
  {
    hide Mem, Drawn;
  }

  /** Different ids, all handed out before. */
  ghost predicate Drawn(arts: seq<Artifact>, supply: nat) {
    DistinctIds(arts) && forall i :: 0 <= i < |arts| ==> arts[i].id < supply
  }

  /**
    How memory, the trace builder and the stored snapshot hang together: the store holds the trace in
    memory minus the RUN_RESUMED event of this process, at a revision that counts the appends made since
    `base`, and every id in use was drawn before.
  */
  ghost predicate Tied(c: Core, events: seq<Event>, s: S.Snapshot, base: S.Snapshot, appends: nat) {
    && c.trace == s.trace && (c.mark.Some? ==> c.mark.value.at <= |c.trace|)
    && events == Mem(c)
    && (forall id :: HasId(events, id) && id.FreshId? ==> id.n < c.supply)
    && (forall id :: id in s.committed ==> id.FreshId? && id.n < c.supply)
    && (c.artifacts == [] ==> s.artifacts == [])
    && Drawn(c.artifacts, c.supply)
    && |s.trace| == |base.trace| + appends && base.trace <= s.trace
    && s.revision == base.revision + appends && |s.committed| == |base.committed| + appends
    && s.taskPrint == base.taskPrint && s.graphPrint == base.graphPrint && s.report == base.report
  }

  lemma TiedFresh(c: Core, events: seq<Event>, s: S.Snapshot, base: S.Snapshot, appends: nat)
    requires Tied(c, events, s, base, appends)
    ensures !HasId(events, FreshId(c.supply)) && FreshId(c.supply) !in s.committed
  {
  }

  /** Only the trace, the supply and the artifact ids matter. */
  lemma TiedKept(c: Core, c': Core, events: seq<Event>, s: S.Snapshot, base: S.Snapshot, appends: nat)
    requires Tied(c, events, s, base, appends)
    requires c'.trace == c.trace && c'.mark == c.mark && c'.supply >= c.supply
    requires c'.artifacts == [] ==> c.artifacts == []
    requires Drawn(c'.artifacts, c'.supply)
    ensures Tied(c', events, s, base, appends)
  {
  }

  lemma TiedSame(c: Core, c': Core, events: seq<Event>, s: S.Snapshot, base: S.Snapshot, appends: nat)
    requires Tied(c, events, s, base, appends)
    requires c'.trace == c.trace && c'.mark == c.mark && c'.supply >= c.supply && c'.artifacts == c.artifacts
    ensures Tied(c', events, s, base, appends)
  {
  }

  lemma TiedStep(c: Core, events: seq<Event>, s: S.Snapshot, base: S.Snapshot, appends: nat, tr: S.Transition, e: Event)
    requires Tied(c, events, s, base, appends)
    requires tr.id == e.id == FreshId(c.supply) && tr.events == [e] && tr.artifacts == c.artifacts && tr.report == None
    requires S.Acceptable(tr.run.id, tr)
    ensures S.CommitResult(s, tr.run.id, tr).Ok?
    ensures var s' := S.Commit(s, tr.run.id, tr);
            && Tied(c.(trace := c.trace + [e], nextSeq := c.nextSeq + 1, supply := c.supply + 1), events + [e], s',
                base, appends + 1)
            && s'.trace == s.trace + [e] && s'.artifacts == c.artifacts && s'.run == tr.run
            && s'.statuses == tr.statuses && s'.results == tr.results
  {
    var c' := c.(trace := c.trace + [e], nextSeq := c.nextSeq + 1, supply := c.supply + 1);
    MemGrows(c, c', e);
    forall id | HasId(events + [e], id) && id.FreshId?
      ensures id.n < c'.supply
    {
      var i :| 0 <= i < |events + [e]| && (events + [e])[i].id == id;
      assert i < |events| ==> HasId(events, id);
    }
  }

  lemma MemGrows(c: Core, c': Core, e: Event)
    requires c'.mark == c.mark && c'.trace == c.trace + [e]
    requires c.mark.Some? ==> c.mark.value.at <= |c.trace|
    ensures Mem(c') == Mem(c) + [e]
  {
    if c.mark.Some? {
      var at := c.mark.value.at;
      assert c'.trace[..at] == c.trace[..at];
      assert c'.trace[at..] == c.trace[at..] + [e];
    }
  }

  lemma RestrictSame(status: map<TaskId, Status>, results: map<TaskId, TaskResult>)
    requires results.Keys <= status.Keys
    ensures (map t | t in status && t in results :: results[t]) == results
  {
    forall t | t in results
      ensures t in status
    {
      assert t in results.Keys;
    }
  }
}
