/** The engine: start, load and resume, each from one durable state of a history to the next. */
module Engine {
  import opened Model
  import opened Artifacts
  import opened Trace
  import opened Machine
  import opened Invariants
  import opened Tracker
  import opened Coordinator
  import opened Scheduler
  import opened Scheduling
  import opened Sessions
  import opened Runs
  import opened Chains
  import opened Reports
  import opened Reruns
  import opened Planning
  import opened Decomposition
  import opened Fingerprints
  import S = Store
  import Manifest
  import Resume

  datatype EngineError =
    | InvalidGraph(graph: GraphError)
    | BadTrace(trace: TraceError)
    | StoreFailed(store: S.StoreError)
    | ResumeRejected(reason: Rejection)
    | RunAborted(abort: Abort)
    | ReportRejected

  datatype EngineRunResult = EngineRunResult(scheduler: SchedulerResult, report: RunReport)

  /** The snapshot of a run stores memory `c`, and the ids it has seen were drawn before. */
  ghost predicate Holds(s: S.Snapshot, run: RunId, c: Core) {
    && s.run.id == run && s.run.status == c.run
    && s.results == c.results && s.trace == c.trace && s.artifacts == c.artifacts
    && S.Counted(s) && forall id :: id in s.committed ==> id.FreshId? && id.n < c.supply
  }

  lemma LeftWithReport(s: S.Snapshot, base: S.Snapshot, run: RunId, fin: State, report: Option<RunReport>)
    requires Left(s, base, run, fin)
    ensures Left(s.(report := report), base, run, fin)
  {
  }

  class ExecutionEngine {
    const env: Env
    const ids: IdSource
    const tracker: ArtifactTracker
    const store: S.ExecutionStore
    const scheduler: SequentialScheduler

    constructor (env: Env, ids: IdSource, store: S.ExecutionStore)
      ensures this.env == env && this.ids == ids && this.store == store && Wired()
      ensures fresh(tracker) && fresh(scheduler) && tracker.artifacts == []
    {
      var t := new ArtifactTracker(ids, env.receiptOk);
      var s := new SequentialScheduler(env, t);
      this.env, this.ids, this.tracker, this.store, this.scheduler := env, ids, t, store, s;
    }

    twostate predicate Untouched()
      reads store
    {
      store.snapshots == old(store.snapshots) && store.writers == old(store.writers)
    }

    ghost predicate Wired() {
      tracker.ids == ids && tracker.receiptOk == env.receiptOk && scheduler.env == env && scheduler.tracker == tracker
    }

    /** The committer, the run state and the persisting builder of one process. */
    method Attach(
      inner: TraceBuilder, p: Plan, graphId: string, status: RunStatus, statuses: map<TaskId, Status>,
      results: map<TaskId, TaskResult>, ghost c: Core)
      returns (tb: PersistingTraceBuilder)
      requires Wired() && inner.Valid() && inner.ids == ids && inner.runId == p.dag.runId
      requires p.dag.runId in store.snapshots && p.dag.runId in store.writers
      requires c == Core(status, statuses, results, store.snapshots[p.dag.runId].trace, tracker.artifacts,
          inner.sequence, ids.next, c.mark)
      requires Tied(c, inner.events, store.snapshots[p.dag.runId], store.snapshots[p.dag.runId], 0)
      requires statuses.Keys == p.dag.tasks.Keys && results.Keys <= statuses.Keys && Usable(p)
      requires graphId == store.snapshots[p.dag.runId].run.graphId && MarkedResumed(c.mark)
      ensures fresh(tb) && fresh(tb.state) && fresh(tb.committer) && tb.inner == inner
      ensures tb.committer.tracker == tracker
      ensures tb.committer.store == store && tb.committer.runId == p.dag.runId && tb.state.plan == p
      ensures scheduler.Receives(tb) && tb.Memory() == c
      ensures tb.Snapshot() == store.snapshots[p.dag.runId]
    {
      hide Tied, Mem, Usable;
      var committer := new TransitionCommitter(store, p.dag.runId, tracker);
      var state := new SchedulerRunState(p, graphId, status, statuses, results);
      tb := new PersistingTraceBuilder(inner, committer, state, c.mark, c.(run := RunningRun));
    }

    /**
      start_run: a graph that does not decompose is refused before anything is stored, an existing run and
      a held writer are refused, and otherwise the store ends up holding the durable state of the one-process
      history, with a result exactly when no exception stopped it. `trail` is what the store held on the way.
    */
    method StartRun(g: Graph, run: RunId, cancelled: bool) returns (r: Result<EngineRunResult, EngineError>,
        ghost trail: seq<S.Snapshot>)
      requires Wired() && tracker.artifacts == [] && ids.next == 0
      modifies ids, tracker, store
      ensures !Decomposable(g) ==> r.Err? && r.error.InvalidGraph? && Faulty(g, r.error.graph) && Untouched()
      ensures Decomposable(g) && run in old(store.snapshots) ==>
                r == Err(StoreFailed(S.RunExists)) && Untouched()
      ensures Decomposable(g) && run !in old(store.snapshots) && run in old(store.writers) ==>
                && r == Err(StoreFailed(S.WriterConflict)) && store.writers == old(store.writers)
                && store.snapshots == old(store.snapshots)[run := FirstSnapshot(g, run)]
      ensures Decomposable(g) && run !in old(store.snapshots) && run !in old(store.writers) ==>
                && store.writers == old(store.writers) && store.snapshots - {run} == old(store.snapshots) - {run}
                && run in store.snapshots && Started(g, run, env, cancelled, store.snapshots[run], r)
                && StartedThrough(g, run, env, cancelled, store.snapshots[run], trail)
    {
      hide Decomposable, Started, StartedThrough, ValidTrace, AllWellFormed, PlanFor, GraphOk, FirstSnapshot, Buildable,
          Faulty;
      DecomposableMeans(g);
      var decomposed := Decompose(g, run, 0);
      if decomposed.Err? {
        return Err(InvalidGraph(decomposed.error)), [];
      }
      StartTrace(g, run);
      var created := TraceBuilder.Create(run, ids, decomposed.value.events);
      assert created.Ok?;
      r, trail := Launch(g, run, created.value, cancelled);
    }

    /** start_run once the graph is decomposed: create the run, take its writer, drive the session. */
    method Launch(g: Graph, run: RunId, inner: TraceBuilder, cancelled: bool)
        returns (r: Result<EngineRunResult, EngineError>, ghost trail: seq<S.Snapshot>)
      requires Wired() && tracker.artifacts == [] && ids.next == 0 && Decomposable(g)
      requires inner.Valid() && inner.ids == ids && inner.runId == run && inner.events == CreatedFor(run, g.nodes, 0)
      requires inner.sequence == NextSequence(inner.events)
      modifies ids, tracker, store, inner
      ensures run in old(store.snapshots) ==>
                r == Err(StoreFailed(S.RunExists)) && Untouched()
      ensures run !in old(store.snapshots) && run in old(store.writers) ==>
                && r == Err(StoreFailed(S.WriterConflict)) && store.writers == old(store.writers)
                && store.snapshots == old(store.snapshots)[run := FirstSnapshot(g, run)]
      ensures run !in old(store.snapshots) && run !in old(store.writers) ==>
                && store.writers == old(store.writers) && store.snapshots - {run} == old(store.snapshots) - {run}
                && run in store.snapshots && Started(g, run, env, cancelled, store.snapshots[run], r)
                && StartedThrough(g, run, env, cancelled, store.snapshots[run], trail)
    {
      hide Decomposable, Started, StartedThrough, Planned, Left, Reported, Session, Usable, Recoverable, Init,
          PlanFor, GraphOk, NextSequence, Tied, CreatedFor, FirstSnapshot, SequentialScheduler.Receives;
      var snapshot := FirstSnapshot(g, run);
      FirstFacts(g, run);
      StartTied(g, run);
      StartPlanned(g, run, env, cancelled);
      var stored := store.CreateRun(snapshot);
      if stored.Err? {
        return Err(StoreFailed(stored.error)), [];
      }
      var held := store.AcquireWriter(run);
      if held.Err? {
        return Err(StoreFailed(held.error)), [];
      }
      var p := PlanFor(g, run);
      var tb := Attach(inner, p, g.graphId, PendingRun, snapshot.statuses, map[], Init(p));
      r, trail := Drive(tb, run, cancelled);
      StartEnds(g, run, env, cancelled, snapshot, store.snapshots[run], r);
      StartPasses(g, run, env, cancelled, snapshot, store.snapshots[run], trail);
    }

    /**
      load_and_resume_run. `ch` is the history that left the snapshot, `g0` the graph it was started from,
      and `lost` how many ids the last process drew after its last commit. An unknown run, a graph that does
      not decompose or does not match, and a held writer are refused with the store as it was; otherwise the
      store ends up holding the durable state of the longer history, and `trail` is what it held on the way.
    */
    method LoadAndResumeRun(g: Graph, run: RunId, ghost g0: Graph, ghost ch: Chain, ghost lost: nat)
        returns (r: Result<EngineRunResult, EngineError>, ghost trail: seq<S.Snapshot>)
      requires Wired()
      requires run in store.snapshots ==>
            LeftBy(store.snapshots[run], run, g0, ch) && ids.next == NextId(g0, run, ch) + lost
      requires run in store.snapshots ==> tracker.artifacts == [] || tracker.artifacts == store.snapshots[run].artifacts
      modifies ids, tracker, store
      ensures run !in old(store.snapshots) ==> r == Err(StoreFailed(S.RunNotFound)) && Untouched()
      ensures run in old(store.snapshots) && !Decomposable(g) ==>
                r.Err? && r.error.InvalidGraph? && Faulty(g, r.error.graph) && Untouched()
      ensures run in old(store.snapshots) && Decomposable(g) && !Prints(old(store.snapshots)[run], g) ==>
                && r.Err? && r.error.ResumeRejected? && RejectedFor(old(store.snapshots)[run], g, r.error.reason)
                && Untouched()
      ensures run in old(store.snapshots) && Decomposable(g) && !SameGraph(g0, g) ==>
                r.Err? && r.error.ResumeRejected? && Untouched()
      ensures run in old(store.snapshots) && Decomposable(g) && Prints(old(store.snapshots)[run], g) ==>
                run in old(store.writers) ==>
                r == Err(StoreFailed(S.WriterConflict)) && Untouched()
      ensures run in old(store.snapshots) && Decomposable(g) && Prints(old(store.snapshots)[run], g) ==>
                run !in old(store.writers) ==>
                && store.writers == old(store.writers) && store.snapshots - {run} == old(store.snapshots) - {run}
                && run in store.snapshots
                && Continued(g, run, env, g0, ch, lost, old(store.snapshots)[run], store.snapshots[run], r)
                && ContinuedThrough(g, run, env, g0, ch, lost, old(store.snapshots)[run], store.snapshots[run], trail)
    {
      hide Decomposable, Continued, ContinuedThrough, LeftBy, NextId, Prints, ValidTrace, AllWellFormed, DistinctIds,
          SameGraph, Faulty, RejectedFor;
      var loaded := store.LoadSnapshot(run);
      if loaded.Err? {
        return Err(StoreFailed(loaded.error)), [];
      }
      var s := loaded.value;
      LoadedFacts(s, run, g0, ch);
      PrintsExactly(s, run, g0, ch, g);
      HydratedIs(tracker.artifacts, s.artifacts);
      tracker.HydrateArtifacts(s.artifacts);
      var created := TraceBuilder.Create(run, ids, s.trace);
      assert created.Ok?;
      r, trail := ResumeRun(g, run, s, created.value, g0, ch, lost);
    }

    /** resume_run: check the graph against the stored fingerprints, decide what to reuse, and go on. */
    method ResumeRun(g: Graph, run: RunId, s: S.Snapshot, inner: TraceBuilder, ghost g0: Graph, ghost ch: Chain,
        ghost lost: nat)
      returns (r: Result<EngineRunResult, EngineError>, ghost trail: seq<S.Snapshot>)
      requires Wired() && run in store.snapshots && store.snapshots[run] == s && tracker.artifacts == s.artifacts
      requires LeftBy(s, run, g0, ch) && ids.next == NextId(g0, run, ch) + lost
      requires inner.Valid() && inner.ids == ids && inner.runId == run && inner.events == s.trace
      requires inner.sequence == NextSequence(s.trace)
      modifies ids, tracker, store, inner
      ensures !Decomposable(g) ==> r.Err? && r.error.InvalidGraph? && Faulty(g, r.error.graph) && Untouched()
      ensures Decomposable(g) && !Prints(s, g) ==>
                r.Err? && r.error.ResumeRejected? && RejectedFor(s, g, r.error.reason) && Untouched()
      ensures Decomposable(g) && Prints(s, g) && run in old(store.writers) ==>
                r == Err(StoreFailed(S.WriterConflict)) && Untouched()
      ensures Decomposable(g) && Prints(s, g) && run !in old(store.writers) ==>
                && store.writers == old(store.writers) && store.snapshots - {run} == old(store.snapshots) - {run}
                && run in store.snapshots && Continued(g, run, env, g0, ch, lost, s, store.snapshots[run], r)
                && ContinuedThrough(g, run, env, g0, ch, lost, s, store.snapshots[run], trail)
    {
      hide Decomposable, Continued, ContinuedThrough, LeftBy, NextId, Prints, Buildable, GraphOk, PlanFor, NextSequence,
          Faulty;
      DecomposableMeans(g);
      PrintsMean(s, g);
      var decomposed := Decompose(g, run, |inner.events|);
      if decomposed.Err? {
        return Err(InvalidGraph(decomposed.error)), [];
      }
      var rejected := AssertResumeCompatible(s.run.graphId, DECOMPOSITION_VERSION, g, decomposed.value.tasks,
          Some(s.taskPrint), Some(s.graphPrint));
      if rejected.Some? {
        return Err(ResumeRejected(rejected.value)), [];
      }
      r, trail := Continue(g, run, s, inner, g0, ch, lost);
    }

    /** The statuses the resumed tasks start from. */
    method ReuseResults(p: Plan, prior: map<TaskId, TaskResult>, ghost c: Core) returns (statuses: map<TaskId, Status>)
      requires Wired() && c.results == prior && c.artifacts == tracker.artifacts
      requires forall t :: t in p.order <==> t in p.dag.tasks
      ensures statuses == Reload(p.dag, env, c).status
    {
      hide Reload, Resume.Sorted;
      var ev := Resume.EvaluateResumeTasks(tracker, p, prior);
      Resume.PreservedEnded(p, ev, tracker.artifacts, prior, tracker.receiptOk);
      statuses := Resume.ApplyResumeReuse(p, ev);
      Resume.ReuseIsReload(p, ev, statuses, env, c);
    }

    method Continue(g: Graph, run: RunId, s: S.Snapshot, inner: TraceBuilder, ghost g0: Graph, ghost ch: Chain,
        ghost lost: nat)
      returns (r: Result<EngineRunResult, EngineError>, ghost trail: seq<S.Snapshot>)
      requires Wired() && run in store.snapshots && store.snapshots[run] == s && tracker.artifacts == s.artifacts
      requires LeftBy(s, run, g0, ch) && ids.next == NextId(g0, run, ch) + lost && Decomposable(g) && Prints(s, g)
      requires inner.Valid() && inner.ids == ids && inner.runId == run && inner.events == s.trace
      requires inner.sequence == NextSequence(s.trace)
      modifies ids, tracker, store, inner
      ensures run in old(store.writers) ==>
                r == Err(StoreFailed(S.WriterConflict)) && Untouched()
      ensures run !in old(store.writers) ==>
                && store.writers == old(store.writers) && store.snapshots - {run} == old(store.snapshots) - {run}
                && run in store.snapshots && Continued(g, run, env, g0, ch, lost, s, store.snapshots[run], r)
                && ContinuedThrough(g, run, env, g0, ch, lost, s, store.snapshots[run], trail)
    {
      hide Decomposable, Continued, ContinuedThrough, Holds, Prints, PlanFor, NextSequence, Reload, Resumable, Left,
          Reported, ResumeSession, StoredCore, Durable, ValidChain;
      var p := PlanFor(g, run);
      ghost var stored := StoredCore(g0, run, ch, lost);
      ContinueFacts(g, run, s, env, g0, ch, lost);
      var statuses := ReuseResults(p, s.results, stored);
      r, trail := GoOn(p, run, s, inner, statuses, stored);
      if run !in old(store.writers) {
        ContinueEnds(g, run, env, g0, ch, lost, s, store.snapshots[run], r);
        ContinuePasses(g, run, env, g0, ch, lost, s, store.snapshots[run], trail);
      }
    }

    /** RUN_RESUMED goes to the unwrapped builder, so the store never sees it; then the session is driven. */
    method GoOn(p: Plan, run: RunId, s: S.Snapshot, inner: TraceBuilder, statuses: map<TaskId, Status>,
        ghost stored: Core)
      returns (r: Result<EngineRunResult, EngineError>, ghost trail: seq<S.Snapshot>)
      requires Wired() && run in store.snapshots && store.snapshots[run] == s && tracker.artifacts == s.artifacts
      requires Resumable(p, env, run, s, stored) && ids.next == stored.supply
      requires statuses == Reload(p.dag, env, stored).status
      requires inner.Valid() && inner.ids == ids && inner.runId == run && inner.events == s.trace
      requires inner.sequence == NextSequence(s.trace)
      modifies ids, tracker, store, inner
      ensures run in old(store.writers) ==>
                r == Err(StoreFailed(S.WriterConflict)) && Untouched()
      ensures run !in old(store.writers) ==>
                && store.writers == old(store.writers) && store.snapshots - {run} == old(store.snapshots) - {run}
                && run in store.snapshots
                && var fin := ResumeSession(p, env, stored);
                   && Left(store.snapshots[run], s, run, fin.state)
                   && Reported(p, env, fin, r, store.snapshots[run].report)
                   && Trailed(p.dag, Reload(p.dag, env, stored), s, run, fin.state.log, trail)
                   && Last(trail).(report := store.snapshots[run].report) == store.snapshots[run]
    {
      hide NextSequence, Reload, Planned, Left, Reported, Session, ResumeSession, Usable, Tied, Mem,
          SequentialScheduler.Receives, Trailed;
      ghost var c := Reload(p.dag, env, stored);
      ReloadIs(p.dag, env, stored);
      var resumed := inner.Append(RunResumed, "", None, NoNote, None);
      assert resumed.Ok?;
      var held := store.AcquireWriter(run);
      if held.Err? {
        return Err(StoreFailed(held.error)), [];
      }
      var tb := Attach(inner, p, s.run.graphId, s.run.status, statuses, s.results, c);
      r, trail := Drive(tb, run, false);
    }

    /** The report of a finished session, and whether its validator accepts it. */
    method MakeReport(p: Plan, result: SchedulerResult, ghost c: Core) returns (report: RunReport, ok: bool)
      requires result.run == c.run && result.statuses == c.status && result.results == c.results
      requires forall t :: t in p.order ==> t in c.status
      ensures Describes(p, c, result.artifactIds, report) && (ok <==> ReportOk(report))
    {
      hide Describes, ReportOk;
      var flat := Flat(result.run, result.statuses, result.results, []);
      report := AssembleReport(p, flat, result.artifactIds);
      DescribesSame(p, flat, c, result.artifactIds, report);
      ok := ValidateReport(report);
    }

    /** The last commit has nothing to send; the report is stored beside the snapshot. */
    method SaveReport(tb: PersistingTraceBuilder, run: RunId, result: SchedulerResult, report: RunReport)
      requires tb.Valid() && tb.committer.store == store && tb.committer.runId == run
      modifies tb.committer, store
      ensures run in old(store.snapshots) && store.writers == old(store.writers)
      ensures store.snapshots == old(store.snapshots)[run := old(store.snapshots)[run].(report := Some(report))]
    {
      Standing(tb);
      hide PersistingTraceBuilder.Linked, PersistingTraceBuilder.Synced;
      var committed := tb.committer.Commit(S.Run(run, tb.state.graphId, result.run), result.statuses, result.results,
          Some(report));
      var saved := store.SaveReport(run, report);
      assert committed.Ok? && saved.Ok?;
    }

    /**
      The guarded part of start_run and resume_run: schedule, report, save, and give the writer back on
      every path. A result is returned exactly when no exception ended the session and no stale
      success stands in the way of a report.
    */
    method Drive(tb: PersistingTraceBuilder, run: RunId, cancelled: bool)
        returns (r: Result<EngineRunResult, EngineError>, ghost trail: seq<S.Snapshot>)
      requires Wired() && scheduler.Receives(tb) && tb.committer.store == store && tb.committer.runId == run
      requires Planned(tb.state.plan, env, tb.Memory(), cancelled)
      modifies tb.Repr()
      ensures run in store.snapshots && store.snapshots - {run} == old(store.snapshots) - {run}
      ensures store.writers == old(store.writers) - {run}
      ensures var fin := Session(tb.state.plan, env, old(tb.Memory()), cancelled);
              && Left(store.snapshots[run], old(tb.Snapshot()), run, fin.state)
              && Reported(tb.state.plan, env, fin, r, store.snapshots[run].report)
      ensures var fin := Session(tb.state.plan, env, old(tb.Memory()), cancelled);
              && Trailed(tb.state.plan.dag, old(tb.Memory()), old(tb.Snapshot()), run, fin.state.log, trail)
              && Last(trail).(report := store.snapshots[run].report) == store.snapshots[run]
    {
      hide PersistingTraceBuilder.Linked, PersistingTraceBuilder.Synced;
      hide Session, Planned, Left, Describes, ReportOk, NoStale, Reported, Blamed, Trailed, Record, Exec, Mem,
          Manifest.IsManifest;
      ghost var c := tb.Memory();
      ghost var p := tb.state.plan;
      ghost var fin := Session(p, env, c, cancelled);
      Standing(tb);
      PlannedFacts(p, env, c, cancelled);
      var ran := scheduler.Run(tb, cancelled);
      MirrorLeaves(tb);
      Standing(tb);
      LinkedTrace(tb);
      TrailOf(tb, c);
      trail := [tb.base] + tb.past;
      if ran.Err? {
        AbortedReport(p, env, c, cancelled, ran.error);
        store.ReleaseWriter(run);
        return Err(RunAborted(ran.error)), trail;
      }
      assert Returns(p, env, fin.state.core, ran.value);
      var report, ok := MakeReport(tb.state.plan, ran.value, fin.state.core);
      ReportedWhen(p, env, c, cancelled, ran.value, report);
      if !ok {
        store.ReleaseWriter(run);
        return Err(ReportRejected), trail;
      }
      LeftWithReport(tb.Snapshot(), tb.base, run, fin.state, Some(report));
      SaveReport(tb, run, ran.value, report);
      store.ReleaseWriter(run);
      return Ok(EngineRunResult(ran.value, report)), trail;
    }
  }

  // ---- Starting ----

  ghost predicate Decomposable(g: Graph) {
    GraphOk(g) && forall i :: 0 <= i < |g.nodes| ==> Buildable(g.nodes[i])
  }

  lemma DecomposableMeans(g: Graph)
    ensures Decomposable(g) <==> GraphOk(g) && forall i :: 0 <= i < |g.nodes| ==> Buildable(g.nodes[i])
  {
  }

  /** What create_run stores. */
  function FirstSnapshot(g: Graph, run: RunId): S.Snapshot {
    var p := PlanFor(g, run);
    S.Snapshot(S.Run(run, g.graphId, PendingRun), map t | t in p.dag.tasks :: Pending, map[],
        CreatedFor(run, g.nodes, 0), [], None, 0,
      ComputeTaskFingerprint(Tasks(g.nodes)), ComputeGraphFingerprint(g), {})
  }

  lemma PlanForRun(g: Graph, run: RunId)
    ensures PlanFor(g, run).dag.runId == run
    ensures CreatedFor(run, g.nodes, 0) == CreatedEvents(run, PlanFor(g, run).order, 0)
  {
    var order := PlanFor(g, run).order;
    assert Renamed(IdsOf(NodeEntries(g.nodes))) == order;
  }

  lemma {:induction false} CreatedSequence(run: RunId, order: seq<TaskId>)
    ensures NextSequence(CreatedEvents(run, order, 0)) == |order|
  {
    if order != [] {
      var front := order[..|order| - 1];
      assert CreatedEvents(run, order, 0)[..|order| - 1] == CreatedEvents(run, front, 0);
      CreatedSequence(run, front);
    }
  }

  lemma StartTrace(g: Graph, run: RunId)
    requires Decomposable(g)
    ensures AllWellFormed(CreatedFor(run, g.nodes, 0)) && ValidTrace(run, CreatedFor(run, g.nodes, 0))
  {
    DecomposedPlanIsValid(g, run);
    PlanForRun(g, run);
    InitTraced(PlanFor(g, run));
    hide PlanFor, GraphOk, Buildable, ValidPlan, ValidTrace, Supplied;
  }

  lemma FirstFacts(g: Graph, run: RunId)
    ensures var p, s := PlanFor(g, run), FirstSnapshot(g, run);
            && p.dag.runId == run && s.run.id == run && s.run.graphId == g.graphId
            && s.trace == CreatedFor(run, g.nodes, 0)
            && s.statuses.Keys == p.dag.tasks.Keys && NextSequence(s.trace) == |p.order|
            && Init(p) == Core(PendingRun, s.statuses, map[], s.trace, [], |p.order|, 0, None)
  {
    PlanForRun(g, run);
    CreatedSequence(run, PlanFor(g, run).order);
    hide PlanFor, NextSequence, CreatedFor;
  }

  lemma StartTied(g: Graph, run: RunId)
    ensures Tied(Init(PlanFor(g, run)), CreatedFor(run, g.nodes, 0), FirstSnapshot(g, run), FirstSnapshot(g, run), 0)
  {
    PlanForRun(g, run);
    hide PlanFor, CreatedFor, ComputeTaskFingerprint, ComputeGraphFingerprint;
  }

  lemma StartPlanned(g: Graph, run: RunId, e: Env, cancelled: bool)
    requires Decomposable(g)
    ensures var p := PlanFor(g, run);
            && Usable(p) && Planned(p, e, Init(p), cancelled)
            && Session(p, e, Init(p), cancelled) == BeginSession(p, e, cancelled)
  {
    var p := PlanFor(g, run);
    DecomposedPlanIsValid(g, run);
    hide PlanFor, GraphOk, Buildable, Session, Ended;
    BeginTrail(p, e, cancelled);
    UsablePlan(p);
    hide ValidPlan, Trail, Usable;
  }

  lemma UsablePlan(p: Plan)
    requires ValidPlan(p)
    ensures Usable(p)
  {
  }

  // ---- From one durable state to the next ----

  /** What a driven session leaves behind is the durable state after its last commit. */
  lemma LeftHolds(dag: Dag, s: S.Snapshot, base: S.Snapshot, run: RunId, stored: Core, c: Core, fin: State)
    requires Left(s, base, run, fin) && Holds(base, run, stored)
    requires Trail(dag, c.(run := RunningRun), fin)
    ensures Holds(s, run, After(dag, stored, c, fin.log, |fin.log|))
  {
    hide Good;
    assert fin.log[..|fin.log|] == fin.log;
  }

  /** What the store held of the run: at the beginning of the process, and after each of its commits. */
  ghost predicate Trailed(dag: Dag, c: Core, base: S.Snapshot, run: RunId, log: seq<Label>, trail: seq<S.Snapshot>) {
    |trail| == |log| + 1 && trail[0] == base && Record(dag, c.(run := RunningRun), base, run, log, trail[1..])
  }

  /** After the k-th commit the store held what a crash at that point leaves. */
  lemma TrailHolds(dag: Dag, c: Core, base: S.Snapshot, run: RunId, stored: Core, log: seq<Label>,
      trail: seq<S.Snapshot>,
      k: nat)
    requires Trailed(dag, c, base, run, log, trail) && Holds(base, run, stored) && k <= |log|
    ensures k < |trail| && Holds(trail[k], run, After(dag, stored, c, log, k))
    ensures trail[k] == Delivered(dag, c.(run := RunningRun), base, log[..k])
    ensures trail[k].taskPrint == base.taskPrint && trail[k].graphPrint == base.graphPrint
    ensures trail[k].run.graphId == base.run.graphId
  {
    if k == 0 {
      assert log[..k] == [];
    } else {
      assert trail[k] == trail[1..][k - 1];
      assert Left(trail[k], base, run, Prefix(dag, c.(run := RunningRun), log, k));
    }
    hide Exec, Record;
  }

  /** How a start that got its writer ends. */
  ghost predicate Started(g: Graph, run: RunId, e: Env, cancelled: bool, s: S.Snapshot, r: Result<EngineRunResult,
      EngineError>) {
    var p := PlanFor(g, run);
    var fin := BeginSession(p, e, cancelled);
    var ch := Begun(p, e, cancelled, |fin.state.log|);
    && ValidChain(p.dag, ch) && Holds(s, run, Durable(p.dag, ch)) && s.revision == |fin.state.log|
    && (r.Ok? <==> !fin.aborted) && Reported(p, e, fin, r, s.report)
    && Prints(s, g)
  }

  /** The snapshot carries the identity and the fingerprints of graph `g`. */
  ghost predicate Prints(s: S.Snapshot, g: Graph) {
    && s.run.graphId == g.graphId && s.taskPrint == ComputeTaskFingerprint(Tasks(g.nodes))
    && s.graphPrint == ComputeGraphFingerprint(g)
  }

  /** The first difference between the graph and what is on file. */
  ghost predicate RejectedFor(s: S.Snapshot, g: Graph, reason: Rejection) {
    match reason
    case GraphIdMismatch => s.run.graphId != g.graphId
    case VersionMismatch => false
    case TaskFingerprintMismatch =>
      s.run.graphId == g.graphId && s.taskPrint != ComputeTaskFingerprint(Tasks(g.nodes))
    case GraphFingerprintMismatch =>
      && s.run.graphId == g.graphId && s.taskPrint == ComputeTaskFingerprint(Tasks(g.nodes))
      && s.graphPrint != ComputeGraphFingerprint(g)
  }

  lemma StartEnds(g: Graph, run: RunId, e: Env, cancelled: bool, first: S.Snapshot, s: S.Snapshot,
      r: Result<EngineRunResult, EngineError>)
    requires Decomposable(g) && first == FirstSnapshot(g, run)
    requires Left(s, first, run, BeginSession(PlanFor(g, run), e, cancelled).state)
    requires Reported(PlanFor(g, run), e, BeginSession(PlanFor(g, run), e, cancelled), r, s.report)
    ensures Started(g, run, e, cancelled, s, r)
  {
    var p := PlanFor(g, run);
    var fin := BeginSession(p, e, cancelled);
    hide PlanFor, BeginSession, Holds, Left, FirstSnapshot, Reported, Prints, Decomposable, Good, Trail, Ended, After,
        ValidChain, Durable, NoStale, ValidPlan;
    StartPlan(g, run);
    LeftPrints(s, first, run, fin.state);
    SamePrints(first, s, g);
    BeginTrail(p, e, cancelled);
    LeftHolds(p.dag, s, first, run, Init(p), Init(p), fin.state);
    BegunAt(p, e, cancelled, |fin.state.log|);
    BegunNotStale(p, e, cancelled);
    ReportedOk(p, e, fin, r, s.report);
  }

  /** The plan of a graph that decomposes, and what is stored of it first. */
  lemma StartPlan(g: Graph, run: RunId)
    requires Decomposable(g)
    ensures ValidPlan(PlanFor(g, run)) && Holds(FirstSnapshot(g, run), run, Init(PlanFor(g, run)))
    ensures FirstSnapshot(g, run).revision == 0 && Prints(FirstSnapshot(g, run), g)
  {
    DecomposedPlanIsValid(g, run);
    FirstHolds(g, run);
    hide PlanFor, GraphOk, Buildable, Holds, FirstSnapshot, ValidPlan, Prints;
  }

  /**
    At every moment of a start the store holds what the history crashed at that moment leaves, which is what the
    transitions sent so far make of the first snapshot.
  */
  ghost predicate StartedThrough(g: Graph, run: RunId, e: Env, cancelled: bool, s: S.Snapshot, trail: seq<S.Snapshot>) {
    var p := PlanFor(g, run);
    var log := BeginSession(p, e, cancelled).state.log;
    && |trail| == |log| + 1
    && Last(trail).(report := s.report) == s
    && forall k :: 0 <= k < |trail| ==>
         && LeftBy(trail[k], run, g, Begun(p, e, cancelled, k))
         && trail[k] == Delivered(p.dag, Init(p).(run := RunningRun), FirstSnapshot(g, run), log[..k])
  }

  lemma StartPasses(g: Graph, run: RunId, e: Env, cancelled: bool, first: S.Snapshot, s: S.Snapshot,
      trail: seq<S.Snapshot>)
    requires Decomposable(g) && first == FirstSnapshot(g, run) && trail != [] && Last(trail).(report := s.report) == s
    requires var p := PlanFor(g, run);
             Trailed(p.dag, Init(p), first, run, BeginSession(p, e, cancelled).state.log, trail)
    ensures StartedThrough(g, run, e, cancelled, s, trail)
  {
    var p := PlanFor(g, run);
    hide PlanFor, BeginSession, FirstSnapshot, Decomposable, Init, LeftBy, Trailed;
    var log := BeginSession(p, e, cancelled).state.log;
    TrailedMany(p.dag, Init(p), first, run, log, trail);
    forall k | 0 <= k < |trail|
      ensures LeftBy(trail[k], run, g, Begun(p, e, cancelled, k))
      ensures trail[k] == Delivered(p.dag, Init(p).(run := RunningRun), first, log[..k])
    {
      StartAt(g, run, e, cancelled, first, trail, k);
    }
  }

  lemma StartAt(g: Graph, run: RunId, e: Env, cancelled: bool, first: S.Snapshot, trail: seq<S.Snapshot>, k: nat)
    requires Decomposable(g) && first == FirstSnapshot(g, run)
    requires var p := PlanFor(g, run);
             var log := BeginSession(p, e, cancelled).state.log;
             Trailed(p.dag, Init(p), first, run, log, trail) && k <= |log|
    ensures var p := PlanFor(g, run);
            && k < |trail| && LeftBy(trail[k], run, g, Begun(p, e, cancelled, k))
            && trail[k] ==
               Delivered(p.dag, Init(p).(run := RunningRun), first, BeginSession(p, e, cancelled).state.log[..k])
  {
    var p := PlanFor(g, run);
    hide PlanFor, BeginSession, Holds, FirstSnapshot, ValidPlan, Prints, Decomposable, Init, LeftBy, After, Trailed,
        ValidChain, Durable;
    StartPlan(g, run);
    TrailHolds(p.dag, Init(p), first, run, Init(p), BeginSession(p, e, cancelled).state.log, trail, k);
    SamePrints(first, trail[k], g);
    BegunAt(p, e, cancelled, k);
    LeftByMeans(trail[k], run, g, Begun(p, e, cancelled, k));
  }

  lemma LeftByMeans(s: S.Snapshot, run: RunId, g0: Graph, ch: Chain)
    requires Decomposable(g0) && Prints(s, g0)
    requires ValidChain(PlanFor(g0, run).dag, ch) && Holds(s, run, Durable(PlanFor(g0, run).dag, ch))
    ensures LeftBy(s, run, g0, ch)
  {
    hide Decomposable, Prints, PlanFor, ValidChain, Durable, Holds;
  }

  lemma BegunAt(p: Plan, e: Env, cancelled: bool, k: nat)
    requires ValidPlan(p) && k <= |BeginSession(p, e, cancelled).state.log|
    ensures var log, ch := BeginSession(p, e, cancelled).state.log, Begun(p, e, cancelled, k);
            ValidChain(p.dag, ch) && Durable(p.dag, ch) == After(p.dag, Init(p), Init(p), log, k)
  {
    hide BeginSession, After, ValidPlan;
  }

  lemma FirstHolds(g: Graph, run: RunId)
    ensures Holds(FirstSnapshot(g, run), run, Init(PlanFor(g, run)))
    ensures FirstSnapshot(g, run).revision == 0
    ensures Prints(FirstSnapshot(g, run), g)
  {
    PlanForRun(g, run);
    hide PlanFor, CreatedFor, ComputeTaskFingerprint, ComputeGraphFingerprint;
  }

  lemma LeftPrints(s: S.Snapshot, base: S.Snapshot, run: RunId, fin: State)
    requires Left(s, base, run, fin)
    ensures s.taskPrint == base.taskPrint && s.graphPrint == base.graphPrint && s.run.graphId == base.run.graphId
    ensures s.revision == base.revision + |fin.log|
  {
  }

  lemma BegunNotStale(p: Plan, e: Env, cancelled: bool)
    requires ValidPlan(p)
    ensures NoStale(BeginSession(p, e, cancelled).state.core)
  {
    hide BeginSession, NoStale, ValidPlan;
    BeginTrail(p, e, cancelled);
    InitNotStale(p);
    SessionNotStale(p.dag, Init(p).(run := RunningRun), BeginSession(p, e, cancelled).state);
  }

  lemma ReportedOk(p: Plan, e: Env, fin: Step, r: Result<EngineRunResult, EngineError>, saved: Option<RunReport>)
    requires Reported(p, e, fin, r, saved)
    ensures r.Ok? <==> !fin.aborted && NoStale(fin.state.core)
  {
  }

  // ---- Resuming ----

  /** The snapshot was left by history `ch` of the run started from graph `g0`. */
  ghost predicate LeftBy(s: S.Snapshot, run: RunId, g0: Graph, ch: Chain) {
    && Decomposable(g0) && Prints(s, g0)
    && ValidChain(PlanFor(g0, run).dag, ch) && Holds(s, run, Durable(PlanFor(g0, run).dag, ch))
  }

  ghost function NextId(g0: Graph, run: RunId, ch: Chain): nat {
    if ValidChain(PlanFor(g0, run).dag, ch) then Durable(PlanFor(g0, run).dag, ch).supply else 0
  }

  ghost function StoredCore(g0: Graph, run: RunId, ch: Chain, lost: nat): Core
    requires ValidChain(PlanFor(g0, run).dag, ch)
  {
    Lose(Durable(PlanFor(g0, run).dag, ch), lost)
  }

  /** How a resume that got its writer ends: the history is one process longer. */
  ghost predicate Continued(
    g: Graph, run: RunId, e: Env, g0: Graph, ch: Chain, lost: nat, s: S.Snapshot, s': S.Snapshot,
    r: Result<EngineRunResult, EngineError>)
    requires LeftBy(s, run, g0, ch)
  {
    var dag := PlanFor(g0, run).dag;
    var p := PlanFor(g, run);
    var fin := ResumeSession(p, e, StoredCore(g0, run, ch, lost));
    var again := ResumeReruns(p, e, StoredCore(g0, run, ch, lost));
    var ch' := Chain.Resumed(ch, lost, p.order, e, |fin.state.log|);
    && p.dag == dag && LeftBy(s', run, g0, ch') && s'.revision == s.revision + |fin.state.log|
    && Reported(p, e, fin, r, s'.report)
    && (r.Ok? <==> !again.aborted && Cures(p, e, StoredCore(g0, run, ch, lost), again))
  }

  /**
    At every moment of a resume the store holds what the history crashed at that moment leaves, which is what the
    transitions sent so far make of the snapshot `s` it loaded.
  */
  ghost predicate ContinuedThrough(
    g: Graph, run: RunId, e: Env, g0: Graph, ch: Chain, lost: nat, s: S.Snapshot, s': S.Snapshot,
    trail: seq<S.Snapshot>)
  {
    var p := PlanFor(g, run);
    && ValidChain(PlanFor(g0, run).dag, ch)
    && |trail| == |LogOf(p, e, StoredCore(g0, run, ch, lost))| + 1
    && Last(trail).(report := s'.report) == s'
    && forall k :: 0 <= k < |trail| ==>
         && LeftBy(trail[k], run, g0, Chain.Resumed(ch, lost, p.order, e, k))
         && trail[k] == DeliveredTo(p, e, StoredCore(g0, run, ch, lost), s, k)
  }

  /** What the first `k` transitions of a resume make of snapshot `s`. */
  function DeliveredTo(p: Plan, e: Env, stored: Core, s: S.Snapshot, k: nat): S.Snapshot
    requires k <= |LogOf(p, e, stored)|
  {
    Delivered(p.dag, ProcessMemory(p, e, stored), s, LogOf(p, e, stored)[..k])
  }

  lemma ContinuePasses(
    g: Graph, run: RunId, e: Env, g0: Graph, ch: Chain, lost: nat, s: S.Snapshot, s': S.Snapshot,
    trail: seq<S.Snapshot>)
    requires LeftBy(s, run, g0, ch) && Decomposable(g) && Prints(s, g)
    requires trail != [] && Last(trail).(report := s'.report) == s'
    requires var p, stored := PlanFor(g, run), StoredCore(g0, run, ch, lost);
             Trailed(p.dag, Reload(p.dag, e, stored), s, run, ResumeSession(p, e, stored).state.log, trail)
    ensures ContinuedThrough(g, run, e, g0, ch, lost, s, s', trail)
  {
    hide PlanFor, ResumeSession, Reload, StoredCore, ValidPlan, ValidChain, Decomposable, Prints, LeftBy, Trailed;
    ContinuePlan(g, run, s, g0, ch);
    var p, stored := PlanFor(g, run), StoredCore(g0, run, ch, lost);
    TrailedMany(p.dag, Reload(p.dag, e, stored), s, run, ResumeSession(p, e, stored).state.log, trail);
    forall k | 0 <= k < |trail|
      ensures LeftBy(trail[k], run, g0, Chain.Resumed(ch, lost, p.order, e, k))
      ensures trail[k] == DeliveredTo(p, e, stored, s, k)
    {
      ContinueAt(p, run, e, g0, ch, lost, s, trail, k);
    }
  }

  lemma ContinuePlan(g: Graph, run: RunId, s: S.Snapshot, g0: Graph, ch: Chain)
    requires LeftBy(s, run, g0, ch) && Decomposable(g) && Prints(s, g)
    ensures PlanFor(g, run).dag == PlanFor(g0, run).dag && ValidPlan(PlanFor(g, run))
    ensures ValidChain(PlanFor(g0, run).dag, ch)
  {
    hide PlanFor, Decomposable, Prints, ValidPlan, Usable, ValidChain, Durable, Holds;
    CompatiblePlan(g, run, s, g0, ch);
  }

  lemma TrailedMany(dag: Dag, c: Core, base: S.Snapshot, run: RunId, log: seq<Label>, trail: seq<S.Snapshot>)
    requires Trailed(dag, c, base, run, log, trail)
    ensures |trail| == |log| + 1
  {
  }

  lemma ContinueAt(p: Plan, run: RunId, e: Env, g0: Graph, ch: Chain, lost: nat, s: S.Snapshot, trail: seq<S.Snapshot>,
      k: nat)
    requires LeftBy(s, run, g0, ch) && p.dag == PlanFor(g0, run).dag && ValidPlan(p)
    requires var stored := StoredCore(g0, run, ch, lost);
             var log := ResumeSession(p, e, stored).state.log;
             Trailed(p.dag, Reload(p.dag, e, stored), s, run, log, trail) && k <= |log|
    ensures k < |trail| && LeftBy(trail[k], run, g0, Chain.Resumed(ch, lost, p.order, e, k))
    ensures trail[k] == DeliveredTo(p, e, StoredCore(g0, run, ch, lost), s, k)
  {
    hide PlanFor, Durable, Holds, ResumeSession, Reload, ValidPlan, ValidChain, Decomposable, Prints, After, Trailed;
    var stored := StoredCore(g0, run, ch, lost);
    StoredIs(s, run, p.dag, Durable(p.dag, ch), lost);
    TrailHolds(p.dag, Reload(p.dag, e, stored), s, run, stored, ResumeSession(p, e, stored).state.log, trail, k);
    SamePrints(s, trail[k], g0);
    ResumedAt(p, ch, lost, e, k);
    hide StoredCore, LeftBy;
    LeftByMeans(trail[k], run, g0, Chain.Resumed(ch, lost, p.order, e, k));
  }

  lemma PrintsMean(s: S.Snapshot, g: Graph)
    ensures Prints(s, g) <==>
              && s.run.graphId == g.graphId && s.taskPrint == ComputeTaskFingerprint(Tasks(g.nodes))
              && s.graphPrint == ComputeGraphFingerprint(g)
  {
  }

  /** A graph matches the fingerprints on file exactly when it is the graph of the run, its nodes in any order. */
  lemma PrintsExactly(s: S.Snapshot, run: RunId, g0: Graph, ch: Chain, g: Graph)
    requires LeftBy(s, run, g0, ch)
    ensures Decomposable(g) ==> (Prints(s, g) <==> SameGraph(g0, g))
  {
    hide PlanFor, ValidChain, Durable, Holds, GraphOk, ComputeTaskFingerprint, ComputeGraphFingerprint, SameGraph;
    if Decomposable(g) {
      CompatibleExactly(g0, g);
      if SameGraph(g0, g) {
        SameGraphId(g0, g);
      }
    }
  }

  lemma SameGraphId(g: Graph, g': Graph)
    requires SameGraph(g, g')
    ensures g.graphId == g'.graphId
  {
  }

  lemma LoadedFacts(s: S.Snapshot, run: RunId, g0: Graph, ch: Chain)
    requires LeftBy(s, run, g0, ch)
    ensures ValidTrace(run, s.trace) && AllWellFormed(s.trace) && DistinctIds(s.artifacts)
  {
    var dag := PlanFor(g0, run).dag;
    PlanForRun(g0, run);
    ChainGood(dag, ch);
    StoredTrace(dag, Durable(dag, ch));
    hide Good, Durable, ValidChain, PlanFor, Decomposable, Prints;
  }

  lemma StoredTrace(dag: Dag, c: Core)
    requires Good(dag, c)
    ensures ValidTrace(dag.runId, c.trace) && AllWellFormed(c.trace) && DistinctIds(c.artifacts)
  {
    forall i | 0 <= i < |c.trace|
      ensures WellFormed(c.trace[i])
    {
      assert Follows(dag.runId, c.trace, i);
    }
  }

  /**
    What every snapshot the engine leaves says, whatever crashes and resumes went before: a valid trace in
    dependency order with no start after a failure, and per task exactly the attempts that trace started.
  */
  lemma SnapshotsAreSound(s: S.Snapshot, run: RunId, g0: Graph, ch: Chain)
    requires LeftBy(s, run, g0, ch)
    ensures var dag := PlanFor(g0, run).dag;
            && ValidTrace(run, s.trace) && StartsInOrder(dag, s.trace) && FailFast(s.trace)
            && (forall t :: t in dag.tasks ==>
                  StartsOf(s.trace, t) == if t in s.results then s.results[t].attempts else [])
            && s.revision == |s.committed|
  {
    var dag := PlanFor(g0, run).dag;
    PlanForRun(g0, run);
    ChainGood(dag, ch);
    GoodRecord(dag, Durable(dag, ch));
    hide Good, Durable, ValidChain, PlanFor, Decomposable, Prints, ValidTrace, StartsInOrder, FailFast, StartsOf;
  }

  lemma GoodRecord(dag: Dag, c: Core)
    requires Good(dag, c)
    ensures ValidTrace(dag.runId, c.trace) && StartsInOrder(dag, c.trace) && FailFast(c.trace)
    ensures forall t :: t in dag.tasks ==> StartsOf(c.trace, t) == PriorAttempts(c, t)
  {
    hide Shape, Exclusive, Supplied, Separate, StarvedNeverRan, ClosedOnce, Reusable, ValidTrace, StartsInOrder,
        FailFast, StartsOf;
  }

  lemma HydratedIs(now: seq<Artifact>, stored: seq<Artifact>)
    requires DistinctIds(stored) && (now == [] || now == stored)
    ensures PutAll(now, stored) == stored
  {
    if now == [] {
      HydrateFresh(stored);
    } else {
      HydrateTwice(stored, |stored|);
      assert stored[..|stored|] == stored;
    }
  }

  /** A graph that matches the stored fingerprints plans the stored tasks. */
  lemma CompatiblePlan(g: Graph, run: RunId, s: S.Snapshot, g0: Graph, ch: Chain)
    requires LeftBy(s, run, g0, ch) && Decomposable(g) && Prints(s, g)
    ensures var p := PlanFor(g, run);
            && p.dag == PlanFor(g0, run).dag && p.dag.runId == run && ValidPlan(p) && Usable(p)
            && ValidChain(p.dag, ch) && Holds(s, run, Durable(p.dag, ch))
  {
    CompatibleGraphsRunTheSameTasks(g, g0, run);
    DecomposedPlanIsValid(g, run);
    PlanForRun(g, run);
    UsablePlan(PlanFor(g, run));
    hide GraphOk, PlanFor, ValidPlan, Usable, ValidChain, Durable, Holds, Buildable, ComputeTaskFingerprint,
        ComputeGraphFingerprint;
  }

  lemma StoredIs(s: S.Snapshot, run: RunId, dag: Dag, c: Core, lost: nat)
    requires Holds(s, run, c)
    ensures var stored := Lose(c, lost);
            && Holds(s, run, stored) && stored.supply == c.supply + lost
            && stored.run == s.run.status && stored.results == s.results && stored.trace == s.trace
            && stored.artifacts == s.artifacts
  {
  }

  function ResumedEvent(dag: Dag, c: Core): Event {
    Event(FreshId(c.supply), RunResumed, dag.runId, NextSequence(c.trace), "", None, NoNote, None)
  }

  lemma ReloadIs(dag: Dag, e: Env, c: Core)
    ensures Reload(dag, e, c) == Core(c.run, Reload(dag, e, c).status, c.results, c.trace, c.artifacts,
        NextSequence(c.trace) + 1, c.supply + 1,
                                   Some(Mark(|c.trace|, ResumedEvent(dag, c))))
    ensures Reload(dag, e, c).status.Keys == dag.tasks.Keys
  {
    hide ResumedStatus, NextSequence;
  }

  lemma ResumeTied(dag: Dag, e: Env, run: RunId, s: S.Snapshot, c: Core)
    requires Good(dag, c) && Holds(s, run, c)
    ensures Tied(Reload(dag, e, c), s.trace + [ResumedEvent(dag, c)], s, s, 0)
    ensures !HasId(s.trace, FreshId(c.supply)) && s.results.Keys <= dag.tasks.Keys
  {
    ReloadIs(dag, e, c);
    StoredSupply(dag, c);
    hide Good, Reload, NextSequence, ResumedEvent;
    var c' := Reload(dag, e, c);
    assert Mem(c') == c.trace + [c'.mark.value.event];
    forall id | HasId(s.trace + [ResumedEvent(dag, c)], id) && id.FreshId?
      ensures id.n < c'.supply
    {
      EventNew(dag, c);
      var i :| 0 <= i < |s.trace| + 1 && (s.trace + [ResumedEvent(dag, c)])[i].id == id;
    }
  }

  lemma EventNew(dag: Dag, c: Core)
    ensures ResumedEvent(dag, c).id == FreshId(c.supply)
  {
  }

  lemma StoredSupply(dag: Dag, c: Core)
    requires Good(dag, c)
    ensures forall i :: 0 <= i < |c.trace| && c.trace[i].id.FreshId? ==> c.trace[i].id.n < c.supply
    ensures Drawn(c.artifacts, c.supply) && c.results.Keys <= dag.tasks.Keys
  {
  }

  lemma ResumePlanned(p: Plan, e: Env, c: Core)
    requires ValidPlan(p) && Good(p.dag, c)
    ensures Planned(p, e, Reload(p.dag, e, c), false)
    ensures Session(p, e, Reload(p.dag, e, c), false) == ResumeSession(p, e, c)
  {
    ReloadGood(p.dag, e, c);
    ReloadRecovers(p, Reload(p.dag, e, c));
    ResumeTrail(p, e, c);
    hide Good, Trail, Session, Ended, Reload, Recoverable, ValidPlan;
  }

  lemma ReloadRecovers(p: Plan, c: Core)
    requires Good(p.dag, c)
    ensures Recoverable(p, c)
  {
    forall t | t in p.order && Indeterminate(c, t)
      ensures Has(c, t, Running)
    {
      assert Fits(p.dag, t, c.results[t], c.status[t]);
    }
  }

  /** Everything a process needs to go on from stored state `c` in snapshot `s`. */
  ghost predicate Resumable(p: Plan, e: Env, run: RunId, s: S.Snapshot, c: Core) {
    && p.dag.runId == run && Usable(p)
    && c.run == s.run.status && c.results == s.results && c.trace == s.trace && c.artifacts == s.artifacts
    && !HasId(s.trace, FreshId(c.supply)) && s.results.Keys <= p.dag.tasks.Keys
    && Tied(Reload(p.dag, e, c), s.trace + [ResumedEvent(p.dag, c)], s, s, 0)
    && Planned(p, e, Reload(p.dag, e, c), false) && Session(p, e, Reload(p.dag, e, c), false) == ResumeSession(p, e, c)
  }

  lemma ContinueFacts(g: Graph, run: RunId, s: S.Snapshot, e: Env, g0: Graph, ch: Chain, lost: nat)
    requires LeftBy(s, run, g0, ch) && Decomposable(g) && Prints(s, g)
    ensures var p, stored := PlanFor(g, run), StoredCore(g0, run, ch, lost);
            && (forall t :: t in p.order <==> t in p.dag.tasks)
            && stored.supply == NextId(g0, run, ch) + lost
            && stored.results == s.results && stored.artifacts == s.artifacts
            && Resumable(p, e, run, s, stored)
  {
    CompatiblePlan(g, run, s, g0, ch);
    var p := PlanFor(g, run);
    var durable := Durable(p.dag, ch);
    StoredIs(s, run, p.dag, durable, lost);
    ChainGood(p.dag, ch);
    LoseGood(p.dag, durable, lost);
    ResumeTied(p.dag, e, run, s, Lose(durable, lost));
    ResumePlanned(p, e, Lose(durable, lost));
    InPlan(p);
    hide PlanFor, Durable, Good, Holds, Planned, Session, ResumeSession, Tied, Reload, Lose, ValidPlan, Usable,
        ResumedEvent, ValidChain, Decomposable, Prints;
  }

  lemma InPlan(p: Plan)
    requires ValidPlan(p)
    ensures forall t :: t in p.order <==> t in p.dag.tasks
  {
  }

  lemma ContinueEnds(
    g: Graph, run: RunId, e: Env, g0: Graph, ch: Chain, lost: nat, s: S.Snapshot, s': S.Snapshot,
    r: Result<EngineRunResult, EngineError>)
    requires LeftBy(s, run, g0, ch) && Decomposable(g) && Prints(s, g)
    requires var fin := ResumeSession(PlanFor(g, run), e, StoredCore(g0, run, ch, lost));
             Left(s', s, run, fin.state) && Reported(PlanFor(g, run), e, fin, r, s'.report)
    ensures Continued(g, run, e, g0, ch, lost, s, s', r)
  {
    hide PlanFor, Durable, Good, Trail, Holds, Ended, Left, Reported, ResumeSession, Reload, Lose, After, ValidPlan,
        ValidChain, Decomposable, Prints, ResumeReruns, Cures, Usable;
    CompatiblePlan(g, run, s, g0, ch);
    var p := PlanFor(g, run);
    var durable := Durable(p.dag, ch);
    StoredIs(s, run, p.dag, durable, lost);
    ChainGood(p.dag, ch);
    LoseGood(p.dag, durable, lost);
    var stored := Lose(durable, lost);
    ResumeTrail(p, e, stored);
    var fin := ResumeSession(p, e, stored);
    LeftPrints(s', s, run, fin.state);
    SamePrints(s, s', g0);
    LeftHolds(p.dag, s', s, run, stored, Reload(p.dag, e, stored), fin.state);
    ResumedAt(p, ch, lost, e, |fin.state.log|);
    ResumeReported(p, e, stored, r, s'.report);
  }

  /** A resume returns a result exactly when it starts every rejected success again and nothing aborts it. */
  lemma ResumeReported(p: Plan, e: Env, stored: Core, r: Result<EngineRunResult, EngineError>, saved: Option<RunReport>)
    requires ValidPlan(p) && Good(p.dag, stored) && Reported(p, e, ResumeSession(p, e, stored), r, saved)
    ensures r.Ok? <==> !ResumeReruns(p, e, stored).aborted && Cures(p, e, stored, ResumeReruns(p, e, stored))
  {
    hide Good, ValidPlan, ResumeSession, ResumeReruns, Cures, NoStale, Blamed, ReportOk, Describes, Returns;
    FreshExactlyWhen(p, e, stored);
  }

  lemma SamePrints(s: S.Snapshot, s': S.Snapshot, g: Graph)
    requires s'.taskPrint == s.taskPrint && s'.graphPrint == s.graphPrint && s'.run.graphId == s.run.graphId
    ensures Prints(s', g) <==> Prints(s, g)
  {
  }

  /** Memory from which a session may be driven: it takes enabled steps only and ends properly unless aborted. */
  ghost predicate Planned(p: Plan, e: Env, c: Core, cancelled: bool) {
    && ValidPlan(p) && Recoverable(p, c)
    && var fin := Session(p, e, c, cancelled);
       Trail(p.dag, c.(run := RunningRun), fin.state) && (!fin.aborted ==> Ended(fin.state.core))
  }

  lemma PlannedFacts(p: Plan, e: Env, c: Core, cancelled: bool)
    requires Planned(p, e, c, cancelled)
    ensures Distinct(p.order) && Recoverable(p, c)
    ensures var fin := Session(p, e, c, cancelled);
            ValidTrace(p.dag.runId, Mem(fin.state.core)) && forall t :: t in p.order ==> t in fin.state.core.status
  {
    hide Session, Recoverable, Ended;
    var fin := Session(p, e, c, cancelled);
    TrailDomain(p.dag, c.(run := RunningRun), fin.state);
    TrailGood(p.dag, c.(run := RunningRun), fin.state);
    TraceOf(p.dag, fin.state.core);
    hide Good, Trail;
  }

  lemma TraceOf(dag: Dag, c: Core)
    requires Good(dag, c)
    ensures ValidTrace(dag.runId, Mem(c)) && DistinctIds(c.artifacts)
  {
  }

  /** The returned result says what is in memory in the end: statuses, results, the trace, and the manifest. */
  ghost predicate Returns(p: Plan, e: Env, c: Core, result: SchedulerResult) {
    && result.run == c.run && result.statuses == c.status && result.results == c.results && result.trace == Mem(c)
    && Manifest.IsManifest(p, c, e.receiptOk, result.artifactIds)
  }

  /**
    A result, with an accepted report on file, comes back exactly when nothing aborted and nothing is stale;
    an exception comes back as the one the last attempt of some task caused.
  */
  ghost predicate Reported(p: Plan, e: Env, fin: Step, r: Result<EngineRunResult, EngineError>,
      saved: Option<RunReport>) {
    && (r.Ok? <==> !fin.aborted && NoStale(fin.state.core))
    && (fin.aborted ==> r.error.RunAborted? && Blamed(e, fin.state.core, r.error.abort))
    && (r.Err? && !fin.aborted ==> r.error == ReportRejected)
    && (r.Ok? ==>
         && Returns(p, e, fin.state.core, r.value.scheduler)
         && ReportOk(r.value.report) && Describes(p, fin.state.core, r.value.scheduler.artifactIds, r.value.report)
         && saved == Some(r.value.report))
  }

  lemma AbortedReport(p: Plan, e: Env, c: Core, cancelled: bool, abort: Abort)
    requires Session(p, e, c, cancelled).aborted && Blamed(e, Session(p, e, c, cancelled).state.core, abort)
    ensures forall saved :: Reported(p, e, Session(p, e, c, cancelled), Err(RunAborted(abort)), saved)
  {
    hide Session, NoStale, ReportOk, Describes, Blamed, Returns;
  }

  lemma ReportedWhen(p: Plan, e: Env, c: Core, cancelled: bool, result: SchedulerResult, report: RunReport)
    requires Planned(p, e, c, cancelled) && !Session(p, e, c, cancelled).aborted
    requires Describes(p, Session(p, e, c, cancelled).state.core, result.artifactIds, report)
    requires Returns(p, e, Session(p, e, c, cancelled).state.core, result)
    ensures var fin := Session(p, e, c, cancelled);
            if ReportOk(report) then Reported(p, e, fin, Ok(EngineRunResult(result, report)), Some(report))
            else forall saved :: Reported(p, e, fin, Err(ReportRejected), saved)
  {
    hide Session, Recoverable, Describes, NoStale, ReportOk, Returns;
    var fin := Session(p, e, c, cancelled);
    TrailGood(p.dag, c.(run := RunningRun), fin.state);
    hide Good, Trail, ValidPlan, Ended;
    ReportExact(p, fin.state.core, result.artifactIds, report);
  }

  lemma Standing(tb: PersistingTraceBuilder)
    requires tb.Mirrored()
    ensures tb.committer.pending == [] && tb.committer.runId in tb.committer.store.snapshots
    ensures tb.committer.runId in tb.committer.store.writers && tb.committer.store.writers == tb.writers
    ensures tb.committer.store.snapshots - {tb.committer.runId} == tb.others
    ensures tb.Snapshot() == tb.committer.store.snapshots[tb.committer.runId]
    ensures tb.log == [] ==> tb.Snapshot() == tb.base
  {
  }

  lemma TrailOf(tb: PersistingTraceBuilder, c: Core)
    requires tb.Valid() && tb.start == c.(run := RunningRun)
    ensures var trail := [tb.base] + tb.past;
            && Trailed(tb.state.plan.dag, c, tb.base, tb.committer.runId, tb.log, trail) && Last(trail) == tb.Snapshot()
  {
    hide Left, PersistingTraceBuilder.Linked, PersistingTraceBuilder.Synced, Exec;
    assert ([tb.base] + tb.past)[1..] == tb.past;
  }

  lemma LinkedTrace(tb: PersistingTraceBuilder)
    requires tb.Valid()
    ensures tb.inner.events == Mem(tb.Memory()) && tb.inner.runId == tb.state.plan.dag.runId
  {
  }
}
