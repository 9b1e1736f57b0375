/** The smallest history whose last resume has no report: two tasks, one crash, one lost receipt. */
module Refusals {
  import opened Model
  import opened Artifacts
  import opened Machine
  import opened Invariants
  import opened Scheduling
  import opened Sessions
  import opened Runs
  import opened Chains
  import opened Verdicts
  import opened Reports
  import opened Reruns
  import opened Planning
  import opened Decomposition
  import opened Reuse
  import Manifest
  import G = Graphs
  import T = Transparency

  // ---- One round of the loop ----

  lemma LoopSucceeds(p: Plan, e: Env, c0: Core, s: State, t: TaskId)
    requires ValidPlan(p) && Trail(p.dag, c0, s) && Calm(s.core)
    requires T.FirstReady(p, s.core.status, |p.order|) == Some(t)
    requires Verdict(p.dag, t, e.exec(t, s.core.supply + 1)) == Some(Success)
    ensures var d := Dispatch(p, e, Do(p.dag, s, MakeReady(t)), t);
            && Trail(p.dag, c0, d.state) && Calm(d.state.core) && d.state.core.status == s.core.status[t := Success]
            && Loop(p, e, s, false) == Loop(p, e, d.state, false)
  {
    hide Good, Trail, Do, Dispatch, ValidPlan, T.FirstReady, Verdict, Calm, Dispatchable, ReadyIds, FirstBlocked;
    T.ChoicesAgree(p, c0, s);
    RoundMemory(p, e, c0, s, t);
    CalmAfter(s.core, Dispatch(p, e, Do(p.dag, s, MakeReady(t)), t).state.core, t, Success);
  }

  lemma LoopAborts(p: Plan, e: Env, c0: Core, s: State, t: TaskId)
    requires ValidPlan(p) && Trail(p.dag, c0, s)
    requires T.FirstReady(p, s.core.status, |p.order|) == Some(t) && e.exec(t, s.core.supply + 1) == EngineError
    ensures Loop(p, e, s, false) == Step(Do(p.dag, Do(p.dag, s, MakeReady(t)), Start(t)), true)
  {
    T.ChoicesAgree(p, c0, s);
    MadeReady(p.dag, s, t);
    hide Good, Trail, Do, ValidPlan, T.FirstReady, Dispatchable, ReadyIds, FirstBlocked;
  }

  lemma StartedStatus(dag: Dag, s: State, t: TaskId)
    ensures var c := Do(dag, Do(dag, s, MakeReady(t)), Start(t)).core;
            c.status == s.core.status[t := Ready][t := Running]
  {
  }

  // ---- The example ----

  /** A dataset is downloaded, and training starts from it. */
  function ExampleGraph(): Graph {
    var data := Node("a", DownloadDataset, "data", [], [], [], "", None);
    var train := Node("b", Training, "train", ["a"], [], [], "", None);
    Graph("g", "s", [data, train], "")
  }

  const A: TaskId := "task-a"
  const B: TaskId := "task-b"
  const RECEIPT: string := "dataset_receipt.json"

  /** The tasks the engine makes of it. */
  function Example(): Plan {
    var dataset := OutputDecl("dataset", "dataset", true, RuntimeRun, "presence", "");
    var output := OutputDecl("training_output", "training", true, RuntimeRun, "presence", "");
    var data := Task(A, [], [], [dataset], Payload("data", "data", DownloadDataset, [], [], None));
    var train := Task(B, [A], [], [output], Payload("train", "train", Training, [], [], None));
    Plan(Dag("r", map[A := data, B := train]), [A, B])
  }

  /** What the download reports: its receipt, for the dataset. */
  function Downloaded(): Candidate {
    Candidate("dataset", "dataset", Location(RECEIPT, true), "")
  }

  /** The download succeeds, and the process dies once training is started. */
  function Crashing(): Env {
    Env((t: TaskId, attempt: nat) => if t == A then Outcome([Downloaded()], true, false, [], "done") else EngineError,
      (t: TaskId, attempt: nat) => Unknown,
      (ref: string) => true)
  }

  lemma ExampleEntries()
    ensures NodeEntries(ExampleGraph().nodes) == [Entry("a", []), Entry("b", ["a"])]
    ensures DepsOf(NodeEntries(ExampleGraph().nodes)) == map["a" := [], "b" := ["a"]]
  {
    var es := NodeEntries(ExampleGraph().nodes);
    assert es == [Entry("a", []), Entry("b", ["a"])];
    assert es[..1] == [Entry("a", [])] && es[..1][..0] == [];
    assert DepsOf(es[..1]) == map["a" := []];
  }

  lemma ExampleIsAccepted()
    ensures GraphOk(ExampleGraph())
  {
    ExampleEntries();
    var deps := DepsOf(NodeEntries(ExampleGraph().nodes));
    hide DepsOf, NodeEntries;
    assert G.Ranking(deps, map["a" := 0, "b" := 1]);
  }

  lemma ExampleIsBuildable(i: nat)
    requires i < |ExampleGraph().nodes|
    ensures Buildable(ExampleGraph().nodes[i])
  {
    assert "data"[0] == 'd' && "train"[0] == 't';
  }

  lemma ExampleTasks()
    ensures Tasks(ExampleGraph().nodes) == [Example().dag.tasks[A], Example().dag.tasks[B]]
  {
    var nodes := ExampleGraph().nodes;
    assert TaskIdFor("a") == A && TaskIdFor("b") == B;
    assert Renamed(nodes[0].dependsOn) == [] && Renamed(nodes[1].dependsOn) == [A];
    assert Inputs(nodes[0]) == [] && Inputs(nodes[1]) == [];
    assert TaskFor(nodes[0]) == Example().dag.tasks[A];
    assert TaskFor(nodes[1]) == Example().dag.tasks[B];
  }

  /** The example is what the engine plans for its graph. */
  lemma ExampleIsPlanned()
    ensures PlanFor(ExampleGraph(), "r") == Example()
  {
    ExampleTasks();
    var tasks := Tasks(ExampleGraph().nodes);
    hide Tasks, ExampleGraph;
    var data, train := Example().dag.tasks[A], Example().dag.tasks[B];
    assert tasks[..1] == [data] && tasks[..1][..0] == [];
    assert TaskMap(tasks[..1]) == map[A := data];
    assert IdsOf(TaskEntries(tasks)) == [A, B];
  }

  lemma ExampleIsValid()
    ensures ValidPlan(Example())
  {
    ExampleIsAccepted();
    ExampleIsPlanned();
    forall i | 0 <= i < |ExampleGraph().nodes|
      ensures Buildable(ExampleGraph().nodes[i])
    {
      ExampleIsBuildable(i);
    }
    hide ValidPlan, GraphOk, Buildable, PlanFor, ExampleGraph, Example;
    DecomposedPlanIsValid(ExampleGraph(), "r");
  }

  lemma ExampleVerdict(attempt: nat)
    ensures Verdict(Example().dag, A, Crashing().exec(A, attempt)) == Some(Success)
  {
    assert NewestCandidate([Downloaded()], "dataset") == Some(Downloaded());
  }

  lemma ExampleChoices()
    ensures var p := Example();
            && T.FirstReady(p, map[A := Pending, B := Pending], 2) == Some(A)
            && T.FirstReady(p, map[A := Success, B := Pending], 2) == Some(B)
  {
    var p := Example();
    var st := map[A := Success, B := Pending];
    assert T.StatusOpen(p.dag, map[A := Pending, B := Pending], A, false);
    assert T.FirstReady(p, map[A := Pending, B := Pending], 1) == Some(A);
    assert !T.StatusOpen(p.dag, st, A, false);
    assert T.FirstReady(p, st, 0) == None;
    assert T.FirstReady(p, st, 1) == None;
    assert T.StatusOpen(p.dag, st, B, false);
  }

  /** The first process ends in an engine error with `a` done and `b` started. */
  lemma ExampleCrashes()
    ensures var s := BeginSession(Example(), Crashing(), false).state;
            s.log != [] && Has(s.core, A, Success) && Has(s.core, B, Running) && AllAt(s.core.artifacts, RECEIPT)
  {
    hide Good, Trail, BeginSession, Opening, Loop, ValidPlan, Crashing, Dispatch, Verdict, T.FirstReady, Example, Do,
        Calm, Init, AllAt;
    var p, e := Example(), Crashing();
    ExampleIsValid();
    ExampleChoices();
    ExampleFacts();
    BeginsWithLoop(p, e);
    var s := Opening(p, Init(p));
    var c0 := Init(p).(run := RunningRun);
    ExampleVerdict(s.core.supply + 1);
    LoopSucceeds(p, e, c0, s, A);
    var d := Dispatch(p, e, Do(p.dag, s, MakeReady(A)), A);
    assert d.state.core.status == map[A := Success, B := Pending];
    LoopAborts(p, e, c0, d.state, B);
    StartedStatus(p.dag, d.state, B);
    Logged(p.dag, d.state, B);
    ExampleArtifacts(s);
  }

  lemma Logged(dag: Dag, s: State, t: TaskId)
    ensures Do(dag, Do(dag, s, MakeReady(t)), Start(t)).log != []
    ensures Do(dag, Do(dag, s, MakeReady(t)), Start(t)).core.artifacts == s.core.artifacts
  {
  }

  // ---- Where the artifacts are ----

  ghost predicate AllAt(arts: seq<Artifact>, ref: string) {
    forall i :: 0 <= i < |arts| ==> arts[i].location.ref == ref
  }

  lemma {:induction false} RegisterAt(dag: Dag, s: State, t: TaskId, cands: seq<Candidate>, ids: seq<nat>, i: nat,
      ref: string)
    requires i <= |cands| && AllAt(s.core.artifacts, ref)
    requires forall j :: 0 <= j < |cands| ==> cands[j].location.ref == ref
    ensures AllAt(RegisterAll(dag, s, t, cands, ids, i).state.core.artifacts, ref)
    decreases |cands| - i
  {
    if i < |cands| && LocationOk(cands[i].location) {
      RegisterAt(dag, Do(dag, s, Register(t, cands[i])), t, cands, ids + [s.core.supply], i + 1, ref);
    }
  }

  lemma {:induction false} ValidateAt(
    view: seq<Artifact>, arts: seq<Artifact>, run: RunId, t: TaskId, attempt: nat, decls: seq<OutputDecl>, k: nat,
    accepted: seq<nat>, clean: bool, ref: string)
    requires k <= |decls| && AllAt(arts, ref)
    ensures AllAt(ValidateFrom(view, arts, run, t, attempt, decls, k, accepted, clean).artifacts, ref)
    decreases |decls| - k
  {
    if k < |decls| {
      var found := Newest(view, run, attempt, decls[k].name);
      match Judge(decls[k], found, run, t)
      case Raise =>
      case Complain => ValidateAt(view, arts, run, t, attempt, decls, k + 1, accepted, false, ref);
      case Ignore => ValidateAt(view, arts, run, t, attempt, decls, k + 1, accepted, clean, ref);
      case Accept =>
        ValidateAt(view, Promote(arts, found.value.id), run, t, attempt, decls, k + 1, accepted + [found.value.id],
            clean, ref);
    }
  }

  /** How a dispatch ends leaves the artifacts as they were, or as validation does. */
  lemma ConcludeAt(p: Plan, s: State, t: TaskId, attempts: seq<nat>, prior: Option<TaskResult>, out: Outcome,
      ids: seq<nat>, started: EventId, ref: string)
    requires out.Outcome? && attempts != [] && t in p.dag.tasks && AllAt(s.core.artifacts, ref)
    ensures AllAt(Conclude(p, s, t, attempts, prior, out, ids, started).core.artifacts, ref)
  {
    hide ValidateFrom, BuildResult, AllAt;
    ValidateAt(s.core.artifacts, s.core.artifacts, p.dag.runId, t, Last(attempts), p.dag.tasks[t].outputs, 0, [], true,
        ref);
  }

  /** What a dispatch whose executor reports only artifacts at `ref` leaves is at `ref` if all was. */
  lemma DispatchAt(p: Plan, e: Env, s: State, t: TaskId, ref: string)
    requires t in p.dag.tasks && AllAt(s.core.artifacts, ref)
    requires var out := e.exec(t, s.core.supply);
             out.Outcome? && forall i :: 0 <= i < |out.candidates| ==> out.candidates[i].location.ref == ref
    ensures AllAt(Dispatch(p, e, s, t).state.core.artifacts, ref)
  {
    hide RegisterAll, Conclude, AllAt;
    var a := s.core.supply;
    var attempts := PriorAttempts(s.core, t) + [a];
    var out := e.exec(t, a);
    var s1 := Do(p.dag, s, Start(t));
    RegisterAt(p.dag, s1, t, out.candidates, [], 0, ref);
    var reg := RegisterAll(p.dag, s1, t, out.candidates, [], 0);
    if !reg.aborted {
      ConcludeAt(p, reg.state, t, attempts, PriorResult(s.core, t), out, reg.ids, FreshId(a + 1), ref);
    }
  }

  lemma NothingStored(p: Plan, t: TaskId)
    ensures AllAt(Do(p.dag, Opening(p, Init(p)), MakeReady(t)).core.artifacts, RECEIPT)
  {
  }

  lemma CrashingReport(attempt: nat)
    ensures var out := Crashing().exec(A, attempt);
            out.Outcome? && forall i :: 0 <= i < |out.candidates| ==> out.candidates[i].location.ref == RECEIPT
  {
    assert Crashing().exec(A, attempt).candidates == [Downloaded()];
  }

  lemma ExampleArtifacts(s: State)
    requires s == Opening(Example(), Init(Example()))
    ensures AllAt(Dispatch(Example(), Crashing(), Do(Example().dag, s, MakeReady(A)), A).state.core.artifacts, RECEIPT)
  {
    var s1 := Do(Example().dag, s, MakeReady(A));
    NothingStored(Example(), A);
    CrashingReport(s1.core.supply);
    ExampleOutputs();
    hide Example, Crashing, Do, Opening, Init, Dispatch;
    DispatchAt(Example(), Crashing(), s1, A, RECEIPT);
  }

  lemma ExampleFacts()
    ensures |Example().order| == 2 && Init(Example()).status == map[A := Pending, B := Pending]
    ensures forall attempt :: Crashing().exec(B, attempt) == EngineError
  {
  }

  /** The history: the first process, stopped by the error after its last commit. */
  function Crashed(): Chain {
    Begun(Example(), Crashing(), false, |BeginSession(Example(), Crashing(), false).state.log|)
  }

  /** What it leaves in the store. */
  ghost function Stored(): (c: Core)
    ensures ValidPlan(Example()) && ValidChain(Example().dag, Crashed()) && c == Durable(Example().dag, Crashed())
  {
    ExampleIsValid();
    StoredAtEnd(Example(), Crashing(), false);
    hide Good, BeginSession, ValidPlan, Init, Ended, Example, Crashing, Durable, ValidChain;
    Durable(Example().dag, Crashed())
  }

  lemma ExampleStored()
    ensures Good(Example().dag, Stored()) && A in Stored().results && B in Stored().results
    ensures Stored().results[A].status == Success && Stored().results[B].status == Running
    ensures AllAt(Stored().artifacts, RECEIPT)
  {
    hide Good, BeginSession, ValidPlan, Ended, Example, Crashing, Durable, ValidChain, AllAt;
    ExampleIsValid();
    ExampleCrashes();
    StoredAtEnd(Example(), Crashing(), false);
    ChainGood(Example().dag, Crashed());
    RunningResults(Example().dag, Stored());
  }

  lemma RunningResults(dag: Dag, c: Core)
    requires Good(dag, c)
    ensures forall t :: Has(c, t, Success) ==> t in c.results && c.results[t].status == Success
    ensures forall t :: Has(c, t, Running) ==> t in c.results && c.results[t].status == Running
  {
  }

  // ---- The resume ----

  lemma ProofIsAt(arts: seq<Artifact>, ids: seq<nat>, run: RunId, t: TaskId, attempt: nat, d: OutputDecl, ref: string)
    requires AllAt(arts, ref)
    ensures var proof := FirstProof(arts, ids, run, t, attempt, d, Trust());
            proof.Some? ==> proof.value.location.ref == ref
  {
    var proof := FirstProof(arts, ids, run, t, attempt, d, Trust());
    if proof.Some? {
      FirstProofIsListed(arts, ids, run, t, attempt, d, Trust());
      LookupSound(arts, proof.value.id);
    }
    hide FirstProof, Lookup;
  }

  /** When everything is at one place, a recorded success of a task with a required output hangs on its receipt. */
  lemma RejectedAt(dag: Dag, e: Env, stored: Core, t: TaskId, ref: string)
    requires Good(dag, stored) && AllAt(stored.artifacts, ref)
    requires t in dag.tasks && |dag.tasks[t].outputs| == 1 && dag.tasks[t].outputs[0].required
    requires t in stored.results && stored.results[t].status == Success
    ensures Rejected(dag, e, stored, t) <==> !e.receiptOk(ref)
  {
    hide Good, AllAt, FirstProof;
    ReusableExactly(dag, stored, t, e.receiptOk);
    Manifest.ReusableOf(dag, stored, t);
    var r, d := stored.results[t], dag.tasks[t].outputs[0];
    assert OutputProven(stored.artifacts, dag.runId, r, d, Trust());
    ProofIsAt(stored.artifacts, r.artifactIds, dag.runId, r.taskId, Last(r.attempts), d, ref);
    hide Satisfies, OutputProven;
  }

  lemma ExampleOutputs()
    ensures A in Example().dag.tasks && Example().dag.tasks.Keys == {A, B}
    ensures |Example().dag.tasks[A].outputs| == 1 && Example().dag.tasks[A].outputs[0].required
  {
  }

  lemma OnlyOneRejected(dag: Dag, e: Env, stored: Core, t: TaskId)
    requires forall u :: u in dag.tasks && u in stored.results && u != t ==> stored.results[u].status != Success
    ensures NothingRejected(dag, e, stored) <==> !Rejected(dag, e, stored, t)
  {
    hide Satisfies;
  }

  /** Beside a running task, what a resume rejects of a success is decided by that one receipt. */
  lemma RejectedAlone(dag: Dag, e: Env, c: Core, lost: nat, t: TaskId, u: TaskId, ref: string)
    requires Good(dag, c) && AllAt(c.artifacts, ref)
    requires t in dag.tasks && |dag.tasks[t].outputs| == 1 && dag.tasks[t].outputs[0].required
    requires t in c.results && c.results[t].status == Success
    requires dag.tasks.Keys == {t, u} && u in c.results && c.results[u].status == Running
    ensures NothingRejected(dag, e, Lose(c, lost)) <==> e.receiptOk(ref)
  {
    hide Good, Rejected, NothingRejected, AllAt;
    LoseGood(dag, c, lost);
    RejectedAt(dag, e, Lose(c, lost), t, ref);
    OnlyOneRejected(dag, e, Lose(c, lost), t);
  }

  /** Only the result of `A` can be rejected, and it is when its receipt is gone. */
  lemma ExampleRejected(e: Env, lost: nat)
    ensures NothingRejected(Example().dag, e, Lose(Stored(), lost)) <==> e.receiptOk(RECEIPT)
  {
    hide Good, Stored, Rejected, NothingRejected, Example, AllAt, ValidPlan, ValidChain, Durable, Lose;
    ExampleStored();
    ExampleOutputs();
    RejectedAlone(Example().dag, e, Stored(), lost, A, B, RECEIPT);
  }

  /**
    Resumed with `B` still running, that history ends in an accepted report exactly when the receipt of `A` is
    there: without it the result of `A` is a success that no task counts as one.
  */
  lemma StaleReportIsRefused(e: Env, lost: nat, ids: seq<nat>, r: RunReport)
    requires forall attempt :: e.reconcile(B, attempt) == StillRunning
    requires Describes(Example(), ResumeSession(Example(), e, Lose(Stored(), lost)).state.core, ids, r)
    ensures !ResumeSession(Example(), e, Lose(Stored(), lost)).aborted
    ensures ReportOk(r) <==> e.receiptOk(RECEIPT)
  {
    hide Good, Stored, ResumeSession, Describes, ReportOk, Rejected, Example, Settles, EndedBadly, AllAt;
    ExampleStored();
    ExampleIsValid();
    var stored := Lose(Stored(), lost);
    LoseGood(Example().dag, Stored(), lost);
    hide ValidPlan, NothingRejected;
    ExampleRejected(e, lost);
    StillOpen(Example(), e, stored, B);
    assert Unsettled(Example(), e, stored, B);
    hide Unsettled, Lose;
    BarredWhen(Example(), e, stored);
    BarredReport(Example(), e, stored, ids, r);
  }

  lemma StillOpen(p: Plan, e: Env, c: Core, t: TaskId)
    requires forall attempt :: e.reconcile(t, attempt) == StillRunning
    ensures Settles(p, e, c, t) == None
  {
  }
}
