/** Decomposition of an accepted graph into tasks: an isomorphic, accepted task DAG. */
module Decomposition {
  import opened Model
  import opened Planning
  import Machine
  import Chains
  import G = Graphs

  function TaskIdFor(node: string): TaskId {
    "task-" + node
  }

  lemma TaskIdInjective(a: string, b: string)
    requires TaskIdFor(a) == TaskIdFor(b)
    ensures a == b
  {
    assert TaskIdFor(a)[5..] == a && TaskIdFor(b)[5..] == b;
  }

  function Renamed(ids: seq<string>): (r: seq<TaskId>)
    ensures |r| == |ids| && forall i :: 0 <= i < |ids| ==> r[i] == TaskIdFor(ids[i])
  {
    seq(|ids|, i requires 0 <= i < |ids| => TaskIdFor(ids[i]))
  }

  function DefaultOutput(stage: Stage): OutputDecl {
    var (name, kind) := match stage
      case CloneRepository => ("repository", "repository")
      case PrepareEnvironment => ("environment", "environment")
      case DownloadDataset => ("dataset", "dataset")
      case DownloadCheckpoints => ("checkpoint", "checkpoint")
      case GenerateConfig => ("configuration", "configuration")
      case Training => ("training_output", "training")
      case Evaluation => ("evaluation_output", "evaluation")
      case Comparison => ("report", "report");
    OutputDecl(name, kind, true, RuntimeRun, "presence", "")
  }

  function BindingInput(n: Node, id: string): InputRef {
    InputRef("binding:" + id, None, "binding", n.spec == None, "binding")
  }

  function AssetInput(id: string): InputRef {
    InputRef("asset:" + id, None, "asset", false, "asset")
  }

  /** _inputs_for_node: bindings first, then assets. */
  method InputsForNode(n: Node) returns (refs: seq<InputRef>)
    ensures refs == Inputs(n)
  {
    refs := [];
    for i := 0 to |n.bindingIds|
      invariant refs == seq(i, k requires 0 <= k < i => BindingInput(n, n.bindingIds[k]))
    {
      refs := refs + [BindingInput(n, n.bindingIds[i])];
    }
    var bindings := refs;
    for i := 0 to |n.assetIds|
      invariant refs == bindings + seq(i, k requires 0 <= k < i => AssetInput(n.assetIds[k]))
    {
      refs := refs + [AssetInput(n.assetIds[i])];
    }
  }

  function Inputs(n: Node): seq<InputRef> {
    seq(|n.bindingIds|, k requires 0 <= k < |n.bindingIds| => BindingInput(n, n.bindingIds[k]))
      + seq(|n.assetIds|, k requires 0 <= k < |n.assetIds| => AssetInput(n.assetIds[k]))
  }

  function TaskFor(n: Node): Task {
    Task(TaskIdFor(n.id), Renamed(n.dependsOn), Inputs(n), [DefaultOutput(n.stage)],
      Payload(n.title, if n.rationale != "" then n.rationale else n.title, n.stage, n.bindingIds, n.assetIds, n.spec))
  }

  predicate Blank(s: string) {
    forall i :: 0 <= i < |s| ==> s[i] in " \t\n\r\U{0B}\U{0C}"
  }

  /** What the task model's own validator demands of a node: a name, and no repeated dependency or input. */
  ghost predicate Buildable(n: Node) {
    !Blank(n.title) && Distinct(n.dependsOn) && Distinct(n.bindingIds) && Distinct(n.assetIds)
  }

  /** The one output a stage promises: its name, and what kind of artifact it is. */
  const STAGE_OUTPUTS: map<Stage, (string, string)> := map[
    CloneRepository := ("repository", "repository"),
    PrepareEnvironment := ("environment", "environment"),
    DownloadDataset := ("dataset", "dataset"),
    DownloadCheckpoints := ("checkpoint", "checkpoint"),
    GenerateConfig := ("configuration", "configuration"),
    Training := ("training_output", "training"),
    Evaluation := ("evaluation_output", "evaluation"),
    Comparison := ("report", "report")
  ]

  /** Everything a task takes over from its node. */
  ghost predicate MadeFrom(task: Task, n: Node) {
    && task.id == "task-" + n.id
    && |task.deps| == |n.dependsOn| && (forall i :: 0 <= i < |task.deps| ==> task.deps[i] == "task-" + n.dependsOn[i])
    && task.payload.name == n.title
    && task.payload.description == (if n.rationale == "" then n.title else n.rationale)
    && task.payload.stage == n.stage && task.payload.spec == n.spec
    && task.payload.bindings == n.bindingIds && task.payload.assets == n.assetIds
    && |task.inputs| == |n.bindingIds| + |n.assetIds|
    && (forall i :: 0 <= i < |n.bindingIds| ==>
          task.inputs[i] == InputRef("binding:" + n.bindingIds[i], None, "binding", n.spec.None?, "binding"))
    && (forall i :: 0 <= i < |n.assetIds| ==>
          task.inputs[|n.bindingIds| + i] == InputRef("asset:" + n.assetIds[i], None, "asset", false, "asset"))
    && |task.outputs| == 1 && n.stage in STAGE_OUTPUTS
    && task.outputs[0].name == STAGE_OUTPUTS[n.stage].0 && task.outputs[0].kind == STAGE_OUTPUTS[n.stage].1
    && task.outputs[0].required && task.outputs[0].scope == RuntimeRun && task.outputs[0].rule == "presence"
    && task.outputs[0].hint == ""
  }

  lemma StageOutput(stage: Stage)
    ensures stage in STAGE_OUTPUTS
    ensures DefaultOutput(stage)
         == OutputDecl(STAGE_OUTPUTS[stage].0, STAGE_OUTPUTS[stage].1, true, RuntimeRun, "presence", "")
  {
  }

  lemma TaskIsMade(n: Node)
    ensures MadeFrom(TaskFor(n), n)
  {
    StageOutput(n.stage);
    hide DefaultOutput;
  }

  /** A task says which node it was made from, up to what the node keeps to itself. */
  lemma MadeAlike(n: Node, n': Node)
    ensures TaskFor(n) == TaskFor(n') <==> SameWork(n, n')
  {
    TaskIsMade(n);
    TaskIsMade(n');
    hide DefaultOutput, TaskFor;
    if TaskFor(n) == TaskFor(n') {
      TaskIdInjective(n.id, n'.id);
      forall i | 0 <= i < |n.dependsOn|
        ensures n.dependsOn[i] == n'.dependsOn[i]
      {
        TaskIdInjective(n.dependsOn[i], n'.dependsOn[i]);
      }
    }
    if SameWork(n, n') {
      SameWorkMakes(n, n');
    }
  }

  lemma SameWorkMakes(n: Node, n': Node)
    requires SameWork(n, n')
    ensures TaskFor(n) == TaskFor(n')
  {
    assert Inputs(n) == Inputs(n');
    hide DefaultOutput;
  }

  /** Two nodes that ask for the same work: only a rationale that repeats the title may be missing in one of them. */
  ghost predicate SameWork(n: Node, n': Node) {
    && n.id == n'.id && n.dependsOn == n'.dependsOn && n.stage == n'.stage && n.title == n'.title
    && (n.rationale == n'.rationale || {n.rationale, n'.rationale} == {"", n.title})
    && n.bindingIds == n'.bindingIds && n.assetIds == n'.assetIds && n.spec == n'.spec
  }

  /** The event that announces the task of a node. */
  ghost predicate CreatedAs(e: Event, n: Node, run: RunId, sequence: nat) {
    && e.kind == TaskCreated && e.task == "task-" + n.id && e.runId == run && e.sequence == sequence
    && e.id == CreatedId(run, e.task)
  }

  lemma AllMade(nodes: seq<Node>, run: RunId, first: nat)
    ensures forall i :: 0 <= i < |nodes| ==> MadeFrom(Tasks(nodes)[i], nodes[i])
    ensures var events := CreatedFor(run, nodes, first);
            |events| == |nodes| && forall i :: 0 <= i < |nodes| ==> CreatedAs(events[i], nodes[i], run, first + i)
  {
    hide MadeFrom, TaskFor;
    forall i | 0 <= i < |nodes|
      ensures MadeFrom(Tasks(nodes)[i], nodes[i])
    {
      TaskIsMade(nodes[i]);
    }
  }

  /** What decomposition finds wrong with a graph, in the order of its checks. */
  ghost predicate Faulty(g: Graph, err: GraphError) {
    match err
    case EmptyIdentity => g.graphId == "" || g.strategyId == ""
    case NoNodes => g.graphId != "" && g.strategyId != "" && g.nodes == []
    case InvalidTask => GraphOk(g) && exists i :: 0 <= i < |g.nodes| && !Buildable(g.nodes[i])
    case _ => g.graphId != "" && g.strategyId != "" && g.nodes != [] && Refused(NodeEntries(g.nodes), err)
  }

  datatype Decomposed = Decomposed(tasks: seq<Task>, events: seq<Event>)

  function Tasks(nodes: seq<Node>): (r: seq<Task>)
    ensures |r| == |nodes| && forall i :: 0 <= i < |nodes| ==> r[i] == TaskFor(nodes[i])
  {
    seq(|nodes|, i requires 0 <= i < |nodes| => TaskFor(nodes[i]))
  }

  function CreatedFor(run: RunId, nodes: seq<Node>, first: nat): seq<Event> {
    Chains.CreatedEvents(run, Renamed(IdsOf(NodeEntries(nodes))), first)
  }

  /**
    decompose_execution_graph: succeeds exactly on accepted graphs whose nodes make valid tasks, with one
    task and one TASK_CREATED event a node, in node order.
  */
  method Decompose(g: Graph, run: RunId, first: nat) returns (r: Result<Decomposed, GraphError>)
    ensures r.Ok? <==> GraphOk(g) && forall i :: 0 <= i < |g.nodes| ==> Buildable(g.nodes[i])
    ensures r.Err? ==> Faulty(g, r.error)
    ensures r.Ok? ==> r.value.tasks == Tasks(g.nodes) && r.value.events == CreatedFor(run, g.nodes, first)
    ensures r.Ok? ==> |r.value.tasks| == |g.nodes|
                      && forall i :: 0 <= i < |g.nodes| ==> MadeFrom(r.value.tasks[i], g.nodes[i])
    ensures r.Ok? ==> |r.value.events| == |g.nodes|
                      && forall i :: 0 <= i < |g.nodes| ==> CreatedAs(r.value.events[i], g.nodes[i], run, first + i)
  {
    hide MadeFrom, CreatedAs, Refused;
    var err := ValidateExecutionGraph(g);
    if err.Some? {
      return Err(err.value);
    }
    var tasks, events := [], [];
    var sequence := first;
    for i := 0 to |g.nodes|
      invariant sequence == first + i && |tasks| == i && |events| == i
      invariant forall j :: 0 <= j < i ==> Buildable(g.nodes[j]) && tasks[j] == TaskFor(g.nodes[j])
      invariant forall j :: 0 <= j < i ==> events[j] == Chains.CreatedEvent(run, TaskIdFor(g.nodes[j].id), first + j)
    {
      var n := g.nodes[i];
      var inputs := InputsForNode(n);
      var deps := HasDuplicates(n.dependsOn);
      var bindings := HasDuplicates(n.bindingIds);
      var assets := HasDuplicates(n.assetIds);
      if Blank(n.title) || deps || bindings || assets {
        return Err(InvalidTask);
      }
      tasks := tasks + [TaskFor(n).(inputs := inputs)];
      var taskId := TaskIdFor(n.id);
      events := events + [Event(CreatedId(run, taskId), TaskCreated, run, sequence, taskId, None, NoNote, None)];
      sequence := sequence + 1;
    }
    assert tasks == Tasks(g.nodes) && events == CreatedFor(run, g.nodes, first);
    AllMade(g.nodes, run, first);
    var bad := ValidateTaskDag(tasks);
    DecomposedIsAccepted(g.nodes);
    assert bad == None;
    return Ok(Decomposed(tasks, events));
  }

  // ---- The task DAG is the graph, renamed ----

  lemma RenamedDeps(nodes: seq<Node>)
    requires DistinctEntries(NodeEntries(nodes)) && G.Closed(DepsOf(NodeEntries(nodes)))
    ensures var g, h := DepsOf(NodeEntries(nodes)), DepsOf(TaskEntries(Tasks(nodes)));
            && DistinctEntries(TaskEntries(Tasks(nodes)))
            && (forall n :: n in g ==> TaskIdFor(n) in h && h[TaskIdFor(n)] == Renamed(g[n]))
            && (forall t :: t in h ==> exists n :: n in g && t == TaskIdFor(n))
  {
    var es, fs := NodeEntries(nodes), TaskEntries(Tasks(nodes));
    var g, h := DepsOf(es), DepsOf(fs);
    forall i, j | 0 <= i < j < |fs|
      ensures fs[i].id != fs[j].id
    {
      assert es[i].id != es[j].id;
      if fs[i].id == fs[j].id {
        TaskIdInjective(es[i].id, es[j].id);
      }
    }
    forall n | n in g
      ensures TaskIdFor(n) in h && h[TaskIdFor(n)] == Renamed(g[n])
    {
      DepsDomain(es, n);
      var i :| 0 <= i < |es| && IdsOf(es)[i] == n;
      DepsAt(es, i);
      DepsAt(fs, i);
    }
    forall t | t in h
      ensures exists n :: n in g && t == TaskIdFor(n)
    {
      DepsDomain(fs, t);
      var i :| 0 <= i < |fs| && IdsOf(fs)[i] == t;
      DepsAt(es, i);
      assert t == TaskIdFor(es[i].id);
    }
  }

  function Bare(t: TaskId): string {
    if |t| < 5 then t else t[5..]
  }

  lemma BareId(n: string)
    ensures Bare(TaskIdFor(n)) == n
  {
  }

  lemma EdgeBack(nodes: seq<Node>, n: string, u: TaskId)
    requires DistinctEntries(NodeEntries(nodes)) && G.Closed(DepsOf(NodeEntries(nodes)))
    requires var h := DepsOf(TaskEntries(Tasks(nodes))); TaskIdFor(n) in h && u in h[TaskIdFor(n)]
    ensures var g := DepsOf(NodeEntries(nodes)); n in g && exists d :: d in g[n] && u == TaskIdFor(d)
  {
    var g, h := DepsOf(NodeEntries(nodes)), DepsOf(TaskEntries(Tasks(nodes)));
    RenamedDeps(nodes);
    var m :| m in g && TaskIdFor(n) == TaskIdFor(m);
    TaskIdInjective(n, m);
    hide TaskIdFor, DepsOf, NodeEntries, TaskEntries;
    var k :| 0 <= k < |h[TaskIdFor(n)]| && h[TaskIdFor(n)][k] == u;
    assert g[n][k] in g[n];
  }

  lemma TaskBack(nodes: seq<Node>, t: TaskId)
    requires DistinctEntries(NodeEntries(nodes)) && G.Closed(DepsOf(NodeEntries(nodes)))
    requires t in DepsOf(TaskEntries(Tasks(nodes)))
    ensures Bare(t) in DepsOf(NodeEntries(nodes)) && TaskIdFor(Bare(t)) == t
  {
    RenamedDeps(nodes);
    hide DepsOf, NodeEntries, TaskEntries, TaskIdFor, Bare, DistinctEntries;
    var n :| n in DepsOf(NodeEntries(nodes)) && t == TaskIdFor(n);
    BareId(n);
  }

  lemma RankTasks(nodes: seq<Node>, rank: map<string, nat>)
    requires DistinctEntries(NodeEntries(nodes)) && G.Closed(DepsOf(NodeEntries(nodes)))
    requires G.Ranking(DepsOf(NodeEntries(nodes)), rank)
    ensures G.Acyclic(DepsOf(TaskEntries(Tasks(nodes))))
  {
    var g, h := DepsOf(NodeEntries(nodes)), DepsOf(TaskEntries(Tasks(nodes)));
    TasksClosed(nodes);
    hide DepsOf, NodeEntries, TaskEntries, TaskIdFor, Bare, DistinctEntries;
    forall t | t in h
      ensures Bare(t) in g && TaskIdFor(Bare(t)) == t
    {
      TaskBack(nodes, t);
    }
    var renamed := map t | t in h :: rank[Bare(t)];
    forall t, u | t in h && u in h[t]
      ensures u in renamed && renamed[u] < renamed[t]
    {
      EdgeBack(nodes, Bare(t), u);
      var d :| d in g[Bare(t)] && u == TaskIdFor(d);
      BareId(d);
    }
    assert G.Ranking(h, renamed);
  }

  /** An accepted graph decomposes to an accepted task DAG. */
  lemma DecomposedIsAccepted(nodes: seq<Node>)
    requires EntriesOk(NodeEntries(nodes))
    ensures EntriesOk(TaskEntries(Tasks(nodes)))
  {
    var g, h := DepsOf(NodeEntries(nodes)), DepsOf(TaskEntries(Tasks(nodes)));
    RenamedDeps(nodes);
    var rank :| G.Ranking(g, rank);
    RankTasks(nodes, rank);
    TasksClosed(nodes);
  }

  lemma TasksClosed(nodes: seq<Node>)
    requires DistinctEntries(NodeEntries(nodes)) && G.Closed(DepsOf(NodeEntries(nodes)))
    ensures G.Closed(DepsOf(TaskEntries(Tasks(nodes))))
  {
    var g, h := DepsOf(NodeEntries(nodes)), DepsOf(TaskEntries(Tasks(nodes)));
    RenamedDeps(nodes);
    forall t, d | t in h && d in h[t]
      ensures d in h
    {
      var n :| n in g && t == TaskIdFor(n);
      var k :| 0 <= k < |h[t]| && h[t][k] == d;
      assert g[n][k] in g[n];
    }
  }

  /** Ancestors in the task DAG are exactly the renamed ancestors in the graph. */
  lemma SameAncestors(nodes: seq<Node>, n: string, a: string)
    requires EntriesOk(NodeEntries(nodes))
    ensures G.Reaches(DepsOf(NodeEntries(nodes)), n, a)
       <==> G.Reaches(DepsOf(TaskEntries(Tasks(nodes))), TaskIdFor(n), TaskIdFor(a))
  {
    hide G.Reaches, EntriesOk, DepsOf, NodeEntries, TaskEntries, TaskIdFor;
    if G.Reaches(DepsOf(NodeEntries(nodes)), n, a) {
      AncestorForth(nodes, n, a);
    }
    if G.Reaches(DepsOf(TaskEntries(Tasks(nodes))), TaskIdFor(n), TaskIdFor(a)) {
      AncestorBack(nodes, n, a);
    }
  }

  lemma AncestorForth(nodes: seq<Node>, n: string, a: string)
    requires EntriesOk(NodeEntries(nodes)) && G.Reaches(DepsOf(NodeEntries(nodes)), n, a)
    ensures G.Reaches(DepsOf(TaskEntries(Tasks(nodes))), TaskIdFor(n), TaskIdFor(a))
  {
    hide EntriesOk, DepsOf, NodeEntries, TaskEntries, TaskIdFor;
    var path :| G.IsPath(DepsOf(NodeEntries(nodes)), path) && path[0] == n && path[|path| - 1] == a;
    PathForth(nodes, path);
    var renamed := Renamed(path);
    assert renamed[0] == TaskIdFor(n) && renamed[|renamed| - 1] == TaskIdFor(a);
  }

  lemma AncestorBack(nodes: seq<Node>, n: string, a: string)
    requires EntriesOk(NodeEntries(nodes))
    requires G.Reaches(DepsOf(TaskEntries(Tasks(nodes))), TaskIdFor(n), TaskIdFor(a))
    ensures G.Reaches(DepsOf(NodeEntries(nodes)), n, a)
  {
    hide EntriesOk, DepsOf, NodeEntries, TaskEntries, TaskIdFor;
    var h := DepsOf(TaskEntries(Tasks(nodes)));
    var path :| G.IsPath(h, path) && path[0] == TaskIdFor(n) && path[|path| - 1] == TaskIdFor(a);
    PathBack(nodes, path, n, a);
  }

  lemma PathForth(nodes: seq<Node>, path: seq<string>)
    requires EntriesOk(NodeEntries(nodes)) && G.IsPath(DepsOf(NodeEntries(nodes)), path)
    ensures G.IsPath(DepsOf(TaskEntries(Tasks(nodes))), Renamed(path))
  {
    var g, h := DepsOf(NodeEntries(nodes)), DepsOf(TaskEntries(Tasks(nodes)));
    RenamedDeps(nodes);
    hide DepsOf, NodeEntries, TaskEntries, TaskIdFor, EntriesOk;
    var renamed := Renamed(path);
    forall i | 0 <= i < |renamed| - 1
      ensures renamed[i] in h && renamed[i + 1] in h[renamed[i]]
    {
      assert path[i + 1] in g[path[i]];
      var k :| 0 <= k < |g[path[i]]| && g[path[i]][k] == path[i + 1];
      assert h[renamed[i]][k] == renamed[i + 1];
    }
  }

  lemma {:induction false} PathBack(nodes: seq<Node>, path: seq<TaskId>, n: string, a: string)
    requires EntriesOk(NodeEntries(nodes))
    requires G.IsPath(DepsOf(TaskEntries(Tasks(nodes))), path) && path[0] == TaskIdFor(n)
    requires path[|path| - 1] == TaskIdFor(a)
    ensures G.Reaches(DepsOf(NodeEntries(nodes)), n, a)
    decreases |path|
  {
    hide TaskIdFor, DepsOf, NodeEntries, TaskEntries, DistinctEntries, G.Acyclic, G.Reaches;
    var g := DepsOf(NodeEntries(nodes));
    EdgeBack(nodes, n, path[1]);
    var d :| d in g[n] && path[1] == TaskIdFor(d);
    if |path| == 2 {
      TaskIdInjective(d, a);
      G.ReachesDirect(g, n, a);
    } else {
      assert G.IsPath(DepsOf(TaskEntries(Tasks(nodes))), path[1..]);
      PathBack(nodes, path[1..], d, a);
      G.ReachesStep(g, n, d, a);
    }
  }

  // ---- The plan the engine runs ----

  function TaskMap(tasks: seq<Task>): map<TaskId, Task> {
    if tasks == [] then map[] else TaskMap(tasks[..|tasks| - 1])[tasks[|tasks| - 1].id := tasks[|tasks| - 1]]
  }

  function PlanFor(g: Graph, run: RunId): Plan {
    var tasks := Tasks(g.nodes);
    Plan(Dag(run, TaskMap(tasks)), IdsOf(TaskEntries(tasks)))
  }

  lemma {:induction false} TaskMapAt(tasks: seq<Task>, i: nat)
    requires DistinctEntries(TaskEntries(tasks)) && i < |tasks|
    ensures tasks[i].id in TaskMap(tasks) && TaskMap(tasks)[tasks[i].id] == tasks[i]
  {
    if i < |tasks| - 1 {
      var es := TaskEntries(tasks);
      assert es[i].id != es[|es| - 1].id;
      assert TaskEntries(tasks[..|tasks| - 1]) == es[..|es| - 1];
      TaskMapAt(tasks[..|tasks| - 1], i);
    }
  }

  lemma {:induction false} TaskMapHolds(tasks: seq<Task>, t: TaskId) returns (i: nat)
    requires t in TaskMap(tasks)
    ensures i < |tasks| && tasks[i].id == t && TaskMap(tasks)[t] == tasks[i]
  {
    if tasks[|tasks| - 1].id == t {
      i := |tasks| - 1;
    } else {
      i := TaskMapHolds(tasks[..|tasks| - 1], t);
    }
  }

  lemma {:induction false} TaskMapDomain(tasks: seq<Task>, t: TaskId)
    ensures t in TaskMap(tasks) <==> t in IdsOf(TaskEntries(tasks))
  {
    if tasks != [] {
      TaskMapDomain(tasks[..|tasks| - 1], t);
      assert IdsOf(TaskEntries(tasks)) == IdsOf(TaskEntries(tasks[..|tasks| - 1])) + [tasks[|tasks| - 1].id];
    }
  }

  lemma TaskMapDeps(tasks: seq<Task>, t: TaskId)
    requires DistinctEntries(TaskEntries(tasks))
    ensures t in TaskMap(tasks) <==> t in DepsOf(TaskEntries(tasks))
    ensures t in TaskMap(tasks) ==> TaskMap(tasks)[t].id == t && DepsOf(TaskEntries(tasks))[t] == TaskMap(tasks)[t].deps
  {
    DepsDomain(TaskEntries(tasks), t);
    TaskMapDomain(tasks, t);
    if t in DepsOf(TaskEntries(tasks)) {
      var i :| 0 <= i < |tasks| && IdsOf(TaskEntries(tasks))[i] == t;
      TaskMapAt(tasks, i);
      DepsAt(TaskEntries(tasks), i);
    }
  }

  lemma PlanRanks(tasks: seq<Task>, run: RunId)
    requires EntriesOk(TaskEntries(tasks)) && "" !in TaskMap(tasks)
    ensures ValidDag(Dag(run, TaskMap(tasks)))
  {
    hide EntriesOk, DepsOf, TaskMap, TaskEntries, Ranks;
    AcceptedParts(TaskEntries(tasks));
    forall t
      ensures t in TaskMap(tasks) <==> t in DepsOf(TaskEntries(tasks))
      ensures t in TaskMap(tasks) ==>
            TaskMap(tasks)[t].id == t && DepsOf(TaskEntries(tasks))[t] == TaskMap(tasks)[t].deps
    {
      TaskMapDeps(tasks, t);
    }
    AcceptedRanks(TaskMap(tasks), TaskEntries(tasks));
  }

  lemma AcceptedRanks(m: map<TaskId, Task>, es: seq<Entry>)
    requires EntriesOk(es)
    requires forall t :: t in m <==> t in DepsOf(es)
    requires forall t :: t in m ==> DepsOf(es)[t] == m[t].deps
    ensures exists rank :: Ranks(m, rank)
    ensures forall t, d :: t in m && d in m[t].deps ==> d in m
  {
    hide DepsOf;
    var rank :| G.Ranking(DepsOf(es), rank);
    assert Ranks(m, rank);
  }

  lemma NoBlankTask(nodes: seq<Node>)
    ensures "" !in TaskMap(Tasks(nodes))
  {
    if "" in TaskMap(Tasks(nodes)) {
      var i := TaskMapHolds(Tasks(nodes), "");
    }
  }

  /** The tasks of the plan are exactly the decomposed nodes. */
  lemma PlanTask(g: Graph, run: RunId, t: TaskId) returns (i: nat)
    requires t in PlanFor(g, run).dag.tasks
    ensures i < |g.nodes| && t == TaskIdFor(g.nodes[i].id) && PlanFor(g, run).dag.tasks[t] == TaskFor(g.nodes[i])
  {
    i := TaskMapHolds(Tasks(g.nodes), t);
  }

  lemma StaticNode(n: Node)
    ensures var task := TaskFor(n);
            && |task.outputs| == 1
            && forall i :: 0 <= i < |task.inputs| ==> task.inputs[i].artifactId == None
  {
  }

  /** Every successfully decomposed graph gives a valid plan with static inputs. */
  lemma DecomposedPlanIsValid(g: Graph, run: RunId)
    requires GraphOk(g)
    ensures ValidPlan(PlanFor(g, run))
  {
    hide TaskFor, EntriesOk, TaskMap, DepsOf;
    var tasks := Tasks(g.nodes);
    var p := PlanFor(g, run);
    DecomposedIsAccepted(g.nodes);
    AcceptedParts(TaskEntries(tasks));
    NoBlankTask(g.nodes);
    PlanRanks(tasks, run);
    IdsDistinct(TaskEntries(tasks));
    forall t
      ensures t in p.order <==> t in p.dag.tasks
    {
      DepsDomain(TaskEntries(tasks), t);
      TaskMapDeps(tasks, t);
    }
    assert p.order[0] == tasks[0].id;
    forall t | t in p.dag.tasks
      ensures |p.dag.tasks[t].outputs| == 1
      ensures forall i :: 0 <= i < |p.dag.tasks[t].inputs| ==> p.dag.tasks[t].inputs[i].artifactId == None
    {
      var i := PlanTask(g, run, t);
      StaticNode(g.nodes[i]);
    }
    hide ValidDag;
    assert Distinct(p.order);
  }

  lemma AcceptedParts(es: seq<Entry>)
    requires EntriesOk(es)
    ensures DistinctEntries(es)
  {
  }

  /** A decomposed task can never be fed exactly when its node has bindings but no executable spec. */
  lemma StarvedNode(n: Node)
    ensures Machine.Starved(TaskFor(n)) <==> n.spec == None && n.bindingIds != []
  {
    var task := TaskFor(n);
    if n.spec == None && n.bindingIds != [] {
      assert task.inputs[0] == BindingInput(n, n.bindingIds[0]);
    }
  }
}
