/** The static gate in front of the engine, and what it guarantees about every run behind it. */
module Readiness {
  import opened Model
  import opened Planning
  import opened Trace
  import opened Machine
  import opened Invariants
  import opened Chains
  import Decomposition
  import G = Graphs

  datatype MatStatus = MatReady | MatBlocked | MatUnsupported

  datatype Severity = ErrorSeverity | WarningSeverity

  datatype Issue = Issue(code: string, severity: Severity, node: string)

  datatype NodeResult = NodeResult(nodeId: string, status: MatStatus, issues: seq<Issue>)

  datatype Report = Report(status: MatStatus, nodeResults: seq<NodeResult>, errors: seq<Issue>)

  datatype ReadinessError = UnknownNode | InconsistentReport

  // ---- Ancestors ----

  /** A set holding the dependencies of `n` and of its own members holds everything `n` reaches. */
  lemma {:induction false} CoversPath(g: G.Deps, s: set<string>, path: seq<string>)
    requires G.IsPath(g, path) && (forall d :: d in g[path[0]] ==> d in s)
    requires forall x, d :: x in s && x in g && d in g[x] ==> d in s
    ensures path[|path| - 1] in s
    decreases |path|
  {
    if |path| > 2 {
      assert path[1] in s;
      CoversPath(g, s, path[1..]);
    }
  }

  /**
    _ancestor_ids: exactly the ids reachable over dependencies; None when the walk meets an id that is
    not a node, which happens exactly when such an id is reachable.
  */
  method AncestorIds(g: G.Deps, n: string) returns (r: Option<set<string>>)
    requires n in g
    ensures r.Some? ==> forall a :: a in r.value <==> G.Reaches(g, n, a)
    ensures r == None <==> exists a :: G.Reaches(g, n, a) && a !in g
  {
    hide G.Reaches;
    var ancestors: set<string> := {};
    var pending := g[n];
    forall d | d in g[n]
      ensures G.Reaches(g, n, d)
    {
      G.ReachesDirect(g, n, d);
    }
    while pending != []
      invariant ancestors <= g.Keys
      invariant forall x :: x in pending || x in ancestors ==> G.Reaches(g, n, x)
      invariant forall d :: d in g[n] ==> d in ancestors || d in pending
      invariant forall x, d :: x in ancestors && d in g[x] ==> d in ancestors || d in pending
      decreases g.Keys - ancestors, |pending|
    {
      var current := pending[|pending| - 1];
      var rest := pending[..|pending| - 1];
      assert pending == rest + [current];
      pending := rest;
      if current in ancestors {
        continue;
      }
      if current !in g {
        return None;
      }
      ghost var before := ancestors;
      ancestors := ancestors + {current};
      pending := pending + g[current];
      forall d | d in g[current]
        ensures G.Reaches(g, n, d)
      {
        G.ReachesExtend(g, n, current, d);
      }
      assert current in g.Keys - before && current !in g.Keys - ancestors;
    }
    AllReached(g, n, ancestors);
    return Some(ancestors);
  }

  lemma AllReached(g: G.Deps, n: string, s: set<string>)
    requires n in g && (forall d :: d in g[n] ==> d in s)
    requires forall x, d :: x in s && x in g && d in g[x] ==> d in s
    ensures forall a :: G.Reaches(g, n, a) ==> a in s
  {
    forall a | G.Reaches(g, n, a)
      ensures a in s
    {
      var path :| G.IsPath(g, path) && path[0] == n && path[|path| - 1] == a;
      CoversPath(g, s, path);
    }
  }

  // ---- The readiness validator ----

  predicate Preparation(s: Stage) {
    s in {CloneRepository, DownloadDataset, DownloadCheckpoints, GenerateConfig}
  }

  function ExpectedOutput(s: Stage): string {
    Decomposition.DefaultOutput(s).name
  }

  /** The clone recorded last for a directory among the first `k` nodes. */
  function Producer(nodes: seq<Node>, k: nat, dir: string): Option<string>
    requires k <= |nodes|
  {
    if k == 0 then None
    else
      var n := nodes[k - 1];
      if n.spec.Some? && n.stage == CloneRepository && n.spec.value.target == Some(dir) then Some(n.id)
      else Producer(nodes, k - 1, dir)
  }

  function Names(paths: seq<(string, string)>): set<string> {
    set i | 0 <= i < |paths| :: paths[i].0
  }

  /** A clone node that is known to clone into `dir`. */
  predicate ClonesInto(n: Node, dir: string) {
    n.stage == CloneRepository && n.spec.Some? && n.spec.value.target == Some(dir)
  }

  /** The producer of a directory is the last node that clones into it. */
  lemma {:induction false} ProducerIsLast(nodes: seq<Node>, k: nat, dir: string)
    requires k <= |nodes|
    ensures match Producer(nodes, k, dir)
            case None => forall i :: 0 <= i < k ==> !ClonesInto(nodes[i], dir)
            case Some(id) =>
              exists i ::
                && 0 <= i < k && ClonesInto(nodes[i], dir) && nodes[i].id == id
                && forall j :: i < j < k ==> !ClonesInto(nodes[j], dir)
  {
    if k > 0 && !ClonesInto(nodes[k - 1], dir) {
      ProducerIsLast(nodes, k - 1, dir);
    }
  }

  predicate NodeComplete(n: Node) {
    && n.spec.Some?
    && Names(n.spec.value.artifactPaths) == {ExpectedOutput(n.stage)}
    && (Preparation(n.stage) ==> n.spec.value.target.Some?)
  }

  /** A node that works in a cloned directory depends, directly or not, on the clone. */
  ghost predicate ProducerIsAncestor(g: Graph, n: Node) {
    n.spec.Some? && !Preparation(n.stage) ==>
      var producer := Producer(g.nodes, |g.nodes|, n.spec.value.workingDirectory);
      producer.Some? ==> G.Reaches(DepsOf(NodeEntries(g.nodes)), n.id, producer.value)
  }

  function ResultIds(results: seq<NodeResult>): set<string> {
    set i | 0 <= i < |results| :: results[i].nodeId
  }

  function GraphIds(g: Graph): set<string> {
    set i | 0 <= i < |g.nodes| :: g.nodes[i].id
  }

  predicate AllReady(results: seq<NodeResult>) {
    forall i :: 0 <= i < |results| ==> results[i].status == MatReady
  }

  predicate NoErrorIssues(results: seq<NodeResult>) {
    forall i, j :: 0 <= i < |results| && 0 <= j < |results[i].issues| ==> results[i].issues[j].severity != ErrorSeverity
  }

  /** Exactly when the report says READY. */
  ghost predicate ReadyOk(g: Graph, results: seq<NodeResult>) {
    && g.materializationId != "" && GraphIds(g) == ResultIds(results) && results != []
    && (forall i :: 0 <= i < |g.nodes| ==> NodeComplete(g.nodes[i]) && ProducerIsAncestor(g, g.nodes[i]))
    && AllReady(results) && NoErrorIssues(results)
  }

  function NodeErrors(n: Node): seq<Issue> {
    if n.spec == None then [Issue("missing_execution_spec", ErrorSeverity, n.id)]
    else
      (if Names(n.spec.value.artifactPaths) != {ExpectedOutput(n.stage)} then [Issue("artifact_contract_mismatch",
          ErrorSeverity, n.id)] else [])
        + (if Preparation(n.stage) && n.spec.value.target == None then [Issue("invalid_preparation_request",
            ErrorSeverity, n.id)] else [])
  }

  /** What is wrong with a node by itself. */
  predicate NodeIssue(n: Node, issue: Issue) {
    && issue.node == n.id && issue.severity == ErrorSeverity
    && match issue.code
       case "missing_execution_spec" => n.spec.None?
       case "artifact_contract_mismatch" =>
         && n.spec.Some? && n.stage in Decomposition.STAGE_OUTPUTS
         && Names(n.spec.value.artifactPaths) != {Decomposition.STAGE_OUTPUTS[n.stage].0}
       case "invalid_preparation_request" =>
         && n.stage in {CloneRepository, DownloadDataset, DownloadCheckpoints, GenerateConfig}
         && n.spec.Some? && n.spec.value.target.None?
       case _ => false
  }

  /** A node works in a directory that a clone which does not precede it produces. */
  ghost predicate LateIssue(g: Graph, n: Node, issue: Issue) {
    && issue == Issue("future_reference_without_producer_dependency", ErrorSeverity, n.id)
    && n.spec.Some? && n.stage !in {CloneRepository, DownloadDataset, DownloadCheckpoints, GenerateConfig}
    && !ProducerIsAncestor(g, n)
  }

  /** An error that a node result which is not ready brings. */
  predicate ResultIssue(result: NodeResult, issue: Issue) {
    result.status != MatReady && issue in result.issues && issue.severity == ErrorSeverity
  }

  /** Everything the report has to list, and nothing else. */
  ghost predicate Finding(g: Graph, results: seq<NodeResult>, issue: Issue) {
    || (issue == Issue("missing_materialization_id", ErrorSeverity, "") && g.materializationId == "")
    || (issue == Issue("node_result_mismatch", ErrorSeverity, "") && GraphIds(g) != ResultIds(results))
    || NodeAmong(g, |g.nodes|, issue) || LateAmong(g, |g.nodes|, issue) || ResultAmong(results, |results|, issue)
  }

  /** An issue of one of the first `k` nodes or results. */
  ghost predicate NodeAmong(g: Graph, k: nat, issue: Issue)
    requires k <= |g.nodes|
  {
    exists i :: 0 <= i < k && NodeIssue(g.nodes[i], issue)
  }

  ghost predicate LateAmong(g: Graph, k: nat, issue: Issue)
    requires k <= |g.nodes|
  {
    exists i :: 0 <= i < k && LateIssue(g, g.nodes[i], issue)
  }

  ghost predicate ResultAmong(results: seq<NodeResult>, k: nat, issue: Issue)
    requires k <= |results|
  {
    exists i :: 0 <= i < k && ResultIssue(results[i], issue)
  }

  lemma AmongNodes(g: Graph, k: nat)
    requires k <= |g.nodes|
    ensures forall issue :: NodeAmong(g, k, issue) <==>
              k > 0 && (NodeAmong(g, k - 1, issue) || NodeIssue(g.nodes[k - 1], issue))
  {
    hide NodeIssue;
  }

  lemma AmongLate(g: Graph, k: nat)
    requires k <= |g.nodes|
    ensures forall issue :: LateAmong(g, k, issue) <==>
              k > 0 && (LateAmong(g, k - 1, issue) || LateIssue(g, g.nodes[k - 1], issue))
  {
    hide LateIssue;
  }

  lemma AmongResults(results: seq<NodeResult>, k: nat)
    requires k <= |results|
    ensures forall issue :: ResultAmong(results, k, issue) <==>
              k > 0 && (ResultAmong(results, k - 1, issue) || ResultIssue(results[k - 1], issue))
  {
    hide ResultIssue;
  }

  lemma LateOne(g: Graph, n: Node)
    ensures forall issue :: LateIssue(g, n, issue) <==>
              && issue == Issue("future_reference_without_producer_dependency", ErrorSeverity, n.id)
              && !ProducerIsAncestor(g, n)
  {
  }

  lemma NodeErrorsExact(n: Node)
    ensures NodeErrors(n) == [] <==> NodeComplete(n)
    ensures forall issue :: issue in NodeErrors(n) <==> NodeIssue(n, issue)
  {
    Decomposition.StageOutput(n.stage);
    hide Names;
  }

  /** The first loop: errors of single nodes, and the producer of each cloned directory. */
  method CheckNodes(g: Graph) returns (errors: seq<Issue>, producers: map<string, string>)
    ensures errors == [] <==> forall i :: 0 <= i < |g.nodes| ==> NodeComplete(g.nodes[i])
    ensures forall issue :: issue in errors <==> NodeAmong(g, |g.nodes|, issue)
    ensures forall dir :: (dir in producers <==> Producer(g.nodes, |g.nodes|, dir).Some?)
                       && (dir in producers ==> Producer(g.nodes, |g.nodes|, dir) == Some(producers[dir]))
  {
    hide NodeErrors, NodeComplete, NodeIssue, NodeAmong;
    errors, producers := [], map[];
    AmongNodes(g, 0);
    for i := 0 to |g.nodes|
      invariant errors == [] <==> forall j :: 0 <= j < i ==> NodeComplete(g.nodes[j])
      invariant forall issue :: issue in errors <==> NodeAmong(g, i, issue)
      invariant forall dir :: (dir in producers <==> Producer(g.nodes, i, dir).Some?)
                           && (dir in producers ==> Producer(g.nodes, i, dir) == Some(producers[dir]))
    {
      var n := g.nodes[i];
      NodeErrorsExact(n);
      AmongNodes(g, i + 1);
      errors := errors + NodeErrors(n);
      if n.spec.Some? && n.stage == CloneRepository && n.spec.value.target.Some? {
        producers := producers[n.spec.value.target.value := n.id];
      }
    }
  }

  /** The second loop: every producer of a working directory must be an ancestor. */
  method CheckProducers(g: Graph, producers: map<string, string>) returns (r: Result<seq<Issue>, ReadinessError>)
    requires forall dir :: (dir in producers <==> Producer(g.nodes, |g.nodes|, dir).Some?)
                        && (dir in producers ==> Producer(g.nodes, |g.nodes|, dir) == Some(producers[dir]))
    ensures r.Ok? ==> (r.value == [] <==> forall i :: 0 <= i < |g.nodes| ==> ProducerIsAncestor(g, g.nodes[i]))
    ensures r.Ok? ==> forall issue :: issue in r.value <==> LateAmong(g, |g.nodes|, issue)
    ensures G.Closed(DepsOf(NodeEntries(g.nodes))) ==> r.Ok?
  {
    hide LateAmong, LateIssue, DepsOf, NodeEntries, G.Reaches, G.Closed;
    var deps := DepsOf(NodeEntries(g.nodes));
    var errors := [];
    AmongLate(g, 0);
    for i := 0 to |g.nodes|
      invariant errors == [] <==> forall j :: 0 <= j < i ==> ProducerIsAncestor(g, g.nodes[j])
      invariant forall issue :: issue in errors <==> LateAmong(g, i, issue)
    {
      var n := g.nodes[i];
      AmongLate(g, i + 1);
      LateOne(g, n);
      if n.spec == None || Preparation(n.stage) {
        continue;
      }
      var dir := n.spec.value.workingDirectory;
      if dir in producers {
        NodeKnown(g.nodes, i);
        var ancestors := AncestorIds(deps, n.id);
        if ancestors == None {
          ClosedReaches(deps, n.id);
          return Err(UnknownNode);
        }
        if producers[dir] !in ancestors.value {
          errors := errors + [Issue("future_reference_without_producer_dependency", ErrorSeverity, n.id)];
        }
      }
    }
    return Ok(errors);
  }

  lemma NodeKnown(nodes: seq<Node>, i: nat)
    requires i < |nodes|
    ensures nodes[i].id in DepsOf(NodeEntries(nodes))
  {
    DepsDomain(NodeEntries(nodes), nodes[i].id);
    assert IdsOf(NodeEntries(nodes))[i] == nodes[i].id;
  }

  lemma ClosedReaches(g: G.Deps, n: string)
    ensures G.Closed(g) && n in g ==> forall a :: G.Reaches(g, n, a) ==> a in g
  {
    if G.Closed(g) && n in g {
      AllReached(g, n, g.Keys);
    }
  }

  function ErrorIssues(issues: seq<Issue>): seq<Issue> {
    if issues == [] then []
    else
      var last := issues[|issues| - 1];
      ErrorIssues(issues[..|issues| - 1]) + if last.severity == ErrorSeverity then [last] else []
  }

  lemma ResultOne(result: NodeResult)
    ensures forall issue :: ResultIssue(result, issue) <==>
              result.status != MatReady && issue in ErrorIssues(result.issues)
    ensures forall k :: 0 <= k < |ErrorIssues(result.issues)| ==>
              ErrorIssues(result.issues)[k].severity == ErrorSeverity
  {
    ErrorIssuesAreErrors(result.issues);
    hide ErrorIssues;
  }

  /** The error issues of the node results that are not ready, in order. */
  method BlockingIssues(results: seq<NodeResult>) returns (errors: seq<Issue>)
    ensures errors == [] <==> forall i :: 0 <= i < |results| && results[i].status != MatReady ==>
          ErrorIssues(results[i].issues) == []
    ensures forall k :: 0 <= k < |errors| ==> errors[k].severity == ErrorSeverity
    ensures forall issue :: issue in errors <==> ResultAmong(results, |results|, issue)
  {
    hide ResultAmong, ResultIssue, ErrorIssues;
    errors := [];
    AmongResults(results, 0);
    for i := 0 to |results|
      invariant errors == [] <==> forall j :: 0 <= j < i && results[j].status != MatReady ==>
            ErrorIssues(results[j].issues) == []
      invariant forall k :: 0 <= k < |errors| ==> errors[k].severity == ErrorSeverity
      invariant forall issue :: issue in errors <==> ResultAmong(results, i, issue)
    {
      AmongResults(results, i + 1);
      ResultOne(results[i]);
      if results[i].status != MatReady {
        errors := errors + ErrorIssues(results[i].issues);
      }
    }
  }

  lemma {:induction false} ErrorIssuesAreErrors(issues: seq<Issue>)
    ensures forall k :: 0 <= k < |ErrorIssues(issues)| ==> ErrorIssues(issues)[k].severity == ErrorSeverity
    ensures forall x :: x in ErrorIssues(issues) <==> x in issues && x.severity == ErrorSeverity
  {
    if issues != [] {
      ErrorIssuesAreErrors(issues[..|issues| - 1]);
    }
  }

  predicate AnyUnsupported(results: seq<NodeResult>) {
    exists i :: 0 <= i < |results| && results[i].status == MatUnsupported
  }

  /**
    ExecutionReadinessValidator.validate: the report is READY exactly when the graph is complete, each
    node working in a cloned directory has that clone among its ancestors, and every node result is ready.
    Otherwise it is UNSUPPORTED when there are errors and some node is unsupported, and BLOCKED if not.
  */
  method ValidateReadiness(g: Graph, results: seq<NodeResult>) returns (r: Result<Report, ReadinessError>)
    ensures r.Ok? && r.value.status == MatReady ==> ReadyOk(g, results) && r.value.errors == []
    ensures G.Closed(DepsOf(NodeEntries(g.nodes))) && ReadyOk(g, results) ==> r.Ok? && r.value.status == MatReady
    ensures r.Ok? ==> r.value.nodeResults == results
    ensures r.Ok? ==> forall issue :: issue in r.value.errors <==> Finding(g, results, issue)
    ensures r.Ok? && r.value.status != MatReady ==>
              r.value.status == if r.value.errors != [] && AnyUnsupported(results) then MatUnsupported else MatBlocked
    ensures r == Err(UnknownNode) ==> !G.Closed(DepsOf(NodeEntries(g.nodes)))
    ensures r == Err(InconsistentReport) ==> AllReady(results) && (results == [] || !NoErrorIssues(results))
  {
    hide NodeAmong, LateAmong, ResultAmong, NodeComplete, ProducerIsAncestor, DepsOf, NodeEntries, G.Closed;
    var errors := [];
    if g.materializationId == "" {
      errors := errors + [Issue("missing_materialization_id", ErrorSeverity, "")];
    }
    if GraphIds(g) != ResultIds(results) {
      errors := errors + [Issue("node_result_mismatch", ErrorSeverity, "")];
    }
    var nodeErrors, producers := CheckNodes(g);
    var late := CheckProducers(g, producers);
    if late.Err? {
      return Err(UnknownNode);
    }
    var blocking := BlockingIssues(results);
    errors := errors + nodeErrors + late.value + blocking;
    if errors != [] {
      return Ok(Report(if AnyUnsupported(results) then MatUnsupported else MatBlocked, results, errors));
    }
    if !AllReady(results) {
      return Ok(Report(MatBlocked, results, errors));
    }
    if results == [] || !NoErrorIssues(results) {
      return Err(InconsistentReport);
    }
    return Ok(Report(MatReady, results, errors));
  }

  /** _enforce_materialization_ready. */
  predicate Admitted(g: Graph, report: Option<Report>) {
    && report.Some? && report.value.status == MatReady
    && g.materializationId != "" && GraphIds(g) == ResultIds(report.value.nodeResults)
    && forall i :: 0 <= i < |g.nodes| ==> g.nodes[i].spec.Some?
  }

  // ---- From the static gate to every history ----

  function TaskDeps(dag: Dag): G.Deps {
    map t | t in dag.tasks :: dag.tasks[t].deps
  }

  /** Whatever a started task reaches over dependencies had completed before that start. */
  lemma {:induction false} AncestorsComplete(dag: Dag, events: seq<Event>, j: nat, path: seq<string>)
    requires StartsInOrder(dag, events) && ValidTrace(dag.runId, events)
    requires j < |events| && events[j].kind == TaskStarted
    requires G.IsPath(TaskDeps(dag), path) && path[0] == events[j].task
    ensures CompletedBefore(events, j, path[|path| - 1])
    decreases |path|
  {
    assert CompletedBefore(events, j, path[1]);
    if |path| > 2 {
      var i :| 0 <= i < j && events[i].kind == TaskCompleted && events[i].task == path[1];
      assert Follows(dag.runId, events, i);
      var k :|
        && 0 <= k < i && events[k].kind == TaskStarted
        && events[k].task == events[i].task && events[k].attempt == events[i].attempt;
      AncestorsComplete(dag, events, k, path[1..]);
      CompletedSooner(events, k, j, path[|path| - 1]);
    }
  }

  lemma CompletedSooner(events: seq<Event>, k: nat, j: nat, t: TaskId)
    requires k <= j <= |events| && CompletedBefore(events, k, t)
    ensures CompletedBefore(events, j, t)
  {
    var i :| 0 <= i < k && events[i].kind == TaskCompleted && events[i].task == t;
    assert events[i].kind == TaskCompleted;
  }

  /** In every stored trace, every ancestor of a started task completed before that start. */
  lemma AncestorsComeFirst(dag: Dag, ch: Chain, j: nat, a: TaskId)
    requires ValidChain(dag, ch) && j < |Durable(dag, ch).trace| && Durable(dag, ch).trace[j].kind == TaskStarted
    requires G.Reaches(TaskDeps(dag), Durable(dag, ch).trace[j].task, a)
    ensures CompletedBefore(Durable(dag, ch).trace, j, a)
  {
    ChainGood(dag, ch);
    var trace := Durable(dag, ch).trace;
    OrderOf(dag, Durable(dag, ch));
    hide Good, Durable, ValidChain;
    var path :| G.IsPath(TaskDeps(dag), path) && path[0] == trace[j].task && path[|path| - 1] == a;
    AncestorsComplete(dag, trace, j, path);
  }

  lemma OrderOf(dag: Dag, c: Core)
    requires Good(dag, c)
    ensures StartsInOrder(dag, c.trace) && ValidTrace(dag.runId, c.trace)
  {
  }

  lemma PlanDeps(g: Graph, run: RunId)
    requires GraphOk(g)
    ensures TaskDeps(Decomposition.PlanFor(g, run).dag) == DepsOf(TaskEntries(Decomposition.Tasks(g.nodes)))
  {
    var tasks := Decomposition.Tasks(g.nodes);
    Decomposition.DecomposedIsAccepted(g.nodes);
    forall t
      ensures t in Decomposition.TaskMap(tasks) <==> t in DepsOf(TaskEntries(tasks))
      ensures t in Decomposition.TaskMap(tasks) ==>
            DepsOf(TaskEntries(tasks))[t] == Decomposition.TaskMap(tasks)[t].deps
    {
      Decomposition.TaskMapDeps(tasks, t);
    }
  }

  /**
    The static check holds at run time: on a READY graph, in every history of starts, crashes and resumes,
    a node working in a cloned directory starts only after the clone recorded for it has completed.
  */
  lemma CloneRunsFirst(g: Graph, run: RunId, results: seq<NodeResult>, i: nat, ch: Chain, j: nat)
    requires GraphOk(g) && ReadyOk(g, results) && i < |g.nodes| && !Preparation(g.nodes[i].stage)
    requires g.nodes[i].spec.Some?
    requires Producer(g.nodes, |g.nodes|, g.nodes[i].spec.value.workingDirectory).Some?
    requires ValidChain(Decomposition.PlanFor(g, run).dag, ch)
    requires j < |Durable(Decomposition.PlanFor(g, run).dag, ch).trace|
    requires Durable(Decomposition.PlanFor(g, run).dag, ch).trace[j].kind == TaskStarted
    requires Durable(Decomposition.PlanFor(g, run).dag, ch).trace[j].task == Decomposition.TaskIdFor(g.nodes[i].id)
    ensures var clone := Producer(g.nodes, |g.nodes|, g.nodes[i].spec.value.workingDirectory).value;
            CompletedBefore(Durable(Decomposition.PlanFor(g, run).dag, ch).trace, j, Decomposition.TaskIdFor(clone))
  {
    hide ValidChain, Durable, G.Reaches, G.Acyclic;
    var dag := Decomposition.PlanFor(g, run).dag;
    var clone := Producer(g.nodes, |g.nodes|, g.nodes[i].spec.value.workingDirectory).value;
    assert ProducerIsAncestor(g, g.nodes[i]);
    Decomposition.SameAncestors(g.nodes, g.nodes[i].id, clone);
    PlanDeps(g, run);
    AncestorsComeFirst(dag, ch, j, Decomposition.TaskIdFor(clone));
  }

  lemma BlockedIsStarved(dag: Dag, c: Core, i: nat)
    requires Good(dag, c) && i < |c.trace| && c.trace[i].kind == TaskBlocked
    ensures c.trace[i].task in dag.tasks && Starved(dag.tasks[c.trace[i].task])
  {
  }

  /** No history of an admitted graph ever reports a task input-blocked. */
  lemma AdmittedNeverBlocks(g: Graph, run: RunId, report: Option<Report>, ch: Chain, i: nat)
    requires GraphOk(g) && Admitted(g, report)
    requires ValidChain(Decomposition.PlanFor(g, run).dag, ch)
    requires i < |Durable(Decomposition.PlanFor(g, run).dag, ch).trace|
    ensures Durable(Decomposition.PlanFor(g, run).dag, ch).trace[i].kind != TaskBlocked
  {
    var dag := Decomposition.PlanFor(g, run).dag;
    ChainGood(dag, ch);
    hide Good, Durable, ValidChain, GraphOk, Starved;
    var c := Durable(dag, ch);
    if c.trace[i].kind == TaskBlocked {
      BlockedIsStarved(dag, c, i);
      var k := Decomposition.PlanTask(g, run, c.trace[i].task);
      Decomposition.StarvedNode(g.nodes[k]);
      assert false;
    }
  }
}
