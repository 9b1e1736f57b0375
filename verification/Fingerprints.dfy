/** Resume compatibility: fingerprints, kept as the payloads they digest. */
module Fingerprints {
  import opened Model
  import opened Planning
  import opened Decomposition

  function Mapped<A, B>(f: A -> B, s: seq<A>): seq<B> {
    seq(|s|, i requires 0 <= i < |s| => f(s[i]))
  }

  /** A list sorted by a key that identifies its items is the multiset of the items. */
  type TaskFingerprint = multiset<Task>

  datatype NodePrint = NodePrint(
    id: string,
    stage: Stage,
    title: string,
    rationale: string,
    dependsOn: multiset<string>,
    bindingIds: multiset<string>,
    assetIds: multiset<string>)

  datatype GraphFingerprint = GraphFingerprint(graphId: string, strategyId: string, nodes: multiset<NodePrint>)

  /** The integrity hint of an output is not part of the payload. */
  function TaskPrint(t: Task): Task {
    t.(outputs := seq(|t.outputs|, i requires 0 <= i < |t.outputs| => t.outputs[i].(hint := "")))
  }

  function ComputeTaskFingerprint(tasks: seq<Task>): TaskFingerprint {
    multiset(Mapped(TaskPrint, tasks))
  }

  function PrintNode(n: Node): NodePrint {
    NodePrint(n.id, n.stage, n.title, n.rationale, multiset(n.dependsOn), multiset(n.bindingIds), multiset(n.assetIds))
  }

  function ComputeGraphFingerprint(g: Graph): GraphFingerprint {
    GraphFingerprint(g.graphId, g.strategyId, multiset(Mapped(PrintNode, g.nodes)))
  }

  datatype Rejection = GraphIdMismatch | VersionMismatch | TaskFingerprintMismatch | GraphFingerprintMismatch

  const DECOMPOSITION_VERSION: string := "1.0"

  /** A fingerprint on file, and a different one. None is the empty string, which matches anything. */
  predicate Differs<T(==)>(stored: Option<T>, current: T) {
    stored.Some? && stored.value != current
  }

  /** assert_resume_compatible: the first difference found, in the order of the checks, is the reason. */
  method AssertResumeCompatible(existingGraphId: string, existingVersion: string, g: Graph, tasks: seq<Task>,
      storedTasks: Option<TaskFingerprint>, storedGraph: Option<GraphFingerprint>)
    returns (r: Option<Rejection>)
    ensures r.None? <==>
              && existingGraphId == g.graphId && existingVersion == DECOMPOSITION_VERSION
              && (storedTasks.Some? ==> storedTasks.value == ComputeTaskFingerprint(tasks))
              && (storedGraph.Some? ==> storedGraph.value == ComputeGraphFingerprint(g))
    ensures r == Some(GraphIdMismatch) <==> existingGraphId != g.graphId
    ensures r == Some(VersionMismatch) <==> existingGraphId == g.graphId && existingVersion != DECOMPOSITION_VERSION
    ensures r == Some(TaskFingerprintMismatch) ==>
          storedTasks.Some? && storedTasks.value != ComputeTaskFingerprint(tasks)
    ensures r == Some(GraphFingerprintMismatch) ==>
              && storedGraph.Some? && storedGraph.value != ComputeGraphFingerprint(g)
              && (storedTasks.Some? ==> storedTasks.value == ComputeTaskFingerprint(tasks))
  {
    if existingGraphId != g.graphId {
      return Some(GraphIdMismatch);
    }
    if existingVersion != DECOMPOSITION_VERSION {
      return Some(VersionMismatch);
    }
    var currentTasks := ComputeTaskFingerprint(tasks);
    if Differs(storedTasks, currentTasks) {
      return Some(TaskFingerprintMismatch);
    }
    var currentGraph := ComputeGraphFingerprint(g);
    if Differs(storedGraph, currentGraph) {
      return Some(GraphFingerprintMismatch);
    }
    return None;
  }

  /** Two tasks look the same to the fingerprint exactly when they differ in nothing but the hints of their outputs. */
  lemma TaskPrintsAlike(t: Task, t': Task)
    ensures TaskPrint(t) == TaskPrint(t')
       <==> && t.id == t'.id && t.deps == t'.deps && t.inputs == t'.inputs && t.payload == t'.payload
            && |t.outputs| == |t'.outputs|
            && forall i :: 0 <= i < |t.outputs| ==>
                 var d, d' := t.outputs[i], t'.outputs[i];
                 && d.name == d'.name && d.kind == d'.kind && d.required == d'.required && d.scope == d'.scope
                 && d.rule == d'.rule
  {
    var p, p' := TaskPrint(t), TaskPrint(t');
    assert |p.outputs| == |t.outputs| && |p'.outputs| == |t'.outputs|;
    if p == p' {
      forall i | 0 <= i < |t.outputs|
        ensures t.outputs[i].(hint := "") == t'.outputs[i].(hint := "")
      {
        assert p.outputs[i] == p'.outputs[i];
      }
    }
  }

  lemma PrintsOfDecomposed(nodes: seq<Node>)
    ensures ComputeTaskFingerprint(Tasks(nodes)) == multiset(Tasks(nodes))
  {
    var tasks := Tasks(nodes);
    forall i | 0 <= i < |tasks|
      ensures TaskPrint(tasks[i]) == tasks[i]
    {
      var outputs := tasks[i].outputs;
      assert seq(|outputs|, k requires 0 <= k < |outputs| => outputs[k].(hint := "")) == outputs;
    }
    assert Mapped(TaskPrint, tasks) == tasks;
  }

  lemma SameMembers(tasks: seq<Task>, tasks': seq<Task>, t: TaskId)
    requires DistinctEntries(TaskEntries(tasks)) && DistinctEntries(TaskEntries(tasks'))
    requires multiset(tasks) == multiset(tasks') && t in TaskMap(tasks)
    ensures t in TaskMap(tasks') && TaskMap(tasks')[t] == TaskMap(tasks)[t]
  {
    var i := TaskMapHolds(tasks, t);
    assert tasks[i] in multiset(tasks');
    var j :| 0 <= j < |tasks'| && tasks'[j] == tasks[i];
    TaskMapAt(tasks', j);
  }

  /**
    A graph whose decomposition has the stored task fingerprint runs exactly the stored tasks. Only the
    order in which they are scanned may differ.
  */
  lemma CompatibleGraphsRunTheSameTasks(g: Graph, g': Graph, run: RunId)
    requires GraphOk(g) && GraphOk(g')
    requires ComputeTaskFingerprint(Tasks(g.nodes)) == ComputeTaskFingerprint(Tasks(g'.nodes))
    ensures PlanFor(g, run).dag == PlanFor(g', run).dag
    ensures multiset(PlanFor(g, run).order) == multiset(PlanFor(g', run).order)
  {
    var tasks, tasks' := Tasks(g.nodes), Tasks(g'.nodes);
    PrintsOfDecomposed(g.nodes);
    PrintsOfDecomposed(g'.nodes);
    DecomposedIsAccepted(g.nodes);
    DecomposedIsAccepted(g'.nodes);
    AcceptedParts(TaskEntries(tasks));
    AcceptedParts(TaskEntries(tasks'));
    SameOrders(tasks, tasks');
    hide EntriesOk, TaskMap, Tasks, ComputeTaskFingerprint, DistinctEntries, GraphOk;
    forall t
      ensures t in TaskMap(tasks) <==> t in TaskMap(tasks')
      ensures t in TaskMap(tasks) ==> TaskMap(tasks)[t] == TaskMap(tasks')[t]
    {
      if t in TaskMap(tasks) {
        SameMembers(tasks, tasks', t);
      }
      if t in TaskMap(tasks') {
        SameMembers(tasks', tasks, t);
      }
    }
    assert TaskMap(tasks) == TaskMap(tasks');
  }

  lemma SameOrders(tasks: seq<Task>, tasks': seq<Task>)
    requires multiset(tasks) == multiset(tasks')
    ensures multiset(IdsOf(TaskEntries(tasks))) == multiset(IdsOf(TaskEntries(tasks')))
  {
    var id := (t: Task) => t.id;
    assert IdsOf(TaskEntries(tasks)) == Mapped(id, tasks);
    assert IdsOf(TaskEntries(tasks')) == Mapped(id, tasks');
    MappedMultisets(id, tasks, tasks');
  }

  lemma WithoutOne<A>(s: seq<A>, j: nat)
    requires j < |s|
    ensures multiset(s) == multiset(s[..j] + s[j + 1..]) + multiset{s[j]}
  {
    assert s == s[..j] + [s[j]] + s[j + 1..];
  }

  lemma SameRest<A>(s: seq<A>, s': seq<A>, j: nat)
    requires s != [] && j < |s'| && s'[j] == s[0] && multiset(s) == multiset(s')
    ensures multiset(s[1..]) == multiset(s'[..j] + s'[j + 1..])
  {
    WithoutOne(s', j);
    assert s == [s[0]] + s[1..];
    var rest' := s'[..j] + s'[j + 1..];
    assert multiset(s[1..]) == multiset(s) - multiset{s[0]};
    assert multiset(rest') == multiset(s') - multiset{s[0]};
  }

  lemma {:induction false} MappedMultisets<A, B>(f: A -> B, s: seq<A>, s': seq<A>)
    requires multiset(s) == multiset(s')
    ensures multiset(Mapped(f, s)) == multiset(Mapped(f, s'))
  {
    if s == [] {
      assert |multiset(s')| == 0;
    } else {
      assert s[0] in multiset(s');
      var j :| 0 <= j < |s'| && s'[j] == s[0];
      var rest' := s'[..j] + s'[j + 1..];
      SameRest(s, s', j);
      assert s[..0] + s[1..] == s[1..];
      MappedMultisets(f, s[1..], rest');
      MappedWithout(f, s, 0);
      MappedWithout(f, s', j);
    }
  }

  lemma MappedWithout<A, B>(f: A -> B, s: seq<A>, j: nat)
    requires j < |s|
    ensures multiset(Mapped(f, s)) == multiset(Mapped(f, s[..j] + s[j + 1..])) + multiset{f(s[j])}
  {
    WithoutOne(Mapped(f, s), j);
    assert Mapped(f, s)[..j] + Mapped(f, s)[j + 1..] == Mapped(f, s[..j] + s[j + 1..]);
  }

  /** Listing the nodes in another order changes neither fingerprint. */
  lemma ReorderedGraphIsCompatible(g: Graph, g': Graph)
    requires g.graphId == g'.graphId && g.strategyId == g'.strategyId && multiset(g.nodes) == multiset(g'.nodes)
    ensures ComputeTaskFingerprint(Tasks(g.nodes)) == ComputeTaskFingerprint(Tasks(g'.nodes))
    ensures ComputeGraphFingerprint(g) == ComputeGraphFingerprint(g')
  {
    hide TaskFor;
    MappedMultisets(TaskFor, g.nodes, g'.nodes);
    assert Tasks(g.nodes) == Mapped(TaskFor, g.nodes);
    assert Tasks(g'.nodes) == Mapped(TaskFor, g'.nodes);
    PrintsOfDecomposed(g.nodes);
    PrintsOfDecomposed(g'.nodes);
    MappedMultisets(PrintNode, g.nodes, g'.nodes);
  }

  // ---- What equal fingerprints say about two graphs ----

  lemma {:induction false} CountOne<A(!new)>(s: seq<A>, x: A)
    requires Distinct(s)
    ensures multiset(s)[x] <= 1
    decreases |s|
  {
    if s != [] {
      CountOne(s[..|s| - 1], x);
      assert s == s[..|s| - 1] + [s[|s| - 1]];
    }
  }

  lemma {:induction false} SubmultisetSize<A>(a: multiset<A>, b: multiset<A>)
    requires a <= b && |a| == |b|
    ensures a == b
  {
    assert b == a + (b - a) && |b - a| == 0;
  }

  /** Lists without repetition are the same multiset exactly when they are as long and one holds the other. */
  lemma DistinctMultisets<A(!new)>(s: seq<A>, s': seq<A>)
    requires Distinct(s) && Distinct(s')
    ensures multiset(s) == multiset(s') <==> |s| == |s'| && forall i :: 0 <= i < |s| ==> s[i] in s'
  {
    if multiset(s) == multiset(s') {
      assert |multiset(s)| == |multiset(s')|;
      forall i | 0 <= i < |s|
        ensures s[i] in s'
      {
        assert s[i] in multiset(s');
      }
    } else if |s| == |s'| && forall i :: 0 <= i < |s| ==> s[i] in s' {
      forall x
        ensures multiset(s)[x] <= multiset(s')[x]
      {
        CountOne(s, x);
        if x in multiset(s) {
          assert x in s && x in s';
        }
      }
      assert multiset(s) <= multiset(s');
      SubmultisetSize(multiset(s), multiset(s'));
      assert false;
    }
  }

  lemma NodesDistinct(g: Graph)
    requires GraphOk(g)
    ensures forall i, j :: 0 <= i < j < |g.nodes| ==> g.nodes[i].id != g.nodes[j].id
    ensures Distinct(g.nodes) && Distinct(Tasks(g.nodes)) && Distinct(Mapped(PrintNode, g.nodes))
  {
    var es := NodeEntries(g.nodes);
    forall i, j | 0 <= i < j < |g.nodes|
      ensures g.nodes[i].id != g.nodes[j].id && TaskFor(g.nodes[i]).id != TaskFor(g.nodes[j]).id
    {
      assert es[i].id != es[j].id;
      if TaskIdFor(g.nodes[i].id) == TaskIdFor(g.nodes[j].id) {
        TaskIdInjective(g.nodes[i].id, g.nodes[j].id);
      }
    }
    hide TaskFor;
    var prints := Mapped(PrintNode, g.nodes);
    forall i, j | 0 <= i < j < |prints|
      ensures prints[i] != prints[j]
    {
      assert prints[i].id == g.nodes[i].id && prints[j].id == g.nodes[j].id;
    }
  }

  /** Every node of `g` has a counterpart in `g'` that asks for the same work. */
  ghost predicate SameWorks(g: Graph, g': Graph) {
    |g.nodes| == |g'.nodes|
    && forall i :: 0 <= i < |g.nodes| ==> exists j :: 0 <= j < |g'.nodes| && SameWork(g.nodes[i], g'.nodes[j])
  }

  /** Two accepted graphs have the same task fingerprint exactly when their nodes ask for the same work. */
  lemma TaskPrintsExactly(g: Graph, g': Graph)
    requires GraphOk(g) && GraphOk(g')
    ensures ComputeTaskFingerprint(Tasks(g.nodes)) == ComputeTaskFingerprint(Tasks(g'.nodes)) <==> SameWorks(g, g')
  {
    hide TaskFor, SameWork, GraphOk, ComputeTaskFingerprint;
    NodesDistinct(g);
    NodesDistinct(g');
    PrintsOfDecomposed(g.nodes);
    PrintsOfDecomposed(g'.nodes);
    var tasks, tasks' := Tasks(g.nodes), Tasks(g'.nodes);
    DistinctMultisets(tasks, tasks');
    forall i | 0 <= i < |tasks|
      ensures tasks[i] in tasks' <==> exists j :: 0 <= j < |g'.nodes| && SameWork(g.nodes[i], g'.nodes[j])
    {
      forall j | 0 <= j < |tasks'|
        ensures tasks[i] == tasks'[j] <==> SameWork(g.nodes[i], g'.nodes[j])
      {
        MadeAlike(g.nodes[i], g'.nodes[j]);
      }
    }
    hide Tasks;
  }

  /** What the graph fingerprint sees of two nodes is the same. */
  ghost predicate SameFace(n: Node, n': Node) {
    && n.id == n'.id && n.stage == n'.stage && n.title == n'.title && n.rationale == n'.rationale
    && multiset(n.dependsOn) == multiset(n'.dependsOn) && multiset(n.bindingIds) == multiset(n'.bindingIds)
    && multiset(n.assetIds) == multiset(n'.assetIds)
  }

  /** One of the nodes looks like `n`. */
  ghost predicate Faced(n: Node, nodes: seq<Node>) {
    exists j :: 0 <= j < |nodes| && SameFace(n, nodes[j])
  }

  ghost predicate FacedBy(nodes: seq<Node>, nodes': seq<Node>) {
    |nodes| == |nodes'| && forall i :: 0 <= i < |nodes| ==> Faced(nodes[i], nodes')
  }

  ghost predicate SameFaces(g: Graph, g': Graph) {
    g.graphId == g'.graphId && g.strategyId == g'.strategyId && FacedBy(g.nodes, g'.nodes)
  }

  /** Two accepted graphs have the same graph fingerprint exactly when graph, strategy and nodes look the same. */
  lemma GraphPrintsExactly(g: Graph, g': Graph)
    requires GraphOk(g) && GraphOk(g')
    ensures ComputeGraphFingerprint(g) == ComputeGraphFingerprint(g') <==> SameFaces(g, g')
  {
    hide FacedBy, GraphOk, Mapped, Distinct;
    NodesDistinct(g);
    NodesDistinct(g');
    FacesArePrints(g.nodes, g'.nodes);
  }

  lemma FacesArePrints(nodes: seq<Node>, nodes': seq<Node>)
    requires Distinct(Mapped(PrintNode, nodes)) && Distinct(Mapped(PrintNode, nodes'))
    ensures multiset(Mapped(PrintNode, nodes)) == multiset(Mapped(PrintNode, nodes'))
       <==> FacedBy(nodes, nodes')
  {
    hide Faced, Distinct, PrintNode;
    var prints, prints' := Mapped(PrintNode, nodes), Mapped(PrintNode, nodes');
    DistinctMultisets(prints, prints');
    assert |prints| == |nodes| && |prints'| == |nodes'|;
    forall i | 0 <= i < |nodes|
      ensures prints[i] in prints' <==> Faced(nodes[i], nodes')
    {
      FaceAmong(nodes[i], nodes');
    }
  }

  lemma FaceAmong(n: Node, nodes: seq<Node>)
    ensures PrintNode(n) in Mapped(PrintNode, nodes) <==> Faced(n, nodes)
  {
    hide SameFace, PrintNode;
    var prints := Mapped(PrintNode, nodes);
    forall j | 0 <= j < |nodes|
      ensures prints[j] == PrintNode(n) <==> SameFace(n, nodes[j])
    {
      FaceIsPrint(n, nodes[j]);
    }
  }

  lemma FaceIsPrint(n: Node, n': Node)
    ensures PrintNode(n) == PrintNode(n') <==> SameFace(n, n')
  {
  }

  lemma Together(n: Node, n': Node)
    requires SameWork(n, n') && SameFace(n, n')
    ensures n == n'
  {
  }

  /** The same graph of the same strategy, its nodes in any order. */
  ghost predicate SameGraph(g: Graph, g': Graph) {
    g.graphId == g'.graphId && g.strategyId == g'.strategyId && multiset(g.nodes) == multiset(g'.nodes)
  }

  /** The two fingerprints together accept exactly the graph itself, its nodes in any order. */
  lemma CompatibleExactly(g: Graph, g': Graph)
    requires GraphOk(g) && GraphOk(g')
    ensures ComputeTaskFingerprint(Tasks(g.nodes)) == ComputeTaskFingerprint(Tasks(g'.nodes))
            && ComputeGraphFingerprint(g) == ComputeGraphFingerprint(g')
       <==> SameGraph(g, g')
  {
    hide TaskFor, SameFace, SameWork, GraphOk, ComputeTaskFingerprint, ComputeGraphFingerprint, Tasks;
    TaskPrintsExactly(g, g');
    GraphPrintsExactly(g, g');
    NodesDistinct(g);
    NodesDistinct(g');
    DistinctMultisets(g.nodes, g'.nodes);
    if SameWorks(g, g') && SameFaces(g, g') {
      forall i | 0 <= i < |g.nodes|
        ensures g.nodes[i] in g'.nodes
      {
        SameNode(g, g', i);
      }
    }
    if SameGraph(g, g') {
      ReorderedGraphIsCompatible(g, g');
    }
  }

  lemma SameNode(g: Graph, g': Graph, i: nat)
    requires SameWorks(g, g') && SameFaces(g, g') && i < |g.nodes|
    requires forall j, k :: 0 <= j < k < |g'.nodes| ==> g'.nodes[j].id != g'.nodes[k].id
    ensures g.nodes[i] in g'.nodes
  {
    var j :| 0 <= j < |g'.nodes| && SameWork(g.nodes[i], g'.nodes[j]);
    var k :| 0 <= k < |g'.nodes| && SameFace(g.nodes[i], g'.nodes[k]);
    assert g'.nodes[j].id == g'.nodes[k].id;
    Together(g.nodes[i], g'.nodes[j]);
  }
}
