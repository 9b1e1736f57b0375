/** Execution graphs and the validation of graphs and task DAGs. */
module Planning {
  import opened Model
  import G = Graphs

  datatype Node = Node(
    id: string,
    stage: Stage,
    title: string,
    dependsOn: seq<string>,
    bindingIds: seq<string>,
    assetIds: seq<string>,
    rationale: string,
    spec: Option<Spec>)

  datatype Graph = Graph(graphId: string, strategyId: string, nodes: seq<Node>, materializationId: string)

  datatype GraphError =
    | EmptyIdentity | NoNodes | DuplicateIds | SelfDependency | UnknownDependency | Cycle | InvalidTask

  /** What validation looks at in a node or a task. */
  datatype Entry = Entry(id: string, deps: seq<string>)

  function NodeEntries(nodes: seq<Node>): seq<Entry> {
    seq(|nodes|, i requires 0 <= i < |nodes| => Entry(nodes[i].id, nodes[i].dependsOn))
  }

  function TaskEntries(tasks: seq<Task>): seq<Entry> {
    seq(|tasks|, i requires 0 <= i < |tasks| => Entry(tasks[i].id, tasks[i].deps))
  }

  /** Id to dependencies; a later entry with the same id wins. */
  function DepsOf(es: seq<Entry>): G.Deps {
    if es == [] then map[] else DepsOf(es[..|es| - 1])[es[|es| - 1].id := es[|es| - 1].deps]
  }

  function IdsOf(es: seq<Entry>): seq<string> {
    seq(|es|, i requires 0 <= i < |es| => es[i].id)
  }

  ghost predicate DistinctEntries(es: seq<Entry>) {
    forall i, j :: 0 <= i < j < |es| ==> es[i].id != es[j].id
  }

  ghost predicate EntriesOk(es: seq<Entry>) {
    DistinctEntries(es) && G.Closed(DepsOf(es)) && G.Acyclic(DepsOf(es))
  }

  /** What validate_execution_graph accepts: known dependencies and a topological ranking. */
  ghost predicate GraphOk(g: Graph) {
    g.graphId != "" && g.strategyId != "" && g.nodes != [] && EntriesOk(NodeEntries(g.nodes))
  }

  lemma {:induction false} DepsAt(es: seq<Entry>, i: nat)
    requires DistinctEntries(es) && i < |es|
    ensures es[i].id in DepsOf(es) && DepsOf(es)[es[i].id] == es[i].deps
  {
    if i < |es| - 1 {
      DepsAt(es[..|es| - 1], i);
    }
  }

  lemma {:induction false} DepsDomain(es: seq<Entry>, n: string)
    ensures n in DepsOf(es) <==> n in IdsOf(es)
  {
    if es != [] {
      DepsDomain(es[..|es| - 1], n);
      assert IdsOf(es) == IdsOf(es[..|es| - 1]) + [es[|es| - 1].id];
    }
  }

  lemma IdsDistinct(es: seq<Entry>)
    ensures Distinct(IdsOf(es)) <==> DistinctEntries(es)
  {
    var ids := IdsOf(es);
    if Distinct(ids) {
      forall i, j | 0 <= i < j < |es|
        ensures es[i].id != es[j].id
      {
        assert ids[i] != ids[j];
      }
    }
  }

  method HasDuplicates(ids: seq<string>) returns (dup: bool)
    ensures dup <==> !Distinct(ids)
  {
    var seen: set<string> := {};
    for i := 0 to |ids|
      invariant seen == set x | x in ids[..i]
      invariant Distinct(ids[..i])
    {
      assert ids[..i + 1] == ids[..i] + [ids[i]];
      if ids[i] in seen {
        return true;
      }
      seen := seen + {ids[i]};
    }
    assert ids[..|ids|] == ids;
    return false;
  }

  /** Whether entry `e` breaks the dependency rules. */
  predicate Broken(known: set<string>, e: Entry) {
    e.id in e.deps || exists d :: d in e.deps && d !in known
  }

  /** Entry `i` is the first that breaks a dependency rule. */
  ghost predicate FirstBroken(es: seq<Entry>, i: nat) {
    var known := set x | x in IdsOf(es);
    i < |es| && Broken(known, es[i]) && forall j :: 0 <= j < i ==> !Broken(known, es[j])
  }

  /** Why a list of entries is refused, in the order of the checks. */
  ghost predicate Refused(es: seq<Entry>, err: GraphError) {
    match err
    case DuplicateIds => !DistinctEntries(es)
    case SelfDependency =>
      DistinctEntries(es) && exists i :: 0 <= i < |es| && FirstBroken(es, i) && es[i].id in es[i].deps
    case UnknownDependency =>
      DistinctEntries(es) && exists i :: 0 <= i < |es| && FirstBroken(es, i) && es[i].id !in es[i].deps
    case Cycle => DistinctEntries(es) && G.Closed(DepsOf(es)) && !G.Acyclic(DepsOf(es))
    case _ => false
  }

  /** Duplicate ids, then self and unknown dependencies in order, then cycles. */
  method ValidateEntries(es: seq<Entry>) returns (err: Option<GraphError>)
    ensures err == None <==> EntriesOk(es)
    ensures err.Some? ==> Refused(es, err.value)
  {
    var ids := IdsOf(es);
    var dup := HasDuplicates(ids);
    IdsDistinct(es);
    if dup {
      return Some(DuplicateIds);
    }
    var known := set x | x in ids;
    for i := 0 to |es|
      invariant forall j :: 0 <= j < i ==> !Broken(known, es[j])
    {
      if Broken(known, es[i]) {
        BrokenIsRejected(es, known, i);
        assert FirstBroken(es, i);
        return Some(if es[i].id in es[i].deps then SelfDependency else UnknownDependency);
      }
    }
    UnbrokenIsClosed(es, known);
    var ok := G.IsAcyclic(ids, DepsOf(es));
    err := if ok then None else Some(Cycle);
  }

  lemma BrokenIsRejected(es: seq<Entry>, known: set<string>, i: nat)
    requires DistinctEntries(es) && known == (set x | x in IdsOf(es)) && i < |es| && Broken(known, es[i])
    ensures !EntriesOk(es)
  {
    DepsAt(es, i);
    if es[i].id !in es[i].deps {
      var d :| d in es[i].deps && d !in known;
      DepsDomain(es, d);
    }
  }

  lemma UnbrokenIsClosed(es: seq<Entry>, known: set<string>)
    requires DistinctEntries(es) && known == (set x | x in IdsOf(es))
    requires forall j :: 0 <= j < |es| ==> !Broken(known, es[j])
    ensures G.Closed(DepsOf(es)) && forall n :: n in DepsOf(es) <==> n in IdsOf(es)
  {
    var g := DepsOf(es);
    forall n
      ensures n in g <==> n in IdsOf(es)
    {
      DepsDomain(es, n);
    }
    forall n, d | n in g && d in g[n]
      ensures d in g
    {
      var j :| 0 <= j < |es| && IdsOf(es)[j] == n;
      DepsAt(es, j);
      assert !Broken(known, es[j]);
    }
  }

  /** validate_execution_graph. */
  method ValidateExecutionGraph(g: Graph) returns (err: Option<GraphError>)
    ensures err == None <==> GraphOk(g)
    ensures err == Some(EmptyIdentity) <==> g.graphId == "" || g.strategyId == ""
    ensures err == Some(NoNodes) <==> g.graphId != "" && g.strategyId != "" && g.nodes == []
    ensures err.Some? && err.value !in {EmptyIdentity, NoNodes} ==>
              && g.graphId != "" && g.strategyId != "" && g.nodes != []
              && Refused(NodeEntries(g.nodes), err.value)
  {
    if g.graphId == "" || g.strategyId == "" {
      return Some(EmptyIdentity);
    }
    if g.nodes == [] {
      return Some(NoNodes);
    }
    err := ValidateEntries(NodeEntries(g.nodes));
  }

  /** validate_task_dag. */
  method ValidateTaskDag(tasks: seq<Task>) returns (err: Option<GraphError>)
    ensures err == None <==> EntriesOk(TaskEntries(tasks))
    ensures err.Some? ==> Refused(TaskEntries(tasks), err.value)
  {
    err := ValidateEntries(TaskEntries(tasks));
  }
}
