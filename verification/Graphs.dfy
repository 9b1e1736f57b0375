/** Dependency graphs: paths, rankings, and Kahn's queue algorithm with its exact meaning. */
module Graphs {
  import opened Model

  /** Each known id with the ids it depends on, repetitions allowed. */
  type Deps = map<string, seq<string>>

  ghost predicate Closed(g: Deps) {
    forall n, d :: n in g && d in g[n] ==> d in g
  }

  /** Each id depends on the next. */
  ghost predicate IsPath(g: Deps, path: seq<string>) {
    |path| >= 2 && forall i :: 0 <= i < |path| - 1 ==> path[i] in g && path[i + 1] in g[path[i]]
  }

  /** `a` is an ancestor of `n`: some chain of dependencies leads from `n` to `a`. */
  ghost predicate Reaches(g: Deps, n: string, a: string) {
    exists path :: IsPath(g, path) && path[0] == n && path[|path| - 1] == a
  }

  lemma ReachesDirect(g: Deps, n: string, d: string)
    requires n in g && d in g[n]
    ensures Reaches(g, n, d)
  {
    assert IsPath(g, [n, d]);
  }

  lemma ReachesStep(g: Deps, n: string, d: string, a: string)
    requires n in g && d in g[n] && Reaches(g, d, a)
    ensures Reaches(g, n, a)
  {
    var path :| IsPath(g, path) && path[0] == d && path[|path| - 1] == a;
    var longer := [n] + path;
    assert IsPath(g, longer);
    assert longer[|longer| - 1] == a;
  }

  lemma ReachesExtend(g: Deps, n: string, a: string, b: string)
    requires Reaches(g, n, a) && a in g && b in g[a]
    ensures Reaches(g, n, b)
  {
    var path :| IsPath(g, path) && path[0] == n && path[|path| - 1] == a;
    var longer := path + [b];
    assert IsPath(g, longer);
    assert longer[0] == n && longer[|longer| - 1] == b;
  }

  ghost predicate Ranking(g: Deps, rank: map<string, nat>) {
    rank.Keys == g.Keys && forall n, d :: n in g && d in g[n] ==> d in rank && rank[d] < rank[n]
  }

  ghost predicate Acyclic(g: Deps) {
    exists rank :: Ranking(g, rank)
  }

  // ---- Kahn's algorithm ----

  function Occurrences(s: seq<string>, x: string): nat {
    if s == [] then 0 else Occurrences(s[..|s| - 1], x) + if s[|s| - 1] == x then 1 else 0
  }

  /** How many entries of `s`, repetitions included, are not in `done`. */
  function Waiting(s: seq<string>, done: set<string>): nat {
    if s == [] then 0 else Waiting(s[..|s| - 1], done) + if s[|s| - 1] in done then 0 else 1
  }

  lemma OccurrencesAppend(s: seq<string>, y: string, x: string)
    ensures Occurrences(s + [y], x) == Occurrences(s, x) + if y == x then 1 else 0
  {
    assert (s + [y])[..|s|] == s;
  }

  lemma {:induction false} WaitingNone(s: seq<string>)
    ensures Waiting(s, {}) == |s|
  {
    if s != [] { WaitingNone(s[..|s| - 1]); }
  }

  lemma {:induction false} WaitingZero(s: seq<string>, done: set<string>)
    ensures Waiting(s, done) == 0 <==> forall x :: x in s ==> x in done
  {
    if s != [] {
      var front := s[..|s| - 1];
      WaitingZero(front, done);
      assert s == front + [s[|s| - 1]];
    }
  }

  lemma {:induction false} WaitingDone(s: seq<string>, done: set<string>, x: string)
    requires x !in done
    ensures Waiting(s, done + {x}) == Waiting(s, done) - Occurrences(s, x)
    ensures Occurrences(s, x) <= Waiting(s, done)
  {
    if s != [] {
      WaitingDone(s[..|s| - 1], done, x);
    }
  }

  lemma {:induction false} OccurrencesPositive(s: seq<string>, x: string)
    ensures Occurrences(s, x) > 0 <==> x in s
  {
    if s != [] {
      OccurrencesPositive(s[..|s| - 1], x);
      assert s == s[..|s| - 1] + [s[|s| - 1]];
    }
  }

  /** The indegree table after the first `n` ids and `k` dependencies of the next one. */
  ghost predicate CountedUpTo(ids: seq<string>, g: Deps, n: nat, k: nat, indegree: map<string, nat>)
    requires n <= |ids|
  {
    && indegree.Keys == g.Keys
    && (forall m :: m in g ==>
          indegree[m] == if m in ids[..n] then |g[m]| else if n < |ids| && m == ids[n] then k else 0)
  }

  /** The adjacency table at the same point. */
  ghost predicate ListedUpTo(ids: seq<string>, g: Deps, n: nat, k: nat, adjacency: map<string, seq<string>>)
    requires n <= |ids| && (forall i :: 0 <= i < |ids| ==> ids[i] in g)
    requires n < |ids| ==> k <= |g[ids[n]]|
  {
    && adjacency.Keys == g.Keys
    && (forall d, m :: d in g && m in g ==>
          Occurrences(adjacency[d], m)
            == if m in ids[..n] then Occurrences(g[m], d)
               else if n < |ids| && m == ids[n] then Occurrences(g[m][..k], d)
               else 0)
    && (forall d, m :: d in g && m in adjacency[d] ==> m in g)
  }

  /** The indegree and adjacency tables after the first `n` ids and `k` dependencies of the next one. */
  ghost predicate Tabulated(ids: seq<string>, g: Deps, n: nat, k: nat, indegree: map<string, nat>,
      adjacency: map<string, seq<string>>)
    requires n <= |ids| && (forall i :: 0 <= i < |ids| ==> ids[i] in g)
    requires n < |ids| ==> k <= |g[ids[n]]|
  {
    CountedUpTo(ids, g, n, k, indegree) && ListedUpTo(ids, g, n, k, adjacency)
  }

  /** The two tables the algorithm starts from. */
  method Tabulate(ids: seq<string>, g: Deps) returns (indegree: map<string, nat>, adjacency: map<string, seq<string>>)
    requires Distinct(ids) && Closed(g) && forall n :: n in g <==> n in ids
    ensures indegree.Keys == g.Keys && adjacency.Keys == g.Keys
    ensures forall m :: m in g ==> indegree[m] == |g[m]|
    ensures forall d, m :: d in g && m in g ==> Occurrences(adjacency[d], m) == Occurrences(g[m], d)
    ensures forall d, m :: d in g && m in adjacency[d] ==> m in g
  {
    hide Tabulated, Closed, Distinct;
    indegree := map n | n in g :: 0;
    adjacency := map n | n in g :: [];
    TabulateInit(ids, g, indegree, adjacency);
    for n := 0 to |ids|
      invariant Tabulated(ids, g, n, 0, indegree, adjacency)
    {
      indegree, adjacency := TabulateNode(ids, g, n, indegree, adjacency);
    }
    TabulateEnd(ids, g, indegree, adjacency);
  }

  /** The inner loop: every dependency entry of ids[n] counts once. */
  method TabulateNode(ids: seq<string>, g: Deps, n: nat, indegree0: map<string, nat>, adjacency0: map<string,
      seq<string>>)
    returns (indegree: map<string, nat>, adjacency: map<string, seq<string>>)
    requires Distinct(ids) && Closed(g) && (forall m :: m in g <==> m in ids) && n < |ids|
    requires Tabulated(ids, g, n, 0, indegree0, adjacency0)
    ensures Tabulated(ids, g, n + 1, 0, indegree, adjacency)
  {
    indegree, adjacency := indegree0, adjacency0;
    TabulatedKeys(ids, g, n, 0, indegree, adjacency);
    hide Tabulated, Distinct;
    var node := ids[n];
    var deps := g[node];
    for k := 0 to |deps|
      invariant indegree.Keys == g.Keys && adjacency.Keys == g.Keys
      invariant Tabulated(ids, g, n, k, indegree, adjacency)
    {
      TabulateStep(ids, g, n, k, indegree, adjacency);
      adjacency := adjacency[deps[k] := adjacency[deps[k]] + [node]];
      indegree := indegree[node := indegree[node] + 1];
    }
    TabulateNext(ids, g, n, indegree, adjacency);
  }

  lemma TabulatedKeys(ids: seq<string>, g: Deps, n: nat, k: nat, indegree: map<string, nat>, adjacency: map<string,
      seq<string>>)
    requires n < |ids| && (forall i :: 0 <= i < |ids| ==> ids[i] in g) && k <= |g[ids[n]]|
    requires Tabulated(ids, g, n, k, indegree, adjacency)
    ensures indegree.Keys == g.Keys && adjacency.Keys == g.Keys
  {
  }

  lemma TabulateInit(ids: seq<string>, g: Deps, indegree: map<string, nat>, adjacency: map<string, seq<string>>)
    requires forall n :: n in g <==> n in ids
    requires indegree == (map n | n in g :: 0) && adjacency == (map n | n in g :: [])
    ensures Tabulated(ids, g, 0, 0, indegree, adjacency)
  {
  }

  lemma TabulateNext(ids: seq<string>, g: Deps, n: nat, indegree: map<string, nat>, adjacency: map<string, seq<string>>)
    requires Distinct(ids) && (forall m :: m in g <==> m in ids) && n < |ids|
    requires Tabulated(ids, g, n, |g[ids[n]]|, indegree, adjacency)
    ensures Tabulated(ids, g, n + 1, 0, indegree, adjacency)
  {
    assert forall d :: Occurrences([], d) == 0;
    hide Occurrences;
    assert g[ids[n]][..|g[ids[n]]|] == g[ids[n]];
    assert ids[..n + 1] == ids[..n] + [ids[n]];
    if n + 1 < |ids| {
      assert ids[n + 1] !in ids[..n + 1];
      assert g[ids[n + 1]][..0] == [];
    }
  }

  lemma TabulateEnd(ids: seq<string>, g: Deps, indegree: map<string, nat>, adjacency: map<string, seq<string>>)
    requires forall n :: n in g <==> n in ids
    requires Tabulated(ids, g, |ids|, 0, indegree, adjacency)
    ensures indegree.Keys == g.Keys && adjacency.Keys == g.Keys
    ensures forall m :: m in g ==> indegree[m] == |g[m]|
    ensures forall d, m :: d in g && m in g ==> Occurrences(adjacency[d], m) == Occurrences(g[m], d)
    ensures forall d, m :: d in g && m in adjacency[d] ==> m in g
  {
    assert ids[..|ids|] == ids;
  }

  lemma TabulateStep(ids: seq<string>, g: Deps, n: nat, k: nat, indegree: map<string, nat>, adjacency: map<string,
      seq<string>>)
    requires Distinct(ids) && Closed(g) && (forall m :: m in g <==> m in ids)
    requires n < |ids| && k < |g[ids[n]]|
    requires Tabulated(ids, g, n, k, indegree, adjacency)
    ensures var node := ids[n];
            var dep := g[node][k];
            Tabulated(ids, g, n, k + 1, indegree[node := indegree[node] + 1], adjacency[dep := adjacency[dep] + [node]])
  {
    hide Occurrences, CountedUpTo, ListedUpTo;
    CountStep(ids, g, n, k, indegree);
    ListStep(ids, g, n, k, adjacency);
  }

  lemma CountStep(ids: seq<string>, g: Deps, n: nat, k: nat, indegree: map<string, nat>)
    requires Distinct(ids) && n < |ids| && ids[n] in g && CountedUpTo(ids, g, n, k, indegree)
    ensures CountedUpTo(ids, g, n, k + 1, indegree[ids[n] := indegree[ids[n]] + 1])
  {
    assert ids[n] !in ids[..n];
  }

  lemma ListStep(ids: seq<string>, g: Deps, n: nat, k: nat, adjacency: map<string, seq<string>>)
    requires Distinct(ids) && Closed(g) && (forall m :: m in g <==> m in ids)
    requires n < |ids| && k < |g[ids[n]]| && ListedUpTo(ids, g, n, k, adjacency)
    ensures var dep := g[ids[n]][k];
            dep in adjacency && ListedUpTo(ids, g, n, k + 1, adjacency[dep := adjacency[dep] + [ids[n]]])
  {
    var node := ids[n];
    var dep := g[node][k];
    assert dep in g[node] && dep in g;
    assert node !in ids[..n];
    hide Occurrences, Closed;
    var adjacency' := adjacency[dep := adjacency[dep] + [node]];
    forall d, m | d in g && m in g
      ensures Occurrences(adjacency'[d], m) ==
                if m in ids[..n] then Occurrences(g[m], d) else if m == ids[n] then Occurrences(g[m][..k + 1], d) else 0
    {
      EntryAdded(adjacency[d], g[node], k, node, dep, d, m);
    }
  }

  /** One more entry on both sides, or on neither. */
  lemma EntryAdded(children: seq<string>, deps: seq<string>, k: nat, node: string, dep: string, d: string, m: string)
    requires k < |deps| && deps[k] == dep
    ensures Occurrences(if d == dep then children + [node] else children, m)
         == Occurrences(children, m) + if d == dep && m == node then 1 else 0
    ensures Occurrences(deps[..k + 1], d) == Occurrences(deps[..k], d) + if d == dep then 1 else 0
  {
    OccurrencesAppend(children, node, m);
    OccurrencesAppend(deps[..k], dep, d);
    assert deps[..k + 1] == deps[..k] + [dep];
  }

  /** Between two pops: `done` holds the popped ids, in the topological order `popped`. */
  ghost predicate KahnState(g: Deps, indegree: map<string, nat>, queue: seq<string>, popped: seq<string>,
      done: set<string>) {
    && indegree.Keys == g.Keys
    && InPopOrder(g, popped, done)
    && Distinct(queue)
    && (forall x :: x in queue ==> x in g && x !in done)
    && (forall m :: m in g ==> indegree[m] == Waiting(g[m], done))
    && (forall m :: m in g ==> (indegree[m] == 0 <==> m in queue || m in done))
  }

  /** `popped` lists `done` without repetition, dependencies first. */
  ghost predicate InPopOrder(g: Deps, popped: seq<string>, done: set<string>) {
    && done == (set x | x in popped) && done <= g.Keys
    && Distinct(popped)
    && forall i, d :: 0 <= i < |popped| && popped[i] in g && d in g[popped[i]] ==> d in popped[..i]
  }

  /** While the children of `current` are decremented: `j` entries of its adjacency list are handled. */
  ghost predicate ChildState(g: Deps, indegree: map<string, nat>, queue: seq<string>, done: set<string>,
      current: string, children: seq<string>, j: nat)
    requires j <= |children|
  {
    && indegree.Keys == g.Keys
    && Distinct(queue)
    && (forall x :: x in queue ==> x in g && x !in done)
    && (forall m :: m in g ==> indegree[m] + Occurrences(children[..j], m) == Waiting(g[m], done - {current}))
    && (forall m :: m in g ==> (indegree[m] == 0 <==> m in queue || m in done))
  }

  /**
    _assert_acyclic: true exactly when the graph has a ranking, repeated dependency entries included, which
    is exactly when no id is its own ancestor.
  */
  method IsAcyclic(ids: seq<string>, g: Deps) returns (ok: bool)
    requires Distinct(ids) && Closed(g) && forall n :: n in g <==> n in ids
    ensures ok <==> Acyclic(g)
    ensures ok <==> forall n :: !Reaches(g, n, n)
  {
    hide Reaches, KahnState, ChildState, Acyclic, Distinct, Closed;
    var indegree, adjacency := Tabulate(ids, g);
    var queue: seq<string> := InitialQueue(ids, g, indegree);
    ghost var popped: seq<string> := [];
    ghost var done: set<string> := {};
    KahnInit(ids, g, indegree, queue);
    var visited := 0;
    while queue != []
      invariant KahnState(g, indegree, queue, popped, done)
      invariant visited == |popped|
      decreases g.Keys - done
    {
      var current := queue[0];
      QueueHead(g, indegree, queue, popped, done);
      PopReady(g, indegree, queue, popped, done, adjacency[current]);
      ghost var before, order := done, popped + [current];
      var rest := queue[1..];
      visited := visited + 1;
      indegree, queue := ReleaseChildren(g, indegree, rest, before, current, adjacency[current]);
      ChildrenHandled(g, indegree, queue, order, before, current, adjacency[current]);
      popped, done := order, before + {current};
      assert current in g.Keys - before && current !in g.Keys - done;
    }
    ok := visited == |ids|;
    KahnEnd(ids, g, indegree, popped, done);
    CyclesAreStuck(g, indegree, popped, done);
  }

  /** The inner loop: each entry of the adjacency list lowers one count, and a zero joins the queue. */
  method ReleaseChildren(g: Deps, indegree0: map<string, nat>, queue0: seq<string>, ghost before: set<string>,
      current: string, children: seq<string>)
    returns (indegree: map<string, nat>, queue: seq<string>)
    requires current !in before && before + {current} <= g.Keys && indegree0.Keys == g.Keys
    requires forall m :: m in children ==> m in g
    requires forall m :: m in g ==> Occurrences(children, m) == Occurrences(g[m], current)
    requires ChildState(g, indegree0, queue0, before + {current}, current, children, 0)
    ensures ChildState(g, indegree, queue, before + {current}, current, children, |children|)
  {
    hide ChildState;
    indegree, queue := indegree0, queue0;
    for j := 0 to |children|
      invariant indegree.Keys == g.Keys
      invariant ChildState(g, indegree, queue, before + {current}, current, children, j)
    {
      assert children[j] in children;
      ChildStep(g, indegree, queue, before, current, children, j);
      var child := children[j];
      indegree := indegree[child := indegree[child] - 1];
      if indegree[child] == 0 {
        queue := queue + [child];
      }
    }
  }

  /** The ids without dependencies, in order. */
  method InitialQueue(ids: seq<string>, g: Deps, indegree: map<string, nat>) returns (queue: seq<string>)
    requires Distinct(ids) && indegree.Keys == g.Keys && forall n :: n in g <==> n in ids
    ensures Distinct(queue)
    ensures forall x :: x in queue <==> x in g && indegree[x] == 0
  {
    queue := [];
    for i := 0 to |ids|
      invariant Distinct(queue)
      invariant forall x :: x in queue <==> x in ids[..i] && indegree[x] == 0
    {
      assert ids[..i + 1] == ids[..i] + [ids[i]];
      assert ids[i] !in ids[..i];
      if indegree[ids[i]] == 0 {
        queue := queue + [ids[i]];
      }
    }
    assert ids[..|ids|] == ids;
  }

  lemma KahnInit(ids: seq<string>, g: Deps, indegree: map<string, nat>, queue: seq<string>)
    requires indegree.Keys == g.Keys && (forall m :: m in g ==> indegree[m] == |g[m]|)
    requires Distinct(queue) && forall x :: x in queue <==> x in g && indegree[x] == 0
    ensures KahnState(g, indegree, queue, [], {})
  {
    forall m | m in g
      ensures Waiting(g[m], {}) == |g[m]|
    {
      WaitingNone(g[m]);
    }
  }

  lemma QueueHead(g: Deps, indegree: map<string, nat>, queue: seq<string>, popped: seq<string>, done: set<string>)
    requires KahnState(g, indegree, queue, popped, done) && queue != []
    ensures queue[0] in g
  {
    assert queue[0] in queue;
  }

  /** The head of the queue has all its dependencies popped, and its children wait to be decremented. */
  lemma PopReady(g: Deps, indegree: map<string, nat>, queue: seq<string>, popped: seq<string>, done: set<string>,
      children: seq<string>)
    requires KahnState(g, indegree, queue, popped, done) && queue != []
    ensures var current := queue[0];
            && current in g && current !in done && done <= g.Keys && indegree.Keys == g.Keys
            && InPopOrder(g, popped + [current], done + {current})
            && ChildState(g, indegree, queue[1..], done + {current}, current, children, 0)
  {
    hide Waiting;
    var current := queue[0];
    assert current in queue;
    WaitingZero(g[current], done);
    assert children[..0] == [];
    var longer := popped + [current];
    forall i, d | 0 <= i < |longer| && longer[i] in g && d in g[longer[i]]
      ensures d in longer[..i]
    {
      if i < |popped| {
        assert longer[..i] == popped[..i];
        assert d in popped[..i];
      } else {
        assert longer[..i] == popped;
      }
    }
    assert queue == [current] + queue[1..];
    assert done + {current} - {current} == done;
  }

  /** One child is decremented; when its count reaches zero it is new to the queue. */
  lemma ChildStep(g: Deps, indegree: map<string, nat>, queue: seq<string>, before: set<string>, current: string,
      children: seq<string>, j: nat)
    requires j < |children| && children[j] in g && current !in before
    requires ChildState(g, indegree, queue, before + {current}, current, children, j)
    requires forall m :: m in g ==> Occurrences(children, m) == Occurrences(g[m], current)
    requires g.Keys >= before + {current}
    ensures indegree[children[j]] > 0
    ensures var child := children[j];
            var indegree' := indegree[child := indegree[child] - 1];
            ChildState(g, indegree', if indegree'[child] == 0 then queue + [child] else queue, before + {current},
                current, children, j + 1)
  {
    hide Occurrences, Waiting;
    var child := children[j];
    assert children[..j + 1] == children[..j] + [child];
    assert before + {current} - {current} == before;
    forall m
      ensures Occurrences(children[..j + 1], m) == Occurrences(children[..j], m) + if child == m then 1 else 0
    {
      OccurrencesAppend(children[..j], child, m);
    }
    OccurrencesPrefix(children, j + 1, child);
    WaitingDone(g[child], before, current);
  }

  lemma {:induction false} OccurrencesPrefix(s: seq<string>, k: nat, x: string)
    requires k <= |s|
    ensures Occurrences(s[..k], x) <= Occurrences(s, x)
  {
    if k == |s| {
      assert s[..k] == s;
    } else {
      OccurrencesPrefix(s[..|s| - 1], k, x);
      assert s[..|s| - 1][..k] == s[..k];
    }
  }

  lemma ChildrenHandled(g: Deps, indegree: map<string, nat>, queue: seq<string>, popped: seq<string>,
      before: set<string>, current: string, children: seq<string>)
    requires current !in before && InPopOrder(g, popped, before + {current})
    requires ChildState(g, indegree, queue, before + {current}, current, children, |children|)
    requires forall m :: m in g ==> Occurrences(children, m) == Occurrences(g[m], current)
    ensures KahnState(g, indegree, queue, popped, before + {current})
  {
    assert children[..|children|] == children;
    assert before + {current} - {current} == before;
    forall m | m in g
      ensures indegree[m] == Waiting(g[m], before + {current})
    {
      WaitingDone(g[m], before, current);
    }
  }

  lemma {:induction false} SetOfDistinct(s: seq<string>)
    requires Distinct(s)
    ensures |set x | x in s| == |s|
  {
    if s == [] {
      assert (set x | x in s) == {};
    } else {
      var front := s[..|s| - 1];
      var last := s[|s| - 1];
      SetOfDistinct(front);
      assert last !in front;
      assert (set x | x in s) == (set x | x in front) + {last};
    }
  }

  lemma VisitedAll(ids: seq<string>, g: Deps, popped: seq<string>, done: set<string>)
    requires Distinct(ids) && Distinct(popped) && (forall n :: n in g <==> n in ids)
    requires done == (set x | x in popped) && done <= g.Keys
    ensures |popped| == |ids| <==> done == g.Keys
  {
    SetOfDistinct(ids);
    SetOfDistinct(popped);
    assert g.Keys == set x | x in ids;
    if |popped| == |ids| {
      SubsetFull(done, g.Keys);
    }
  }

  lemma SubsetFull(a: set<string>, b: set<string>)
    requires a <= b && |a| == |b|
    ensures a == b
  {
    assert |b - a| == |b| - |a|;
    assert b - a == {};
  }

  function IndexOf(s: seq<string>, x: string): (i: nat)
    requires x in s
    ensures i < |s| && s[i] == x && x !in s[..i]
  {
    if s[0] == x then 0
    else
      assert forall k :: 0 <= k <= |s| - 1 ==> s[..k + 1] == [s[0]] + s[1..][..k];
      1 + IndexOf(s[1..], x)
  }

  lemma IndexBefore(s: seq<string>, x: string, k: nat)
    requires k < |s| && s[k] == x
    ensures IndexOf(s, x) <= k
  {
    if s[0] != x {
      IndexBefore(s[1..], x, k - 1);
    }
  }

  /** The pop order is a ranking. */
  lemma PoppedRanks(g: Deps, popped: seq<string>, done: set<string>)
    requires InPopOrder(g, popped, done) && done == g.Keys
    ensures Acyclic(g)
  {
    assert forall n :: n in g ==> n in done;
    var rank := map n | n in g :: IndexOf(popped, n);
    forall n, d | n in g && d in g[n]
      ensures d in rank && rank[d] < rank[n]
    {
      var i := IndexOf(popped, n);
      assert d in popped[..i];
      var k :| 0 <= k < i && popped[k] == d;
      assert d in popped;
      assert d in done;
      IndexBefore(popped, d, k);
    }
    assert Ranking(g, rank);
  }

  /** The queue is empty: everything was popped exactly when the graph has a ranking. */
  lemma KahnEnd(ids: seq<string>, g: Deps, indegree: map<string, nat>, popped: seq<string>, done: set<string>)
    requires Distinct(ids) && forall n :: n in g <==> n in ids
    requires KahnState(g, indegree, [], popped, done)
    ensures |popped| == |ids| <==> Acyclic(g)
  {
    VisitedAll(ids, g, popped, done);
    if |popped| == |ids| {
      PoppedRanks(g, popped, done);
    } else if Acyclic(g) {
      var rank :| Ranking(g, rank);
      AllDone(g, indegree, popped, done, rank);
    }
  }

  lemma {:induction false} DoneBelow(g: Deps, indegree: map<string, nat>, popped: seq<string>, done: set<string>,
      rank: map<string, nat>, n: string)
    requires KahnState(g, indegree, [], popped, done) && Ranking(g, rank) && n in g
    ensures n in done
    decreases rank[n]
  {
    forall d | d in g[n]
      ensures d in done
    {
      DoneBelow(g, indegree, popped, done, rank, d);
    }
    WaitingZero(g[n], done);
  }

  lemma AllDone(g: Deps, indegree: map<string, nat>, popped: seq<string>, done: set<string>, rank: map<string, nat>)
    requires KahnState(g, indegree, [], popped, done) && Ranking(g, rank)
    ensures done == g.Keys
  {
    forall n | n in g
      ensures n in done
    {
      DoneBelow(g, indegree, popped, done, rank, n);
    }
  }

  // ---- Rankings and cycles ----

  lemma {:induction false} RankFalls(g: Deps, rank: map<string, nat>, path: seq<string>)
    requires Ranking(g, rank) && IsPath(g, path)
    ensures path[0] in rank && path[|path| - 1] in rank && rank[path[|path| - 1]] < rank[path[0]]
    decreases |path|
  {
    assert path[1] in g[path[0]];
    if |path| > 2 {
      assert IsPath(g, path[1..]);
      RankFalls(g, rank, path[1..]);
    }
  }

  /** Each id depends on the next; one id alone is a walk. */
  ghost predicate IsWalk(g: Deps, walk: seq<string>) {
    walk != [] && forall i :: 0 <= i < |walk| - 1 ==> walk[i] in g && walk[i + 1] in g[walk[i]]
  }

  lemma ClosedWalk(g: Deps, walk: seq<string>, i: nat)
    requires IsWalk(g, walk) && i < |walk| && walk[|walk| - 1] in g && walk[i] in g[walk[|walk| - 1]]
    ensures Reaches(g, walk[i], walk[i])
  {
    var path := walk[i..] + [walk[i]];
    assert IsPath(g, path);
  }

  lemma ExtendedWalk(g: Deps, walk: seq<string>, d: string)
    requires IsWalk(g, walk) && walk[|walk| - 1] in g && d in g[walk[|walk| - 1]]
    ensures IsWalk(g, walk + [d])
  {
  }

  ghost predicate Stuck(g: Deps, stuck: set<string>) {
    forall n :: n in stuck ==> n in g && exists d :: d in g[n] && d in stuck
  }

  /** A walk inside a set every member of which depends on another member runs into itself. */
  lemma {:induction false} WalkCloses(g: Deps, stuck: set<string>, walk: seq<string>) returns (n: string)
    requires walk != [] && IsWalk(g, walk) && Stuck(g, stuck) && forall i :: 0 <= i < |walk| ==> walk[i] in stuck
    ensures Reaches(g, n, n)
    decreases stuck - set x | x in walk
  {
    hide IsWalk, Reaches;
    var last := walk[|walk| - 1];
    assert last in stuck;
    var d :| d in g[last] && d in stuck;
    if d in walk {
      var i :| 0 <= i < |walk| && walk[i] == d;
      ClosedWalk(g, walk, i);
      n := d;
    } else {
      ExtendedWalk(g, walk, d);
      assert d in stuck - set x | x in walk;
      assert d !in stuck - set x | x in walk + [d];
      n := WalkCloses(g, stuck, walk + [d]);
    }
  }

  lemma RankedHasNoCycle(g: Deps, n: string)
    requires Acyclic(g)
    ensures !Reaches(g, n, n)
  {
    var rank :| Ranking(g, rank);
    if Reaches(g, n, n) {
      var path :| IsPath(g, path) && path[0] == n && path[|path| - 1] == n;
      RankFalls(g, rank, path);
    }
  }

  lemma LeftoverIsStuck(g: Deps, indegree: map<string, nat>, popped: seq<string>, done: set<string>)
    requires Closed(g) && KahnState(g, indegree, [], popped, done)
    ensures Stuck(g, g.Keys - done)
  {
    var stuck := g.Keys - done;
    forall n | n in stuck
      ensures exists d :: d in g[n] && d in stuck
    {
      WaitingZero(g[n], done);
      var d :| d in g[n] && d !in done;
      assert d in stuck;
    }
  }

  /** When the queue runs empty, the graph has a ranking exactly when no id is its own ancestor. */
  lemma CyclesAreStuck(g: Deps, indegree: map<string, nat>, popped: seq<string>, done: set<string>)
    requires Closed(g) && KahnState(g, indegree, [], popped, done)
    ensures Acyclic(g) <==> forall n :: !Reaches(g, n, n)
  {
    hide Acyclic, Reaches, Stuck;
    if Acyclic(g) {
      forall n
        ensures !Reaches(g, n, n)
      {
        RankedHasNoCycle(g, n);
      }
    } else {
      if done == g.Keys {
        PoppedRanks(g, popped, done);
      }
      LeftoverIsStuck(g, indegree, popped, done);
      var n :| n in g.Keys - done;
      var m := WalkCloses(g, g.Keys - done, [n]);
    }
  }
}
