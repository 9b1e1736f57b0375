/** The artifact manifest of a finished process. */
module Manifest {
  import opened Model
  import opened Artifacts
  import opened Machine
  import opened Invariants

  /** The declaration of a logical name; a later one wins. */
  function DeclarationOf(outputs: seq<OutputDecl>, name: string): Option<OutputDecl> {
    if outputs == [] then None
    else if outputs[|outputs| - 1].name == name then Some(outputs[|outputs| - 1])
    else DeclarationOf(outputs[..|outputs| - 1], name)
  }

  predicate Declared(task: Task, art: Artifact) {
    var d := DeclarationOf(task.outputs, art.name);
    d.Some? && art.kind == d.value.kind && art.scope == d.value.scope
  }

  /** `id` proves something for the success of `t`: valid, declared, and made by its last attempt. */
  predicate Listed(dag: Dag, c: Core, receiptOk: string -> bool, t: TaskId, id: nat) {
    && t in dag.tasks && t in c.results
    && c.results[t].status == Success && c.results[t].attempts != []
    && id in c.results[t].artifactIds
    && StillValid(c.artifacts, id, receiptOk)
    && var art := Lookup(c.artifacts, id).value;
       && art.runId == c.results[t].runId && art.taskId == t
       && art.attempt == Last(c.results[t].attempts) && Declared(dag.tasks[t], art)
  }

  ghost predicate ListedSome(dag: Dag, c: Core, receiptOk: string -> bool, order: seq<TaskId>, id: nat) {
    exists t :: t in order && Listed(dag, c, receiptOk, t, id)
  }

  /** `x` comes before the first `y` in the list of artifact ids of one result. */
  ghost predicate Earlier(listed: seq<nat>, x: nat, y: nat) {
    exists q :: 0 <= q < |listed| && listed[q] == y && y !in listed[..q] && x in listed[..q]
  }

  /** `x` comes before `y`: listed for an earlier task, or earlier for the same task. */
  ghost predicate Precedes(dag: Dag, c: Core, receiptOk: string -> bool, order: seq<TaskId>, x: nat, y: nat) {
    exists a, b :: 0 <= a <= b < |order|
      && Listed(dag, c, receiptOk, order[a], x) && Listed(dag, c, receiptOk, order[b], y)
      && (a == b ==> Earlier(c.results[order[a]].artifactIds, x, y))
  }

  ghost predicate InListOrder(dag: Dag, c: Core, receiptOk: string -> bool, order: seq<TaskId>, ids: seq<nat>) {
    forall i, j :: 0 <= i < j < |ids| ==> Precedes(dag, c, receiptOk, order, ids[i], ids[j])
  }

  /** Each id that proves an output of a success, once, in task order and then in list order. */
  ghost predicate IsManifest(p: Plan, c: Core, receiptOk: string -> bool, ids: seq<nat>) {
    && Distinct(ids)
    && (forall id :: id in ids <==> ListedSome(p.dag, c, receiptOk, p.order, id))
    && InListOrder(p.dag, c, receiptOk, p.order, ids)
  }

  /** _artifact_ids_from_results. */
  method ArtifactIdsFromResults(p: Plan, c: Core, receiptOk: string -> bool) returns (ids: seq<nat>)
    ensures IsManifest(p, c, receiptOk, ids)
  {
    hide Listed, ListedSome, InListOrder;
    ids := [];
    NothingListed(p.dag, c, receiptOk);
    for i := 0 to |p.order|
      invariant Distinct(ids)
      invariant forall id :: id in ids <==> ListedSome(p.dag, c, receiptOk, p.order[..i], id)
      invariant InListOrder(p.dag, c, receiptOk, p.order[..i], ids)
    {
      ghost var before := ids;
      ids := AddListed(p, c, receiptOk, p.order[i], ids);
      ListedExtends(p.dag, c, receiptOk, p.order, i);
      OrderExtends(p.dag, c, receiptOk, p.order, i, before, ids);
    }
    assert p.order[..|p.order|] == p.order;
  }

  lemma NothingListed(dag: Dag, c: Core, receiptOk: string -> bool)
    ensures InListOrder(dag, c, receiptOk, [], []) && forall id :: !ListedSome(dag, c, receiptOk, [], id)
  {
  }

  lemma OrderExtends(dag: Dag, c: Core, receiptOk: string -> bool, order: seq<TaskId>, k: nat, before: seq<nat>,
      ids: seq<nat>)
    requires k < |order| && InListOrder(dag, c, receiptOk, order[..k], before)
    requires forall id :: id in before ==> ListedSome(dag, c, receiptOk, order[..k], id)
    requires before <= ids && Appended(dag, c, receiptOk, order[k], |before|, ids)
    ensures InListOrder(dag, c, receiptOk, order[..k + 1], ids)
  {
    hide Listed;
    var longer := order[..k + 1];
    forall i, j | 0 <= i < j < |ids|
      ensures Precedes(dag, c, receiptOk, longer, ids[i], ids[j])
    {
      if j < |before| {
        assert before[i] == ids[i] && before[j] == ids[j];
        assert Precedes(dag, c, receiptOk, order[..k], ids[i], ids[j]);
        PrecedesExtends(dag, c, receiptOk, order, k, ids[i], ids[j]);
      } else if i < |before| {
        assert before[i] in before;
        var t :| t in order[..k] && Listed(dag, c, receiptOk, t, ids[i]);
        var a :| 0 <= a < k && order[a] == t;
        assert longer[a] == t && longer[k] == order[k];
      } else {
        assert longer[k] == order[k];
      }
    }
  }

  lemma PrecedesExtends(dag: Dag, c: Core, receiptOk: string -> bool, order: seq<TaskId>, k: nat, x: nat, y: nat)
    requires k < |order| && Precedes(dag, c, receiptOk, order[..k], x, y)
    ensures Precedes(dag, c, receiptOk, order[..k + 1], x, y)
  {
    hide Earlier;
    var shorter, longer := order[..k], order[..k + 1];
    var a, b :| 0 <= a <= b < k && Listed(dag, c, receiptOk, shorter[a], x) && Listed(dag, c, receiptOk, shorter[b], y)
                && (a == b ==> Earlier(c.results[shorter[a]].artifactIds, x, y));
    assert longer[a] == shorter[a] && longer[b] == shorter[b];
  }

  /** What the ids from position `n` on have in common: listed for `t`, in the order of its result. */
  ghost predicate Appended(dag: Dag, c: Core, receiptOk: string -> bool, t: TaskId, n: nat, ids: seq<nat>) {
    && (forall i :: n <= i < |ids| ==> Listed(dag, c, receiptOk, t, ids[i]))
    && (forall i, j :: n <= i < j < |ids| ==> t in c.results && Earlier(c.results[t].artifactIds, ids[i], ids[j]))
  }

  lemma ListedExtends(dag: Dag, c: Core, receiptOk: string -> bool, order: seq<TaskId>, i: nat)
    requires i < |order|
    ensures forall id :: ListedSome(dag, c, receiptOk, order[..i + 1], id)
              <==> ListedSome(dag, c, receiptOk, order[..i], id) || Listed(dag, c, receiptOk, order[i], id)
  {
    hide Listed;
    assert order[..i + 1] == order[..i] + [order[i]];
  }

  /** The inner loop over the artifact ids of one result. */
  method AddListed(p: Plan, c: Core, receiptOk: string -> bool, t: TaskId, ids0: seq<nat>) returns (ids: seq<nat>)
    requires Distinct(ids0)
    ensures Distinct(ids)
    ensures forall id :: id in ids <==> id in ids0 || Listed(p.dag, c, receiptOk, t, id)
    ensures ids0 <= ids && Appended(p.dag, c, receiptOk, t, |ids0|, ids)
  {
    ids := ids0;
    if t !in c.results || t !in p.dag.tasks || c.results[t].status != Success || c.results[t].attempts == [] {
      return;
    }
    var candidates := c.results[t].artifactIds;
    assert forall id :: Listed(p.dag, c, receiptOk, t, id) ==> id in candidates;
    hide Listed;
    for k := 0 to |candidates|
      invariant Distinct(ids) && ids0 <= ids
      invariant forall id :: id in ids <==> id in ids0 || (id in candidates[..k] && Listed(p.dag, c, receiptOk, t, id))
      invariant forall i :: |ids0| <= i < |ids| ==> ids[i] in candidates[..k]
      invariant Appended(p.dag, c, receiptOk, t, |ids0|, ids)
    {
      assert candidates[..k + 1] == candidates[..k] + [candidates[k]];
      if candidates[k] !in ids && Listed(p.dag, c, receiptOk, t, candidates[k]) {
        assert candidates[k] !in candidates[..k];
        forall i | |ids0| <= i < |ids|
          ensures Earlier(candidates, ids[i], candidates[k])
        {
        }
        ids := ids + [candidates[k]];
      }
    }
    assert candidates[..|candidates|] == candidates;
  }

  lemma {:induction false} DeclarationAt(outputs: seq<OutputDecl>, k: nat)
    requires k < |outputs| && forall i, j :: 0 <= i < j < |outputs| ==> outputs[i].name != outputs[j].name
    ensures DeclarationOf(outputs, outputs[k].name) == Some(outputs[k])
  {
    if k < |outputs| - 1 {
      DeclarationAt(outputs[..|outputs| - 1], k);
    }
  }

  /** An id listed for output `k` of `t`. */
  ghost predicate ListedFor(dag: Dag, c: Core, receiptOk: string -> bool, t: TaskId, k: nat, id: nat)
    requires t in dag.tasks && k < |dag.tasks[t].outputs|
  {
    && Listed(dag, c, receiptOk, t, id) && Lookup(c.artifacts, id).Some?
    && Lookup(c.artifacts, id).value.name == dag.tasks[t].outputs[k].name
  }

  /** The artifact that proves output `k` of the success of `t`, receipts aside. */
  function ProofOf(dag: Dag, c: Core, t: TaskId, k: nat): Option<Artifact>
    requires t in dag.tasks && k < |dag.tasks[t].outputs| && t in c.results && c.results[t].attempts != []
  {
    var r := c.results[t];
    FirstProof(c.artifacts, r.artifactIds, dag.runId, t, Last(r.attempts), dag.tasks[t].outputs[k], Trust())
  }

  /**
    The manifest is complete without duplicates: a required output of a recorded success is listed exactly while
    the receipt of the artifact that proves it holds, and then by that artifact alone, which the success's last
    attempt made.
  */
  lemma EachOutputListedOnce(p: Plan, c: Core, receiptOk: string -> bool, t: TaskId, k: nat)
    requires ValidPlan(p) && Good(p.dag, c)
    requires t in c.results && c.results[t].status == Success && t in p.dag.tasks
    requires k < |p.dag.tasks[t].outputs| && p.dag.tasks[t].outputs[k].required
    ensures c.results[t].attempts != [] && ProofOf(p.dag, c, t, k).Some?
    ensures var proof := ProofOf(p.dag, c, t, k).value;
            && proof.attempt == Last(c.results[t].attempts)
            && (forall id ::
                  ListedFor(p.dag, c, receiptOk, t, k, id) <==> id == proof.id && receiptOk(proof.location.ref))
            && (receiptOk(proof.location.ref) ==> ListedSome(p.dag, c, receiptOk, p.order, proof.id))
  {
    ReusableOf(p.dag, c, t);
    hide Good, ValidDag, StaticInputs;
    var r := c.results[t];
    var d := p.dag.tasks[t].outputs[k];
    assert OutputProven(c.artifacts, p.dag.runId, r, d, Trust());
    FirstProofIsListed(c.artifacts, r.artifactIds, p.dag.runId, t, Last(r.attempts), d, Trust());
    var proof := ProofOf(p.dag, c, t, k).value;
    DeclarationAt(p.dag.tasks[t].outputs, k);
    assert Listed(p.dag, c, receiptOk, t, proof.id) <==> receiptOk(proof.location.ref);
    forall id | ListedFor(p.dag, c, receiptOk, t, k, id)
      ensures id == proof.id && receiptOk(proof.location.ref)
    {
      assert SameNamed(c.artifacts, id, proof.id, Last(r.attempts));
    }
  }

  lemma ReusableOf(dag: Dag, c: Core, t: TaskId)
    requires Good(dag, c) && t in c.results && c.results[t].status == Success && t in dag.tasks
    ensures Satisfies(c.artifacts, dag.runId, dag.tasks[t], c.results[t], Trust())
    ensures OneProofEach(c.artifacts, c.results[t])
    ensures c.results[t].taskId == t && c.results[t].runId == dag.runId && c.results[t].attempts != []
  {
  }

  // ---- The manifest is determined ----

  /** Two receipt checks that agree on the locations of the artifacts at hand. */
  ghost predicate SameReceipts(arts: seq<Artifact>, f: string -> bool, f': string -> bool) {
    forall i :: 0 <= i < |arts| ==> f(arts[i].location.ref) == f'(arts[i].location.ref)
  }

  lemma SameListed(dag: Dag, c: Core, c': Core, f: string -> bool, f': string -> bool, t: TaskId, id: nat)
    requires c.results == c'.results && c.artifacts == c'.artifacts && SameReceipts(c.artifacts, f, f')
    ensures Listed(dag, c, f, t, id) <==> Listed(dag, c', f', t, id)
  {
    LookupSound(c.artifacts, id);
    hide Lookup, Declared;
  }

  lemma SamePrecedes(p: Plan, c: Core, c': Core, f: string -> bool, f': string -> bool, x: nat, y: nat)
    requires c.results == c'.results && c.artifacts == c'.artifacts && SameReceipts(c.artifacts, f, f')
    requires Precedes(p.dag, c, f, p.order, x, y)
    ensures Precedes(p.dag, c', f', p.order, x, y)
  {
    hide Earlier, StillValid, Declared;
    var a, b :| 0 <= a <= b < |p.order| && Listed(p.dag, c, f, p.order[a], x) && Listed(p.dag, c, f, p.order[b], y)
                && (a == b ==> Earlier(c.results[p.order[a]].artifactIds, x, y));
    SameListed(p.dag, c, c', f, f', p.order[a], x);
    SameListed(p.dag, c, c', f, f', p.order[b], y);
  }

  /** Only results, artifacts and receipts matter. */
  lemma SameManifest(p: Plan, c: Core, c': Core, f: string -> bool, f': string -> bool, ids: seq<nat>)
    requires c.results == c'.results && c.artifacts == c'.artifacts && SameReceipts(c.artifacts, f, f')
    requires IsManifest(p, c, f, ids)
    ensures IsManifest(p, c', f', ids)
  {
    hide Listed, Precedes;
    forall t, id
      ensures Listed(p.dag, c, f, t, id) <==> Listed(p.dag, c', f', t, id)
    {
      SameListed(p.dag, c, c', f, f', t, id);
    }
    forall i, j | 0 <= i < j < |ids|
      ensures Precedes(p.dag, c', f', p.order, ids[i], ids[j])
    {
      SamePrecedes(p, c, c', f, f', ids[i], ids[j]);
    }
  }

  lemma EarlierOneWay(listed: seq<nat>, x: nat, y: nat)
    requires Earlier(listed, x, y)
    ensures !Earlier(listed, y, x)
  {
  }

  lemma ListedOwner(dag: Dag, c: Core, receiptOk: string -> bool, t: TaskId, u: TaskId, id: nat)
    requires Listed(dag, c, receiptOk, t, id) && Listed(dag, c, receiptOk, u, id)
    ensures t == u
  {
  }

  lemma PrecedesOneWay(p: Plan, c: Core, receiptOk: string -> bool, x: nat, y: nat)
    requires Distinct(p.order) && Precedes(p.dag, c, receiptOk, p.order, x, y)
    ensures !Precedes(p.dag, c, receiptOk, p.order, y, x)
  {
    hide Earlier, StillValid, Declared;
    var order := p.order;
    var a, b :| 0 <= a <= b < |order|
                && Listed(p.dag, c, receiptOk, order[a], x) && Listed(p.dag, c, receiptOk, order[b], y)
                && (a == b ==> Earlier(c.results[order[a]].artifactIds, x, y));
    if a', b' :| 0 <= a' <= b' < |order|
                 && Listed(p.dag, c, receiptOk, order[a'], y) && Listed(p.dag, c, receiptOk, order[b'], x)
                 && (a' == b' ==> Earlier(c.results[order[a']].artifactIds, y, x)) {
      ListedOwner(p.dag, c, receiptOk, order[a], order[b'], x);
      ListedOwner(p.dag, c, receiptOk, order[b], order[a'], y);
      EarlierOneWay(c.results[order[a]].artifactIds, x, y);
    }
  }

  lemma FoundLater(ids: seq<nat>, ids': seq<nat>, k: nat, m: nat)
    requires Distinct(ids) && k < |ids| && k <= |ids'| && ids[..k] == ids'[..k]
    requires m < |ids'| && ids'[m] == ids[k]
    ensures m >= k
  {
  }

  /** Two manifests of the same results agree up to every length. */
  lemma {:induction false} ManifestPrefix(
    p: Plan, c: Core, receiptOk: string -> bool, ids: seq<nat>, ids': seq<nat>, k: nat)
    requires Distinct(p.order) && IsManifest(p, c, receiptOk, ids) && IsManifest(p, c, receiptOk, ids')
    requires k <= |ids|
    ensures k <= |ids'| && ids[..k] == ids'[..k]
  {
    hide ListedSome, Precedes;
    if k > 0 {
      ManifestPrefix(p, c, receiptOk, ids, ids', k - 1);
      var x := ids[k - 1];
      assert x in ids && x in ids';
      var m :| 0 <= m < |ids'| && ids'[m] == x;
      FoundLater(ids, ids', k - 1, m);
      if m > k - 1 {
        var y := ids'[k - 1];
        assert y in ids' && y in ids;
        var n :| 0 <= n < |ids| && ids[n] == y;
        FoundLater(ids', ids, k - 1, n);
        PrecedesOneWay(p, c, receiptOk, x, y);
      }
      assert ids[..k] == ids[..k - 1] + [x] && ids'[..k] == ids'[..k - 1] + [ids'[k - 1]];
    }
  }

  /** There is one manifest. */
  lemma ManifestIsUnique(p: Plan, c: Core, receiptOk: string -> bool, ids: seq<nat>, ids': seq<nat>)
    requires Distinct(p.order) && IsManifest(p, c, receiptOk, ids) && IsManifest(p, c, receiptOk, ids')
    ensures ids == ids'
  {
    hide IsManifest;
    ManifestPrefix(p, c, receiptOk, ids, ids', |ids|);
    ManifestPrefix(p, c, receiptOk, ids', ids, |ids'|);
  }
}
