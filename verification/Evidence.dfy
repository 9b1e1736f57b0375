/** What validation, the reuse check and the manifest ask of an artifact, condition by condition. */
module Evidence {
  import opened Model
  import opened Artifacts
  import opened Machine
  import opened Manifest

  // ---- Validation ----

  /** The digest is the one asked for; only the presence rule lets a missing digest pass. */
  predicate DigestFits(art: Artifact, d: OutputDecl) {
    d.hint == "" || art.digest == d.hint || (d.rule != "digest" && art.digest == "")
  }

  /** An artifact of the kind and the scope that were declared. */
  predicate AsDeclared(art: Artifact, d: OutputDecl) {
    art.kind == d.kind && art.scope == d.scope
  }

  /** Why the loop stops at a declared artifact: it is not this task's, or its place or its digest is wrong. */
  predicate Offends(art: Artifact, d: OutputDecl, run: RunId, t: TaskId) {
    || art.runId != run || art.taskId != t
    || (art.location.ref != "" && !art.location.safe)
    || (!(d.scope == External && art.location.ref == "") && !DigestFits(art, d))
  }

  /**
    An artifact is accepted exactly when nothing speaks against it, and a missing one is passed over exactly when it is
    optional; the loop stops exactly at an unknown rule or an offending artifact, and complains of everything else.
  */
  lemma JudgeExactly(d: OutputDecl, found: Option<Artifact>, run: RunId, t: TaskId)
    ensures Judge(d, found, run, t) == Raise
       <==> d.rule !in {"presence", "digest"}
            || (found.Some? && AsDeclared(found.value, d) && Offends(found.value, d, run, t))
    ensures Judge(d, found, run, t) == Accept
       <==> && d.rule in {"presence", "digest"} && found.Some? && AsDeclared(found.value, d)
            && !Offends(found.value, d, run, t) && (d.scope == External ==> found.value.location.ref != "")
            && found.value.validity != Invalid
    ensures Judge(d, found, run, t) == Ignore <==> d.rule in {"presence", "digest"} && found.None? && !d.required
  {
  }

  /** The loop gets to declaration `k`: it stops at none before. */
  ghost predicate GetsTo(view: seq<Artifact>, run: RunId, t: TaskId, a: nat, decls: seq<OutputDecl>, k: nat)
    requires k <= |decls|
  {
    forall j :: 0 <= j < k ==> Judge(decls[j], Newest(view, run, a, decls[j].name), run, t) != Raise
  }

  /** The loop accepts this artifact for one of the first `k` declarations. */
  ghost predicate AcceptedFor(view: seq<Artifact>, run: RunId, t: TaskId, a: nat, decls: seq<OutputDecl>, k: nat,
      art: Artifact)
    requires k <= |decls|
  {
    exists j ::
      && 0 <= j < k && Newest(view, run, a, decls[j].name) == Some(art)
      && Judge(decls[j], Some(art), run, t) == Accept && GetsTo(view, run, t, a, decls, j)
  }

  /** The tracker after the first `k` declarations. */
  ghost predicate PromotedSoFar(view: seq<Artifact>, arts: seq<Artifact>, run: RunId, t: TaskId, a: nat,
      decls: seq<OutputDecl>, k: nat)
    requires k <= |decls|
  {
    && |arts| == |view|
    && forall i :: 0 <= i < |view| ==>
         arts[i] == if AcceptedFor(view, run, t, a, decls, k, view[i]) then view[i].(validity := Valid) else view[i]
  }

  lemma AcceptedNext(view: seq<Artifact>, run: RunId, t: TaskId, a: nat, decls: seq<OutputDecl>, k: nat, art: Artifact)
    requires k < |decls| && GetsTo(view, run, t, a, decls, k)
    ensures AcceptedFor(view, run, t, a, decls, k + 1, art)
       <==> AcceptedFor(view, run, t, a, decls, k, art)
            || (Newest(view, run, a, decls[k].name) == Some(art) && Judge(decls[k], Some(art), run, t) == Accept)
  {
    hide Judge, Newest;
  }

  lemma PromotedNext(view: seq<Artifact>, arts: seq<Artifact>, run: RunId, t: TaskId, a: nat, decls: seq<OutputDecl>,
      k: nat)
    requires DistinctIds(view) && k < |decls| && GetsTo(view, run, t, a, decls, k)
    requires PromotedSoFar(view, arts, run, t, a, decls, k)
    ensures var found := Newest(view, run, a, decls[k].name);
            var arts' := if found.Some? && Judge(decls[k], found, run, t) == Accept then Promote(arts, found.value.id)
                         else arts;
            PromotedSoFar(view, arts', run, t, a, decls, k + 1)
  {
    hide Judge, AcceptedFor;
    var found := Newest(view, run, a, decls[k].name);
    forall i | 0 <= i < |view|
      ensures AcceptedFor(view, run, t, a, decls, k + 1, view[i])
         <==> AcceptedFor(view, run, t, a, decls, k, view[i])
              || (found == Some(view[i]) && Judge(decls[k], found, run, t) == Accept)
    {
      AcceptedNext(view, run, t, a, decls, k, view[i]);
    }
    if found.Some? {
      var n :| 0 <= n < |view| && view[n] == found.value;
      assert forall i :: 0 <= i < |view| && view[i].id == found.value.id ==> i == n;
    }
  }

  lemma NothingAccepted(view: seq<Artifact>, run: RunId, t: TaskId, a: nat, decls: seq<OutputDecl>)
    ensures PromotedSoFar(view, view, run, t, a, decls, 0)
  {
  }

  /** No later declaration is reached once the loop stops. */
  lemma StoppedAt(view: seq<Artifact>, arts: seq<Artifact>, run: RunId, t: TaskId, a: nat, decls: seq<OutputDecl>,
      k: nat)
    requires k < |decls| && PromotedSoFar(view, arts, run, t, a, decls, k)
    requires Judge(decls[k], Newest(view, run, a, decls[k].name), run, t) == Raise
    ensures PromotedSoFar(view, arts, run, t, a, decls, |decls|)
  {
    hide Judge, Newest;
    forall i | 0 <= i < |view|
      ensures AcceptedFor(view, run, t, a, decls, |decls|, view[i]) <==> AcceptedFor(view, run, t, a, decls, k, view[i])
    {
      if AcceptedFor(view, run, t, a, decls, |decls|, view[i]) {
        var j :|
          && 0 <= j < |decls| && Newest(view, run, a, decls[j].name) == Some(view[i])
          && Judge(decls[j], Some(view[i]), run, t) == Accept && GetsTo(view, run, t, a, decls, j);
        assert j <= k;
      }
    }
  }

  lemma {:induction false} PromotedFrom(view: seq<Artifact>, arts: seq<Artifact>, run: RunId, t: TaskId, a: nat,
      decls: seq<OutputDecl>, k: nat, accepted: seq<nat>, clean: bool)
    requires DistinctIds(view) && k <= |decls| && GetsTo(view, run, t, a, decls, k)
    requires PromotedSoFar(view, arts, run, t, a, decls, k)
    ensures PromotedSoFar(view, ValidateFrom(view, arts, run, t, a, decls, k, accepted, clean).artifacts, run, t, a,
                decls, |decls|)
    decreases |decls| - k
  {
    hide Judge, Newest, PromotedSoFar, Promote, DistinctIds;
    if k < |decls| {
      var found := Newest(view, run, a, decls[k].name);
      PromotedNext(view, arts, run, t, a, decls, k);
      match Judge(decls[k], found, run, t)
      case Raise => StoppedAt(view, arts, run, t, a, decls, k);
      case Complain => PromotedFrom(view, arts, run, t, a, decls, k + 1, accepted, false);
      case Ignore => PromotedFrom(view, arts, run, t, a, decls, k + 1, accepted, clean);
      case Accept =>
        JudgeExactly(decls[k], found, run, t);
        PromotedFrom(view, Promote(arts, found.value.id), run, t, a, decls, k + 1, accepted + [found.value.id], clean);
    }
  }

  /** Validation makes valid exactly what it accepts before it stops, if it stops, whatever its verdict. */
  lemma PromotedExactly(arts: seq<Artifact>, run: RunId, t: TaskId, a: nat, decls: seq<OutputDecl>)
    requires DistinctIds(arts)
    ensures PromotedSoFar(arts, Validate(arts, run, t, a, decls).artifacts, run, t, a, decls, |decls|)
  {
    NothingAccepted(arts, run, t, a, decls);
    PromotedFrom(arts, arts, run, t, a, decls, 0, [], true);
  }

  // ---- The reuse check ----

  /** The listed id names an artifact of that attempt that is what was declared, valid, safe and with its receipt. */
  predicate Stands(arts: seq<Artifact>, id: nat, run: RunId, t: TaskId, a: nat, d: OutputDecl,
      receiptOk: string -> bool) {
    match Lookup(arts, id)
    case None => false
    case Some(art) =>
      && art.runId == run && art.taskId == t && art.attempt == a
      && art.name == d.name && art.kind == d.kind && art.scope == d.scope && art.validity == Valid
      && (art.location.ref == "" || art.location.safe) && receiptOk(art.location.ref)
  }

  /** The id at `n` is the first listed one that stands, and it has the right digest. */
  ghost predicate FirstAt(arts: seq<Artifact>, ids: seq<nat>, n: nat, run: RunId, t: TaskId, a: nat, d: OutputDecl,
      receiptOk: string -> bool)
    requires n < |ids|
  {
    && Stands(arts, ids[n], run, t, a, d, receiptOk) && DigestFits(Lookup(arts, ids[n]).value, d)
    && forall m :: 0 <= m < n ==> !Stands(arts, ids[m], run, t, a, d, receiptOk)
  }

  /** The first listed id that stands has the right digest. */
  ghost predicate StandsFor(arts: seq<Artifact>, ids: seq<nat>, run: RunId, t: TaskId, a: nat, d: OutputDecl,
      receiptOk: string -> bool) {
    exists n :: 0 <= n < |ids| && FirstAt(arts, ids, n, run, t, a, d, receiptOk)
  }

  lemma {:induction false} FirstStands(arts: seq<Artifact>, ids: seq<nat>, run: RunId, t: TaskId, a: nat,
      d: OutputDecl, receiptOk: string -> bool)
    ensures var proof := FirstProof(arts, ids, run, t, a, d, receiptOk);
            (proof.Some? && IntegrityOk(proof.value, d)) <==> StandsFor(arts, ids, run, t, a, d, receiptOk)
  {
    if ids != [] {
      FirstStands(arts, ids[1..], run, t, a, d, receiptOk);
      if Stands(arts, ids[0], run, t, a, d, receiptOk) {
        assert FirstAt(arts, ids, 0, run, t, a, d, receiptOk) <==> DigestFits(Lookup(arts, ids[0]).value, d);
      } else {
        StandsLater(arts, ids, run, t, a, d, receiptOk);
      }
    }
  }

  lemma FirstLater(arts: seq<Artifact>, ids: seq<nat>, n: nat, run: RunId, t: TaskId, a: nat, d: OutputDecl,
      receiptOk: string -> bool)
    requires n + 1 < |ids| && !Stands(arts, ids[0], run, t, a, d, receiptOk)
    ensures FirstAt(arts, ids, n + 1, run, t, a, d, receiptOk) <==> FirstAt(arts, ids[1..], n, run, t, a, d, receiptOk)
  {
    hide DigestFits;
    var rest := ids[1..];
    assert forall m :: 0 <= m < |rest| ==> rest[m] == ids[m + 1];
    assert (forall m :: 0 <= m < n + 1 ==> !Stands(arts, ids[m], run, t, a, d, receiptOk))
      <==> (forall m :: 0 <= m < n ==> !Stands(arts, rest[m], run, t, a, d, receiptOk)) by {
      hide Stands;
      if forall m :: 0 <= m < n + 1 ==> !Stands(arts, ids[m], run, t, a, d, receiptOk) {
        assert forall m :: 0 <= m < n ==> rest[m] == ids[m + 1];
      }
      if forall m :: 0 <= m < n ==> !Stands(arts, rest[m], run, t, a, d, receiptOk) {
        forall m | 0 <= m < n + 1
          ensures !Stands(arts, ids[m], run, t, a, d, receiptOk)
        {
          assert m > 0 ==> rest[m - 1] == ids[m];
        }
      }
    }
  }

  lemma StandsLater(arts: seq<Artifact>, ids: seq<nat>, run: RunId, t: TaskId, a: nat, d: OutputDecl,
      receiptOk: string -> bool)
    requires ids != [] && !Stands(arts, ids[0], run, t, a, d, receiptOk)
    ensures StandsFor(arts, ids, run, t, a, d, receiptOk) <==> StandsFor(arts, ids[1..], run, t, a, d, receiptOk)
  {
    assert forall n :: 0 <= n < |ids| && FirstAt(arts, ids, n, run, t, a, d, receiptOk) ==> n > 0;
    hide FirstAt, Stands;
    forall n: nat | n + 1 < |ids|
      ensures FirstAt(arts, ids, n + 1, run, t, a, d, receiptOk)
         <==> FirstAt(arts, ids[1..], n, run, t, a, d, receiptOk)
    {
      FirstLater(arts, ids, n, run, t, a, d, receiptOk);
    }
    if StandsFor(arts, ids, run, t, a, d, receiptOk) {
      var n :| 0 <= n < |ids| && FirstAt(arts, ids, n, run, t, a, d, receiptOk);
      assert FirstAt(arts, ids[1..], n - 1, run, t, a, d, receiptOk);
    }
  }

  /**
    A result is reusable exactly when it is this task's, an attempt was made, and for each required output the first
    listed artifact that stands for it has the right digest.
  */
  lemma SatisfiesExactly(arts: seq<Artifact>, run: RunId, task: Task, r: TaskResult, receiptOk: string -> bool)
    ensures Satisfies(arts, run, task, r, receiptOk)
       <==> && r.runId == run && r.taskId == task.id && r.attempts != []
            && forall k :: 0 <= k < |task.outputs| && task.outputs[k].required ==>
                 StandsFor(arts, r.artifactIds, run, task.id, Last(r.attempts), task.outputs[k], receiptOk)
  {
    hide FirstProof, IntegrityOk, StandsFor;
    if r.runId == run && r.taskId == task.id && r.attempts != [] {
      forall k | 0 <= k < |task.outputs|
        ensures OutputProven(arts, run, r, task.outputs[k], receiptOk)
           <==> StandsFor(arts, r.artifactIds, run, task.id, Last(r.attempts), task.outputs[k], receiptOk)
      {
        FirstStands(arts, r.artifactIds, run, task.id, Last(r.attempts), task.outputs[k], receiptOk);
      }
    }
  }

  // ---- The manifest ----

  lemma {:induction false} DeclaredExactly(outputs: seq<OutputDecl>, name: string)
    requires forall i, j :: 0 <= i < j < |outputs| ==> outputs[i].name != outputs[j].name
    ensures DeclarationOf(outputs, name).Some? <==> exists k :: 0 <= k < |outputs| && outputs[k].name == name
    ensures forall k :: 0 <= k < |outputs| && outputs[k].name == name ==>
              DeclarationOf(outputs, name) == Some(outputs[k])
  {
    if outputs != [] {
      DeclaredExactly(outputs[..|outputs| - 1], name);
    }
  }

  /** An id is listed for a task exactly when its recorded success lists it and it stands for a declared output. */
  lemma ListedExactly(p: Plan, c: Core, receiptOk: string -> bool, t: TaskId, id: nat)
    requires ValidPlan(p)
    ensures Listed(p.dag, c, receiptOk, t, id)
       <==> && t in p.dag.tasks && t in c.results && c.results[t].status == Success && c.results[t].attempts != []
            && id in c.results[t].artifactIds
            && exists k :: 0 <= k < |p.dag.tasks[t].outputs|
                 && Stands(c.artifacts, id, c.results[t].runId, t, Last(c.results[t].attempts),
                        p.dag.tasks[t].outputs[k], receiptOk)
  {
    hide ValidDag, StaticInputs, DeclarationOf;
    if t in p.dag.tasks && Lookup(c.artifacts, id).Some? {
      DeclaredExactly(p.dag.tasks[t].outputs, Lookup(c.artifacts, id).value.name);
    }
  }
}
