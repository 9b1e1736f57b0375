/** The artifact tracker object: a dictionary of artifacts, kept in insertion order. */
module Tracker {
  import opened Model
  import opened Artifacts
  import opened Trace

  /** Dictionary assignment: a known id keeps its place, a new one goes last. */
  function Put(arts: seq<Artifact>, art: Artifact): seq<Artifact> {
    if Lookup(arts, art.id).Some?
    then seq(|arts|, i requires 0 <= i < |arts| => if arts[i].id == art.id then art else arts[i])
    else arts + [art]
  }

  function PutAll(arts: seq<Artifact>, more: seq<Artifact>): seq<Artifact> {
    if more == [] then arts else Put(PutAll(arts, more[..|more| - 1]), more[|more| - 1])
  }

  lemma PutNew(arts: seq<Artifact>, art: Artifact)
    requires forall i :: 0 <= i < |arts| ==> arts[i].id != art.id
    ensures Put(arts, art) == arts + [art]
  {
    LookupSound(arts, art.id);
  }

  /** Hydrating an empty tracker from a stored list gives back exactly that list. */
  lemma {:induction false} HydrateFresh(stored: seq<Artifact>)
    requires DistinctIds(stored)
    ensures PutAll([], stored) == stored
  {
    if stored != [] {
      HydrateFresh(stored[..|stored| - 1]);
      PutNew(stored[..|stored| - 1], Last(stored));
    }
  }

  /** Hydrating again changes nothing. */
  lemma {:induction false} HydrateTwice(arts: seq<Artifact>, k: nat)
    requires DistinctIds(arts) && k <= |arts|
    ensures PutAll(arts, arts[..k]) == arts
  {
    if k > 0 {
      assert arts[..k][..k - 1] == arts[..k - 1];
      HydrateTwice(arts, k - 1);
      LookupAt(arts, k - 1);
      assert Put(arts, arts[k - 1]) == arts;
    }
  }

  /** Promoting through the object found when validation began is promoting the current entry. */
  lemma PutPromotes(view: seq<Artifact>, arts: seq<Artifact>, attempt: nat, art: Artifact)
    requires DistinctIds(view) && Promoted(view, arts, attempt) && art in view
    ensures Put(arts, art.(validity := Valid)) == Promote(arts, art.id)
  {
    var j :| 0 <= j < |view| && view[j] == art;
    LookupAt(view, j);
    LookupPromoted(view, arts, attempt, art.id);
    forall i | 0 <= i < |arts| && arts[i].id == art.id
      ensures arts[i].(validity := Valid) == art.(validity := Valid)
    {
      assert view[i].id == art.id;
    }
  }

  function Invalidated(arts: seq<Artifact>, id: nat): seq<Artifact> {
    var found := Lookup(arts, id);
    if found.Some? then Put(arts, found.value.(validity := Invalid)) else arts
  }

  /** An invalidated artifact can no longer be valid, and no other artifact notices. */
  lemma {:induction false} InvalidatedOnly(arts: seq<Artifact>, id: nat, other: nat)
    requires DistinctIds(arts) && Lookup(arts, id).Some?
    ensures other != id ==> Lookup(Invalidated(arts, id), other) == Lookup(arts, other)
    ensures Lookup(Invalidated(arts, id), id) == Some(Lookup(arts, id).value.(validity := Invalid))
  {
    LookupSound(arts, id);
    var art := Lookup(arts, id).value.(validity := Invalid);
    PutLookup(arts, art, other);
    PutLookup(arts, art, id);
  }

  lemma {:induction false} PutLookup(arts: seq<Artifact>, art: Artifact, id: nat)
    requires Lookup(arts, art.id).Some?
    ensures Lookup(Put(arts, art), id) == if id == art.id then Some(art) else Lookup(arts, id)
  {
    var arts' := Put(arts, art);
    var n := |arts| - 1;
    if arts[n].id != art.id {
      assert arts'[..n] == Put(arts[..n], art);
      PutLookup(arts[..n], art, id);
    } else if id != art.id {
      OthersKept(arts[..n], arts'[..n], art, id);
    }
  }

  lemma {:induction false} OthersKept(arts: seq<Artifact>, arts': seq<Artifact>, art: Artifact, id: nat)
    requires |arts'| == |arts| && id != art.id
    requires forall i :: 0 <= i < |arts| ==> arts'[i] == if arts[i].id == art.id then art else arts[i]
    ensures Lookup(arts', id) == Lookup(arts, id)
  {
    if arts != [] {
      OthersKept(arts[..|arts| - 1], arts'[..|arts| - 1], art, id);
    }
  }

  datatype TrackerError = UnsafeLocation | UnknownArtifact

  class ArtifactTracker {
    const ids: IdSource
    const receiptOk: string -> bool
    var artifacts: seq<Artifact>

    constructor (ids: IdSource, receiptOk: string -> bool)
      ensures this.ids == ids && this.receiptOk == receiptOk && artifacts == []
    {
      this.ids := ids;
      this.receiptOk := receiptOk;
      this.artifacts := [];
    }

    /** An unsafe location raises and registers nothing. */
    method RegisterCandidate(run: RunId, task: TaskId, attempt: nat, cand: Candidate, scope: Scope)
        returns (r: Result<Artifact, TrackerError>)
      modifies this, ids
      ensures r.Ok? <==> cand.location.ref == "" || cand.location.safe
      ensures r.Err? ==> artifacts == old(artifacts) && ids.next == old(ids.next)
      ensures r.Ok? ==>
                && r.value == Artifact(old(ids.next), cand.name, cand.kind, run, task, attempt, scope, cand.location,
                    cand.digest, Unchecked)
                && artifacts == Put(old(artifacts), r.value) && ids.next == old(ids.next) + 1
    {
      if cand.location.ref != "" && !cand.location.safe {
        return Err(UnsafeLocation);
      }
      var id := ids.Draw();
      var artifact := Artifact(id, cand.name, cand.kind, run, task, attempt, scope, cand.location, cand.digest,
          Unchecked);
      artifacts := Put(artifacts, artifact);
      return Ok(artifact);
    }

    /** The attempt's artifacts by name; the newest of a name wins. */
    method ByName(run: RunId, attempt: nat) returns (found: map<string, Artifact>)
      ensures forall name :: Newest(artifacts, run, attempt, name) == if name in found then Some(found[name]) else None
    {
      found := map[];
      for i := 0 to |artifacts|
        invariant forall name ::
                    Newest(artifacts[..i], run, attempt, name) == if name in found then Some(found[name]) else None
      {
        var art := artifacts[i];
        assert artifacts[..i + 1][..i] == artifacts[..i];
        if art.runId == run && art.attempt == attempt {
          found := found[art.name := art];
        }
      }
      assert artifacts[..|artifacts|] == artifacts;
    }

    /** validate_required_outputs: promotes what it accepts as it goes, and keeps the promotions even when it raises. */
    method ValidateRequiredOutputs(run: RunId, task: TaskId, attempt: nat, decls: seq<OutputDecl>)
        returns (r: Result<seq<nat>, string>)
      requires DistinctIds(artifacts)
      modifies `artifacts
      ensures Validation(artifacts, r) == Validate(old(artifacts), run, task, attempt, decls)
    {
      ghost var view := artifacts;
      var byName := ByName(run, attempt);
      var validated: seq<nat> := [];
      var missing: seq<string> := [];
      var invalid: seq<string> := [];
      for i := 0 to |decls|
        invariant Promoted(view, artifacts, attempt)
        invariant ValidateFrom(view, artifacts, run, task, attempt, decls, i, validated, missing == [] && invalid == [])
               == Validate(view, run, task, attempt, decls)
      {
        var d := decls[i];
        if !SupportedRule(d.rule) {
          return Err("artifact_validation_failed");
        }
        ghost var found := Newest(view, run, attempt, d.name);
        if d.name !in byName {
          assert found == None;
          if d.required {
            missing := missing + [d.name];
          }
        } else {
          var artifact := byName[d.name];
          assert found == Some(artifact);
          var check := Judge(d, Some(artifact), run, task);
          match check
          case Raise => return Err("artifact_validation_failed");
          case Complain => invalid := invalid + [d.name];
          case Ignore =>
          case Accept =>
            PutPromotes(view, artifacts, attempt, artifact);
            PromoteOne(view, artifacts, attempt, artifact);
            artifacts := Put(artifacts, artifact.(validity := Valid));
            validated := validated + [artifact.id];
        }
      }
      return if missing == [] && invalid == [] then Ok(validated) else Err("artifact_validation_failed");
    }

    method Invalidate(id: nat) returns (r: Result<Artifact, TrackerError>)
      modifies `artifacts
      ensures artifacts == Invalidated(old(artifacts), id)
      ensures r == match Lookup(old(artifacts), id)
                   case None => Err(UnknownArtifact)
                   case Some(art) => Ok(art.(validity := Invalid))
    {
      var existing := Lookup(artifacts, id);
      if existing == None {
        return Err(UnknownArtifact);
      }
      LookupSound(artifacts, id);
      var updated := existing.value.(validity := Invalid);
      artifacts := Put(artifacts, updated);
      return Ok(updated);
    }

    method HydrateArtifacts(stored: seq<Artifact>)
      modifies `artifacts
      ensures artifacts == PutAll(old(artifacts), stored)
    {
      for i := 0 to |stored|
        invariant artifacts == PutAll(old(artifacts), stored[..i])
      {
        assert stored[..i + 1][..i] == stored[..i];
        artifacts := Put(artifacts, stored[i]);
      }
      assert stored[..|stored|] == stored;
    }

    /** The listed artifacts that prove one output, in list order. */
    method Matches(run: RunId, task: TaskId, attempt: nat, listed: seq<nat>, d: OutputDecl)
        returns (found: seq<Artifact>)
      ensures FirstProof(artifacts, listed, run, task, attempt, d, receiptOk)
           == if found == [] then None else Some(found[0])
    {
      found := [];
      for i := 0 to |listed|
        invariant FirstProof(artifacts, listed, run, task, attempt, d, receiptOk)
               == if found != [] then Some(found[0])
                  else FirstProof(artifacts, listed[i..], run, task, attempt, d, receiptOk)
      {
        assert listed[i..][1..] == listed[i + 1..];
        var art := Lookup(artifacts, listed[i]);
        if art.Some? && Proves(art.value, run, task, attempt, d, receiptOk) {
          found := found + [art.value];
        }
      }
    }

    /** result_satisfies_required_outputs. */
    method ResultSatisfiesRequiredOutputs(run: RunId, task: Task, r: TaskResult) returns (ok: bool)
      ensures ok == Satisfies(artifacts, run, task, r, receiptOk)
    {
      if r.runId != run || r.taskId != task.id || r.attempts == [] {
        return false;
      }
      var attempt := r.attempts[|r.attempts| - 1];
      for i := 0 to |task.outputs|
        invariant forall k :: 0 <= k < i && task.outputs[k].required ==>
              OutputProven(artifacts, run, r, task.outputs[k], receiptOk)
      {
        var d := task.outputs[i];
        if !d.required {
          continue;
        }
        var found := Matches(run, task.id, attempt, r.artifactIds, d);
        if found == [] || !IntegrityOk(found[0], d) {
          assert !OutputProven(artifacts, run, r, task.outputs[i], receiptOk);
          return false;
        }
      }
      return true;
    }
  }
}
