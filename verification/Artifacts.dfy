/** The artifact tracker: registration, output validation with promotion, and the reuse check. */
module Artifacts {
  import opened Model

  /** The tracker's dictionary in insertion order; ids are pairwise different. */
  ghost predicate DistinctIds(arts: seq<Artifact>) {
    forall i, j :: 0 <= i < j < |arts| ==> arts[i].id != arts[j].id
  }

  function Lookup(arts: seq<Artifact>, id: nat): Option<Artifact> {
    if arts == [] then None
    else if arts[|arts| - 1].id == id then Some(arts[|arts| - 1])
    else Lookup(arts[..|arts| - 1], id)
  }

  /** The last artifact an attempt registered under a name: later entries win. */
  function Newest(arts: seq<Artifact>, run: RunId, attempt: nat, name: string): (r: Option<Artifact>)
    ensures r.Some? ==> r.value in arts && r.value.runId == run && r.value.attempt == attempt && r.value.name == name
  {
    if arts == [] then None
    else
      var last := arts[|arts| - 1];
      if last.runId == run && last.attempt == attempt && last.name == name then Some(last)
      else Newest(arts[..|arts| - 1], run, attempt, name)
  }

  predicate LocationOk(l: Location) {
    l.ref == "" || l.safe
  }

  predicate SupportedRule(rule: string) {
    rule == "presence" || rule == "digest"
  }

  predicate IntegrityOk(art: Artifact, d: OutputDecl) {
    !(d.hint != "" && art.digest != d.hint && (d.rule == "digest" || art.digest != ""))
  }

  datatype Check = Accept | Ignore | Complain | Raise

  /** What the validation loop does with one declaration, given the artifact found for it. */
  function Judge(d: OutputDecl, found: Option<Artifact>, run: RunId, t: TaskId): Check {
    if !SupportedRule(d.rule) then Raise
    else if found == None then (if d.required then Complain else Ignore)
    else
      var art := found.value;
      if art.kind != d.kind then Complain
      else if art.scope != d.scope then Complain
      else if art.runId != run || art.taskId != t then Raise
      else if !LocationOk(art.location) then Raise
      else if art.scope == External && art.location.ref == "" then Complain
      else if !IntegrityOk(art, d) then Raise
      else if art.validity == Invalid then Complain
      else Accept
  }

  function Promote(arts: seq<Artifact>, id: nat): seq<Artifact> {
    seq(|arts|, i requires 0 <= i < |arts| => if arts[i].id == id then arts[i].(validity := Valid) else arts[i])
  }

  datatype Validation = Validation(artifacts: seq<Artifact>, verdict: Result<seq<nat>, string>)

  /** The loop of validate_required_outputs from declaration `k` on; `view` is the tracker when it began. */
  function ValidateFrom(
    view: seq<Artifact>, arts: seq<Artifact>, run: RunId, t: TaskId, attempt: nat,
    decls: seq<OutputDecl>, k: nat, accepted: seq<nat>, clean: bool): Validation
    requires k <= |decls|
    decreases |decls| - k
  {
    if k == |decls| then Validation(arts, if clean then Ok(accepted) else Err("artifact_validation_failed"))
    else
      var found := Newest(view, run, attempt, decls[k].name);
      match Judge(decls[k], found, run, t)
      case Raise => Validation(arts, Err("artifact_validation_failed"))
      case Complain => ValidateFrom(view, arts, run, t, attempt, decls, k + 1, accepted, false)
      case Ignore => ValidateFrom(view, arts, run, t, attempt, decls, k + 1, accepted, clean)
      case Accept =>
        ValidateFrom(view, Promote(arts, found.value.id), run, t, attempt, decls, k + 1, accepted + [found.value.id],
            clean)
  }

  function Validate(arts: seq<Artifact>, run: RunId, t: TaskId, attempt: nat, decls: seq<OutputDecl>): Validation {
    ValidateFrom(arts, arts, run, t, attempt, decls, 0, [], true)
  }

  /** Whether an artifact proves output `d` of the given attempt. */
  predicate Proves(art: Artifact, run: RunId, t: TaskId, attempt: nat, d: OutputDecl, receiptOk: string -> bool) {
    && art.runId == run && art.taskId == t && art.attempt == attempt
    && art.name == d.name && art.kind == d.kind && art.scope == d.scope
    && art.validity == Valid
    && LocationOk(art.location)
    && receiptOk(art.location.ref)
  }

  /** The first listed id, in list order, whose artifact proves the output. */
  function FirstProof(arts: seq<Artifact>, ids: seq<nat>, run: RunId, t: TaskId, attempt: nat, d: OutputDecl,
      receiptOk: string -> bool): Option<Artifact> {
    if ids == [] then None
    else
      var found := Lookup(arts, ids[0]);
      if found.Some? && Proves(found.value, run, t, attempt, d, receiptOk) then found
      else FirstProof(arts, ids[1..], run, t, attempt, d, receiptOk)
  }

  predicate OutputProven(arts: seq<Artifact>, run: RunId, r: TaskResult, d: OutputDecl, receiptOk: string -> bool)
    requires r.attempts != []
  {
    var proof := FirstProof(arts, r.artifactIds, run, r.taskId, Last(r.attempts), d, receiptOk);
    proof.Some? && IntegrityOk(proof.value, d)
  }

  /** result_satisfies_required_outputs. */
  predicate Satisfies(arts: seq<Artifact>, run: RunId, task: Task, r: TaskResult, receiptOk: string -> bool) {
    && r.runId == run && r.taskId == task.id && r.attempts != []
    && forall k :: 0 <= k < |task.outputs| && task.outputs[k].required ==>
          OutputProven(arts, run, r, task.outputs[k], receiptOk)
  }

  /** The receipt check of a tracker that knows no workspace. */
  function Trust(): string -> bool { (ref: string) => true }

  /** For each required output, the receipt of the artifact that proves it, receipts aside, is in order. */
  predicate ReceiptsHold(arts: seq<Artifact>, run: RunId, task: Task, r: TaskResult, receiptOk: string -> bool)
    requires r.attempts != []
  {
    forall k :: 0 <= k < |task.outputs| && task.outputs[k].required ==>
      var proof := FirstProof(arts, r.artifactIds, run, r.taskId, Last(r.attempts), task.outputs[k], Trust());
      proof.Some? ==> receiptOk(proof.value.location.ref)
  }

  /** artifact_still_valid. */
  predicate StillValid(arts: seq<Artifact>, id: nat, receiptOk: string -> bool) {
    var found := Lookup(arts, id);
    && found.Some? && found.value.validity == Valid
    && LocationOk(found.value.location) && receiptOk(found.value.location.ref)
  }

  // ---- Lookup and promotion ----

  lemma {:induction false} LookupAt(arts: seq<Artifact>, i: nat)
    requires DistinctIds(arts) && i < |arts|
    ensures Lookup(arts, arts[i].id) == Some(arts[i])
  {
    if i < |arts| - 1 {
      LookupAt(arts[..|arts| - 1], i);
    }
  }

  lemma {:induction false} LookupSound(arts: seq<Artifact>, id: nat)
    ensures match Lookup(arts, id)
            case Some(art) => art in arts && art.id == id
            case None => forall i :: 0 <= i < |arts| ==> arts[i].id != id
  {
    if arts != [] && arts[|arts| - 1].id != id {
      LookupSound(arts[..|arts| - 1], id);
    }
  }

  lemma LookupAppend(arts: seq<Artifact>, art: Artifact, id: nat)
    ensures Lookup(arts + [art], id) == if art.id == id then Some(art) else Lookup(arts, id)
  {
    assert (arts + [art])[..|arts|] == arts;
  }

  /** `arts'` is `arts` with some artifacts of the one attempt made valid. */
  ghost predicate Promoted(arts: seq<Artifact>, arts': seq<Artifact>, attempt: nat) {
    && |arts'| == |arts|
    && forall i :: 0 <= i < |arts| ==>
         arts'[i] == arts[i] || (arts'[i] == arts[i].(validity := Valid) && arts[i].attempt == attempt)
  }

  lemma {:induction false} LookupPromoted(arts: seq<Artifact>, arts': seq<Artifact>, attempt: nat, id: nat)
    requires Promoted(arts, arts', attempt)
    ensures match Lookup(arts, id)
            case None => Lookup(arts', id) == None
            case Some(art) =>
              var found := Lookup(arts', id);
              found.Some? && (found.value == art || (art.attempt == attempt && found.value == art.(validity := Valid)))
  {
    if arts != [] && arts[|arts| - 1].id != id {
      LookupPromoted(arts[..|arts| - 1], arts'[..|arts| - 1], attempt, id);
    }
  }

  lemma {:induction false} ValidateFromPromotes(
    view: seq<Artifact>, base: seq<Artifact>, arts: seq<Artifact>, run: RunId, t: TaskId, attempt: nat,
    decls: seq<OutputDecl>, k: nat, accepted: seq<nat>, clean: bool)
    requires k <= |decls|
    requires DistinctIds(base) && view == base && Promoted(base, arts, attempt)
    ensures Promoted(base, ValidateFrom(view, arts, run, t, attempt, decls, k, accepted, clean).artifacts, attempt)
    decreases |decls| - k
  {
    if k < |decls| {
      var found := Newest(view, run, attempt, decls[k].name);
      match Judge(decls[k], found, run, t)
      case Raise =>
      case Complain => ValidateFromPromotes(view, base, arts, run, t, attempt, decls, k + 1, accepted, false);
      case Ignore => ValidateFromPromotes(view, base, arts, run, t, attempt, decls, k + 1, accepted, clean);
      case Accept =>
        PromoteOne(base, arts, attempt, found.value);
        ValidateFromPromotes(view, base, Promote(arts, found.value.id), run, t, attempt, decls, k + 1,
            accepted + [found.value.id], clean);
    }
  }

  lemma PromoteOne(base: seq<Artifact>, arts: seq<Artifact>, attempt: nat, art: Artifact)
    requires DistinctIds(base) && Promoted(base, arts, attempt) && art in base && art.attempt == attempt
    ensures Promoted(base, Promote(arts, art.id), attempt)
  {
    var j :| 0 <= j < |base| && base[j] == art;
    forall i | 0 <= i < |base| && arts[i].id == art.id
      ensures i == j
    {
      assert arts[i].id == base[i].id;
    }
  }

  /** Validation changes nothing but the validity of the attempt's own artifacts, whatever its verdict. */
  lemma ValidatePromotes(arts: seq<Artifact>, run: RunId, t: TaskId, attempt: nat, decls: seq<OutputDecl>)
    requires DistinctIds(arts)
    ensures Promoted(arts, Validate(arts, run, t, attempt, decls).artifacts, attempt)
  {
    ValidateFromPromotes(arts, arts, arts, run, t, attempt, decls, 0, [], true);
  }

  // ---- What an accepting validation means ----

  ghost predicate Accepted(view: seq<Artifact>, arts: seq<Artifact>, run: RunId, t: TaskId, attempt: nat,
      d: OutputDecl, id: nat) {
    var found := Newest(view, run, attempt, d.name);
    && found.Some? && found.value.id == id && Judge(d, found, run, t) == Accept
    && Lookup(arts, id) == Some(found.value.(validity := Valid))
  }

  /** `ids` are the accepted artifacts of the first `k` declarations, in declaration order. */
  ghost predicate AcceptedSoFar(view: seq<Artifact>, arts: seq<Artifact>, run: RunId, t: TaskId, attempt: nat,
      decls: seq<OutputDecl>, k: nat, ids: seq<nat>, clean: bool)
    requires k <= |decls|
  {
    && (forall j :: 0 <= j < |ids| ==> ForSome(view, arts, run, t, attempt, decls, k, ids[j]))
    && (clean ==> forall i :: 0 <= i < k && decls[i].required ==> BySome(view, arts, run, t, attempt, decls[i], ids))
  }

  ghost predicate ForSome(view: seq<Artifact>, arts: seq<Artifact>, run: RunId, t: TaskId, attempt: nat,
      decls: seq<OutputDecl>, k: nat, id: nat)
    requires k <= |decls|
  {
    exists i :: 0 <= i < k && Accepted(view, arts, run, t, attempt, decls[i], id)
  }

  ghost predicate BySome(view: seq<Artifact>, arts: seq<Artifact>, run: RunId, t: TaskId, attempt: nat, d: OutputDecl,
      ids: seq<nat>) {
    exists j :: 0 <= j < |ids| && Accepted(view, arts, run, t, attempt, d, ids[j])
  }

  lemma {:induction false} AcceptStep(view: seq<Artifact>, arts: seq<Artifact>, run: RunId, t: TaskId, attempt: nat,
      d: OutputDecl, id: nat, d': OutputDecl)
    requires DistinctIds(view) && Promoted(view, arts, attempt)
    requires var found := Newest(view, run, attempt, d'.name); found.Some? && Judge(d', found, run, t) == Accept
    ensures var found := Newest(view, run, attempt, d'.name).value;
            && (Accepted(view, arts, run, t, attempt, d, id) ==>
                  Accepted(view, Promote(arts, found.id), run, t, attempt, d, id))
            && Accepted(view, Promote(arts, found.id), run, t, attempt, d', found.id)
  {
    var found := Newest(view, run, attempt, d'.name).value;
    var arts' := Promote(arts, found.id);
    var j :| 0 <= j < |view| && view[j] == found;
    assert DistinctIds(arts') by {
      forall x, y | 0 <= x < y < |arts'| ensures arts'[x].id != arts'[y].id {
        assert arts'[x].id == view[x].id && arts'[y].id == view[y].id;
      }
    }
    LookupAt(arts', j);
    if Accepted(view, arts, run, t, attempt, d, id) {
      var art := Newest(view, run, attempt, d.name).value;
      var i :| 0 <= i < |view| && view[i] == art;
      LookupAt(arts', i);
      LookupSound(arts, id);
      var x :| 0 <= x < |arts| && arts[x] == Lookup(arts, id).value;
      assert view[x].id == id;
      assert x == i;
    }
  }

  lemma {:induction false} AcceptMore(view: seq<Artifact>, arts: seq<Artifact>, run: RunId, t: TaskId, attempt: nat,
      decls: seq<OutputDecl>, k: nat, ids: seq<nat>, clean: bool)
    requires DistinctIds(view) && Promoted(view, arts, attempt) && k < |decls|
    requires AcceptedSoFar(view, arts, run, t, attempt, decls, k, ids, clean)
    requires var found := Newest(view, run, attempt, decls[k].name);
             found.Some? && Judge(decls[k], found, run, t) == Accept
    ensures var id := Newest(view, run, attempt, decls[k].name).value.id;
            AcceptedSoFar(view, Promote(arts, id), run, t, attempt, decls, k + 1, ids + [id], clean)
  {
    var id := Newest(view, run, attempt, decls[k].name).value.id;
    var arts' := Promote(arts, id);
    var ids' := ids + [id];
    AcceptStep(view, arts, run, t, attempt, decls[k], id, decls[k]);
    forall j | 0 <= j < |ids'|
      ensures ForSome(view, arts', run, t, attempt, decls, k + 1, ids'[j])
    {
      if j < |ids| {
        assert ForSome(view, arts, run, t, attempt, decls, k, ids[j]);
        var i :| 0 <= i < k && Accepted(view, arts, run, t, attempt, decls[i], ids[j]);
        AcceptStep(view, arts, run, t, attempt, decls[i], ids[j], decls[k]);
        assert Accepted(view, arts', run, t, attempt, decls[i], ids'[j]);
      } else {
        assert Accepted(view, arts', run, t, attempt, decls[k], ids'[j]);
      }
    }
    if clean {
      forall i | 0 <= i < k + 1 && decls[i].required
        ensures BySome(view, arts', run, t, attempt, decls[i], ids')
      {
        if i < k {
          assert BySome(view, arts, run, t, attempt, decls[i], ids);
          var j :| 0 <= j < |ids| && Accepted(view, arts, run, t, attempt, decls[i], ids[j]);
          AcceptStep(view, arts, run, t, attempt, decls[i], ids[j], decls[k]);
          assert Accepted(view, arts', run, t, attempt, decls[i], ids'[j]);
        } else {
          assert Accepted(view, arts', run, t, attempt, decls[i], ids'[|ids|]);
        }
      }
    }
  }

  lemma AcceptedWeaken(view: seq<Artifact>, arts: seq<Artifact>, run: RunId, t: TaskId, attempt: nat,
      decls: seq<OutputDecl>, k: nat, ids: seq<nat>, clean: bool, clean': bool)
    requires k < |decls| && AcceptedSoFar(view, arts, run, t, attempt, decls, k, ids, clean)
    requires clean' ==> clean && !decls[k].required
    ensures AcceptedSoFar(view, arts, run, t, attempt, decls, k + 1, ids, clean')
  {
    forall j | 0 <= j < |ids|
      ensures ForSome(view, arts, run, t, attempt, decls, k + 1, ids[j])
    {
      assert ForSome(view, arts, run, t, attempt, decls, k, ids[j]);
    }
  }

  lemma {:induction false} ValidateFromAccepts(
    view: seq<Artifact>, arts: seq<Artifact>, run: RunId, t: TaskId, attempt: nat,
    decls: seq<OutputDecl>, k: nat, ids: seq<nat>, clean: bool)
    requires k <= |decls| && DistinctIds(view) && Promoted(view, arts, attempt)
    requires AcceptedSoFar(view, arts, run, t, attempt, decls, k, ids, clean)
    requires ValidateFrom(view, arts, run, t, attempt, decls, k, ids, clean).verdict.Ok?
    ensures var v := ValidateFrom(view, arts, run, t, attempt, decls, k, ids, clean);
            AcceptedSoFar(view, v.artifacts, run, t, attempt, decls, |decls|, v.verdict.value, true)
    decreases |decls| - k
  {
    if k < |decls| {
      var found := Newest(view, run, attempt, decls[k].name);
      match Judge(decls[k], found, run, t)
      case Raise =>
      case Complain =>
        AcceptedWeaken(view, arts, run, t, attempt, decls, k, ids, clean, false);
        ValidateFromAccepts(view, arts, run, t, attempt, decls, k + 1, ids, false);
      case Ignore =>
        AcceptedWeaken(view, arts, run, t, attempt, decls, k, ids, clean, clean);
        ValidateFromAccepts(view, arts, run, t, attempt, decls, k + 1, ids, clean);
      case Accept =>
        AcceptMore(view, arts, run, t, attempt, decls, k, ids, clean);
        PromoteOne(view, arts, attempt, found.value);
        ValidateFromAccepts(view, Promote(arts, found.value.id), run, t, attempt, decls, k + 1, ids + [found.value.id],
            clean);
    }
  }

  /** Accepted ids are exactly the newest artifacts of the declarations, all valid afterwards. */
  lemma ValidateAccepts(arts: seq<Artifact>, run: RunId, t: TaskId, attempt: nat, decls: seq<OutputDecl>)
    requires DistinctIds(arts) && Validate(arts, run, t, attempt, decls).verdict.Ok?
    ensures var v := Validate(arts, run, t, attempt, decls);
            AcceptedSoFar(arts, v.artifacts, run, t, attempt, decls, |decls|, v.verdict.value, true)
  {
    ValidateFromAccepts(arts, arts, run, t, attempt, decls, 0, [], true);
  }

  // ---- Reuse of a recorded success ----

  /** Prior ids first, then the new ones that are not there yet. */
  function Merge(prior: seq<nat>, ids: seq<nat>): (r: seq<nat>)
    ensures forall id :: id in r <==> id in prior || id in ids
  {
    if ids == [] then prior
    else
      var front := Merge(prior, ids[..|ids| - 1]);
      var last := ids[|ids| - 1];
      assert forall id :: id in ids <==> id in ids[..|ids| - 1] || id == last;
      if last in front then front else front + [last]
  }

  lemma {:induction false} FirstProofFound(arts: seq<Artifact>, ids: seq<nat>, run: RunId, t: TaskId, attempt: nat,
      d: OutputDecl, receiptOk: string -> bool, j: nat)
    requires j < |ids|
    requires var found := Lookup(arts, ids[j]); found.Some? && Proves(found.value, run, t, attempt, d, receiptOk)
    ensures var proof := FirstProof(arts, ids, run, t, attempt, d, receiptOk);
            proof.Some? && Proves(proof.value, run, t, attempt, d, receiptOk)
            && exists i :: 0 <= i < |ids| && Lookup(arts, ids[i]) == proof
  {
    var found := Lookup(arts, ids[0]);
    if found.Some? && Proves(found.value, run, t, attempt, d, receiptOk) {
      assert Lookup(arts, ids[0]) == FirstProof(arts, ids, run, t, attempt, d, receiptOk);
    } else {
      FirstProofFound(arts, ids[1..], run, t, attempt, d, receiptOk, j - 1);
      var rest := FirstProof(arts, ids[1..], run, t, attempt, d, receiptOk);
      var i :| 0 <= i < |ids[1..]| && Lookup(arts, ids[1..][i]) == rest;
      assert Lookup(arts, ids[i + 1]) == FirstProof(arts, ids, run, t, attempt, d, receiptOk);
    }
  }

  /** Ids none of whose artifacts come from `attempt`. */
  ghost predicate Foreign(arts: seq<Artifact>, ids: seq<nat>, attempt: nat) {
    forall id :: id in ids ==> Lookup(arts, id).Some? ==> Lookup(arts, id).value.attempt != attempt
  }

  lemma AcceptedProves(view: seq<Artifact>, arts: seq<Artifact>, run: RunId, t: TaskId, attempt: nat, d: OutputDecl,
      id: nat)
    requires Accepted(view, arts, run, t, attempt, d, id)
    ensures Proves(Lookup(arts, id).value, run, t, attempt, d, Trust()) && IntegrityOk(Lookup(arts, id).value, d)
  {
  }

  lemma AcceptedOutputProven(
    view: seq<Artifact>, arts: seq<Artifact>, run: RunId, decls: seq<OutputDecl>, r: TaskResult,
    prior: seq<nat>, ids: seq<nat>, k: nat)
    requires r.attempts != [] && k < |decls| && decls[k].required
    requires forall i, j :: 0 <= i < j < |decls| ==> decls[i].name != decls[j].name
    requires AcceptedSoFar(view, arts, run, r.taskId, Last(r.attempts), decls, |decls|, ids, true)
    requires Foreign(arts, prior, Last(r.attempts))
    requires forall id :: id in r.artifactIds <==> id in prior || id in ids
    ensures OutputProven(arts, run, r, decls[k], Trust())
  {
    var attempt := Last(r.attempts);
    var d := decls[k];
    assert BySome(view, arts, run, r.taskId, attempt, d, ids);
    var j :| 0 <= j < |ids| && Accepted(view, arts, run, r.taskId, attempt, d, ids[j]);
    AcceptedProves(view, arts, run, r.taskId, attempt, d, ids[j]);
    assert ids[j] in r.artifactIds;
    var x :| 0 <= x < |r.artifactIds| && r.artifactIds[x] == ids[j];
    FirstProofFound(arts, r.artifactIds, run, r.taskId, attempt, d, Trust(), x);
    var proof := FirstProof(arts, r.artifactIds, run, r.taskId, attempt, d, Trust()).value;
    var y :| 0 <= y < |r.artifactIds| && Lookup(arts, r.artifactIds[y]) == Some(proof);
    var id := r.artifactIds[y];
    assert id in ids;
    assert ForSome(view, arts, run, r.taskId, attempt, decls, |decls|, id);
    var i :| 0 <= i < |decls| && Accepted(view, arts, run, r.taskId, attempt, decls[i], id);
    AcceptedProves(view, arts, run, r.taskId, attempt, decls[i], id);
    assert decls[i].name == d.name;
    assert i == k;
  }

  /** The result's last attempt has at most one listed artifact a name. */
  ghost predicate OneProofEach(arts: seq<Artifact>, r: TaskResult) {
    r.attempts != [] &&
    forall x, y :: x in r.artifactIds && y in r.artifactIds && SameNamed(arts, x, y, Last(r.attempts)) ==> x == y
  }

  predicate SameNamed(arts: seq<Artifact>, x: nat, y: nat, attempt: nat) {
    var a, b := Lookup(arts, x), Lookup(arts, y);
    a.Some? && b.Some? && a.value.attempt == attempt && b.value.attempt == attempt && a.value.name == b.value.name
  }

  lemma AcceptedOnce(view: seq<Artifact>, arts: seq<Artifact>, run: RunId, t: TaskId, attempt: nat,
      decls: seq<OutputDecl>, ids: seq<nat>, x: nat, y: nat)
    requires AcceptedSoFar(view, arts, run, t, attempt, decls, |decls|, ids, true)
    requires x in ids && y in ids && SameNamed(arts, x, y, attempt)
    ensures x == y
  {
    assert ForSome(view, arts, run, t, attempt, decls, |decls|, x);
    assert ForSome(view, arts, run, t, attempt, decls, |decls|, y);
    var i :| 0 <= i < |decls| && Accepted(view, arts, run, t, attempt, decls[i], x);
    var j :| 0 <= j < |decls| && Accepted(view, arts, run, t, attempt, decls[j], y);
  }

  lemma ValidatedOnce(arts: seq<Artifact>, run: RunId, task: Task, prior: seq<nat>, r: TaskResult)
    requires DistinctIds(arts) && r.attempts != [] && Foreign(arts, prior, Last(r.attempts))
    requires var v := Validate(arts, run, task.id, Last(r.attempts), task.outputs);
             v.verdict.Ok? && r.artifactIds == Merge(prior, v.verdict.value)
    ensures OneProofEach(Validate(arts, run, task.id, Last(r.attempts), task.outputs).artifacts, r)
  {
    var attempt := Last(r.attempts);
    var v := Validate(arts, run, task.id, attempt, task.outputs);
    ValidateAccepts(arts, run, task.id, attempt, task.outputs);
    ForeignAfterValidate(arts, run, task.id, attempt, task.outputs, prior);
    hide Validate, AcceptedSoFar, DistinctIds;
    forall x, y | x in r.artifactIds && y in r.artifactIds && SameNamed(v.artifacts, x, y, attempt)
      ensures x == y
    {
      AcceptedOnce(arts, v.artifacts, run, task.id, attempt, task.outputs, v.verdict.value, x, y);
    }
  }

  /** A validation that accepts makes a result that passes the reuse check exactly while its receipts hold. */
  lemma ValidatedSatisfies(arts: seq<Artifact>, run: RunId, task: Task, prior: seq<nat>, r: TaskResult,
      receiptOk: string -> bool)
    requires DistinctIds(arts) && r.runId == run && r.taskId == task.id && r.attempts != []
    requires forall i, j :: 0 <= i < j < |task.outputs| ==> task.outputs[i].name != task.outputs[j].name
    requires Foreign(arts, prior, Last(r.attempts))
    requires var v := Validate(arts, run, task.id, Last(r.attempts), task.outputs);
             v.verdict.Ok? && r.artifactIds == Merge(prior, v.verdict.value)
    ensures var arts' := Validate(arts, run, task.id, Last(r.attempts), task.outputs).artifacts;
            && Satisfies(arts', run, task, r, Trust())
            && (Satisfies(arts', run, task, r, receiptOk) <==> ReceiptsHold(arts', run, task, r, receiptOk))
  {
    ValidatedTrusted(arts, run, task, prior, r);
    ValidatedOnce(arts, run, task, prior, r);
    hide Validate, Satisfies, ReceiptsHold, OneProofEach;
    var arts' := Validate(arts, run, task.id, Last(r.attempts), task.outputs).artifacts;
    ReuseNeedsReceipts(arts', run, task, r, receiptOk);
  }

  lemma ValidatedTrusted(arts: seq<Artifact>, run: RunId, task: Task, prior: seq<nat>, r: TaskResult)
    requires DistinctIds(arts) && r.runId == run && r.taskId == task.id && r.attempts != []
    requires forall i, j :: 0 <= i < j < |task.outputs| ==> task.outputs[i].name != task.outputs[j].name
    requires Foreign(arts, prior, Last(r.attempts))
    requires var v := Validate(arts, run, task.id, Last(r.attempts), task.outputs);
             v.verdict.Ok? && r.artifactIds == Merge(prior, v.verdict.value)
    ensures Satisfies(Validate(arts, run, task.id, Last(r.attempts), task.outputs).artifacts, run, task, r, Trust())
  {
    var attempt := Last(r.attempts);
    var v := Validate(arts, run, task.id, attempt, task.outputs);
    ValidateAccepts(arts, run, task.id, attempt, task.outputs);
    ForeignAfterValidate(arts, run, task.id, attempt, task.outputs, prior);
    forall k | 0 <= k < |task.outputs| && task.outputs[k].required
      ensures OutputProven(v.artifacts, run, r, task.outputs[k], Trust())
    {
      AcceptedOutputProven(arts, v.artifacts, run, task.outputs, r, prior, v.verdict.value, k);
    }
  }

  // ---- What receipts decide ----

  /** An artifact that proves an output under some receipt check proves it under none, and its receipt is in order. */
  lemma ProvesUnder(art: Artifact, run: RunId, t: TaskId, attempt: nat, d: OutputDecl, receiptOk: string -> bool)
    ensures Proves(art, run, t, attempt, d, receiptOk)
       <==> Proves(art, run, t, attempt, d, Trust()) && receiptOk(art.location.ref)
  {
  }

  lemma {:induction false} FirstProofIsListed(arts: seq<Artifact>, ids: seq<nat>, run: RunId, t: TaskId, attempt: nat,
      d: OutputDecl, receiptOk: string -> bool)
    requires FirstProof(arts, ids, run, t, attempt, d, receiptOk).Some?
    ensures var art := FirstProof(arts, ids, run, t, attempt, d, receiptOk).value;
            Proves(art, run, t, attempt, d, receiptOk) && art.id in ids && Lookup(arts, art.id) == Some(art)
  {
    LookupSound(arts, ids[0]);
    var found := Lookup(arts, ids[0]);
    if found.Some? && Proves(found.value, run, t, attempt, d, receiptOk) {
    } else {
      FirstProofIsListed(arts, ids[1..], run, t, attempt, d, receiptOk);
    }
  }

  /** With one listed artifact a name, one required output is proven exactly when its one proof has its receipt. */
  lemma OutputNeedsReceipt(arts: seq<Artifact>, run: RunId, r: TaskResult, d: OutputDecl, receiptOk: string -> bool)
    requires r.attempts != [] && OneProofEach(arts, r) && OutputProven(arts, run, r, d, Trust())
    ensures var proof := FirstProof(arts, r.artifactIds, run, r.taskId, Last(r.attempts), d, Trust()).value;
            && OutputProven(arts, run, r, d, receiptOk) == receiptOk(proof.location.ref)
            && (receiptOk(proof.location.ref) ==>
                  FirstProof(arts, r.artifactIds, run, r.taskId, Last(r.attempts), d, receiptOk) == Some(proof))
  {
    hide Proves, IntegrityOk;
    var ids, a := r.artifactIds, Last(r.attempts);
    var proof := FirstProof(arts, ids, run, r.taskId, a, d, Trust()).value;
    FirstProofIsListed(arts, ids, run, r.taskId, a, d, Trust());
    ProvesUnder(proof, run, r.taskId, a, d, receiptOk);
    if receiptOk(proof.location.ref) {
      var j :| 0 <= j < |ids| && ids[j] == proof.id;
      FirstProofFound(arts, ids, run, r.taskId, a, d, receiptOk, j);
    }
    if FirstProof(arts, ids, run, r.taskId, a, d, receiptOk).Some? {
      var other := FirstProof(arts, ids, run, r.taskId, a, d, receiptOk).value;
      FirstProofIsListed(arts, ids, run, r.taskId, a, d, receiptOk);
      ProvesUnder(other, run, r.taskId, a, d, receiptOk);
      ProofsSameNamed(arts, run, r.taskId, a, d, proof, other);
    }
  }

  lemma ProofsSameNamed(arts: seq<Artifact>, run: RunId, t: TaskId, attempt: nat, d: OutputDecl, x: Artifact,
      y: Artifact)
    requires Proves(x, run, t, attempt, d, Trust()) && Proves(y, run, t, attempt, d, Trust())
    requires Lookup(arts, x.id) == Some(x) && Lookup(arts, y.id) == Some(y)
    ensures SameNamed(arts, x.id, y.id, attempt)
  {
  }

  /** A recorded success passes the reuse check exactly while the receipts of its proofs hold. */
  lemma ReuseNeedsReceipts(arts: seq<Artifact>, run: RunId, task: Task, r: TaskResult, receiptOk: string -> bool)
    requires Satisfies(arts, run, task, r, Trust()) && OneProofEach(arts, r)
    ensures Satisfies(arts, run, task, r, receiptOk) <==> ReceiptsHold(arts, run, task, r, receiptOk)
  {
    hide OneProofEach, OutputProven;
    forall k | 0 <= k < |task.outputs| && task.outputs[k].required
      ensures var proof := FirstProof(arts, r.artifactIds, run, r.taskId, Last(r.attempts), task.outputs[k], Trust());
              proof.Some?
              && OutputProven(arts, run, r, task.outputs[k], receiptOk) == receiptOk(proof.value.location.ref)
    {
      ProvenHasProof(arts, run, r, task.outputs[k]);
      OutputNeedsReceipt(arts, run, r, task.outputs[k], receiptOk);
    }
  }

  lemma ProvenHasProof(arts: seq<Artifact>, run: RunId, r: TaskResult, d: OutputDecl)
    requires r.attempts != [] && OutputProven(arts, run, r, d, Trust())
    ensures FirstProof(arts, r.artifactIds, run, r.taskId, Last(r.attempts), d, Trust()).Some?
  {
  }

  lemma ForeignAfterValidate(arts: seq<Artifact>, run: RunId, t: TaskId, attempt: nat, decls: seq<OutputDecl>,
      prior: seq<nat>)
    requires DistinctIds(arts) && Foreign(arts, prior, attempt)
    ensures Foreign(Validate(arts, run, t, attempt, decls).artifacts, prior, attempt)
  {
    ValidatePromotes(arts, run, t, attempt, decls);
    var arts' := Validate(arts, run, t, attempt, decls).artifacts;
    forall id | id in prior
      ensures Lookup(arts', id).Some? ==> Lookup(arts', id).value.attempt != attempt
    {
      LookupPromoted(arts, arts', attempt, id);
    }
  }

  /** The reuse check looks only at artifacts of the result's last attempt. */
  lemma SatisfiesStable(arts: seq<Artifact>, arts': seq<Artifact>, run: RunId, task: Task, r: TaskResult,
      receiptOk: string -> bool)
    requires Satisfies(arts, run, task, r, receiptOk)
    requires forall id :: id in r.artifactIds ==> SameProof(arts, arts', id, Last(r.attempts))
    ensures Satisfies(arts', run, task, r, receiptOk)
  {
    forall k | 0 <= k < |task.outputs| && task.outputs[k].required
      ensures OutputProven(arts', run, r, task.outputs[k], receiptOk)
    {
      assert OutputProven(arts, run, r, task.outputs[k], receiptOk);
      FirstProofStable(arts, arts', r.artifactIds, run, r.taskId, Last(r.attempts), task.outputs[k], receiptOk);
    }
  }

  lemma OneProofStable(arts: seq<Artifact>, arts': seq<Artifact>, r: TaskResult)
    requires OneProofEach(arts, r)
    requires forall id :: id in r.artifactIds ==> SameProof(arts, arts', id, Last(r.attempts))
    ensures OneProofEach(arts', r)
  {
    forall x, y | x in r.artifactIds && y in r.artifactIds && SameNamed(arts', x, y, Last(r.attempts))
      ensures x == y
    {
      assert SameProof(arts, arts', x, Last(r.attempts)) && SameProof(arts, arts', y, Last(r.attempts));
      assert SameNamed(arts, x, y, Last(r.attempts));
    }
  }

  ghost predicate SameProof(arts: seq<Artifact>, arts': seq<Artifact>, id: nat, attempt: nat) {
    || Lookup(arts, id) == Lookup(arts', id)
    || (Lookup(arts, id).Some? && Lookup(arts', id).Some?
        && Lookup(arts, id).value.attempt != attempt && Lookup(arts', id).value.attempt != attempt)
  }

  lemma {:induction false} FirstProofStable(arts: seq<Artifact>, arts': seq<Artifact>, ids: seq<nat>, run: RunId,
      t: TaskId, attempt: nat, d: OutputDecl, receiptOk: string -> bool)
    requires forall id :: id in ids ==> SameProof(arts, arts', id, attempt)
    ensures FirstProof(arts', ids, run, t, attempt, d, receiptOk)
         == FirstProof(arts, ids, run, t, attempt, d, receiptOk)
  {
    if ids != [] {
      assert SameProof(arts, arts', ids[0], attempt);
      FirstProofStable(arts, arts', ids[1..], run, t, attempt, d, receiptOk);
    }
  }
}
