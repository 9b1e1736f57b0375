/** Input resolution before a dispatch: required inputs and successful dependencies. */
module InputResolver {
  import opened Model
  import opened Artifacts

  datatype Blocker = MissingInput(name: string) | DependencyNotSuccessful(dep: TaskId)

  datatype ResolvedInput = ResolvedInput(name: string, artifactId: Option<nat>, kind: string, required: bool,
      valid: bool, role: string)

  predicate InputValid(arts: seq<Artifact>, run: RunId, ref: InputRef) {
    ref.artifactId.Some? &&
    var found := Lookup(arts, ref.artifactId.value);
    found.Some? && found.value.runId == run && found.value.validity == Valid && found.value.kind == ref.kind
  }

  predicate HasSucceeded(results: map<TaskId, TaskResult>, t: TaskId) {
    t in results && results[t].status == Success
  }

  predicate ResolveReady(arts: seq<Artifact>, run: RunId, task: Task, results: map<TaskId, TaskResult>) {
    && (forall i :: 0 <= i < |task.inputs| ==> task.inputs[i].required ==> InputValid(arts, run, task.inputs[i]))
    && (forall d :: d in task.deps ==> HasSucceeded(results, d))
  }

  /** resolve_inputs: ready exactly when nothing blocks, and nothing blocks exactly when all requirements hold. */
  method ResolveInputs(arts: seq<Artifact>, run: RunId, task: Task, results: map<TaskId, TaskResult>)
    returns (resolved: seq<ResolvedInput>, ready: bool, blocking: seq<Blocker>)
    ensures ready <==> ResolveReady(arts, run, task, results)
    ensures ready <==> blocking == []
    ensures |resolved| == |task.inputs|
    ensures forall i :: 0 <= i < |resolved| ==>
              resolved[i] == ResolvedInput(task.inputs[i].name, task.inputs[i].artifactId, task.inputs[i].kind,
                               task.inputs[i].required, InputValid(arts, run, task.inputs[i]), task.inputs[i].role)
    ensures forall i :: 0 <= i < |resolved| ==>
              (resolved[i].valid <==>
               && task.inputs[i].artifactId.Some?
               && match Lookup(arts, task.inputs[i].artifactId.value)
                  case None => false
                  case Some(art) => art.runId == run && art.validity == Valid && art.kind == task.inputs[i].kind)
    ensures forall i :: 0 <= i < |resolved| && resolved[i].required && !resolved[i].valid ==>
              MissingInput(resolved[i].name) in blocking
    ensures forall name :: MissingInput(name) in blocking ==>
              exists i :: 0 <= i < |resolved| && resolved[i].name == name && resolved[i].required && !resolved[i].valid
    ensures forall d :: DependencyNotSuccessful(d) in blocking <==> d in task.deps && !HasSucceeded(results, d)
  {
    resolved, blocking := [], [];
    for i := 0 to |task.inputs|
      invariant |resolved| == i
      invariant forall j :: 0 <= j < i ==>
                  resolved[j] == ResolvedInput(task.inputs[j].name, task.inputs[j].artifactId, task.inputs[j].kind,
                                   task.inputs[j].required, InputValid(arts, run, task.inputs[j]), task.inputs[j].role)
      invariant blocking == [] <==> forall j :: 0 <= j < i ==> task.inputs[j].required ==>
            InputValid(arts, run, task.inputs[j])
      invariant forall b :: b in blocking ==> b.MissingInput?
      invariant forall j :: 0 <= j < i && resolved[j].required && !resolved[j].valid ==>
            MissingInput(resolved[j].name) in blocking
      invariant forall name :: MissingInput(name) in blocking ==>
            exists j :: 0 <= j < i && resolved[j].name == name && resolved[j].required && !resolved[j].valid
    {
      var ref := task.inputs[i];
      if ref.artifactId == None {
        if ref.required {
          blocking := blocking + [MissingInput(ref.name)];
        }
        resolved := resolved + [ResolvedInput(ref.name, None, ref.kind, ref.required, false, ref.role)];
      } else {
        var found := Lookup(arts, ref.artifactId.value);
        var valid := false;
        if found == None || found.value.runId != run || found.value.validity != Valid || found.value.kind != ref.kind {
        } else {
          valid := true;
        }
        if ref.required && !valid {
          blocking := blocking + [MissingInput(ref.name)];
        }
        resolved := resolved + [ResolvedInput(ref.name, ref.artifactId, ref.kind, ref.required, valid, ref.role)];
      }
    }
    ghost var inputsOk, missing := blocking == [], blocking;
    for i := 0 to |task.deps|
      invariant blocking == [] <==> inputsOk && forall j :: 0 <= j < i ==> HasSucceeded(results, task.deps[j])
      invariant forall name :: MissingInput(name) in blocking <==> MissingInput(name) in missing
      invariant forall d :: DependencyNotSuccessful(d) in blocking <==> d in task.deps[..i] && !HasSucceeded(results, d)
    {
      var dep := task.deps[i];
      assert task.deps[..i + 1] == task.deps[..i] + [dep];
      if dep !in results || results[dep].status != Success {
        blocking := blocking + [DependencyNotSuccessful(dep)];
      }
    }
    assert task.deps[..|task.deps|] == task.deps;
    ready := blocking == [];
  }
}
