/** What the events of a stored trace say of each other and of the stored artifacts, in every history. */
module Annotations {
  import opened Model
  import opened Artifacts
  import opened Trace
  import opened Machine
  import opened Invariants
  import opened Sessions
  import opened Chains
  import Scheduling
  import Runs

  // ---- Registrations ----

  /** What a registration says: which artifact, of which task, made by which attempt. */
  datatype Registration = Registration(artifact: Note, task: TaskId, attempt: Option<nat>)

  /** The registrations in a trace, in order. */
  function Registrations(events: seq<Event>): seq<Registration> {
    if events == [] then []
    else
      var last := events[|events| - 1];
      Registrations(events[..|events| - 1])
        + if last.kind == ArtifactRegistered then [Registration(last.note, last.task, last.attempt)] else []
  }

  /** What the registrations of these artifacts should say. */
  function Origins(arts: seq<Artifact>): seq<Registration> {
    seq(|arts|, i requires 0 <= i < |arts| =>
      Registration(Registered(arts[i].id), arts[i].taskId, Some(arts[i].attempt)))
  }

  /** Every artifact was made by an attempt of its task that was started. */
  ghost predicate MadeByStarts(c: Core) {
    forall i :: 0 <= i < |c.artifacts| ==> c.artifacts[i].attempt in StartsOf(c.trace, c.artifacts[i].taskId)
  }

  lemma RegistrationsAppend(events: seq<Event>, e: Event)
    ensures Registrations(events + [e]) == Registrations(events)
          + if e.kind == ArtifactRegistered then [Registration(e.note, e.task, e.attempt)] else []
  {
    assert (events + [e])[..|events|] == events;
  }

  lemma OriginsPromoted(arts: seq<Artifact>, arts': seq<Artifact>, attempt: nat)
    requires Promoted(arts, arts', attempt)
    ensures Origins(arts') == Origins(arts)
  {
  }

  lemma OriginsAppend(arts: seq<Artifact>, art: Artifact)
    ensures Origins(arts + [art])
         == Origins(arts) + [Registration(Registered(art.id), art.taskId, Some(art.attempt))]
  {
  }

  /** Only a registration adds an artifact; everything else changes at most whether artifacts are valid. */
  lemma ArtifactEffect(dag: Dag, c: Core, l: Label)
    requires Enabled(dag, c, l)
    ensures var ch := Effect(dag, c, l);
            && (l.Register? ==>
                  var art := NewArtifact(dag, c, l.t, l.candidate);
                  && ch.kind == ArtifactRegistered && ch.artifacts == c.artifacts + [art]
                  && Registration(ch.note, ch.t, ch.attempt)
                     == Registration(Registered(art.id), art.taskId, Some(art.attempt)))
            && (!l.Register? ==> ch.kind != ArtifactRegistered && Origins(ch.artifacts) == Origins(c.artifacts))
  {
    hide Calm, DepsDone, Starved, Idle, TerminalRunStatus, Satisfies, OneProofEach, StartedBy, Promoted, Origins;
    if l.Close? {
      OriginsPromoted(c.artifacts, l.artifacts, Last(l.result.attempts));
    }
  }

  lemma RegistrationStep(dag: Dag, c: Core, l: Label)
    requires Enabled(dag, c, l) && Registrations(c.trace) == Origins(c.artifacts)
    ensures Registrations(Apply(dag, c, l).trace) == Origins(Apply(dag, c, l).artifacts)
  {
    hide Enabled, Effect, Origins, Registrations, NewArtifact;
    RegistrationsAppend(c.trace, EventOf(dag, c, Effect(dag, c, l)));
    ArtifactEffect(dag, c, l);
    if l.Register? {
      OriginsAppend(c.artifacts, NewArtifact(dag, c, l.t, l.candidate));
    }
  }

  lemma SameOrigins(arts: seq<Artifact>, arts': seq<Artifact>)
    requires Origins(arts) == Origins(arts')
    ensures |arts| == |arts'|
    ensures forall i :: 0 <= i < |arts| ==> arts[i].taskId == arts'[i].taskId && arts[i].attempt == arts'[i].attempt
  {
    forall i | 0 <= i < |Origins(arts)|
      ensures arts[i].taskId == arts'[i].taskId && arts[i].attempt == arts'[i].attempt
    {
      assert Origins(arts)[i] == Origins(arts')[i];
    }
  }

  lemma NewArtifactStarted(dag: Dag, c: Core, t: TaskId, cand: Candidate)
    requires Good(dag, c) && Enabled(dag, c, Register(t, cand))
    ensures var art := NewArtifact(dag, c, t, cand);
            art.attempt in StartsOf(c.trace, art.taskId)
  {
    hide Exclusive, Supplied, Separate, StarvedNeverRan, Ordered, FailureKnown, ClosedOnce, WellTraced, Reusable,
        StartsOf;
    assert Fits(dag, t, c.results[t], c.status[t]);
    assert Last(c.results[t].attempts) in StartsOf(c.trace, t);
  }

  lemma MadeStep(dag: Dag, c: Core, l: Label)
    requires Good(dag, c) && Enabled(dag, c, l) && MadeByStarts(c)
    ensures MadeByStarts(Apply(dag, c, l))
  {
    hide Good, Enabled, Effect, EventOf, Origins, NewArtifact, StartsOf;
    AppendReads(c.trace, EventOf(dag, c, Effect(dag, c, l)));
    ArtifactEffect(dag, c, l);
    if l.Register? {
      NewArtifactStarted(dag, c, l.t, l.candidate);
    } else {
      SameOrigins(c.artifacts, Effect(dag, c, l).artifacts);
    }
  }

  // ---- Causes ----

  /** An event that names a cause closes an attempt, and the cause is the start of that attempt. */
  ghost predicate CausesAreStarts(events: seq<Event>) {
    forall i :: 0 <= i < |events| && events[i].cause.Some? ==>
      && events[i].kind in {TaskCompleted, TaskFailed, TaskCancelled} && events[i].attempt.Some?
      && StartedBy(events[..i], events[i].cause.value, events[i].task, events[i].attempt.value)
  }

  lemma CauseStep(dag: Dag, c: Core, l: Label)
    requires Enabled(dag, c, l) && CausesAreStarts(c.trace)
    ensures CausesAreStarts(Apply(dag, c, l).trace)
  {
    hide Calm, DepsDone, Starved, Idle, TerminalRunStatus, Satisfies, OneProofEach, StartedBy, Promoted;
    var trace := Apply(dag, c, l).trace;
    forall i | 0 <= i < |trace| && trace[i].cause.Some?
      ensures trace[i].kind in {TaskCompleted, TaskFailed, TaskCancelled} && trace[i].attempt.Some?
      ensures StartedBy(trace[..i], trace[i].cause.value, trace[i].task, trace[i].attempt.value)
    {
      assert trace[..i] == c.trace[..i];
      if i == |c.trace| {
        assert c.trace[..i] == c.trace;
      }
    }
  }

  // ---- What else an event says ----

  /** An event of the run as a whole. */
  predicate OfRun(kind: EventKind) {
    kind in {RunStarted, RunResumed, RunCompleted, RunFailed, RunCancelled, RunInterrupted}
  }

  /** An event names a task unless it is about the run, an attempt if it is about one, and a reason if there is one. */
  predicate Plain(e: Event) {
    && (OfRun(e.kind) <==> e.task == "")
    && (e.kind in {TaskStarted, TaskCompleted, TaskFailed, ArtifactRegistered} ==> e.attempt.Some?)
    && (e.kind in {TaskCreated, TaskReady, TaskSkipped, TaskBlocked} || OfRun(e.kind) ==> e.attempt.None?)
    && (e.kind in {TaskCreated, TaskReady, TaskStarted, RunStarted, RunCompleted, RunFailed, RunCancelled} ==>
          e.note == NoNote)
    && (e.kind in {TaskBlocked, RunInterrupted} ==> e.note.Reason?)
  }

  ghost predicate AllPlain(events: seq<Event>) {
    forall i :: 0 <= i < |events| ==> Plain(events[i])
  }

  lemma PlainStep(dag: Dag, c: Core, l: Label)
    requires Shape(dag, c) && Enabled(dag, c, l)
    ensures Plain(EventOf(dag, c, Effect(dag, c, l)))
  {
    hide Calm, DepsDone, Starved, Idle, Satisfies, OneProofEach, StartedBy, Promoted, Fits;
  }

  // ---- Over every history ----

  ghost predicate Annotated(c: Core) {
    && Registrations(c.trace) == Origins(c.artifacts) && MadeByStarts(c) && CausesAreStarts(c.trace)
    && AllPlain(c.trace)
  }

  lemma PlainAppend(dag: Dag, c: Core, l: Label)
    requires AllPlain(c.trace) && Plain(EventOf(dag, c, Effect(dag, c, l)))
    ensures AllPlain(Apply(dag, c, l).trace)
  {
    hide Plain, EventOf, Effect;
  }

  lemma GoodShape(dag: Dag, c: Core)
    requires Good(dag, c)
    ensures Shape(dag, c)
  {
  }

  lemma {:induction false} RunsAnnotated(dag: Dag, c: Core, ls: seq<Label>)
    requires Good(dag, c) && Machine.Runs(dag, c, ls) && Annotated(c)
    ensures Annotated(Exec(dag, c, ls))
  {
    hide Good, Enabled, Apply, Registrations, Origins, MadeByStarts, CausesAreStarts, AllPlain, Plain, Shape, EventOf,
        Effect;
    if ls != [] {
      var front := ls[..|ls| - 1];
      RunsAnnotated(dag, c, front);
      GoodRuns(dag, c, front);
      RegistrationStep(dag, Exec(dag, c, front), Last(ls));
      MadeStep(dag, Exec(dag, c, front), Last(ls));
      CauseStep(dag, Exec(dag, c, front), Last(ls));
      GoodShape(dag, Exec(dag, c, front));
      PlainStep(dag, Exec(dag, c, front), Last(ls));
      PlainAppend(dag, Exec(dag, c, front), Last(ls));
    }
  }

  lemma AfterAnnotated(dag: Dag, stored: Core, c: Core, s: Scheduling.State, k: nat)
    requires Trail(dag, c.(run := RunningRun), s) && k <= |s.log|
    requires Annotated(stored) && c.trace == stored.trace && c.artifacts == stored.artifacts
    ensures Annotated(After(dag, stored, c, s.log, k))
  {
    hide Good, Registrations, Origins, CausesAreStarts, StartsOf, AllPlain;
    if k > 0 {
      RunsPrefix(dag, c.(run := RunningRun), s.log, k);
      RunsAnnotated(dag, c.(run := RunningRun), s.log[..k]);
    }
  }

  lemma {:induction false} CreatedOnly(run: RunId, order: seq<TaskId>, first: nat)
    ensures Registrations(CreatedEvents(run, order, first)) == [] && CausesAreStarts(CreatedEvents(run, order, first))
  {
    if order != [] {
      var events := CreatedEvents(run, order, first);
      assert events[..|order| - 1] == CreatedEvents(run, order[..|order| - 1], first);
      CreatedOnly(run, order[..|order| - 1], first);
    }
  }

  lemma InitAnnotated(p: Plan)
    requires ValidPlan(p)
    ensures Annotated(Init(p))
  {
    CreatedOnly(p.dag.runId, p.order, 0);
    CreatedPlain(p);
    hide CreatedEvents, Registrations, CausesAreStarts, AllPlain, ValidPlan;
  }

  lemma CreatedPlain(p: Plan)
    requires ValidPlan(p)
    ensures AllPlain(Init(p).trace)
  {
    PlanNames(p);
    hide ValidPlan;
    forall i | 0 <= i < |p.order|
      ensures Plain(CreatedEvent(p.dag.runId, p.order[i], i))
    {
      assert p.order[i] in p.order;
    }
  }

  /**
    In every stored state of every history the registrations in the trace are those of the stored artifacts, in
    order, each made by an attempt of its task that was started; whatever names a cause closes the attempt that its
    cause started; and every event names the task, the attempt and the reason that go with its kind.
  */
  lemma {:induction false} StoredIsAnnotated(dag: Dag, ch: Chain)
    requires ValidChain(dag, ch)
    ensures Annotated(Durable(dag, ch))
  {
    hide Good, Trail, BeginSession, ResumeSession, After, Reload, Lose, ValidPlan, Annotated, Runs.Ended;
    match ch
    case Begun(plan, env, cancelled, commits) =>
      BeginTrail(plan, env, cancelled);
      InitAnnotated(plan);
      AfterAnnotated(dag, Init(plan), Init(plan), BeginSession(plan, env, cancelled).state, commits);
    case Resumed(prior, lost, order, env, commits) =>
      var plan, stored := Plan(dag, order), Lose(Durable(dag, prior), lost);
      StoredIsAnnotated(dag, prior);
      ChainGood(dag, prior);
      LoseGood(dag, Durable(dag, prior), lost);
      ResumeTrail(plan, env, stored);
      ReloadAnnotated(dag, env, Durable(dag, prior), lost);
      AfterAnnotated(dag, stored, Reload(dag, env, stored), ResumeSession(plan, env, stored).state, commits);
  }

  lemma ReloadAnnotated(dag: Dag, e: Env, c: Core, lost: nat)
    requires Annotated(c)
    ensures Annotated(Lose(c, lost))
    ensures var c' := Reload(dag, e, Lose(c, lost));
            c'.trace == Lose(c, lost).trace && c'.artifacts == Lose(c, lost).artifacts
  {
    hide Registrations, CausesAreStarts, StartsOf, AllPlain;
  }
}
