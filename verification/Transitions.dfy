/** The task status tables and the single way to change a status. */
module Transitions {
  import opened Model

  datatype TransitionError = InvalidTransition(source: Status, target: Status)

  function Allowed(current: Status): set<Status> {
    match current
    case Pending => {Ready, Failed, Skipped, Cancelled}
    case Ready => {Running, Failed, Skipped, Cancelled}
    case Running => {Success, Failed, Cancelled}
    case _ => {}
  }

  function RecoveryOnly(current: Status): set<Status> {
    match current
    case Pending => {Running, Success, Failed, Skipped, Cancelled}
    case Running => {Success, Failed, Cancelled, Running}
    case _ => {}
  }

  function AllowedTransitions(current: Status, recovery: bool): set<Status> {
    if recovery then Allowed(current) + RecoveryOnly(current) else Allowed(current)
  }

  function Transition(current: Status, target: Status, recovery: bool): (r: Result<Status, TransitionError>)
    ensures r.Ok? ==> r.value == target
    ensures r.Ok? <==> current == target || target in AllowedTransitions(current, recovery)
  {
    if current == target then Ok(current)
    else if target !in AllowedTransitions(current, recovery) then Err(InvalidTransition(current, target))
    else Ok(target)
  }

  predicate Terminal(s: Status) {
    s in {Success, Failed, Skipped, Cancelled}
  }

  /** Some call accepts the change; the two tables are for ordinary moves and for recovery. */
  predicate Moves(was: Status, now: Status) {
    was != now && (Transition(was, now, false).Ok? || Transition(was, now, true).Ok?)
  }

  /** Any sequence of accepted changes, ordinary and recovery moves mixed. */
  ghost predicate Walk(path: seq<Status>) {
    |path| > 0 && forall i :: 0 < i < |path| ==> Moves(path[i - 1], path[i])
  }

  ghost predicate OrdinaryWalk(path: seq<Status>) {
    |path| > 0 && forall i :: 0 < i < |path| ==> path[i - 1] != path[i] && Transition(path[i - 1], path[i], false).Ok?
  }

  function Height(s: Status): nat {
    match s
    case Pending => 3
    case Ready => 2
    case Running => 1
    case _ => 0
  }

  lemma Falls(was: Status, now: Status)
    requires Moves(was, now)
    ensures Height(now) < Height(was)
  {
  }

  lemma TerminalIsStuck(s: Status)
    ensures Terminal(s) <==> forall now :: !Moves(s, now)
  {
    if !Terminal(s) {
      assert Moves(s, Failed);
    }
  }

  /**
    What the tables allow: a task that has not ended takes the next step, or ends badly, skipped only while it is not
    running; recovery lets a pending task take any other status and a running one any that ends an attempt.
  */
  lemma MovesExactly(was: Status, now: Status)
    requires was != now
    ensures Transition(was, now, false).Ok?
       <==> (was, now) in {(Pending, Ready), (Ready, Running), (Running, Success)}
            || (!Terminal(was) && now in {Failed, Cancelled})
            || (was in {Pending, Ready} && now == Skipped)
    ensures Transition(was, now, true).Ok? <==> Transition(was, now, false).Ok? || was == Pending
  {
  }

  /**
    However ordinary and recovery moves are mixed, a status changes at most three times, and can change no
    more exactly when it is terminal.
  */
  lemma {:induction false} WalksAreShort(path: seq<Status>)
    requires Walk(path)
    ensures |path| + Height(Last(path)) <= 1 + Height(path[0])
    ensures Terminal(Last(path)) <==> forall now :: !Moves(Last(path), now)
  {
    TerminalIsStuck(Last(path));
    if |path| > 1 {
      var front := path[..|path| - 1];
      assert Walk(front);
      WalksAreShort(front);
      Falls(Last(front), Last(path));
    }
  }

  /** Without recovery there is one way to succeed: through READY and RUNNING. */
  lemma SuccessTakesAllSteps(path: seq<Status>)
    requires OrdinaryWalk(path) && path[0] == Pending && Last(path) == Success
    ensures path == [Pending, Ready, Running, Success]
  {
    assert |path| > 1 && Transition(path[|path| - 2], Success, false).Ok?;
    assert path[|path| - 2] == Running;
    assert |path| > 2 && Transition(path[|path| - 3], Running, false).Ok?;
    assert path[|path| - 3] == Ready;
    assert |path| > 3 && Transition(path[|path| - 4], Ready, false).Ok?;
    assert path[|path| - 4] == Pending;
    assert |path| > 4 ==> path[|path| - 5] == Pending || Transition(path[|path| - 5], Pending, false).Err?;
  }
}
