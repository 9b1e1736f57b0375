/** Two processes that loaded the same snapshot, one committing after the other: loading takes no writer. */
module Races {
  import opened Model
  import opened Trace
  import opened Machine
  import opened Invariants
  import opened Sessions
  import opened Runs
  import opened Chains
  import opened Coordinator
  import opened Planning
  import opened Decomposition
  import E = Engine
  import S = Store

  // ---- The commits of one process ----

  /** The events a process added. */
  function Tail(dag: Dag, c: Core, ls: seq<Label>): seq<Event>
    requires |Exec(dag, c, ls).trace| >= |c.trace|
  {
    Exec(dag, c, ls).trace[|c.trace|..]
  }

  lemma {:induction false} JournalEvents(dag: Dag, graphId: string, c: Core, ls: seq<Label>)
    ensures |JournalOf(dag, graphId, c, ls)| == |ls| && c.trace <= Exec(dag, c, ls).trace
    ensures S.EventsOf(JournalOf(dag, graphId, c, ls)) == Tail(dag, c, ls)
  {
    hide Apply;
    if ls != [] {
      var front := ls[..|ls| - 1];
      JournalEvents(dag, graphId, c, front);
      AppliedTrace(dag, Exec(dag, c, front), Last(ls));
      var journal := JournalOf(dag, graphId, c, ls);
      assert journal[..|journal| - 1] == JournalOf(dag, graphId, c, front);
    }
  }

  /** Ids between two bounds, all different. */
  ghost predicate Between(run: RunId, journal: seq<S.Transition>, from: nat, to: nat) {
    && (forall i :: 0 <= i < |journal| ==>
          S.Acceptable(run, journal[i]) && journal[i].id.FreshId? && from <= journal[i].id.n < to)
    && (forall i, j :: 0 <= i < j < |journal| ==> journal[i].id != journal[j].id)
  }

  lemma {:induction false} JournalIds(dag: Dag, graphId: string, c: Core, ls: seq<Label>)
    ensures c.supply <= Exec(dag, c, ls).supply
    ensures Between(dag.runId, JournalOf(dag, graphId, c, ls), c.supply, Exec(dag, c, ls).supply)
  {
    hide Apply;
    if ls != [] {
      JournalIds(dag, graphId, c, ls[..|ls| - 1]);
      AppliedTrace(dag, Exec(dag, c, ls[..|ls| - 1]), Last(ls));
    }
  }

  /** The first event a process commits carries the sequence number it began with. */
  lemma {:induction false} FirstSequence(dag: Dag, c: Core, ls: seq<Label>)
    requires ls != []
    ensures c.trace <= Exec(dag, c, ls).trace && Tail(dag, c, ls) != [] && Tail(dag, c, ls)[0].sequence == c.nextSeq
  {
    hide Apply;
    var front := ls[..|ls| - 1];
    AppliedTrace(dag, Exec(dag, c, front), Last(ls));
    if front != [] {
      FirstSequence(dag, c, front);
    } else {
      assert Exec(dag, c, front) == c;
    }
  }

  // ---- One after the other ----

  lemma FreshAfter(known: set<EventId>, run: RunId, first: seq<S.Transition>, second: seq<S.Transition>, a: nat, b: nat,
      c: nat, d: nat)
    requires (forall id :: id in known ==> id.FreshId? && id.n < a)
    requires Between(run, first, a, b) && a <= b <= c && Between(run, second, c, d)
    ensures forall i :: 0 <= i < |first| ==> S.Acceptable(run, first[i]) && first[i].id !in known
    ensures forall i :: 0 <= i < |second| ==> S.Acceptable(run, second[i]) && second[i].id !in known
    ensures forall i, j :: 0 <= i < |first| && 0 <= j < |second| ==> first[i].id != second[j].id
    ensures forall i, j :: 0 <= i < j < |first| ==> first[i].id != first[j].id
    ensures forall i, j :: 0 <= i < j < |second| ==> second[i].id != second[j].id
  {
  }

  /** Two journals over disjoint ids are stored one after the other. */
  lemma BothStored(s: S.Snapshot, run: RunId, first: seq<S.Transition>, second: seq<S.Transition>, a: nat, b: nat,
      c: nat, d: nat)
    requires (forall id :: id in s.committed ==> id.FreshId? && id.n < a)
    requires Between(run, first, a, b) && a <= b <= c && Between(run, second, c, d)
    ensures S.Deliver(s, run, first + second).trace == s.trace + S.EventsOf(first) + S.EventsOf(second)
    ensures second != [] ==> S.Deliver(s, run, first + second).results == Last(second).results
  {
    S.DeliverAppend(s, run, first, second);
    FreshAfter(s.committed, run, first, second, a, b, c, d);
    hide S.Deliver, S.EventsOf, S.Acceptable, Between;
    S.JournalIsStored(s, run, first);
    S.JournalIsStored(S.Deliver(s, run, first), run, second);
    if second != [] {
      LastResults(S.Deliver(s, run, first), run, second);
    }
  }

  lemma LastResults(s: S.Snapshot, run: RunId, journal: seq<S.Transition>)
    requires journal != []
    requires forall i :: 0 <= i < |journal| ==> S.Acceptable(run, journal[i]) && journal[i].id !in s.committed
    requires forall i, j :: 0 <= i < j < |journal| ==> journal[i].id != journal[j].id
    ensures S.Deliver(s, run, journal).results == Last(journal).results
  {
    S.JournalIsStored(s, run, journal[..|journal| - 1]);
  }

  /** What a resume remembers after its first `k` commits, and the transitions it sent for them. */
  function MemoryAfter(p: Plan, e: Env, stored: Core, k: nat): Core
    requires k <= |LogOf(p, e, stored)|
  {
    Exec(p.dag, ProcessMemory(p, e, stored), LogOf(p, e, stored)[..k])
  }

  function Sent(p: Plan, e: Env, stored: Core, k: nat, graphId: string): seq<S.Transition>
    requires k <= |LogOf(p, e, stored)|
  {
    JournalOf(p.dag, graphId, ProcessMemory(p, e, stored), LogOf(p, e, stored)[..k])
  }

  /** What the engine left in the store after `k` commits of a resume is what the transitions it sent make of it. */
  lemma EngineSends(g: Graph, run: RunId, e: Env, g0: Graph, ch: Chain, lost: nat, s: S.Snapshot, s': S.Snapshot,
      trail: seq<S.Snapshot>, k: nat)
    requires E.ContinuedThrough(g, run, e, g0, ch, lost, s, s', trail) && k < |trail|
    ensures var p, stored := PlanFor(g, run), E.StoredCore(g0, run, ch, lost);
            && k <= |LogOf(p, e, stored)| && |Sent(p, e, stored, k, s.run.graphId)| == k
            && trail[k] == S.Deliver(s, run, Sent(p, e, stored, k, s.run.graphId))
  {
    hide E.LeftBy, PlanFor, LogOf, ProcessMemory, E.StoredCore, ValidChain, JournalOf, S.Deliver;
    var p, stored := PlanFor(g, run), E.StoredCore(g0, run, ch, lost);
    E.PlanForRun(g, run);
    JournalEvents(p.dag, s.run.graphId, ProcessMemory(p, e, stored), LogOf(p, e, stored)[..k]);
  }

  /** Commits a journal, one transition after the other, as a process that holds the writer. */
  method CommitAll(store: S.ExecutionStore, run: RunId, journal: seq<S.Transition>)
    requires run in store.snapshots && run in store.writers
    requires forall i :: 0 <= i < |journal| ==> S.Acceptable(run, journal[i])
    modifies store`snapshots
    ensures store.snapshots == old(store.snapshots)[run := S.Deliver(old(store.snapshots)[run], run, journal)]
  {
    hide S.Commit;
    ghost var s := store.snapshots[run];
    for i := 0 to |journal|
      invariant store.snapshots == old(store.snapshots)[run := S.Deliver(s, run, journal[..i])]
    {
      assert journal[..i + 1][..i] == journal[..i];
      var r := store.CommitTransition(run, journal[i]);
      assert r.Ok?;
    }
    assert journal[..|journal|] == journal;
  }

  /**
    One process takes the writer, commits what it has and gives the writer back; then the other does. The store
    refuses nothing but a writer already held, and ends up with both journals delivered one after the other.
  */
  method TakeTurns(store: S.ExecutionStore, run: RunId, first: seq<S.Transition>, second: seq<S.Transition>)
      returns (r: Result<(), S.StoreError>)
    requires run in store.snapshots
    requires forall i :: 0 <= i < |first| ==> S.Acceptable(run, first[i])
    requires forall i :: 0 <= i < |second| ==> S.Acceptable(run, second[i])
    modifies store
    ensures r == if run in old(store.writers) then Err(S.WriterConflict) else Ok(())
    ensures store.writers == old(store.writers)
    ensures store.snapshots
         == if r.Err? then old(store.snapshots)
            else old(store.snapshots)[run := S.Deliver(old(store.snapshots)[run], run, first + second)]
  {
    hide S.Deliver;
    S.DeliverAppend(store.snapshots[run], run, first, second);
    r := store.AcquireWriter(run);
    if r.Err? {
      return;
    }
    CommitAll(store, run, first);
    store.ReleaseWriter(run);
    r := store.AcquireWriter(run);
    CommitAll(store, run, second);
    store.ReleaseWriter(run);
  }

  lemma ResumedSequence(p: Plan, e: Env, stored: Core, lost: nat)
    ensures ProcessMemory(p, e, Lose(stored, lost)).nextSeq == NextSequence(stored.trace) + 1
    ensures ProcessMemory(p, e, Lose(stored, lost)).trace == stored.trace
    ensures ProcessMemory(p, e, Lose(stored, lost)).supply == stored.supply + lost + 1
  {
    hide ResumedStatus, NextSequence;
  }

  lemma PrefixValid(p: Plan, e: Env, stored: Core, lost: nat, k: nat)
    requires ValidPlan(p) && Good(p.dag, stored) && k <= |LogOf(p, e, Lose(stored, lost))|
    ensures ValidTrace(p.dag.runId, MemoryAfter(p, e, Lose(stored, lost), k).trace)
  {
    hide Good, Trail, ResumeSession, Ended, Reload, Lose, Exec;
    LoseGood(p.dag, stored, lost);
    ResumedSequence(p, e, stored, lost);
    var from := Lose(stored, lost);
    ResumeTrail(p, e, from);
    AfterGood(p.dag, from, Reload(p.dag, e, from), ResumeSession(p, e, from).state, k);
    StoredTraceValid(p.dag, After(p.dag, from, Reload(p.dag, e, from), LogOf(p, e, from), k));
    NoCommits(p.dag, ProcessMemory(p, e, from));
    LoseTrace(stored, lost);
  }

  lemma NoCommits(dag: Dag, c: Core)
    ensures Exec(dag, c, []) == c
  {
  }

  lemma LoseTrace(c: Core, lost: nat)
    ensures Lose(c, lost).trace == c.trace
  {
  }

  lemma StoredTraceValid(dag: Dag, c: Core)
    requires Good(dag, c)
    ensures ValidTrace(dag.runId, c.trace)
  {
    hide Shape, Exclusive, Supplied, Conserved, Separate, StarvedNeverRan, Ordered, FailureKnown, ClosedOnce, Reusable,
        ValidTrace;
  }

  lemma RisingSequence(run: RunId, base: seq<Event>, first: seq<Event>, second: seq<Event>)
    requires first != [] && second != [] && ValidTrace(run, base + first + second)
    ensures first[0].sequence < second[0].sequence
  {
    var all := base + first + second;
    var i, j := |base|, |base| + |first|;
    assert Follows(run, all, j);
    assert all[i] == first[0] && all[j] == second[0];
  }

  /**
    Two processes load the same good snapshot, in whatever orders they scan its tasks; the first makes `k` commits
    and gives the writer back, the second then takes it and makes `m`. Their ids differ, so nothing is refused, and
    the trace in the store is valid exactly when one of the two committed nothing: the second must find at its
    acquisition the snapshot it loaded.
  */
  lemma LateWriterBreaksTrace(
    p: Plan, p': Plan, e: Env, e': Env, stored: Core, lost: nat, k: nat, m: nat, s: S.Snapshot, graphId: string)
    requires ValidPlan(p) && ValidPlan(p') && p'.dag == p.dag && Good(p.dag, stored)
    requires k <= |LogOf(p, e, Lose(stored, 0))| && m <= |LogOf(p', e', Lose(stored, lost))|
    requires s.trace == stored.trace && forall id :: id in s.committed ==> id.FreshId? && id.n < stored.supply
    requires MemoryAfter(p, e, Lose(stored, 0), k).supply <= stored.supply + lost
    ensures var first, second := Sent(p, e, Lose(stored, 0), k, graphId), Sent(p', e', Lose(stored, lost), m, graphId);
            var s' := S.Deliver(s, p.dag.runId, first + second);
            && |s'.trace| == |s.trace| + k + m
            && (ValidTrace(p.dag.runId, s'.trace) <==> k == 0 || m == 0)
  {
    hide Good, LogOf, ProcessMemory, Lose, ValidPlan, ValidTrace, Exec, JournalOf, S.Deliver, Between, NextSequence;
    var c, c' := ProcessMemory(p, e, Lose(stored, 0)), ProcessMemory(p', e', Lose(stored, lost));
    var ls, ls' := LogOf(p, e, Lose(stored, 0))[..k], LogOf(p', e', Lose(stored, lost))[..m];
    ResumedSequence(p, e, stored, 0);
    ResumedSequence(p', e', stored, lost);
    JournalEvents(p.dag, graphId, c, ls);
    JournalEvents(p.dag, graphId, c', ls');
    JournalIds(p.dag, graphId, c, ls);
    JournalIds(p.dag, graphId, c', ls');
    var first, second := JournalOf(p.dag, graphId, c, ls), JournalOf(p.dag, graphId, c', ls');
    BothStored(s, p.dag.runId, first, second, c.supply, Exec(p.dag, c, ls).supply, c'.supply,
        Exec(p.dag, c', ls').supply);
    PrefixValid(p, e, stored, 0, k);
    PrefixValid(p', e', stored, lost, m);
    JoinedTraces(p.dag, stored.trace, c, c', ls, ls');
  }

  lemma {:induction false} TraceGrows(dag: Dag, c: Core, ls: seq<Label>)
    ensures c.trace <= Exec(dag, c, ls).trace && |Exec(dag, c, ls).trace| == |c.trace| + |ls|
  {
    hide Apply;
    if ls != [] {
      TraceGrows(dag, c, ls[..|ls| - 1]);
      AppliedTrace(dag, Exec(dag, c, ls[..|ls| - 1]), Last(ls));
    }
  }

  lemma JoinedTraces(dag: Dag, base: seq<Event>, c: Core, c': Core, ls: seq<Label>, ls': seq<Label>)
    requires c.trace == base == c'.trace && c.nextSeq == c'.nextSeq
    requires ValidTrace(dag.runId, Exec(dag, c, ls).trace) && ValidTrace(dag.runId, Exec(dag, c', ls').trace)
    ensures base <= Exec(dag, c, ls).trace && base <= Exec(dag, c', ls').trace
    ensures var all := base + Tail(dag, c, ls) + Tail(dag, c', ls');
            |all| == |base| + |ls| + |ls'| && (ValidTrace(dag.runId, all) <==> ls == [] || ls' == [])
  {
    TraceGrows(dag, c, ls);
    TraceGrows(dag, c', ls');
    hide ValidTrace, Exec;
    var x, y := Tail(dag, c, ls), Tail(dag, c', ls');
    assert base + x == Exec(dag, c, ls).trace && base + y == Exec(dag, c', ls').trace;
    if ls == [] {
      assert base + x + y == base + y;
    } else if ls' == [] {
      assert base + x + y == base + x;
    } else {
      FirstSequence(dag, c, ls);
      FirstSequence(dag, c', ls');
      if ValidTrace(dag.runId, base + x + y) {
        RisingSequence(dag.runId, base, x, y);
        assert false;
      }
    }
  }

  // ---- What the results of the second forget ----

  lemma {:induction false} StartsConcat(first: seq<Event>, second: seq<Event>, t: TaskId)
    ensures StartsOf(first + second, t) == StartsOf(first, t) + StartsOf(second, t)
  {
    if second == [] {
      assert first + second == first;
    } else {
      StartsConcat(first, second[..|second| - 1], t);
      var all := first + second;
      assert all[..|all| - 1] == first + second[..|second| - 1];
    }
  }

  lemma LabelStarts(dag: Dag, c: Core, l: Label, t: TaskId)
    ensures var e := EventOf(dag, c, Effect(dag, c, l));
            e.kind == TaskStarted && e.task == t && e.attempt.Some? <==> l == Start(t)
  {
  }

  /** The events of a process start a task exactly when one of its labels does. */
  lemma {:induction false} TailStarts(dag: Dag, c: Core, ls: seq<Label>, t: TaskId)
    ensures c.trace <= Exec(dag, c, ls).trace
    ensures StartsOf(Tail(dag, c, ls), t) != [] <==> Start(t) in ls
  {
    hide Apply, EventOf, Effect, StartsOf;
    TraceGrows(dag, c, ls);
    if ls == [] {
      NoStartsIn(Tail(dag, c, ls), t);
    } else {
      var front := ls[..|ls| - 1];
      TailStarts(dag, c, front, t);
      TailGrows(dag, c, ls);
      TailStep(dag, Exec(dag, c, front), Tail(dag, c, front), Last(ls), t);
      assert ls == front + [Last(ls)];
    }
  }

  lemma NoStartsIn(events: seq<Event>, t: TaskId)
    requires events == []
    ensures StartsOf(events, t) == []
  {
  }

  /** One label more, one event more. */
  lemma TailGrows(dag: Dag, c: Core, ls: seq<Label>)
    requires ls != []
    ensures var front := ls[..|ls| - 1];
            var m := Exec(dag, c, front);
            && c.trace <= m.trace && c.trace <= Exec(dag, c, ls).trace
            && Tail(dag, c, ls) == Tail(dag, c, front) + [EventOf(dag, m, Effect(dag, m, Last(ls)))]
  {
    hide Apply, EventOf, Effect;
    var front := ls[..|ls| - 1];
    TraceGrows(dag, c, front);
    AppliedTrace(dag, Exec(dag, c, front), Last(ls));
  }

  lemma TailStep(dag: Dag, m: Core, tail: seq<Event>, l: Label, t: TaskId)
    ensures StartsOf(tail + [EventOf(dag, m, Effect(dag, m, l))], t) != [] <==> StartsOf(tail, t) != [] || l == Start(t)
  {
    hide EventOf, Effect, StartsOf;
    LabelStarts(dag, m, l, t);
    AppendReads(tail, EventOf(dag, m, Effect(dag, m, l)));
  }

  lemma PrefixGood(p: Plan, e: Env, stored: Core, lost: nat, k: nat)
    requires ValidPlan(p) && Good(p.dag, stored) && 0 < k <= |LogOf(p, e, Lose(stored, lost))|
    ensures var c := ProcessMemory(p, e, Lose(stored, lost));
            Good(p.dag, Exec(p.dag, c, LogOf(p, e, Lose(stored, lost))[..k]))
  {
    hide Good, Trail, ResumeSession, Ended, Reload, Lose, Exec;
    LoseGood(p.dag, stored, lost);
    var from := Lose(stored, lost);
    ResumeTrail(p, e, from);
    AfterGood(p.dag, from, Reload(p.dag, e, from), ResumeSession(p, e, from).state, k);
  }

  lemma GoodAttempts(dag: Dag, c: Core, t: TaskId)
    requires Good(dag, c) && t in dag.tasks
    ensures StartsOf(c.trace, t) == PriorAttempts(c, t)
  {
    hide StartsOf;
  }

  /**
    In that race the results in the store are those of the second process. For a task, they hold exactly the
    attempts the stored trace started unless the first process started it too, whose attempt they then lack.
  */
  lemma LateWriterForgetsAttempts(
    p: Plan, p': Plan, e: Env, e': Env, stored: Core, lost: nat, k: nat, m: nat, s: S.Snapshot, graphId: string,
    t: TaskId)
    requires ValidPlan(p) && ValidPlan(p') && p'.dag == p.dag && Good(p.dag, stored) && t in p.dag.tasks
    requires k <= |LogOf(p, e, Lose(stored, 0))| && 0 < m <= |LogOf(p', e', Lose(stored, lost))|
    requires s.trace == stored.trace && forall id :: id in s.committed ==> id.FreshId? && id.n < stored.supply
    requires MemoryAfter(p, e, Lose(stored, 0), k).supply <= stored.supply + lost
    ensures var first, second := Sent(p, e, Lose(stored, 0), k, graphId), Sent(p', e', Lose(stored, lost), m, graphId);
            var s' := S.Deliver(s, p.dag.runId, first + second);
            && s'.results == MemoryAfter(p', e', Lose(stored, lost), m).results
            && (StartsOf(s'.trace, t) == (if t in s'.results then s'.results[t].attempts else [])
                <==> Start(t) !in LogOf(p, e, Lose(stored, 0))[..k])
  {
    hide Good, LogOf, ProcessMemory, Lose, ValidPlan, ValidTrace, JournalOf, S.Deliver, Between, NextSequence, StartsOf;
    var c, c' := ProcessMemory(p, e, Lose(stored, 0)), ProcessMemory(p', e', Lose(stored, lost));
    var ls, ls' := LogOf(p, e, Lose(stored, 0))[..k], LogOf(p', e', Lose(stored, lost))[..m];
    ResumedSequence(p, e, stored, 0);
    ResumedSequence(p', e', stored, lost);
    JournalEvents(p.dag, graphId, c, ls);
    JournalEvents(p.dag, graphId, c', ls');
    JournalIds(p.dag, graphId, c, ls);
    JournalIds(p.dag, graphId, c', ls');
    var first, second := JournalOf(p.dag, graphId, c, ls), JournalOf(p.dag, graphId, c', ls');
    LastCommit(p.dag, graphId, c', ls');
    hide Exec;
    BothStored(s, p.dag.runId, first, second, c.supply, Exec(p.dag, c, ls).supply, c'.supply,
        Exec(p.dag, c', ls').supply);
    PrefixGood(p', e', stored, lost, m);
    GoodAttempts(p.dag, Exec(p.dag, c', ls'), t);
    TraceGrows(p.dag, c', ls');
    TailStarts(p.dag, c, ls, t);
    JoinedStarts(stored.trace, Tail(p.dag, c, ls), Tail(p.dag, c', ls'), t);
    assert stored.trace + Tail(p.dag, c', ls') == Exec(p.dag, c', ls').trace;
  }

  lemma LastCommit(dag: Dag, graphId: string, c: Core, ls: seq<Label>)
    requires ls != []
    ensures var journal := JournalOf(dag, graphId, c, ls);
            journal != [] && Last(journal).results == Exec(dag, c, ls).results
  {
  }

  lemma JoinedStarts(base: seq<Event>, first: seq<Event>, second: seq<Event>, t: TaskId)
    ensures StartsOf(base + first + second, t) == StartsOf(base + second, t) <==> StartsOf(first, t) == []
  {
    StartsConcat(base, first, t);
    StartsConcat(base + first, second, t);
    StartsConcat(base, second, t);
    hide StartsOf;
    var a, b, c := StartsOf(base, t), StartsOf(first, t), StartsOf(second, t);
    assert |a + b + c| == |a| + |b| + |c| && |a + c| == |a| + |c|;
    if b == [] {
      assert a + b + c == a + c;
    }
  }
}
