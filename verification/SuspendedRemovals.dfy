/**
 * A removal from memory that is suspended while its triggers close. It has captured the in-memory entry when it
 * began, and at its end it deletes whatever entry the workflow has by then, perhaps that of an activation in between.
 */
module SuspendedRemovals {
  import opened Options
  import AM = ActiveWorkflowManager

  /** A removal under way: the entry it captured, how many of its triggers it has closed, and whether it has ended. */
  datatype Removal = Removal(id: string, record: AM.Record, closed: nat, over: bool) {
    /** It is still going to close the trigger. */
    predicate Awaits(h: nat) {
      !over && record.first + closed <= h < record.first + record.count
    }
  }

  datatype Manager = Manager(triggers: AM.Triggers, removals: seq<Removal>)

  datatype Event =
    | Does(effect: AM.Effect)      // what any step of the manager does to triggers at once
    | Begins(id: string)           // a removal stops the crons and captures the entry
    | ClosesNext(n: nat)           // removal `n` closes its next trigger
    | FailsNext(n: nat)            // its next trigger fails to close, which ends it
    | Finishes(n: nat)             // it deletes the entry of its workflow

  predicate UnderWay(m: Manager, n: nat) {
    n < |m.removals| && !m.removals[n].over
  }

  predicate HasNext(m: Manager, n: nat) {
    UnderWay(m, n) && m.removals[n].closed < m.removals[n].record.count
  }

  predicate HasClosedAll(m: Manager, n: nat) {
    UnderWay(m, n) && m.removals[n].closed == m.removals[n].record.count
  }

  function Step(m: Manager, e: Event): Manager {
    match e
    case Does(effect) => m.(triggers := AM.Effected(m.triggers, effect))
    case Begins(id) =>
      if id in m.triggers.memory then
        Manager(m.triggers.(crons := m.triggers.crons - {id}), m.removals + [Removal(id, m.triggers.memory[id], 0, false)])
      else m
    case ClosesNext(n) =>
      if HasNext(m, n) then
        var r := m.removals[n];
        Manager(m.triggers.(running := m.triggers.running - {r.record.first + r.closed}), m.removals[n := r.(closed := r.closed + 1)])
      else m
    case FailsNext(n) => if HasNext(m, n) then m.(removals := m.removals[n := m.removals[n].(over := true)]) else m
    case Finishes(n) =>
      if HasClosedAll(m, n) then
        Manager(m.triggers.(memory := m.triggers.memory - {m.removals[n].id}), m.removals[n := m.removals[n].(over := true)])
      else m
  }

  function Run(m: Manager, events: seq<Event>): Manager
    decreases |events|
  {
    if events == [] then m else Run(Step(m, events[0]), events[1..])
  }

  // ---------------------------------------------------------------- handles

  /** Handles are given out once; what a removal has closed does not run, and what it captured is of its workflow. */
  ghost predicate RemovalOwned(t: AM.Triggers, r: Removal) {
    && r.closed <= r.record.count && r.record.first + r.record.count <= t.next
    && forall h :: h in t.running && r.record.Has(h) ==> t.running[h] == r.id && r.record.first + r.closed <= h
  }

  ghost predicate Valid(m: Manager) {
    AM.HandlesOwned(m.triggers) && forall n :: 0 <= n < |m.removals| ==> RemovalOwned(m.triggers, m.removals[n])
  }

  lemma EffectKeepsOwned(t: AM.Triggers, effect: AM.Effect, r: Removal)
    requires AM.HandlesOwned(t) && RemovalOwned(t, r)
    ensures RemovalOwned(AM.Effected(t, effect), r)
  {
    match effect
    case Nothing =>
    case Starts(id, plan) => AM.OpenedAre(t.running, t.next, AM.Closables(AM.Ran(plan)), id);
    case Closes(id, closing) => AM.RemovalCloses(t, id, closing);
  }

  lemma StepKeepsValid(m: Manager, e: Event)
    requires Valid(m)
    ensures Valid(Step(m, e))
  {
    match e
    case Does(effect) =>
      AM.EffectKeepsHandles(m.triggers, effect);
      forall n | 0 <= n < |m.removals|
        ensures RemovalOwned(AM.Effected(m.triggers, effect), m.removals[n])
      {
        EffectKeepsOwned(m.triggers, effect, m.removals[n]);
      }
    case _ =>
  }

  // ---------------------------------------------------------------- lost triggers

  ghost predicate Awaited(m: Manager, h: nat) {
    exists n :: 0 <= n < |m.removals| && m.removals[n].Awaits(h)
  }

  /** A running trigger that no entry records and no removal is going to close. */
  ghost predicate Lost(m: Manager, h: nat) {
    AM.Orphan(m.triggers, h) && !Awaited(m, h)
  }

  ghost predicate NoneLost(m: Manager) {
    forall h :: h in m.triggers.running ==> !Lost(m, h)
  }

  /** A removal other than `n` is going to close the trigger. */
  ghost predicate AwaitedElse(m: Manager, n: nat, h: nat) {
    exists k :: 0 <= k < |m.removals| && k != n && m.removals[k].Awaits(h)
  }

  /**
   * The steps that lose a trigger: an activation replaces the record of a running trigger that no removal is
   * going to close; a removal fails to close a trigger and had more to close, whose record has been replaced in
   * the meantime; a removal finishes and deletes the entry of an activation in between.
   */
  ghost predicate Loses(m: Manager, e: Event) {
    match e
    case Does(Starts(id, _)) => exists h :: h in m.triggers.running && m.triggers.running[h] == id && !Awaited(m, h)
    case FailsNext(n) =>
      HasNext(m, n) && exists h :: h in m.triggers.running && m.removals[n].Awaits(h) && AM.Orphan(m.triggers, h) && !AwaitedElse(m, n, h)
    case Finishes(n) =>
      && HasClosedAll(m, n) && m.removals[n].id in m.triggers.memory
      && exists h :: h in m.triggers.running && m.triggers.memory[m.removals[n].id].Has(h) && !Awaited(m, h)
    case _ => false
  }

  lemma StartLosesExactly(m: Manager, id: string, plan: AM.Plan)
    requires Valid(m) && NoneLost(m)
    ensures NoneLost(Step(m, Does(AM.Starts(id, plan)))) <==> !Loses(m, Does(AM.Starts(id, plan)))
  {
    var m' := Step(m, Does(AM.Starts(id, plan)));
    AM.StartedHandles(m.triggers, id, plan);
    forall h | h in m'.triggers.running
      ensures Awaited(m', h) <==> Awaited(m, h)
      ensures Lost(m', h)
         <==> h in m.triggers.running && m.triggers.running[h] == id && !Awaited(m, h)
    {
      assert h in m.triggers.running ==> !Lost(m, h) && h < m.triggers.next;
    }
    if Loses(m, Does(AM.Starts(id, plan))) {
      var h :| h in m.triggers.running && m.triggers.running[h] == id && !Awaited(m, h);
      assert Lost(m', h);
    }
  }

  /** Closing at once takes away what is recorded only. */
  lemma CloseLosesNothing(m: Manager, id: string, closing: AM.Closing)
    requires Valid(m) && NoneLost(m)
    ensures NoneLost(Step(m, Does(AM.Closes(id, closing))))
  {
    var m' := Step(m, Does(AM.Closes(id, closing)));
    AM.RemovalCloses(m.triggers, id, closing);
    forall h | h in m'.triggers.running
      ensures !Lost(m', h)
    {
      assert !Lost(m, h) && (Awaited(m, h) <==> Awaited(m', h));
    }
  }

  /** What ends or advances in removal `n` concerns what `n` awaits; the others await what they did. */
  lemma AwaitedAfter(m: Manager, m': Manager, n: nat, h: nat)
    requires |m'.removals| == |m.removals| && n < |m.removals| && m'.removals == m.removals[n := m'.removals[n]]
    ensures Awaited(m, h) <==> AwaitedElse(m, n, h) || m.removals[n].Awaits(h)
    ensures Awaited(m', h) <==> AwaitedElse(m, n, h) || m'.removals[n].Awaits(h)
  {
    assert forall k :: 0 <= k < |m.removals| && k != n ==> m'.removals[k] == m.removals[k];
  }

  lemma CloseNextLosesNothing(m: Manager, n: nat)
    requires Valid(m) && NoneLost(m)
    ensures NoneLost(Step(m, ClosesNext(n)))
  {
    var m' := Step(m, ClosesNext(n));
    if HasNext(m, n) {
      forall h | h in m'.triggers.running
        ensures !Lost(m', h)
      {
        assert !Lost(m, h);
        AwaitedAfter(m, m', n, h);
      }
    }
  }

  lemma BeginLosesNothing(m: Manager, id: string)
    requires Valid(m) && NoneLost(m)
    ensures NoneLost(Step(m, Begins(id)))
  {
    var m' := Step(m, Begins(id));
    forall h | h in m'.triggers.running
      ensures !Lost(m', h)
    {
      assert !Lost(m, h);
      if Awaited(m, h) {
        var n :| 0 <= n < |m.removals| && m.removals[n].Awaits(h);
        assert m'.removals[n].Awaits(h);
      }
    }
  }

  lemma EndLosesExactly(m: Manager, e: Event)
    requires Valid(m) && NoneLost(m) && (e.FailsNext? || e.Finishes?)
    ensures NoneLost(Step(m, e)) <==> !Loses(m, e)
  {
    var m', n := Step(m, e), e.n;
    if m' != m {
      forall h | h in m.triggers.running
        ensures Lost(m', h)
           <==> && !AwaitedElse(m, n, h)
                && (|| AM.Orphan(m.triggers, h)
                    || (e.Finishes? && m.removals[n].id in m.triggers.memory && m.triggers.memory[m.removals[n].id].Has(h)))
        ensures !Lost(m, h) && (Awaited(m, h) <==> AwaitedElse(m, n, h) || m.removals[n].Awaits(h))
      {
        AwaitedAfter(m, m', n, h);
      }
    }
  }

  /** A step loses a trigger exactly if it is one of those. */
  lemma LosesExactly(m: Manager, e: Event)
    requires Valid(m) && NoneLost(m)
    ensures NoneLost(Step(m, e)) <==> !Loses(m, e)
  {
    match e
    case Does(Starts(id, plan)) => StartLosesExactly(m, id, plan);
    case Does(Closes(id, closing)) => CloseLosesNothing(m, id, closing);
    case Does(Nothing) =>
    case Begins(id) => BeginLosesNothing(m, id);
    case ClosesNext(n) => CloseNextLosesNothing(m, n);
    case _ => EndLosesExactly(m, e);
  }

  /** A removal that finishes loses something only if the entry is no longer the one it captured. */
  lemma OnlyReplacedEntriesAreLost(m: Manager, n: nat)
    requires Valid(m) && Loses(m, Finishes(n))
    ensures m.triggers.memory[m.removals[n].id] != m.removals[n].record
  {
    var r := m.removals[n];
    assert RemovalOwned(m.triggers, r);
  }

  /** What is lost is never closed. */
  lemma LostStays(m: Manager, e: Event, h: nat)
    requires Valid(m) && Lost(m, h)
    ensures Lost(Step(m, e), h)
  {
    var m' := Step(m, e);
    match e
    case Does(effect) =>
      AM.OrphanStays(m.triggers, effect, h);
      assert Awaited(m', h) <==> Awaited(m, h);
    case Begins(id) =>
      assert forall k :: 0 <= k < |m.removals| ==> m'.removals[k] == m.removals[k];
    case ClosesNext(n) => if HasNext(m, n) { AwaitedAfter(m, m', n, h); }
    case FailsNext(n) => if HasNext(m, n) { AwaitedAfter(m, m', n, h); }
    case Finishes(n) => if HasClosedAll(m, n) { AwaitedAfter(m, m', n, h); }
  }

  lemma {:induction false} LostForGood(m: Manager, events: seq<Event>, h: nat)
    requires Valid(m) && Lost(m, h)
    ensures Lost(Run(m, events), h)
    decreases |events|
  {
    if events != [] {
      LostStays(m, events[0], h);
      StepKeepsValid(m, events[0]);
      LostForGood(Step(m, events[0]), events[1..], h);
    }
  }

  ghost predicate NeverLoses(m: Manager, events: seq<Event>)
    decreases |events|
  {
    events == [] || (!Loses(m, events[0]) && NeverLoses(Step(m, events[0]), events[1..]))
  }

  /** Over every run: no trigger is lost, in the end, exactly if no step has lost one. */
  lemma {:induction false} NothingLostExactly(m: Manager, events: seq<Event>)
    requires Valid(m) && NoneLost(m)
    ensures NoneLost(Run(m, events)) <==> NeverLoses(m, events)
    decreases |events|
  {
    if events != [] {
      var m' := Step(m, events[0]);
      LosesExactly(m, events[0]);
      StepKeepsValid(m, events[0]);
      if NoneLost(m') {
        NothingLostExactly(m', events[1..]);
      } else {
        var h :| h in m'.triggers.running && Lost(m', h);
        LostForGood(m', events[1..], h);
      }
    }
  }

  // ---------------------------------------------------------------- a retry while a removal is suspended

  /**
   * A workflow that is activated while its removal is suspended: the removal deletes the new entry. All triggers of
   * the activation run on, nothing records them, its crons stay scheduled, and another removal does nothing.
   */
  lemma RemovalForgetsActivation(m: Manager, n: nat, plan: AM.Plan, closing: AM.Closing)
    requires Valid(m) && HasClosedAll(m, n)
    ensures var id, t := m.removals[n].id, m.triggers;
            var after := Step(Step(m, Does(AM.Starts(id, plan))), Finishes(n));
            && id !in after.triggers.memory
            && (forall h :: t.next <= h < t.next + AM.Closables(AM.Ran(plan)) ==> Lost(after, h) && after.triggers.running[h] == id)
            && AM.CountOf(after.triggers.crons, id) == AM.CountOf(t.crons, id) + AM.CronsStarted(plan)
            && Step(after, Does(AM.Closes(id, closing))) == after
            && Step(after, Begins(id)) == after
  {
    var id, t := m.removals[n].id, m.triggers;
    AM.OpenedAre(t.running, t.next, AM.Closables(AM.Ran(plan)), id);
    var after := Step(Step(m, Does(AM.Starts(id, plan))), Finishes(n));
    forall h | t.next <= h < t.next + AM.Closables(AM.Ran(plan))
      ensures Lost(after, h)
    {
      assert forall k :: 0 <= k < |m.removals| ==> RemovalOwned(t, m.removals[k]);
    }
  }

  // ---------------------------------------------------------------- a removal that nobody disturbs

  /** `count` closings of removal `n`. */
  function Closings(n: nat, count: nat): seq<Event> {
    seq(count, i => ClosesNext(n))
  }

  lemma {:induction false} RunConcat(m: Manager, xs: seq<Event>, ys: seq<Event>)
    ensures Run(m, xs + ys) == Run(Run(m, xs), ys)
    decreases |xs|
  {
    if xs == [] {
      assert xs + ys == ys;
    } else {
      assert (xs + ys)[1..] == xs[1..] + ys;
      RunConcat(Step(m, xs[0]), xs[1..], ys);
    }
  }

  lemma {:induction false} ClosingsClose(m: Manager, n: nat, count: nat)
    requires UnderWay(m, n) && m.removals[n].closed == 0 && count <= m.removals[n].record.count
    ensures Run(m, Closings(n, count)) == Manager(m.triggers.(running := AM.Closed(m.triggers.running, m.removals[n].record.first, count)),
                                                  m.removals[n := m.removals[n].(closed := count)])
  {
    if count > 0 {
      var front := Closings(n, count - 1);
      ClosingsClose(m, n, count - 1);
      assert Closings(n, count) == front + [ClosesNext(n)];
      RunConcat(m, front, [ClosesNext(n)]);
      var before := Run(m, front);
      assert Run(before, [ClosesNext(n)]) == Run(Step(before, ClosesNext(n)), []);
    }
  }

  /** The parts of a removal in a row. */
  function Parts(m: Manager, id: string, closing: AM.Closing): seq<Event>
    requires id in m.triggers.memory
  {
    var n := |m.removals|;
    if AM.ClosingFails(m.triggers, id, closing) then [Begins(id)] + Closings(n, closing.value) + [FailsNext(n)]
    else [Begins(id)] + Closings(n, m.triggers.memory[id].count) + [Finishes(n)]
  }

  /** With nothing in between, they come to the removal taken as one step. */
  lemma UndisturbedRemoval(m: Manager, id: string, closing: AM.Closing)
    requires id in m.triggers.memory
    ensures Run(m, Parts(m, id, closing)).triggers == AM.Removed(m.triggers, id, closing)
  {
    var n, fails := |m.removals|, AM.ClosingFails(m.triggers, id, closing);
    var count, last := if fails then closing.value else m.triggers.memory[id].count, if fails then FailsNext(n) else Finishes(n);
    var begun := Step(m, Begins(id));
    RunConcat(m, [Begins(id)] + Closings(n, count), [last]);
    RunConcat(m, [Begins(id)], Closings(n, count));
    assert Run(m, [Begins(id)]) == Run(begun, []);
    ClosingsClose(begun, n, count);
    var closed := Run(begun, Closings(n, count));
    assert Run(closed, [last]) == Run(Step(closed, last), []);
  }
}
