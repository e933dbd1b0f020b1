/**
 * Several mains, each with an activation manager of its own. Only the leader is meant to hold triggers and
 * pollers in memory. An instance reads whether it leads when an activation begins, and adds triggers when
 * it ends; and losing the lead only starts a loop that removes its workflows one by one.
 */
module MultiMain {
  import opened Options
  import WR = WebhookRegistration
  import AM = ActiveWorkflowManager

  /** An activation under way, with the lead as it was read when it began. */
  datatype Began = Began(instance: nat, id: string, mode: WR.ActivationMode, asLeader: bool)

  /**
   * `due[i]` counts the times instance `i` has lost the lead without its removal loop having read yet what to
   * remove; `leaving[i][n]` is what its loop number `n` has read and still has to remove.
   */
  datatype Cluster = Cluster(instances: seq<AM.State>, due: seq<nat>, leaving: seq<seq<set<string>>>, pending: multiset<Began>) {
    predicate Valid() {
      |leaving| == |due| == |instances|
    }
  }

  datatype Event =
    | Gains(instance: nat)
    | Loses(instance: nat)
    | Collects(instance: nat)                                         // a removal loop reads what to remove
    | Leaves(instance: nat, loop: nat, id: string, closing: AM.Closing) // and removes the next of them
    | Begins(instance: nat, id: string, mode: WR.ActivationMode)      // reads the lead
    | Ends(began: Began, plan: AM.Plan)                               // adds webhooks, triggers and pollers
    | On(instance: nat, event: AM.Event)                              // any step of one manager

  function Led(s: AM.State, leads: bool): AM.State {
    s.(isLeader := leads)
  }

  /** An activation that ends with the lead as it was read. */
  function Ended(s: AM.State, b: Began, plan: AM.Plan): AM.State {
    Led(AM.Activate(Led(s, b.asLeader), b.id, b.mode, plan).state, s.isLeader)
  }

  /** The workflow is one of those that loop `n` of the instance still has to remove. */
  predicate IsNext(c: Cluster, i: nat, n: nat, id: string)
    requires c.Valid()
  {
    i < |c.instances| && n < |c.leaving[i]| && id in c.leaving[i][n]
  }

  /** A trigger that fails to close ends the loop: nothing of its list is removed any more. */
  function LeftAfter(left: set<string>, s: AM.State, id: string, closing: AM.Closing): set<string> {
    if AM.ClosingFails(s.triggers, id, closing) then {} else left - {id}
  }

  function Step(c: Cluster, e: Event): (c': Cluster)
    requires c.Valid()
    ensures c'.Valid() && |c'.instances| == |c.instances|
  {
    match e
    case Gains(i) => if i < |c.instances| then c.(instances := c.instances[i := Led(c.instances[i], true)]) else c
    case Loses(i) =>
      if i < |c.instances| then c.(instances := c.instances[i := Led(c.instances[i], false)], due := c.due[i := c.due[i] + 1]) else c
    case Collects(i) =>
      if i < |c.instances| && c.due[i] > 0 then
        c.(due := c.due[i := c.due[i] - 1], leaving := c.leaving[i := c.leaving[i] + [c.instances[i].triggers.memory.Keys]])
      else c
    case Leaves(i, n, id, closing) =>
      if IsNext(c, i, n, id) then
        c.(instances := c.instances[i := AM.Step(c.instances[i], AM.RemovesTriggers(id, closing))],
           leaving := c.leaving[i := c.leaving[i][n := LeftAfter(c.leaving[i][n], c.instances[i], id, closing)]])
      else c
    case Begins(i, id, mode) =>
      if i < |c.instances| then c.(pending := c.pending + multiset{Began(i, id, mode, c.instances[i].isLeader)}) else c
    case Ends(b, plan) =>
      if b in c.pending && b.instance < |c.instances| then
        c.(pending := c.pending - multiset{b}, instances := c.instances[b.instance := Ended(c.instances[b.instance], b, plan)])
      else c
    case On(i, event) => if i < |c.instances| then c.(instances := c.instances[i := AM.Step(c.instances[i], event)]) else c
  }

  function Run(c: Cluster, events: seq<Event>): (c': Cluster)
    requires c.Valid()
    ensures c'.Valid() && |c'.instances| == |c.instances|
    decreases |events|
  {
    if events == [] then c else Run(Step(c, events[0]), events[1..])
  }

  predicate Holds(c: Cluster, i: nat, id: string) {
    i < |c.instances| && id in c.instances[i].triggers.memory
  }

  predicate Leads(c: Cluster, i: nat) {
    i < |c.instances| && c.instances[i].isLeader
  }

  // ---------------------------------------------------------------- followers only hold what they are removing

  predicate Listed(lists: seq<set<string>>, id: string) {
    exists n :: 0 <= n < |lists| && id in lists[n]
  }

  /** A loop of the instance is going to remove the workflow, or has not read yet what to remove. */
  predicate Leaving(c: Cluster, i: nat, id: string)
    requires c.Valid()
  {
    i < |c.instances| && (c.due[i] > 0 || Listed(c.leaving[i], id))
  }

  ghost predicate FollowersLeave(c: Cluster)
    requires c.Valid()
  {
    forall i: nat, id :: Holds(c, i, id) && !Leads(c, i) ==> Leaving(c, i, id)
  }

  /** A step of a manager that does not lead brings no workflow into its memory. */
  lemma FollowerAddsNothing(s: AM.State, e: AM.Event)
    requires !s.isLeader
    ensures AM.Step(s, e).triggers.memory.Keys <= s.triggers.memory.Keys
    ensures !AM.Step(s, e).isLeader
  {
    AM.StepEffects(s, e);
    AM.StepKeepsSetup(s, e);
  }

  /**
   * An activation that began under the lead reaches its triggers after the lead was lost, for a workflow
   * that the removal loop does not know of.
   */
  predicate EndsTooLate(c: Cluster, e: Event)
    requires c.Valid()
  {
    && e.Ends? && e.began in c.pending && e.began.instance < |c.instances|
    && e.began.asLeader && !c.instances[e.began.instance].isLeader
    && !Leaving(c, e.began.instance, e.began.id)
    && AM.ReachesTriggers(Led(c.instances[e.began.instance], true), e.began.mode, e.plan)
  }

  /**
   * A removal loop of a follower stops at a trigger that fails to close, and has workflows left that no other
   * loop of the instance removes: the one at which it stops, or a later one.
   */
  predicate AbortsLoop(c: Cluster, e: Event)
    requires c.Valid()
  {
    && e.Leaves? && IsNext(c, e.instance, e.loop, e.id)
    && !c.instances[e.instance].isLeader && c.due[e.instance] == 0
    && AM.ClosingFails(c.instances[e.instance].triggers, e.id, e.closing)
    && exists id :: id in c.leaving[e.instance][e.loop] && id in c.instances[e.instance].triggers.memory
                    && !Listed(c.leaving[e.instance][e.loop := {}], id)
  }

  lemma EndedHolds(s: AM.State, b: Began, plan: AM.Plan)
    ensures Ended(s, b, plan).triggers.memory.Keys
         == s.triggers.memory.Keys + if AM.ReachesTriggers(Led(s, b.asLeader), b.mode, plan) then {b.id} else {}
    ensures Ended(s, b, plan).isLeader == s.isLeader
  {
    AM.ActivateTriggers(Led(s, b.asLeader), b.id, b.mode, plan);
  }

  /** What a step changes is one instance. */
  lemma OthersStay(c: Cluster, e: Event, i: nat, j: nat)
    requires c.Valid() && i < |c.instances| && j < |c.instances| && i != j
    requires e.Begins? || (if e.Ends? then e.began.instance == i else e.instance == i)
    ensures Step(c, e).instances[j] == c.instances[j] && Step(c, e).leaving[j] == c.leaving[j] && Step(c, e).due[j] == c.due[j]
  {
  }

  function InstanceOf(e: Event): nat {
    match e
    case Ends(b, _) => b.instance
    case _ => e.instance
  }

  lemma RemovedHolds(s: AM.State, id: string, closing: AM.Closing)
    ensures var s' := AM.Step(s, AM.RemovesTriggers(id, closing));
            && s'.isLeader == s.isLeader
            && s'.triggers.memory.Keys == s.triggers.memory.Keys - if AM.ClosingFails(s.triggers, id, closing) then {} else {id}
  {
    AM.StepKeepsSetup(s, AM.RemovesTriggers(id, closing));
  }

  /** What the other loops list, and what this one lists apart from the workflow, stays listed. */
  lemma ListedAfter(lists: seq<set<string>>, n: nat, left: set<string>, id: string)
    requires n < |lists| && left <= lists[n]
    ensures Listed(lists[n := left], id) ==> Listed(lists, id)
    ensures Listed(lists, id) ==> Listed(lists[n := left], id) || (id in lists[n] && id !in left)
  {
    if Listed(lists, id) {
      var k :| 0 <= k < |lists| && id in lists[k];
      assert k != n ==> id in lists[n := left][k];
      assert id in left ==> id in lists[n := left][n];
    }
  }

  lemma LeavesKeeps(c: Cluster, e: Event, id: string)
    requires c.Valid() && FollowersLeave(c) && e.Leaves? && IsNext(c, e.instance, e.loop, e.id) && !AbortsLoop(c, e)
    ensures var i, c' := e.instance, Step(c, e); Holds(c', i, id) && !Leads(c', i) ==> Leaving(c', i, id)
  {
    var i := e.instance;
    RemovedHolds(c.instances[i], e.id, e.closing);
    ListedAfter(c.leaving[i], e.loop, LeftAfter(c.leaving[i][e.loop], c.instances[i], e.id, e.closing), id);
    assert Holds(c, i, id) && !Leads(c, i) ==> Leaving(c, i, id);
  }

  /** One workflow after the other, none of whose triggers fails to close. */
  function LeavesAll(i: nat, n: nat, ids: seq<string>): seq<Event> {
    seq(|ids|, k requires 0 <= k < |ids| => Leaves(i, n, ids[k], None))
  }

  /** A removal loop that is not ended early empties its list, and takes exactly what it lists out of memory. */
  lemma {:induction false} LoopFinishes(c: Cluster, i: nat, n: nat, ids: seq<string>)
    requires c.Valid() && i < |c.instances| && n < |c.leaving[i]|
    requires (forall id :: id in ids <==> id in c.leaving[i][n]) && forall k, l :: 0 <= k < l < |ids| ==> ids[k] != ids[l]
    ensures var c' := Run(c, LeavesAll(i, n, ids));
            && |c'.leaving[i]| == |c.leaving[i]| && c'.leaving[i][n] == {}
            && c'.instances[i].triggers.memory.Keys == c.instances[i].triggers.memory.Keys - c.leaving[i][n]
            && c'.instances[i].isLeader == c.instances[i].isLeader
    decreases |ids|
  {
    if ids != [] {
      var next := Step(c, Leaves(i, n, ids[0], None));
      assert ids[0] in c.leaving[i][n] && ids == [ids[0]] + ids[1..];
      RemovedHolds(c.instances[i], ids[0], None);
      assert next.leaving[i][n] == c.leaving[i][n] - {ids[0]};
      LoopFinishes(next, i, n, ids[1..]);
      assert LeavesAll(i, n, ids)[1..] == LeavesAll(i, n, ids[1..]);
    } else {
      assert LeavesAll(i, n, ids) == [];
    }
  }

  lemma CollectsKeeps(c: Cluster, i: nat, id: string)
    requires c.Valid() && FollowersLeave(c)
    ensures var c' := Step(c, Collects(i)); Holds(c', i, id) && !Leads(c', i) ==> Leaving(c', i, id)
  {
    if i < |c.instances| && c.due[i] > 0 && Holds(c, i, id) {
      var lists := Step(c, Collects(i)).leaving[i];
      assert id in lists[|lists| - 1];
    } else {
      assert Holds(c, i, id) && !Leads(c, i) ==> Leaving(c, i, id);
    }
  }

  lemma OwnInstanceLeaves(c: Cluster, e: Event, id: string)
    requires c.Valid() && FollowersLeave(c) && !EndsTooLate(c, e) && !AbortsLoop(c, e)
    ensures var i, c' := InstanceOf(e), Step(c, e); Holds(c', i, id) && !Leads(c', i) ==> Leaving(c', i, id)
  {
    var i := InstanceOf(e);
    if i < |c.instances| {
      assert Holds(c, i, id) && !Leads(c, i) ==> Leaving(c, i, id);
      match e
      case Ends(b, plan) => EndedHolds(c.instances[i], b, plan);
      case On(_, event) =>
        if !c.instances[i].isLeader { FollowerAddsNothing(c.instances[i], event); }
        AM.StepKeepsSetup(c.instances[i], event);
      case Leaves(_, n, other, _) => if IsNext(c, i, n, other) { LeavesKeeps(c, e, id); }
      case Collects(_) => CollectsKeeps(c, i, id);
      case _ =>
    }
  }

  lemma AbortStrands(c: Cluster, e: Event)
    requires c.Valid() && AbortsLoop(c, e)
    ensures !FollowersLeave(Step(c, e))
  {
    var i, c' := e.instance, Step(c, e);
    var id :| id in c.leaving[i][e.loop] && id in c.instances[i].triggers.memory && !Listed(c.leaving[i][e.loop := {}], id);
    RemovedHolds(c.instances[i], e.id, e.closing);
    assert Holds(c', i, id) && !Leads(c', i) && !Leaving(c', i, id);
  }

  /** One step keeps followers down to what they are removing if and only if it is neither a late end nor the end of a loop with workflows left. */
  lemma FollowersLeaveExactly(c: Cluster, e: Event)
    requires c.Valid() && FollowersLeave(c)
    ensures FollowersLeave(Step(c, e)) <==> !EndsTooLate(c, e) && !AbortsLoop(c, e)
  {
    var i, c' := InstanceOf(e), Step(c, e);
    if EndsTooLate(c, e) {
      EndedHolds(c.instances[i], e.began, e.plan);
      assert Holds(c', i, e.began.id) && !Leads(c', i) && !Leaving(c', i, e.began.id);
    } else if AbortsLoop(c, e) {
      AbortStrands(c, e);
    } else {
      forall j: nat, id | Holds(c', j, id) && !Leads(c', j)
        ensures Leaving(c', j, id)
      {
        if j == i {
          OwnInstanceLeaves(c, e, id);
        } else if i < |c.instances| {
          OthersStay(c, e, i, j);
          assert Holds(c, j, id);
        } else {
          assert c' == c;
        }
      }
    }
  }

  /** No activation ends too late, and no removal loop ends with workflows left. */
  predicate Harmless(c: Cluster, events: seq<Event>)
    requires c.Valid()
    decreases |events|
  {
    events == [] || (!EndsTooLate(c, events[0]) && !AbortsLoop(c, events[0]) && Harmless(Step(c, events[0]), events[1..]))
  }

  /** Followers hold only what they are removing, at every point of the run. */
  ghost predicate FollowersLeaveThroughout(c: Cluster, events: seq<Event>)
    requires c.Valid()
    decreases |events|
  {
    FollowersLeave(c) && (events == [] || FollowersLeaveThroughout(Step(c, events[0]), events[1..]))
  }

  ghost predicate OneLeader(c: Cluster) {
    forall i: nat, j: nat :: Leads(c, i) && Leads(c, j) ==> i == j
  }

  /** Over every run: followers hold only what they are removing, at every point, if and only if every step is harmless. */
  lemma {:induction false} FollowersLeaveOverRuns(c: Cluster, events: seq<Event>)
    requires c.Valid() && FollowersLeave(c)
    ensures FollowersLeaveThroughout(c, events) <==> Harmless(c, events)
    ensures Harmless(c, events) ==> FollowersLeave(Run(c, events))
    decreases |events|
  {
    if events != [] {
      FollowersLeaveExactly(c, events[0]);
      if FollowersLeave(Step(c, events[0])) {
        FollowersLeaveOverRuns(Step(c, events[0]), events[1..]);
      } else {
        assert !FollowersLeaveThroughout(Step(c, events[0]), events[1..]);
      }
    }
  }

  /**
   * Over every harmless run that ends with at most one leader: a workflow is held by two instances only while
   * one of them is a follower that is still removing it; and once the followers have nothing left to remove,
   * whoever holds a workflow leads, and nobody else holds it.
   */
  lemma DuplicatesOnlyWhileLeaving(c: Cluster, events: seq<Event>, i: nat, j: nat, id: string)
    requires c.Valid() && FollowersLeave(c) && Harmless(c, events) && OneLeader(Run(c, events))
    requires var c' := Run(c, events); Holds(c', i, id) && Holds(c', j, id)
    ensures var c' := Run(c, events);
            && (i != j ==> (!Leads(c', i) && Leaving(c', i, id)) || (!Leads(c', j) && Leaving(c', j, id)))
            && ((forall k: nat, x :: k < |c'.instances| && !Leads(c', k) ==> !Leaving(c', k, x)) ==> i == j && Leads(c', i))
  {
    FollowersLeaveOverRuns(c, events);
  }

  /** An activation that is one step, and a removal whose triggers all close. */
  predicate Undivided(e: Event) {
    !e.Ends? && (e.Leaves? ==> e.closing.None?)
  }

  /** Over every run in which activations are one step and triggers close, followers hold only what they are removing. */
  lemma {:induction false} UndividedStepsLeave(c: Cluster, events: seq<Event>)
    requires c.Valid() && FollowersLeave(c) && forall e :: e in events ==> Undivided(e)
    ensures FollowersLeaveThroughout(c, events) && FollowersLeave(Run(c, events))
    decreases |events|
  {
    if events != [] {
      assert events[0] in events;
      FollowersLeaveExactly(c, events[0]);
      UndividedStepsLeave(Step(c, events[0]), events[1..]);
    }
  }

  /** The lead passes from `i` to `j`, which activates the workflow, while `i` is activating it. */
  function Handover(c: Cluster, i: nat, j: nat, id: string, mode: WR.ActivationMode, plan: AM.Plan): (c': Cluster)
    requires c.Valid()
    ensures c'.Valid()
  {
    var lost := Step(Step(Step(c, Begins(i, id, mode)), Loses(i)), Collects(i));
    Step(Step(lost, Gains(j)), On(j, AM.Adds(id, mode, plan, false)))
  }

  lemma HandoverSteps(c: Cluster, i: nat, j: nat, id: string, mode: WR.ActivationMode, plan: AM.Plan)
    requires c.Valid() && i < |c.instances| && j < |c.instances| && i != j && Leads(c, i)
    ensures var c' := Handover(c, i, j, id, mode, plan);
            && |c'.instances| == |c.instances| && Began(i, id, mode, true) in c'.pending
            && c'.instances[i] == Led(c.instances[i], false)
            && c'.instances[j] == AM.Activate(Led(c.instances[j], true), id, mode, plan).state
            && c'.due[i] == c.due[i] && c'.leaving[i] == c.leaving[i] + [c.instances[i].triggers.memory.Keys]
  {
  }

  lemma ActivatedHolds(s: AM.State, id: string, mode: WR.ActivationMode, plan: AM.Plan)
    requires s.isLeader && AM.ReachesTriggers(s, mode, plan)
    ensures var s' := AM.Activate(s, id, mode, plan).state; s'.isLeader && id in s'.triggers.memory
  {
    AM.ActivateTriggers(s, id, mode, plan);
    AM.ActivateQueue(s, id, mode, plan);
  }

  /**
   * One lost lead during an activation is enough for the same workflow to be held by the new leader and,
   * for good, by a follower that does not know it has to remove it.
   */
  lemma LateEndDuplicates(c: Cluster, i: nat, j: nat, id: string, mode: WR.ActivationMode, plan: AM.Plan)
    requires c.Valid() && i < |c.instances| && j < |c.instances| && i != j && Leads(c, i)
    requires !Holds(c, i, id) && !Leaving(c, i, id)
    requires AM.ReachesTriggers(c.instances[i], mode, plan) && AM.ReachesTriggers(Led(c.instances[j], true), mode, plan)
    ensures var late := Ends(Began(i, id, mode, true), plan);
            var before := Handover(c, i, j, id, mode, plan); var after := Step(before, late);
            && EndsTooLate(before, late)
            && Holds(after, i, id) && !Leads(after, i) && !Leaving(after, i, id)
            && Holds(after, j, id) && Leads(after, j)
  {
    var before := Handover(c, i, j, id, mode, plan);
    HandoverSteps(c, i, j, id, mode, plan);
    ActivatedHolds(Led(c.instances[j], true), id, mode, plan);
    assert Led(Led(c.instances[i], false), true) == c.instances[i];
    EndedHolds(before.instances[i], Began(i, id, mode, true), plan);
    assert Step(before, Ends(Began(i, id, mode, true), plan)).instances[j] == before.instances[j];
  }

  /**
   * A trigger that fails to close while a follower removes its workflows is enough, too: the next leader
   * activates a workflow that the follower holds for good.
   */
  lemma AbortedLoopDuplicates(c: Cluster, i: nat, j: nat, n: nat, id: string, closing: AM.Closing, mode: WR.ActivationMode, plan: AM.Plan)
    requires c.Valid() && j < |c.instances| && i != j && IsNext(c, i, n, id) && !Leads(c, i) && c.due[i] == 0
    requires AM.ClosingFails(c.instances[i].triggers, id, closing) && !Listed(c.leaving[i][n := {}], id)
    requires AM.ReachesTriggers(Led(c.instances[j], true), mode, plan)
    ensures var stops := Leaves(i, n, id, closing);
            var after := Step(Step(Step(c, stops), Gains(j)), On(j, AM.Adds(id, mode, plan, false)));
            && AbortsLoop(c, stops)
            && Holds(after, i, id) && !Leads(after, i) && !Leaving(after, i, id)
            && Holds(after, j, id) && Leads(after, j)
  {
    var stopped := Step(c, Leaves(i, n, id, closing));
    RemovedHolds(c.instances[i], id, closing);
    assert stopped.instances[j] == c.instances[j];
    ActivatedHolds(Led(c.instances[j], true), id, mode, plan);
    var after := Step(Step(stopped, Gains(j)), On(j, AM.Adds(id, mode, plan, false)));
    assert after.instances[i] == stopped.instances[i] && after.leaving[i] == stopped.leaving[i] && after.due[i] == stopped.due[i];
  }

  /** The instance loses the lead and regains it at once, and its removal loop starts only after it has activated the workflow. */
  function Handback(c: Cluster, i: nat, id: string, mode: WR.ActivationMode, plan: AM.Plan): (c': Cluster)
    requires c.Valid()
    ensures c'.Valid()
  {
    Step(Step(Step(c, Loses(i)), Gains(i)), On(i, AM.StartsUp(id, mode, plan)))
  }

  lemma HandbackHolds(c: Cluster, i: nat, id: string, mode: WR.ActivationMode, plan: AM.Plan)
    requires c.Valid() && i < |c.instances| && AM.ReachesTriggers(Led(c.instances[i], true), mode, plan)
    ensures var c' := Handback(c, i, id, mode, plan);
            |c'.instances| == |c.instances| && Holds(c', i, id) && Leads(c', i) && c'.due[i] > 0
  {
    var s := Led(c.instances[i], true);
    assert Led(Led(c.instances[i], false), true) == s;
    AM.StepEffects(s, AM.StartsUp(id, mode, plan));
    AM.StepKeepsSetup(s, AM.StartsUp(id, mode, plan));
    assert Handback(c, i, id, mode, plan).instances[i] == AM.Step(s, AM.StartsUp(id, mode, plan));
  }

  lemma CollectedLeaves(c: Cluster, i: nat, id: string)
    requires c.Valid() && i < |c.instances| && c.due[i] > 0 && Holds(c, i, id)
    ensures var c' := Step(Step(c, Collects(i)), Leaves(i, |c.leaving[i]|, id, None));
            !Holds(c', i, id) && (Leads(c', i) <==> Leads(c, i))
  {
  }

  /**
   * When the lock has expired an instance loses the lead and may regain it at once, and adds its workflows
   * while the removal loop is still to run: the loop then takes a workflow from the leader itself.
   */
  lemma StaleRemovalTakesFromLeader(c: Cluster, i: nat, id: string, mode: WR.ActivationMode, plan: AM.Plan)
    requires c.Valid() && i < |c.instances| && AM.ReachesTriggers(Led(c.instances[i], true), mode, plan)
    ensures var held := Handback(c, i, id, mode, plan);
            var removed := Step(Step(held, Collects(i)), Leaves(i, |held.leaving[i]|, id, None));
            Holds(held, i, id) && Leads(held, i) && !Holds(removed, i, id) && Leads(removed, i)
  {
    HandbackHolds(c, i, id, mode, plan);
    CollectedLeaves(Handback(c, i, id, mode, plan), i, id);
  }
}
