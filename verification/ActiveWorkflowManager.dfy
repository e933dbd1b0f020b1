/**
 * Activating and deactivating workflows. The manager keeps a queue of activations to retry, the
 * workflows active in memory with their running triggers, an error per workflow, and the webhooks.
 * Every public operation, every timer firing and the end of every retry is one step.
 */
module ActiveWorkflowManager {
  import opened Options
  import WR = WebhookRegistration
  import AQ = ActivationQueue

  /** The triggers recorded for closing with an in-memory entry: the handles from `first` on. */
  datatype Record = Record(first: nat, count: nat) {
    predicate Has(handle: nat) {
      first <= handle < first + count
    }
  }

  /**
   * `memory` holds the entry of every workflow active in memory. `running` holds every trigger that has
   * been started with a function to close it and has not been closed, under a handle of its own, and
   * `crons` counts the crons that are scheduled for a workflow, by its triggers and by its pollers.
   */
  datatype Triggers = Triggers(memory: map<string, Record>, running: map<nat, string>, crons: map<string, nat>, next: nat)

  datatype State = State(
    queue: AQ.Queue,
    triggers: Triggers,
    errors: map<string, string>,
    web: WR.World,
    isLeader: bool,
    isMultiMain: bool)

  function CountOf(counts: map<string, nat>, id: string): nat {
    if id in counts then counts[id] else 0
  }

  // ---------------------------------------------------------------- the environment

  /** What the environment does with the webhooks of one activation. */
  datatype WebPlan = WebPlan(trials: seq<WR.Trial>, clearing: WR.Clearing, cacheFails: bool, message: string)

  /** A trigger node or a polling node: whether it hands back a function to close it, and how many crons it schedules. */
  datatype Starter = Starter(closable: bool, crons: nat)

  /**
   * What the environment does with one activation: it may be refused before anything is registered
   * (no such workflow, nothing to start it, no base data); `starters` are the triggers and pollers of
   * the workflow, of which the one at `failsAt` fails after it has scheduled `failedCrons` crons; `late`
   * is a failure after the workflow has been taken out of the queue.
   */
  datatype Plan = Plan(
    refused: Option<string>, web: WebPlan,
    starters: seq<Starter>, failsAt: Option<nat>, failedCrons: nat, triggerMessage: string,
    late: Option<string>)

  /** The position of the recorded trigger that fails to close, if one does. */
  type Closing = Option<nat>

  /** The state after an activation, and the message of the error it throws, if any. */
  datatype Activation = Activation(state: State, failure: Option<string>)

  function Closables(starters: seq<Starter>): nat {
    if starters == [] then 0
    else Closables(starters[..|starters| - 1]) + if starters[|starters| - 1].closable then 1 else 0
  }

  function CronsOf(starters: seq<Starter>): nat {
    if starters == [] then 0 else CronsOf(starters[..|starters| - 1]) + starters[|starters| - 1].crons
  }

  // ---------------------------------------------------------------- activation

  predicate ShouldAddWebhooks(s: State, mode: WR.ActivationMode) {
    match mode
    case Init => true
    case LeadershipChange => false
    case _ => s.isLeader
  }

  predicate ShouldAddTriggersAndPollers(s: State) {
    s.isLeader
  }

  function Failed(s: State, id: string, message: string): Activation {
    Activation(s.(errors := s.errors[id := message]), Some(message))
  }

  function Webhooks(s: State, id: string, mode: WR.ActivationMode, plan: Plan): WR.Added {
    if ShouldAddWebhooks(s, mode) then WR.Registering(s.web, id, plan.web.trials, mode, plan.web.clearing, plan.web.cacheFails)
    else WR.Added(s.web, false)
  }

  /** One of the starters fails; `failsAt` matters only below their number. */
  predicate Fails(plan: Plan) {
    plan.failsAt.Some? && plan.failsAt.value < |plan.starters|
  }

  /** The starters that start. */
  function Ran(plan: Plan): seq<Starter> {
    if Fails(plan) then plan.starters[..plan.failsAt.value] else plan.starters
  }

  function CronsStarted(plan: Plan): nat {
    CronsOf(Ran(plan)) + if Fails(plan) then plan.failedCrons else 0
  }

  /** `count` triggers of the workflow more, under new handles. */
  function Opened(running: map<nat, string>, first: nat, count: nat, id: string): map<nat, string> {
    if count == 0 then running else Opened(running, first, count - 1, id)[first + count - 1 := id]
  }

  /** The in-memory entry is made before the first trigger starts, and replaces any earlier one. */
  function Started(t: Triggers, id: string, plan: Plan): Triggers {
    var count := Closables(Ran(plan));
    Triggers(t.memory[id := Record(t.next, count)],
             Opened(t.running, t.next, count, id),
             t.crons[id := CountOf(t.crons, id) + CronsStarted(plan)],
             t.next + count)
  }

  /** `add` past the check for publishing. */
  function Activate(s: State, id: string, mode: WR.ActivationMode, plan: Plan): Activation {
    if plan.refused.Some? then Failed(s, id, plan.refused.value)
    else
      var added := Webhooks(s, id, mode, plan);
      var s1 := s.(web := added.world);
      if added.thrown then Failed(s1, id, plan.web.message)
      else
        var starts := ShouldAddTriggersAndPollers(s) && plan.starters != [];
        var s2 := if starts then s1.(triggers := Started(s.triggers, id, plan)) else s1;
        if starts && Fails(plan) then Failed(s2, id, plan.triggerMessage)
        else Completed(s2, id, plan.late)
  }

  /** Out of the queue, and without an error unless something fails after that. */
  function Completed(s: State, id: string, late: Option<string>): Activation {
    var s' := s.(queue := AQ.Dequeued(s.queue, id));
    if late.Some? then Failed(s', id, late.value) else Activation(s'.(errors := s'.errors - {id}), None)
  }

  /** `add`: with several mains it only publishes, unless told not to. */
  function ActivationOf(s: State, id: string, mode: WR.ActivationMode, plan: Plan, shouldPublish: bool): Activation {
    if s.isMultiMain && shouldPublish then Activation(s, None) else Activate(s, id, mode, plan)
  }

  // ---------------------------------------------------------------- deactivation

  /** A recorded trigger fails to close, and those after it are not reached. */
  predicate ClosingFails(t: Triggers, id: string, closing: Closing) {
    id in t.memory && closing.Some? && closing.value < t.memory[id].count
  }

  /** What still runs when `count` handles from `first` on have been closed. */
  function Closed(running: map<nat, string>, first: nat, count: nat): map<nat, string> {
    if count == 0 then running else Closed(running, first, count - 1) - {first + count - 1}
  }

  /**
   * Stopping all crons of a workflow, closing its recorded triggers one after the other and forgetting it;
   * when a trigger fails to close the entry stays as it was.
   */
  function Removed(t: Triggers, id: string, closing: Closing): Triggers {
    if id !in t.memory then t
    else
      var record := t.memory[id];
      if ClosingFails(t, id, closing) then
        t.(crons := t.crons - {id}, running := Closed(t.running, record.first, closing.value))
      else
        t.(crons := t.crons - {id}, running := Closed(t.running, record.first, record.count), memory := t.memory - {id})
  }

  function Remove(s: State, id: string, c: WR.Clearing, closing: Closing): State {
    var cleared := s.(web := WR.Cleared(s.web, id, c));
    if s.isMultiMain then cleared
    else
      cleared.(errors := s.errors - {id}, queue := AQ.Dequeued(s.queue, id), triggers := Removed(s.triggers, id, closing))
  }

  // ---------------------------------------------------------------- events

  predicate MentionsAuthorization(message: string) {
    |message| >= 13 && (message[..13] == "Authorization" || MentionsAuthorization(message[1..]))
  }

  datatype Event =
    | Adds(id: string, mode: WR.ActivationMode, plan: Plan, shouldPublish: bool)
    | StartsUp(id: string, mode: WR.ActivationMode, plan: Plan)           // one turn of `addActiveWorkflows`
    | TriggerFails(id: string, mode: WR.ActivationMode, message: string, closing: Closing)  // `emitError` of a running trigger
    | Fires(handle: nat)                                                  // a retry starts
    | Returns(handle: nat, plan: Plan)                                    // a retry ends
    | Retries(handle: nat, plan: Plan)                                    // a retry taken as one step
    | Removes(id: string, clearing: WR.Clearing, closing: Closing)
    | RemovesTriggers(id: string, closing: Closing)
    | DropsQueue                                                          // `removeAllQueuedWorkflowActivations`
    | DropsError(id: string)                                              // `removeActivationError`
    | DropsErrors                                                         // `clearAllActivationErrors`

  function StartUp(s: State, id: string, mode: WR.ActivationMode, plan: Plan): State {
    var r := ActivationOf(s, id, mode, plan, false);
    if r.failure.Some? && !MentionsAuthorization(r.failure.value) then
      r.state.(queue := AQ.Enqueued(r.state.queue, id, WR.Init))
    else r.state
  }

  function TriggerFailed(s: State, id: string, mode: WR.ActivationMode, message: string, closing: Closing): State {
    s.(triggers := Removed(s.triggers, id, closing), errors := s.errors[id := message], queue := AQ.Enqueued(s.queue, id, mode))
  }

  function Returned(s: State, handle: nat, plan: Plan): State {
    if handle in s.queue.firing then
      var retry := s.queue.firing[handle];
      var r := ActivationOf(s.(queue := AQ.Settled(s.queue, handle)), retry.id, retry.mode, plan, true);
      if r.failure.Some? then r.state.(queue := AQ.Rearmed(r.state.queue, retry)) else r.state
    else s
  }

  function Step(s: State, e: Event): State {
    match e
    case Adds(id, mode, plan, shouldPublish) => ActivationOf(s, id, mode, plan, shouldPublish).state
    case StartsUp(id, mode, plan) => StartUp(s, id, mode, plan)
    case TriggerFails(id, mode, message, closing) => TriggerFailed(s, id, mode, message, closing)
    case Fires(handle) => s.(queue := AQ.Fired(s.queue, handle))
    case Returns(handle, plan) => Returned(s, handle, plan)
    case Retries(handle, plan) =>
      if handle in s.queue.timers then Returned(s.(queue := AQ.Fired(s.queue, handle)), handle, plan) else s
    case Removes(id, clearing, closing) => Remove(s, id, clearing, closing)
    case RemovesTriggers(id, closing) => s.(triggers := Removed(s.triggers, id, closing))
    case DropsQueue => s.(queue := AQ.AllDequeued(s.queue))
    case DropsError(id) => s.(errors := s.errors - {id})
    case DropsErrors => s.(errors := map[])
  }

  function Run(s: State, events: seq<Event>): State
    decreases |events|
  {
    if events == [] then s else Run(Step(s, events[0]), events[1..])
  }

  // ---------------------------------------------------------------- how an activation ends

  /** Registering the webhooks throws: a webhook fails, or filling the cache after them. */
  predicate WebhooksThrow(s: State, mode: WR.ActivationMode, plan: Plan) {
    ShouldAddWebhooks(s, mode) && WR.Throws(plan.web.trials, mode, plan.web.cacheFails)
  }

  /** The activation gets as far as making its in-memory entry. */
  predicate ReachesTriggers(s: State, mode: WR.ActivationMode, plan: Plan) {
    plan.refused.None? && !WebhooksThrow(s, mode, plan) && ShouldAddTriggersAndPollers(s) && plan.starters != []
  }

  /** It fails before its workflow is taken out of the queue. */
  predicate FailsEarly(s: State, mode: WR.ActivationMode, plan: Plan) {
    plan.refused.Some? || WebhooksThrow(s, mode, plan) || (ReachesTriggers(s, mode, plan) && Fails(plan))
  }

  /** The message it fails with, told from what the environment does. */
  function FailureOf(s: State, mode: WR.ActivationMode, plan: Plan): Option<string> {
    if plan.refused.Some? then plan.refused
    else if WebhooksThrow(s, mode, plan) then Some(plan.web.message)
    else if ReachesTriggers(s, mode, plan) && Fails(plan) then Some(plan.triggerMessage)
    else plan.late
  }

  /** The triggers when the in-memory add, if it is reached, has started what it can. */
  function Begun(s: State, id: string, mode: WR.ActivationMode, plan: Plan): Triggers {
    if ReachesTriggers(s, mode, plan) then Started(s.triggers, id, plan) else s.triggers
  }

  /** The outcome of an activation, but for the webhooks, told from how it ends. */
  function Outcome(s: State, id: string, begun: Triggers, failure: Option<string>, early: bool, web: WR.World): Activation {
    Activation(
      s.(triggers := begun,
         web := web,
         errors := if failure.Some? then s.errors[id := failure.value] else s.errors - {id},
         queue := if early then s.queue else AQ.Dequeued(s.queue, id)),
      failure)
  }

  lemma WebhooksThrowExactly(s: State, id: string, mode: WR.ActivationMode, plan: Plan)
    ensures Webhooks(s, id, mode, plan).thrown <==> WebhooksThrow(s, mode, plan)
  {
    if ShouldAddWebhooks(s, mode) {
      WR.ThrowsExactly(s.web, id, plan.web.trials, mode, plan.web.clearing, plan.web.cacheFails);
    }
  }

  /** What an activation does can be told from its state and plan, branch by branch. */
  lemma ActivationEnds(s: State, id: string, mode: WR.ActivationMode, plan: Plan)
    ensures var r := Activate(s, id, mode, plan);
            r == Outcome(s, id, Begun(s, id, mode, plan), FailureOf(s, mode, plan), FailsEarly(s, mode, plan), r.state.web)
  {
    WebhooksThrowExactly(s, id, mode, plan);
  }

  /** An activation takes at most its own workflow out of the queue; if it fails early it leaves the queue alone. */
  lemma ActivateQueue(s: State, id: string, mode: WR.ActivationMode, plan: Plan)
    ensures var r := Activate(s, id, mode, plan);
            && r.state.queue == (if FailsEarly(s, mode, plan) then s.queue else AQ.Dequeued(s.queue, id))
            && r.failure == FailureOf(s, mode, plan)
            && r.state.isMultiMain == s.isMultiMain && r.state.isLeader == s.isLeader
  {
    ActivationEnds(s, id, mode, plan);
  }

  // ---------------------------------------------------------------- timers and entries

  /** The retry fails early while its workflow still has an entry with a live timer of its own. */
  predicate DoublesTimer(s: State, handle: nat, plan: Plan) {
    !s.isMultiMain && AQ.Doubles(s.queue, handle) && FailsEarly(s, s.queue.firing[handle].mode, plan)
  }

  /** With several mains the retry only publishes, and the entry keeps naming a timer that has fired. */
  predicate StrandsEntry(s: State, handle: nat) {
    s.isMultiMain && handle in s.queue.firing
    && s.queue.firing[handle].id in s.queue.queued && s.queue.queued[s.queue.firing[handle].id].handle == handle
  }

  lemma ReturnKeepsTimers(s: State, handle: nat, plan: Plan)
    requires AQ.Matched(s.queue) && handle in s.queue.firing
    ensures AQ.Matched(Returned(s, handle, plan).queue) <==> !DoublesTimer(s, handle, plan) && !StrandsEntry(s, handle)
  {
    var retry := s.queue.firing[handle];
    var settled := s.(queue := AQ.Settled(s.queue, handle));
    ActivateQueue(settled, retry.id, retry.mode, plan);
    if s.isMultiMain {
      AQ.SettlingKeepsUnlessStranded(s.queue, handle);
      forall id | id in s.queue.queued && s.queue.queued[id].handle == handle ensures id == retry.id {
        AQ.NamedByOwnWorkflow(s.queue, handle, id);
      }
    } else if FailsEarly(s, retry.mode, plan) {
      AQ.FailedRetryKeepsUnlessDoubled(s.queue, handle);
    } else {
      SettledAndDequeued(s.queue, handle);
    }
  }

  /** A retry that takes its workflow out of the queue leaves the rest matched. */
  lemma SettledAndDequeued(q: AQ.Queue, handle: nat)
    requires AQ.Matched(q) && handle in q.firing
    ensures var q' := AQ.Dequeued(AQ.Settled(q, handle), q.firing[handle].id);
            AQ.Matched(q') && AQ.Rearmed(q', q.firing[handle]) == q'
  {
    var id := q.firing[handle].id;
    AQ.DequeueKeeps(q, id);
    var q' := AQ.Dequeued(AQ.Settled(q, handle), id);
    forall other | other in q'.queued ensures AQ.Live(q', other) || AQ.Pending(q', other) {
      assert AQ.Live(q, other) || AQ.Pending(q, other);
    }
  }

  /** What breaks the correspondence between timers and entries, and nothing else does. */
  predicate Mismatches(s: State, e: Event) {
    match e
    case Returns(handle, plan) => handle in s.queue.firing && (DoublesTimer(s, handle, plan) || StrandsEntry(s, handle))
    case Retries(handle, plan) => handle in s.queue.timers && s.isMultiMain
    case _ => false
  }

  lemma {:induction false} TimersMatchUnless(s: State, e: Event)
    requires AQ.Matched(s.queue)
    ensures AQ.Matched(Step(s, e).queue) <==> !Mismatches(s, e)
  {
    match e
    case Adds(id, mode, plan, shouldPublish) =>
      ActivateQueue(s, id, mode, plan);
      AQ.DequeueKeeps(s.queue, id);
    case StartsUp(id, mode, plan) =>
      ActivateQueue(s, id, mode, plan);
      AQ.DequeueKeeps(s.queue, id);
      AQ.EnqueueKeeps(ActivationOf(s, id, mode, plan, false).state.queue, id, WR.Init);
    case TriggerFails(id, mode, message, _) =>
      AQ.EnqueueKeeps(s.queue, id, mode);
    case Fires(handle) =>
      AQ.FireKeeps(s.queue, handle);
    case Returns(handle, plan) =>
      if handle in s.queue.firing {
        ReturnKeepsTimers(s, handle, plan);
      }
    case Retries(handle, plan) =>
      if handle in s.queue.timers {
        var fired := s.(queue := AQ.Fired(s.queue, handle));
        AQ.FireKeeps(s.queue, handle);
        ReturnKeepsTimers(fired, handle, plan);
        assert !AQ.Doubles(fired.queue, handle);
      }
    case Removes(id, _, _) =>
      AQ.DequeueKeeps(s.queue, id);
    case DropsQueue =>
      AQ.DequeueAllKeeps(s.queue);
    case _ =>
  }

  /** A retry is one step, as when nothing else happens while it is under way. */
  predicate Atomic(e: Event) {
    !e.Fires? && !e.Returns?
  }

  lemma StepKeepsSetup(s: State, e: Event)
    ensures Step(s, e).isMultiMain == s.isMultiMain && Step(s, e).isLeader == s.isLeader
    ensures Atomic(e) && s.queue.firing == map[] ==> Step(s, e).queue.firing == map[]
  {
    match e
    case Adds(id, mode, plan, _) => ActivateQueue(s, id, mode, plan);
    case StartsUp(id, mode, plan) => ActivateQueue(s, id, mode, plan);
    case Returns(h, plan) => ReturnKeepsSetup(s, h, plan);
    case Retries(h, plan) => if h in s.queue.timers { ReturnKeepsSetup(s.(queue := AQ.Fired(s.queue, h)), h, plan); }
    case _ =>
  }

  lemma ReturnKeepsSetup(s: State, h: nat, plan: Plan)
    ensures var s' := Returned(s, h, plan);
            && s'.isMultiMain == s.isMultiMain && s'.isLeader == s.isLeader
            && s'.queue.firing == s.queue.firing - {h}
  {
    if h in s.queue.firing {
      var retry := s.queue.firing[h];
      ActivateQueue(s.(queue := AQ.Settled(s.queue, h)), retry.id, retry.mode, plan);
    }
  }

  /**
   * With a single main and retries taken as one step, in every reachable state the live timers and the
   * queue entries correspond one to one: every entry names a live timer of its workflow, with the delay
   * it records, and every live timer is named by the entry of its workflow.
   */
  lemma {:induction false} OneTimerPerEntry(s: State, events: seq<Event>)
    requires !s.isMultiMain && AQ.Matched(s.queue) && s.queue.firing == map[]
    requires forall e :: e in events ==> Atomic(e)
    ensures var s' := Run(s, events);
            && AQ.Matched(s'.queue)
            && (forall id :: id in s'.queue.queued ==> AQ.Live(s'.queue, id))
            && (forall h :: h in s'.queue.timers ==>
                  s'.queue.timers[h].id in s'.queue.queued && s'.queue.queued[s'.queue.timers[h].id].handle == h)
    decreases |events|
  {
    if events != [] {
      assert Atomic(events[0]);
      StepKeepsSetup(s, events[0]);
      TimersMatchUnless(s, events[0]);
      OneTimerPerEntry(Step(s, events[0]), events[1..]);
    }
  }

  lemma RetryKeepsModes(s: State, h: nat, plan: Plan)
    requires !s.isMultiMain && AQ.Matched(s.queue) && AQ.SameModes(s.queue) && h in s.queue.timers
    ensures AQ.SameModes(Step(s, Retries(h, plan)).queue)
  {
    var retry := s.queue.timers[h];
    var settled := s.(queue := AQ.Settled(AQ.Fired(s.queue, h), h));
    ActivateQueue(settled, retry.id, retry.mode, plan);
    var r := Activate(settled, retry.id, retry.mode, plan);
    assert Step(s, Retries(h, plan)) == if r.failure.Some? then r.state.(queue := AQ.Rearmed(r.state.queue, retry)) else r.state;
    assert retry.id in s.queue.queued && s.queue.queued[retry.id].handle == h;
  }

  lemma StepKeepsModes(s: State, e: Event)
    requires !s.isMultiMain && AQ.Matched(s.queue) && AQ.SameModes(s.queue) && s.queue.firing == map[] && Atomic(e)
    ensures AQ.SameModes(Step(s, e).queue)
  {
    match e
    case Adds(id, mode, plan, _) =>
      ActivateQueue(s, id, mode, plan);
      AQ.DequeueKeepsModes(s.queue, id);
    case StartsUp(id, mode, plan) =>
      ActivateQueue(s, id, mode, plan);
      AQ.DequeueKeepsModes(s.queue, id);
      AQ.EnqueueKeepsModes(ActivationOf(s, id, mode, plan, false).state.queue, id, WR.Init);
    case TriggerFails(id, mode, _, _) => AQ.EnqueueKeepsModes(s.queue, id, mode);
    case Retries(h, plan) => if h in s.queue.timers { RetryKeepsModes(s, h, plan); }
    case Removes(id, _, _) => AQ.DequeueKeepsModes(s.queue, id);
    case _ =>
  }

  /** With a single main and retries as one step, every retry is made in the mode in which its workflow was queued. */
  lemma {:induction false} RetriesKeepTheirMode(s: State, events: seq<Event>)
    requires !s.isMultiMain && AQ.Matched(s.queue) && AQ.SameModes(s.queue) && s.queue.firing == map[]
    requires forall e :: e in events ==> Atomic(e)
    ensures AQ.SameModes(Run(s, events).queue)
    decreases |events|
  {
    if events != [] {
      assert Atomic(events[0]);
      StepKeepsSetup(s, events[0]);
      TimersMatchUnless(s, events[0]);
      StepKeepsModes(s, events[0]);
      RetriesKeepTheirMode(Step(s, events[0]), events[1..]);
    }
  }

  // ---------------------------------------------------------------- backoff over runs

  /** The event is a retry of the workflow that fails while it is still in the queue. */
  predicate FailedRetryOf(s: State, e: Event, id: string) {
    && e.Retries? && e.handle in s.queue.timers && s.queue.timers[e.handle].id == id && !s.isMultiMain
    && FailsEarly(s, s.queue.timers[e.handle].mode, e.plan)
  }

  /** The event may put the workflow in the queue anew or take it out. */
  predicate Requeues(s: State, e: Event, id: string) {
    match e
    case Adds(i, _, _, _) => i == id
    case StartsUp(i, _, _) => i == id
    case TriggerFails(i, _, _, _) => i == id
    case Retries(h, _) => h in s.queue.timers && s.queue.timers[h].id == id && !FailedRetryOf(s, e, id)
    case Removes(i, _, _) => i == id
    case DropsQueue => true
    case _ => false
  }

  predicate Undisturbed(s: State, events: seq<Event>, id: string)
    decreases |events|
  {
    events == [] || (Atomic(events[0]) && !Requeues(s, events[0], id) && Undisturbed(Step(s, events[0]), events[1..], id))
  }

  function FailuresOf(s: State, events: seq<Event>, id: string): nat
    decreases |events|
  {
    if events == [] then 0
    else (if FailedRetryOf(s, events[0], id) then 1 else 0) + FailuresOf(Step(s, events[0]), events[1..], id)
  }

  lemma OtherEntries(q: AQ.Queue, id: string, other: string, mode: WR.ActivationMode)
    requires id != other && id in q.queued
    ensures id in AQ.Dequeued(q, other).queued && AQ.Dequeued(q, other).queued[id] == q.queued[id]
    ensures id in AQ.Enqueued(q, other, mode).queued && AQ.Enqueued(q, other, mode).queued[id] == q.queued[id]
  {
  }

  lemma TimeoutAfterRetry(s: State, h: nat, plan: Plan, id: string)
    requires !s.isMultiMain && AQ.Matched(s.queue) && s.queue.firing == map[] && id in s.queue.queued
    requires h in s.queue.timers && !Requeues(s, Retries(h, plan), id)
    ensures id in Step(s, Retries(h, plan)).queue.queued
    ensures Step(s, Retries(h, plan)).queue.queued[id].lastTimeout
         == if FailedRetryOf(s, Retries(h, plan), id) then AQ.NextTimeout(s.queue.queued[id].lastTimeout) else s.queue.queued[id].lastTimeout
  {
    var retry := s.queue.timers[h];
    var settled := s.(queue := AQ.Settled(AQ.Fired(s.queue, h), h));
    ActivateQueue(settled, retry.id, retry.mode, plan);
    var r := Activate(settled, retry.id, retry.mode, plan);
    assert Step(s, Retries(h, plan)) == if r.failure.Some? then r.state.(queue := AQ.Rearmed(r.state.queue, retry)) else r.state;
    if retry.id != id {
      OtherEntries(settled.queue, id, retry.id, retry.mode);
    }
  }

  lemma TimeoutAfterStartUp(s: State, other: string, mode: WR.ActivationMode, plan: Plan, id: string)
    requires id != other && id in s.queue.queued
    ensures id in StartUp(s, other, mode, plan).queue.queued
    ensures StartUp(s, other, mode, plan).queue.queued[id] == s.queue.queued[id]
  {
    ActivateQueue(s, other, mode, plan);
    OtherEntries(s.queue, id, other, mode);
    OtherEntries(Activate(s, other, mode, plan).state.queue, id, other, WR.Init);
  }

  /** One step of an undisturbed entry: its timeout stays, or moves on by one failure. */
  lemma TimeoutAfter(s: State, e: Event, id: string)
    requires !s.isMultiMain && AQ.Matched(s.queue) && s.queue.firing == map[] && id in s.queue.queued
    requires Atomic(e) && !Requeues(s, e, id)
    ensures id in Step(s, e).queue.queued
    ensures Step(s, e).queue.queued[id].lastTimeout
         == if FailedRetryOf(s, e, id) then AQ.NextTimeout(s.queue.queued[id].lastTimeout) else s.queue.queued[id].lastTimeout
  {
    match e
    case Adds(other, mode, plan, _) =>
      ActivateQueue(s, other, mode, plan);
      OtherEntries(s.queue, id, other, mode);
    case StartsUp(other, mode, plan) => TimeoutAfterStartUp(s, other, mode, plan, id);
    case TriggerFails(other, mode, _, _) => OtherEntries(s.queue, id, other, mode);
    case Retries(h, plan) => if h in s.queue.timers { TimeoutAfterRetry(s, h, plan, id); }
    case Removes(other, _, _) => OtherEntries(s.queue, id, other, WR.Init);
    case _ =>
  }

  /** Nothing is under way, and the entry of the workflow has seen `n` failures. */
  ghost predicate WaitsAfter(s: State, id: string, n: nat) {
    && !s.isMultiMain && AQ.Matched(s.queue) && s.queue.firing == map[]
    && id in s.queue.queued && s.queue.queued[id].lastTimeout == AQ.Timeout(n)
  }

  lemma WaitsAfterStep(s: State, e: Event, id: string, n: nat)
    requires WaitsAfter(s, id, n) && Atomic(e) && !Requeues(s, e, id)
    ensures WaitsAfter(Step(s, e), id, n + if FailedRetryOf(s, e, id) then 1 else 0)
  {
    TimeoutAfter(s, e, id);
    StepKeepsSetup(s, e);
    TimersMatchUnless(s, e);
  }

  /**
   * Over every run in which nothing else queues or dequeues the workflow, whatever happens to other
   * workflows, `n` failed retries move its timeout `n` places along the capped doubling, and the live
   * timer waits exactly that long.
   */
  lemma BackoffOverRuns(s: State, events: seq<Event>, id: string, n: nat)
    requires WaitsAfter(s, id, n) && Undisturbed(s, events, id)
    ensures var q := Run(s, events).queue;
            && AQ.Live(q, id)
            && q.queued[id].lastTimeout == AQ.Timeout(n + FailuresOf(s, events, id))
            && q.timers[q.queued[id].handle].delay == AQ.Timeout(n + FailuresOf(s, events, id))
  {
    WaitsAfterRun(s, events, id, n);
  }

  /** The first step of an undisturbed run, with the state behind it and whether it was a failed retry. */
  lemma FirstStep(s: State, events: seq<Event>, id: string, n: nat) returns (next: State, more: nat)
    requires WaitsAfter(s, id, n) && Undisturbed(s, events, id) && events != []
    ensures WaitsAfter(next, id, n + more) && Undisturbed(next, events[1..], id)
    ensures Run(s, events) == Run(next, events[1..])
    ensures FailuresOf(s, events, id) == more + FailuresOf(next, events[1..], id)
  {
    next := Step(s, events[0]);
    more := if FailedRetryOf(s, events[0], id) then 1 else 0;
    WaitsAfterStep(s, events[0], id, n);
  }

  lemma {:induction false} WaitsAfterRun(s: State, events: seq<Event>, id: string, n: nat)
    requires WaitsAfter(s, id, n) && Undisturbed(s, events, id)
    ensures WaitsAfter(Run(s, events), id, n + FailuresOf(s, events, id))
    decreases |events|
  {
    if events != [] {
      var next, more := FirstStep(s, events, id, n);
      WaitsAfterRun(next, events[1..], id, n + more);
    }
  }

  // ---------------------------------------------------------------- errors of queued workflows

  ghost predicate QueuedHaveErrors(s: State) {
    forall id :: id in s.queue.queued ==> id in s.errors
  }

  /** Clearing the error of a queued workflow by hand. */
  predicate ClearsErrorOfQueued(s: State, e: Event) {
    (e.DropsError? && e.id in s.queue.queued) || (e.DropsErrors? && s.queue.queued != map[])
  }

  lemma ActivateErrors(s: State, id: string, mode: WR.ActivationMode, plan: Plan)
    ensures var r := Activate(s, id, mode, plan);
            && r.failure == FailureOf(s, mode, plan)
            && r.state.errors == (if r.failure.Some? then s.errors[id := r.failure.value] else s.errors - {id})
  {
    ActivationEnds(s, id, mode, plan);
  }

  /** A queued workflow keeps a registered error through every step except clearing it by hand. */
  lemma {:induction false} ErrorsKeptUnlessCleared(s: State, e: Event)
    requires QueuedHaveErrors(s)
    ensures QueuedHaveErrors(Step(s, e)) <==> !ClearsErrorOfQueued(s, e)
  {
    match e
    case Adds(id, mode, plan, _) =>
      ActivateErrors(s, id, mode, plan);
      ActivateQueue(s, id, mode, plan);
    case StartsUp(id, mode, plan) =>
      ActivateErrors(s, id, mode, plan);
      ActivateQueue(s, id, mode, plan);
    case Returns(h, plan) =>
      ReturnKeepsErrors(s, h, plan);
    case Retries(h, plan) =>
      if h in s.queue.timers {
        ReturnKeepsErrors(s.(queue := AQ.Fired(s.queue, h)), h, plan);
      }
    case DropsErrors =>
      if id :| id in s.queue.queued {
        assert id !in Step(s, e).errors;
      }
    case _ =>
  }

  lemma ReturnKeepsErrors(s: State, h: nat, plan: Plan)
    requires QueuedHaveErrors(s)
    ensures QueuedHaveErrors(Returned(s, h, plan))
  {
    if h in s.queue.firing {
      var retry := s.queue.firing[h];
      var settled := s.(queue := AQ.Settled(s.queue, h));
      ActivateErrors(settled, retry.id, retry.mode, plan);
      ActivateQueue(settled, retry.id, retry.mode, plan);
    }
  }

  predicate NeverClearsByHand(s: State, events: seq<Event>)
    decreases |events|
  {
    events == [] || (!ClearsErrorOfQueued(s, events[0]) && NeverClearsByHand(Step(s, events[0]), events[1..]))
  }

  lemma {:induction false} ErrorsKeptOverRuns(s: State, events: seq<Event>)
    requires QueuedHaveErrors(s) && NeverClearsByHand(s, events)
    ensures QueuedHaveErrors(Run(s, events))
    decreases |events|
  {
    if events != [] {
      ErrorsKeptUnlessCleared(s, events[0]);
      ErrorsKeptOverRuns(Step(s, events[0]), events[1..]);
    }
  }

  // ---------------------------------------------------------------- queued and active at once

  ghost predicate QueuedNotInMemory(s: State) {
    forall id :: id in s.queue.queued ==> id !in s.triggers.memory
  }

  /** A starter fails after the in-memory entry has been made. */
  predicate FailsInMemory(s: State, mode: WR.ActivationMode, plan: Plan) {
    ReachesTriggers(s, mode, plan) && Fails(plan)
  }

  lemma ActivateTriggers(s: State, id: string, mode: WR.ActivationMode, plan: Plan)
    ensures Activate(s, id, mode, plan).state.triggers == Begun(s, id, mode, plan)
  {
    ActivationEnds(s, id, mode, plan);
  }

  /**
   * What leaves a workflow queued and active in memory at once, told from the state and the plan before
   * the step. The in-memory entry is made before the first trigger starts and stays when one fails, so a
   * failing trigger of a queued workflow is enough, and so is a trigger that fails to close.
   */
  predicate LeavesQueuedActive(s: State, e: Event) {
    match e
    case Adds(id, mode, plan, shouldPublish) =>
      !(s.isMultiMain && shouldPublish) && id in s.queue.queued && FailsInMemory(s, mode, plan)
    case StartsUp(id, mode, plan) => StartUpLeavesQueuedActive(s, id, mode, plan)
    case TriggerFails(id, _, _, closing) => ClosingFails(s.triggers, id, closing)
    case Returns(h, plan) => h in s.queue.firing && RetryLeavesQueuedActive(s, s.queue.firing[h], plan)
    case Retries(h, plan) => h in s.queue.timers && RetryLeavesQueuedActive(s, s.queue.timers[h], plan)
    case _ => false
  }

  predicate RetryLeavesQueuedActive(s: State, retry: AQ.Timer, plan: Plan) {
    !s.isMultiMain && retry.id in s.queue.queued && FailsInMemory(s, retry.mode, plan)
  }

  /** At startup any failure but one of authorization queues the workflow. */
  predicate StartUpLeavesQueuedActive(s: State, id: string, mode: WR.ActivationMode, plan: Plan) {
    || (id in s.queue.queued && FailsInMemory(s, mode, plan))
    || (QueuesAtStartUp(s, mode, plan) && (id in s.triggers.memory || ReachesTriggers(s, mode, plan)))
  }

  lemma ActivateQueuedActive(s: State, id: string, mode: WR.ActivationMode, plan: Plan)
    requires QueuedNotInMemory(s)
    ensures var s' := Activate(s, id, mode, plan).state;
            && (QueuedNotInMemory(s') <==> !(id in s.queue.queued && FailsInMemory(s, mode, plan)))
            && (forall other :: other != id && other in s'.queue.queued ==> other !in s'.triggers.memory)
  {
    ActivateTriggers(s, id, mode, plan);
    ActivateQueue(s, id, mode, plan);
  }

  lemma ReturnQueuedActive(s: State, h: nat, plan: Plan)
    requires QueuedNotInMemory(s) && h in s.queue.firing
    ensures QueuedNotInMemory(Returned(s, h, plan)) <==> !RetryLeavesQueuedActive(s, s.queue.firing[h], plan)
  {
    if !s.isMultiMain {
      var retry := s.queue.firing[h];
      var settled := s.(queue := AQ.Settled(s.queue, h));
      ActivateQueuedActive(settled, retry.id, retry.mode, plan);
      var r := Activate(settled, retry.id, retry.mode, plan);
      assert AQ.Rearmed(r.state.queue, retry).queued.Keys == r.state.queue.queued.Keys;
    }
  }

  /** Queueing a workflow that was not queued before. */
  lemma EnqueueQueuedActive(s: State, t: State, id: string)
    requires t.queue.queued.Keys == s.queue.queued.Keys + {id} && t.triggers == s.triggers
    requires forall other :: other != id && other in s.queue.queued ==> other !in s.triggers.memory
    ensures QueuedNotInMemory(t) <==> id !in s.triggers.memory
  {
  }

  lemma StartUpQueuedActive(s: State, id: string, mode: WR.ActivationMode, plan: Plan)
    requires QueuedNotInMemory(s)
    ensures QueuedNotInMemory(StartUp(s, id, mode, plan)) <==> !StartUpLeavesQueuedActive(s, id, mode, plan)
  {
    var s' := Activate(s, id, mode, plan).state;
    ActivateQueuedActive(s, id, mode, plan);
    StartUpEnds(s, id, mode, plan);
    if QueuesAtStartUp(s, mode, plan) {
      ActivateTriggers(s, id, mode, plan);
      EnqueueQueuedActive(s', StartUp(s, id, mode, plan), id);
    }
  }

  /** At startup a workflow that fails is queued, unless its error is one of authorization. */
  predicate QueuesAtStartUp(s: State, mode: WR.ActivationMode, plan: Plan) {
    FailureOf(s, mode, plan).Some? && !MentionsAuthorization(FailureOf(s, mode, plan).value)
  }

  lemma StartUpEnds(s: State, id: string, mode: WR.ActivationMode, plan: Plan)
    ensures var s' := Activate(s, id, mode, plan).state;
            StartUp(s, id, mode, plan) == if QueuesAtStartUp(s, mode, plan) then s'.(queue := AQ.Enqueued(s'.queue, id, WR.Init)) else s'
  {
    ActivateQueue(s, id, mode, plan);
  }

  /** A workflow that is queued is never active in memory, except through exactly these steps. */
  lemma QueuedNotActiveUnless(s: State, e: Event)
    requires QueuedNotInMemory(s)
    ensures QueuedNotInMemory(Step(s, e)) <==> !LeavesQueuedActive(s, e)
  {
    match e
    case Adds(id, mode, plan, _) => ActivateQueuedActive(s, id, mode, plan);
    case StartsUp(id, mode, plan) => StartUpQueuedActive(s, id, mode, plan);
    case TriggerFails(id, mode, _, closing) =>
      assert AQ.Enqueued(s.queue, id, mode).queued.Keys == s.queue.queued.Keys + {id};
      assert id in Step(s, e).queue.queued;
    case Returns(h, plan) => if h in s.queue.firing { ReturnQueuedActive(s, h, plan); }
    case Retries(h, plan) => if h in s.queue.timers { ReturnQueuedActive(s.(queue := AQ.Fired(s.queue, h)), h, plan); }
    case _ =>
  }

  predicate NeverQueuedActive(s: State, events: seq<Event>)
    decreases |events|
  {
    events == [] || (!LeavesQueuedActive(s, events[0]) && NeverQueuedActive(Step(s, events[0]), events[1..]))
  }

  /** Over every run without such a step no queued workflow is active in memory, in the end or on the way. */
  lemma {:induction false} QueuedNeverActive(s: State, events: seq<Event>, n: nat)
    requires QueuedNotInMemory(s) && NeverQueuedActive(s, events) && n <= |events|
    ensures QueuedNotInMemory(Run(s, events[..n]))
    decreases n
  {
    if n > 0 {
      QueuedNotActiveUnless(s, events[0]);
      QueuedNeverActive(Step(s, events[0]), events[1..], n - 1);
      assert events[..n][1..] == events[1..][..n - 1];
    }
  }

  // ---------------------------------------------------------------- triggers left running

  /** A trigger that runs and that no in-memory entry of its workflow records. */
  predicate Orphan(t: Triggers, h: nat) {
    h in t.running && !(t.running[h] in t.memory && t.memory[t.running[h]].Has(h))
  }

  /** Every running trigger is recorded, so that removing its workflow closes it. */
  ghost predicate NoneOrphaned(t: Triggers) {
    forall h :: h in t.running ==> !Orphan(t, h)
  }

  /** Handles are given out once, and a record names no running trigger of another workflow. */
  ghost predicate HandlesOwned(t: Triggers) {
    && (forall h :: h in t.running ==> h < t.next)
    && (forall id :: id in t.memory ==> t.memory[id].first + t.memory[id].count <= t.next)
    && (forall id, h :: id in t.memory && h in t.running && t.memory[id].Has(h) ==> t.running[h] == id)
  }

  /** Some trigger of the workflow is running. */
  ghost predicate RunsAny(t: Triggers, id: string) {
    exists h :: h in t.running && t.running[h] == id
  }

  /** What a step does to triggers: nothing, an activation that starts some, or a removal. */
  datatype Effect = Nothing | Starts(id: string, plan: Plan) | Closes(id: string, closing: Closing)

  function EffectOf(s: State, e: Event): Effect {
    match e
    case Adds(id, mode, plan, shouldPublish) =>
      if !(s.isMultiMain && shouldPublish) && ReachesTriggers(s, mode, plan) then Starts(id, plan) else Nothing
    case StartsUp(id, mode, plan) => if ReachesTriggers(s, mode, plan) then Starts(id, plan) else Nothing
    case TriggerFails(id, _, _, closing) => Closes(id, closing)
    case Returns(h, plan) => if h in s.queue.firing then RetryEffect(s, s.queue.firing[h], plan) else Nothing
    case Retries(h, plan) => if h in s.queue.timers then RetryEffect(s, s.queue.timers[h], plan) else Nothing
    case Removes(id, _, closing) => if s.isMultiMain then Nothing else Closes(id, closing)
    case RemovesTriggers(id, closing) => Closes(id, closing)
    case _ => Nothing
  }

  function RetryEffect(s: State, retry: AQ.Timer, plan: Plan): Effect {
    if !s.isMultiMain && ReachesTriggers(s, retry.mode, plan) then Starts(retry.id, plan) else Nothing
  }

  function Effected(t: Triggers, effect: Effect): Triggers {
    match effect
    case Nothing => t
    case Starts(id, plan) => Started(t, id, plan)
    case Closes(id, closing) => Removed(t, id, closing)
  }

  lemma ReturnEffects(s: State, h: nat, plan: Plan)
    requires h in s.queue.firing
    ensures Returned(s, h, plan).triggers == Effected(s.triggers, RetryEffect(s, s.queue.firing[h], plan))
  {
    var retry := s.queue.firing[h];
    ActivateTriggers(s.(queue := AQ.Settled(s.queue, h)), retry.id, retry.mode, plan);
  }

  /** Every step starts the triggers of one workflow, closes those of one workflow, or leaves triggers alone. */
  lemma StepEffects(s: State, e: Event)
    ensures Step(s, e).triggers == Effected(s.triggers, EffectOf(s, e))
  {
    match e
    case Adds(id, mode, plan, _) => ActivateTriggers(s, id, mode, plan);
    case StartsUp(id, mode, plan) => ActivateTriggers(s, id, mode, plan);
    case Returns(h, plan) => if h in s.queue.firing { ReturnEffects(s, h, plan); }
    case Retries(h, plan) => if h in s.queue.timers { ReturnEffects(s.(queue := AQ.Fired(s.queue, h)), h, plan); }
    case _ =>
  }

  lemma {:induction false} OpenedAre(running: map<nat, string>, first: nat, count: nat, id: string)
    ensures forall h :: h in Opened(running, first, count, id) <==> h in running || first <= h < first + count
    ensures forall h :: h in Opened(running, first, count, id) ==>
      Opened(running, first, count, id)[h] == if first <= h < first + count then id else running[h]
  {
    if count > 0 {
      OpenedAre(running, first, count - 1, id);
    }
  }

  lemma {:induction false} ClosedAre(running: map<nat, string>, first: nat, count: nat)
    ensures forall h :: h in Closed(running, first, count) <==> h in running && !(first <= h < first + count)
    ensures forall h :: h in Closed(running, first, count) ==> Closed(running, first, count)[h] == running[h]
  {
    if count > 0 {
      ClosedAre(running, first, count - 1);
    }
  }

  lemma StartedHandles(t: Triggers, id: string, plan: Plan)
    requires HandlesOwned(t)
    ensures HandlesOwned(Started(t, id, plan))
    ensures forall h :: h in t.running ==> h in Started(t, id, plan).running && Started(t, id, plan).running[h] == t.running[h]
    ensures forall h :: h in Started(t, id, plan).running && h !in t.running ==>
      Started(t, id, plan).running[h] == id && Started(t, id, plan).memory[id].Has(h)
  {
    OpenedAre(t.running, t.next, Closables(Ran(plan)), id);
  }

  /** What a removal closes is recorded, and all that is recorded unless a trigger fails to close. */
  lemma RemovalCloses(t: Triggers, id: string, closing: Closing)
    ensures var t' := Removed(t, id, closing);
            && (forall h :: h in t'.running ==> h in t.running && t'.running[h] == t.running[h])
            && (forall h :: h in t.running && h !in t'.running ==> id in t.memory && t.memory[id].Has(h))
            && (!ClosingFails(t, id, closing) ==> forall h :: h in t'.running && id in t.memory ==> !t.memory[id].Has(h))
  {
    if id in t.memory {
      ClosedAre(t.running, t.memory[id].first, if ClosingFails(t, id, closing) then closing.value else t.memory[id].count);
    }
  }

  lemma EffectKeepsHandles(t: Triggers, effect: Effect)
    requires HandlesOwned(t)
    ensures HandlesOwned(Effected(t, effect))
  {
    match effect
    case Nothing =>
    case Starts(id, plan) => StartedHandles(t, id, plan);
    case Closes(id, closing) => RemovalCloses(t, id, closing);
  }

  lemma {:induction false} HandlesStayOwned(s: State, events: seq<Event>)
    requires HandlesOwned(s.triggers)
    ensures HandlesOwned(Run(s, events).triggers)
    decreases |events|
  {
    if events != [] {
      StepEffects(s, events[0]);
      EffectKeepsHandles(s.triggers, EffectOf(s, events[0]));
      HandlesStayOwned(Step(s, events[0]), events[1..]);
    }
  }

  lemma StartingOrphans(t: Triggers, id: string, plan: Plan)
    requires HandlesOwned(t) && NoneOrphaned(t)
    ensures NoneOrphaned(Started(t, id, plan)) <==> !RunsAny(t, id)
  {
    var t' := Started(t, id, plan);
    StartedHandles(t, id, plan);
    if RunsAny(t, id) {
      var h :| h in t.running && t.running[h] == id;
      assert Orphan(t', h);
    }
  }

  lemma ClosingOrphansNothing(t: Triggers, id: string, closing: Closing)
    requires NoneOrphaned(t)
    ensures NoneOrphaned(Removed(t, id, closing))
  {
    var t' := Removed(t, id, closing);
    RemovalCloses(t, id, closing);
    forall h | h in t'.running
      ensures !Orphan(t', h)
    {
      assert !Orphan(t, h);
    }
  }

  /** The step activates a workflow as far as its triggers, while some trigger of it is running. */
  ghost predicate Orphans(s: State, e: Event) {
    EffectOf(s, e).Starts? && RunsAny(s.triggers, EffectOf(s, e).id)
  }

  /** Triggers that need closing escape the record exactly in such a step. */
  lemma OrphansExactly(s: State, e: Event)
    requires HandlesOwned(s.triggers) && NoneOrphaned(s.triggers)
    ensures NoneOrphaned(Step(s, e).triggers) <==> !Orphans(s, e)
  {
    StepEffects(s, e);
    match EffectOf(s, e)
    case Nothing =>
    case Starts(id, plan) => StartingOrphans(s.triggers, id, plan);
    case Closes(id, closing) => ClosingOrphansNothing(s.triggers, id, closing);
  }

  /** Orphans are for good: no step closes a trigger that is not recorded, or records it again. */
  lemma OrphanStays(t: Triggers, effect: Effect, h: nat)
    requires HandlesOwned(t) && Orphan(t, h)
    ensures Orphan(Effected(t, effect), h)
  {
    match effect
    case Nothing =>
    case Starts(id, plan) => StartedHandles(t, id, plan);
    case Closes(id, closing) => RemovalCloses(t, id, closing);
  }

  lemma {:induction false} OrphansNeverClosedOverRuns(s: State, events: seq<Event>, h: nat)
    requires HandlesOwned(s.triggers) && Orphan(s.triggers, h)
    ensures Orphan(Run(s, events).triggers, h)
    decreases |events|
  {
    if events != [] {
      StepEffects(s, events[0]);
      EffectKeepsHandles(s.triggers, EffectOf(s, events[0]));
      OrphanStays(s.triggers, EffectOf(s, events[0]), h);
      OrphansNeverClosedOverRuns(Step(s, events[0]), events[1..], h);
    }
  }

  /**
   * A trigger that fails after others have started, followed by a successful retry and a removal, leaves
   * those others running, for the retry has replaced the record of them. Crons are stopped by the removal,
   * recorded or not, but until then those of both attempts are scheduled.
   */
  lemma {:induction false} RetryAfterPartialFailureOrphans(s: State, h: nat, plan: Plan, h': nat, plan': Plan, c: WR.Clearing)
    requires !s.isMultiMain && HandlesOwned(s.triggers)
    requires h in s.queue.timers && FailsInMemory(s, s.queue.timers[h].mode, plan)
    requires var s1 := Step(s, Retries(h, plan));
             && h' in s1.queue.timers && s1.queue.timers[h'].id == s.queue.timers[h].id
             && ReachesTriggers(s1, s1.queue.timers[h'].mode, plan') && !Fails(plan')
    ensures var t, id := s.triggers, s.queue.timers[h].id;
            var s2 := Step(Step(s, Retries(h, plan)), Retries(h', plan'));
            var t3 := Step(s2, Removes(id, c, None)).triggers;
            && CountOf(s2.triggers.crons, id) == CountOf(t.crons, id) + CronsStarted(plan) + CronsOf(plan'.starters)
            && id !in t3.memory && CountOf(t3.crons, id) == 0
            && (forall k :: t.next <= k < t.next + Closables(Ran(plan)) ==> k in t3.running && t3.running[k] == id)
            && (forall k :: k in t3.running && k !in t.running ==> t.next <= k < t.next + Closables(Ran(plan)))
  {
    var id, s1 := s.queue.timers[h].id, Step(s, Retries(h, plan));
    var s2 := Step(s1, Retries(h', plan'));
    RetryStarts(s, h, plan);
    RetryStarts(s1, h', plan');
    StepEffects(s2, Removes(id, c, None));
    StartedAgain(s.triggers, id, plan, plan');
  }

  lemma RetryStarts(s: State, h: nat, plan: Plan)
    requires !s.isMultiMain && h in s.queue.timers && ReachesTriggers(s, s.queue.timers[h].mode, plan)
    ensures var s' := Step(s, Retries(h, plan));
            s'.triggers == Started(s.triggers, s.queue.timers[h].id, plan) && !s'.isMultiMain
  {
    StepEffects(s, Retries(h, plan));
    StepKeepsSetup(s, Retries(h, plan));
  }

  lemma StartedAgain(t: Triggers, id: string, plan: Plan, plan': Plan)
    requires HandlesOwned(t) && !Fails(plan')
    ensures var t2 := Started(Started(t, id, plan), id, plan'); var t3 := Removed(t2, id, None);
            && CountOf(t2.crons, id) == CountOf(t.crons, id) + CronsStarted(plan) + CronsOf(plan'.starters)
            && id !in t3.memory && CountOf(t3.crons, id) == 0
            && (forall k :: t.next <= k < t.next + Closables(Ran(plan)) ==> k in t3.running && t3.running[k] == id)
            && (forall k :: k in t3.running && k !in t.running ==> t.next <= k < t.next + Closables(Ran(plan)))
  {
    var t1 := Started(t, id, plan);
    OpenedAre(t.running, t.next, Closables(Ran(plan)), id);
    OpenedAre(t1.running, t1.next, Closables(Ran(plan')), id);
    RemovalCloses(Started(t1, id, plan'), id, None);
  }

  // ---------------------------------------------------------------- crons

  /** A workflow that has crons scheduled is active in memory. */
  ghost predicate CronsInMemory(t: Triggers) {
    forall id :: CountOf(t.crons, id) > 0 ==> id in t.memory
  }

  lemma EffectKeepsCrons(t: Triggers, effect: Effect)
    requires CronsInMemory(t)
    ensures CronsInMemory(Effected(t, effect))
    ensures effect.Closes? ==> CountOf(Effected(t, effect).crons, effect.id) == 0
  {
    var t' := Effected(t, effect);
    forall id | CountOf(t'.crons, id) > 0
      ensures id in t'.memory
    {
      assert CountOf(t.crons, id) > 0 ==> id in t.memory;
    }
    if effect.Closes? {
      assert CountOf(t.crons, effect.id) > 0 ==> effect.id in t.memory;
    }
  }

  /** Over every run no cron outlives the in-memory entry of its workflow, whichever triggers were orphaned. */
  lemma {:induction false} CronsInMemoryOverRuns(s: State, events: seq<Event>)
    requires CronsInMemory(s.triggers)
    ensures CronsInMemory(Run(s, events).triggers)
    decreases |events|
  {
    if events != [] {
      StepEffects(s, events[0]);
      EffectKeepsCrons(s.triggers, EffectOf(s, events[0]));
      CronsInMemoryOverRuns(Step(s, events[0]), events[1..]);
    }
  }

  /** A removal stops every cron of its workflow, even if one of its triggers fails to close. */
  lemma NoCronSurvivesRemoval(s: State, events: seq<Event>, id: string, c: WR.Clearing, closing: Closing)
    requires !s.isMultiMain && CronsInMemory(s.triggers)
    ensures CountOf(Step(Run(s, events), Removes(id, c, closing)).triggers.crons, id) == 0
  {
    CronsInMemoryOverRuns(s, events);
    SetupStays(s, events);
    StepEffects(Run(s, events), Removes(id, c, closing));
    EffectKeepsCrons(Run(s, events).triggers, Closes(id, closing));
  }

  lemma {:induction false} SetupStays(s: State, events: seq<Event>)
    ensures Run(s, events).isMultiMain == s.isMultiMain && Run(s, events).isLeader == s.isLeader
    decreases |events|
  {
    if events != [] {
      StepKeepsSetup(s, events[0]);
      SetupStays(Step(s, events[0]), events[1..]);
    }
  }

  // ---------------------------------------------------------------- what success and removal mean

  /** The entry of the workflow records all closable triggers of the plan, they run, and its crons are scheduled. */
  ghost predicate Recorded(t: Triggers, id: string, plan: Plan) {
    && id in t.memory && t.memory[id].count == Closables(plan.starters)
    && t.memory[id].first + t.memory[id].count <= t.next
    && (forall h :: t.memory[id].Has(h) ==> h in t.running && t.running[h] == id)
    && CountOf(t.crons, id) >= CronsOf(plan.starters)
  }

  lemma StartedIsRecorded(t: Triggers, id: string, plan: Plan)
    requires !Fails(plan)
    ensures Recorded(Started(t, id, plan), id, plan)
  {
    OpenedAre(t.running, t.next, Closables(plan.starters), id);
  }

  /** Webhooks are added on initialisation, and otherwise by the leader unless it has only just become one. */
  predicate AddsWebhooks(isLeader: bool, mode: WR.ActivationMode) {
    mode == WR.Init || (isLeader && mode in {WR.Create, WR.Update, WR.Activate, WR.ManualMode})
  }

  /** A webhook that the activation adds fails fatally, or filling the cache fails after them. */
  ghost predicate WebhookFails(isLeader: bool, mode: WR.ActivationMode, web: WebPlan) {
    && AddsWebhooks(isLeader, mode)
    && ((exists i :: 0 <= i < |web.trials| && WR.IsFatal(web.trials[i], mode)) || (|web.trials| > 0 && web.cacheFails))
  }

  lemma WebhooksThrowOnFailure(s: State, mode: WR.ActivationMode, plan: Plan)
    ensures WebhooksThrow(s, mode, plan) <==> WebhookFails(s.isLeader, mode, plan.web)
  {
    WR.ThrowsExactly(s.web, "", plan.web.trials, mode, plan.web.clearing, plan.web.cacheFails);
    WR.ThrowsOnFatal(s.web, "", plan.web.trials, mode, plan.web.clearing, plan.web.cacheFails);
  }

  /** On the leader one of the triggers and pollers fails to start. */
  predicate TriggerWontStart(s: State, plan: Plan) {
    s.isLeader && plan.failsAt.Some? && plan.failsAt.value < |plan.starters|
  }

  /** The error of an activation and what it leaves undone, told from lead, mode and environment alone. */
  lemma FailureInPlainTerms(s: State, id: string, mode: WR.ActivationMode, plan: Plan)
    ensures var r := Activate(s, id, mode, plan); var s' := r.state;
            && (plan.refused.Some? ==> r.failure == plan.refused && s' == s.(errors := s'.errors))
            && (plan.refused.None? && WebhookFails(s.isLeader, mode, plan.web) ==>
                  r.failure == Some(plan.web.message) && s' == s.(errors := s'.errors, web := s'.web))
            && (plan.refused.None? && !WebhookFails(s.isLeader, mode, plan.web) && TriggerWontStart(s, plan) ==>
                  r.failure == Some(plan.triggerMessage) && s'.queue == s.queue && id in s'.triggers.memory)
            && (plan.refused.None? && !WebhookFails(s.isLeader, mode, plan.web) && !TriggerWontStart(s, plan) ==>
                  r.failure == plan.late && id !in s'.queue.queued)
            && s'.errors == (if r.failure.Some? then s.errors[id := r.failure.value] else s.errors - {id})
            && (plan.refused.Some? || !AddsWebhooks(s.isLeader, mode) ==> s'.web == s.web)
            && (plan.refused.None? && AddsWebhooks(s.isLeader, mode) && !WebhookFails(s.isLeader, mode, plan.web) ==>
                  WR.Written(s.web, id, plan.web.trials, s'.web))
            && (!s.isLeader || plan.starters == [] ==> s'.triggers == s.triggers)
  {
    ActivationEnds(s, id, mode, plan);
    WebhooksThrowOnFailure(s, mode, plan);
    WebhooksThrowExactly(s, id, mode, plan);
    if AddsWebhooks(s.isLeader, mode) && !WebhookFails(s.isLeader, mode, plan.web) {
      WR.SuccessWritesExactly(s.web, id, plan.web.trials, mode, plan.web.clearing, plan.web.cacheFails);
    }
  }

  /**
   * A workflow whose activation does not throw is out of the queue, has no timer and no error, and runs its triggers on
   * the leader. Its webhooks are written on initialisation, and on the leader in every other mode but that of a change
   * of leadership; in all other cases the webhooks are as they were.
   */
  lemma SuccessMeans(s: State, id: string, mode: WR.ActivationMode, plan: Plan)
    requires AQ.Matched(s.queue) && Activate(s, id, mode, plan).failure.None?
    ensures var s' := Activate(s, id, mode, plan).state;
            && id !in s'.queue.queued && id !in s'.errors
            && (forall h :: h in s'.queue.timers ==> s'.queue.timers[h].id != id)
            && (s.isLeader && plan.starters != [] ==> Recorded(s'.triggers, id, plan))
            && (!s.isLeader || plan.starters == [] ==> s'.triggers == s.triggers)
            && (mode == WR.Init || (s.isLeader && mode in {WR.Create, WR.Update, WR.Activate, WR.ManualMode})
                ==> WR.Written(s.web, id, plan.web.trials, s'.web))
            && (mode == WR.LeadershipChange || (!s.isLeader && mode != WR.Init) ==> s'.web == s.web)
  {
    AQ.DequeueKeeps(s.queue, id);
    ActivationEnds(s, id, mode, plan);
    WebhooksThrowOnFailure(s, mode, plan);
    FailureInPlainTerms(s, id, mode, plan);
    if ReachesTriggers(s, mode, plan) {
      StartedIsRecorded(s.triggers, id, plan);
    }
  }

  /**
   * With a single main, removing a workflow whose webhooks can be cleared and whose recorded triggers
   * close leaves nothing of it anywhere, except exactly the triggers that were orphaned before.
   */
  lemma RemoveLeavesOnlyOrphans(s: State, id: string, c: WR.Clearing, closing: Closing)
    requires !s.isMultiMain && AQ.Matched(s.queue) && CronsInMemory(s.triggers) && HandlesOwned(s.triggers)
    requires c.outcome.AllCleared? && WR.DefinedOnly(s.web, id, c.defined) && !ClosingFails(s.triggers, id, closing)
    ensures var s' := Remove(s, id, c, closing);
            && WR.NothingOf(s'.web, id)
            && id !in s'.errors && id !in s'.queue.queued && id !in s'.triggers.memory
            && (forall h :: h in s'.queue.timers ==> s'.queue.timers[h].id != id)
            && CountOf(s'.triggers.crons, id) == 0
            && (forall h :: h in s'.triggers.running && s'.triggers.running[h] == id
                  <==> Orphan(s.triggers, h) && s.triggers.running[h] == id)
  {
    AQ.DequeueKeeps(s.queue, id);
    EffectKeepsCrons(s.triggers, Closes(id, closing));
    RemovalCloses(s.triggers, id, closing);
  }

  /** A step for one workflow leaves queue entry, error and triggers of every other workflow as they were. */
  lemma {:induction false} ActivationLeavesOthers(s: State, id: string, mode: WR.ActivationMode, plan: Plan, other: string)
    requires other != id
    ensures var s' := Activate(s, id, mode, plan).state;
            && (other in s'.queue.queued <==> other in s.queue.queued)
            && (other in s.queue.queued ==> s'.queue.queued[other] == s.queue.queued[other])
            && (other in s'.errors <==> other in s.errors)
            && (other in s.errors ==> s'.errors[other] == s.errors[other])
            && (other in s'.triggers.memory <==> other in s.triggers.memory)
            && (other in s.triggers.memory ==> s'.triggers.memory[other] == s.triggers.memory[other])
            && CountOf(s'.triggers.crons, other) == CountOf(s.triggers.crons, other)
  {
    ActivationEnds(s, id, mode, plan);
  }

  // ---------------------------------------------------------------- a trigger that fails later

  /**
   * A running trigger that fails: its workflow is queued for a retry in the mode of the trigger, after the initial
   * delay, with the trigger's message as its error; unless a trigger fails to close, it is no longer in memory.
   */
  lemma TriggerFailureQueues(s: State, id: string, mode: WR.ActivationMode, message: string, closing: Closing)
    requires AQ.Matched(s.queue)
    ensures var s' := Step(s, TriggerFails(id, mode, message, closing));
            && s'.errors == s.errors[id := message]
            && AQ.Live(s'.queue, id) && s'.queue.timers[s'.queue.queued[id].handle] == AQ.Timer(id, mode, 1000)
            && (id in s'.triggers.memory <==> ClosingFails(s.triggers, id, closing))
            && s'.web == s.web
  {
    AQ.EnqueuedWaits(s.queue, id, mode);
    AQ.EnqueueKeeps(s.queue, id, mode);
  }

  predicate AuthorizationAt(message: string, i: nat) {
    i + 13 <= |message| && message[i..i + 13] == "Authorization"
  }

  /** The word may stand anywhere in the message. */
  lemma {:induction false} MentionsAnywhere(message: string)
    ensures MentionsAuthorization(message) <==> exists i: nat :: AuthorizationAt(message, i)
  {
    if |message| >= 13 {
      var rest := message[1..];
      MentionsAnywhere(rest);
      forall i: nat | i + 13 <= |rest|
        ensures AuthorizationAt(rest, i) <==> AuthorizationAt(message, i + 1)
      {
        assert rest[i..i + 13] == message[i + 1..i + 14];
      }
      assert AuthorizationAt(message, 0) <==> message[..13] == "Authorization";
      if i: nat :| AuthorizationAt(rest, i) { assert AuthorizationAt(message, i + 1); }
      if i: nat :| AuthorizationAt(message, i) { assert i > 0 ==> AuthorizationAt(rest, i - 1); }
    }
  }

  // ---------------------------------------------------------------- startup

  /** One workflow stored as active, and what happens to its activation. */
  datatype Job = Job(id: string, plan: Plan)

  /** `addActiveWorkflows`. */
  function StartUpAll(s: State, mode: WR.ActivationMode, jobs: seq<Job>): State
    decreases |jobs|
  {
    if jobs == [] then s else StartUpAll(StartUp(s, jobs[0].id, mode, jobs[0].plan), mode, jobs[1..])
  }

  /** Out of the queue, without an error and, on the leader, with all its triggers and pollers running. */
  ghost predicate IsActivated(s: State, id: string, plan: Plan) {
    id !in s.queue.queued && id !in s.errors && (s.isLeader && plan.starters != [] ==> Recorded(s.triggers, id, plan))
  }

  predicate IsGivenUp(s: State, id: string) {
    id !in s.queue.queued && id in s.errors && MentionsAuthorization(s.errors[id])
  }

  predicate IsRetrying(s: State, id: string) {
    && AQ.Live(s.queue, id) && s.queue.queued[id].lastTimeout == AQ.INITIAL_TIMEOUT
    && s.queue.queued[id].mode == WR.Init
    && id in s.errors && !MentionsAuthorization(s.errors[id])
  }

  /** The workflow is in exactly one of the three classes. */
  ghost predicate InOneClass(s: State, id: string, plan: Plan) {
    || (IsActivated(s, id, plan) && !IsGivenUp(s, id) && !IsRetrying(s, id))
    || (!IsActivated(s, id, plan) && IsGivenUp(s, id) && !IsRetrying(s, id))
    || (!IsActivated(s, id, plan) && !IsGivenUp(s, id) && IsRetrying(s, id))
  }

  lemma ClassesExclude(s: State, id: string, mode: WR.ActivationMode, plan: Plan)
    ensures InClass(s, id, mode, plan) ==> InOneClass(s, id, plan)
  {
  }

  /** The class that the outcome of its activation puts a workflow in. */
  ghost predicate InClass(s: State, id: string, mode: WR.ActivationMode, plan: Plan) {
    match FailureOf(s, mode, plan)
    case None => IsActivated(s, id, plan)
    case Some(message) => if MentionsAuthorization(message) then IsGivenUp(s, id) else IsRetrying(s, id)
  }

  lemma StartUpFailing(s: State, id: string, mode: WR.ActivationMode, plan: Plan)
    requires AQ.Matched(s.queue) && id !in s.queue.queued && FailureOf(s, mode, plan).Some?
    ensures var s' := StartUp(s, id, mode, plan);
            if MentionsAuthorization(FailureOf(s, mode, plan).value) then IsGivenUp(s', id) else IsRetrying(s', id)
  {
    StartUpEnds(s, id, mode, plan);
    ActivateErrors(s, id, mode, plan);
    ActivateQueue(s, id, mode, plan);
    AQ.EnqueueKeeps(s.queue, id, WR.Init);
    assert AQ.Dequeued(s.queue, id) == s.queue;
  }

  lemma StartUpClassifies(s: State, id: string, mode: WR.ActivationMode, plan: Plan)
    requires AQ.Matched(s.queue) && id !in s.queue.queued
    ensures AQ.Matched(StartUp(s, id, mode, plan).queue)
    ensures InClass(StartUp(s, id, mode, plan), id, mode, plan)
  {
    TimersMatchUnless(s, StartsUp(id, mode, plan));
    StepKeepsSetup(s, StartsUp(id, mode, plan));
    StartUpEnds(s, id, mode, plan);
    if FailureOf(s, mode, plan).None? {
      ActivateErrors(s, id, mode, plan);
      SuccessMeans(s, id, mode, plan);
    } else {
      StartUpFailing(s, id, mode, plan);
    }
  }

  /** What an entry, its timer and an error say of a workflow is the same in both states. */
  ghost predicate SameFor(s: State, s': State, id: string) {
    && (id in s.errors <==> id in s'.errors) && (id in s.errors ==> s'.errors[id] == s.errors[id])
    && (id in s.queue.queued <==> id in s'.queue.queued)
    && (AQ.Live(s.queue, id) ==> AQ.Live(s'.queue, id) && s'.queue.queued[id] == s.queue.queued[id])
  }

  lemma EnqueueSameFor(q: AQ.Queue, other: string, mode: WR.ActivationMode, id: string)
    requires AQ.Matched(q) && other != id
    ensures id in q.queued <==> id in AQ.Enqueued(q, other, mode).queued
    ensures AQ.Live(q, id) ==> AQ.Live(AQ.Enqueued(q, other, mode), id) && AQ.Enqueued(q, other, mode).queued[id] == q.queued[id]
  {
  }

  lemma StartUpSameFor(s: State, other: string, mode: WR.ActivationMode, plan: Plan, id: string)
    requires AQ.Matched(s.queue) && other !in s.queue.queued && other != id
    ensures SameFor(s, StartUp(s, other, mode, plan), id)
  {
    ActivateErrors(s, other, mode, plan);
    ActivateQueue(s, other, mode, plan);
    assert AQ.Dequeued(s.queue, other) == s.queue;
    EnqueueSameFor(s.queue, other, WR.Init, id);
  }

  lemma StartUpKeepsRecord(s: State, other: string, mode: WR.ActivationMode, more: Plan, id: string, plan: Plan)
    requires other != id && Recorded(s.triggers, id, plan)
    ensures Recorded(StartUp(s, other, mode, more).triggers, id, plan)
  {
    StepEffects(s, StartsUp(other, mode, more));
    OpenedAre(s.triggers.running, s.triggers.next, Closables(Ran(more)), other);
  }

  /** Starting up another workflow keeps the class of this one. */
  lemma StartUpKeepsClass(s: State, other: string, mode: WR.ActivationMode, more: Plan, id: string, plan: Plan)
    requires AQ.Matched(s.queue) && other !in s.queue.queued && other != id
    requires InClass(s, id, mode, plan)
    ensures InClass(StartUp(s, other, mode, more), id, mode, plan)
  {
    StepKeepsSetup(s, StartsUp(other, mode, more));
    StartUpSameFor(s, other, mode, more, id);
    if Recorded(s.triggers, id, plan) {
      StartUpKeepsRecord(s, other, mode, more, id, plan);
    }
  }

  lemma StartUpQueues(s: State, id: string, mode: WR.ActivationMode, plan: Plan)
    ensures StartUp(s, id, mode, plan).queue.queued.Keys <= s.queue.queued.Keys + {id}
  {
    ActivateQueue(s, id, mode, plan);
  }

  lemma {:induction false} StartUpAllKeepsClass(s: State, mode: WR.ActivationMode, jobs: seq<Job>, id: string, plan: Plan)
    requires AQ.Matched(s.queue) && DistinctIds(jobs)
    requires forall j :: j in jobs ==> j.id != id && j.id !in s.queue.queued
    requires InClass(s, id, mode, plan)
    ensures InClass(StartUpAll(s, mode, jobs), id, mode, plan)
    decreases |jobs|
  {
    if jobs != [] {
      var job := jobs[0];
      assert job in jobs;
      StartUpClassifies(s, job.id, mode, job.plan);
      StartUpKeepsClass(s, job.id, mode, job.plan, id, plan);
      StartUpQueues(s, job.id, mode, job.plan);
      RestNotQueued(jobs, s.queue.queued.Keys, StartUp(s, job.id, mode, job.plan).queue.queued.Keys);
      StartUpAllKeepsClass(StartUp(s, job.id, mode, job.plan), mode, jobs[1..], id, plan);
    }
  }

  ghost predicate DistinctIds(jobs: seq<Job>) {
    forall i, j :: 0 <= i < j < |jobs| ==> jobs[i].id != jobs[j].id
  }

  lemma RestNotQueued(jobs: seq<Job>, queued: set<string>, queued': set<string>)
    requires jobs != [] && DistinctIds(jobs) && queued' <= queued + {jobs[0].id}
    requires forall j :: j in jobs ==> j.id !in queued
    ensures DistinctIds(jobs[1..])
    ensures forall j :: j in jobs[1..] ==> j in jobs && j.id !in queued' && j.id != jobs[0].id
  {
  }

  /**
   * After startup with none of them queued every stored-active workflow is in the one class of its own
   * outcome, whatever became of the workflows before and after it: activated, with its triggers and
   * pollers running on the leader; given up, with an error that mentions authorization; or queued with
   * the initial delay on a live timer.
   */
  lemma {:induction false} StartUpAllClassifies(s: State, mode: WR.ActivationMode, jobs: seq<Job>, k: nat)
    requires AQ.Matched(s.queue) && DistinctIds(jobs) && k < |jobs|
    requires forall j :: j in jobs ==> j.id !in s.queue.queued
    ensures var s' := StartUpAll(s, mode, jobs);
            InClass(s', jobs[k].id, mode, jobs[k].plan) && InOneClass(s', jobs[k].id, jobs[k].plan)
    decreases |jobs|
  {
    ClassesExclude(StartUpAll(s, mode, jobs), jobs[k].id, mode, jobs[k].plan);
    var job := jobs[0];
    assert job in jobs;
    var next := StartUp(s, job.id, mode, job.plan);
    StartUpClassifies(s, job.id, mode, job.plan);
    StartUpQueues(s, job.id, mode, job.plan);
    RestNotQueued(jobs, s.queue.queued.Keys, next.queue.queued.Keys);
    if k == 0 {
      StartUpAllKeepsClass(next, mode, jobs[1..], job.id, job.plan);
    } else {
      StartUpAllClassifies(next, mode, jobs[1..], k - 1);
    }
  }

  /** An activation stores a webhook under the key, if it gets to its webhooks. */
  predicate StoresKey(plan: Plan, mode: WR.ActivationMode, key: WR.Key) {
    exists t :: t in WR.Reached(plan.web.trials, mode) && WR.Stores(t) && WR.KeyOf(t.hook) == key
  }

  predicate Owns(s: State, id: string, key: WR.Key) {
    key in s.web.rows && s.web.rows[key].workflowId == id
  }

  lemma ActivateKeepsRow(s: State, other: string, mode: WR.ActivationMode, plan: Plan, id: string, key: WR.Key)
    requires other != id && Owns(s, id, key) && !StoresKey(plan, mode, key)
    ensures Owns(Activate(s, other, mode, plan).state, id, key)
  {
    if plan.refused.None? && ShouldAddWebhooks(s, mode) {
      WR.OthersKeepUncontestedRows(s.web, other, plan.web.trials, mode, plan.web.clearing, plan.web.cacheFails, key);
      ActivateWeb(s, other, mode, plan);
    }
  }

  lemma ActivateWeb(s: State, id: string, mode: WR.ActivationMode, plan: Plan)
    ensures Activate(s, id, mode, plan).state.web == if plan.refused.Some? then s.web else Webhooks(s, id, mode, plan).world
  {
  }

  lemma StartUpKeepsRow(s: State, other: string, mode: WR.ActivationMode, plan: Plan, id: string, key: WR.Key)
    requires other != id && Owns(s, id, key) && !StoresKey(plan, mode, key)
    ensures Owns(StartUp(s, other, mode, plan), id, key)
  {
    StartUpEnds(s, other, mode, plan);
    ActivateKeepsRow(s, other, mode, plan, id, key);
  }

  lemma {:induction false} StartUpAllKeepsRow(s: State, mode: WR.ActivationMode, jobs: seq<Job>, id: string, key: WR.Key)
    requires Owns(s, id, key) && forall j :: j in jobs ==> j.id != id && !StoresKey(j.plan, mode, key)
    ensures Owns(StartUpAll(s, mode, jobs), id, key)
    decreases |jobs|
  {
    if jobs != [] {
      assert jobs[0] in jobs;
      StartUpKeepsRow(s, jobs[0].id, mode, jobs[0].plan, id, key);
      StartUpAllKeepsRow(StartUp(s, jobs[0].id, mode, jobs[0].plan), mode, jobs[1..], id, key);
    }
  }

  /**
   * After a startup that adds webhooks, a workflow whose activation succeeds owns the key of every webhook
   * that it stored, unless a later workflow stores a webhook under the same key.
   */
  lemma {:induction false} StartUpAllOwnsRows(s: State, mode: WR.ActivationMode, jobs: seq<Job>, k: nat, t: WR.Trial)
    requires DistinctIds(jobs) && k < |jobs| && AddsWebhooks(s.isLeader, mode)
    requires FailureOf(s, mode, jobs[k].plan).None? && t in jobs[k].plan.web.trials && WR.Stores(t)
    requires forall j :: k < j < |jobs| ==> !StoresKey(jobs[j].plan, mode, WR.KeyOf(t.hook))
    ensures Owns(StartUpAll(s, mode, jobs), jobs[k].id, WR.KeyOf(t.hook))
    decreases |jobs|
  {
    var job := jobs[0];
    var next := StartUp(s, job.id, mode, job.plan);
    if k == 0 {
      WebhooksThrowExactly(s, job.id, mode, job.plan);
      StartUpEnds(s, job.id, mode, job.plan);
      ActivationEnds(s, job.id, mode, job.plan);
      WR.SuccessOwnsEveryKey(s.web, job.id, job.plan.web.trials, mode, job.plan.web.clearing, job.plan.web.cacheFails, t);
      assert Owns(next, job.id, WR.KeyOf(t.hook));
      StartUpAllKeepsRow(next, mode, jobs[1..], job.id, WR.KeyOf(t.hook));
    } else {
      StepKeepsSetup(s, StartsUp(job.id, mode, job.plan));
      StartUpAllOwnsRows(next, mode, jobs[1..], k - 1, t);
    }
  }

  // ---------------------------------------------------------------- the manager

  /** What is running and recorded when `starters` have been started after `t`. */
  ghost predicate StartedSoFar(t: Triggers, id: string, starters: seq<Starter>, t': Triggers) {
    && t'.memory == t.memory[id := Record(t.next, Closables(starters))]
    && t'.running == Opened(t.running, t.next, Closables(starters), id)
    && t'.crons == t.crons[id := CountOf(t.crons, id) + CronsOf(starters)]
    && t'.next == t.next + Closables(starters)
  }

  /** The handles of all entries but those of `ids`. */
  ghost function HandlesBut(queued: map<string, AQ.Entry>, ids: set<string>): set<nat> {
    set id | id in queued && id !in ids :: queued[id].handle
  }

  lemma HandlesOneMore(queued: map<string, AQ.Entry>, ids: set<string>, id: string)
    requires id in ids && id in queued
    ensures HandlesBut(queued, ids - {id}) == HandlesBut(queued, ids) + {queued[id].handle}
  {
  }

  /** The workflow has one trigger more. */
  function WithTrigger(t: Triggers, id: string): Triggers
    requires id in t.memory
  {
    t.(memory := t.memory[id := t.memory[id].(count := t.memory[id].count + 1)], running := t.running[t.next := id], next := t.next + 1)
  }

  function WithCrons(t: Triggers, id: string, crons: nat): Triggers {
    t.(crons := t.crons[id := CountOf(t.crons, id) + crons])
  }

  lemma StartedOneMore(t: Triggers, id: string, starters: seq<Starter>, starter: Starter, t': Triggers)
    requires StartedSoFar(t, id, starters, t')
    ensures id in t'.memory
    ensures StartedSoFar(t, id, starters + [starter], WithCrons(if starter.closable then WithTrigger(t', id) else t', id, starter.crons))
  {
    assert (starters + [starter])[..|starters|] == starters;
  }

  lemma StartedInAll(t: Triggers, id: string, plan: Plan, t': Triggers)
    requires StartedSoFar(t, id, Ran(plan), t')
    ensures (if Fails(plan) then WithCrons(t', id, plan.failedCrons) else t') == Started(t, id, plan)
  {
  }

  class ActiveWorkflowManager {
    var queuedActivations: map<string, AQ.Entry>
    var timers: map<nat, AQ.Timer>
    var firing: map<nat, AQ.Timer>
    var nextTimer: nat
    var triggers: Triggers
    var activationErrors: map<string, string>
    const webhookRegistry: WR.WebhookRegistry
    var isLeader: bool
    const isMultiMain: bool

    ghost function Queue(): AQ.Queue
      reads this
    {
      AQ.Queue(queuedActivations, timers, firing, nextTimer)
    }

    ghost function Abs(): State
      reads this, webhookRegistry
    {
      State(Queue(), triggers, activationErrors, webhookRegistry.Contents(), isLeader, isMultiMain)
    }

    constructor (webhookRegistry: WR.WebhookRegistry, isLeader: bool, isMultiMain: bool)
      ensures this.webhookRegistry == webhookRegistry
      ensures Abs() == State(AQ.Empty(), Triggers(map[], map[], map[], 0), map[], webhookRegistry.Contents(), isLeader, isMultiMain)
      ensures AQ.Matched(Queue()) && QueuedHaveErrors(Abs()) && QueuedNotInMemory(Abs())
      ensures NoneOrphaned(triggers) && HandlesOwned(triggers) && CronsInMemory(triggers)
    {
      queuedActivations, timers, firing, nextTimer := map[], map[], map[], 0;
      triggers, activationErrors := Triggers(map[], map[], map[], 0), map[];
      this.webhookRegistry, this.isLeader, this.isMultiMain := webhookRegistry, isLeader, isMultiMain;
      new;
      AQ.EmptyMatched();
    }

    method RemoveQueuedWorkflowActivation(id: string)
      modifies this`queuedActivations, this`timers
      ensures Queue() == AQ.Dequeued(old(Queue()), id)
    {
      if id in queuedActivations {
        timers := timers - {queuedActivations[id].handle};
        queuedActivations := queuedActivations - {id};
      }
    }

    method AddQueuedWorkflowActivation(mode: WR.ActivationMode, id: string)
      modifies this`queuedActivations, this`timers, this`nextTimer
      ensures Queue() == AQ.Enqueued(old(Queue()), id, mode)
    {
      RemoveQueuedWorkflowActivation(id);
      var handle := nextTimer;
      nextTimer := nextTimer + 1;
      timers := timers[handle := AQ.Timer(id, mode, AQ.INITIAL_TIMEOUT)];
      queuedActivations := queuedActivations[id := AQ.Entry(mode, AQ.INITIAL_TIMEOUT, handle)];
    }

    method RemoveAllQueuedWorkflowActivations()
      modifies this`queuedActivations, this`timers
      ensures Abs() == Step(old(Abs()), DropsQueue)
    {
      var ids := queuedActivations.Keys;
      while ids != {}
        invariant ids <= old(queuedActivations).Keys
        invariant queuedActivations == old(queuedActivations) - (old(queuedActivations).Keys - ids)
        invariant timers == old(timers) - HandlesBut(old(queuedActivations), ids)
      {
        var id :| id in ids;
        HandlesOneMore(old(queuedActivations), ids, id);
        RemoveQueuedWorkflowActivation(id);
        ids := ids - {id};
      }
    }

    /** The in-memory `add`: the entry is replaced first, then the triggers and pollers start one by one. Returns whether one fails. */
    method StartTriggers(id: string, plan: Plan) returns (failed: bool)
      modifies this`triggers
      ensures triggers == Started(old(triggers), id, plan)
      ensures failed == Fails(plan)
    {
      ghost var before := triggers;
      triggers := WithCrons(triggers.(memory := triggers.memory[id := Record(triggers.next, 0)]), id, 0);
      var i := 0;
      while i < |plan.starters| && !(plan.failsAt.Some? && i == plan.failsAt.value)
        invariant i <= |Ran(plan)|
        invariant StartedSoFar(before, id, plan.starters[..i], triggers)
      {
        StartedOneMore(before, id, plan.starters[..i], plan.starters[i], triggers);
        assert plan.starters[..i + 1] == plan.starters[..i] + [plan.starters[i]];
        if plan.starters[i].closable {
          triggers := WithTrigger(triggers, id);
        }
        triggers := WithCrons(triggers, id, plan.starters[i].crons);
        i := i + 1;
      }
      assert plan.starters[..i] == Ran(plan);
      StartedInAll(before, id, plan, triggers);
      failed := i < |plan.starters|;
      if failed {
        triggers := WithCrons(triggers, id, plan.failedCrons);
      }
    }

    /** Returns the message of the error the call throws, if it throws. */
    method Add(id: string, mode: WR.ActivationMode, plan: Plan, shouldPublish: bool) returns (failure: Option<string>)
      modifies this`queuedActivations, this`timers, this`triggers, this`activationErrors, webhookRegistry
      ensures Activation(Abs(), failure) == ActivationOf(old(Abs()), id, mode, plan, shouldPublish)
    {
      if isMultiMain && shouldPublish {
        return None;
      }
      failure := TryActivate(id, mode, plan);
      if failure.Some? {
        activationErrors := activationErrors[id := failure.value];
      }
    }

    /** The body of the `try` in `add`. */
    method TryActivate(id: string, mode: WR.ActivationMode, plan: Plan) returns (failure: Option<string>)
      modifies this`queuedActivations, this`timers, this`triggers, this`activationErrors, webhookRegistry
      ensures var r := Activate(old(Abs()), id, mode, plan);
              && failure == r.failure
              && Abs() == if failure.Some? then r.state.(errors := old(activationErrors)) else r.state
    {
      if plan.refused.Some? {
        return plan.refused;
      }
      failure := TryRegister(id, mode, plan);
      if failure.Some? {
        return;
      }
      RemoveQueuedWorkflowActivation(id);
      if plan.late.Some? {
        return plan.late;
      }
      activationErrors := activationErrors - {id};
    }

    /** Webhooks, then triggers, as far as this instance may add them. */
    method TryRegister(id: string, mode: WR.ActivationMode, plan: Plan) returns (failure: Option<string>)
      requires plan.refused.None?
      modifies this`triggers, webhookRegistry
      ensures var s := old(Abs());
              var added := Webhooks(s, id, mode, plan);
              var starts := !added.thrown && ShouldAddTriggersAndPollers(s) && plan.starters != [];
              && Abs() == s.(web := added.world, triggers := if starts then Started(s.triggers, id, plan) else s.triggers)
              && failure == if added.thrown then Some(plan.web.message)
                            else if starts && Fails(plan) then Some(plan.triggerMessage) else None
    {
      if mode.Init? || (!mode.LeadershipChange? && isLeader) {
        var thrown := webhookRegistry.AddWebhooks(id, plan.web.trials, mode, plan.web.clearing, plan.web.cacheFails);
        if thrown {
          return Some(plan.web.message);
        }
      }
      if isLeader && plan.starters != [] {
        var failed := StartTriggers(id, plan);
        if failed {
          return Some(plan.triggerMessage);
        }
      }
      failure := None;
    }

    /** Stops the crons, then closes the recorded triggers one by one; returns whether one fails to close. */
    method RemoveWorkflowTriggersAndPollers(id: string, closing: Closing) returns (failed: bool)
      modifies this`triggers
      ensures Abs() == Step(old(Abs()), RemovesTriggers(id, closing))
      ensures failed == ClosingFails(old(triggers), id, closing)
    {
      if id !in triggers.memory {
        return false;
      }
      triggers := triggers.(crons := triggers.crons - {id});
      var record := triggers.memory[id];
      var i := 0;
      while i < record.count && !(closing.Some? && i == closing.value)
        invariant 0 <= i <= record.count
        invariant closing.Some? ==> i <= closing.value
        invariant triggers == old(triggers).(crons := old(triggers).crons - {id}, running := Closed(old(triggers).running, record.first, i))
      {
        triggers := triggers.(running := triggers.running - {record.first + i});
        i := i + 1;
      }
      failed := i < record.count;
      if !failed {
        triggers := triggers.(memory := triggers.memory - {id});
      }
    }

    /** Returns whether the call rejects: everything else is done by then. */
    method Remove(id: string, clearing: WR.Clearing, closing: Closing) returns (failed: bool)
      modifies this`queuedActivations, this`timers, this`triggers, this`activationErrors, webhookRegistry
      ensures Abs() == Step(old(Abs()), Removes(id, clearing, closing))
      ensures failed == (!isMultiMain && ClosingFails(old(triggers), id, closing))
    {
      failed := false;
      webhookRegistry.ClearWebhooks(id, clearing);
      if !isMultiMain {
        activationErrors := activationErrors - {id};
        RemoveQueuedWorkflowActivation(id);
        failed := RemoveWorkflowTriggersAndPollers(id, closing);
      }
    }

    /** `emitError` of a trigger of the workflow, which does not wait for the triggers to close. */
    method EmitError(id: string, mode: WR.ActivationMode, message: string, closing: Closing)
      modifies this`queuedActivations, this`timers, this`nextTimer, this`triggers, this`activationErrors
      ensures Abs() == Step(old(Abs()), TriggerFails(id, mode, message, closing))
    {
      var _ := RemoveWorkflowTriggersAndPollers(id, closing);
      activationErrors := activationErrors[id := message];
      AddQueuedWorkflowActivation(mode, id);
    }

    /** A timer fires: its retry is under way. */
    method Fire(handle: nat)
      modifies this`timers, this`firing
      ensures Abs() == Step(old(Abs()), Fires(handle))
    {
      if handle in timers {
        firing := firing[handle := timers[handle]];
        timers := timers - {handle};
      }
    }

    /** The `catch` of a retry: arms the next timer from the entry of the workflow, which has to exist. */
    method Rearm(retry: AQ.Timer)
      requires retry.id in queuedActivations
      modifies this`queuedActivations, this`timers, this`nextTimer
      ensures Queue() == AQ.Rearmed(old(Queue()), retry)
    {
      var lastTimeout := queuedActivations[retry.id].lastTimeout;
      if lastTimeout < AQ.MAX_TIMEOUT {
        lastTimeout := if lastTimeout * 2 < AQ.MAX_TIMEOUT then lastTimeout * 2 else AQ.MAX_TIMEOUT;
      }
      queuedActivations := queuedActivations[retry.id := queuedActivations[retry.id].(lastTimeout := lastTimeout, handle := nextTimer)];
      timers := timers[nextTimer := AQ.Timer(retry.id, retry.mode, lastTimeout)];
      nextTimer := nextTimer + 1;
    }

    /**
     * The retry ends. Its `catch` reads the entry of the workflow, and so it crashes exactly if the retry
     * fails and leaves no entry: one that fails early finds none if somebody else has taken it out, and one
     * that fails late has taken it out itself.
     */
    method Return(handle: nat, plan: Plan) returns (crashed: bool)
      requires handle in firing
      modifies this, webhookRegistry
      ensures Abs() == Step(old(Abs()), Returns(handle, plan))
      ensures crashed <==>
        var s, retry := old(Abs()), old(firing)[handle];
        !isMultiMain && FailureOf(s, retry.mode, plan).Some? && !(FailsEarly(s, retry.mode, plan) && retry.id in s.queue.queued)
    {
      crashed := false;
      var retry := firing[handle];
      firing := firing - {handle};
      ghost var settled := Abs();
      assert settled == old(Abs()).(queue := AQ.Settled(old(Queue()), handle));
      var failure := Add(retry.id, retry.mode, plan, true);
      ActivateQueue(settled, retry.id, retry.mode, plan);
      if failure.Some? {
        if retry.id in queuedActivations {
          Rearm(retry);
        } else {
          crashed := true;
        }
      }
    }

    /** The workflows stored as active, one after the other; a failing one does not stop the rest. */
    method AddActiveWorkflows(mode: WR.ActivationMode, jobs: seq<Job>)
      modifies this, webhookRegistry
      ensures Abs() == StartUpAll(old(Abs()), mode, jobs)
    {
      assert jobs[0..] == jobs;
      var i := 0;
      while i < |jobs|
        invariant 0 <= i <= |jobs|
        invariant StartUpAll(Abs(), mode, jobs[i..]) == StartUpAll(old(Abs()), mode, jobs)
      {
        assert jobs[i..][1..] == jobs[i + 1..];
        ghost var before := Abs();
        var failure := Add(jobs[i].id, mode, jobs[i].plan, false);
        if failure.Some? && !MentionsAuthorization(failure.value) {
          AddQueuedWorkflowActivation(WR.Init, jobs[i].id);
        }
        assert Abs() == StartUp(before, jobs[i].id, mode, jobs[i].plan);
        i := i + 1;
      }
      assert jobs[i..] == [];
    }
  }
}
