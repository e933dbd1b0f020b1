/**
 * The registry of executions running in this process, with the concurrency control it relies on.
 * An `add` may be suspended in the throttle, pending in the repository, registered, or settled and
 * not yet cleaned up; every interleaving of these stages is a run of the transition system below.
 */
module ActiveExecutions {
  import opened Options
  import opened FirstOccurrence
  import CQ = ConcurrencyQueue

  datatype Mode = Cli | ErrorMode | Integrated | Internal | Manual | Retry | Trigger | Webhook | Evaluation

  /** How `isUnlimited` classifies a mode while concurrency control is on; `Unknown` throws. */
  datatype Throttling = Unlimited | Limited | Unknown

  function Classify(mode: Mode): Throttling {
    match mode
    case Trigger | Webhook => Limited
    case Evaluation => Unknown
    case _ => Unlimited
  }

  datatype Settlement = Cancelled | Finished

  /** Where one call of `add` has got to. */
  datatype Phase =
    | Refused                               // the throttle threw
    | Waiting                               // suspended in the throttle
    | Dropped                               // taken out of the queue: the call never resumes
    | Admitted                              // past the throttle, the repository call is pending
    | Broken                                // the repository call failed: the call rejects, its slot is kept
    | Registered(settled: Option<Settlement>)
    | Cleaned(outcome: Settlement)

  datatype Call = Call(id: string, mode: Mode, phase: Phase)

  /** `calls` lists every call of `add` ever made; `active` maps an execution to the call registered for it. */
  datatype State = State(limit: nat, enabled: bool, queue: CQ.Queue, calls: seq<Call>, active: map<string, nat>)

  datatype Event =
    | Begin(id: string, mode: Mode)
    | Register(token: nat)
    | RepositoryFails(token: nat)
    | Stop(id: string)
    | Finalize(id: string)
    | Cleanup(token: nat)
    | RemoveQueued(id: string, mode: Mode)
    | Disable

  function Init(limit: nat): State {
    State(limit, true, CQ.Queue(limit, []), [], map[])
  }

  // ---------------------------------------------------------------- steps

  predicate InPhase(s: State, token: nat, phase: Phase) {
    token < |s.calls| && s.calls[token].phase == phase
  }

  function SetPhase(calls: seq<Call>, token: nat, phase: Phase): (calls': seq<Call>)
    ensures |calls'| == |calls|
  {
    if token < |calls| then calls[token := calls[token].(phase := phase)] else calls
  }

  /** The effect of an operation on the queue, resuming the waiter it lets through. */
  function Resume(s: State, o: CQ.Outcome): State {
    s.(queue := o.queue,
       calls := if o.resumed.Some? then SetPhase(s.calls, o.resumed.value.token, Admitted) else s.calls)
  }

  function BeginStep(s: State, id: string, mode: Mode): State {
    if !s.enabled || Classify(mode).Unlimited? then
      s.(calls := s.calls + [Call(id, mode, Admitted)])
    else if Classify(mode).Unknown? then
      s.(calls := s.calls + [Call(id, mode, Refused)])
    else
      var queue := CQ.Enqueued(s.queue, CQ.Waiter(id, |s.calls|));
      s.(queue := queue, calls := s.calls + [Call(id, mode, if queue.capacity < 0 then Waiting else Admitted)])
  }

  function RegisterStep(s: State, token: nat): State {
    if InPhase(s, token, Admitted) then
      s.(calls := SetPhase(s.calls, token, Registered(None)), active := s.active[s.calls[token].id := token])
    else s
  }

  function RepositoryFailsStep(s: State, token: nat): State {
    if InPhase(s, token, Admitted) then s.(calls := SetPhase(s.calls, token, Broken)) else s
  }

  /** Settling the promise of the call registered for `id`; a promise settles once. */
  function SettleStep(s: State, id: string, settlement: Settlement): State {
    if id in s.active && InPhase(s, s.active[id], Registered(None)) then
      s.(calls := SetPhase(s.calls, s.active[id], Registered(Some(settlement))))
    else s
  }

  /** `release`, then deletion of whatever is registered under the same id. */
  function CleanupStep(s: State, token: nat): State {
    if token < |s.calls| && s.calls[token].phase.Registered? && s.calls[token].phase.settled.Some? then
      var call := s.calls[token];
      var cleaned := s.(calls := SetPhase(s.calls, token, Cleaned(call.phase.settled.value)), active := s.active - {call.id});
      if s.enabled && Classify(call.mode).Limited? then Resume(cleaned, CQ.Dequeued(s.queue)) else cleaned
    else s
  }

  function RemoveQueuedStep(s: State, id: string, mode: Mode): State {
    if s.enabled && Classify(mode).Limited? then
      var i := CQ.IndexOf(s.queue.waiting, id);
      if i == |s.queue.waiting| then s
      else Resume(s.(calls := SetPhase(s.calls, s.queue.waiting[i].token, Dropped)), CQ.Removed(s.queue, id))
    else s
  }

  function Step(s: State, e: Event): State {
    match e
    case Begin(id, mode) => BeginStep(s, id, mode)
    case Register(token) => RegisterStep(s, token)
    case RepositoryFails(token) => RepositoryFailsStep(s, token)
    case Stop(id) => SettleStep(s, id, Cancelled)
    case Finalize(id) => SettleStep(s, id, Finished)
    case Cleanup(token) => CleanupStep(s, token)
    case RemoveQueued(id, mode) => RemoveQueuedStep(s, id, mode)
    case Disable => s.(enabled := false)
  }

  function Run(s: State, events: seq<Event>): State
    decreases |events|
  {
    if events == [] then s else Run(Step(s, events[0]), events[1..])
  }

  // ---------------------------------------------------------------- slots

  /** The modes of production executions, the only ones that count towards the limit. */
  predicate IsProduction(mode: Mode) {
    mode == Webhook || mode == Trigger
  }

  /** A call holds a slot from the moment it is let through until its cleanup; a broken call keeps it. */
  predicate HoldsSlot(call: Call) {
    IsProduction(call.mode) && (call.phase.Admitted? || call.phase.Broken? || call.phase.Registered?)
  }

  function Held(calls: seq<Call>): nat {
    if calls == [] then 0
    else Held(calls[..|calls| - 1]) + if HoldsSlot(calls[|calls| - 1]) then 1 else 0
  }

  lemma {:induction false} HeldAfter(calls: seq<Call>, token: nat, phase: Phase)
    requires token < |calls|
    ensures Held(SetPhase(calls, token, phase))
         == Held(calls) - (if HoldsSlot(calls[token]) then 1 else 0)
                        + (if HoldsSlot(calls[token].(phase := phase)) then 1 else 0)
  {
    var calls' := SetPhase(calls, token, phase);
    var n := |calls| - 1;
    if token == n {
      assert calls'[..n] == calls[..n];
    } else {
      assert calls'[..n] == SetPhase(calls[..n], token, phase);
      HeldAfter(calls[..n], token, phase);
    }
  }

  lemma HeldAppend(calls: seq<Call>, call: Call)
    ensures Held(calls + [call]) == Held(calls) + if HoldsSlot(call) then 1 else 0
  {
    assert (calls + [call])[..|calls|] == calls;
  }

  // ---------------------------------------------------------------- the invariant

  /** Every waiter is a waiting call of a limited mode. */
  ghost predicate WaitersWait(s: State) {
    forall i :: 0 <= i < |s.queue.waiting| ==>
      var w := s.queue.waiting[i];
      && InPhase(s, w.token, Waiting)
      && s.calls[w.token].id == w.executionId
      && IsProduction(s.calls[w.token].mode)
  }

  /** The queue is in the order in which the calls were made. */
  ghost predicate Ordered(waiting: seq<CQ.Waiter>) {
    forall i, j :: 0 <= i < j < |waiting| ==> waiting[i].token < waiting[j].token
  }

  ghost predicate Queued(waiting: seq<CQ.Waiter>, token: nat) {
    exists i :: 0 <= i < |waiting| && waiting[i].token == token
  }

  /** The queue holds exactly the waiting calls, in the order in which they were made. */
  ghost predicate QueueMatches(s: State) {
    && WaitersWait(s)
    && Ordered(s.queue.waiting)
    && forall t :: 0 <= t < |s.calls| && s.calls[t].phase.Waiting? ==> Queued(s.queue.waiting, t)
  }

  /** Capacity is what is left of the limit; nobody waits while there is capacity. */
  ghost predicate Balanced(s: State) {
    && (s.enabled ==> s.queue.capacity == s.limit - Held(s.calls) - |s.queue.waiting|)
    && (s.queue.waiting != [] ==> |s.queue.waiting| <= -s.queue.capacity)
  }

  /** A registered entry points at its own registered call. */
  ghost predicate ActiveMatches(s: State) {
    forall id :: id in s.active ==>
      s.active[id] < |s.calls| && s.calls[s.active[id]].id == id && s.calls[s.active[id]].phase.Registered?
  }

  ghost predicate Inv(s: State) {
    QueueMatches(s) && Balanced(s) && ActiveMatches(s)
  }

  lemma InitKeeps(limit: nat)
    ensures Inv(Init(limit))
  {
  }

  lemma SettingPhaseKeepsQueue(s: State, token: nat, phase: Phase)
    requires QueueMatches(s) && token < |s.calls|
    requires !s.calls[token].phase.Waiting? && !phase.Waiting?
    ensures QueueMatches(s.(calls := SetPhase(s.calls, token, phase)))
  {
    var s' := s.(calls := SetPhase(s.calls, token, phase));
    assert forall t :: 0 <= t < |s'.calls| && s'.calls[t].phase.Waiting? ==> s.calls[t].phase.Waiting?;
  }

  lemma QueuedWithout(waiting: seq<CQ.Waiter>, i: nat, token: nat)
    requires i < |waiting| && Queued(waiting, token) && waiting[i].token != token
    ensures Queued(CQ.Without(waiting, i), token)
  {
    var j :| 0 <= j < |waiting| && waiting[j].token == token;
    var rest := CQ.Without(waiting, i);
    assert rest[if j < i then j else j - 1].token == token;
  }

  lemma OrderedWithout(waiting: seq<CQ.Waiter>, i: nat)
    requires i < |waiting| && Ordered(waiting)
    ensures Ordered(CQ.Without(waiting, i))
    ensures forall j :: 0 <= j < |waiting| - 1 ==> CQ.Without(waiting, i)[j].token != waiting[i].token
  {
  }

  /** Taking the waiter at position `i` out of the queue and giving its call another phase. */
  lemma TakingOutKeepsQueue(s: State, i: nat, phase: Phase, capacity: int)
    requires QueueMatches(s) && i < |s.queue.waiting| && !phase.Waiting?
    ensures QueueMatches(s.(queue := CQ.Queue(capacity, CQ.Without(s.queue.waiting, i)),
                            calls := SetPhase(s.calls, s.queue.waiting[i].token, phase)))
  {
    var waiting := s.queue.waiting;
    var token := waiting[i].token;
    var s' := s.(queue := CQ.Queue(capacity, CQ.Without(waiting, i)), calls := SetPhase(s.calls, token, phase));
    OrderedWithout(waiting, i);
    assert InPhase(s, token, Waiting);
    assert WaitersWait(s') by {
      forall j | 0 <= j < |s'.queue.waiting| ensures InPhase(s, s'.queue.waiting[j].token, Waiting) {
        assert s'.queue.waiting[j] == waiting[if j < i then j else j + 1];
      }
    }
    forall t | 0 <= t < |s'.calls| && s'.calls[t].phase.Waiting? ensures Queued(s'.queue.waiting, t) {
      assert s.calls[t].phase.Waiting?;
      QueuedWithout(waiting, i, t);
    }
  }

  lemma QueuedAppend(waiting: seq<CQ.Waiter>, w: CQ.Waiter)
    ensures Queued(waiting + [w], w.token)
    ensures forall t :: Queued(waiting, t) ==> Queued(waiting + [w], t)
  {
    assert (waiting + [w])[|waiting|] == w;
    forall t | Queued(waiting, t) ensures Queued(waiting + [w], t) {
      var i :| 0 <= i < |waiting| && waiting[i].token == t;
      assert (waiting + [w])[i].token == t;
    }
  }

  /** A new call that does not wait. */
  lemma AppendKeeps(s: State, call: Call, capacity: int)
    requires QueueMatches(s) && ActiveMatches(s) && !call.phase.Waiting?
    ensures QueueMatches(s.(queue := s.queue.(capacity := capacity), calls := s.calls + [call]))
    ensures ActiveMatches(s.(queue := s.queue.(capacity := capacity), calls := s.calls + [call]))
  {
    var s' := s.(queue := s.queue.(capacity := capacity), calls := s.calls + [call]);
    assert forall t :: 0 <= t < |s.calls| ==> s'.calls[t] == s.calls[t];
    assert forall t :: 0 <= t < |s'.calls| && s'.calls[t].phase.Waiting? ==> s.calls[t].phase.Waiting?;
  }

  /** A new call that waits, at the end of the queue. */
  lemma AppendWaiterKeeps(s: State, call: Call, capacity: int)
    requires QueueMatches(s) && ActiveMatches(s) && call.phase.Waiting? && IsProduction(call.mode)
    ensures var queue := CQ.Queue(capacity, s.queue.waiting + [CQ.Waiter(call.id, |s.calls|)]);
      QueueMatches(s.(queue := queue, calls := s.calls + [call])) && ActiveMatches(s.(queue := queue, calls := s.calls + [call]))
  {
    var w := CQ.Waiter(call.id, |s.calls|);
    var s' := s.(queue := CQ.Queue(capacity, s.queue.waiting + [w]), calls := s.calls + [call]);
    QueuedAppend(s.queue.waiting, w);
    assert forall t :: 0 <= t < |s.calls| ==> s'.calls[t] == s.calls[t];
    assert WaitersWait(s') && Ordered(s'.queue.waiting);
  }

  lemma BeginKeeps(s: State, id: string, mode: Mode)
    requires Inv(s)
    ensures Inv(BeginStep(s, id, mode))
  {
    LimitedAreProduction(mode);
    if s.enabled && IsProduction(mode) {
      BeginProductionKeeps(s, id, mode);
    } else {
      var call := Call(id, mode, if !s.enabled || Classify(mode).Unlimited? then Admitted else Refused);
      HeldAppend(s.calls, call);
      AppendKeeps(s, call, s.queue.capacity);
      assert BeginStep(s, id, mode) == s.(queue := s.queue.(capacity := s.queue.capacity), calls := s.calls + [call]);
    }
  }

  lemma LimitedAreProduction(mode: Mode)
    ensures Classify(mode).Limited? <==> IsProduction(mode)
  {
  }

  lemma BeginProductionKeeps(s: State, id: string, mode: Mode)
    requires Inv(s) && s.enabled && IsProduction(mode) && Classify(mode).Limited?
    ensures Inv(BeginStep(s, id, mode))
  {
    var capacity := s.queue.capacity - 1;
    var call := Call(id, mode, if capacity < 0 then Waiting else Admitted);
    HeldAppend(s.calls, call);
    if capacity < 0 { AppendWaiterKeeps(s, call, capacity); } else { AppendKeeps(s, call, capacity); }
  }

  lemma RegisterKeeps(s: State, token: nat)
    requires Inv(s)
    ensures Inv(RegisterStep(s, token))
  {
    if InPhase(s, token, Admitted) {
      SettingPhaseKeepsQueue(s, token, Registered(None));
      HeldAfter(s.calls, token, Registered(None));
    }
  }

  lemma RepositoryFailsKeeps(s: State, token: nat)
    requires Inv(s)
    ensures Inv(RepositoryFailsStep(s, token))
  {
    if InPhase(s, token, Admitted) {
      SettingPhaseKeepsQueue(s, token, Broken);
      HeldAfter(s.calls, token, Broken);
    }
  }

  lemma SettleKeeps(s: State, id: string, settlement: Settlement)
    requires Inv(s)
    ensures Inv(SettleStep(s, id, settlement))
  {
    if id in s.active && InPhase(s, s.active[id], Registered(None)) {
      SettingPhaseKeepsQueue(s, s.active[id], Registered(Some(settlement)));
      HeldAfter(s.calls, s.active[id], Registered(Some(settlement)));
    }
  }

  /** Resuming the first waiter, after capacity has been given back. */
  lemma ResumeKeeps(s: State, capacity: int)
    requires QueueMatches(s) && ActiveMatches(s)
    ensures var s' := Resume(s, CQ.ResolvedNext(CQ.Queue(capacity, s.queue.waiting)));
            && QueueMatches(s') && ActiveMatches(s')
            && s'.queue.capacity == capacity
            && Held(s'.calls) + |s'.queue.waiting| == Held(s.calls) + |s.queue.waiting|
            && |s'.queue.waiting| == if s.queue.waiting == [] then 0 else |s.queue.waiting| - 1
  {
    if s.queue.waiting != [] {
      TakingOutKeepsQueue(s, 0, Admitted, capacity);
      assert CQ.Without(s.queue.waiting, 0) == s.queue.waiting[1..];
      HeldAfter(s.calls, s.queue.waiting[0].token, Admitted);
    }
  }

  lemma CleanupKeeps(s: State, token: nat)
    requires Inv(s)
    ensures Inv(CleanupStep(s, token))
  {
    if token < |s.calls| && s.calls[token].phase.Registered? && s.calls[token].phase.settled.Some? {
      var call := s.calls[token];
      var phase := Cleaned(call.phase.settled.value);
      var cleaned := s.(calls := SetPhase(s.calls, token, phase), active := s.active - {call.id});
      SettingPhaseKeepsQueue(s, token, phase);
      HeldAfter(s.calls, token, phase);
      assert QueueMatches(cleaned) && ActiveMatches(cleaned);
      if s.enabled && Classify(call.mode).Limited? {
        ResumeKeeps(cleaned, s.queue.capacity + 1);
      }
    }
  }

  /** Taking a waiter out gives one slot back and resumes the first of the rest. */
  predicate TakesOut(s: State, id: string, mode: Mode) {
    s.enabled && IsProduction(mode) && CQ.IndexOf(s.queue.waiting, id) < |s.queue.waiting|
  }

  function TakenOut(s: State, i: nat): State
    requires i < |s.queue.waiting|
  {
    s.(queue := CQ.Queue(s.queue.capacity + 1, CQ.Without(s.queue.waiting, i)),
       calls := SetPhase(s.calls, s.queue.waiting[i].token, Dropped))
  }

  lemma RemoveQueuedShape(s: State, id: string, mode: Mode)
    requires TakesOut(s, id, mode)
    ensures var taken := TakenOut(s, CQ.IndexOf(s.queue.waiting, id));
            RemoveQueuedStep(s, id, mode) == Resume(taken, CQ.ResolvedNext(taken.queue))
  {
  }

  lemma TakenOutKeeps(s: State, i: nat)
    requires Inv(s) && i < |s.queue.waiting|
    ensures var taken := TakenOut(s, i);
            && QueueMatches(taken) && ActiveMatches(taken)
            && Held(taken.calls) == Held(s.calls)
  {
    var token := s.queue.waiting[i].token;
    assert InPhase(s, token, Waiting);
    TakingOutKeepsQueue(s, i, Dropped, s.queue.capacity + 1);
    HeldAfter(s.calls, token, Dropped);
  }

  lemma RemoveQueuedKeeps(s: State, id: string, mode: Mode)
    requires Inv(s)
    ensures Inv(RemoveQueuedStep(s, id, mode))
  {
    if TakesOut(s, id, mode) {
      var taken := TakenOut(s, CQ.IndexOf(s.queue.waiting, id));
      TakenOutKeeps(s, CQ.IndexOf(s.queue.waiting, id));
      ResumeKeeps(taken, taken.queue.capacity);
      RemoveQueuedShape(s, id, mode);
    }
  }

  lemma StepKeeps(s: State, e: Event)
    requires Inv(s)
    ensures Inv(Step(s, e))
  {
    match e
    case Begin(id, mode) => BeginKeeps(s, id, mode);
    case Register(token) => RegisterKeeps(s, token);
    case RepositoryFails(token) => RepositoryFailsKeeps(s, token);
    case Stop(id) => SettleKeeps(s, id, Cancelled);
    case Finalize(id) => SettleKeeps(s, id, Finished);
    case Cleanup(token) => CleanupKeeps(s, token);
    case RemoveQueued(id, mode) => RemoveQueuedKeeps(s, id, mode);
    case Disable =>
  }

  lemma {:induction false} RunKeeps(s: State, events: seq<Event>)
    requires Inv(s)
    ensures Inv(Run(s, events))
    decreases |events|
  {
    if events != [] {
      StepKeeps(s, events[0]);
      RunKeeps(Step(s, events[0]), events[1..]);
    }
  }

  // ---------------------------------------------------------------- the limit

  /** By how much the calls holding a slot exceed the limit. */
  function Overrun(s: State): int {
    if s.queue.capacity < 0 then -s.queue.capacity - |s.queue.waiting| else 0
  }

  /** Slots are conserved, and the limit is exceeded exactly by the overrun. */
  lemma SlotsAreConserved(s: State)
    requires Inv(s) && s.enabled
    ensures s.queue.capacity + Held(s.calls) + |s.queue.waiting| == s.limit
    ensures Overrun(s) >= 0
    ensures Held(s.calls) <= s.limit + Overrun(s)
    ensures Held(s.calls) > s.limit <==> Overrun(s) > 0
  {
  }

  /** Removing a queued execution while another one waits behind or before it. */
  predicate LetsAnotherIn(s: State, e: Event) {
    e.RemoveQueued? && TakesOut(s, e.id, e.mode) && |s.queue.waiting| >= 2
  }

  lemma OverrunAfter(s: State, e: Event)
    requires Inv(s) && Step(s, e).enabled
    ensures Overrun(Step(s, e)) <= Overrun(s) + if LetsAnotherIn(s, e) then 1 else 0
    ensures LetsAnotherIn(s, e) ==> Overrun(Step(s, e)) == Overrun(s) + 1
  {
    if e.RemoveQueued? && TakesOut(s, e.id, e.mode) {
      RemoveQueuedShape(s, e.id, e.mode);
    }
  }

  /** From a state within the limit, exactly such a removal takes one step beyond it. */
  lemma LimitExceededExactlyByRemoval(s: State, e: Event)
    requires Inv(s) && Step(s, e).enabled && Held(s.calls) <= s.limit
    ensures Held(Step(s, e).calls) > s.limit <==> LetsAnotherIn(s, e)
  {
    StepKeeps(s, e);
    OverrunAfter(s, e);
    SlotsAreConserved(s);
    SlotsAreConserved(Step(s, e));
  }

  /** Whenever two executions wait, removing either of them starts one more beside a full house. */
  lemma RemovalStartsOneMore(s: State, id: string, mode: Mode)
    requires Inv(s) && TakesOut(s, id, mode) && |s.queue.waiting| >= 2
    ensures Held(s.calls) >= s.limit
    ensures Held(Step(s, RemoveQueued(id, mode)).calls) == Held(s.calls) + 1
  {
    var e := RemoveQueued(id, mode);
    OverrunAfter(s, e);
    StepKeeps(s, e);
    RemoveQueuedShape(s, id, mode);
    SlotsAreConserved(s);
    SlotsAreConserved(Step(s, e));
  }

  /** How many removals of a run let another execution in. */
  function Intrusions(s: State, events: seq<Event>): nat
    decreases |events|
  {
    if events == [] then 0
    else (if LetsAnotherIn(s, events[0]) then 1 else 0) + Intrusions(Step(s, events[0]), events[1..])
  }

  lemma DisabledForGood(s: State, events: seq<Event>)
    requires Run(s, events).enabled
    ensures s.enabled
    decreases |events|
  {
    if events != [] {
      DisabledForGood(Step(s, events[0]), events[1..]);
    }
  }

  lemma {:induction false} LimitStays(s: State, events: seq<Event>)
    ensures Run(s, events).limit == s.limit
    decreases |events|
  {
    if events != [] {
      LimitStays(Step(s, events[0]), events[1..]);
    }
  }

  lemma {:induction false} OverrunAfterRun(s: State, events: seq<Event>)
    requires Inv(s) && Run(s, events).enabled
    ensures Overrun(Run(s, events)) <= Overrun(s) + Intrusions(s, events)
    decreases |events|
  {
    if events != [] {
      DisabledForGood(Step(s, events[0]), events[1..]);
      OverrunAfter(s, events[0]);
      StepKeeps(s, events[0]);
      OverrunAfterRun(Step(s, events[0]), events[1..]);
    }
  }

  /**
   * Over every interleaving, while concurrency control is on, no slot is lost or made up: what is left
   * of the limit, the slots held and the executions waiting add up to the limit.
   */
  lemma SlotsConservedOverRuns(limit: nat, events: seq<Event>)
    requires Run(Init(limit), events).enabled
    ensures var s := Run(Init(limit), events);
      s.queue.capacity + Held(s.calls) + |s.queue.waiting| == limit && (Held(s.calls) > limit <==> Overrun(s) > 0)
  {
    InitKeeps(limit);
    RunKeeps(Init(limit), events);
    LimitStays(Init(limit), events);
    SlotsAreConserved(Run(Init(limit), events));
  }

  /** Control is on from the start until it is disabled, whatever else happens. */
  lemma {:induction false} OnUntilDisabled(limit: nat, events: seq<Event>)
    ensures Run(Init(limit), events).enabled <==> Disable !in events
  {
    OnWhileNotDisabled(Init(limit), events);
  }

  lemma {:induction false} OnWhileNotDisabled(s: State, events: seq<Event>)
    ensures Run(s, events).enabled <==> s.enabled && Disable !in events
    decreases |events|
  {
    if events != [] {
      assert events == [events[0]] + events[1..];
      OnWhileNotDisabled(Step(s, events[0]), events[1..]);
    }
  }

  /** The webhook and trigger executions past the throttle and not cleaned up. */
  ghost function Running(calls: seq<Call>): set<nat> {
    set t | 0 <= t < |calls| && (calls[t].mode == Webhook || calls[t].mode == Trigger)
            && (calls[t].phase.Admitted? || calls[t].phase.Broken? || calls[t].phase.Registered?)
  }

  lemma {:induction false} HeldAreRunning(calls: seq<Call>)
    ensures Held(calls) == |Running(calls)|
  {
    if calls != [] {
      var n := |calls| - 1;
      HeldAreRunning(calls[..n]);
      assert forall t :: 0 <= t < n ==> calls[..n][t] == calls[t];
      assert Running(calls) == Running(calls[..n]) + if HoldsSlot(calls[n]) then {n} else {};
      assert n !in Running(calls[..n]);
    }
  }

  /**
   * Over every interleaving, while concurrency control is on, webhook and trigger executions past the throttle
   * exceed the limit by no more than the number of removals that let another execution in.
   */
  lemma LimitBoundsEveryRun(limit: nat, events: seq<Event>)
    requires Run(Init(limit), events).enabled
    ensures |Running(Run(Init(limit), events).calls)| <= limit + Intrusions(Init(limit), events)
  {
    InitKeeps(limit);
    RunKeeps(Init(limit), events);
    LimitStays(Init(limit), events);
    OverrunAfterRun(Init(limit), events);
    SlotsAreConserved(Run(Init(limit), events));
    HeldAreRunning(Run(Init(limit), events).calls);
  }

  // ---------------------------------------------------------------- who is throttled

  /** Whether a new call is let through, waits or is refused, mode by mode. */
  lemma BeginByMode(s: State, id: string, mode: Mode)
    ensures var s' := Step(s, Begin(id, mode));
            && |s'.calls| == |s.calls| + 1 && s'.calls[..|s.calls|] == s.calls
            && s'.calls[|s.calls|].id == id && s'.calls[|s.calls|].mode == mode
            && var phase := s'.calls[|s.calls|].phase;
            && (!s.enabled ==> phase == Admitted)
            && (s.enabled && mode in {Cli, ErrorMode, Integrated, Internal, Manual, Retry} ==> phase == Admitted)
            && (s.enabled && mode == Evaluation ==> phase == Refused)
            && (s.enabled && mode in {Webhook, Trigger} ==> phase == if s.queue.capacity > 0 then Admitted else Waiting)
            && (!s.enabled || mode !in {Webhook, Trigger} ==> s'.queue == s.queue)
            && (s.enabled && mode in {Webhook, Trigger} ==>
                  && s'.queue.capacity == s.queue.capacity - 1
                  && s'.queue.waiting == s.queue.waiting + if s.queue.capacity > 0 then [] else [CQ.Waiter(id, |s.calls|)])
            && s'.active == s.active && s'.enabled == s.enabled && s'.limit == s.limit
  {
  }

  /**
   * After every interleaving, while control is on, a new webhook or trigger execution waits exactly if as many
   * of them as the limit allows are past the throttle or waiting; no other execution ever waits.
   */
  lemma ThrottledExactly(limit: nat, events: seq<Event>, id: string, mode: Mode)
    requires Run(Init(limit), events).enabled
    ensures var s := Run(Init(limit), events);
            var s' := Step(s, Begin(id, mode));
            |s'.calls| == |s.calls| + 1
            && (s'.calls[|s.calls|].phase == Waiting
                <==> (mode == Webhook || mode == Trigger) && |Running(s.calls)| + |s.queue.waiting| >= limit)
  {
    var s := Run(Init(limit), events);
    SlotsConservedOverRuns(limit, events);
    HeldAreRunning(s.calls);
    BeginByMode(s, id, mode);
  }

  /** Capacity comes back with the cleanup of a webhook or trigger execution while control is on, and of no other. */
  lemma CleanupGivesBack(s: State, token: nat)
    requires Inv(s) && IsPending(s, token)
    ensures var q, q' := s.queue, Step(s, Cleanup(token)).queue;
            if s.enabled && (s.calls[token].mode == Webhook || s.calls[token].mode == Trigger)
            then q'.capacity == q.capacity + 1 && q'.waiting == (if q.waiting == [] then [] else q.waiting[1..])
            else q' == q
  {
  }

  // ---------------------------------------------------------------- no overtaking

  /** While control is on, nobody who came after a waiting call has been let through. */
  ghost predicate Fair(s: State) {
    s.enabled ==>
      forall a, b :: 0 <= a < b < |s.calls| && s.calls[a].phase.Waiting? && IsProduction(s.calls[b].mode)
                     ==> s.calls[b].phase.Waiting? || s.calls[b].phase.Dropped?
  }

  lemma ResumeIsFair(s: State, capacity: int)
    requires QueueMatches(s) && Fair(s)
    ensures Fair(Resume(s, CQ.ResolvedNext(CQ.Queue(capacity, s.queue.waiting))))
  {
    if s.queue.waiting != [] {
      var head := s.queue.waiting[0].token;
      forall a | 0 <= a < |s.calls| && s.calls[a].phase.Waiting? ensures a >= head {
        assert Queued(s.queue.waiting, a);
      }
    }
  }

  lemma BeginIsFair(s: State, id: string, mode: Mode)
    requires Inv(s) && Fair(s)
    ensures Fair(BeginStep(s, id, mode))
  {
    forall a | 0 <= a < |s.calls| && s.calls[a].phase.Waiting? ensures s.queue.waiting != [] {
      assert Queued(s.queue.waiting, a);
    }
  }

  lemma CleanupIsFair(s: State, token: nat)
    requires Inv(s) && Fair(s)
    ensures Fair(CleanupStep(s, token))
  {
    if token < |s.calls| && s.calls[token].phase.Registered? && s.calls[token].phase.settled.Some? {
      var phase := Cleaned(s.calls[token].phase.settled.value);
      var cleaned := s.(calls := SetPhase(s.calls, token, phase), active := s.active - {s.calls[token].id});
      SettingPhaseKeepsQueue(s, token, phase);
      assert Fair(cleaned);
      ResumeIsFair(cleaned, s.queue.capacity + 1);
    }
  }

  lemma RemoveQueuedIsFair(s: State, id: string, mode: Mode)
    requires Inv(s) && Fair(s)
    ensures Fair(RemoveQueuedStep(s, id, mode))
  {
    if TakesOut(s, id, mode) {
      var taken := TakenOut(s, CQ.IndexOf(s.queue.waiting, id));
      TakenOutKeeps(s, CQ.IndexOf(s.queue.waiting, id));
      ResumeIsFair(taken, taken.queue.capacity);
      RemoveQueuedShape(s, id, mode);
    }
  }

  lemma StepIsFair(s: State, e: Event)
    requires Inv(s) && Fair(s)
    ensures Fair(Step(s, e))
  {
    match e
    case Begin(id, mode) => BeginIsFair(s, id, mode);
    case Cleanup(token) => CleanupIsFair(s, token);
    case RemoveQueued(id, mode) => RemoveQueuedIsFair(s, id, mode);
    case Register(token) => assert Fair(RegisterStep(s, token));
    case RepositoryFails(token) => assert Fair(RepositoryFailsStep(s, token));
    case Stop(id) => assert Fair(SettleStep(s, id, Cancelled));
    case Finalize(id) => assert Fair(SettleStep(s, id, Finished));
    case Disable =>
  }

  /** First come, first served, over every run. */
  lemma {:induction false} RunIsFair(s: State, events: seq<Event>)
    requires Inv(s) && Fair(s)
    ensures Fair(Run(s, events))
    decreases |events|
  {
    if events != [] {
      StepKeeps(s, events[0]);
      StepIsFair(s, events[0]);
      RunIsFair(Step(s, events[0]), events[1..]);
    }
  }

  // ---------------------------------------------------------------- settling once, cleaning up once

  /** The only ways a call moves on in one step. */
  predicate Advances(p: Phase, p': Phase) {
    || p == p'
    || (p.Waiting? && (p'.Admitted? || p'.Dropped?))
    || (p.Admitted? && (p' == Registered(None) || p'.Broken?))
    || (p == Registered(None) && p'.Registered? && p'.settled.Some?)
    || (p.Registered? && p.settled.Some? && p' == Cleaned(p.settled.value))
  }

  lemma CleanupAdvances(s: State, cleaned: nat, token: nat)
    requires Inv(s) && token < |s.calls|
    ensures var s' := CleanupStep(s, cleaned);
      |s'.calls| == |s.calls| && s'.calls[token].id == s.calls[token].id && Advances(s.calls[token].phase, s'.calls[token].phase)
  {
    if s.queue.waiting != [] {
      assert InPhase(s, s.queue.waiting[0].token, Waiting);
    }
  }

  lemma RemoveQueuedAdvances(s: State, id: string, mode: Mode, token: nat)
    requires Inv(s) && token < |s.calls|
    ensures var s' := RemoveQueuedStep(s, id, mode);
      |s'.calls| == |s.calls| && s'.calls[token].id == s.calls[token].id && Advances(s.calls[token].phase, s'.calls[token].phase)
  {
    if TakesOut(s, id, mode) {
      var i := CQ.IndexOf(s.queue.waiting, id);
      TakenOutKeeps(s, i);
      RemoveQueuedShape(s, id, mode);
      var taken := TakenOut(s, i);
      if taken.queue.waiting != [] {
        assert InPhase(taken, taken.queue.waiting[0].token, Waiting);
        OrderedWithout(s.queue.waiting, i);
      }
      assert InPhase(s, s.queue.waiting[i].token, Waiting);
    }
  }

  lemma StepAdvances(s: State, e: Event, token: nat)
    requires Inv(s) && token < |s.calls|
    ensures token < |Step(s, e).calls|
    ensures Step(s, e).calls[token].id == s.calls[token].id
    ensures Advances(s.calls[token].phase, Step(s, e).calls[token].phase)
  {
    if e.RemoveQueued? {
      RemoveQueuedAdvances(s, e.id, e.mode, token);
    } else if e.Cleanup? {
      CleanupAdvances(s, e.token, token);
    }
  }

  /** The first settlement wins: a settled call keeps its outcome through every later event, and ends cleaned up with it. */
  lemma {:induction false} FirstSettlementWins(s: State, events: seq<Event>, token: nat, o: Settlement)
    requires Inv(s) && token < |s.calls|
    requires s.calls[token].phase in {Registered(Some(o)), Cleaned(o)}
    ensures token < |Run(s, events).calls|
    ensures Run(s, events).calls[token].phase in {Registered(Some(o)), Cleaned(o)}
    decreases |events|
  {
    if events != [] {
      StepAdvances(s, events[0], token);
      StepKeeps(s, events[0]);
      FirstSettlementWins(Step(s, events[0]), events[1..], token, o);
    }
  }

  /** A registered call that is stopped before anything else settles it ends cancelled, and one that is finalized ends finished. */
  lemma FirstSettlementTells(s: State, id: string, events: seq<Event>)
    requires Inv(s) && id in s.active && InPhase(s, s.active[id], Registered(None))
    ensures var stopped := Run(Step(s, Stop(id)), events);
            s.active[id] < |stopped.calls| && stopped.calls[s.active[id]].phase in {Registered(Some(Cancelled)), Cleaned(Cancelled)}
    ensures var finalized := Run(Step(s, Finalize(id)), events);
            s.active[id] < |finalized.calls| && finalized.calls[s.active[id]].phase in {Registered(Some(Finished)), Cleaned(Finished)}
  {
    StepKeeps(s, Stop(id));
    StepKeeps(s, Finalize(id));
    FirstSettlementWins(Step(s, Stop(id)), events, s.active[id], Cancelled);
    FirstSettlementWins(Step(s, Finalize(id)), events, s.active[id], Finished);
  }

  /** Settling touches nothing but a registered call that has not settled. */
  lemma SettlingTouchesOne(s: State, id: string, e: Event)
    requires e == Stop(id) || e == Finalize(id)
    ensures var s' := Step(s, e);
            && s' == s.(calls := s'.calls) && |s'.calls| == |s.calls|
            && forall t :: 0 <= t < |s.calls| && s'.calls[t] != s.calls[t] ==> id in s.active && s.active[id] == t && InPhase(s, t, Registered(None))
  {
  }

  function CleanedUp(s: State, token: nat): nat {
    if token < |s.calls| && s.calls[token].phase.Cleaned? then 1 else 0
  }

  predicate Performs(s: State, e: Event, token: nat) {
    token < |s.calls| && s.calls[token].phase.Registered? && CleanedUp(Step(s, e), token) == 1
  }

  lemma CleanedUpAfter(s: State, e: Event, token: nat)
    requires Inv(s)
    ensures CleanedUp(Step(s, e), token) == CleanedUp(s, token) + if Performs(s, e, token) then 1 else 0
  {
    if token < |s.calls| {
      StepAdvances(s, e, token);
    } else {
      NewCallIsLast(s, e);
    }
  }

  /** Only the beginning of an add makes a call. */
  lemma NewCallIsLast(s: State, e: Event)
    ensures |Step(s, e).calls| == |s.calls| + if e.Begin? then 1 else 0
    ensures e.Begin? ==> !Step(s, e).calls[|s.calls|].phase.Cleaned?
  {
  }

  /** How often a run performs the cleanup of a call: the release of its slot and the deletion of its entry. */
  function Cleanups(s: State, events: seq<Event>, token: nat): nat
    decreases |events|
  {
    if events == [] then 0
    else
      (if Performs(s, events[0], token) then 1 else 0) + Cleanups(Step(s, events[0]), events[1..], token)
  }

  /** No call is cleaned up twice; it is cleaned up at all exactly when the run ends with it cleaned up. */
  lemma {:induction false} CleanedUpOnce(s: State, events: seq<Event>, token: nat)
    requires Inv(s)
    ensures CleanedUp(s, token) + Cleanups(s, events, token) == CleanedUp(Run(s, events), token)
    decreases |events|
  {
    if events != [] {
      StepKeeps(s, events[0]);
      CleanedUpAfter(s, events[0], token);
      CleanedUpOnce(Step(s, events[0]), events[1..], token);
    }
  }

  // ---------------------------------------------------------------- the map

  /** The map holds exactly the registered calls. */
  ghost predicate Exact(s: State) {
    forall t :: 0 <= t < |s.calls| && s.calls[t].phase.Registered? ==>
      s.calls[t].id in s.active && s.active[s.calls[t].id] == t
  }

  /** Registering an execution under an id that is still registered. */
  predicate Collides(s: State, e: Event) {
    e.Register? && InPhase(s, e.token, Admitted) && s.calls[e.token].id in s.active
  }

  lemma NewCallsNotRegistered(s: State, e: Event, t: nat)
    requires Inv(s) && t < |Step(s, e).calls| && Step(s, e).calls[t].phase.Registered?
    ensures t < |s.calls|
    ensures s.calls[t].phase.Registered? || (e == Register(t) && InPhase(s, t, Admitted))
  {
    if t < |s.calls| {
      StepAdvances(s, e, t);
    }
    match e
    case Begin(id, mode) =>
    case Register(token) =>
    case RepositoryFails(token) =>
    case Cleanup(token) => if t < |s.calls| { CleanupAdvances(s, token, t); }
    case RemoveQueued(id, mode) => if t < |s.calls| { RemoveQueuedAdvances(s, id, mode, t); }
    case _ =>
  }

  /** One step keeps the map exact unless, and only unless, it registers over a live id. */
  lemma ExactUnlessCollision(s: State, e: Event)
    requires Inv(s) && Exact(s)
    ensures Exact(Step(s, e)) <==> !Collides(s, e)
  {
    var s' := Step(s, e);
    if Collides(s, e) {
      var id := s.calls[e.token].id;
      var t := s.active[id];
      assert s'.calls[t].phase.Registered? && s'.calls[t].id == id && s'.active[id] == e.token != t;
    } else {
      forall t | 0 <= t < |s'.calls| && s'.calls[t].phase.Registered?
        ensures s'.calls[t].id in s'.active && s'.active[s'.calls[t].id] == t
      {
        NewCallsNotRegistered(s, e, t);
        StepAdvances(s, e, t);
      }
    }
  }

  predicate NeverCollides(s: State, events: seq<Event>)
    decreases |events|
  {
    events == [] || (!Collides(s, events[0]) && NeverCollides(Step(s, events[0]), events[1..]))
  }

  /** If no id is registered while live, an id is in the map exactly from registration until its cleanup. */
  lemma {:induction false} MapIsExact(s: State, events: seq<Event>)
    requires Inv(s) && Exact(s) && NeverCollides(s, events)
    ensures Exact(Run(s, events)) && ActiveMatches(Run(s, events))
    decreases |events|
  {
    if events != [] {
      StepKeeps(s, events[0]);
      ExactUnlessCollision(s, events[0]);
      MapIsExact(Step(s, events[0]), events[1..]);
    }
  }

  /** A registered, unsettled call that the map no longer names. */
  predicate Forgotten(s: State, t: nat) {
    && InPhase(s, t, Registered(None))
    && !(s.calls[t].id in s.active && s.active[s.calls[t].id] == t)
  }

  /**
   * What a collision does. If the call registered so far is unsettled, it is forgotten at once. If it has
   * settled, its own cleanup deletes the entry of the newer call, which is forgotten then.
   */
  lemma CollisionForgets(s: State, e: Event)
    requires Inv(s) && Collides(s, e)
    ensures var id := s.calls[e.token].id; var t := s.active[id]; var s' := Step(s, e); var s'' := Step(s', Cleanup(t));
            && t < |s.calls| && t != e.token && s.calls[t].phase.Registered?
            && (s.calls[t].phase.settled.None? ==> Forgotten(s', t))
            && (s.calls[t].phase.settled.Some? ==>
                  id !in s''.active && s''.calls[t].phase == Cleaned(s.calls[t].phase.settled.value) && Forgotten(s'', e.token))
  {
    var id := s.calls[e.token].id;
    var s' := Step(s, e);
    StepKeeps(s, e);
    if s.calls[s.active[id]].phase.settled.Some? {
      CleanupAdvances(s', s.active[id], e.token);
      if s'.queue.waiting != [] {
        assert InPhase(s', s'.queue.waiting[0].token, Waiting);
      }
    }
  }

  lemma CleanupForgets(s: State, token: nat, t: nat)
    requires Inv(s) && Forgotten(s, t)
    ensures Forgotten(CleanupStep(s, token), t)
  {
    CleanupAdvances(s, token, t);
    if s.queue.waiting != [] {
      assert InPhase(s, s.queue.waiting[0].token, Waiting);
    }
  }

  lemma RegisterForgets(s: State, token: nat, t: nat)
    requires Inv(s) && Forgotten(s, t)
    ensures Forgotten(RegisterStep(s, token), t)
  {
    assert token != t || !InPhase(s, token, Admitted);
  }

  lemma SettleForgets(s: State, id: string, settlement: Settlement, t: nat)
    requires Inv(s) && Forgotten(s, t)
    ensures Forgotten(SettleStep(s, id, settlement), t)
  {
    assert SettleStep(s, id, settlement).calls[t] == s.calls[t];
  }

  lemma ForgottenAfter(s: State, e: Event, t: nat)
    requires Inv(s) && Forgotten(s, t)
    ensures Forgotten(Step(s, e), t)
  {
    match e
    case Cleanup(token) => CleanupForgets(s, token, t);
    case RemoveQueued(id, mode) => RemoveQueuedAdvances(s, id, mode, t);
    case Begin(id, mode) => assert BeginStep(s, id, mode).calls[t] == s.calls[t];
    case Register(token) => RegisterForgets(s, token, t);
    case RepositoryFails(token) => assert RepositoryFailsStep(s, token).calls[t] == s.calls[t];
    case Stop(id) => SettleForgets(s, id, Cancelled, t);
    case Finalize(id) => SettleForgets(s, id, Finished, t);
    case Disable =>
  }

  /** What a collision costs: the call it hides never settles, is never cleaned up, and keeps its slot for good. */
  lemma {:induction false} ForgottenForGood(s: State, events: seq<Event>, t: nat)
    requires Inv(s) && Forgotten(s, t)
    ensures Forgotten(Run(s, events), t)
    decreases |events|
  {
    if events != [] {
      StepKeeps(s, events[0]);
      ForgottenAfter(s, events[0], t);
      ForgottenForGood(Step(s, events[0]), events[1..], t);
    }
  }

  // ---------------------------------------------------------------- after `disable`

  /** Once control is off, no event lets a waiting call through or changes the queue. */
  lemma {:induction false} NobodyResumesAfterDisable(s: State, events: seq<Event>, t: nat)
    requires !s.enabled && t < |s.calls|
    ensures !Run(s, events).enabled && Run(s, events).queue == s.queue
    ensures t < |Run(s, events).calls|
    ensures s.calls[t].phase.Waiting? ==> Run(s, events).calls[t].phase.Waiting?
    decreases |events|
  {
    if events != [] {
      NobodyResumesAfterDisable(Step(s, events[0]), events[1..], t);
    }
  }

  // ---------------------------------------------------------------- shutting down

  /** The promise of every registered entry has settled. */
  ghost predicate AllSettled(s: State) {
    forall id :: id in s.active && s.active[id] < |s.calls| && s.calls[s.active[id]].phase.Registered?
      ==> s.calls[s.active[id]].phase.settled.Some?
  }

  lemma {:induction false} RunConcat(s: State, xs: seq<Event>, ys: seq<Event>)
    ensures Run(s, xs + ys) == Run(Run(s, xs), ys)
    decreases |xs|
  {
    if xs == [] {
      assert xs + ys == ys;
    } else {
      assert (xs + ys)[1..] == xs[1..] + ys;
      RunConcat(Step(s, xs[0]), xs[1..], ys);
    }
  }

  lemma RunOne(s: State, events: seq<Event>, e: Event)
    ensures Run(s, events + [e]) == Step(Run(s, events), e)
  {
    RunConcat(s, events, [e]);
    assert Run(Run(s, events), [e]) == Run(Step(Run(s, events), e), []);
  }

  // ---------------------------------------------------------------- emptying the queue

  function Ids(waiting: seq<CQ.Waiter>): seq<string> {
    seq(|waiting|, i requires 0 <= i < |waiting| => waiting[i].executionId)
  }

  /** Taking each of `ids` out of the queue in turn, as `ConcurrencyControlService.removeAll` does while control is on. */
  function Removals(ids: seq<string>): seq<Event> {
    seq(|ids|, i requires 0 <= i < |ids| => RemoveQueued(ids[i], Trigger))
  }

  ghost predicate DistinctIds(waiting: seq<CQ.Waiter>) {
    forall i, j :: 0 <= i < j < |waiting| ==> waiting[i].executionId != waiting[j].executionId
  }

  /** The head of the queue is taken out and the waiter behind it, if there is one, is let through. */
  function HeadRemoved(s: State): State
    requires s.queue.waiting != []
  {
    var w := s.queue.waiting;
    var calls := SetPhase(s.calls, w[0].token, Dropped);
    if |w| == 1 then s.(queue := CQ.Queue(s.queue.capacity + 1, []), calls := calls)
    else s.(queue := CQ.Queue(s.queue.capacity + 1, w[2..]), calls := SetPhase(calls, w[1].token, Admitted))
  }

  lemma RemovingHead(s: State)
    requires s.enabled && s.queue.waiting != []
    ensures Step(s, RemoveQueued(s.queue.waiting[0].executionId, Trigger)) == HeadRemoved(s)
  {
    var w := s.queue.waiting;
    assert CQ.IndexOf(w, w[0].executionId) == 0;
    RemoveQueuedShape(s, w[0].executionId, Trigger);
    assert CQ.Without(w, 0) == w[1..];
    if |w| > 1 { assert w[1..][1..] == w[2..]; }
  }

  /** The waiter that was let through is no longer found. */
  lemma RemovingNobody(s: State, id: string)
    requires s.enabled && id !in Ids(s.queue.waiting)
    ensures Step(s, RemoveQueued(id, Trigger)) == s
  {
    var w := s.queue.waiting;
    assert forall i :: 0 <= i < |w| ==> Ids(w)[i] == w[i].executionId;
  }

  lemma RemovalsStep(s: State, ids: seq<string>)
    requires ids != []
    ensures Run(s, Removals(ids)) == Run(Step(s, RemoveQueued(ids[0], Trigger)), Removals(ids[1..]))
  {
    assert Removals(ids)[1..] == Removals(ids[1..]);
  }

  lemma RemovalsOneMore(s: State, ids: seq<string>, i: nat)
    requires i < |ids|
    ensures Run(s, Removals(ids[..i + 1])) == Step(Run(s, Removals(ids[..i])), RemoveQueued(ids[i], Trigger))
  {
    assert Removals(ids[..i + 1]) == Removals(ids[..i]) + [RemoveQueued(ids[i], Trigger)];
    RunOne(s, Removals(ids[..i]), RemoveQueued(ids[i], Trigger));
  }

  lemma RemovalsOfTwo(s: State)
    requires s.enabled && DistinctIds(s.queue.waiting) && |s.queue.waiting| >= 2
    ensures Run(s, Removals(Ids(s.queue.waiting))) == Run(HeadRemoved(s), Removals(Ids(HeadRemoved(s).queue.waiting)))
  {
    var w := s.queue.waiting;
    var ids := Ids(w);
    var s1 := HeadRemoved(s);
    RemovalsStep(s, ids);
    RemovingHead(s);
    RemovalsStep(s1, ids[1..]);
    assert ids[1..][1..] == Ids(w[2..]);
    forall i | 0 <= i < |w[2..]| ensures w[2..][i].executionId != ids[1] {
      assert w[2..][i] == w[i + 2];
    }
    RemovingNobody(s1, ids[1]);
  }

  /** What emptying the queue does to the calls that were waiting. */
  ghost predicate Alternates(waiting: seq<CQ.Waiter>, calls: seq<Call>, calls': seq<Call>) {
    && |calls'| == |calls|
    && (forall i :: 0 <= i < |waiting| && waiting[i].token < |calls| ==>
          calls'[waiting[i].token] == calls[waiting[i].token].(phase := if i % 2 == 0 then Dropped else Admitted))
    && (forall t :: 0 <= t < |calls| && !Queued(waiting, t) ==> calls'[t] == calls[t])
  }

  lemma AlternatesTwo(s: State, calls': seq<Call>)
    requires Inv(s) && |s.queue.waiting| >= 2
    requires Alternates(s.queue.waiting[2..], HeadRemoved(s).calls, calls')
    ensures Alternates(s.queue.waiting, s.calls, calls')
  {
    var w, rest, calls := s.queue.waiting, s.queue.waiting[2..], HeadRemoved(s).calls;
    assert InPhase(s, w[0].token, Waiting) && InPhase(s, w[1].token, Waiting);
    forall i | 2 <= i < |w|
      ensures calls'[w[i].token] == s.calls[w[i].token].(phase := if i % 2 == 0 then Dropped else Admitted)
    {
      assert rest[i - 2] == w[i] && InPhase(s, w[i].token, Waiting);
    }
    forall k | 0 <= k < 2
      ensures !Queued(rest, w[k].token)
    {
      assert forall i :: 0 <= i < |rest| ==> rest[i] == w[i + 2];
    }
    forall t | 0 <= t < |s.calls| && !Queued(w, t)
      ensures calls'[t] == s.calls[t]
    {
      assert forall i :: 0 <= i < |rest| ==> rest[i] == w[i + 2];
      assert w[0].token != t && w[1].token != t;
    }
  }

  /**
   * Emptying the queue takes out only every second waiter: as each removal lets the next one through, the
   * waiters at even positions are dropped and those at odd positions are admitted, and each pair gives back
   * one slot.
   */
  lemma {:induction false} RemoveAllAdmitsEverySecond(s: State)
    requires Inv(s) && s.enabled && DistinctIds(s.queue.waiting)
    ensures var w := s.queue.waiting; var s' := Run(s, Removals(Ids(w)));
            && s' == s.(queue := CQ.Queue(s.queue.capacity + (|w| + 1) / 2, []), calls := s'.calls)
            && Alternates(w, s.calls, s'.calls)
    decreases |s.queue.waiting|
  {
    var w := s.queue.waiting;
    if w == [] {
      assert Removals(Ids(w)) == [];
    } else if |w| == 1 {
      RemovalsStep(s, Ids(w));
      RemovingHead(s);
      assert Ids(w)[1..] == [] && Removals([]) == [];
      assert InPhase(s, w[0].token, Waiting);
      assert Queued(w, w[0].token);
    } else {
      RemovalsOfTwo(s);
      RemovingHead(s);
      StepKeeps(s, RemoveQueued(w[0].executionId, Trigger));
      RemoveAllAdmitsEverySecond(HeadRemoved(s));
      AlternatesTwo(s, Run(s, Removals(Ids(w))).calls);
    }
  }

  lemma {:induction false} DedupDistinct(s: seq<string>)
    requires forall i, j :: 0 <= i < j < |s| ==> s[i] != s[j]
    ensures Dedup(s) == s
  {
    if s != [] {
      DedupDistinct(s[..|s| - 1]);
    }
  }

  /** The same for the ids as they are read, each once. */
  lemma EmptyingTheQueue(s: State)
    requires Inv(s) && s.enabled && DistinctIds(s.queue.waiting)
    ensures var w := s.queue.waiting; var s' := Run(s, Removals(Dedup(Ids(w))));
            && s' == s.(queue := CQ.Queue(s.queue.capacity + (|w| + 1) / 2, []), calls := s'.calls)
            && Alternates(w, s.calls, s'.calls)
  {
    DedupDistinct(Ids(s.queue.waiting));
    RemoveAllAdmitsEverySecond(s);
  }

  class ActiveExecutions {
    const limit: nat
    const productionQueue: CQ.ConcurrencyQueue
    var isEnabled: bool
    var calls: seq<Call>
    var activeExecutions: map<string, nat>

    ghost function Abs(): State
      reads this, productionQueue
    {
      State(limit, isEnabled, productionQueue.Contents(), calls, activeExecutions)
    }

    constructor (limit: nat)
      ensures Abs() == Init(limit) && Inv(Abs()) && fresh(productionQueue)
    {
      this.limit := limit;
      this.productionQueue := new CQ.ConcurrencyQueue(limit);
      isEnabled, calls, activeExecutions := true, [], map[];
      new;
      InitKeeps(limit);
    }

    predicate Has(id: string)
      reads this
    {
      id in activeExecutions
    }

    /** `add` up to its first suspension: the throttle. */
    method BeginAdd(id: string, mode: Mode) returns (token: nat)
      modifies this`calls, productionQueue
      ensures Abs() == Step(old(Abs()), Begin(id, mode))
      ensures token == |old(calls)| && InPhase(Abs(), token, calls[token].phase)
    {
      token := |calls|;
      var phase := Admitted;
      if isEnabled && !Classify(mode).Unlimited? {
        if Classify(mode).Unknown? {
          phase := Refused;
        } else {
          var throttled := productionQueue.Enqueue(CQ.Waiter(id, token));
          if throttled {
            phase := Waiting;
          }
        }
      }
      calls := calls + [Call(id, mode, phase)];
    }

    /** `add` after the repository call has succeeded. */
    method CompleteAdd(token: nat)
      requires InPhase(Abs(), token, Admitted)
      modifies this`calls, this`activeExecutions
      ensures Abs() == Step(old(Abs()), Register(token))
      ensures Has(calls[token].id)
    {
      activeExecutions := activeExecutions[calls[token].id := token];
      calls := SetPhase(calls, token, Registered(None));
    }

    method Settle(id: string, settlement: Settlement)
      modifies this`calls
      ensures Abs() == SettleStep(old(Abs()), id, settlement)
    {
      if id in activeExecutions {
        var token := activeExecutions[id];
        if token < |calls| && calls[token].phase == Registered(None) {
          calls := SetPhase(calls, token, Registered(Some(settlement)));
        }
      }
    }

    method StopExecution(id: string)
      modifies this`calls
      ensures Abs() == Step(old(Abs()), Stop(id))
    {
      Settle(id, Cancelled);
    }

    method FinalizeExecution(id: string)
      modifies this`calls
      ensures Abs() == Step(old(Abs()), Finalize(id))
    {
      Settle(id, Finished);
    }

    method Release(mode: Mode)
      modifies this`calls, productionQueue
      ensures Abs() == if isEnabled && Classify(mode).Limited? then Resume(old(Abs()), CQ.Dequeued(old(Abs().queue))) else old(Abs())
    {
      if isEnabled && Classify(mode).Limited? {
        var resumed := productionQueue.Dequeue();
        if resumed.Some? {
          calls := SetPhase(calls, resumed.value.token, Admitted);
        }
      }
    }

    /** The deferred cleanup of a call whose promise has settled; nothing for any other call. */
    method CleanUp(token: nat)
      modifies this`calls, this`activeExecutions, productionQueue
      ensures Abs() == Step(old(Abs()), Cleanup(token))
    {
      if token < |calls| && calls[token].phase.Registered? && calls[token].phase.settled.Some? {
        var call := calls[token];
        calls := SetPhase(calls, token, Cleaned(call.phase.settled.value));
        Release(call.mode);
        activeExecutions := activeExecutions - {call.id};
      }
    }

    /** `ConcurrencyControlService.remove`. */
    method Remove(id: string, mode: Mode)
      modifies this`calls, productionQueue
      ensures Abs() == Step(old(Abs()), RemoveQueued(id, mode))
    {
      if isEnabled && Classify(mode).Limited? {
        var removed, resumed := productionQueue.Remove(id);
        if removed.Some? {
          calls := SetPhase(calls, removed.value.token, Dropped);
        }
        if resumed.Some? {
          calls := SetPhase(calls, resumed.value.token, Admitted);
        }
      }
    }

    /** `ConcurrencyControlService.removeAll`: each queued id once, in queue order; nothing at all once control is off. */
    method RemoveAll() returns (ghost events: seq<Event>)
      modifies this`calls, productionQueue
      ensures events == if isEnabled then Removals(Dedup(Ids(old(productionQueue.waiting)))) else []
      ensures Abs() == Run(old(Abs()), events)
    {
      events := [];
      if isEnabled {
        var ids := Dedup(Ids(productionQueue.waiting));
        var i := 0;
        while i < |ids|
          invariant 0 <= i <= |ids|
          invariant Abs() == Run(old(Abs()), Removals(ids[..i]))
        {
          RemovalsOneMore(old(Abs()), ids, i);
          Remove(ids[i], Trigger);
          i := i + 1;
        }
        assert ids[..i] == ids;
        events := Removals(ids);
      }
    }

    /** One event of a run, carried out. */
    method Perform(e: Event)
      modifies this`calls, this`activeExecutions, this`isEnabled, productionQueue
      ensures Abs() == Step(old(Abs()), e)
    {
      match e {
        case Begin(id, mode) => var _ := BeginAdd(id, mode);
        case Register(token) =>
          if token < |calls| && calls[token].phase == Admitted {
            CompleteAdd(token);
          }
        case RepositoryFails(token) =>
          if token < |calls| && calls[token].phase == Admitted {
            calls := SetPhase(calls, token, Broken);
          }
        case Stop(id) => StopExecution(id);
        case Finalize(id) => FinalizeExecution(id);
        case Cleanup(token) => CleanUp(token);
        case RemoveQueued(id, mode) => Remove(id, mode);
        case Disable => isEnabled := false;
      }
    }

    /** What happens while `shutdown` sleeps: anything at all, and then every pending cleanup. */
    method Sleep(during: seq<Event>) returns (ghost events: seq<Event>)
      requires Inv(Abs())
      modifies this`calls, this`activeExecutions, this`isEnabled, productionQueue
      ensures Abs() == Run(old(Abs()), events) && Inv(Abs())
      ensures NothingPending(Abs())
      ensures NoRegisters(during) ==> NoRegisters(events)
    {
      events := [];
      var i := 0;
      while i < |during|
        invariant 0 <= i <= |during| && events == during[..i]
        invariant Abs() == Run(old(Abs()), events) && Inv(Abs())
      {
        RunOne(old(Abs()), events, during[i]);
        StepKeeps(Abs(), during[i]);
        Perform(during[i]);
        events := events + [during[i]];
        i := i + 1;
      }
      assert events == during;
      var cleaned := RunPendingCleanups();
      RunConcat(old(Abs()), events, cleaned);
      events := events + cleaned;
    }

    method RunPendingCleanups() returns (ghost events: seq<Event>)
      requires Inv(Abs())
      modifies this`calls, this`activeExecutions, productionQueue
      ensures Abs() == Run(old(Abs()), events) && Inv(Abs())
      ensures NothingPending(Abs()) && NoRegisters(events)
    {
      events := [];
      var token := 0;
      while token < |calls|
        invariant 0 <= token <= |calls| && NoRegisters(events)
        invariant Abs() == Run(old(Abs()), events) && Inv(Abs())
        invariant NothingPendingBelow(Abs(), token)
        decreases |old(calls)| - token
        invariant |calls| == |old(calls)|
      {
        RunOne(old(Abs()), events, Cleanup(token));
        CleanupKeeps(Abs(), token);
        CleanupLeavesNothingPending(Abs(), token);
        CleanUp(token);
        events := events + [Cleanup(token)];
        token := token + 1;
      }
    }

    /**
     * `shutdown`: `sleeps` lists what happens during each sleep, and the wait goes on until the registry is
     * empty, here at most for as many sleeps as are listed; `gap` lists what happens while it awaits `removeAll`,
     * after it has read which executions to stop. With cancellation each execution that was registered is cleaned
     * up by the first sleep, unless it has been forgotten by then; and the first sleep empties the registry if
     * no add completes in it or in the gap.
     */
    method Shutdown(cancelAll: bool, regular: bool, gap: seq<Event>, sleeps: seq<seq<Event>>) returns (drained: bool, ghost events: seq<Event>)
      requires Inv(Abs())
      modifies this, productionQueue
      ensures Abs() == Run(old(Abs()), events) && Inv(Abs())
      ensures drained <==> activeExecutions == map[]
      ensures cancelAll && sleeps != [] ==> forall id :: id in old(activeExecutions) ==>
                IsCleaned(Abs(), old(activeExecutions)[id]) || Forgotten(Abs(), old(activeExecutions)[id])
      ensures cancelAll && sleeps != [] && (regular ==> old(Exact(Abs())) && NoRegisters(gap)) ==>
                forall id :: id in old(activeExecutions) ==> IsCleaned(Abs(), old(activeExecutions)[id])
      ensures cancelAll && sleeps != [] && (regular ==> NoRegisters(gap)) && NoRegisters(sleeps[0]) ==> drained
      ensures regular ==> !isEnabled && productionQueue.Contents() == old(productionQueue.Contents())
      ensures regular ==> forall t :: 0 <= t < |old(calls)| && old(calls)[t].phase.Waiting? ==> InPhase(Abs(), t, Waiting)
    {
      events := [];
      var executionIds := activeExecutions.Keys;
      if regular {
        isEnabled := false;
        events := [Disable];
        RunOne(old(Abs()), [], Disable);
      }
      if cancelAll {
        var cancelled := CancelAll(executionIds, regular, gap);
        RunConcat(old(Abs()), events, cancelled);
        events := events + cancelled;
        StopsSettle(old(Abs()), events);
      }
      ghost var stopped := Abs();
      var waited := WaitUntilEmpty(executionIds, sleeps);
      RunConcat(old(Abs()), events, waited);
      events := events + waited;
      drained := activeExecutions == map[];
      if cancelAll && sleeps != [] && executionIds != {} {
        EndsCleaned(old(Abs()), stopped, waited);
      }
      if regular {
        AfterDisableRun(old(Abs()), events);
      }
    }

    /** The part of `shutdown` that cancels; control is off by then if executions run here. */
    method CancelAll(executionIds: set<string>, regular: bool, gap: seq<Event>) returns (ghost events: seq<Event>)
      requires Inv(Abs())
      modifies this`calls, this`activeExecutions, this`isEnabled, productionQueue
      ensures Abs() == Run(old(Abs()), events) && Inv(Abs())
      ensures SettledExcept(Abs(), activeExecutions.Keys - executionIds)
      ensures !regular ==> activeExecutions == old(activeExecutions)
      ensures (regular ==> NoRegisters(gap)) ==> NoRegisters(events)
    {
      events := [];
      if regular {
        events := RemoveAll();
        RunKeeps(old(Abs()), events);
        PerformAll(gap);
        RunConcat(old(Abs()), events, gap);
        events := events + gap;
      }
      var stops := StopAll(executionIds);
      RunConcat(old(Abs()), events, stops);
      events := events + stops;
    }

    method PerformAll(events: seq<Event>)
      requires Inv(Abs())
      modifies this`calls, this`activeExecutions, this`isEnabled, productionQueue
      ensures Abs() == Run(old(Abs()), events) && Inv(Abs())
    {
      var i := 0;
      while i < |events|
        invariant 0 <= i <= |events|
        invariant Abs() == Run(old(Abs()), events[..i]) && Inv(Abs())
      {
        RunOne(old(Abs()), events[..i], events[i]);
        assert events[..i + 1] == events[..i] + [events[i]];
        StepKeeps(Abs(), events[i]);
        Perform(events[i]);
        i := i + 1;
      }
      assert events[..i] == events;
    }

    /** The loop at the end of `shutdown`. */
    method WaitUntilEmpty(ids: set<string>, sleeps: seq<seq<Event>>) returns (ghost waited: seq<Event>)
      requires Inv(Abs())
      modifies this`calls, this`activeExecutions, this`isEnabled, productionQueue
      ensures Abs() == Run(old(Abs()), waited) && Inv(Abs())
      ensures sleeps != [] && ids != {} ==> NothingPending(Abs())
      ensures sleeps != [] && ids != {} && NoRegisters(sleeps[0]) && old(AllSettled(Abs())) ==> activeExecutions == map[]
      ensures ids == {} ==> waited == []
    {
      waited := [];
      var executionIds := ids;
      var k := 0;
      while executionIds != {} && k < |sleeps|
        invariant 0 <= k <= |sleeps|
        invariant Abs() == Run(old(Abs()), waited) && Inv(Abs())
        invariant (k == 0 ==> waited == [] && executionIds == ids) && (ids == {} ==> k == 0)
        invariant k > 0 ==> NothingPending(Abs()) && executionIds == activeExecutions.Keys
        invariant k > 0 && NoRegisters(sleeps[0]) && old(AllSettled(Abs())) ==> executionIds == {}
        decreases |sleeps| - k
      {
        var slept := Sleep(sleeps[k]);
        RunConcat(old(Abs()), waited, slept);
        if k == 0 && NoRegisters(sleeps[0]) && AllSettled(old(Abs())) {
          SettledEntriesGo(old(Abs()), slept);
        }
        waited := waited + slept;
        executionIds := activeExecutions.Keys;
        k := k + 1;
      }
    }

    /** Ids that are not in the map any more are passed over. */
    method StopAll(executionIds: set<string>) returns (ghost events: seq<Event>)
      requires Inv(Abs())
      modifies this`calls
      ensures Abs() == Run(old(Abs()), events) && Inv(Abs()) && NoRegisters(events)
      ensures activeExecutions == old(activeExecutions)
      ensures SettledExcept(Abs(), activeExecutions.Keys - executionIds)
    {
      events := [];
      var rest := executionIds;
      while rest != {}
        invariant rest <= executionIds && NoRegisters(events)
        invariant Abs() == Run(old(Abs()), events) && Inv(Abs())
        invariant activeExecutions == old(activeExecutions)
        invariant SettledExcept(Abs(), activeExecutions.Keys - executionIds + rest)
      {
        var id :| id in rest;
        RunOne(old(Abs()), events, Stop(id));
        SettlingOneLess(Abs(), id, Cancelled, activeExecutions.Keys - executionIds + rest);
        StopExecution(id);
        events := events + [Stop(id)];
        rest := rest - {id};
      }
    }
  }

  /** Registered once, and not lost from sight since. */
  predicate Known(s: State, t: nat) {
    t < |s.calls| && (s.calls[t].phase.Registered? || s.calls[t].phase.Cleaned?)
  }

  lemma {:induction false} KnownStays(s: State, events: seq<Event>, t: nat)
    requires Inv(s) && Known(s, t)
    ensures Known(Run(s, events), t) && Run(s, events).calls[t].id == s.calls[t].id
    decreases |events|
  {
    if events != [] {
      StepAdvances(s, events[0], t);
      StepKeeps(s, events[0]);
      KnownStays(Step(s, events[0]), events[1..], t);
    }
  }

  /** What stopping comes to for the executions that were in the map of `s`: settled by now, or forgotten. */
  ghost predicate Stopped(s: State, s': State) {
    forall id :: id in s.active ==> IsPending(s', s.active[id]) || IsCleaned(s', s.active[id]) || Forgotten(s', s.active[id])
  }

  lemma StopsSettle(s: State, events: seq<Event>)
    requires Inv(s) && SettledExcept(Run(s, events), Run(s, events).active.Keys - s.active.Keys)
    ensures Stopped(s, Run(s, events))
    ensures NoRegisters(events) ==> AllSettled(Run(s, events)) && Run(s, events).active.Keys <= s.active.Keys
    ensures NoRegisters(events) && Exact(s) ==> Exact(Run(s, events))
  {
    var s' := Run(s, events);
    forall id | id in s.active
      ensures IsPending(s', s.active[id]) || IsCleaned(s', s.active[id]) || Forgotten(s', s.active[id])
    {
      KnownStays(s, events, s.active[id]);
    }
    if NoRegisters(events) {
      NothingRegistered(s, events);
      if Exact(s) { ExactWithoutRegisters(s, events); }
    }
  }

  lemma {:induction false} ExactWithoutRegisters(s: State, events: seq<Event>)
    requires Inv(s) && Exact(s) && NoRegisters(events)
    ensures Exact(Run(s, events))
    decreases |events|
  {
    if events != [] {
      assert events[0] in events;
      StepKeeps(s, events[0]);
      ExactUnlessCollision(s, events[0]);
      ExactWithoutRegisters(Step(s, events[0]), events[1..]);
    }
  }

  /** Once nothing is pending, the stopped executions are cleaned up, unless they are forgotten. */
  lemma EndsCleaned(s: State, stopped: State, waited: seq<Event>)
    requires Inv(stopped) && Stopped(s, stopped) && NothingPending(Run(stopped, waited))
    ensures forall id :: id in s.active ==> IsCleaned(Run(stopped, waited), s.active[id]) || Forgotten(Run(stopped, waited), s.active[id])
    ensures (Exact(stopped) || (Inv(s) && stopped.active == s.active)) ==> forall id :: id in s.active ==> IsCleaned(Run(stopped, waited), s.active[id])
  {
    forall id | id in s.active
      ensures IsCleaned(Run(stopped, waited), s.active[id]) || Forgotten(Run(stopped, waited), s.active[id])
      ensures !Forgotten(stopped, s.active[id]) ==> IsCleaned(Run(stopped, waited), s.active[id])
    {
      var t := s.active[id];
      if Forgotten(stopped, t) {
        ForgottenForGood(stopped, waited, t);
      } else {
        var phase := stopped.calls[t].phase;
        FirstSettlementWins(stopped, waited, t, if phase.Registered? then phase.settled.value else phase.outcome);
        assert !IsPending(Run(stopped, waited), t);
      }
    }
  }

  /** Every registered entry but those of `rest` has settled. */
  ghost predicate SettledExcept(s: State, rest: set<string>) {
    forall id :: id in s.active && id !in rest && s.active[id] < |s.calls| && s.calls[s.active[id]].phase.Registered?
      ==> s.calls[s.active[id]].phase.settled.Some?
  }

  lemma SettlingOneLess(s: State, id: string, settlement: Settlement, rest: set<string>)
    requires Inv(s) && SettledExcept(s, rest)
    ensures var s' := SettleStep(s, id, settlement); Inv(s') && s'.active == s.active && SettledExcept(s', rest - {id})
  {
    SettleKeeps(s, id, settlement);
    SettledStays(s, id, settlement);
  }

  /** Settling one entry settles it and unsettles none. */
  lemma SettledStays(s: State, id: string, settlement: Settlement)
    requires Inv(s)
    ensures var s' := SettleStep(s, id, settlement);
            && s'.active == s.active
            && (id in s.active ==> s'.calls[s.active[id]].phase.settled.Some?)
            && (forall other :: other in s.active && s.calls[s.active[other]].phase.settled.Some?
                  ==> s'.calls[s.active[other]].phase.settled.Some?)
  {
  }

  predicate NoRegisters(events: seq<Event>) {
    forall e :: e in events ==> !e.Register?
  }

  predicate IsCleaned(s: State, t: nat) {
    t < |s.calls| && s.calls[t].phase.Cleaned?
  }

  predicate IsPending(s: State, t: nat) {
    t < |s.calls| && s.calls[t].phase.Registered? && s.calls[t].phase.settled.Some?
  }

  ghost predicate NothingPendingBelow(s: State, bound: nat) {
    forall t :: 0 <= t < bound ==> !IsPending(s, t)
  }

  /** No settled call is left to be cleaned up. */
  ghost predicate NothingPending(s: State) {
    NothingPendingBelow(s, |s.calls|)
  }

  lemma CleanupLeavesNothingPending(s: State, token: nat)
    requires Inv(s) && token < |s.calls| && NothingPendingBelow(s, token)
    ensures |CleanupStep(s, token).calls| == |s.calls| && NothingPendingBelow(CleanupStep(s, token), token + 1)
  {
    CleanupAdvances(s, token, token);
    forall t: nat | t < token + 1
      ensures !IsPending(CleanupStep(s, token), t)
    {
      CleanupAdvances(s, token, t);
      assert t < token ==> !IsPending(s, t);
    }
    if s.queue.waiting != [] {
      assert InPhase(s, s.queue.waiting[0].token, Waiting);
    }
  }

  /** Settled entries end cleaned up in every run after which nothing is pending. */
  lemma SettledEntriesCleaned(s: State, events: seq<Event>)
    requires Inv(s) && AllSettled(s) && NothingPending(Run(s, events))
    ensures forall id :: id in s.active ==> IsCleaned(Run(s, events), s.active[id])
  {
    forall id | id in s.active
      ensures IsCleaned(Run(s, events), s.active[id])
    {
      var t := s.active[id];
      FirstSettlementWins(s, events, t, s.calls[t].phase.settled.value);
      assert !IsPending(Run(s, events), t);
    }
  }

  /** Without registrations the map gains nothing. */
  lemma {:induction false} NothingRegistered(s: State, events: seq<Event>)
    requires Inv(s) && NoRegisters(events)
    ensures forall id :: id in Run(s, events).active ==> id in s.active && Run(s, events).active[id] == s.active[id]
    decreases |events|
  {
    if events != [] {
      assert events[0] in events;
      StepKeeps(s, events[0]);
      assert forall id :: id in Step(s, events[0]).active ==> id in s.active && Step(s, events[0]).active[id] == s.active[id];
      NothingRegistered(Step(s, events[0]), events[1..]);
    }
  }

  /** If all entries have settled, none is left once nothing is pending, unless an add completes. */
  lemma SettledEntriesGo(s: State, events: seq<Event>)
    requires Inv(s) && AllSettled(s) && NoRegisters(events) && NothingPending(Run(s, events))
    ensures Run(s, events).active == map[]
  {
    NothingRegistered(s, events);
    SettledEntriesCleaned(s, events);
    RunKeeps(s, events);
    var s' := Run(s, events);
    assert s'.active.Keys == {};
  }

  lemma AfterDisableRun(s: State, events: seq<Event>)
    requires events != [] && events[0] == Disable
    ensures !Run(s, events).enabled && Run(s, events).queue == s.queue
    ensures forall t :: 0 <= t < |s.calls| && s.calls[t].phase.Waiting? ==> InPhase(Run(s, events), t, Waiting)
  {
    var s' := Step(s, Disable);
    forall t | 0 <= t < |s.calls| && s.calls[t].phase.Waiting? ensures InPhase(Run(s, events), t, Waiting) {
      NobodyResumesAfterDisable(s', events[1..], t);
    }
    QueueFrozen(s', events[1..]);
  }

  lemma {:induction false} QueueFrozen(s: State, events: seq<Event>)
    requires !s.enabled
    ensures !Run(s, events).enabled && Run(s, events).queue == s.queue
    decreases |events|
  {
    if events != [] {
      QueueFrozen(Step(s, events[0]), events[1..]);
    }
  }
}
