/**
 * The queue of workflows whose activation is retried. Every entry records the handle of a timer; a
 * timer that fires starts a retry, and a failed retry arms the next timer after twice the delay.
 */
module ActivationQueue {
  import WR = WebhookRegistration

  /** WORKFLOW_REACTIVATE_INITIAL_TIMEOUT and WORKFLOW_REACTIVATE_MAX_TIMEOUT, in milliseconds. */
  const INITIAL_TIMEOUT: nat := 1000
  const MAX_TIMEOUT: nat := 24 * 60 * 60 * 1000

  datatype Entry = Entry(mode: WR.ActivationMode, lastTimeout: nat, handle: nat)

  /** A timer and the retry it starts. */
  datatype Timer = Timer(id: string, mode: WR.ActivationMode, delay: nat)

  /** `timers` are live; `firing` are retries whose timer has fired and whose outcome is pending. */
  datatype Queue = Queue(queued: map<string, Entry>, timers: map<nat, Timer>, firing: map<nat, Timer>, next: nat)

  function Empty(): Queue {
    Queue(map[], map[], map[], 0)
  }

  // ---------------------------------------------------------------- operations

  function Dequeued(q: Queue, id: string): Queue {
    if id in q.queued then q.(timers := q.timers - {q.queued[id].handle}, queued := q.queued - {id}) else q
  }

  function Enqueued(q: Queue, id: string, mode: WR.ActivationMode): Queue {
    var q' := Dequeued(q, id);
    Queue(q'.queued[id := Entry(mode, INITIAL_TIMEOUT, q'.next)],
          q'.timers[q'.next := Timer(id, mode, INITIAL_TIMEOUT)],
          q'.firing,
          q'.next + 1)
  }

  function AllDequeued(q: Queue): Queue {
    q.(queued := map[], timers := q.timers - set id | id in q.queued :: q.queued[id].handle)
  }

  function Fired(q: Queue, h: nat): Queue {
    if h in q.timers then q.(timers := q.timers - {h}, firing := q.firing[h := q.timers[h]]) else q
  }

  function NextTimeout(lastTimeout: nat): nat {
    if lastTimeout < MAX_TIMEOUT then (if lastTimeout * 2 < MAX_TIMEOUT then lastTimeout * 2 else MAX_TIMEOUT) else lastTimeout
  }

  /** The `catch` of a retry: it uses whatever entry the workflow has by then; without one it throws. */
  function Rearmed(q: Queue, retry: Timer): Queue {
    if retry.id in q.queued then
      var lastTimeout := NextTimeout(q.queued[retry.id].lastTimeout);
      q.(queued := q.queued[retry.id := q.queued[retry.id].(lastTimeout := lastTimeout, handle := q.next)],
         timers := q.timers[q.next := Timer(retry.id, retry.mode, lastTimeout)],
         next := q.next + 1)
    else q
  }

  function Settled(q: Queue, h: nat): Queue {
    q.(firing := q.firing - {h})
  }

  // ---------------------------------------------------------------- one timer per entry

  /** Handles are given out once. */
  ghost predicate Handles(q: Queue) {
    && (forall h :: h in q.timers ==> h < q.next)
    && (forall h :: h in q.firing ==> h < q.next && h !in q.timers)
  }

  /** Every live timer is the one its workflow's entry names. */
  ghost predicate TimersNamed(q: Queue) {
    forall h :: h in q.timers ==> q.timers[h].id in q.queued && q.queued[q.timers[h].id].handle == h
  }

  /** The entry's timer is live, with the delay the entry records. */
  predicate Live(q: Queue, id: string) {
    && id in q.queued && q.queued[id].handle in q.timers
    && q.timers[q.queued[id].handle].id == id
    && q.timers[q.queued[id].handle].delay == q.queued[id].lastTimeout
  }

  /** The entry's timer has fired and its retry is pending. */
  predicate Pending(q: Queue, id: string) {
    id in q.queued && q.queued[id].handle in q.firing && q.firing[q.queued[id].handle].id == id
  }

  /** Live timers and queue entries correspond one to one, up to retries that are pending. */
  ghost predicate Matched(q: Queue) {
    && Handles(q) && TimersNamed(q)
    && forall id :: id in q.queued ==> Live(q, id) || Pending(q, id)
  }

  lemma EmptyMatched()
    ensures Matched(Empty())
  {
  }

  lemma DequeueKeeps(q: Queue, id: string)
    requires Matched(q)
    ensures Matched(Dequeued(q, id))
    ensures forall h :: h in Dequeued(q, id).timers ==> Dequeued(q, id).timers[h].id != id
  {
  }

  lemma EnqueueKeeps(q: Queue, id: string, mode: WR.ActivationMode)
    requires Matched(q)
    ensures Matched(Enqueued(q, id, mode)) && Live(Enqueued(q, id, mode), id)
  {
    DequeueKeeps(q, id);
  }

  lemma DequeueAllKeeps(q: Queue)
    requires Matched(q)
    ensures Matched(AllDequeued(q)) && AllDequeued(q).timers == map[]
  {
    forall h | h in q.timers ensures h in set id | id in q.queued :: q.queued[id].handle {
      assert q.timers[h].id in q.queued;
    }
  }

  lemma FireKeeps(q: Queue, h: nat)
    requires Matched(q)
    ensures Matched(Fired(q, h))
  {
  }

  /** The retry under handle `h` would arm a second timer for its workflow. */
  predicate Doubles(q: Queue, h: nat) {
    h in q.firing && q.firing[h].id in q.queued && q.queued[q.firing[h].id].handle in q.timers
  }

  /** A failed retry keeps the correspondence exactly if its workflow has no live timer by then. */
  lemma FailedRetryKeepsUnlessDoubled(q: Queue, h: nat)
    requires Matched(q) && h in q.firing
    ensures Matched(Rearmed(Settled(q, h), q.firing[h])) <==> !Doubles(q, h)
  {
    var retry := q.firing[h];
    var q' := Rearmed(Settled(q, h), retry);
    if Doubles(q, h) {
      var armed := q.queued[retry.id].handle;
      assert q'.timers[armed].id == retry.id && q'.queued[retry.id].handle == q.next != armed;
    } else if retry.id in q.queued {
      assert forall k :: k in q.timers ==> q.timers[k].id != retry.id;
    }
  }

  /** Two live timers for one workflow: what a doubled retry leaves behind. */
  lemma DoubledRetryLeavesTwoTimers(q: Queue, h: nat)
    requires Matched(q) && Doubles(q, h)
    ensures var retry := q.firing[h];
            var q' := Rearmed(Settled(q, h), retry);
            exists a, b :: a in q'.timers && b in q'.timers && a != b && q'.timers[a].id == q'.timers[b].id == retry.id
  {
    var retry := q.firing[h];
    var q' := Rearmed(Settled(q, h), retry);
    var armed := q.queued[retry.id].handle;
    assert armed in q'.timers && q.next in q'.timers && q'.timers[armed].id == q'.timers[q.next].id == retry.id;
  }

  /** A retry that ends without touching the queue keeps the correspondence exactly if no entry still names its handle. */
  lemma SettlingKeepsUnlessStranded(q: Queue, h: nat)
    requires Matched(q) && h in q.firing
    ensures Matched(Settled(q, h)) <==> forall id :: id in q.queued ==> q.queued[id].handle != h
  {
    var q' := Settled(q, h);
    if id :| id in q.queued && q.queued[id].handle == h {
      assert !Live(q', id) && !Pending(q', id);
    }
  }

  /** The pending retry is the one that an entry of its own workflow names, if any entry names it. */
  lemma NamedByOwnWorkflow(q: Queue, h: nat, id: string)
    requires Matched(q) && h in q.firing && id in q.queued && q.queued[id].handle == h
    ensures q.firing[h].id == id
  {
  }

  // ---------------------------------------------------------------- what queueing and failing mean

  /** A queued workflow has one new timer, which waits the initial delay and retries in the mode it was queued in; its former timer is gone. */
  lemma EnqueuedWaits(q: Queue, id: string, mode: WR.ActivationMode)
    requires Matched(q)
    ensures var q' := Enqueued(q, id, mode);
            && q'.queued.Keys == q.queued.Keys + {id} && (forall other :: other in q.queued && other != id ==> q'.queued[other] == q.queued[other])
            && q'.queued[id].mode == mode && q'.queued[id].lastTimeout == 1000
            && q'.timers[q'.queued[id].handle] == Timer(id, mode, 1000)
            && (forall h :: h in q'.timers && q'.timers[h].id == id ==> h == q'.queued[id].handle)
            && (forall h :: h in q.timers && q.timers[h].id != id ==> h in q'.timers && q'.timers[h] == q.timers[h])
            && (forall h :: h in q'.timers && q'.timers[h].id != id ==> h in q.timers)
            && q'.firing == q.firing
  {
    DequeueKeeps(q, id);
  }

  /** Taking a workflow out takes its entry and its timer away, and nothing else. */
  lemma DequeuedIsGone(q: Queue, id: string)
    requires Matched(q)
    ensures var q' := Dequeued(q, id);
            && q'.queued.Keys == q.queued.Keys - {id} && (forall other :: other in q'.queued ==> q'.queued[other] == q.queued[other])
            && (forall h :: h in q'.timers <==> h in q.timers && q.timers[h].id != id)
            && (forall h :: h in q'.timers ==> q'.timers[h] == q.timers[h])
            && q'.firing == q.firing
  {
    DequeueKeeps(q, id);
  }

  /**
   * A retry that fails arms one timer more, for its own workflow and in its own mode, which waits twice the
   * timeout that the entry recorded, but a day at the most; the entry keeps its mode and names the new timer.
   */
  lemma RearmedWaits(q: Queue, retry: Timer)
    requires Matched(q) && retry.id in q.queued
    ensures var q' := Rearmed(q, retry); var old_, new_ := q.queued[retry.id], q'.queued[retry.id];
            && q'.queued.Keys == q.queued.Keys && (forall other :: other in q.queued && other != retry.id ==> q'.queued[other] == q.queued[other])
            && new_.mode == old_.mode && new_.handle !in q.timers
            && (old_.lastTimeout <= 43200000 ==> new_.lastTimeout == 2 * old_.lastTimeout)
            && (43200000 < old_.lastTimeout <= 86400000 ==> new_.lastTimeout == 86400000)
            && q'.timers == q.timers[new_.handle := Timer(retry.id, retry.mode, new_.lastTimeout)]
            && q'.firing == q.firing
  {
  }

  /** A live timer retries in the mode that the entry records. */
  ghost predicate SameModes(q: Queue) {
    forall id :: id in q.queued && q.queued[id].handle in q.timers ==> q.timers[q.queued[id].handle].mode == q.queued[id].mode
  }

  lemma DequeueKeepsModes(q: Queue, id: string)
    requires Matched(q) && SameModes(q)
    ensures Matched(Dequeued(q, id)) && SameModes(Dequeued(q, id))
  {
  }

  lemma EnqueueKeepsModes(q: Queue, id: string, mode: WR.ActivationMode)
    requires Matched(q) && SameModes(q)
    ensures SameModes(Enqueued(q, id, mode))
  {
  }

  // ---------------------------------------------------------------- backoff

  function Pow2(n: nat): nat {
    if n == 0 then 1 else 2 * Pow2(n - 1)
  }

  /** The timeout after `n` failures in a row. */
  function Timeout(n: nat): nat {
    if n == 0 then INITIAL_TIMEOUT else NextTimeout(Timeout(n - 1))
  }

  lemma {:induction false} TimeoutIsCappedDoubling(n: nat)
    ensures Timeout(n) == if INITIAL_TIMEOUT * Pow2(n) < MAX_TIMEOUT then INITIAL_TIMEOUT * Pow2(n) else MAX_TIMEOUT
  {
    if n > 0 {
      TimeoutIsCappedDoubling(n - 1);
    }
  }

  lemma {:induction false} TimeoutIsMonotone(n: nat, m: nat)
    requires n <= m
    ensures Timeout(n) <= Timeout(m) <= MAX_TIMEOUT
    decreases m - n
  {
    TimeoutIsCappedDoubling(m);
    TimeoutIsCappedDoubling(n);
    if n < m {
      TimeoutIsMonotone(n, m - 1);
      TimeoutIsCappedDoubling(m - 1);
    }
  }

  lemma Pow2Add(n: nat, m: nat)
    ensures Pow2(n + m) == Pow2(n) * Pow2(m)
  {
    if m > 0 {
      Pow2Add(n, m - 1);
      assert Pow2(n + m) == 2 * (Pow2(n) * Pow2(m - 1)) == Pow2(n) * (2 * Pow2(m - 1));
    }
  }

  /** The timeout still grows at sixteen failures and is the cap from seventeen on. */
  lemma CapReachedAtSeventeen(n: nat)
    ensures Timeout(n) == MAX_TIMEOUT <==> n >= 17
  {
    assert Pow2(4) == 16;
    Pow2Add(4, 4);
    Pow2Add(8, 8);
    assert Pow2(16) == 65536 && Pow2(17) == 131072;
    TimeoutIsCappedDoubling(16);
    TimeoutIsCappedDoubling(17);
    if n >= 17 {
      TimeoutIsMonotone(17, n);
    } else {
      TimeoutIsMonotone(n, 16);
    }
  }
}
