/**
 What every region of thread.c keeps true of the thread table and its queues.

 The invariant is stated once, as a conjunction of named parts, and each region
 of ThreadKernel gets one lemma saying that it keeps all of them and what else
 it leaves alone.
 */
module ThreadInvariant {
  import opened Seqs
  import opened ThreadKernel

  /** Ready threads are queued, each once, and may run; the current thread is not among them. */
  ghost predicate ReadyQueueOk(k: Kernel)
    requires Shape(k)
  {
    && NoDup(k.queues[READY_QUEUE])
    && forall t :: t in k.queues[READY_QUEUE] ==>
         ValidTid(t) && t != k.current && k.slots[t].state in {Ready, Killed}
  }

  /** Threads in wait queues sleep, and each is in one queue, once. */
  ghost predicate WaitQueuesOk(k: Kernel)
    requires Shape(k)
  {
    && (forall q :: IsWaitQueue(k, q) ==> NoDup(k.queues[q]))
    && (forall q, t :: IsWaitQueue(k, q) && t in k.queues[q] ==>
          ValidTid(t) && k.slots[t].state == Sleeping)
    && (forall q, q', t :: IsWaitQueue(k, q) && IsWaitQueue(k, q') && t in k.queues[q] && t in k.queues[q'] ==>
          q == q')
  }

  ghost predicate InSomeWaitQueue(k: Kernel, t: Tid) {
    exists q :: IsWaitQueue(k, q) && t in k.queues[q]
  }

  /** Where a thread is follows from its state: nobody is lost. */
  ghost predicate SlotOk(k: Kernel, t: Tid)
    requires Shape(k) && ValidTid(t)
  {
    match k.slots[t].state
    case Ready => t in k.queues[READY_QUEUE]
    case Killed => t == k.current || t in k.queues[READY_QUEUE]
    case Running => t == k.current
    case Sleeping => InSomeWaitQueue(k, t)
    case Exited => (t == k.current || t == k.prev) && k.queues[WaitQueueOf(t)] == []
    case Uninitialized => t != k.current && k.queues[WaitQueueOf(t)] == []
  }

  ghost predicate SlotsOk(k: Kernel)
    requires Shape(k)
  {
    && (forall t :: ValidTid(t) ==> SlotOk(k, t))
    && Cur(k).state != Ready
  }

  /** The counter is the number of threads that are queued to run or running. */
  predicate CountOk(k: Kernel)
    requires Shape(k)
  {
    k.existing == |k.queues[READY_QUEUE]| + if Alive(Cur(k).state) then 1 else 0
  }

  ghost predicate Owns(k: Kernel, t: Tid, stack: nat)
    requires |k.slots| == THREAD_MAX_THREADS
  {
    ValidTid(t) && k.slots[t].state != Uninitialized && k.slots[t].stack == stack
  }

  /** Every stack is owned by one thread or was freed once, never both, never neither. */
  ghost predicate StacksOk(k: Kernel)
    requires Shape(k)
  {
    && 0 < k.nextStack
    && NoDup(k.freed)
    && (forall s :: s in k.freed ==> 0 < s < k.nextStack)
    && (forall t, s: nat :: Owns(k, t, s) && s != 0 ==> s < k.nextStack && s !in k.freed)
    && (forall t, t', s: nat :: Owns(k, t, s) && Owns(k, t', s) && s != 0 ==> t == t')
    && (forall s: nat :: 0 < s < k.nextStack && s !in k.freed ==> exists t :: Owns(k, t, s))
  }

  ghost predicate Inv(k: Kernel) {
    && Shape(k)
    && ReadyQueueOk(k)
    && WaitQueuesOk(k)
    && SlotsOk(k)
    && CountOk(k)
    && StacksOk(k)
  }

  /** States and stacks unchanged: what all stack claims depend on. */
  ghost predicate SameStacks(k: Kernel, k': Kernel)
    requires Shape(k) && Shape(k')
  {
    && k'.nextStack == k.nextStack
    && k'.freed == k.freed
    && forall t :: ValidTid(t) ==>
         && k'.slots[t].stack == k.slots[t].stack
         && (k'.slots[t].state == Uninitialized <==> k.slots[t].state == Uninitialized)
  }

  lemma SameStacksOk(k: Kernel, k': Kernel)
    requires Shape(k) && Shape(k') && StacksOk(k) && SameStacks(k, k')
    ensures StacksOk(k')
  {
    assert forall t, s: nat :: Owns(k, t, s) <==> Owns(k', t, s);
  }

  lemma BootInv(nQueues: nat)
    ensures Inv(Boot(nQueues))
  {
  }

  // ---- wakeups -----------------------------------------------------------

  /** What a wakeup may change: sleepers of q become ready, at the end of the ready queue. */
  ghost predicate WokeFrom(k: Kernel, k': Kernel, q: int)
    requires Shape(k) && Shape(k') && IsWaitQueue(k, q)
  {
    && k' == k.(slots := k'.slots, queues := k'.queues, existing := k'.existing)
    && |k'.queues| == |k.queues|
    && SameStacks(k, k')
    && (forall i :: 0 <= i < |k.queues| && i != q && i != READY_QUEUE ==> k'.queues[i] == k.queues[i])
    && k'.queues[READY_QUEUE] + k'.queues[q] == k.queues[READY_QUEUE] + k.queues[q]
    && |k'.queues[READY_QUEUE]| >= |k.queues[READY_QUEUE]|
    && (forall t :: ValidTid(t) ==>
          k'.slots[t] == if t in k.queues[q] && t !in k'.queues[q] then k.slots[t].(state := Ready) else k.slots[t])
  }

  /** Sleepers stay in the wait queue they were in, except the ones in `moved`. */
  lemma SleepersStay(k: Kernel, k': Kernel, moved: Tid)
    requires Shape(k) && Shape(k') && |k'.queues| == |k.queues|
    requires forall t :: ValidTid(t) && t != moved && k'.slots[t].state == Sleeping ==>
               SlotOk(k, t) && k.slots[t].state == Sleeping
    requires forall q, t :: IsWaitQueue(k, q) && t != moved && t in k.queues[q] ==> t in k'.queues[q]
    ensures forall t :: ValidTid(t) && t != moved && k'.slots[t].state == Sleeping ==> InSomeWaitQueue(k', t)
  {
    forall t | ValidTid(t) && t != moved && k'.slots[t].state == Sleeping ensures InSomeWaitQueue(k', t) {
      var q :| IsWaitQueue(k, q) && t in k.queues[q];
      assert t in k'.queues[q];
    }
  }

  lemma WakeOneQueues(k: Kernel, q: int)
    requires Inv(k) && IsWaitQueue(k, q) && Cur(k).state != Sleeping && k.queues[q] != []
    ensures ReadyQueueOk(WakeOne(k, q)) && WaitQueuesOk(WakeOne(k, q))
  {
    var t := k.queues[q][0];
    assert t in k.queues[q];
    TailFacts(k.queues[q]);
    AppendFacts(k.queues[READY_QUEUE], t);
  }

  lemma WakeOneSlots(k: Kernel, q: int)
    requires Inv(k) && IsWaitQueue(k, q) && Cur(k).state != Sleeping && k.queues[q] != []
    ensures SlotsOk(WakeOne(k, q))
  {
    var k' := WakeOne(k, q);
    var t := k.queues[q][0];
    assert t in k.queues[q];
    TailFacts(k.queues[q]);
    assert forall u :: ValidTid(u) ==> SlotOk(k, u);
    SleepersStay(k, k', t);
    forall u | ValidTid(u) ensures SlotOk(k', u) {
    }
  }

  lemma WakeOneEffect(k: Kernel, q: int)
    requires Inv(k) && IsWaitQueue(k, q) && Cur(k).state != Sleeping && k.queues[q] != []
    ensures WokeFrom(k, WakeOne(k, q), q) && CountOk(WakeOne(k, q))
  {
    var t := k.queues[q][0];
    assert t in k.queues[q];
    TailFacts(k.queues[q]);
    assert k.queues[q] == [t] + k.queues[q][1..];
  }

  lemma WakeOneInv(k: Kernel, q: int)
    requires Inv(k) && IsWaitQueue(k, q) && Cur(k).state != Sleeping
    ensures Inv(WakeOne(k, q)) && WokeFrom(k, WakeOne(k, q), q)
  {
    if k.queues[q] != [] {
      WakeOneQueues(k, q);
      WakeOneSlots(k, q);
      WakeOneEffect(k, q);
      SameStacksOk(k, WakeOne(k, q));
    }
  }

  lemma WokeFromTwice(k: Kernel, k1: Kernel, k2: Kernel, q: int)
    requires Shape(k) && Shape(k1) && Shape(k2) && IsWaitQueue(k, q)
    requires WokeFrom(k, k1, q) && WokeFrom(k1, k2, q)
    requires forall t :: t in k1.queues[q] ==> t in k.queues[q]
    requires forall t :: t in k2.queues[q] ==> t in k1.queues[q]
    ensures WokeFrom(k, k2, q)
  {
  }

  lemma {:induction false} WakeAllInv(k: Kernel, q: int)
    requires Inv(k) && IsWaitQueue(k, q) && Cur(k).state != Sleeping
    ensures Inv(WakeAll(k, q)) && WokeFrom(k, WakeAll(k, q), q)
    decreases |k.queues[q]|
  {
    if k.queues[q] != [] {
      var k1 := WakeOne(k, q);
      WakeOneInv(k, q);
      WakeOneTail(k, q);
      WakeAllInv(k1, q);
      WokeFromTwice(k, k1, WakeAll(k1, q), q);
    }
  }

  lemma WakeOneTail(k: Kernel, q: int)
    requires Shape(k) && IsWaitQueue(k, q) && QueueInRange(k, q) && k.queues[q] != []
    ensures WakeOne(k, q).queues[q] == k.queues[q][1..]
  {
  }

  /** First in, first out: the woken threads follow the ready ones, in the order they slept. */
  lemma WakeAllIsFifo(k: Kernel, q: int)
    requires Inv(k) && IsWaitQueue(k, q) && Cur(k).state != Sleeping
    ensures WakeAll(k, q).queues[READY_QUEUE] == k.queues[READY_QUEUE] + k.queues[q]
    ensures WakeAll(k, q).queues[q] == []
    ensures WakeAll(k, q).existing == k.existing + |k.queues[q]|
  {
    WakeAllInv(k, q);
    var r := WakeAll(k, q).queues[READY_QUEUE];
    assert r + [] == r;
  }

  // ---- thread_sleep ------------------------------------------------------

  /** The wait queue of a slot that is in use, or a queue above the thread table. */
  predicate SleepTarget(k: Kernel, q: int)
    requires Shape(k)
  {
    && IsWaitQueue(k, q)
    && (q <= THREAD_MAX_THREADS ==> k.slots[q - 1].state !in {Exited, Uninitialized})
  }

  lemma SleepOnQueues(k: Kernel, q: int)
    requires Inv(k) && SleepTarget(k, q) && Alive(Cur(k).state)
    ensures ReadyQueueOk(SleepOn(k, q)) && WaitQueuesOk(SleepOn(k, q))
  {
    assert forall i :: IsWaitQueue(k, i) ==> k.current !in k.queues[i];
    AppendFacts(k.queues[q], k.current);
  }

  lemma SleepOnSlots(k: Kernel, q: int)
    requires Inv(k) && SleepTarget(k, q) && Alive(Cur(k).state)
    ensures SlotsOk(SleepOn(k, q))
  {
    var k' := SleepOn(k, q);
    assert forall u :: ValidTid(u) ==> SlotOk(k, u);
    assert k.current in k'.queues[q];
    SleepersStay(k, k', k.current);
    forall u | ValidTid(u) ensures SlotOk(k', u) {
      assert SlotOk(k, u);
    }
  }

  lemma SleepOnInv(k: Kernel, q: int)
    requires Inv(k) && SleepTarget(k, q) && Alive(Cur(k).state)
    ensures Inv(SleepOn(k, q))
    ensures CanSleep(k) <==> SleepOn(k, q).queues[READY_QUEUE] != []
  {
    SleepOnQueues(k, q);
    SleepOnSlots(k, q);
    SameStacksOk(k, SleepOn(k, q));
  }

  // ---- the reaper --------------------------------------------------------

  ghost predicate OnlyPrevIsZombie(k: Kernel)
    requires Shape(k)
  {
    forall t :: ValidTid(t) && IsZombie(k, t) ==> t == k.prev
  }

  lemma {:induction false} ReapUpToIs(k: Kernel, n: nat)
    requires Shape(k) && OnlyPrevIsZombie(k) && n <= THREAD_MAX_THREADS
    ensures ReapUpTo(k, n) == if k.prev < n then ReapSlot(k, k.prev) else k
  {
    if n > 0 {
      ReapUpToIs(k, n - 1);
      assert IsZombie(k, n - 1) ==> n - 1 == k.prev;
    }
  }

  /** Only the previous thread can be a zombie, so the reaper frees at most one stack. */
  lemma ReapInv(k: Kernel)
    requires Inv(k)
    ensures Reap(k) == ReapSlot(k, k.prev)
    ensures Reap(k).queues == k.queues
    ensures Inv(Reap(k)) && NoZombies(Reap(k))
  {
    ZombieIsPrev(k);
    ReapUpToIs(k, THREAD_MAX_THREADS);
    if IsZombie(k, k.prev) {
      ReapSlotInv(k);
    }
  }

  lemma ReapSlotInv(k: Kernel)
    requires Inv(k) && IsZombie(k, k.prev)
    ensures ReapSlot(k, k.prev).queues == k.queues && Inv(ReapSlot(k, k.prev))
  {
    ReapStacks(k);
    ReapSlots(k);
    ReapQueues(k);
  }

  lemma ReapQueues(k: Kernel)
    requires Inv(k) && IsZombie(k, k.prev) && ReapSlot(k, k.prev).queues == k.queues
    ensures ReadyQueueOk(ReapSlot(k, k.prev)) && WaitQueuesOk(ReapSlot(k, k.prev))
  {
  }

  ghost predicate NoZombies(k: Kernel)
    requires Shape(k)
  {
    forall t :: ValidTid(t) && t != k.current ==> k.slots[t].state != Exited
  }

  lemma ZombieIsPrev(k: Kernel)
    requires Inv(k)
    ensures OnlyPrevIsZombie(k)
  {
    assert forall t :: ValidTid(t) ==> SlotOk(k, t);
  }

  lemma ReapSlots(k: Kernel)
    requires Inv(k) && IsZombie(k, k.prev)
    ensures ReapSlot(k, k.prev).queues == k.queues
    ensures SlotsOk(ReapSlot(k, k.prev))
  {
    var k' := ReapSlot(k, k.prev);
    assert SlotOk(k, k.prev);
    assert k'.queues == k.queues;
    assert forall t :: ValidTid(t) ==> SlotOk(k, t);
    SleepersStay(k, k', k.prev);
  }

  lemma ReapStacks(k: Kernel)
    requires Shape(k) && StacksOk(k) && IsZombie(k, k.prev)
    ensures StacksOk(ReapSlot(k, k.prev))
  {
    var k' := ReapSlot(k, k.prev);
    var stack := k.slots[k.prev].stack;
    assert Owns(k, k.prev, stack);
    assert forall t, s: nat :: Owns(k', t, s) <==> Owns(k, t, s) && t != k.prev;
  }

  // ---- thread_yield ------------------------------------------------------

  /** SwitchTo from a state in which the reaper found nothing to do. */
  function Handover(k: Kernel, to: Tid): Kernel
    requires Shape(k) && ValidTid(to)
  {
    var k0 := Dequeue(k, READY_QUEUE, to);
    var k2 := if Cur(k0).state == Running
              then Enqueue(SetState(k0, k0.current, Ready), READY_QUEUE, k0.current) else k0;
    var k3 := if k2.slots[to].state != Killed then SetState(k2, to, Running) else k2;
    k3.(current := to, prev := k.current)
  }

  lemma SwitchToIs(k: Kernel, to: Tid)
    requires Inv(k) && to in k.queues[READY_QUEUE]
    ensures SwitchTo(k, to) == Handover(Reap(k), to)
  {
    ReapDequeue(k, to, THREAD_MAX_THREADS);
    ReapInv(k);
  }

  /** The reaper does not look at the ready queue. */
  lemma {:induction false} ReapDequeue(k: Kernel, to: Tid, n: nat)
    requires Shape(k) && n <= THREAD_MAX_THREADS
    ensures ReapUpTo(Dequeue(k, READY_QUEUE, to), n) == Dequeue(ReapUpTo(k, n), READY_QUEUE, to)
  {
    if n > 0 {
      ReapDequeue(k, to, n - 1);
      var r := ReapUpTo(k, n - 1);
      assert Dequeue(r, READY_QUEUE, to).queues[WaitQueueOf(n - 1) := []]
          == r.queues[WaitQueueOf(n - 1) := []][READY_QUEUE := Remove(r.queues[READY_QUEUE], to)];
    }
  }

  lemma HandoverQueuesAre(k: Kernel, to: Tid)
    requires Inv(k) && to in k.queues[READY_QUEUE]
    ensures Handover(k, to).queues ==
            k.queues[READY_QUEUE := Remove(k.queues[READY_QUEUE], to)
                                    + if Cur(k).state == Running then [k.current] else []]
  {
    var rest := Remove(k.queues[READY_QUEUE], to);
    assert rest + [] == rest;
  }

  lemma HandoverQueues(k: Kernel, to: Tid)
    requires Inv(k) && to in k.queues[READY_QUEUE] && Cur(k).state != Killed
    ensures ReadyQueueOk(Handover(k, to)) && WaitQueuesOk(Handover(k, to)) && CountOk(Handover(k, to))
  {
    RemoveFacts(k.queues[READY_QUEUE], to);
    if Cur(k).state == Running {
      AppendFacts(Remove(k.queues[READY_QUEUE], to), k.current);
    }
  }

  lemma HandoverSlots(k: Kernel, to: Tid)
    requires Inv(k) && NoZombies(k) && to in k.queues[READY_QUEUE] && Cur(k).state != Killed
    ensures SlotsOk(Handover(k, to))
  {
    var k' := Handover(k, to);
    HandoverQueuesAre(k, to);
    RemoveFacts(k.queues[READY_QUEUE], to);
    assert k.slots[to].state in {Ready, Killed};
    assert forall q :: IsWaitQueue(k, q) ==> k'.queues[q] == k.queues[q];
    forall u | ValidTid(u) ensures SlotOk(k', u) {
      assert SlotOk(k, u);
      if k'.slots[u].state == Sleeping {
        var q :| IsWaitQueue(k, q) && u in k.queues[q];
        assert u in k'.queues[q];
      }
    }
  }

  lemma HandoverInv(k: Kernel, to: Tid)
    requires Inv(k) && NoZombies(k) && to in k.queues[READY_QUEUE] && Cur(k).state != Killed
    ensures Inv(Handover(k, to))
    ensures Alive(Cur(Handover(k, to)).state)
  {
    HandoverQueues(k, to);
    HandoverSlots(k, to);
    HandoverStacks(k, to);
  }

  lemma HandoverStacks(k: Kernel, to: Tid)
    requires Inv(k) && to in k.queues[READY_QUEUE]
    ensures StacksOk(Handover(k, to))
    ensures Handover(k, to).slots[to].state == if k.slots[to].state == Killed then Killed else Running
  {
    SameStacksOk(k, Handover(k, to));
  }

  lemma SwitchToInv(k: Kernel, to: Tid)
    requires Inv(k) && to in k.queues[READY_QUEUE] && Cur(k).state != Killed
    ensures Inv(SwitchTo(k, to))
    ensures Alive(Cur(SwitchTo(k, to)).state)
  {
    ReapInv(k);
    SwitchToIs(k, to);
    HandoverInv(Reap(k), to);
  }

  lemma SwitchToQueues(k: Kernel, to: Tid)
    requires Inv(k) && to in k.queues[READY_QUEUE] && Cur(k).state != Killed
    ensures SwitchTo(k, to).queues ==
            k.queues[READY_QUEUE := Remove(k.queues[READY_QUEUE], to)
                                    + if Cur(k).state == Running then [k.current] else []]
  {
    ReapInv(k);
    SwitchToIs(k, to);
    HandoverQueuesAre(Reap(k), to);
  }

  /** The slots a switch touches: the zombie it reaps, the thread it leaves, the one it enters. */
  lemma SwitchToSlots(k: Kernel, to: Tid)
    requires Inv(k) && to in k.queues[READY_QUEUE] && Cur(k).state != Killed
    ensures SwitchTo(k, to).current == to && SwitchTo(k, to).prev == k.current
    ensures forall t :: ValidTid(t) ==>
              SwitchTo(k, to).slots[t] == k.slots[t].(state :=
                if t == to then (if k.slots[t].state == Killed then Killed else Running)
                else if t == k.current then (if k.slots[t].state == Running then Ready else k.slots[t].state)
                else if k.slots[t].state == Exited then Uninitialized else k.slots[t].state)
  {
    ReapInv(k);
    ZombieIsPrev(k);
    SwitchToIs(k, to);
  }

  // ---- thread_exit -------------------------------------------------------

  lemma RetireInv(k: Kernel, code: int)
    requires Inv(k) && Alive(Cur(k).state) && k.queues[WaitQueueOf(k.current)] == []
    ensures Inv(Retire(k, code))
  {
    RetireSlots(k, code);
    SameStacksOk(k, Retire(k, code));
  }

  lemma RetireSlots(k: Kernel, code: int)
    requires Inv(k) && Alive(Cur(k).state) && k.queues[WaitQueueOf(k.current)] == []
    ensures SlotsOk(Retire(k, code))
  {
    assert forall t :: ValidTid(t) ==> SlotOk(k, t);
    SleepersStay(k, Retire(k, code), k.current);
  }

  /** The second wakeup of thread_exit finds nobody. */
  lemma ExitIs(k: Kernel, code: int)
    requires Shape(k) && QueueInRange(k, WaitQueueOf(k.current))
    ensures Exit(k, code) == Retire(WakeAll(k, WaitQueueOf(k.current)), code)
  {
  }

  /** A live thread counts itself, so the last-thread branch of thread_exit is never taken. */
  lemma ExitInv(k: Kernel, code: int)
    requires Inv(k) && Alive(Cur(k).state)
    ensures !IsLastThread(k)
    ensures Inv(Exit(k, code))
  {
    WakeAllInv(k, WaitQueueOf(k.current));
    ExitIs(k, code);
    RetireInv(WakeAll(k, WaitQueueOf(k.current)), code);
  }

  // ---- thread_kill -------------------------------------------------------

  lemma KillAwakeSlots(k: Kernel, tid: Tid)
    requires Inv(k) && ValidTid(tid) && tid != k.current
    requires k.slots[tid].state in {Ready, Killed}
    ensures SlotsOk(Kill(k, tid).k)
  {
    var k' := Kill(k, tid).k;
    assert k'.queues == k.queues;
    assert forall t :: ValidTid(t) ==> SlotOk(k, t);
    SleepersStay(k, k', tid);
    forall t | ValidTid(t) ensures SlotOk(k', t) {
    }
  }

  lemma KillAwakeQueues(k: Kernel, tid: Tid)
    requires Inv(k) && ValidTid(tid) && tid != k.current
    requires k.slots[tid].state in {Ready, Killed}
    ensures ReadyQueueOk(Kill(k, tid).k) && WaitQueuesOk(Kill(k, tid).k)
  {
  }

  lemma KillAwakeInv(k: Kernel, tid: Tid)
    requires Inv(k) && ValidTid(tid) && tid != k.current
    requires k.slots[tid].state in {Ready, Killed}
    ensures Kill(k, tid).KillDone? && Inv(Kill(k, tid).k)
  {
    KillAwakeQueues(k, tid);
    KillAwakeSlots(k, tid);
    SameStacksOk(k, Kill(k, tid).k);
  }

  /** A killed sleeper leaves its wait queue for the end of the ready queue. */
  lemma KillSleeperIs(k: Kernel, tid: Tid)
    requires Inv(k) && ValidTid(tid) && tid != k.current && k.slots[tid].state == Sleeping
    requires ValidTid(k.slots[tid].waitingOn) && tid in k.queues[WaitQueueOf(k.slots[tid].waitingOn)]
    ensures var q := WaitQueueOf(k.slots[tid].waitingOn);
            Kill(k, tid) == KillDone(k.(
              slots := k.slots[tid := k.slots[tid].(state := Killed, exitCode := 9)],
              queues := k.queues[q := Remove(k.queues[q], tid)][READY_QUEUE := k.queues[READY_QUEUE] + [tid]],
              existing := k.existing + 1))
  {
  }

  lemma KillSleeperReady(k: Kernel, tid: Tid)
    requires Inv(k) && ValidTid(tid) && tid != k.current && k.slots[tid].state == Sleeping
    requires ValidTid(k.slots[tid].waitingOn) && tid in k.queues[WaitQueueOf(k.slots[tid].waitingOn)]
    ensures ReadyQueueOk(Kill(k, tid).k)
  {
    KillSleeperIs(k, tid);
    AppendFacts(k.queues[READY_QUEUE], tid);
  }

  lemma KillSleeperWaiting(k: Kernel, tid: Tid)
    requires Inv(k) && ValidTid(tid) && tid != k.current && k.slots[tid].state == Sleeping
    requires ValidTid(k.slots[tid].waitingOn) && tid in k.queues[WaitQueueOf(k.slots[tid].waitingOn)]
    ensures WaitQueuesOk(Kill(k, tid).k)
  {
    KillSleeperIs(k, tid);
    RemoveFacts(k.queues[WaitQueueOf(k.slots[tid].waitingOn)], tid);
  }

  lemma KillSleeperSlots(k: Kernel, tid: Tid)
    requires Inv(k) && ValidTid(tid) && tid != k.current && k.slots[tid].state == Sleeping
    requires ValidTid(k.slots[tid].waitingOn) && tid in k.queues[WaitQueueOf(k.slots[tid].waitingOn)]
    ensures SlotsOk(Kill(k, tid).k)
  {
    KillSleeperIs(k, tid);
    var k' := Kill(k, tid).k;
    RemoveFacts(k.queues[WaitQueueOf(k.slots[tid].waitingOn)], tid);
    assert forall t :: ValidTid(t) ==> SlotOk(k, t);
    SleepersStay(k, k', tid);
    forall t | ValidTid(t) ensures SlotOk(k', t) {
    }
  }

  lemma KillSleeperInv(k: Kernel, tid: Tid)
    requires Inv(k) && ValidTid(tid) && tid != k.current && k.slots[tid].state == Sleeping
    requires ValidTid(k.slots[tid].waitingOn) && tid in k.queues[WaitQueueOf(k.slots[tid].waitingOn)]
    ensures Kill(k, tid).KillDone? && Inv(Kill(k, tid).k)
  {
    KillSleeperIs(k, tid);
    KillSleeperReady(k, tid);
    KillSleeperWaiting(k, tid);
    KillSleeperSlots(k, tid);
    SameStacksOk(k, Kill(k, tid).k);
  }

  /**
   thread_kill keeps the invariant exactly when its target has not exited: a
   killed zombie is in no queue and no later reaper or thread_create frees it.
   */
  lemma KillKeepsInvIff(k: Kernel, tid: Tid)
    requires Inv(k) && Alive(Cur(k).state) && Kill(k, tid).KillDone?
    ensures Inv(Kill(k, tid).k) <==> k.slots[tid].state != Exited
  {
    assert SlotOk(k, tid);
    if k.slots[tid].state == Sleeping {
      KillSleeperInv(k, tid);
    } else if k.slots[tid].state != Exited {
      KillAwakeInv(k, tid);
    } else {
      var k' := Kill(k, tid).k;
      assert k'.slots[tid].state == Killed && tid !in k'.queues[READY_QUEUE];
      assert !SlotOk(k', tid);
    }
  }

  // ---- thread_create -----------------------------------------------------

  lemma SetUpQueues(k: Kernel, i: Tid)
    requires Inv(k) && Alive(Cur(k).state) && ValidTid(i) && k.slots[i].state in {Uninitialized, Exited}
    ensures var k' := SetUp(Reclaim(k, i), i);
            && k'.queues == k.queues[READY_QUEUE := k.queues[READY_QUEUE] + [i]]
            && ReadyQueueOk(k') && WaitQueuesOk(k') && CountOk(k')
  {
    assert SlotOk(k, i);
    var k' := SetUp(Reclaim(k, i), i);
    assert k.queues[WaitQueueOf(i) := []] == k.queues;
    AppendFacts(k.queues[READY_QUEUE], i);
  }

  lemma SetUpSlots(k: Kernel, i: Tid)
    requires Inv(k) && Alive(Cur(k).state) && ValidTid(i) && k.slots[i].state in {Uninitialized, Exited}
    ensures SlotsOk(SetUp(Reclaim(k, i), i))
  {
    SetUpQueues(k, i);
    var k' := SetUp(Reclaim(k, i), i);
    assert forall t :: ValidTid(t) ==> SlotOk(k, t);
    SleepersStay(k, k', i);
  }

  lemma SetUpStacks(k: Kernel, i: Tid)
    requires Shape(k) && StacksOk(k) && ValidTid(i)
    requires k.slots[i].state in {Uninitialized, Exited}
    ensures StacksOk(SetUp(Reclaim(k, i), i))
  {
    var k' := SetUp(Reclaim(k, i), i);
    var stack := k.nextStack;
    assert forall t, s: nat :: Owns(k', t, s) <==> (t == i && s == stack) || (t != i && Owns(k, t, s));
    if k.slots[i].state == Exited {
      assert Owns(k, i, k.slots[i].stack);
    }
    assert Owns(k', i, stack);
  }

  lemma SetUpInv(k: Kernel, i: Tid)
    requires Inv(k) && Alive(Cur(k).state) && ValidTid(i) && k.slots[i].state in {Uninitialized, Exited}
    ensures Inv(SetUp(Reclaim(k, i), i))
  {
    SetUpQueues(k, i);
    SetUpSlots(k, i);
    SetUpStacks(k, i);
  }

  /**
   thread_create keeps the invariant exactly when it gets its stack or does not
   need to reuse a zombie: otherwise line 246 leaves a ready slot in no queue.
   */
  lemma CreateKeepsInvIff(k: Kernel, memory: bool)
    requires Inv(k) && Alive(Cur(k).state)
    ensures Inv(Create(k, memory).0) <==> CreateIsSound(k, memory)
  {
    var i := FirstFree(k.slots, 0);
    if k.existing < THREAD_MAX_THREADS && i < THREAD_MAX_THREADS {
      if memory {
        SetUpInv(k, i);
      } else if k.slots[i].state == Uninitialized {
        FieldsInv(k, Reclaim(k, i));
      } else {
        var k' := Create(k, memory).0;
        assert k'.slots[i].state == Ready && i !in k'.queues[READY_QUEUE];
        assert !SlotOk(k', i);
      }
    }
  }

  // ---- exit codes and waiting_on -------------------------------------------

  /** k' differs from k at most in exit codes and waiting_on fields. */
  ghost predicate SameButFields(k: Kernel, k': Kernel) {
    && k' == k.(slots := k'.slots)
    && |k'.slots| == |k.slots|
    && forall t :: 0 <= t < |k.slots| ==>
         k'.slots[t].state == k.slots[t].state && k'.slots[t].stack == k.slots[t].stack
  }

  lemma FieldsInv(k: Kernel, k': Kernel)
    requires Inv(k) && SameButFields(k, k')
    ensures Inv(k')
  {
    assert forall t :: ValidTid(t) ==> SlotOk(k, t);
    SleepersStay(k, k', -1);
    SameStacksOk(k, k');
  }
}
