/**
 What each call of the library does, seen by its caller: states, queues, the
 counter and the place where every thread goes on, for every state the machine
 can be in, whatever functions the call is made of.
 */
module ThreadCalls {
  import opened Seqs
  import opened ThreadKernel
  import opened ThreadInvariant
  import opened ThreadMachine
  import opened ThreadSafety

  /** Nothing but the states of the given threads changed in the thread table. */
  ghost predicate OnlyStatesOf(k: Kernel, k': Kernel, ts: seq<Tid>, state: ThreadState)
    requires Shape(k) && Shape(k')
  {
    forall t :: ValidTid(t) ==> k'.slots[t] == if t in ts then k.slots[t].(state := state) else k.slots[t]
  }

  predicate OtherQueuesKept(k: Kernel, k': Kernel, q: int) {
    && |k'.queues| == |k.queues|
    && forall i :: 0 <= i < |k.queues| && i != q && i != READY_QUEUE ==> k'.queues[i] == k.queues[i]
  }

  // ---- thread_init ----------------------------------------------------------------

  /** Main runs alone, with interrupts on; no slot is used, every queue is empty, every lock free. */
  lemma InitIs(nLocks: nat, nQueues: nat)
    ensures var s := Init(nLocks, nQueues);
            && Sized(s) && s.k.current == 0 && s.k.existing == 1 && s.mask && s.status == Active && s.deliveries == []
            && s.k.slots[0] == Slot(Running, 0, -1, 0, 0) && s.conts[0] == Push(User(true), Empty)
            && (forall t :: 0 < t < THREAD_MAX_THREADS ==>
                  s.k.slots[t].state == Uninitialized && s.k.slots[t].exitCode == 0)
            && |s.k.queues| == THREAD_MAX_THREADS + 1 + nLocks + nQueues
            && (forall q :: 0 <= q < |s.k.queues| ==> s.k.queues[q] == [])
            && |s.locks| == nLocks && (forall l :: 0 <= l < nLocks ==> s.locks[l] == Lock(false, -1, {}))
  {
  }

  // ---- thread_wakeup, cv_signal, cv_broadcast -------------------------------------

  /** The first n sleepers of q are ready, behind those that were, and the rest sleep on. */
  ghost predicate Woken(k: Kernel, k': Kernel, q: int, n: nat)
    requires Shape(k) && IsWaitQueue(k, q) && n <= |k.queues[q]|
  {
    && Shape(k') && OtherQueuesKept(k, k', q)
    && k'.queues[q] == k.queues[q][n..]
    && k'.queues[READY_QUEUE] == k.queues[READY_QUEUE] + k.queues[q][..n]
    && OnlyStatesOf(k, k', k.queues[q][..n], Ready)
    && k'.current == k.current && k'.existing == k.existing + n
  }

  /** One sleeper, or all of them, in the order in which they went to sleep. */
  function WokenCount(queue: seq<Tid>, all: bool): nat {
    if all || queue == [] then |queue| else 1
  }

  lemma WakeAllWakes(k: Kernel, q: int)
    requires Inv(k) && IsWaitQueue(k, q) && Cur(k).state != Sleeping
    ensures Woken(k, WakeAll(k, q), q, |k.queues[q]|)
  {
    WakeAllInv(k, q);
    WakeAllIsFifo(k, q);
    assert k.queues[q][..|k.queues[q]|] == k.queues[q];
  }

  lemma WakeOneWakes(k: Kernel, q: int)
    requires Inv(k) && IsWaitQueue(k, q) && Cur(k).state != Sleeping
    ensures Woken(k, WakeOne(k, q), q, WokenCount(k.queues[q], false))
  {
    if k.queues[q] != [] {
      var t := k.queues[q][0];
      assert t in k.queues[q];
      assert k.queues[q][..1] == [t];
    } else {
      assert k.queues[READY_QUEUE] + [] == k.queues[READY_QUEUE];
    }
  }

  lemma WakeupWakes(s: Sys, q: int, all: bool)
    requires Safe(s) && Legal(s, CallWakeup(q, all))
    ensures Woken(s.k, Next(s, CallWakeup(q, all)).k, q, WokenCount(s.k.queues[q], all))
    ensures Next(s, CallWakeup(q, all)).conts == s.conts && Next(s, CallWakeup(q, all)).mask == s.mask
  {
    TopTells(s);
    if all {
      WakeAllWakes(s.k, q);
    } else {
      WakeOneWakes(s.k, q);
    }
  }

  /** A signal wakes the first sleeper, a broadcast all of them, if the caller holds the lock. */
  lemma SignalWakes(s: Sys, q: int, l: nat, all: bool)
    requires Safe(s) && Legal(s, CallCvSignal(q, l, all))
    ensures HoldsLock(s, l) ==>
              Woken(s.k, Next(s, CallCvSignal(q, l, all)).k, q, WokenCount(s.k.queues[q], all))
    ensures !HoldsLock(s, l) ==> Next(s, CallCvSignal(q, l, all)) == s
    ensures Next(s, CallCvSignal(q, l, all)).conts == s.conts && Next(s, CallCvSignal(q, l, all)).mask == s.mask
  {
    TopTells(s);
    if all {
      WakeAllWakes(s.k, q);
    } else {
      WakeOneWakes(s.k, q);
    }
  }

  // ---- thread_sleep ------------------------------------------------------------------

  /** The caller sleeps at the end of q, noting `note`, and goes on in `resume` when it runs again. */
  predicate FallsAsleep(s: Sys, s': Sys, q: int, note: int, resume: Stack)
    requires Sized(s) && IsWaitQueue(s.k, q)
  {
    && Sized(s') && OtherQueuesKept(s.k, s'.k, q)
    && s'.k.queues[q] == s.k.queues[q] + [s.k.current]
    && s'.k.queues[READY_QUEUE] == s.k.queues[READY_QUEUE]
    && s'.k.slots == s.k.slots[s.k.current := s.k.slots[s.k.current].(state := Sleeping, waitingOn := note)]
    && s'.k.current == s.k.current && s'.k.existing == s.k.existing - 1
    && Top(s') == Push(SleepTail, resume)
  }

  lemma SleepSleeps(s: Sys, q: int)
    requires Safe(s) && Legal(s, CallSleep(q))
    ensures s.k.existing == 1 ==> Next(s, CallSleep(q)).k == s.k && Next(s, CallSleep(q)).conts == s.conts
    ensures s.k.existing != 1 ==> FallsAsleep(s, Next(s, CallSleep(q)), q, Cur(s.k).waitingOn, Top(s))
  {
    if s.k.existing == 1 {
      assert s.conts[s.k.current := Top(s)] == s.conts;
    }
  }

  // ---- thread_yield, the timer, and the yields inside other calls ---------------------

  /**
   The processor goes to the i-th of the ready threads. A running caller becomes
   the last of them; a sleeper or zombie stays what it is.
   */
  ghost predicate Dispatches(s: Sys, s': Sys, i: nat, resume: Stack)
    requires Sized(s)
  {
    var r, self := s.k.queues[READY_QUEUE], s.k.current;
    var running := s.k.slots[self].state == Running;
    && i < |r| && ValidTid(r[i]) && Sized(s')
    && s'.k.current == r[i] && s'.k.prev == self && !s'.mask
    && s'.k.queues == s.k.queues[READY_QUEUE := r[..i] + r[i + 1..] + if running then [self] else []]
    && (forall t :: ValidTid(t) ==>
          s'.k.slots[t] == s.k.slots[t].(state :=
            if t == r[i] then (if s.k.slots[t].state == Killed then Killed else Running)
            else if t == self then (if running then Ready else s.k.slots[t].state)
            else if s.k.slots[t].state == Exited then Uninitialized else s.k.slots[t].state))
    && s'.conts == s.conts[self := resume]
    && s'.k.existing == s.k.existing
  }

  lemma RemoveAt(r: seq<Tid>, i: nat)
    requires NoDup(r) && i < |r|
    ensures Remove(r, r[i]) == r[..i] + r[i + 1..]
  {
    RemoveSplits(r, r[i]);
    assert IndexOf(r, r[i]) == i;
  }

  lemma SwitchKeepsCount(k: Kernel, to: Tid)
    requires Inv(k) && to in k.queues[READY_QUEUE]
    ensures SwitchTo(k, to).existing == k.existing
  {
    SwitchToIs(k, to);
    ReapInv(k);
  }

  lemma SwitchTakes(k: Kernel, i: nat)
    requires Inv(k) && Cur(k).state != Killed && i < |k.queues[READY_QUEUE]|
    ensures var r := k.queues[READY_QUEUE];
            && ValidTid(r[i]) && r[i] in r
            && SwitchTo(k, r[i]).queues ==
               k.queues[READY_QUEUE := r[..i] + r[i + 1..] + if Cur(k).state == Running then [k.current] else []]
            && SwitchTo(k, r[i]).existing == k.existing
  {
    var r := k.queues[READY_QUEUE];
    assert r[i] in r;
    RemoveAt(r, i);
    SwitchToQueues(k, r[i]);
    SwitchKeepsCount(k, r[i]);
  }

  lemma YieldDispatches(s: Sys, want: Tid, i: nat, resume: Stack, m: bool)
    requires Safe(s) && Cur(s.k).state != Killed && i < |s.k.queues[READY_QUEUE]|
    requires YieldDecision(s.k, want) == Switches(s.k.queues[READY_QUEUE][i])
    ensures Dispatches(s, YieldFrom(s, want, resume, m), i, Push(InYield(m, s.k.queues[READY_QUEUE][i]), resume))
  {
    var to := s.k.queues[READY_QUEUE][i];
    assert to in s.k.queues[READY_QUEUE];
    SwitchTakes(s.k, i);
    SwitchToInv(s.k, to);
    InvSized(SwitchTo(s.k, to));
    SwitchToSlots(s.k, to);
  }

  /** A yield that does not switch leaves everything as it is. */
  lemma YieldReturnsAtOnce(s: Sys, want: Tid)
    requires Safe(s) && Legal(s, CallYield(want)) && Cur(s.k).state != Killed
    requires || want == THREAD_SELF || want == s.k.current
             || (want == THREAD_ANY && s.k.queues[READY_QUEUE] == [])
             || (want != THREAD_ANY && want !in s.k.queues[READY_QUEUE])
    ensures Next(s, CallYield(want)) == s
  {
    assert s.conts[s.k.current := Top(s)] == s.conts;
  }

  /** thread_yield(THREAD_ANY) runs the thread that is ready for longest. */
  lemma YieldAnyRunsHead(s: Sys)
    requires Safe(s) && Legal(s, CallYield(THREAD_ANY)) && Cur(s.k).state != Killed
    requires s.k.queues[READY_QUEUE] != []
    ensures Dispatches(s, Next(s, CallYield(THREAD_ANY)), 0,
                       Push(InYield(s.mask, s.k.queues[READY_QUEUE][0]), Top(s)))
  {
    YieldDispatches(s, THREAD_ANY, 0, Top(s), s.mask);
  }

  /** thread_yield(t) runs t if it is ready. */
  lemma YieldToRunsNamed(s: Sys, i: nat)
    requires Safe(s) && i < |s.k.queues[READY_QUEUE]| && Legal(s, CallYield(s.k.queues[READY_QUEUE][i]))
    requires Cur(s.k).state != Killed
    ensures Dispatches(s, Next(s, CallYield(s.k.queues[READY_QUEUE][i])), i,
                       Push(InYield(s.mask, s.k.queues[READY_QUEUE][i]), Top(s)))
  {
    assert s.k.queues[READY_QUEUE][i] in s.k.queues[READY_QUEUE];
    YieldDispatches(s, s.k.queues[READY_QUEUE][i], i, Top(s), s.mask);
  }

  /** The timer takes the processor for the one that is ready for longest, if there is one. */
  lemma TickRunsHead(s: Sys)
    requires Safe(s) && Legal(s, Tick) && Cur(s.k).state != Killed
    ensures s.k.queues[READY_QUEUE] == [] ==> Next(s, Tick) == s
    ensures s.k.queues[READY_QUEUE] != [] ==>
              Dispatches(s, Next(s, Tick), 0,
                         Push(InYield(false, s.k.queues[READY_QUEUE][0]), Push(Handler, Top(s))))
  {
    if s.k.queues[READY_QUEUE] != [] {
      YieldDispatches(s, THREAD_ANY, 0, Push(Handler, Top(s)), false);
    }
  }

  /** A thread that fell asleep gives the processor away, and stays where it sleeps. */
  lemma SleeperYields(s: Sys)
    requires Safe(s) && Legal(s, Go) && Top(s).top.SleepTail? && Cur(s.k).state == Sleeping
    ensures s.k.queues[READY_QUEUE] != []
    ensures Dispatches(s, Next(s, Go), 0, Push(InYield(s.mask, s.k.queues[READY_QUEUE][0]), Top(s).below))
  {
    YieldDispatches(s, THREAD_ANY, 0, Top(s).below, s.mask);
  }

  /** So does a thread that exited; the process ends when nobody else is left. */
  lemma ZombieYields(s: Sys)
    requires Safe(s) && Legal(s, Go) && Top(s).top.ExitTail?
    ensures s.k.queues[READY_QUEUE] != [] ==>
              Dispatches(s, Next(s, Go), 0,
                         Push(InYield(s.mask, s.k.queues[READY_QUEUE][0]), Push(ExitTail(true), Top(s).below)))
    ensures s.k.queues[READY_QUEUE] == [] ==>
              Next(s, Go) == if Top(s).top.second then s.(status := Finished)
                             else s.(conts := s.conts[s.k.current := Push(ExitTail(true), Top(s).below)])
  {
    if s.k.queues[READY_QUEUE] != [] {
      YieldDispatches(s, THREAD_ANY, 0, Push(ExitTail(true), Top(s).below), s.mask);
    }
  }

  /** A thread that gets the processor back frees the zombie it took over from, and goes on with its own flag. */
  lemma ResumptionReaps(s: Sys, saved: bool, ran: Tid)
    requires Safe(s) && Legal(s, Go) && Top(s).top == InYield(saved, ran)
    ensures var s', z := Next(s, Go), s.k.prev;
            && s'.mask == saved && s'.conts == s.conts[s.k.current := Top(s).below] && s'.k.queues == s.k.queues
            && s'.k.current == s.k.current && s'.k.existing == s.k.existing && |s'.k.slots| == THREAD_MAX_THREADS
            && (forall t :: ValidTid(t) ==>
                  s'.k.slots[t] == if t != s.k.current && s.k.slots[t].state == Exited
                                   then s.k.slots[t].(state := Uninitialized) else s.k.slots[t])
            && s'.k.freed == s.k.freed
               + if z != s.k.current && s.k.slots[z].state == Exited && s.k.slots[z].stack != 0
                 then [s.k.slots[z].stack] else []
  {
    ReapInv(s.k);
    ZombieIsPrev(s.k);
  }

  // ---- thread_create -----------------------------------------------------------------------

  /** thread_create takes the lowest free slot, if the limit of 1024 threads and malloc allow it. */
  lemma CreateResult(k: Kernel, memory: bool)
    requires Shape(k)
    ensures var ret := Create(k, memory).1;
            && (ret == THREAD_NOMORE <==>
                  || k.existing >= 1024
                  || forall t :: ValidTid(t) ==> k.slots[t].state != Uninitialized && k.slots[t].state != Exited)
            && (ret == THREAD_NOMEMORY <==> ret != THREAD_NOMORE && !memory)
            && (ret != THREAD_NOMORE && ret != THREAD_NOMEMORY ==>
                  && ValidTid(ret) && (k.slots[ret].state == Uninitialized || k.slots[ret].state == Exited)
                  && forall t :: 0 <= t < ret ==> k.slots[t].state != Uninitialized && k.slots[t].state != Exited)
  {
    var i := FirstFree(k.slots, 0);
    if i < THREAD_MAX_THREADS {
      assert ValidTid(i) && k.slots[i].state in {Uninitialized, Exited};
    }
  }

  lemma CreateMakes(k: Kernel, i: Tid)
    requires Inv(k) && Alive(Cur(k).state) && k.existing < THREAD_MAX_THREADS
    requires ValidTid(i) && FirstFree(k.slots, 0) == i
    ensures Create(k, true).1 == i && Inv(Create(k, true).0)
    ensures var k' := Create(k, true).0;
            && k'.queues == k.queues[READY_QUEUE := k.queues[READY_QUEUE] + [i]] && k'.queues[WaitQueueOf(i)] == []
            && k'.slots == k.slots[i := k'.slots[i]]
            && k'.slots[i].state == Ready && k'.slots[i].stack == k.nextStack
            && k'.slots[i].waitingOn == -1 && k'.slots[i].exitCode == -1
            && k'.existing == k.existing + 1 && k'.current == k.current
  {
    SetUpQueues(k, i);
    SetUpInv(k, i);
    assert SlotOk(k, i);
  }

  /** The new thread is the last of the ready ones, with a stack and a wait queue of its own and no status. */
  lemma CreateCreates(s: Sys, memory: bool)
    requires Safe(s) && Legal(s, CallCreate(memory)) && ValidTid(Create(s.k, memory).1)
    ensures var i, s' := Create(s.k, memory).1, Next(s, CallCreate(memory));
            && Sized(s')
            && s'.k.queues == s.k.queues[READY_QUEUE := s.k.queues[READY_QUEUE] + [i]]
            && s'.k.queues[WaitQueueOf(i)] == []
            && s'.k.slots == s.k.slots[i := s'.k.slots[i]]
            && s'.k.slots[i].state == Ready && s'.k.slots[i].stack == s.k.nextStack
            && s'.k.slots[i].waitingOn == -1 && s'.k.slots[i].exitCode == -1
            && s'.conts == s.conts[i := Push(Start, Empty)]
            && s'.k.existing == s.k.existing + 1 && s'.k.current == s.k.current
  {
    TopTells(s);
    CreateMakes(s.k, Create(s.k, memory).1);
    InvSized(Create(s.k, memory).0);
  }

  lemma CreateFails(s: Sys, memory: bool)
    requires Safe(s) && Legal(s, CallCreate(memory))
    ensures Create(s.k, memory).1 == THREAD_NOMORE ==> Next(s, CallCreate(memory)) == s
    ensures Create(s.k, memory).1 == THREAD_NOMEMORY ==>
              && var s' := Next(s, CallCreate(memory));
              && s' == s.(k := s.k.(slots := s'.k.slots)) && |s'.k.slots| == THREAD_MAX_THREADS
              && forall t :: ValidTid(t) ==> s'.k.slots[t].(exitCode := 0) == s.k.slots[t].(exitCode := 0)
  {
  }

  // ---- thread_kill ---------------------------------------------------------------------------

  /** thread_kill refuses exactly the numbers of no thread and its caller's. */
  lemma KillRefuses(s: Sys, t: Tid)
    requires Safe(s) && Legal(s, CallKill(t))
    requires !ValidTid(t) || t == s.k.current || s.k.slots[t].state == Uninitialized
    ensures Next(s, CallKill(t)) == s
  {
  }

  /** A ready thread is killed where it is, with status 9. */
  lemma KillDoomsReady(s: Sys, t: Tid)
    requires Safe(s) && Legal(s, CallKill(t)) && ValidTid(t) && t != s.k.current
    requires s.k.slots[t].state == Ready || s.k.slots[t].state == Killed
    ensures Next(s, CallKill(t)) ==
            s.(k := s.k.(slots := s.k.slots[t := s.k.slots[t].(state := Killed, exitCode := 9)]))
  {
  }

  lemma KillMoves(k: Kernel, t: Tid, x: Tid)
    requires Inv(k) && Alive(Cur(k).state) && ValidTid(t) && ValidTid(x) && t in k.queues[WaitQueueOf(x)]
    requires k.slots[t].waitingOn == x
    ensures t != k.current && k.slots[t].state == Sleeping && Kill(k, t).KillDone?
    ensures var k' := Kill(k, t).k;
            && Shape(k') && OtherQueuesKept(k, k', WaitQueueOf(x))
            && k'.slots == k.slots[t := k.slots[t].(state := Killed, exitCode := 9)]
            && k'.queues[READY_QUEUE] == k.queues[READY_QUEUE] + [t]
            && (forall u :: u in k'.queues[WaitQueueOf(x)] <==> u in k.queues[WaitQueueOf(x)] && u != t)
            && k'.existing == k.existing + 1
  {
    assert SlotOk(k, x);
    KillSleeperIs(k, t);
    RemoveFacts(k.queues[WaitQueueOf(x)], t);
  }

  /** A thread asleep in thread_wait whose note is right becomes the last of the ready ones. */
  lemma KillDoomsWaiter(s: Sys, t: Tid, x: Tid)
    requires Safe(s) && Legal(s, CallKill(t)) && ValidTid(t) && ValidTid(x)
    requires t in s.k.queues[WaitQueueOf(x)] && s.k.slots[t].waitingOn == x
    ensures var s' := Next(s, CallKill(t));
            && s' == s.(k := s'.k) && Shape(s'.k) && OtherQueuesKept(s.k, s'.k, WaitQueueOf(x))
            && s'.k.slots == s.k.slots[t := s.k.slots[t].(state := Killed, exitCode := 9)]
            && s'.k.queues[READY_QUEUE] == s.k.queues[READY_QUEUE] + [t]
            && (forall u :: u in s'.k.queues[WaitQueueOf(x)] <==> u in s.k.queues[WaitQueueOf(x)] && u != t)
            && s'.k.existing == s.k.existing + 1
  {
    TopTells(s);
    KillMoves(s.k, t, x);
  }

  // ---- thread_exit ------------------------------------------------------------------------------

  lemma ExitLeaves(k: Kernel, code: int)
    requires Inv(k) && Alive(Cur(k).state)
    ensures var k', t, waiters := Exit(k, code), k.current, k.queues[WaitQueueOf(k.current)];
            && Inv(k') && OtherQueuesKept(k, k', WaitQueueOf(t))
            && k'.slots[t] == k.slots[t].(state := Exited, exitCode := code)
            && (forall u :: ValidTid(u) && u != t ==>
                  k'.slots[u] == if u in waiters then k.slots[u].(state := Ready) else k.slots[u])
            && k'.queues[WaitQueueOf(t)] == []
            && k'.queues[READY_QUEUE] == k.queues[READY_QUEUE] + waiters
            && k'.existing == k.existing + |waiters| - 1 && k'.current == t
  {
    ExitInv(k, code);
    ExitIs(k, code);
    WakeAllWakes(k, WaitQueueOf(k.current));
    assert k.queues[WaitQueueOf(k.current)][..|k.queues[WaitQueueOf(k.current)]|] == k.queues[WaitQueueOf(k.current)];
  }

  /** thread_exit wakes all who wait for the caller, and leaves it a zombie with the status. */
  lemma ExitExits(s: Sys, code: int)
    requires Safe(s) && Legal(s, Go) && Top(s).top == ExitCall(code)
    ensures var s', t, waiters := Next(s, Go), s.k.current, s.k.queues[WaitQueueOf(s.k.current)];
            && Sized(s') && OtherQueuesKept(s.k, s'.k, WaitQueueOf(t))
            && s'.k.slots[t] == s.k.slots[t].(state := Exited, exitCode := code)
            && (forall u :: ValidTid(u) && u != t ==>
                  s'.k.slots[u] == if u in waiters then s.k.slots[u].(state := Ready) else s.k.slots[u])
            && s'.k.queues[WaitQueueOf(t)] == []
            && s'.k.queues[READY_QUEUE] == s.k.queues[READY_QUEUE] + waiters
            && s'.k.existing == s.k.existing + |waiters| - 1
            && s'.k.current == t && Top(s') == Push(ExitTail(false), Top(s).below) && s'.status == Active
  {
    TopTells(s);
    ExitInv(s.k, code);
    ExitLeaves(s.k, code);
    InvSized(Exit(s.k, code));
  }

  // ---- thread_wait ---------------------------------------------------------------------------------

  /** No such thread, the caller itself, or a slot without a status or without a place for it. */
  lemma WaitRefuses(s: Sys, x: Tid, ptr: bool)
    requires Safe(s) && Legal(s, CallWait(x, ptr))
    requires || !ValidTid(x) || x == s.k.current
             || (s.k.slots[x].state == Uninitialized && (s.k.slots[x].exitCode == -1 || !ptr))
    ensures Next(s, CallWait(x, ptr)) == s
  {
  }

  /** On a live thread the caller notes it, and sleeps in its queue if somebody else can run. */
  lemma WaitSleepsOn(s: Sys, x: Tid, ptr: bool)
    requires Safe(s) && Legal(s, CallWait(x, ptr)) && ValidTid(x) && x != s.k.current
    requires s.k.slots[x].state != Uninitialized && s.k.slots[x].state != Exited && s.k.existing != 1
    ensures FallsAsleep(s, Next(s, CallWait(x, ptr)), WaitQueueOf(x), x, Push(WaitTail(x), Top(s)))
  {
  }

  /** Alone it goes on to the test after the sleep. */
  lemma WaitAlone(s: Sys, x: Tid, ptr: bool)
    requires Safe(s) && Legal(s, CallWait(x, ptr)) && ValidTid(x) && x != s.k.current
    requires s.k.slots[x].state != Uninitialized && s.k.slots[x].state != Exited && s.k.existing == 1
    ensures Next(s, CallWait(x, ptr)) ==
            s.(conts := s.conts[s.k.current := Push(WaitTail(x), Top(s))],
               k := s.k.(slots := s.k.slots[s.k.current := s.k.slots[s.k.current].(waitingOn := x)]))
  {
  }

  /** A waiter that finds no status exits with its own if it was killed, and else returns. */
  lemma WaitEndsWithout(s: Sys, x: Tid)
    requires Safe(s) && Legal(s, Go) && Top(s).top == WaitTail(x) && ValidTid(x) && s.k.slots[x].exitCode == -1
    ensures Cur(s.k).state == Killed ==>
              Next(s, Go) == s.(conts := s.conts[s.k.current := Push(ExitCall(Cur(s.k).exitCode), Top(s).below)])
    ensures Cur(s.k).state != Killed ==>
              Next(s, Go) == s.(conts := s.conts[s.k.current := Top(s).below],
                                k := s.k.(slots := s.k.slots[x := s.k.slots[x].(waitingOn := -1)]))
  {
  }

  // ---- locks -----------------------------------------------------------------------------------------

  /** One test of lock_acquire: a free lock is taken, for a held one the caller sleeps and then tests again. */
  lemma AcquireTests(s: Sys, l: nat, saved: bool)
    requires Safe(s) && Legal(s, Go) && Top(s).top == AcquireLoop(l, saved) && l < |s.locks|
    ensures !s.locks[l].held ==>
              && Next(s, Go).locks == s.locks[l := Lock(true, s.k.current, s.locks[l].inside + {s.k.current})]
              && Next(s, Go).conts == s.conts[s.k.current := Top(s).below] && Next(s, Go).mask == saved
              && Next(s, Go).k == s.k
    ensures s.locks[l].held ==> Next(s, Go).locks == s.locks
    ensures s.locks[l].held && s.k.existing != 1 ==>
              FallsAsleep(s, Next(s, Go), LockQueue(l), Cur(s.k).waitingOn, Top(s))
    ensures s.locks[l].held && s.k.existing == 1 ==> Next(s, Go) == s
  {
    AcquireSafe(s);
    if s.locks[l].held && s.k.existing == 1 {
      assert s.conts[s.k.current := Top(s)] == s.conts;
      assert !s.mask;
    }
  }

  /** lock_release frees the lock, and all who sleep on it are ready. */
  lemma ReleaseFrees(s: Sys, l: nat)
    requires Safe(s) && Legal(s, CallRelease(l))
    ensures var s' := Next(s, CallRelease(l));
            && s'.locks == s.locks[l := s'.locks[l]] && !s'.locks[l].held
            && Woken(s.k, s'.k, LockQueue(l), |s.k.queues[LockQueue(l)]|)
            && s'.conts == s.conts && s'.mask == s.mask
  {
    TopTells(s);
    WakeAllWakes(s.k, LockQueue(l));
  }

  /** cv_wait by the holder does the same, and is then about to sleep; by anybody else it does nothing. */
  lemma CvWaitReleases(s: Sys, q: int, l: nat)
    requires Safe(s) && Legal(s, CallCvWait(q, l))
    ensures var s' := Next(s, CallCvWait(q, l));
            && (HoldsLock(s, l) ==>
                  && s'.locks == s.locks[l := s'.locks[l]] && !s'.locks[l].held
                  && Woken(s.k, s'.k, LockQueue(l), |s.k.queues[LockQueue(l)]|)
                  && s'.conts == s.conts[s.k.current := Push(CvSleep(q, l), Top(s))])
            && (!HoldsLock(s, l) ==> s' == s)
  {
    TopTells(s);
    WakeAllWakes(s.k, LockQueue(l));
  }

  /** Then it sleeps in the condition's queue, and acquires the lock when it has been woken. */
  lemma CvWaitSleeps(s: Sys, q: int, l: nat)
    requires Safe(s) && Legal(s, Go) && Top(s).top == CvSleep(q, l) && UserQueue(s, q)
    ensures s.k.existing != 1 ==> FallsAsleep(s, Next(s, Go), q, Cur(s.k).waitingOn, Push(CvReacquire(l), Top(s).below))
  {
    StepSyncSafe(s);
  }
}
