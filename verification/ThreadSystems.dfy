/**
 thread.c over its own data: an array of control blocks, linked queues, and the
 interrupt flag. Each method is the code of one function between two context
 switches, and is proved to have the effect that ThreadKernel gives it.

 Queue t + 1 stands for the wq field of control block t; a NULL wq is an empty
 queue here.
 */
module ThreadSystems {
  import opened Seqs
  import opened ThreadKernel
  import opened WaitQueues

  /** How thread_kill may end the process: an access outside the table or to a missing queue, or an assertion. */
  datatype Crash = NoCrash | StrayAccess | FailedAssertion

  function CrashOf(outcome: KillOutcome): Crash {
    match outcome
    case KillStrays => StrayAccess
    case KillAsserts => FailedAssertion
    case _ => NoCrash
  }

  /** What thread_yield is for, by kind of argument, given who calls and who is ready. */
  predicate YieldAnswers(want: Tid, self: Tid, ready: seq<Tid>, outcome: YieldOutcome) {
    if want == THREAD_SELF || want == self then outcome == Returns(self)
    else if want == THREAD_ANY then
      outcome == if ready == [] then Returns(THREAD_NONE) else Switches(ready[0])
    else outcome == if want in ready then Switches(want) else Returns(THREAD_INVALID)
  }

  class ThreadSystem {
    const slots: array<Slot>
    const queues: array<WaitQueue>
    const irq: Interrupts
    var current: Tid
    var existing: int
    var nextStack: nat
    ghost var prev: Tid
    ghost var freed: seq<nat>
    ghost var contents: seq<seq<Tid>>
    ghost var Repr: set<object>

    ghost predicate Valid()
      reads this, Repr
    {
      && this in Repr && slots in Repr && queues in Repr && irq in Repr
      && slots.Length == THREAD_MAX_THREADS
      && queues.Length > THREAD_MAX_THREADS
      && |contents| == queues.Length
      && (forall i :: 0 <= i < queues.Length ==>
            && queues[i] in Repr && queues[i].Repr <= Repr && {this, slots, queues, irq} !! queues[i].Repr
            && queues[i].Valid() && queues[i].elems == contents[i])
      && (forall i, j :: 0 <= i < queues.Length && 0 <= j < queues.Length && i != j ==>
            queues[i].Repr !! queues[j].Repr)
    }

    ghost function Abs(): Kernel
      reads this, slots
    {
      Kernel(slots[..], contents, current, existing, prev, nextStack, freed)
    }

    /** thread_init, with nQueues wait queues for locks, condition variables and users. */
    constructor (nQueues: nat)
      ensures Valid() && fresh(Repr)
      ensures Abs() == Boot(nQueues)
      ensures irq.enabled
    {
      var blank := Slot(Uninitialized, 0, 0, 0, 0);
      var table := new Slot[THREAD_MAX_THREADS](i => if i == 0 then Slot(Running, 0, -1, 0, 0) else blank);
      var made, objects := MakeQueues(THREAD_MAX_THREADS + 1 + nQueues);
      var qs := new WaitQueue[|made|](i requires 0 <= i < |made| => made[i]);
      var flag := new Interrupts();
      slots, queues, irq := table, qs, flag;
      current, existing, nextStack := 0, 1, 1;
      prev, freed, contents := 0, [], Boot(nQueues).queues;
      Repr := {this, table, qs, flag} + objects;
      new;
      assert forall i :: 0 <= i < queues.Length ==> queues[i] == made[i];
    }

    static method MakeQueues(n: nat) returns (made: seq<WaitQueue>, ghost objects: set<object>)
      ensures |made| == n && fresh(objects)
      ensures forall i :: 0 <= i < n ==>
                made[i] in objects && made[i].Repr <= objects && made[i].Valid() && made[i].elems == []
      ensures forall i, j :: 0 <= i < n && 0 <= j < n && i != j ==> made[i].Repr !! made[j].Repr
    {
      made, objects := [], {};
      while |made| < n
        invariant |made| <= n && fresh(objects)
        invariant forall i :: 0 <= i < |made| ==>
                    made[i] in objects && made[i].Repr <= objects && made[i].Valid() && made[i].elems == []
        invariant forall i, j :: 0 <= i < |made| && 0 <= j < |made| && i != j ==> made[i].Repr !! made[j].Repr
      {
        var q := new WaitQueue();
        made, objects := made + [q], objects + q.Repr;
      }
    }

    // ---- single updates ----------------------------------------------------

    /** A change of one queue and of the flag does not reach the other queues. */
    twostate lemma OthersKept(q: int)
      requires old(Valid()) && 0 <= q < queues.Length
      requires unchanged(this) && unchanged(queues)
      requires forall o :: o in old(Repr) && o !in old(queues[q].Repr) && o != irq ==> unchanged(o)
      ensures forall i :: 0 <= i < queues.Length && i != q ==>
                queues[i].Valid() && queues[i].elems == contents[i] && queues[i].Repr == old(queues[i].Repr)
    {
      forall i | 0 <= i < queues.Length && i != q
        ensures queues[i].Valid() && queues[i].elems == contents[i] && queues[i].Repr == old(queues[i].Repr)
      {
        assert old(queues[i].Repr) !! old(queues[q].Repr);
      }
    }

    method EnqueueAt(q: int, t: Tid)
      requires Valid() && 0 <= q < queues.Length
      modifies Repr
      ensures Valid() && fresh(Repr - old(Repr))
      ensures Abs() == Enqueue(old(Abs()), q, t)
      ensures irq.enabled == old(irq.enabled)
    {
      var wq := queues[q];
      wq.Enqueue(t, irq);
      forall i | 0 <= i < queues.Length && i != q
        ensures queues[i].Valid() && queues[i].elems == contents[i] && queues[i].Repr == old(queues[i].Repr)
      {
        assert old(queues[i].Repr) !! old(wq.Repr);
      }
      Repr := Repr + wq.Repr;
      contents := contents[q := wq.elems];
    }

    method DequeueAt(q: int, t: Tid) returns (found: Tid)
      requires Valid() && 0 <= q < queues.Length && !irq.enabled
      modifies Repr
      ensures Valid() && Repr == old(Repr)
      ensures Abs() == Dequeue(old(Abs()), q, t)
      ensures found == if t in old(Abs()).queues[q] then t else THREAD_INVALID
      ensures !irq.enabled
    {
      var wq := queues[q];
      found := wq.DequeueElement(t, irq);
      OthersKept(q);
      contents := contents[q := wq.elems];
    }

    method DequeueHeadAt(q: int) returns (t: Tid)
      requires Valid() && 0 <= q < queues.Length && !irq.enabled
      modifies Repr
      ensures Valid() && Repr == old(Repr)
      ensures old(Abs()).queues[q] == [] ==> t == THREAD_NONE && Abs() == old(Abs())
      ensures old(Abs()).queues[q] != [] ==>
                t == old(Abs()).queues[q][0] && Abs() == Dequeue(old(Abs()), q, t)
      ensures !irq.enabled
    {
      var wq := queues[q];
      t := wq.DequeueHead(irq);
      OthersKept(q);
      contents := contents[q := wq.elems];
    }

    /** wait_queue_create for queue q; the old queue is dropped. */
    method Renew(q: int)
      requires Valid() && 0 <= q < queues.Length && !irq.enabled
      modifies Repr
      ensures Valid() && fresh(Repr - old(Repr))
      ensures Abs() == old(Abs()).(queues := old(Abs()).queues[q := []])
      ensures !irq.enabled
    {
      var wq := new WaitQueue();
      queues[q] := wq;
      contents := contents[q := []];
      Repr := Repr + wq.Repr;
    }

    method PutSlot(t: Tid, slot: Slot)
      requires Valid() && ValidTid(t)
      modifies slots
      ensures Valid()
      ensures Abs() == old(Abs()).(slots := old(Abs()).slots[t := slot])
    {
      slots[t] := slot;
    }

    method PutState(t: Tid, state: ThreadState)
      requires Valid() && ValidTid(t)
      modifies slots
      ensures Valid()
      ensures Shape(old(Abs())) ==> Abs() == SetState(old(Abs()), t, state)
    {
      slots[t] := slots[t].(state := state);
    }

    method AddExisting(d: int)
      requires Valid()
      modifies this`existing
      ensures Valid() && Abs() == old(Abs()).(existing := old(existing) + d)
    {
      existing := existing + d;
    }

    method SetFlag(on: bool) returns (was: bool)
      requires Valid()
      modifies irq
      ensures Valid() && Abs() == old(Abs())
      ensures was == old(irq.enabled) && irq.enabled == on
    {
      was := irq.Set(on);
    }

    // ---- thread_yield ------------------------------------------------------

    /** The loop that frees zombies. */
    method ReapZombies()
      requires Valid() && Shape(Abs()) && !irq.enabled
      modifies Repr
      ensures Valid() && fresh(Repr - old(Repr)) && !irq.enabled
      ensures Abs() == Reap(old(Abs()))
    {
      var i := 0;
      while i < THREAD_MAX_THREADS
        invariant 0 <= i <= THREAD_MAX_THREADS
        invariant Valid() && fresh(Repr - old(Repr)) && !irq.enabled
        invariant Abs() == ReapUpTo(old(Abs()), i)
      {
        if i != current && slots[i].state == Exited {
          freed := FreeStack(freed, slots[i].stack);
          Renew(WaitQueueOf(i));
          PutState(i, Uninitialized);
        }
        i := i + 1;
      }
    }

    method SetCurrent(to: Tid)
      requires Valid()
      modifies this`current, this`prev
      ensures Valid() && Abs() == old(Abs()).(current := to, prev := old(current))
    {
      prev := current;
      current := to;
    }

    /** From getcontext to setcontext: what is left of a switch once `to` is off the ready queue. */
    method InstallThread(to: Tid)
      requires Valid() && Shape(Abs()) && ValidTid(to) && !irq.enabled
      modifies Repr
      ensures Valid() && fresh(Repr - old(Repr)) && !irq.enabled
      ensures Abs() == Install(old(Abs()), to)
    {
      ReapZombies();
      if slots[current].state == Running {
        PutState(current, Ready);
        EnqueueAt(READY_QUEUE, current);
      }
      if slots[to].state != Killed {
        PutState(to, Running);
      }
      SetCurrent(to);
    }

    /** The two dequeues of thread_yield: of the head, or of a given thread. */
    method TakeReady(want: Tid) returns (found: Tid)
      requires Valid() && Shape(Abs()) && QueueInRange(Abs(), READY_QUEUE) && !irq.enabled
      requires want == THREAD_ANY || ValidTid(want)
      modifies Repr
      ensures Valid() && fresh(Repr - old(Repr)) && !irq.enabled
      ensures var r := old(Abs()).queues[READY_QUEUE];
              found == if want != THREAD_ANY then (if want in r then want else THREAD_INVALID)
                       else if r == [] then THREAD_NONE else r[0]
      ensures found < 0 ==> Abs() == old(Abs()) && (want == THREAD_ANY ==> Abs().queues[READY_QUEUE] == [])
      ensures found >= 0 ==> ValidTid(found) && Abs() == Dequeue(old(Abs()), READY_QUEUE, found)
    {
      ghost var k := Abs();
      if want == THREAD_ANY {
        assert k.queues[READY_QUEUE] != [] ==> k.queues[READY_QUEUE][0] in k.queues[READY_QUEUE];
        found := DequeueHeadAt(READY_QUEUE);
      } else {
        found := DequeueAt(READY_QUEUE, want);
        RemoveAbsent(k.queues[READY_QUEUE], want);
        assert k.queues[READY_QUEUE := k.queues[READY_QUEUE]] == k.queues;
      }
    }

    /** The branches of thread_yield that look for a thread to run. */
    method SwitchAway(want: Tid, enable: bool) returns (outcome: YieldOutcome)
      requires Valid() && Shape(Abs()) && QueueInRange(Abs(), READY_QUEUE) && !irq.enabled
      requires Cur(Abs()).state != Killed && want != current && (want == THREAD_ANY || ValidTid(want))
      modifies Repr
      ensures Valid() && fresh(Repr - old(Repr))
      ensures outcome == YieldDecision(old(Abs()), want)
      ensures outcome.Switches? ==>
                ValidTid(outcome.to) && Abs() == SwitchTo(old(Abs()), outcome.to) && !irq.enabled
      ensures !outcome.Switches? ==> Abs() == old(Abs()) && irq.enabled == enable
    {
      var found := TakeReady(want);
      if found >= 0 {
        InstallThread(found);
        return Switches(found);
      }
      var _ := SetFlag(enable);
      return Returns(found);
    }

    /** thread_yield up to the context switch, or to its return when there is none. */
    method Yield(want: Tid) returns (outcome: YieldOutcome)
      requires Valid() && Shape(Abs()) && QueueInRange(Abs(), READY_QUEUE)
      modifies Repr
      ensures Valid() && fresh(Repr - old(Repr))
      ensures outcome == YieldDecision(old(Abs()), want)
      ensures old(slots[current].state) == Killed ==> outcome == Dies
      ensures old(slots[current].state) != Killed ==>
                YieldAnswers(want, old(current), old(contents[READY_QUEUE]), outcome)
      ensures outcome.Switches? ==>
                ValidTid(outcome.to) && Abs() == SwitchTo(old(Abs()), outcome.to) && !irq.enabled
      ensures !outcome.Switches? ==> Abs() == old(Abs()) && irq.enabled == old(irq.enabled)
    {
      var enable := SetFlag(false);
      if slots[current].state == Killed {
        outcome := Dies;
      } else if want >= THREAD_MAX_THREADS || want < -2 {
        outcome := Returns(THREAD_INVALID);
      } else if want == THREAD_SELF || want == current {
        outcome := Returns(current);
      } else {
        outcome := SwitchAway(want, enable);
        return;
      }
      var _ := SetFlag(enable);
    }

    /** thread_yield after getcontext returns a second time. */
    method Resume(enable: bool)
      requires Valid() && Shape(Abs()) && !irq.enabled
      modifies Repr
      ensures Valid() && fresh(Repr - old(Repr))
      ensures Abs() == Reap(old(Abs())) && irq.enabled == enable
    {
      ReapZombies();
      var _ := SetFlag(enable);
    }

    // ---- thread_sleep and thread_wakeup --------------------------------------

    /** thread_sleep up to its yield. */
    method Sleep(q: int) returns (sleeps: bool)
      requires Valid() && Shape(Abs()) && IsWaitQueue(Abs(), q)
      modifies Repr
      ensures Valid() && fresh(Repr - old(Repr)) && irq.enabled == old(irq.enabled)
      ensures sleeps == CanSleep(old(Abs()))
      ensures Abs() == if sleeps then SleepOn(old(Abs()), q) else old(Abs())
    {
      var enabled := SetFlag(false);
      if existing == 1 {
        var _ := SetFlag(enabled);
        return false;
      }
      PutState(current, Sleeping);
      EnqueueAt(q, current);
      AddExisting(-1);
      var _ := SetFlag(enabled);
      return true;
    }

    method ReadyThread(t: Tid)
      requires Valid() && Shape(Abs()) && ValidTid(t) && !irq.enabled
      modifies Repr
      ensures Valid() && fresh(Repr - old(Repr)) && !irq.enabled
      ensures Abs() == MakeReady(old(Abs()), t)
    {
      if slots[t].state != Killed {
        PutState(t, Ready);
      }
      EnqueueAt(READY_QUEUE, t);
      AddExisting(1);
    }

    /** One round of the wakeup: the head of q becomes ready. */
    method WakeHead(q: int) returns (t: Tid)
      requires Valid() && Shape(Abs()) && IsWaitQueue(Abs(), q) && QueueInRange(Abs(), q) && !irq.enabled
      modifies Repr
      ensures Valid() && fresh(Repr - old(Repr)) && !irq.enabled
      ensures Abs() == WakeOne(old(Abs()), q)
      ensures t == if old(Abs()).queues[q] == [] then THREAD_NONE else old(Abs()).queues[q][0]
      ensures t == THREAD_NONE <==> old(Abs()).queues[q] == []
    {
      ghost var k := Abs();
      assert k.queues[q] != [] ==> k.queues[q][0] in k.queues[q];
      t := DequeueHeadAt(q);
      if t != THREAD_NONE {
        ReadyThread(t);
      }
    }

    method WakeUp(q: int, all: bool) returns (woken: nat)
      requires Valid() && Shape(Abs()) && IsWaitQueue(Abs(), q) && QueueInRange(Abs(), q)
      modifies Repr
      ensures Valid() && fresh(Repr - old(Repr)) && irq.enabled == old(irq.enabled)
      ensures Abs() == Wakeup(old(Abs()), q, all)
      ensures var n := |old(Abs()).queues[q]|;
              woken == if all || n == 0 then n else 1
    {
      var enabled := SetFlag(false);
      woken := 0;
      if all {
        while true
          invariant Valid() && fresh(Repr - old(Repr)) && !irq.enabled
          invariant Shape(Abs()) && IsWaitQueue(Abs(), q) && QueueInRange(Abs(), q)
          invariant WakeAll(Abs(), q) == WakeAll(old(Abs()), q)
          invariant woken + |Abs().queues[q]| == |old(Abs()).queues[q]|
          decreases |Abs().queues[q]|
        {
          var t := WakeHead(q);
          if t == THREAD_NONE {
            break;
          }
          woken := woken + 1;
        }
      } else {
        var t := WakeHead(q);
        if t != THREAD_NONE {
          woken := 1;
        }
      }
      var _ := SetFlag(enabled);
    }

    // ---- thread_create -----------------------------------------------------

    method PutNewStack(i: Tid)
      requires Valid() && Shape(Abs()) && ValidTid(i)
      modifies slots, this`nextStack
      ensures Valid()
      ensures var k := old(Abs());
              Abs() == k.(slots := k.slots[i := k.slots[i].(state := Ready, stack := k.nextStack, waitingOn := -1)],
                          nextStack := k.nextStack + 1)
    {
      slots[i] := slots[i].(state := Ready, stack := nextStack, waitingOn := -1);
      nextStack := nextStack + 1;
    }

    /** set_context_function: stack, wait queue, ready queue. */
    method SetContext(i: Tid)
      requires Valid() && Shape(Abs()) && ValidTid(i) && !irq.enabled
      modifies Repr
      ensures Valid() && fresh(Repr - old(Repr)) && !irq.enabled
      ensures Abs() == SetUp(old(Abs()), i)
    {
      PutNewStack(i);
      Renew(WaitQueueOf(i));
      EnqueueAt(READY_QUEUE, i);
      AddExisting(1);
    }

    /** The slot is taken over, and the stack of a zombie in it freed. */
    method Claim(i: Tid)
      requires Valid() && Shape(Abs()) && ValidTid(i) && slots[i].state in {Uninitialized, Exited}
      modifies this`freed, slots
      ensures Valid() && Abs() == Reclaim(old(Abs()), i)
    {
      if slots[i].state == Uninitialized {
        PutSlot(i, slots[i].(exitCode := -1));
      } else {
        freed := FreeStack(freed, slots[i].stack);
        PutSlot(i, slots[i].(exitCode := -1, state := Ready));
      }
    }

    /** thread_create with thread_create_helper; `memory` says whether malloc succeeds. */
    method CreateThread(memory: bool) returns (ret: Tid)
      requires Valid() && Shape(Abs())
      modifies Repr
      ensures Valid() && fresh(Repr - old(Repr)) && irq.enabled == old(irq.enabled)
      ensures (Abs(), ret) == Create(old(Abs()), memory)
    {
      var enable := SetFlag(false);
      ret := THREAD_NOMORE;
      if existing < THREAD_MAX_THREADS {
        var i := 0;
        while i < THREAD_MAX_THREADS && slots[i].state !in {Uninitialized, Exited}
          invariant 0 <= i <= THREAD_MAX_THREADS
          invariant FirstFree(slots[..], 0) == FirstFree(slots[..], i)
        {
          i := i + 1;
        }
        if i < THREAD_MAX_THREADS {
          Claim(i);
          ret := THREAD_NOMEMORY;
          if memory {
            SetContext(i);
            ret := i;
          }
        }
      }
      var _ := SetFlag(enable);
    }

    // ---- thread_exit and thread_kill -------------------------------------------

    method RetireCurrent(code: int)
      requires Valid() && Shape(Abs())
      modifies slots, this`existing
      ensures Valid() && Abs() == Retire(old(Abs()), code)
    {
      PutSlot(current, slots[current].(state := Exited));
      AddExisting(-1);
      PutSlot(current, slots[current].(exitCode := code));
    }

    /** thread_exit up to its first yield; `last` is the branch that ends the process. */
    method ExitThread(code: int) returns (last: bool)
      requires Valid() && Shape(Abs()) && QueueInRange(Abs(), WaitQueueOf(current))
      modifies Repr
      ensures Valid() && fresh(Repr - old(Repr)) && irq.enabled == old(irq.enabled)
      ensures last == IsLastThread(old(Abs()))
      ensures Abs() == if last then WakeAll(old(Abs()), WaitQueueOf(old(current))) else Exit(old(Abs()), code)
    {
      var enabled := SetFlag(false);
      ghost var k := Abs();
      var _ := WakeUp(WaitQueueOf(current), true);
      last := existing < 1;
      if !last {
        RetireCurrent(code);
        var _ := WakeUp(WaitQueueOf(current), true);
      }
      var _ := SetFlag(enabled);
    }

    method Requeue(t: Tid)
      requires Valid()
      modifies Repr
      ensures Valid() && fresh(Repr - old(Repr)) && irq.enabled == old(irq.enabled)
      ensures Abs() == Enqueue(old(Abs()), READY_QUEUE, t).(existing := old(existing) + 1)
    {
      EnqueueAt(READY_QUEUE, t);
      AddExisting(1);
    }

    /**
     thread_awaken: a sleeper that was just marked killed moves to the ready
     queue, unless it is not where its waiting_on says. A crash ends the
     process.
     */
    method Awaken(tid: Tid) returns (crash: Crash)
      requires Valid() && Shape(Abs()) && ValidTid(tid) && slots[tid].state == Killed
      modifies Repr
      ensures Valid() && fresh(Repr - old(Repr))
      ensures crash == CrashOf(ThreadKernel.Awaken(old(Abs()), tid))
      ensures crash.NoCrash? ==>
                ThreadKernel.Awaken(old(Abs()), tid) == KillDone(Abs()) && irq.enabled == old(irq.enabled)
    {
      var enabled := SetFlag(false);
      var waitingOn := slots[tid].waitingOn;
      if !(0 <= waitingOn < THREAD_MAX_THREADS) || slots[waitingOn].state == Uninitialized {
        return StrayAccess;
      }
      var removed := DequeueAt(WaitQueueOf(waitingOn), tid);
      if removed != tid {
        return FailedAssertion;
      }
      Requeue(tid);
      var _ := SetFlag(enabled);
      return NoCrash;
    }

    method Doom(tid: Tid)
      requires Valid() && Shape(Abs()) && ValidTid(tid)
      modifies slots
      ensures Valid()
      ensures Abs() == old(Abs()).(slots := old(Abs()).slots[tid := old(slots[tid]).(state := Killed, exitCode := 9)])
    {
      PutState(tid, Killed);
      PutSlot(tid, slots[tid].(exitCode := 9));
    }

    /** The branch of thread_kill for a target that can be killed. */
    method KillOther(tid: Tid) returns (crash: Crash)
      requires Valid() && Shape(Abs())
      requires ValidTid(tid) && tid != current && slots[tid].state != Uninitialized
      modifies Repr
      ensures Valid() && fresh(Repr - old(Repr))
      ensures crash == CrashOf(Kill(old(Abs()), tid))
      ensures crash.NoCrash? ==> Kill(old(Abs()), tid) == KillDone(Abs()) && irq.enabled == old(irq.enabled)
    {
      crash := NoCrash;
      if slots[tid].state == Sleeping {
        PutState(tid, Killed);
        crash := Awaken(tid);
      }
      if crash.NoCrash? {
        Doom(tid);
      }
    }

    /** thread_kill; a crash ends the process. */
    method KillThread(tid: Tid) returns (ret: Tid, crash: Crash)
      requires Valid() && Shape(Abs())
      modifies Repr
      ensures Valid() && fresh(Repr - old(Repr))
      ensures crash == CrashOf(Kill(old(Abs()), tid))
      ensures match Kill(old(Abs()), tid)
              case KillDone(k) => ret == tid && Abs() == k && irq.enabled == old(irq.enabled)
              case KillRefused => ret == THREAD_INVALID && Abs() == old(Abs()) && irq.enabled == old(irq.enabled)
              case _ => true
    {
      var enabled := SetFlag(false);
      ret, crash := THREAD_INVALID, NoCrash;
      if 0 <= tid < THREAD_MAX_THREADS && tid != current && slots[tid].state != Uninitialized {
        crash := KillOther(tid);
        if crash != NoCrash {
          return;
        }
        ret := tid;
      }
      var _ := SetFlag(enabled);
    }

    // ---- thread_wait -------------------------------------------------------

    /** tid is another thread that has exited, reaped or not, and whose status nobody has taken. */
    predicate HasStatus(tid: Tid)
      requires slots.Length == THREAD_MAX_THREADS
      reads this, slots
    {
      && 0 <= tid < THREAD_MAX_THREADS && tid != current
      && (slots[tid].state == Exited || slots[tid].state == Uninitialized) && slots[tid].exitCode != -1
    }

    /** thread_wait up to its sleep; `code` is what it stores, which takes a pointer that is not null. */
    method StartWait(tid: Tid, ptr: bool) returns (entry: WaitEntry, code: int)
      requires Valid() && Shape(Abs())
      modifies slots
      ensures Valid() && entry == WaitTest(old(Abs()), tid, ptr)
      ensures entry == WaitRefused || entry == WaitNullDereference ==> Abs() == old(Abs())
      ensures entry == WaitDelivers ==>
                ValidTid(tid) && code == old(Abs()).slots[tid].exitCode && Abs() == TakeCode(old(Abs()), tid)
      ensures entry == WaitSleeps ==> Abs() == NoteWaitingOn(old(Abs()), old(current), tid)
      ensures old(HasStatus(tid)) && ptr ==>
                && entry == WaitDelivers && code == old(slots[tid].exitCode)
                && slots[tid] == old(slots[tid]).(exitCode := -1)
      ensures old(HasStatus(tid)) && !ptr ==> entry == if old(slots[tid].state) == Exited then WaitNullDereference
                                                       else WaitRefused
    {
      code := 0;
      if tid < 0 || tid >= THREAD_MAX_THREADS || tid == current {
        return WaitRefused, code;
      } else if slots[tid].state == Exited || (slots[tid].state == Uninitialized && slots[tid].exitCode != -1 && ptr) {
        if !ptr {
          return WaitNullDereference, code;
        }
        code := slots[tid].exitCode;
        PutSlot(tid, slots[tid].(exitCode := -1));
        return WaitDelivers, code;
      } else if slots[tid].state == Uninitialized {
        return WaitRefused, code;
      }
      PutSlot(current, slots[current].(waitingOn := tid));
      return WaitSleeps, code;
    }

    /** thread_wait after its sleep. */
    method EndWait(tid: Tid) returns (result: WaitResult)
      requires Valid() && Shape(Abs()) && ValidTid(tid)
      modifies slots, irq
      ensures Valid() && irq.enabled == old(irq.enabled)
      ensures result == WaitOutcome(old(Abs()), tid) && Abs() == WaitEffect(old(Abs()), tid)
    {
      var enabled := SetFlag(false);
      if slots[tid].exitCode != -1 {
        result := Delivered(slots[tid].exitCode);
        PutSlot(tid, slots[tid].(exitCode2 := slots[tid].exitCode, exitCode := -1));
      } else if slots[current].state == Killed {
        result := KilledMeanwhile(slots[current].exitCode);
      } else {
        result := AlreadyTaken;
        PutSlot(tid, slots[tid].(waitingOn := -1));
      }
      var _ := SetFlag(enabled);
    }

    // ---- locks -------------------------------------------------------------------

    /** One test of the loop in lock_acquire, with interrupts off: enter, or go to sleep. */
    method TryEnter(lock: LockObject) returns (entered: bool)
      requires Valid() && Shape(Abs()) && IsWaitQueue(Abs(), lock.queue) && lock !in Repr && !irq.enabled
      modifies Repr, lock
      ensures Valid() && fresh(Repr - old(Repr)) && !irq.enabled
      ensures entered == !old(lock.held) && lock.held
      ensures entered ==> lock.holder == current && Abs() == old(Abs())
      ensures !entered ==>
                && lock.holder == old(lock.holder)
                && Abs() == if CanSleep(old(Abs())) then SleepOn(old(Abs()), lock.queue) else old(Abs())
    {
      if lock.held {
        var _ := Sleep(lock.queue);
        return false;
      }
      lock.held := true;
      lock.holder := current;
      return true;
    }

    method ReleaseLock(lock: LockObject)
      requires Valid() && Shape(Abs()) && IsWaitQueue(Abs(), lock.queue) && lock !in Repr
      requires QueueInRange(Abs(), lock.queue)
      modifies Repr, lock
      ensures Valid() && fresh(Repr - old(Repr)) && irq.enabled == old(irq.enabled)
      ensures !lock.held && lock.holder == current == old(current)
      ensures Abs() == WakeAll(old(Abs()), lock.queue)
    {
      var enabled := SetFlag(false);
      lock.held := false;
      lock.holder := current;
      var _ := WakeUp(lock.queue, true);
      var _ := SetFlag(enabled);
    }
  }

  class LockObject {
    var held: bool
    var holder: Tid
    const queue: int

    /** lock_create, with its wait queue. */
    constructor (queue: int)
      ensures !held && holder == -1 && this.queue == queue
    {
      held, holder := false, -1;
      this.queue := queue;
    }
  }
}
