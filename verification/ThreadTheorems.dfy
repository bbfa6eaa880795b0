/**
 What the scheduler promises, for every state that a run of the machine from
 thread_init reaches: any number of threads, locks and queues, any permitted
 calls, any preemption.
 */
module ThreadTheorems {
  import opened Seqs
  import opened ThreadKernel
  import opened ThreadInvariant
  import opened ThreadMachine
  import opened ThreadSafety
  import opened ThreadEffects
  import opened ThreadDispatch
  import opened ThreadStacks

  ghost predicate Reachable(s: Sys) {
    exists nLocks: nat, nQueues: nat, acts ::
      IsRun(Init(nLocks, nQueues), acts) && s == After(Init(nLocks, nQueues), acts)
  }

  lemma ReachableIsSafe(s: Sys)
    requires Reachable(s)
    ensures Safe(s)
  {
    var nLocks: nat, nQueues: nat, acts :|
      IsRun(Init(nLocks, nQueues), acts) && s == After(Init(nLocks, nQueues), acts);
    InitSafe(nLocks, nQueues);
    RunSafe(Init(nLocks, nQueues), acts);
  }

  // ---- queue membership and the thread count -------------------------------------

  /** No thread is in two places: not in two queues, not twice in one. */
  lemma QueuedOnce(s: Sys, q: nat, i: nat, q': nat, i': nat)
    requires Reachable(s)
    requires q < |s.k.queues| && i < |s.k.queues[q]| && q' < |s.k.queues| && i' < |s.k.queues[q']|
    requires s.k.queues[q][i] == s.k.queues[q'][i']
    ensures q == q' && i == i'
  {
    ReachableIsSafe(s);
    var t := s.k.queues[q][i];
    assert t in s.k.queues[q] && t in s.k.queues[q'];
  }

  /** A thread's state says where it is queued, in both directions. */
  lemma StateTellsQueue(s: Sys, t: Tid)
    requires Reachable(s) && Sized(s) && ValidTid(t)
    ensures var queued := exists q :: IsWaitQueue(s.k, q) && t in s.k.queues[q];
            match s.k.slots[t].state
            case Ready => t in s.k.queues[READY_QUEUE] && !queued
            case Killed => (t in s.k.queues[READY_QUEUE] <==> t != s.k.current) && !queued
            case Sleeping => t !in s.k.queues[READY_QUEUE] && queued
            case _ => t !in s.k.queues[READY_QUEUE] && !queued
  {
    ReachableIsSafe(s);
    assert SlotOk(s.k, t);
  }

  /** The counter counts, so the guard of thread_sleep is exact and thread_exit has a successor. */
  lemma ThreadCount(s: Sys)
    requires Reachable(s) && Sized(s) && Alive(Cur(s.k).state)
    ensures s.k.existing == 1 + |s.k.queues[READY_QUEUE]|
    ensures CanSleep(s.k) <==> s.k.queues[READY_QUEUE] != []
    ensures !IsLastThread(s.k)
  {
    ReachableIsSafe(s);
    ExitInv(s.k, 0);
  }

  /** A thread that is still marked asleep does nothing but switch away. */
  lemma SleeperDoesNotRunOn(s: Sys, a: Action)
    requires Reachable(s) && Sized(s) && Cur(s.k).state == Sleeping && Legal(s, a)
    ensures a.Tick? || a.Go?
    ensures Next(s, a).k.current != s.k.current
  {
    ReachableIsSafe(s);
    OnlySwitchesChangeCurrent(s, a);
  }

  /** The loop of lock_acquire with nobody else to run: it spins with interrupts off. */
  predicate Spins(s: Sys)
    requires Sized(s)
  {
    && Top(s).Push? && Top(s).top.AcquireLoop?
    && Top(s).top.lock < |s.locks| && s.locks[Top(s).top.lock].held
    && !CanSleep(s.k)
  }

  /**
   While the program is active its current thread is in user code or can take a
   library step, and that step leads on exactly when the thread does not spin
   for a lock that nobody can release.
   */
  lemma NeverStuck(s: Sys)
    requires Reachable(s) && s.status == Active
    ensures Sized(s) && Top(s).Push?
    ensures Top(s).top.User? || Legal(s, Go)
    ensures Legal(s, Go) ==> (Next(s, Go) == s <==> Spins(s))
  {
    ReachableIsSafe(s);
    if Legal(s, Go) {
      GoLeadsOn(s);
    }
  }

  lemma YieldLeadsOn(s: Sys)
    requires Safe(s) && Legal(s, Go) && (Top(s).top.SleepTail? || Top(s).top.ExitTail?)
    ensures Next(s, Go) != s
  {
    if EffectOf(s, Go).Switch? {
      OnlySwitchesChangeCurrent(s, Go);
    }
  }

  lemma GoLeadsOn(s: Sys)
    requires Safe(s) && Legal(s, Go)
    ensures Next(s, Go) == s <==> Spins(s)
  {
    if Top(s).top.SleepTail? || Top(s).top.ExitTail? {
      YieldLeadsOn(s);
    } else if Top(s).top.AcquireLoop? {
      SpinStays(s);
    } else {
      OtherFramesLeadOn(s);
    }
  }

  lemma OtherFramesLeadOn(s: Sys)
    requires Legal(s, Go) && !Top(s).top.SleepTail? && !Top(s).top.ExitTail? && !Top(s).top.AcquireLoop?
    ensures Next(s, Go) != s
  {
  }

  lemma SpinStays(s: Sys)
    requires Safe(s) && Legal(s, Go) && Top(s).top.AcquireLoop?
    ensures Next(s, Go) == s <==> Spins(s)
  {
    if Spins(s) {
      assert s.conts[s.k.current := Top(s)] == s.conts;
    } else {
      assert Next(s, Go).conts[s.k.current] != Top(s);
    }
  }

  // ---- zombies and stacks ------------------------------------------------------

  /** Only the thread that ran just before can be a zombie, and its wait queue is empty. */
  lemma ZombieRanJustBefore(s: Sys, t: Tid)
    requires Reachable(s) && Sized(s) && ValidTid(t) && IsZombie(s.k, t)
    ensures t == s.k.prev && s.k.queues[WaitQueueOf(t)] == []
  {
    ReachableIsSafe(s);
    assert SlotOk(s.k, t);
  }

  /** A stack is freed at most once, never while a slot uses it, and never lost. */
  lemma StackOwnership(s: Sys, stack: nat)
    requires Reachable(s) && 0 < stack < s.k.nextStack
    ensures |s.k.slots| == THREAD_MAX_THREADS
    ensures stack in s.k.freed <==> !exists t :: Owns(s.k, t, stack)
    ensures forall t, t' :: Owns(s.k, t, stack) && Owns(s.k, t', stack) ==> t == t'
    ensures NoDup(s.k.freed)
  {
    ReachableIsSafe(s);
  }

  lemma WakeupFrees(k: Kernel, q: int, all: bool)
    requires Inv(k) && IsWaitQueue(k, q) && Alive(Cur(k).state)
    ensures Wakeup(k, q, all).freed == k.freed
  {
    if all {
      WakeAllInv(k, q);
    } else {
      WakeOneInv(k, q);
    }
  }

  lemma ExitFrees(k: Kernel, code: int)
    requires Inv(k) && Alive(Cur(k).state)
    ensures Exit(k, code).freed == k.freed
  {
    WakeAllInv(k, WaitQueueOf(k.current));
    ExitIs(k, code);
  }

  lemma ReapFrees(k: Kernel, to: Tid)
    requires Inv(k)
    ensures Reap(k).freed == if IsZombie(k, k.prev) then FreeStack(k.freed, k.slots[k.prev].stack) else k.freed
    ensures to in k.queues[READY_QUEUE] ==> SwitchTo(k, to).freed == Reap(k).freed
  {
    ReapInv(k);
    if to in k.queues[READY_QUEUE] {
      SwitchToIs(k, to);
    }
  }

  lemma EffectFrees(k: Kernel, e: Effect)
    requires Inv(k) && Fits(k, e)
    ensures var freed := Apply(k, e).freed;
            || freed == k.freed
            || exists z :: && ValidTid(z) && IsZombie(k, z) && freed == k.freed + [k.slots[z].stack]
                           && (e.Switch? || e.ReapZombie? || e.NewThread?)
  {
    match e
    case Switch(to, _) => ReapFrees(k, to);
    case ReapZombie => ReapFrees(k, k.current);
    case ExitWith(code) => ExitFrees(k, code);
    case WakeFrom(q, all) => WakeupFrees(k, q, all);
    case _ =>
  }

  /** A step frees at most one stack, that of a zombie, in the reaper or in thread_create. */
  lemma FreesOnlyZombies(s: Sys, a: Action)
    requires Reachable(s) && Sized(s) && Legal(s, a)
    ensures var freed := Next(s, a).k.freed;
            || freed == s.k.freed
            || exists z :: && ValidTid(z) && IsZombie(s.k, z) && freed == s.k.freed + [s.k.slots[z].stack]
                           && (EffectOf(s, a).Switch? || EffectOf(s, a).ReapZombie? || a.CallCreate?)
  {
    ReachableIsSafe(s);
    EffectIs(s, a);
    EffectFrees(s.k, EffectOf(s, a));
  }

  // ---- locks and condition variables -------------------------------------------

  /** lock_acquire returns with the lock. */
  lemma AcquireReturnsWithLock(s: Sys, l: nat, acts: seq<Action>)
    requires Reachable(s) && Legal(s, CallAcquire(l)) && IsRun(Next(s, CallAcquire(l)), acts)
    requires ValidTid(s.k.current)
    requires LivesThrough(Next(s, CallAcquire(l)), acts, s.k.current, (a: Action) => !a.Tick?)
    ensures var s' := After(Next(s, CallAcquire(l)), acts);
            && Sized(s') && l < |s'.locks|
            && (s'.k.current == s.k.current && Top(s').Push? && Top(s').top.User? ==> HoldsLock(s', l))
  {
    ReachableIsSafe(s);
    StepSafe(s, CallAcquire(l));
    ReturnsWithLock(Next(s, CallAcquire(l)), acts, s.k.current, l);
  }

  /** cv_wait, called with the lock held, returns with it held again. */
  lemma CvWaitReturnsWithLock(s: Sys, q: int, l: nat, acts: seq<Action>)
    requires Reachable(s) && Legal(s, CallCvWait(q, l)) && HoldsLock(s, l)
    requires IsRun(Next(s, CallCvWait(q, l)), acts) && ValidTid(s.k.current)
    requires LivesThrough(Next(s, CallCvWait(q, l)), acts, s.k.current, (a: Action) => !a.Tick?)
    ensures s.k.current !in Next(s, CallCvWait(q, l)).locks[l].inside
    ensures var s' := After(Next(s, CallCvWait(q, l)), acts);
            && Sized(s') && l < |s'.locks|
            && (s'.k.current == s.k.current && Top(s').Push? && Top(s').top.User? ==> HoldsLock(s', l))
  {
    ReachableIsSafe(s);
    StepSafe(s, CallCvWait(q, l));
    ReturnsWithLock(Next(s, CallCvWait(q, l)), acts, s.k.current, l);
  }

  lemma LeaveLockOkIff(s: Sys, l: nat)
    requires Sized(s) && l < |s.locks| && LockOk(s, l) && Sized(LeaveLock(s, l))
    ensures LockOk(LeaveLock(s, l), l) <==> !s.locks[l].held || HoldsLock(s, l)
  {
    if s.locks[l].held && !HoldsLock(s, l) {
      assert s.locks[l].holder in LeaveLock(s, l).locks[l].inside;
    }
  }

  /** lock_release keeps the lock invariant exactly when the lock is free or its caller holds it. */
  lemma ReleaseKeepsLockIff(s: Sys, l: nat)
    requires Reachable(s) && Enabled(s, CallRelease(l))
    ensures Sized(Next(s, CallRelease(l)))
    ensures LockOk(Next(s, CallRelease(l)), l) <==> !s.locks[l].held || HoldsLock(s, l)
  {
    ReachableIsSafe(s);
    TopTells(s);
    assert LockOk(s, l);
    WakeupIsCalm(s, LockQueue(l), true);
    InvSized(LeaveLock(s, l).k);
    LeaveLockOkIff(s, l);
  }

  lemma WakeupWakesHead(k: Kernel, q: int, all: bool)
    requires Inv(k) && IsWaitQueue(k, q) && Cur(k).state != Sleeping && k.queues[q] != []
    ensures var k', t := Wakeup(k, q, all), k.queues[q][0];
            && Shape(k') && ValidTid(t) && k' != k
            && t in k'.queues[READY_QUEUE] && k'.slots[t].state == Ready
  {
    var t := k.queues[q][0];
    assert t in k.queues[q];
    assert t in k.queues[READY_QUEUE] + k.queues[q];
    if all {
      WakeAllInv(k, q);
      WakeAllIsFifo(k, q);
    } else {
      WakeOneInv(k, q);
      WakeOneTail(k, q);
    }
  }

  /**
   A cv_signal or cv_broadcast by the holder of the lock wakes somebody if and only
   if somebody is in the queue already; one that finds the queue empty leaves no trace.
   */
  lemma SignalWakesIff(s: Sys, q: int, l: nat, all: bool)
    requires Reachable(s) && Legal(s, CallCvSignal(q, l, all)) && HoldsLock(s, l)
    ensures var s' := Next(s, CallCvSignal(q, l, all));
            && (s' == s <==> s.k.queues[q] == [])
            && (s.k.queues[q] != [] ==>
                  var t := s.k.queues[q][0];
                  Shape(s'.k) && ValidTid(t) && t in s'.k.queues[READY_QUEUE] && s'.k.slots[t].state == Ready)
  {
    ReachableIsSafe(s);
    TopTells(s);
    if s.k.queues[q] != [] {
      WakeupWakesHead(s.k, q, all);
    }
  }

  // ---- where the code departs from thread.h --------------------------------------

  /**
   thread.h says that a killed thread does not run any further. It runs on until
   a yield or a wait leads it to thread_exit; and it forgets that it was killed
   exactly when it goes to sleep, in thread_sleep, thread_wait, lock_acquire or
   cv_wait.
   */
  lemma KilledUnlessItSleeps(s: Sys, a: Action)
    requires Reachable(s) && Legal(s, a) && Cur(s.k).state == Killed
    ensures Sized(Next(s, a)) && Next(s, a).k.current == s.k.current
    ensures var e := EffectOf(s, a);
            Cur(Next(s, a).k).state ==
            if e.ExitWith? then Exited
            else if CanSleep(s.k) && (e.SleepIn? || e.SleepForExit?) then Sleeping
            else Killed
  {
    ReachableIsSafe(s);
    EffectIs(s, a);
    if EffectOf(s, a).ExitWith? {
      KilledExit(s.k, EffectOf(s, a).code);
    } else {
      KilledEffect(s.k, EffectOf(s, a));
    }
    StepSafe(s, a);
  }

  lemma KilledExit(k: Kernel, code: int)
    requires Inv(k) && Alive(Cur(k).state)
    ensures Shape(Exit(k, code)) && Exit(k, code).current == k.current && Cur(Exit(k, code)).state == Exited
  {
    WakeAllInv(k, WaitQueueOf(k.current));
    ExitIs(k, code);
  }

  /** Its next yield, of its own or of the timer's, makes it call thread_exit. */
  lemma KilledExitsAtYield(s: Sys, a: Action)
    requires Reachable(s) && Legal(s, a) && Cur(s.k).state == Killed && (a.Tick? || a.CallYield?)
    ensures |Next(s, a).conts| == THREAD_MAX_THREADS && Next(s, a).k == s.k
    ensures Next(s, a).conts[s.k.current].Push? && Next(s, a).conts[s.k.current].top == ExitCall(0)
  {
  }

  lemma KilledWakes(k: Kernel, q: int, all: bool)
    requires Inv(k) && Fits(k, WakeFrom(q, all)) && Cur(k).state == Killed
    ensures Shape(Wakeup(k, q, all)) && Wakeup(k, q, all).current == k.current
    ensures Cur(Wakeup(k, q, all)).state == Killed
  {
    if all {
      WakeAllInv(k, q);
    } else {
      WakeOneInv(k, q);
    }
  }

  lemma KilledEffect(k: Kernel, e: Effect)
    requires Inv(k) && Fits(k, e) && Cur(k).state == Killed
    requires !e.ExitWith?
    ensures Shape(Apply(k, e)) && Apply(k, e).current == k.current
    ensures Cur(Apply(k, e)).state == if CanSleep(k) && (e.SleepIn? || e.SleepForExit?) then Sleeping else Killed
  {
    match e
    case ReapZombie => ReapInv(k);
    case WakeFrom(q, all) => KilledWakes(k, q, all);
    case _ =>
  }

  /**
   A refused waiter clears the waiting_on of its target. If the target itself
   sleeps, a later thread_kill of it cannot find its queue.
   */
  lemma ClearedWaitingOnBreaksKill(s: Sys, target: Tid)
    requires Reachable(s) && Legal(s, Go) && Top(s).top == WaitTail(target)
    requires WaitOutcome(s.k, target) == AlreadyTaken && s.k.slots[target].state == Sleeping
    requires target != s.k.current
    ensures Sized(Next(s, Go)) && Kill(Next(s, Go).k, target) == KillStrays
  {
    ReachableIsSafe(s);
    StepSafe(s, Go);
  }
}
