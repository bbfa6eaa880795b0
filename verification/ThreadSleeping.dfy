/**
 Sleeping until somebody else ends it: which actions take a thread out of a wait
 queue, and that thread_sleep, thread_wait and cv_wait come back only after one.
 */
module ThreadSleeping {
  import opened Seqs
  import opened ThreadKernel
  import opened ThreadInvariant
  import opened ThreadMachine
  import opened ThreadSafety
  import opened ThreadEffects
  import opened ThreadStacks
  import opened ThreadTheorems

  // ---- who takes a sleeper out of its queue -------------------------------------

  /**
   What can wake t in wait queue q. In the queue of a thread: its exit, or a
   thread_kill of t that finds it there. In the queue of a lock: a release, in
   lock_release or in cv_wait. In any other: a wakeup, or a signal or broadcast by
   the holder of some lock.
   */
  predicate Wakes(s: Sys, a: Action, t: Tid, q: int)
    requires Sized(s)
  {
    if q <= THREAD_MAX_THREADS then
      || (a == Go && q == WaitQueueOf(s.k.current) && Top(s).Push? && Top(s).top.ExitCall?)
      || (a == CallKill(t) && ValidTid(t) && q == WaitQueueOf(s.k.slots[t].waitingOn))
    else if q < LockQueue(|s.locks|) then
      || (a.CallRelease? && q == LockQueue(a.lock))
      || (a.CallCvWait? && q == LockQueue(a.lock) && a.lock < |s.locks| && HoldsLock(s, a.lock))
    else
      || (a.CallWakeup? && a.queue == q)
      || (a.CallCvSignal? && a.queue == q && a.lock < |s.locks| && HoldsLock(s, a.lock))
  }

  predicate EmptiesEffect(k: Kernel, e: Effect, q: int) {
    (e.WakeFrom? && e.queue == q) || (e.ExitWith? && q == WaitQueueOf(k.current))
  }

  lemma WakeLeaves(k: Kernel, q: int, all: bool, q': int)
    requires Inv(k) && Alive(Cur(k).state) && IsWaitQueue(k, q) && IsWaitQueue(k, q') && q != q'
    ensures |Wakeup(k, q, all).queues| == |k.queues| && Wakeup(k, q, all).queues[q'] == k.queues[q']
  {
    if all {
      WakeAllInv(k, q);
    } else {
      WakeOneInv(k, q);
    }
  }

  lemma ExitLeaves(k: Kernel, code: int, q: int)
    requires Inv(k) && Alive(Cur(k).state) && IsWaitQueue(k, q) && q != WaitQueueOf(k.current)
    ensures |Exit(k, code).queues| == |k.queues| && Exit(k, code).queues[q] == k.queues[q]
  {
    ExitIs(k, code);
    WakeLeaves(k, WaitQueueOf(k.current), true, q);
  }

  lemma SwitchLeaves(k: Kernel, to: Tid, q: int)
    requires Inv(k) && to in k.queues[READY_QUEUE] && Cur(k).state != Killed && IsWaitQueue(k, q)
    ensures |SwitchTo(k, to).queues| == |k.queues| && SwitchTo(k, to).queues[q] == k.queues[q]
  {
    SwitchToQueues(k, to);
  }

  lemma CreateLeaves(k: Kernel, memory: bool, q: int)
    requires Inv(k) && IsWaitQueue(k, q)
    ensures |Create(k, memory).0.queues| == |k.queues| && Create(k, memory).0.queues[q] == k.queues[q]
  {
    var i := FirstFree(k.slots, 0);
    if i < THREAD_MAX_THREADS {
      assert SlotOk(k, i);
    }
  }

  /** thread_kill takes its target out of the queue its note names, and nobody else out of any. */
  lemma KillLeaves(k: Kernel, tid: Tid, q: int, t: Tid)
    requires Inv(k) && Kill(k, tid).KillDone? && IsWaitQueue(k, q) && t in k.queues[q]
    ensures |Kill(k, tid).k.queues| == |k.queues|
    ensures t in Kill(k, tid).k.queues[q] ||
            (t == tid && q == WaitQueueOf(k.slots[tid].waitingOn) && q <= THREAD_MAX_THREADS)
  {
    if k.slots[tid].state == Sleeping {
      KillSleeperIs(k, tid);
      RemoveFacts(k.queues[WaitQueueOf(k.slots[tid].waitingOn)], tid);
    }
  }

  lemma QuietLeaves(k: Kernel, e: Effect, q: int, t: Tid)
    requires Inv(k) && Fits(k, e) && IsWaitQueue(k, q) && t in k.queues[q]
    requires e.Keep? || e.SleepIn? || e.TakeStatus? || e.SleepForExit? || e.WaiterResumes?
    ensures |Apply(k, e).queues| == |k.queues| && t in Apply(k, e).queues[q]
  {
  }

  lemma EffectLeaves(k: Kernel, e: Effect, q: int, t: Tid)
    requires Inv(k) && Fits(k, e) && IsWaitQueue(k, q) && t in k.queues[q] && !EmptiesEffect(k, e, q)
    ensures |Apply(k, e).queues| == |k.queues|
    ensures t in Apply(k, e).queues[q] ||
            (e == KillThread(t) && q == WaitQueueOf(k.slots[t].waitingOn) && q <= THREAD_MAX_THREADS)
  {
    match e
    case Switch(to, _) => SwitchLeaves(k, to, q);
    case ReapZombie => ReapInv(k);
    case ExitWith(code) => ExitLeaves(k, code, q);
    case WakeFrom(q', all) => WakeLeaves(k, q', all, q);
    case NewThread(memory) => CreateLeaves(k, memory, q);
    case KillThread(tid) => KillLeaves(k, tid, q, t);
    case _ => QuietLeaves(k, e, q, t);
  }

  lemma EffectWakes(s: Sys, a: Action, t: Tid, q: int)
    requires Safe(s) && Legal(s, a) && EmptiesEffect(s.k, EffectOf(s, a), q)
    ensures Wakes(s, a, t, q)
  {
  }

  lemma EffectKills(s: Sys, a: Action, t: Tid)
    requires Safe(s) && Legal(s, a) && EffectOf(s, a) == KillThread(t)
    ensures a == CallKill(t)
  {
  }

  lemma LeavesWoken(s: Sys, a: Action, q: int, t: Tid)
    requires Safe(s) && Legal(s, a) && IsWaitQueue(s.k, q) && t in s.k.queues[q]
    requires !EmptiesEffect(s.k, EffectOf(s, a), q)
    ensures IsWaitQueue(Next(s, a).k, q)
    ensures t in Next(s, a).k.queues[q] || Wakes(s, a, t, q)
  {
    EffectIs(s, a);
    EffectLeaves(s.k, EffectOf(s, a), q, t);
    if EffectOf(s, a) == KillThread(t) {
      EffectKills(s, a, t);
    }
  }

  /** A sleeper stays in its queue until one of these actions. */
  lemma SleepsUntil(s: Sys, a: Action, q: int, t: Tid)
    requires Safe(s) && Legal(s, a) && IsWaitQueue(s.k, q) && t in s.k.queues[q]
    ensures ValidTid(t) && s.k.slots[t].state == Sleeping
    ensures IsWaitQueue(Next(s, a).k, q)
    ensures t in Next(s, a).k.queues[q] || Wakes(s, a, t, q)
  {
    if EmptiesEffect(s.k, EffectOf(s, a), q) {
      EffectWakes(s, a, t, q);
      QueueCountKept(s, a);
    } else {
      LeavesWoken(s, a, q, t);
    }
  }

  lemma QueueCountKept(s: Sys, a: Action)
    requires Safe(s) && Legal(s, a)
    ensures |Next(s, a).k.queues| == |s.k.queues|
  {
    EffectIs(s, a);
    QueuesKept(s.k, EffectOf(s, a));
  }

  lemma QueuesKept(k: Kernel, e: Effect)
    requires Inv(k) && Fits(k, e)
    ensures |Apply(k, e).queues| == |k.queues|
  {
    match e
    case Switch(to, _) => SwitchToQueues(k, to);
    case ReapZombie => ReapInv(k);
    case ExitWith(code) => ExitIs(k, code); WakeAllInv(k, WaitQueueOf(k.current));
    case WakeFrom(q, all) => if all { WakeAllInv(k, q); } else { WakeOneInv(k, q); }
    case _ =>
  }

  // ---- coming back ------------------------------------------------------------------

  /** At some step of the run t, asleep in q, is taken out of q by an action that can wake it. */
  ghost predicate WokenDuring(s: Sys, acts: seq<Action>, t: Tid, q: int)
    requires IsRun(s, acts)
    decreases |acts|
  {
    acts != [] && (WokenBy(s, acts[0], t, q) || WokenDuring(Next(s, acts[0]), acts[1..], t, q))
  }

  ghost predicate WokenBy(s: Sys, a: Action, t: Tid, q: int)
    requires Legal(s, a)
  {
    && ValidTid(t) && s.k.slots[t].state == Sleeping
    && IsWaitQueue(s.k, q) && t in s.k.queues[q]
    && IsWaitQueue(Next(s, a).k, q) && t !in Next(s, a).k.queues[q]
    && Wakes(s, a, t, q)
  }

  predicate InUserCode(s: Sys, t: Tid) {
    Sized(s) && s.k.current == t && Top(s).Push? && Top(s).top.User?
  }

  lemma SleeperNotInUserCode(s: Sys, t: Tid, q: int)
    requires Safe(s) && IsWaitQueue(s.k, q) && t in s.k.queues[q]
    ensures !InUserCode(s, t)
  {
  }

  /** A thread that sleeps in q is back in user code only after it was woken there. */
  lemma {:induction false} SleeperComesBackWoken(s: Sys, acts: seq<Action>, t: Tid, q: int)
    requires Safe(s) && IsRun(s, acts) && IsWaitQueue(s.k, q) && t in s.k.queues[q]
    requires InUserCode(After(s, acts), t)
    ensures WokenDuring(s, acts, t, q)
    decreases |acts|
  {
    SleeperNotInUserCode(s, t, q);
    var s1 := Next(s, acts[0]);
    StepSafe(s, acts[0]);
    SleepsUntil(s, acts[0], q, t);
    if t in s1.k.queues[q] {
      SleeperComesBackWoken(s1, acts[1..], t, q);
    } else {
      assert WokenBy(s, acts[0], t, q);
    }
  }

  lemma SleepsAfterCall(s: Sys, q: int)
    requires Safe(s) && Legal(s, CallSleep(q)) && s.k.existing != 1
    ensures IsWaitQueue(Next(s, CallSleep(q)).k, q) && s.k.current in Next(s, CallSleep(q)).k.queues[q]
  {
  }

  /** thread_sleep(q), with others to run, comes back only after a wakeup, or a holder's signal, of q took it out. */
  lemma SleepReturnsWoken(s: Sys, q: int, acts: seq<Action>)
    requires Reachable(s) && Legal(s, CallSleep(q)) && s.k.existing != 1
    requires IsRun(Next(s, CallSleep(q)), acts) && InUserCode(After(Next(s, CallSleep(q)), acts), s.k.current)
    ensures WokenDuring(Next(s, CallSleep(q)), acts, s.k.current, q)
  {
    ReachableIsSafe(s);
    StepSafe(s, CallSleep(q));
    SleepsAfterCall(s, q);
    SleeperComesBackWoken(Next(s, CallSleep(q)), acts, s.k.current, q);
  }

  lemma WaitsAfterCall(s: Sys, x: Tid, ptr: bool)
    requires Safe(s) && Legal(s, CallWait(x, ptr)) && s.k.existing != 1
    requires ValidTid(x) && x != s.k.current && s.k.slots[x].state !in {Exited, Uninitialized}
    ensures IsWaitQueue(Next(s, CallWait(x, ptr)).k, WaitQueueOf(x))
    ensures s.k.current in Next(s, CallWait(x, ptr)).k.queues[WaitQueueOf(x)]
  {
  }

  /** thread_wait on a live thread, with others to run, comes back only after its exit, or a kill of the caller. */
  lemma WaitReturnsWoken(s: Sys, x: Tid, ptr: bool, acts: seq<Action>)
    requires Reachable(s) && Legal(s, CallWait(x, ptr)) && s.k.existing != 1
    requires ValidTid(x) && x != s.k.current && s.k.slots[x].state !in {Exited, Uninitialized}
    requires IsRun(Next(s, CallWait(x, ptr)), acts) && InUserCode(After(Next(s, CallWait(x, ptr)), acts), s.k.current)
    ensures WokenDuring(Next(s, CallWait(x, ptr)), acts, s.k.current, WaitQueueOf(x))
  {
    ReachableIsSafe(s);
    StepSafe(s, CallWait(x, ptr));
    WaitsAfterCall(s, x, ptr);
    SleeperComesBackWoken(Next(s, CallWait(x, ptr)), acts, s.k.current, WaitQueueOf(x));
  }

  // ---- cv_wait -------------------------------------------------------------------------

  /** The stack holds a cv_wait that is still to sleep in q. */
  predicate BoundToSleep(st: Stack, q: int) {
    st.Push? && ((st.top.CvSleep? && st.top.queue == q) || BoundToSleep(st.below, q))
  }

  lemma {:induction false} AboveBound(st: Stack, base: Stack, q: int)
    requires Above(st, base) && BoundToSleep(base, q)
    ensures BoundToSleep(st, q)
  {
    if st != base {
      AboveBound(st.below, base, q);
    }
  }

  /** t comes to its sleep in q and nobody else can run, so thread_sleep returns at once. */
  predicate TooLonely(s: Sys, a: Action, t: Tid, q: int)
    requires Sized(s)
  {
    && s.k.current == t && s.k.existing == 1
    && a == Go && Top(s).Push? && Top(s).top.CvSleep? && Top(s).top.queue == q
  }

  predicate LonelyDuring(s: Sys, acts: seq<Action>, t: Tid, q: int)
    requires IsRun(s, acts)
    decreases |acts|
  {
    acts != [] && (TooLonely(s, acts[0], t, q) || LonelyDuring(Next(s, acts[0]), acts[1..], t, q))
  }

  lemma CvSleepStep(s: Sys, q: int)
    requires Safe(s) && Legal(s, Go) && Top(s).top.CvSleep? && Top(s).top.queue == q
    ensures s.k.existing != 1 ==> IsWaitQueue(Next(s, Go).k, q) && s.k.current in Next(s, Go).k.queues[q]
  {
  }

  lemma BoundIsNotUser(s: Sys, q: int)
    requires Safe(s) && BoundToSleep(Top(s), q)
    ensures !Top(s).top.User? && !Top(s).top.Start?
  {
  }

  /** A thread bound to sleep in q stays so until it sleeps there, or finds itself alone. */
  lemma BoundStep(s: Sys, a: Action, t: Tid, q: int)
    requires Safe(s) && Legal(s, a) && ValidTid(t) && Lives(s, t) && BoundToSleep(s.conts[t], q)
    ensures Safe(Next(s, a))
    ensures || BoundToSleep(Next(s, a).conts[t], q)
            || TooLonely(s, a, t, q)
            || (IsWaitQueue(Next(s, a).k, q) && t in Next(s, a).k.queues[q])
  {
    StepSafe(s, a);
    if t != s.k.current {
      OthersKeepStack(s, a, t);
    } else {
      BoundIsNotUser(s, q);
      if a.Tick? {
        TickKeepsStack(s, a);
        AboveBound(Next(s, a).conts[t], Top(s), q);
      } else if Top(s).top.CvSleep? && Top(s).top.queue == q {
        CvSleepStep(s, q);
      } else {
        OwnStackKept(s, a);
        AboveBound(Next(s, a).conts[t], Top(s).below, q);
      }
    }
  }

  /** A thread inside cv_wait before its sleep is back in user code only after it slept in q and was woken. */
  lemma {:induction false} BoundComesBackWoken(s: Sys, acts: seq<Action>, t: Tid, q: int)
    requires Safe(s) && IsRun(s, acts) && ValidTid(t) && BoundToSleep(s.conts[t], q)
    requires LivesThrough(s, acts, t, (a: Action) => false) && InUserCode(After(s, acts), t)
    ensures WokenDuring(s, acts, t, q) || LonelyDuring(s, acts, t, q)
    decreases |acts|
  {
    if acts == [] {
      BoundIsNotUser(s, q);
      assert false;
    } else {
      var s1 := Next(s, acts[0]);
      BoundStep(s, acts[0], t, q);
      if BoundToSleep(s1.conts[t], q) {
        BoundComesBackWoken(s1, acts[1..], t, q);
      } else if IsWaitQueue(s1.k, q) && t in s1.k.queues[q] {
        SleeperComesBackWoken(s1, acts[1..], t, q);
      }
    }
  }

  /**
   cv_wait waits: its caller is back in user code only after it slept in the
   condition's queue and a wakeup of that queue, or a signal or broadcast by the
   holder of a lock, took it out; or if nobody else could run when it came to
   sleep.
   */
  lemma CvWaitWaits(s: Sys, q: int, l: nat, acts: seq<Action>)
    requires Reachable(s) && Legal(s, CallCvWait(q, l)) && HoldsLock(s, l)
    requires IsRun(Next(s, CallCvWait(q, l)), acts) && ValidTid(s.k.current)
    requires LivesThrough(Next(s, CallCvWait(q, l)), acts, s.k.current, (a: Action) => false)
    requires InUserCode(After(Next(s, CallCvWait(q, l)), acts), s.k.current)
    ensures WokenDuring(Next(s, CallCvWait(q, l)), acts, s.k.current, q)
         || LonelyDuring(Next(s, CallCvWait(q, l)), acts, s.k.current, q)
  {
    ReachableIsSafe(s);
    StepSafe(s, CallCvWait(q, l));
    BoundComesBackWoken(Next(s, CallCvWait(q, l)), acts, s.k.current, q);
  }
}
