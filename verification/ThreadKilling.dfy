/**
 Which sleeping threads thread_kill can wake: it looks for its target in the
 queue of the thread that the target's waiting_on names. When waiting_on is -1
 or names a slot without a queue it strays outside the table or into freed
 memory (line 263 of thread.c); when the target is not in the queue the
 assertion in the next line fails.
 */
module ThreadKilling {
  import opened Seqs
  import opened ThreadKernel
  import opened ThreadInvariant
  import opened ThreadMachine
  import opened ThreadSafety
  import opened ThreadEffects
  import opened ThreadTheorems

  predicate WaitsOn(k: Kernel, t: Tid, x: Tid)
    requires Shape(k)
  {
    ValidTid(x) && t in k.queues[WaitQueueOf(x)]
  }

  /** A thread asleep in thread_wait has a note of its target, or lost it. */
  ghost predicate NotesOk(k: Kernel)
    requires Shape(k)
  {
    forall t, x :: ValidTid(t) && WaitsOn(k, t, x) ==> k.slots[t].waitingOn == x || k.slots[t].waitingOn == -1
  }

  // ---- what a step does to the note of a waiting thread ---------------------------

  /** A waiter that resumes after t and is refused clears t's note instead of its own. */
  predicate ClearsNote(k: Kernel, e: Effect, t: Tid)
    requires Shape(k) && ValidTid(t)
  {
    e == WaiterResumes(t) && WaitOutcome(k, t) == AlreadyTaken
  }

  /** Sleeping in a lock, a condition variable or a user's queue. */
  predicate SleepsElsewhere(e: Effect) {
    e.SleepIn? ==> e.queue > THREAD_MAX_THREADS
  }

  lemma SleepEffects(s: Sys, a: Action)
    requires Safe(s) && Legal(s, a)
    ensures SleepsElsewhere(EffectOf(s, a))
  {
  }

  /** The current thread goes to sleep in thread_wait(x). */
  predicate Joins(k: Kernel, e: Effect, t: Tid, x: Tid)
    requires Shape(k)
  {
    e == SleepForExit(x) && t == k.current && CanSleep(k)
  }

  /** t was waiting on x before as well, and its note is what it was unless it was cleared. */
  ghost predicate KeptNote(k: Kernel, e: Effect, k': Kernel, t: Tid, x: Tid)
    requires Shape(k) && Shape(k') && ValidTid(t)
  {
    && WaitsOn(k, t, x)
    && k'.slots[t].waitingOn == if ClearsNote(k, e, t) then -1 else k.slots[t].waitingOn
  }

  lemma WakeKeepsNote(k: Kernel, q: int, all: bool, t: Tid, x: Tid)
    requires Inv(k) && IsWaitQueue(k, q) && Cur(k).state != Sleeping && ValidTid(t)
    requires Shape(Wakeup(k, q, all)) && WaitsOn(Wakeup(k, q, all), t, x)
    ensures WaitsOn(k, t, x) && Wakeup(k, q, all).slots[t].waitingOn == k.slots[t].waitingOn
  {
    if all {
      WakeAllInv(k, q);
    } else {
      WakeOneInv(k, q);
      if k.queues[q] != [] {
        WakeOneTail(k, q);
      }
    }
  }

  lemma ExitKeepsNote(k: Kernel, code: int, t: Tid, x: Tid)
    requires Inv(k) && Alive(Cur(k).state) && ValidTid(t)
    requires Shape(Exit(k, code)) && WaitsOn(Exit(k, code), t, x)
    ensures WaitsOn(k, t, x) && Exit(k, code).slots[t].waitingOn == k.slots[t].waitingOn
  {
    ExitIs(k, code);
    WakeKeepsNote(k, WaitQueueOf(k.current), true, t, x);
  }

  lemma SwitchKeepsNote(k: Kernel, to: Tid, t: Tid, x: Tid)
    requires Inv(k) && to in k.queues[READY_QUEUE] && Cur(k).state != Killed && ValidTid(t)
    requires Shape(SwitchTo(k, to)) && WaitsOn(SwitchTo(k, to), t, x)
    ensures WaitsOn(k, t, x) && SwitchTo(k, to).slots[t].waitingOn == k.slots[t].waitingOn
  {
    SwitchToQueues(k, to);
    SwitchToSlots(k, to);
  }

  lemma KillKeepsNote(k: Kernel, tid: Tid, t: Tid, x: Tid)
    requires Inv(k) && Kill(k, tid).KillDone? && ValidTid(t)
    requires Shape(Kill(k, tid).k) && WaitsOn(Kill(k, tid).k, t, x)
    ensures WaitsOn(k, t, x) && Kill(k, tid).k.slots[t].waitingOn == k.slots[t].waitingOn
  {
    if k.slots[tid].state == Sleeping {
      KillSleeperIs(k, tid);
      RemoveFacts(k.queues[WaitQueueOf(k.slots[tid].waitingOn)], tid);
    }
  }

  lemma CreateKeepsNote(k: Kernel, memory: bool, t: Tid, x: Tid)
    requires Inv(k) && Alive(Cur(k).state) && ValidTid(t)
    requires Shape(Create(k, memory).0) && WaitsOn(Create(k, memory).0, t, x)
    ensures WaitsOn(k, t, x) && Create(k, memory).0.slots[t].waitingOn == k.slots[t].waitingOn
  {
    var i := FirstFree(k.slots, 0);
    if memory && k.existing < THREAD_MAX_THREADS && i < THREAD_MAX_THREADS {
      SetUpQueues(k, i);
      assert SlotOk(k, i);
      assert k.slots[t].state == Sleeping;
    }
  }

  lemma SleepInKeepsNote(k: Kernel, q: int, t: Tid, x: Tid)
    requires Inv(k) && Fits(k, SleepIn(q)) && q > THREAD_MAX_THREADS && ValidTid(t)
    requires Shape(Apply(k, SleepIn(q))) && WaitsOn(Apply(k, SleepIn(q)), t, x)
    ensures KeptNote(k, SleepIn(q), Apply(k, SleepIn(q)), t, x)
  {
  }

  lemma SleepForExitNote(k: Kernel, tid: Tid, t: Tid, x: Tid)
    requires Inv(k) && Fits(k, SleepForExit(tid)) && ValidTid(t)
    requires Shape(Apply(k, SleepForExit(tid))) && WaitsOn(Apply(k, SleepForExit(tid)), t, x)
    ensures Joins(k, SleepForExit(tid), t, x) ==> Apply(k, SleepForExit(tid)).slots[t].waitingOn == x
    ensures !Joins(k, SleepForExit(tid), t, x) ==> KeptNote(k, SleepForExit(tid), Apply(k, SleepForExit(tid)), t, x)
  {
    assert t == k.current ==> !WaitsOn(k, t, x);
  }

  lemma QuietKeepsNote(k: Kernel, e: Effect, t: Tid, x: Tid)
    requires Inv(k) && Fits(k, e) && ValidTid(t)
    requires e.TakeStatus? || e.WaiterResumes? || e.ReapZombie? || e.Keep?
    requires Shape(Apply(k, e)) && WaitsOn(Apply(k, e), t, x)
    ensures KeptNote(k, e, Apply(k, e), t, x)
  {
    if e.ReapZombie? {
      ReapInv(k);
    }
  }

  /** Every effect: t's note is written when it goes to sleep, and otherwise only cleared. */
  lemma NoteAfter(k: Kernel, e: Effect, t: Tid, x: Tid)
    requires Inv(k) && Fits(k, e) && SleepsElsewhere(e) && ValidTid(t)
    requires Shape(Apply(k, e)) && WaitsOn(Apply(k, e), t, x)
    ensures Joins(k, e, t, x) ==> Apply(k, e).slots[t].waitingOn == x
    ensures !Joins(k, e, t, x) ==> KeptNote(k, e, Apply(k, e), t, x)
  {
    match e
    case Switch(to, _) => SwitchKeepsNote(k, to, t, x);
    case ExitWith(code) => ExitKeepsNote(k, code, t, x);
    case WakeFrom(q, all) => WakeKeepsNote(k, q, all, t, x);
    case NewThread(memory) => CreateKeepsNote(k, memory, t, x);
    case KillThread(tid) => KillKeepsNote(k, tid, t, x);
    case SleepIn(q) => SleepInKeepsNote(k, q, t, x);
    case SleepForExit(tid) => SleepForExitNote(k, tid, t, x);
    case _ => QuietKeepsNote(k, e, t, x);
  }

  lemma StepNote(s: Sys, a: Action, t: Tid, x: Tid)
    requires Safe(s) && Legal(s, a) && ValidTid(t)
    requires Shape(Next(s, a).k) && WaitsOn(Next(s, a).k, t, x)
    ensures Joins(s.k, EffectOf(s, a), t, x) ==> Next(s, a).k.slots[t].waitingOn == x
    ensures !Joins(s.k, EffectOf(s, a), t, x) ==> KeptNote(s.k, EffectOf(s, a), Next(s, a).k, t, x)
  {
    EffectIs(s, a);
    SleepEffects(s, a);
    NoteAfter(s.k, EffectOf(s, a), t, x);
  }

  // ---- notes stay in range -----------------------------------------------------------

  ghost predicate NotesInRange(k: Kernel)
    requires Shape(k)
  {
    forall t :: ValidTid(t) ==> k.slots[t].waitingOn == -1 || ValidTid(k.slots[t].waitingOn)
  }

  /** The thread table at most loses notes. */
  ghost predicate NotesKept(k: Kernel, k': Kernel)
    requires Shape(k) && Shape(k')
  {
    forall t :: ValidTid(t) ==> k'.slots[t].waitingOn == k.slots[t].waitingOn || k'.slots[t].waitingOn == -1
  }

  lemma RunsKeepNotes(k: Kernel, e: Effect)
    requires Inv(k) && Fits(k, e) && (e.Switch? || e.ReapZombie? || e.ExitWith? || e.WakeFrom?)
    ensures Shape(Apply(k, e)) && NotesKept(k, Apply(k, e))
  {
    match e
    case Switch(to, _) => SwitchToInv(k, to); SwitchToSlots(k, to);
    case ReapZombie => ReapInv(k);
    case ExitWith(code) => ExitIs(k, code); WakeAllInv(k, WaitQueueOf(k.current));
    case WakeFrom(q, all) => if all { WakeAllInv(k, q); } else { WakeOneInv(k, q); }
  }

  lemma CreateKeepsNotes(k: Kernel, memory: bool)
    requires Shape(k)
    ensures Shape(Create(k, memory).0) && NotesKept(k, Create(k, memory).0)
  {
  }

  lemma KillKeepsNotes(k: Kernel, tid: Tid)
    requires Shape(k) && Kill(k, tid).KillDone?
    ensures Shape(Kill(k, tid).k) && NotesKept(k, Kill(k, tid).k)
  {
  }

  lemma SleepsKeepNotes(k: Kernel, e: Effect)
    requires Inv(k) && Fits(k, e) && (e.SleepIn? || e.WaiterResumes?)
    ensures Shape(Apply(k, e)) && NotesKept(k, Apply(k, e))
  {
  }

  lemma EffectNotesInRange(k: Kernel, e: Effect)
    requires Inv(k) && Fits(k, e) && NotesInRange(k)
    ensures Shape(Apply(k, e)) && NotesInRange(Apply(k, e))
  {
    if e.Switch? || e.ReapZombie? || e.ExitWith? || e.WakeFrom? {
      RunsKeepNotes(k, e);
    } else if e.NewThread? {
      CreateKeepsNotes(k, e.memory);
    } else if e.KillThread? {
      KillKeepsNotes(k, e.tid);
    } else if e.SleepIn? || e.WaiterResumes? {
      SleepsKeepNotes(k, e);
    }
  }

  lemma StepInRange(s: Sys, a: Action)
    requires Safe(s) && Legal(s, a) && NotesInRange(s.k)
    ensures Shape(Next(s, a).k) && NotesInRange(Next(s, a).k)
  {
    EffectIs(s, a);
    EffectNotesInRange(s.k, EffectOf(s, a));
  }

  lemma StepNotes(s: Sys, a: Action)
    requires Safe(s) && Legal(s, a) && NotesOk(s.k)
    ensures Shape(Next(s, a).k) && NotesOk(Next(s, a).k)
  {
    StepSafe(s, a);
    forall t, x | ValidTid(t) && WaitsOn(Next(s, a).k, t, x)
      ensures Next(s, a).k.slots[t].waitingOn == x || Next(s, a).k.slots[t].waitingOn == -1
    {
      StepNote(s, a, t, x);
    }
  }

  lemma {:induction false} RunNotes(s: Sys, acts: seq<Action>)
    requires Safe(s) && NotesOk(s.k) && NotesInRange(s.k) && IsRun(s, acts)
    ensures Shape(After(s, acts).k) && NotesOk(After(s, acts).k) && NotesInRange(After(s, acts).k)
    decreases |acts|
  {
    if acts != [] {
      StepSafe(s, acts[0]);
      StepNotes(s, acts[0]);
      StepInRange(s, acts[0]);
      RunNotes(Next(s, acts[0]), acts[1..]);
    }
  }

  lemma ReachableNotes(s: Sys)
    requires Reachable(s)
    ensures Safe(s) && NotesOk(s.k) && NotesInRange(s.k)
  {
    var nLocks: nat, nQueues: nat, acts :|
      IsRun(Init(nLocks, nQueues), acts) && s == After(Init(nLocks, nQueues), acts);
    InitSafe(nLocks, nQueues);
    RunSafe(Init(nLocks, nQueues), acts);
    RunNotes(Init(nLocks, nQueues), acts);
  }

  // ---- when thread_kill crashes ---------------------------------------------------

  /** What thread_kill does to a sleeper, by its note. */
  lemma KillByNote(k: Kernel, t: Tid)
    requires Shape(k) && ValidTid(t) && t != k.current && k.slots[t].state == Sleeping
    ensures var w := k.slots[t].waitingOn;
            && (Kill(k, t) == KillStrays <==> !HasQueue(k, w))
            && (Kill(k, t) == KillAsserts <==> HasQueue(k, w) && !WaitsOn(k, t, w))
            && (Kill(k, t).KillDone? <==> HasQueue(k, w) && WaitsOn(k, t, w))
  {
  }

  lemma OnlySleepersCrash(k: Kernel, t: Tid)
    requires Shape(k)
    ensures KillCrashes(Kill(k, t)) ==> ValidTid(t) && t != k.current && k.slots[t].state == Sleeping
  {
  }

  lemma WaitedOnHasQueue(k: Kernel, t: Tid, x: Tid)
    requires Inv(k) && WaitsOn(k, t, x)
    ensures HasQueue(k, x)
  {
    assert SlotOk(k, x);
  }

  /**
   thread_kill crashes exactly when its target sleeps, and either not in
   thread_wait or with its note cleared: for a cleared note, or one that names a
   slot without a queue, by a stray access; otherwise by the assertion.
   */
  lemma KillCrashesIff(s: Sys, t: Tid)
    requires Reachable(s) && Sized(s) && ValidTid(t) && t != s.k.current
    ensures var w := s.k.slots[t].waitingOn;
            && (w == -1 || ValidTid(w))
            && (KillCrashes(Kill(s.k, t)) <==>
                  s.k.slots[t].state == Sleeping && ((forall x :: !WaitsOn(s.k, t, x)) || w == -1))
            && (Kill(s.k, t) == KillStrays <==>
                  s.k.slots[t].state == Sleeping && (w == -1 || s.k.slots[w].state == Uninitialized))
            && (Kill(s.k, t) == KillAsserts <==>
                  s.k.slots[t].state == Sleeping && w != -1 && s.k.slots[w].state != Uninitialized
                  && t !in s.k.queues[WaitQueueOf(w)])
  {
    ReachableNotes(s);
    OnlySleepersCrash(s.k, t);
    if s.k.slots[t].state == Sleeping {
      KillByNote(s.k, t);
      var w := s.k.slots[t].waitingOn;
      if WaitsOn(s.k, t, w) {
        WaitedOnHasQueue(s.k, t, w);
      }
    }
  }

  /** So it crashes on every thread that sleeps in a lock, a condition variable or a user's queue. */
  lemma SleeperElsewhereCrashesKill(s: Sys, q: int, t: Tid)
    requires Reachable(s) && Sized(s) && THREAD_MAX_THREADS < q < |s.k.queues| && t in s.k.queues[q]
    requires t != s.k.current
    ensures KillCrashes(Kill(s.k, t))
  {
    ReachableNotes(s);
    SleepsOnlyThere(s.k, q, t);
    KillByNote(s.k, t);
  }

  lemma SleepsOnlyThere(k: Kernel, q: int, t: Tid)
    requires Inv(k) && THREAD_MAX_THREADS < q < |k.queues| && t in k.queues[q]
    ensures ValidTid(t) && k.slots[t].state == Sleeping && forall x :: !WaitsOn(k, t, x)
  {
  }

  // ---- every way to crash --------------------------------------------------------------

  /** thread_wait of a zombie with no place for its status. */
  predicate NullWait(k: Kernel, tid: Tid, ptr: bool)
    requires Shape(k)
  {
    !ptr && ValidTid(tid) && tid != k.current && k.slots[tid].state == Exited
  }

  /** thread_kill of a sleeper that is not in thread_wait, or whose note was cleared. */
  ghost predicate StrayKill(k: Kernel, tid: Tid)
    requires Shape(k)
  {
    && ValidTid(tid) && tid != k.current && k.slots[tid].state == Sleeping
    && ((forall x :: !WaitsOn(k, tid, x)) || k.slots[tid].waitingOn == -1)
  }

  lemma OnlyKillAndWaitCrash(s: Sys, a: Action)
    requires Legal(s, a)
    ensures Next(s, a).status == Crashed <==>
              || (a.CallKill? && KillCrashes(Kill(s.k, a.tid)))
              || (a.CallWait? && WaitTest(s.k, a.tid, a.ptr) == WaitNullDereference)
  {
  }

  /** These are the only steps that crash; the zombie is the thread that ran just before. */
  lemma CrashIff(s: Sys, a: Action)
    requires Reachable(s) && Legal(s, a)
    ensures Next(s, a).status == Crashed <==>
              || (a.CallKill? && StrayKill(s.k, a.tid))
              || (a.CallWait? && NullWait(s.k, a.tid, a.ptr))
    ensures a.CallWait? && NullWait(s.k, a.tid, a.ptr) ==> a.tid == s.k.prev
  {
    OnlyKillAndWaitCrash(s, a);
    if a.CallKill? {
      OnlySleepersCrash(s.k, a.tid);
      if ValidTid(a.tid) && a.tid != s.k.current {
        KillCrashesIff(s, a.tid);
      }
    } else if a.CallWait? && NullWait(s.k, a.tid, a.ptr) {
      ZombieRanJustBefore(s, a.tid);
    }
  }

  // ---- the history of a waiter ------------------------------------------------------

  /** In every state of the run t is asleep in thread_wait(x). */
  ghost predicate StillWaits(s: Sys, acts: seq<Action>, t: Tid, x: Tid)
    requires IsRun(s, acts)
    decreases |acts|
  {
    && Shape(s.k) && WaitsOn(s.k, t, x)
    && (acts == [] || StillWaits(Next(s, acts[0]), acts[1..], t, x))
  }

  /** Somewhere in the run a waiter on t resumes and is refused. */
  predicate RefusedDuring(s: Sys, acts: seq<Action>, t: Tid)
    requires IsRun(s, acts) && ValidTid(t)
    decreases |acts|
  {
    acts != [] && (ClearsNote(s.k, EffectOf(s, acts[0]), t) || RefusedDuring(Next(s, acts[0]), acts[1..], t))
  }

  lemma SleeperDoesNotJoin(s: Sys, a: Action, t: Tid, x: Tid)
    requires Safe(s) && Legal(s, a) && ValidTid(t) && WaitsOn(s.k, t, x)
    ensures !Joins(s.k, EffectOf(s, a), t, x)
  {
    EffectFits(s, a);
    assert s.k.slots[t].state == Sleeping;
  }

  /** One step during which t sleeps on in thread_wait(x). */
  lemma NoteStep(s: Sys, a: Action, t: Tid, x: Tid)
    requires Safe(s) && Legal(s, a) && ValidTid(t) && WaitsOn(s.k, t, x)
    requires Shape(Next(s, a).k) && WaitsOn(Next(s, a).k, t, x)
    ensures Next(s, a).k.slots[t].waitingOn == if ClearsNote(s.k, EffectOf(s, a), t) then -1 else s.k.slots[t].waitingOn
  {
    SleeperDoesNotJoin(s, a, t, x);
    StepNote(s, a, t, x);
  }

  lemma {:induction false} NoteOverRun(s: Sys, acts: seq<Action>, t: Tid, x: Tid)
    requires Safe(s) && IsRun(s, acts) && ValidTid(t) && StillWaits(s, acts, t, x)
    ensures Shape(After(s, acts).k) && WaitsOn(After(s, acts).k, t, x)
    ensures After(s, acts).k.slots[t].waitingOn ==
            if RefusedDuring(s, acts, t) then -1 else s.k.slots[t].waitingOn
    decreases |acts|
  {
    if acts != [] {
      assert StillWaits(Next(s, acts[0]), acts[1..], t, x);
      StepSafe(s, acts[0]);
      NoteStep(s, acts[0], t, x);
      NoteOverRun(Next(s, acts[0]), acts[1..], t, x);
    }
  }

  lemma WaitWritesNote(s: Sys, x: Tid, ptr: bool)
    requires Safe(s) && Legal(s, CallWait(x, ptr)) && WaitTest(s.k, x, ptr) == WaitSleeps && CanSleep(s.k)
    ensures ValidTid(x) && ValidTid(s.k.current)
    ensures Shape(Next(s, CallWait(x, ptr)).k) && WaitsOn(Next(s, CallWait(x, ptr)).k, s.k.current, x)
    ensures Next(s, CallWait(x, ptr)).k.slots[s.k.current].waitingOn == x
  {
  }

  lemma RunKeepsSafe(s: Sys, a: Action, acts: seq<Action>)
    requires Safe(s) && Legal(s, a) && IsRun(Next(s, a), acts)
    ensures Safe(Next(s, a)) && Safe(After(Next(s, a), acts))
  {
    StepSafe(s, a);
    RunSafe(Next(s, a), acts);
  }

  lemma WaitingSleeps(s: Sys, t: Tid, x: Tid)
    requires Safe(s) && WaitsOn(s.k, t, x)
    ensures ValidTid(t) && s.k.slots[t].state == Sleeping
    ensures forall y :: WaitsOn(s.k, t, y) ==> y == x
  {
    assert forall y :: WaitsOn(s.k, t, y) ==> WaitQueueOf(y) == WaitQueueOf(x);
  }

  /**
   A thread goes to sleep in thread_wait(x). While it sleeps, thread_kill of it
   succeeds until some waiter on it is refused, and strays outside the table
   from then on.
   */
  lemma WaiterKillableUnlessRefused(s: Sys, x: Tid, ptr: bool, acts: seq<Action>)
    requires Reachable(s) && Legal(s, CallWait(x, ptr)) && WaitTest(s.k, x, ptr) == WaitSleeps && CanSleep(s.k)
    requires IsRun(Next(s, CallWait(x, ptr)), acts) && ValidTid(s.k.current)
    requires StillWaits(Next(s, CallWait(x, ptr)), acts, s.k.current, x)
    ensures var s1 := Next(s, CallWait(x, ptr));
            var s2 := After(s1, acts);
            && Shape(s2.k)
            && (s2.k.current != s.k.current ==>
                  var kill := Kill(s2.k, s.k.current);
                  if RefusedDuring(s1, acts, s.k.current) then kill == KillStrays else kill.KillDone?)
  {
    var s1, t := Next(s, CallWait(x, ptr)), s.k.current;
    ReachableIsSafe(s);
    WaitWritesNote(s, x, ptr);
    RunKeepsSafe(s, CallWait(x, ptr), acts);
    NoteOverRun(s1, acts, t, x);
    WaitingSleeps(After(s1, acts), t, x);
    WaitedOnHasQueue(After(s1, acts).k, t, x);
    KillOfWaiter(After(s1, acts).k, t, x);
  }

  lemma KillOfWaiter(k: Kernel, t: Tid, x: Tid)
    requires Shape(k) && ValidTid(t) && WaitsOn(k, t, x) && HasQueue(k, x) && k.slots[t].state == Sleeping
    ensures t != k.current && k.slots[t].waitingOn == x ==> Kill(k, t).KillDone?
    ensures t != k.current && k.slots[t].waitingOn == -1 ==> Kill(k, t) == KillStrays
  {
  }
}
