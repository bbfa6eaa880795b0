/**
 What a step of the machine does to the thread table, as one of eleven effects,
 so that properties of single steps are facts about the kernel alone.
 */
module ThreadEffects {
  import opened ThreadKernel
  import opened ThreadInvariant
  import opened ThreadMachine
  import opened ThreadSafety

  datatype Effect =
    | Keep
    | Switch(to: Tid, want: Tid)    // thread_yield(want) finds `to`
    | ReapZombie                    // a thread_yield resumes
    | ExitWith(code: int)           // thread_exit
    | SleepIn(queue: int)           // thread_sleep
    | WakeFrom(queue: int, all: bool)
    | NewThread(memory: bool)
    | KillThread(tid: Tid)
    | TakeStatus(tid: Tid)          // thread_wait on a zombie or a reaped slot
    | SleepForExit(tid: Tid)        // thread_wait notes its target and sleeps
    | WaiterResumes(tid: Tid)       // thread_wait after its sleep

  /** What the call that leads to an effect has checked. */
  ghost predicate Fits(k: Kernel, e: Effect) {
    && Shape(k)
    && match e
       case Keep => true
       case Switch(to, want) =>
         Cur(k).state != Killed && YieldDecision(k, want) == Switches(to) && to in k.queues[READY_QUEUE]
       case ReapZombie => true
       case ExitWith(_) => Alive(Cur(k).state)
       case SleepIn(q) => Alive(Cur(k).state) && SleepTarget(k, q)
       case WakeFrom(q, _) => Alive(Cur(k).state) && IsWaitQueue(k, q)
       case NewThread(memory) => Alive(Cur(k).state) && CreateIsSound(k, memory)
       case KillThread(tid) => Alive(Cur(k).state) && Kill(k, tid).KillDone? && k.slots[tid].state != Exited
       case TakeStatus(tid) => WaitTest(k, tid, true) == WaitDelivers && ValidTid(tid)
       case SleepForExit(tid) => Alive(Cur(k).state) && WaitTest(k, tid, true) == WaitSleeps && ValidTid(tid)
       case WaiterResumes(tid) => Alive(Cur(k).state) && ValidTid(tid)
  }

  ghost function Apply(k: Kernel, e: Effect): Kernel
    requires Inv(k) && Fits(k, e)
  {
    InvSized(k);
    match e
    case Keep => k
    case Switch(to, _) => SwitchTo(k, to)
    case ReapZombie => Reap(k)
    case ExitWith(code) => Exit(k, code)
    case SleepIn(q) => if CanSleep(k) then SleepOn(k, q) else k
    case WakeFrom(q, all) => Wakeup(k, q, all)
    case NewThread(memory) => Create(k, memory).0
    case KillThread(tid) => Kill(k, tid).k
    case TakeStatus(tid) => TakeCode(k, tid)
    case SleepForExit(tid) =>
      var k1 := NoteWaitingOn(k, k.current, tid);
      if CanSleep(k1) then SleepOn(k1, WaitQueueOf(tid)) else k1
    case WaiterResumes(tid) => WaitEffect(k, tid)
  }

  function YieldEffect(s: Sys, want: Tid): Effect
    requires Sized(s)
  {
    match YieldDecision(s.k, want)
    case Switches(to) => Switch(to, want)
    case _ => Keep
  }

  function GoEffect(s: Sys, top: Frame): Effect
    requires Sized(s)
  {
    match top
    case InYield(_, _) => ReapZombie
    case SleepTail => YieldEffect(s, THREAD_ANY)
    case ExitTail(_) => YieldEffect(s, THREAD_ANY)
    case ExitCall(code) => ExitWith(code)
    case WaitTail(target) => WaiterResumes(target)
    case AcquireLoop(l, _) => if l < |s.locks| && s.locks[l].held then SleepIn(LockQueue(l)) else Keep
    case CvSleep(q, _) => SleepIn(q)
    case _ => Keep
  }

  function WaitCallEffect(s: Sys, tid: Tid, ptr: bool): Effect
    requires Sized(s)
  {
    match WaitTest(s.k, tid, ptr)
    case WaitDelivers => TakeStatus(tid)
    case WaitSleeps => SleepForExit(tid)
    case _ => Keep
  }

  function EffectOf(s: Sys, a: Action): Effect
    requires Enabled(s, a)
  {
    match a
    case Tick => YieldEffect(s, THREAD_ANY)
    case Go => GoEffect(s, Top(s).top)
    case CallYield(want) => YieldEffect(s, want)
    case CallCreate(memory) => NewThread(memory)
    case CallKill(tid) => if Kill(s.k, tid).KillDone? then KillThread(tid) else Keep
    case CallSleep(q) => SleepIn(q)
    case CallWakeup(q, all) => WakeFrom(q, all)
    case CallWait(tid, ptr) => WaitCallEffect(s, tid, ptr)
    case CallRelease(l) => WakeFrom(LockQueue(l), true)
    case CallCvWait(_, l) => if HoldsLock(s, l) then WakeFrom(LockQueue(l), true) else Keep
    case CallCvSignal(q, l, all) => if HoldsLock(s, l) then WakeFrom(q, all) else Keep
    case _ => Keep
  }

  lemma YieldEffectFits(s: Sys, want: Tid)
    requires Sized(s) && ReadyQueueOk(s.k)
    ensures Fits(s.k, YieldEffect(s, want))
  {
    if YieldEffect(s, want).Switch? {
      assert YieldEffect(s, want).to in s.k.queues[READY_QUEUE];
    }
  }

  lemma GoEffectFits(s: Sys)
    requires Safe(s) && Legal(s, Go)
    ensures Fits(s.k, EffectOf(s, Go))
  {
    if Top(s).top.SleepTail? || Top(s).top.ExitTail? {
      YieldEffectFits(s, THREAD_ANY);
    } else {
      TopTells(s);
    }
  }

  lemma CallEffectFits(s: Sys, a: Action)
    requires Safe(s) && Legal(s, a) && !a.Tick? && !a.Go? && !a.CallYield?
    ensures Fits(s.k, EffectOf(s, a))
  {
    TopTells(s);
  }

  lemma EffectFits(s: Sys, a: Action)
    requires Safe(s) && Legal(s, a)
    ensures Fits(s.k, EffectOf(s, a))
  {
    if a.Go? {
      GoEffectFits(s);
    } else if a.Tick? {
      YieldEffectFits(s, THREAD_ANY);
    } else if a.CallYield? {
      YieldEffectFits(s, a.want);
    } else {
      CallEffectFits(s, a);
    }
  }

  lemma GoEffectIs(s: Sys, top: Frame, below: Stack)
    requires Sized(s) && FrameFits(s, top) && Inv(s.k) && Fits(s.k, GoEffect(s, top))
    ensures StepTop(s, top, below).k == Apply(s.k, GoEffect(s, top))
  {
    if top.ExitCall? {
      ExitInv(s.k, top.code);
    }
  }

  lemma CallEffectIs(s: Sys, a: Action)
    requires Legal(s, a) && !a.Go? && Inv(s.k) && Fits(s.k, EffectOf(s, a))
    ensures Next(s, a).k == Apply(s.k, EffectOf(s, a))
  {
  }

  /** Every step has exactly its effect on the kernel. */
  lemma EffectIs(s: Sys, a: Action)
    requires Safe(s) && Legal(s, a)
    ensures Fits(s.k, EffectOf(s, a))
    ensures Next(s, a).k == Apply(s.k, EffectOf(s, a))
  {
    EffectFits(s, a);
    if a.Go? {
      GoEffectIs(s, Top(s).top, Top(s).below);
    } else {
      CallEffectIs(s, a);
    }
  }
}
