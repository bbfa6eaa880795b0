/**
 The thread package as a machine: one processor, one signal mask, and for each
 thread the stack of library frames that its saved context would resume.

 A frame stands for a point of thread.c or interrupt.c at which its thread can
 be interrupted or switched away from; the code between two such points runs
 with interrupts off and is one step. The timer may insert thread_yield
 wherever the mask is on.
 */
module ThreadMachine {
  import opened ThreadKernel

  datatype Frame =
    | User(mask: bool)                     // user code, which set the mask to this value
    | Start                                // a fresh context, about to enter thread_stub
    | Handler                              // interrupt_handler after its yield
    | InYield(saved: bool, ran: Tid)       // thread_yield after getcontext
    | SleepTail                            // thread_sleep, about to yield
    | ExitCall(code: int)                  // about to call thread_exit
    | ExitTail(second: bool)               // thread_exit, about to yield (twice)
    | WaitTail(target: Tid)                // thread_wait after thread_sleep
    | AcquireLoop(lock: nat, saved: bool)  // the while loop of lock_acquire
    | CvSleep(queue: int, lock: nat)       // cv_wait after lock_release
    | CvReacquire(lock: nat)               // cv_wait after thread_sleep

  datatype Stack = Empty | Push(top: Frame, below: Stack)

  /** `inside` is history: the threads that acquired the lock and did not release it. */
  datatype Lock = Lock(held: bool, holder: Tid, inside: set<Tid>)

  datatype Status = Active | Finished | Crashed

  /** A thread_wait by `to` that returned the thread `from` and took its status. */
  datatype Delivery = Delivery(to: Tid, from: Tid, code: int)

  /** `deliveries` is history, in order. */
  datatype Sys = Sys(
    k: Kernel,
    conts: seq<Stack>,
    mask: bool,
    locks: seq<Lock>,
    status: Status,
    deliveries: seq<Delivery>)

  datatype Action =
    | Tick
    | Go
    | SetMask(on: bool)
    | CallYield(want: Tid)
    | CallCreate(memory: bool)
    | CallExit(code: int)
    | CallKill(tid: Tid)
    | CallSleep(queue: int)
    | CallWakeup(queue: int, all: bool)
    | CallWait(tid: Tid, ptr: bool)
    | CallAcquire(lock: nat)
    | CallRelease(lock: nat)
    | CallCvWait(queue: int, lock: nat)
    | CallCvSignal(queue: int, lock: nat, all: bool)

  function LockQueue(l: nat): int {
    THREAD_MAX_THREADS + 1 + l
  }

  /** Queues of condition variables and of direct thread_sleep callers. */
  predicate UserQueue(s: Sys, q: int) {
    LockQueue(|s.locks|) <= q < |s.k.queues|
  }

  predicate Sized(s: Sys) {
    && Shape(s.k)
    && |s.conts| == THREAD_MAX_THREADS
    && LockQueue(|s.locks|) <= |s.k.queues|
    && forall q :: 0 <= q < |s.k.queues| ==> QueueInRange(s.k, q)
  }

  function Top(s: Sys): Stack
    requires Sized(s)
  {
    s.conts[s.k.current]
  }

  function SetStack(s: Sys, st: Stack): Sys
    requires Sized(s)
  {
    s.(conts := s.conts[s.k.current := st])
  }

  /** nLocks locks and nQueues further wait queues, after thread_init in thread 0. */
  function Init(nLocks: nat, nQueues: nat): Sys {
    Sys(Boot(nLocks + nQueues),
        seq(THREAD_MAX_THREADS, i => if i == 0 then Push(User(true), Empty) else Empty),
        true,
        seq(nLocks, i => Lock(false, -1, {})),
        Active,
        [])
  }

  // ---- library code ------------------------------------------------------

  /** thread_yield(want), called with mask m by code that resumes at `resume`. */
  function YieldFrom(s: Sys, want: Tid, resume: Stack, m: bool): Sys
    requires Sized(s)
  {
    match YieldDecision(s.k, want)
    case Dies => SetStack(s, Push(ExitCall(0), resume)).(mask := m)
    case Returns(_) => SetStack(s, resume).(mask := m)
    case Switches(to) =>
      if ValidTid(to) then
        SetStack(s, Push(InYield(m, to), resume)).(k := SwitchTo(s.k, to), mask := false)
      else s
  }

  /** thread_sleep(q), called with mask m by code that resumes at `resume`. */
  function SleepFrom(s: Sys, q: int, resume: Stack, m: bool): Sys
    requires Sized(s) && IsWaitQueue(s.k, q)
  {
    if CanSleep(s.k) then SetStack(s, Push(SleepTail, resume)).(k := SleepOn(s.k, q), mask := m)
    else SetStack(s, resume).(mask := m)
  }

  function LeaveLock(s: Sys, l: nat): Sys
    requires Sized(s) && l < |s.locks|
  {
    s.(k := WakeAll(s.k, LockQueue(l)),
       locks := s.locks[l := Lock(false, s.k.current, s.locks[l].inside - {s.k.current})])
  }

  function EnterLock(s: Sys, l: nat): Sys
    requires Sized(s) && l < |s.locks|
  {
    s.(locks := s.locks[l := Lock(true, s.k.current, s.locks[l].inside + {s.k.current})])
  }

  predicate HoldsLock(s: Sys, l: nat)
    requires l < |s.locks|
  {
    s.locks[l].held && s.locks[l].holder == s.k.current
  }

  // ---- steps of the current thread inside the library ------------------------

  function Deliver(s: Sys, from: Tid, code: int): Sys {
    s.(deliveries := s.deliveries + [Delivery(s.k.current, from, code)])
  }

  function StepWait(s: Sys, target: Tid, below: Stack): Sys
    requires Sized(s) && ValidTid(target)
  {
    match WaitOutcome(s.k, target)
    case KilledMeanwhile(code) => SetStack(s, Push(ExitCall(code), below))
    case Delivered(code) => Deliver(SetStack(s, below).(k := WaitEffect(s.k, target)), target, code)
    case AlreadyTaken => SetStack(s, below).(k := WaitEffect(s.k, target))
  }

  function StepExit(s: Sys, code: int, below: Stack): Sys
    requires Sized(s)
  {
    if IsLastThread(s.k) then s.(status := Finished)
    else SetStack(s, Push(ExitTail(false), below)).(k := Exit(s.k, code))
  }

  function StepExitTail(s: Sys, second: bool, below: Stack): Sys
    requires Sized(s)
  {
    if second && YieldDecision(s.k, THREAD_ANY) == Returns(THREAD_NONE) then s.(status := Finished)
    else YieldFrom(s, THREAD_ANY, Push(ExitTail(true), below), s.mask)
  }

  function StepAcquire(s: Sys, l: nat, saved: bool, below: Stack): Sys
    requires Sized(s) && l < |s.locks|
  {
    if s.locks[l].held then SleepFrom(s, LockQueue(l), Push(AcquireLoop(l, saved), below), false)
    else SetStack(EnterLock(s, l), below).(mask := saved)
  }

  /** Lock and queue numbers in a frame are in range. */
  predicate FrameFits(s: Sys, f: Frame) {
    match f
    case WaitTail(target) => ValidTid(target)
    case AcquireLoop(l, _) => l < |s.locks|
    case CvSleep(q, l) => UserQueue(s, q) && l < |s.locks|
    case CvReacquire(l) => l < |s.locks|
    case _ => true
  }

  function StepTop(s: Sys, top: Frame, below: Stack): Sys
    requires Sized(s) && FrameFits(s, top)
  {
    match top
    case User(_) => s
    case Start => SetStack(s, Push(User(true), below)).(mask := true)
    case Handler => SetStack(s, below).(mask := true)
    case InYield(saved, _) => SetStack(s, below).(k := Reap(s.k), mask := saved)
    case SleepTail => YieldFrom(s, THREAD_ANY, below, s.mask)
    case ExitCall(code) => StepExit(s, code, below)
    case ExitTail(second) => StepExitTail(s, second, below)
    case WaitTail(target) => StepWait(s, target, below)
    case AcquireLoop(l, saved) => StepAcquire(s, l, saved, below)
    case CvSleep(q, l) => SleepFrom(s, q, Push(CvReacquire(l), below), s.mask)
    case CvReacquire(l) => SetStack(s, Push(AcquireLoop(l, s.mask), below)).(mask := false)
  }

  /** The timer signal: the handler yields to any thread, or returns at once if there is none. */
  function StepTick(s: Sys): Sys
    requires Sized(s)
  {
    if YieldDecision(s.k, THREAD_ANY).Returns? then s
    else YieldFrom(s, THREAD_ANY, Push(Handler, Top(s)), false)
  }

  // ---- calls made by user code ---------------------------------------------

  function DoCreate(s: Sys, memory: bool): Sys
    requires Sized(s)
  {
    var (k', ret) := Create(s.k, memory);
    s.(k := k', conts := if ValidTid(ret) then s.conts[ret := Push(Start, Empty)] else s.conts)
  }

  function DoKill(s: Sys, tid: Tid): Sys
    requires Sized(s)
  {
    match Kill(s.k, tid)
    case KillRefused => s
    case KillDone(k') => s.(k := k')
    case _ => s.(status := Crashed)
  }

  function DoWait(s: Sys, tid: Tid, ptr: bool): Sys
    requires Sized(s)
  {
    match WaitTest(s.k, tid, ptr)
    case WaitRefused => s
    case WaitNullDereference => s.(status := Crashed)
    case WaitDelivers =>
      if ValidTid(tid) then Deliver(s.(k := TakeCode(s.k, tid)), tid, s.k.slots[tid].exitCode) else s
    case WaitSleeps =>
      if ValidTid(tid) then
        var s1 := s.(k := NoteWaitingOn(s.k, s.k.current, tid));
        assert forall q :: 0 <= q < |s.k.queues| && QueueInRange(s.k, q) ==> QueueInRange(s1.k, q);
        SleepFrom(s1, WaitQueueOf(tid), Push(WaitTail(tid), Top(s)), s.mask)
      else s
  }

  function DoCvWait(s: Sys, q: int, l: nat): Sys
    requires Sized(s) && l < |s.locks|
  {
    if HoldsLock(s, l) then LeaveLock(SetStack(s, Push(CvSleep(q, l), Top(s))), l) else s
  }

  // ---- the step relation ---------------------------------------------------

  /** Which steps the machine can take; lock and queue arguments name existing objects. */
  predicate Enabled(s: Sys, a: Action) {
    && s.status == Active
    && Sized(s)
    && Top(s).Push?
    && match a
       case Tick => s.mask
       case Go => !Top(s).top.User? && FrameFits(s, Top(s).top)
       case _ =>
         && Top(s).top.User?
         && match a
            case CallSleep(q) => UserQueue(s, q)
            case CallWakeup(q, _) => UserQueue(s, q)
            case CallAcquire(l) => l < |s.locks|
            case CallRelease(l) => l < |s.locks|
            case CallCvWait(q, l) => UserQueue(s, q) && l < |s.locks|
            case CallCvSignal(q, l, _) => UserQueue(s, q) && l < |s.locks|
            case _ => true
  }

  function Next(s: Sys, a: Action): Sys
    requires Enabled(s, a)
  {
    match a
    case Tick => StepTick(s)
    case Go => StepTop(s, Top(s).top, Top(s).below)
    case SetMask(on) => SetStack(s, Push(User(on), Top(s).below)).(mask := on)
    case CallYield(want) => YieldFrom(s, want, Top(s), s.mask)
    case CallCreate(memory) => DoCreate(s, memory)
    case CallExit(code) => SetStack(s, Push(ExitCall(code), Top(s)))
    case CallKill(tid) => DoKill(s, tid)
    case CallSleep(q) => SleepFrom(s, q, Top(s), s.mask)
    case CallWakeup(q, all) => s.(k := Wakeup(s.k, q, all))
    case CallWait(tid, ptr) => DoWait(s, tid, ptr)
    case CallAcquire(l) => SetStack(s, Push(AcquireLoop(l, s.mask), Top(s))).(mask := false)
    case CallRelease(l) => LeaveLock(s, l)
    case CallCvWait(q, l) => DoCvWait(s, q, l)
    case CallCvSignal(q, l, all) => if HoldsLock(s, l) then s.(k := Wakeup(s.k, q, all)) else s
  }

  /** What thread.h asks of callers, and that malloc does not fail while a zombie is reused. */
  predicate Permitted(s: Sys, a: Action)
    requires Enabled(s, a)
  {
    match a
    case CallKill(tid) => ValidTid(tid) ==> s.k.slots[tid].state != Exited
    case CallCreate(memory) => CreateIsSound(s.k, memory)
    case CallRelease(l) => HoldsLock(s, l)
    case _ => true
  }

  predicate Legal(s: Sys, a: Action) {
    Enabled(s, a) && Permitted(s, a)
  }

  /** The actions can be taken one after the other from s. */
  predicate IsRun(s: Sys, acts: seq<Action>)
    decreases |acts|
  {
    acts == [] || (Legal(s, acts[0]) && IsRun(Next(s, acts[0]), acts[1..]))
  }

  function After(s: Sys, acts: seq<Action>): Sys
    requires IsRun(s, acts)
    decreases |acts|
  {
    if acts == [] then s else After(Next(s, acts[0]), acts[1..])
  }
}
