/**
 Exit statuses as tokens: thread_exit and thread_kill put one into a slot,
 thread_wait takes it out, and -1 in a slot's exit code means there is none.
 */
module ThreadExitStatus {
  import opened ThreadKernel
  import opened ThreadInvariant
  import opened ThreadMachine
  import opened ThreadSafety
  import opened ThreadEffects

  function Token(s: Sys, x: Tid): nat
    requires Sized(s) && ValidTid(x)
  {
    if s.k.slots[x].exitCode != -1 then 1 else 0
  }

  /** A thread_wait on x returns x with a status other than -1, early or after its sleep. */
  predicate Delivers(k: Kernel, e: Effect, x: Tid)
    requires Shape(k) && ValidTid(x)
  {
    (e == TakeStatus(x) || e == WaiterResumes(x)) && k.slots[x].exitCode != -1
  }

  /** A status other than -1 is stored for x, by its own exit or by a kill. */
  predicate Deposits(k: Kernel, e: Effect, x: Tid) {
    e == KillThread(x) || (e.ExitWith? && k.current == x && e.code != -1)
  }

  /** thread_create takes slot x, and with it whatever status it held. */
  predicate Recycles(k: Kernel, e: Effect, x: Tid)
    requires Shape(k)
  {
    e.NewThread? && FirstFree(k.slots, 0) == x && k.existing < THREAD_MAX_THREADS
  }

  /** The status of slot x after an effect. */
  function CodeAfter(k: Kernel, e: Effect, x: Tid): int
    requires Shape(k) && ValidTid(x)
  {
    if e == KillThread(x) then 9
    else if e.ExitWith? && k.current == x then e.code
    else if Recycles(k, e, x) || Delivers(k, e, x) then -1
    else k.slots[x].exitCode
  }

  lemma ExitCodes(k: Kernel, code: int, x: Tid)
    requires Inv(k) && Alive(Cur(k).state) && ValidTid(x)
    ensures Exit(k, code).slots[x].exitCode == if x == k.current then code else k.slots[x].exitCode
  {
    WakeAllInv(k, WaitQueueOf(k.current));
    ExitIs(k, code);
  }

  lemma WakeupCodes(k: Kernel, q: int, all: bool, x: Tid)
    requires Inv(k) && Alive(Cur(k).state) && IsWaitQueue(k, q) && ValidTid(x)
    ensures |Wakeup(k, q, all).slots| == THREAD_MAX_THREADS
    ensures Wakeup(k, q, all).slots[x].exitCode == k.slots[x].exitCode
  {
    if all {
      WakeAllInv(k, q);
    } else {
      WakeOneInv(k, q);
    }
  }

  lemma SwitchCodes(k: Kernel, to: Tid, x: Tid)
    requires Inv(k) && to in k.queues[READY_QUEUE] && Cur(k).state != Killed && ValidTid(x)
    ensures |SwitchTo(k, to).slots| == THREAD_MAX_THREADS
    ensures SwitchTo(k, to).slots[x].exitCode == k.slots[x].exitCode
  {
    SwitchToInv(k, to);
    SwitchToSlots(k, to);
  }

  lemma CreateCodes(k: Kernel, memory: bool, x: Tid)
    requires Shape(k) && ValidTid(x)
    ensures |Create(k, memory).0.slots| == THREAD_MAX_THREADS
    ensures Create(k, memory).0.slots[x].exitCode ==
            if Recycles(k, NewThread(memory), x) then -1 else k.slots[x].exitCode
  {
  }

  lemma KillCodes(k: Kernel, tid: Tid, x: Tid)
    requires Shape(k) && ValidTid(x) && Kill(k, tid).KillDone?
    ensures |Kill(k, tid).k.slots| == THREAD_MAX_THREADS
    ensures Kill(k, tid).k.slots[x].exitCode == if x == tid then 9 else k.slots[x].exitCode
  {
  }

  lemma ReapCodes(k: Kernel, x: Tid)
    requires Inv(k) && ValidTid(x)
    ensures Reap(k).slots[x].exitCode == k.slots[x].exitCode
  {
    ReapInv(k);
  }

  lemma WaitCodes(k: Kernel, e: Effect, x: Tid)
    requires Inv(k) && Fits(k, e) && ValidTid(x)
    requires e.Keep? || e.SleepIn? || e.TakeStatus? || e.SleepForExit? || e.WaiterResumes?
    ensures |Apply(k, e).slots| == THREAD_MAX_THREADS
    ensures Apply(k, e).slots[x].exitCode == CodeAfter(k, e, x)
  {
  }

  lemma DispatchCodes(k: Kernel, e: Effect, x: Tid)
    requires Inv(k) && Fits(k, e) && ValidTid(x) && (e.Switch? || e.ReapZombie?)
    ensures |Apply(k, e).slots| == THREAD_MAX_THREADS
    ensures Apply(k, e).slots[x].exitCode == CodeAfter(k, e, x)
  {
    match e
    case Switch(to, _) => SwitchCodes(k, to, x);
    case ReapZombie => ReapCodes(k, x);
  }

  lemma WakingCodes(k: Kernel, e: Effect, x: Tid)
    requires Inv(k) && Fits(k, e) && ValidTid(x) && (e.ExitWith? || e.WakeFrom?)
    ensures |Apply(k, e).slots| == THREAD_MAX_THREADS
    ensures Apply(k, e).slots[x].exitCode == CodeAfter(k, e, x)
  {
    match e
    case ExitWith(code) => ExitCodes(k, code, x);
    case WakeFrom(q, all) => WakeupCodes(k, q, all, x);
  }

  lemma EffectCodes(k: Kernel, e: Effect, x: Tid)
    requires Inv(k) && Fits(k, e) && ValidTid(x)
    ensures |Apply(k, e).slots| == THREAD_MAX_THREADS
    ensures Apply(k, e).slots[x].exitCode == CodeAfter(k, e, x)
  {
    match e
    case NewThread(memory) => CreateCodes(k, memory, x);
    case KillThread(tid) => KillCodes(k, tid, x);
    case Switch(_, _) => DispatchCodes(k, e, x);
    case ReapZombie => DispatchCodes(k, e, x);
    case ExitWith(_) => WakingCodes(k, e, x);
    case WakeFrom(_, _) => WakingCodes(k, e, x);
    case _ => WaitCodes(k, e, x);
  }

  lemma StepCode(s: Sys, a: Action, x: Tid)
    requires Safe(s) && Legal(s, a) && ValidTid(x)
    ensures Safe(Next(s, a)) && Next(s, a).k.slots[x].exitCode == CodeAfter(s.k, EffectOf(s, a), x)
  {
    StepSafe(s, a);
    EffectIs(s, a);
    EffectCodes(s.k, EffectOf(s, a), x);
  }

  // ---- statuses are conserved ------------------------------------------------

  function CountDelivered(s: Sys, acts: seq<Action>, x: Tid): nat
    requires IsRun(s, acts) && ValidTid(x)
    decreases |acts|
  {
    if acts == [] then 0
    else (if Delivers(s.k, EffectOf(s, acts[0]), x) then 1 else 0)
         + CountDelivered(Next(s, acts[0]), acts[1..], x)
  }

  function CountDeposited(s: Sys, acts: seq<Action>, x: Tid): nat
    requires IsRun(s, acts) && ValidTid(x)
    decreases |acts|
  {
    if acts == [] then 0
    else (if Deposits(s.k, EffectOf(s, acts[0]), x) then 1 else 0)
         + CountDeposited(Next(s, acts[0]), acts[1..], x)
  }

  /** No status is delivered twice: deliveries are covered by deposits and the slot's first status. */
  lemma {:induction false} StatusesAreTokens(s: Sys, acts: seq<Action>, x: Tid)
    requires Safe(s) && IsRun(s, acts) && ValidTid(x)
    ensures Sized(After(s, acts))
    ensures CountDelivered(s, acts, x) + Token(After(s, acts), x) <= Token(s, x) + CountDeposited(s, acts, x)
    decreases |acts|
  {
    if acts != [] {
      StepCode(s, acts[0], x);
      StatusesAreTokens(Next(s, acts[0]), acts[1..], x);
    }
  }

  // ---- one exit, many waiters ------------------------------------------------

  /** Nothing but resuming waiters touches the status of x. */
  predicate LeavesStatusAlone(k: Kernel, e: Effect, x: Tid)
    requires Shape(k)
  {
    && e != KillThread(x)
    && !(e.ExitWith? && k.current == x)
    && !Recycles(k, e, x)
    && e != TakeStatus(x)
  }

  predicate QuietRun(s: Sys, acts: seq<Action>, x: Tid)
    requires IsRun(s, acts)
    decreases |acts|
  {
    acts == [] || (LeavesStatusAlone(s.k, EffectOf(s, acts[0]), x) && QuietRun(Next(s, acts[0]), acts[1..], x))
  }

  /** What the waiters on x find, in the order in which they resume. */
  function WaiterResults(s: Sys, acts: seq<Action>, x: Tid): seq<WaitResult>
    requires IsRun(s, acts) && ValidTid(x)
    decreases |acts|
  {
    if acts == [] then []
    else (if EffectOf(s, acts[0]) == WaiterResumes(x) then [WaitOutcome(s.k, x)] else [])
         + WaiterResults(Next(s, acts[0]), acts[1..], x)
  }

  lemma {:induction false} NoStatusNoDelivery(s: Sys, acts: seq<Action>, x: Tid)
    requires Safe(s) && IsRun(s, acts) && ValidTid(x) && QuietRun(s, acts, x)
    requires s.k.slots[x].exitCode == -1
    ensures forall r :: r in WaiterResults(s, acts, x) ==> !r.Delivered?
    decreases |acts|
  {
    if acts != [] {
      StepCode(s, acts[0], x);
      NoStatusNoDelivery(Next(s, acts[0]), acts[1..], x);
    }
  }

  /**
   Of the waiters woken by one exit, exactly the first to resume gets the
   status; a later one is refused, or exits itself if it was killed.
   */
  lemma {:induction false} FirstWaiterTakesStatus(s: Sys, acts: seq<Action>, x: Tid)
    requires Safe(s) && IsRun(s, acts) && ValidTid(x) && QuietRun(s, acts, x)
    requires s.k.slots[x].exitCode != -1
    ensures var rs := WaiterResults(s, acts, x);
            && (rs != [] ==> rs[0] == Delivered(s.k.slots[x].exitCode))
            && forall i :: 0 < i < |rs| ==> !rs[i].Delivered?
    decreases |acts|
  {
    if acts != [] {
      var s', rest := Next(s, acts[0]), acts[1..];
      StepCode(s, acts[0], x);
      if EffectOf(s, acts[0]) == WaiterResumes(x) {
        NoStatusNoDelivery(s', rest, x);
        assert WaiterResults(s, acts, x) == [WaitOutcome(s.k, x)] + WaiterResults(s', rest, x);
      } else {
        FirstWaiterTakesStatus(s', rest, x);
        assert WaiterResults(s, acts, x) == WaiterResults(s', rest, x);
      }
    }
  }
}
