/**
 From thread_exit(c) to the thread_wait that returns c: the argument of the call
 gets into the slot, stays there while the slot is not reused, before and after
 the thread is reaped, and goes to the first thread that asks for it, once.
 */
module ThreadDeliveries {
  import opened CommonTypes
  import opened ThreadKernel
  import opened ThreadInvariant
  import opened ThreadMachine
  import opened ThreadSafety
  import opened ThreadEffects
  import opened ThreadStacks
  import opened ThreadExitStatus
  import opened ThreadTheorems

  // ---- which steps end or start a life ---------------------------------------------

  /** thread_create takes slot x. */
  predicate Reuses(s: Sys, a: Action, x: Tid)
    requires Sized(s)
  {
    a.CallCreate? && FirstFree(s.k.slots, 0) == x && s.k.existing < THREAD_MAX_THREADS
  }

  predicate NeverReused(s: Sys, acts: seq<Action>, x: Tid)
    requires IsRun(s, acts)
    decreases |acts|
  {
    acts == [] || (!Reuses(s, acts[0], x) && NeverReused(Next(s, acts[0]), acts[1..], x))
  }

  /** t does not exit and its slot is not reused. */
  predicate LifeKept(k: Kernel, k': Kernel, t: Tid)
    requires Shape(k) && ValidTid(t)
  {
    && Shape(k')
    && (k'.slots[t].state in {Exited, Uninitialized} <==> k.slots[t].state in {Exited, Uninitialized})
    && (k'.slots[t].state == Exited ==> k.slots[t].state == Exited)
  }

  lemma SwitchKeepsLife(k: Kernel, to: Tid, t: Tid)
    requires Inv(k) && to in k.queues[READY_QUEUE] && Cur(k).state != Killed && ValidTid(t)
    ensures LifeKept(k, SwitchTo(k, to), t)
  {
    SwitchToInv(k, to);
    SwitchToSlots(k, to);
  }

  lemma WakeKeepsLife(k: Kernel, q: int, all: bool, t: Tid)
    requires Inv(k) && Alive(Cur(k).state) && IsWaitQueue(k, q) && ValidTid(t)
    ensures LifeKept(k, Wakeup(k, q, all), t)
  {
    if all {
      WakeAllInv(k, q);
    } else {
      WakeOneInv(k, q);
    }
  }

  lemma ExitKeepsLife(k: Kernel, code: int, t: Tid)
    requires Inv(k) && Alive(Cur(k).state) && ValidTid(t) && t != k.current
    ensures LifeKept(k, Exit(k, code), t)
  {
    ExitIs(k, code);
    WakeKeepsLife(k, WaitQueueOf(k.current), true, t);
    WakeAllInv(k, WaitQueueOf(k.current));
  }

  lemma KillKeepsLife(k: Kernel, tid: Tid, t: Tid)
    requires Shape(k) && Kill(k, tid).KillDone? && k.slots[tid].state != Exited && ValidTid(t)
    ensures LifeKept(k, Kill(k, tid).k, t)
  {
  }

  lemma CreateKeepsLife(k: Kernel, memory: bool, t: Tid)
    requires Shape(k) && ValidTid(t) && !Recycles(k, NewThread(memory), t)
    ensures LifeKept(k, Create(k, memory).0, t)
  {
  }

  lemma QuietKeepsLife(k: Kernel, e: Effect, t: Tid)
    requires Inv(k) && Fits(k, e) && ValidTid(t)
    requires e.Keep? || e.SleepIn? || e.TakeStatus? || e.SleepForExit? || e.WaiterResumes?
    ensures LifeKept(k, Apply(k, e), t)
  {
  }

  lemma EffectKeepsLife(k: Kernel, e: Effect, t: Tid)
    requires Inv(k) && Fits(k, e) && ValidTid(t)
    requires !(e.ExitWith? && t == k.current) && !Recycles(k, e, t)
    ensures LifeKept(k, Apply(k, e), t)
  {
    match e
    case Switch(to, _) => SwitchKeepsLife(k, to, t);
    case ReapZombie => ReapInv(k);
    case ExitWith(code) => ExitKeepsLife(k, code, t);
    case WakeFrom(q, all) => WakeKeepsLife(k, q, all, t);
    case NewThread(memory) => CreateKeepsLife(k, memory, t);
    case KillThread(tid) => KillKeepsLife(k, tid, t);
    case _ => QuietKeepsLife(k, e, t);
  }

  /** Only thread_exit ends a life, the caller's, and only thread_create starts one. */
  lemma StepKeepsLife(s: Sys, a: Action, t: Tid)
    requires Safe(s) && Legal(s, a) && ValidTid(t)
    requires !(t == s.k.current && a.Go? && Top(s).top.ExitCall?) && !Reuses(s, a, t)
    ensures LifeKept(s.k, Next(s, a).k, t)
  {
    EffectIs(s, a);
    EffectKeepsLife(s.k, EffectOf(s, a), t);
  }

  // ---- from the call to the slot -----------------------------------------------

  /** A thread that called thread_exit(c) and has been at most interrupted since. */
  predicate Leaving(st: Stack, c: int) {
    st.Push? && (st.top == ExitCall(c) || ((st.top.Handler? || st.top.InYield?) && Leaving(st.below, c)))
  }

  predicate Undoomed(s: Sys, t: Tid) {
    Sized(s) && ValidTid(t) && s.k.slots[t].state in {Ready, Running}
  }

  /** In every state of the run t is ready or running, so it has not exited and was not killed. */
  predicate UndoomedThrough(s: Sys, acts: seq<Action>, t: Tid)
    requires IsRun(s, acts)
    decreases |acts|
  {
    Undoomed(s, t) && (acts == [] || UndoomedThrough(Next(s, acts[0]), acts[1..], t))
  }

  lemma TickLeaves(s: Sys, c: int)
    requires Safe(s) && Legal(s, Tick) && Leaving(Top(s), c) && Cur(s.k).state != Killed
    ensures Sized(Next(s, Tick)) && Leaving(Next(s, Tick).conts[s.k.current], c)
  {
    StepSafe(s, Tick);
  }

  lemma GoLeaves(s: Sys, c: int)
    requires Safe(s) && Legal(s, Go) && Leaving(Top(s), c) && !Top(s).top.ExitCall?
    ensures Sized(Next(s, Go)) && Leaving(Next(s, Go).conts[s.k.current], c)
  {
    StepSafe(s, Go);
  }

  /** thread_exit deposits its argument. */
  lemma ExitDeposits(s: Sys, c: int)
    requires Safe(s) && Legal(s, Go) && Top(s).top == ExitCall(c)
    ensures Sized(Next(s, Go)) && Next(s, Go).k.current == s.k.current
    ensures Next(s, Go).k.slots[s.k.current].state == Exited && Next(s, Go).k.slots[s.k.current].exitCode == c
  {
    TopTells(s);
    ExitInv(s.k, c);
    ExitIs(s.k, c);
    WakeAllInv(s.k, WaitQueueOf(s.k.current));
    StepSafe(s, Go);
  }

  /** A step after which t has not exited leaves it on its way; the one by which it exits deposits c. */
  lemma LeavingStep(s: Sys, a: Action, t: Tid, c: int)
    requires Safe(s) && Legal(s, a) && Undoomed(s, t) && Leaving(s.conts[t], c)
    ensures Sized(Next(s, a))
    ensures Undoomed(Next(s, a), t) ==> Leaving(Next(s, a).conts[t], c)
    ensures Next(s, a).k.slots[t].state == Exited ==> Next(s, a).k.slots[t].exitCode == c
  {
    if t == s.k.current && a.Go? && Top(s).top.ExitCall? {
      ExitDeposits(s, c);
    } else {
      StepKeepsLife(s, a, t);
      StaysLeaving(s, a, t, c);
    }
  }

  lemma StaysLeaving(s: Sys, a: Action, t: Tid, c: int)
    requires Safe(s) && Legal(s, a) && Undoomed(s, t) && Leaving(s.conts[t], c)
    requires !(t == s.k.current && a.Go? && Top(s).top.ExitCall?)
    ensures Sized(Next(s, a)) && Leaving(Next(s, a).conts[t], c)
  {
    StepSafe(s, a);
    if t != s.k.current {
      OthersKeepStack(s, a, t);
    } else if a.Tick? {
      TickLeaves(s, c);
    } else {
      GoLeaves(s, c);
    }
  }

  lemma {:induction false} LeavingRun(s: Sys, acts: seq<Action>, t: Tid, c: int)
    requires Safe(s) && IsRun(s, acts) && UndoomedThrough(s, acts, t) && Leaving(s.conts[t], c)
    ensures Safe(After(s, acts)) && Undoomed(After(s, acts), t) && Leaving(After(s, acts).conts[t], c)
    decreases |acts|
  {
    if acts != [] {
      StepSafe(s, acts[0]);
      LeavingStep(s, acts[0], t, c);
      LeavingRun(Next(s, acts[0]), acts[1..], t, c);
    }
  }

  lemma LeavesUntilExit(s: Sys, acts: seq<Action>, a: Action, t: Tid, c: int)
    requires Safe(s) && IsRun(s, acts) && UndoomedThrough(s, acts, t) && Leaving(s.conts[t], c)
    requires Legal(After(s, acts), a)
    ensures var s' := Next(After(s, acts), a);
            && Safe(s') && ValidTid(t)
            && (s'.k.slots[t].state == Exited ==> s'.k.slots[t].exitCode == c)
  {
    LeavingRun(s, acts, t, c);
    StepSafe(After(s, acts), a);
    LeavingStep(After(s, acts), a, t, c);
  }

  lemma CallLeaves(s: Sys, c: int)
    requires Safe(s) && Legal(s, CallExit(c))
    ensures Safe(Next(s, CallExit(c))) && Leaving(Next(s, CallExit(c)).conts[s.k.current], c)
  {
    StepSafe(s, CallExit(c));
  }

  /**
   thread_exit(c): if the caller is not killed before it exits, the step by which
   it exits leaves c in its slot, however often it is preempted on the way.
   */
  lemma ExitStatusIsArgument(s: Sys, c: int, acts: seq<Action>, a: Action)
    requires Reachable(s) && Legal(s, CallExit(c)) && IsRun(Next(s, CallExit(c)), acts)
    requires UndoomedThrough(Next(s, CallExit(c)), acts, s.k.current)
    requires Legal(After(Next(s, CallExit(c)), acts), a)
    ensures var s' := Next(After(Next(s, CallExit(c)), acts), a);
            && Safe(s') && ValidTid(s.k.current)
            && (s'.k.slots[s.k.current].state == Exited ==> s'.k.slots[s.k.current].exitCode == c)
  {
    ReachableIsSafe(s);
    CallLeaves(s, c);
    LeavesUntilExit(Next(s, CallExit(c)), acts, a, s.k.current, c);
  }

  // ---- from the slot to the caller of thread_wait ---------------------------------

  /** The thread has exited, and its slot has not been reused. */
  predicate Gone(s: Sys, x: Tid) {
    Sized(s) && ValidTid(x) && s.k.slots[x].state in {Exited, Uninitialized}
  }

  /** The current thread calls thread_wait(x), or is past its sleep in that call. */
  predicate Asks(s: Sys, a: Action, x: Tid)
    requires Sized(s)
  {
    (a == CallWait(x, true) && s.k.current != x) || (a == Go && Top(s).Push? && Top(s).top == WaitTail(x))
  }

  /** Who asks first. */
  function FirstAsker(s: Sys, acts: seq<Action>, x: Tid): Option<Tid>
    requires IsRun(s, acts)
    decreases |acts|
  {
    if acts == [] then None
    else if Asks(s, acts[0], x) then Some(s.k.current)
    else FirstAsker(Next(s, acts[0]), acts[1..], x)
  }

  /** The deliveries of x's statuses other than -1, in order. */
  function DeliveriesOf(deliveries: seq<Delivery>, x: Tid): seq<Delivery> {
    if deliveries == [] then []
    else
      var last := deliveries[|deliveries| - 1];
      DeliveriesOf(deliveries[..|deliveries| - 1], x) + if last.from == x && last.code != -1 then [last] else []
  }

  lemma DeliveriesLast(deliveries: seq<Delivery>, h: Delivery, x: Tid)
    ensures DeliveriesOf(deliveries + [h], x) ==
            DeliveriesOf(deliveries, x) + if h.from == x && h.code != -1 then [h] else []
  {
    assert (deliveries + [h])[..|deliveries|] == deliveries;
  }

  /** Asking gets the status that is there, takes it away, and leaves the caller where it called. */
  lemma CallGetsStatus(s: Sys, x: Tid)
    requires Safe(s) && Legal(s, CallWait(x, true)) && Gone(s, x) && s.k.current != x && s.k.slots[x].exitCode != -1
    ensures var s' := Next(s, CallWait(x, true));
            && Sized(s') && s'.k.current == s.k.current && Top(s') == Top(s) && Top(s').top.User?
            && s'.status == Active && s'.mask == s.mask
            && s'.deliveries == s.deliveries + [Delivery(s.k.current, x, s.k.slots[x].exitCode)]
            && s'.k.slots == s.k.slots[x := s.k.slots[x].(exitCode := -1)]
  {
  }

  lemma ResumedGetsStatus(s: Sys, x: Tid)
    requires Safe(s) && Legal(s, Go) && Top(s).top == WaitTail(x) && ValidTid(x) && s.k.slots[x].exitCode != -1
    ensures var s' := Next(s, Go);
            && Sized(s') && s'.k.current == s.k.current && Top(s') == Top(s).below
            && s'.status == Active && s'.mask == s.mask
            && s'.deliveries == s.deliveries + [Delivery(s.k.current, x, s.k.slots[x].exitCode)]
            && s'.k.slots == s.k.slots[x := s.k.slots[x].(exitCode := -1, exitCode2 := s.k.slots[x].exitCode)]
  {
  }

  /** An effect that delivers, recycles, kills or exits comes from the call of that name. */
  lemma EffectAsks(s: Sys, a: Action, x: Tid)
    requires Safe(s) && Legal(s, a) && Gone(s, x)
    ensures Recycles(s.k, EffectOf(s, a), x) ==> Reuses(s, a, x)
    ensures EffectOf(s, a) != KillThread(x)
    ensures !(EffectOf(s, a).ExitWith? && s.k.current == x)
    ensures Delivers(s.k, EffectOf(s, a), x) ==> Asks(s, a, x)
  {
    EffectFits(s, a);
  }

  lemma GoneStep(s: Sys, a: Action, x: Tid)
    requires Safe(s) && Legal(s, a) && Gone(s, x) && !Reuses(s, a, x)
    ensures Gone(Next(s, a), x)
  {
    StepSafe(s, a);
    EffectAsks(s, a, x);
    EffectFits(s, a);
    StepKeepsLife(s, a, x);
  }

  // ---- deliveries ---------------------------------------------------------------------

  lemma OthersDeliverNothing(s: Sys, a: Action)
    requires Legal(s, a) && !a.CallWait? && !(a.Go? && Top(s).top.WaitTail?)
    ensures Next(s, a).deliveries == s.deliveries
  {
  }

  lemma CallDelivers(s: Sys, tid: Tid, ptr: bool)
    requires Legal(s, CallWait(tid, ptr))
    ensures var s' := Next(s, CallWait(tid, ptr));
            || s'.deliveries == s.deliveries
            || (&& ptr && tid != s.k.current && ValidTid(tid)
                && s'.deliveries == s.deliveries + [Delivery(s.k.current, tid, s.k.slots[tid].exitCode)])
  {
  }

  lemma ResumptionDelivers(s: Sys, x: Tid)
    requires Legal(s, Go) && Top(s).top == WaitTail(x) && ValidTid(x)
    ensures Next(s, Go).deliveries == s.deliveries ||
            Next(s, Go).deliveries == s.deliveries + [Delivery(s.k.current, x, s.k.slots[x].exitCode)]
  {
  }

  /** Only the two ways of asking deliver something, of the thread asked for, and nothing if its status is -1. */
  lemma NotDelivered(s: Sys, a: Action, x: Tid)
    requires Legal(s, a) && ValidTid(x) && (Asks(s, a, x) ==> s.k.slots[x].exitCode == -1)
    ensures DeliveriesOf(Next(s, a).deliveries, x) == DeliveriesOf(s.deliveries, x)
  {
    if a.CallWait? {
      CallDelivers(s, a.tid, a.ptr);
      if Next(s, a).deliveries != s.deliveries {
        DeliveriesLast(s.deliveries, Delivery(s.k.current, a.tid, s.k.slots[a.tid].exitCode), x);
      }
    } else if a.Go? && Top(s).top.WaitTail? {
      var y := Top(s).top.target;
      ResumptionDelivers(s, y);
      DeliveriesLast(s.deliveries, Delivery(s.k.current, y, s.k.slots[y].exitCode), x);
    } else {
      OthersDeliverNothing(s, a);
    }
  }

  /** Between s and s' the status of x was delivered to `asker`, as it was, or to nobody and is still there. */
  predicate DeliveredTo(s: Sys, s': Sys, x: Tid, asker: Option<Tid>)
    requires Gone(s, x) && Gone(s', x)
  {
    var c := s.k.slots[x].exitCode;
    match asker
    case None =>
      s'.k.slots[x].exitCode == c && DeliveriesOf(s'.deliveries, x) == DeliveriesOf(s.deliveries, x)
    case Some(t) =>
      && s'.k.slots[x].exitCode == -1
      && DeliveriesOf(s'.deliveries, x) ==
         DeliveriesOf(s.deliveries, x) + if c != -1 then [Delivery(t, x, c)] else []
  }

  lemma DeliveredOnce(s: Sys, s1: Sys, s2: Sys, x: Tid, first: Option<Tid>, second: Option<Tid>)
    requires Gone(s, x) && Gone(s1, x) && Gone(s2, x)
    requires DeliveredTo(s, s1, x, first) && DeliveredTo(s1, s2, x, second)
    ensures DeliveredTo(s, s2, x, if first.Some? then first else second)
  {
  }

  lemma AskedStep(s: Sys, a: Action, x: Tid)
    requires Safe(s) && Legal(s, a) && Gone(s, x) && Asks(s, a, x) && s.k.slots[x].exitCode != -1
    requires Gone(Next(s, a), x)
    ensures DeliveredTo(s, Next(s, a), x, Some(s.k.current))
  {
    DeliveriesLast(s.deliveries, Delivery(s.k.current, x, s.k.slots[x].exitCode), x);
    if a.CallWait? {
      CallGetsStatus(s, x);
    } else {
      ResumedGetsStatus(s, x);
    }
  }

  /** One step towards a thread that is gone: its status is delivered if somebody asks, and then it is -1. */
  lemma AskStep(s: Sys, a: Action, x: Tid)
    requires Safe(s) && Legal(s, a) && Gone(s, x) && !Reuses(s, a, x)
    ensures Gone(Next(s, a), x)
    ensures DeliveredTo(s, Next(s, a), x, if Asks(s, a, x) then Some(s.k.current) else None)
  {
    GoneStep(s, a, x);
    if Asks(s, a, x) && s.k.slots[x].exitCode != -1 {
      AskedStep(s, a, x);
    } else {
      EffectAsks(s, a, x);
      StepCode(s, a, x);
      NotDelivered(s, a, x);
    }
  }

  /**
   The status of a thread that is gone goes, as it is, to the first thread that
   asks for it and to no other, for as long as the slot is not reused.
   */
  lemma {:induction false} StatusDeliveredOnce(s: Sys, acts: seq<Action>, x: Tid)
    requires Safe(s) && IsRun(s, acts) && Gone(s, x) && NeverReused(s, acts, x)
    ensures Safe(After(s, acts)) && Gone(After(s, acts), x)
    ensures DeliveredTo(s, After(s, acts), x, FirstAsker(s, acts, x))
    decreases |acts|
  {
    if acts != [] {
      var s1, rest := Next(s, acts[0]), acts[1..];
      StepSafe(s, acts[0]);
      AskStep(s, acts[0], x);
      StatusDeliveredOnce(s1, rest, x);
      DeliveredOnce(s, s1, After(s1, rest), x, if Asks(s, acts[0], x) then Some(s.k.current) else None,
                    FirstAsker(s1, rest, x));
    }
  }

  // ---- end to end ------------------------------------------------------------------------

  /**
   A thread has exited, nobody has asked for its status since, and its slot has
   not been reused. A thread_wait on it then succeeds at once, whether or not it
   has been reaped: the caller goes on in user code with the status.
   */
  lemma LateWaitSucceeds(s: Sys, x: Tid, acts: seq<Action>)
    requires Reachable(s) && Sized(s) && ValidTid(x) && s.k.slots[x].state == Exited && s.k.slots[x].exitCode != -1
    requires IsRun(s, acts) && NeverReused(s, acts, x) && FirstAsker(s, acts, x).None?
    requires Legal(After(s, acts), CallWait(x, true)) && After(s, acts).k.current != x
    ensures var s1 := After(s, acts);
            var s2 := Next(s1, CallWait(x, true));
            && Sized(s1) && s1.k.slots[x].state in {Exited, Uninitialized}
            && Sized(s2) && s2.k.current == s1.k.current && Top(s2) == Top(s1) && Top(s2).top.User?
            && s2.deliveries == s1.deliveries + [Delivery(s1.k.current, x, s.k.slots[x].exitCode)]
            && s2.k.slots == s1.k.slots[x := s1.k.slots[x].(exitCode := -1)]
  {
    ReachableIsSafe(s);
    StatusDeliveredOnce(s, acts, x);
    CallGetsStatus(After(s, acts), x);
  }

  lemma StatusReachesFirstAsker(s: Sys, x: Tid, c: int, acts: seq<Action>)
    requires Safe(s) && Gone(s, x) && s.k.slots[x].exitCode == c != -1
    requires IsRun(s, acts) && NeverReused(s, acts, x)
    ensures DeliveriesOf(After(s, acts).deliveries, x) == DeliveriesOf(s.deliveries, x)
            + match FirstAsker(s, acts, x)
              case Some(asker) => [Delivery(asker, x, c)]
              case None => []
  {
    StatusDeliveredOnce(s, acts, x);
  }

  /**
   From thread_exit(c) to its answer. The caller is not killed before it exits, by
   step a; from then on, while its slot is not reused, c is delivered to the
   first thread whose thread_wait asks for it, and to no other.
   */
  lemma ArgumentReachesFirstAsker(s: Sys, c: int, acts: seq<Action>, a: Action, s1: Sys, later: seq<Action>)
    requires Reachable(s) && Legal(s, CallExit(c)) && c != -1 && IsRun(Next(s, CallExit(c)), acts)
    requires UndoomedThrough(Next(s, CallExit(c)), acts, s.k.current)
    requires Legal(After(Next(s, CallExit(c)), acts), a) && s1 == Next(After(Next(s, CallExit(c)), acts), a)
    requires Sized(s1) && s1.k.slots[s.k.current].state == Exited
    requires IsRun(s1, later) && NeverReused(s1, later, s.k.current)
    ensures DeliveriesOf(After(s1, later).deliveries, s.k.current) == DeliveriesOf(s1.deliveries, s.k.current)
            + match FirstAsker(s1, later, s.k.current)
              case Some(asker) => [Delivery(asker, s.k.current, c)]
              case None => []
  {
    ExitStatusIsArgument(s, c, acts, a);
    StatusReachesFirstAsker(s1, s.k.current, c, later);
  }

  /** Of the waiters that were asleep, the first to resume gets the argument of thread_exit, and no later one. */
  lemma FirstWaiterGetsArgument(s: Sys, c: int, acts: seq<Action>, a: Action, s1: Sys, later: seq<Action>)
    requires Reachable(s) && Legal(s, CallExit(c)) && c != -1 && IsRun(Next(s, CallExit(c)), acts)
    requires UndoomedThrough(Next(s, CallExit(c)), acts, s.k.current)
    requires Legal(After(Next(s, CallExit(c)), acts), a) && s1 == Next(After(Next(s, CallExit(c)), acts), a)
    requires Sized(s1) && s1.k.slots[s.k.current].state == Exited
    requires IsRun(s1, later) && QuietRun(s1, later, s.k.current)
    ensures ValidTid(s.k.current)
    ensures var results := WaiterResults(s1, later, s.k.current);
            && (results != [] ==> results[0] == Delivered(c))
            && forall i :: 0 < i < |results| ==> !results[i].Delivered?
  {
    ExitStatusIsArgument(s, c, acts, a);
    FirstWaiterTakesStatus(s1, later, s.k.current);
  }

  // ---- the status of a killed waiter -----------------------------------------------------

  /** t is killed in every state of the run, and no waiter on t resumes in it. */
  predicate DoomedThrough(s: Sys, acts: seq<Action>, t: Tid)
    requires IsRun(s, acts)
    decreases |acts|
  {
    && Sized(s) && ValidTid(t) && s.k.slots[t].state == Killed
    && (acts == [] ||
        (!(acts[0] == Go && Top(s).top == WaitTail(t)) && DoomedThrough(Next(s, acts[0]), acts[1..], t)))
  }

  lemma DoomedStep(s: Sys, a: Action, t: Tid)
    requires Safe(s) && Legal(s, a) && ValidTid(t) && s.k.slots[t].state == Killed
    requires !(a == Go && Top(s).top == WaitTail(t))
    requires Sized(Next(s, a)) && Next(s, a).k.slots[t].state == Killed && s.k.slots[t].exitCode == 9
    ensures Next(s, a).k.slots[t].exitCode == 9
  {
    StepCode(s, a, t);
    DoomedEffect(s, a, t);
    if t == s.k.current && EffectOf(s, a).ExitWith? {
      EffectIs(s, a);
      ExitEndsLife(s.k, EffectOf(s, a).code);
    }
  }

  lemma ExitEndsLife(k: Kernel, code: int)
    requires Inv(k) && Alive(Cur(k).state)
    ensures Shape(Exit(k, code)) && Exit(k, code).slots[k.current].state == Exited
  {
    ExitIs(k, code);
    WakeAllInv(k, WaitQueueOf(k.current));
  }

  lemma DoomedEffect(s: Sys, a: Action, t: Tid)
    requires Safe(s) && Legal(s, a) && ValidTid(t) && s.k.slots[t].state == Killed
    requires !(a == Go && Top(s).top == WaitTail(t))
    ensures !Delivers(s.k, EffectOf(s, a), t) && !Recycles(s.k, EffectOf(s, a), t)
  {
  }

  lemma {:induction false} DoomedRun(s: Sys, acts: seq<Action>, t: Tid)
    requires Safe(s) && IsRun(s, acts) && DoomedThrough(s, acts, t) && s.k.slots[t].exitCode == 9
    ensures Safe(After(s, acts)) && After(s, acts).k.slots[t].state == Killed && After(s, acts).k.slots[t].exitCode == 9
    decreases |acts|
  {
    if acts != [] {
      StepSafe(s, acts[0]);
      DoomedStep(s, acts[0], t);
      DoomedRun(Next(s, acts[0]), acts[1..], t);
    }
  }

  lemma KillGives9(s: Sys, t: Tid)
    requires Safe(s) && Legal(s, CallKill(t)) && Sized(Next(s, CallKill(t)))
    requires ValidTid(t) && t != s.k.current && s.k.slots[t].state != Killed
    requires Next(s, CallKill(t)).k.slots[t].state == Killed
    ensures Next(s, CallKill(t)).k.slots[t].exitCode == 9
  {
  }

  lemma KilledWaiterResumes(s: Sys, x: Tid)
    requires Safe(s) && Legal(s, Go) && ValidTid(x) && Top(s).top == WaitTail(x) && s.k.slots[x].exitCode == -1
    requires Cur(s.k).state == Killed && Cur(s.k).exitCode == 9
    ensures Sized(Next(s, Go)) && Next(s, Go).k == s.k
    ensures Top(Next(s, Go)) == Push(ExitCall(9), Top(s).below)
    ensures Legal(Next(s, Go), Go) && Sized(Next(Next(s, Go), Go))
    ensures var s' := Next(Next(s, Go), Go);
            s'.k.slots[s.k.current].state == Exited && s'.k.slots[s.k.current].exitCode == 9
  {
    StepSafe(s, Go);
    ExitDeposits(Next(s, Go), 9);
  }

  /**
   A thread killed in thread_wait, which finds no status of its target when it
   runs again (s1), calls thread_exit(9), and with that leaves the status 9.
   */
  lemma KilledWaiterExitsWith9(s: Sys, t: Tid, acts: seq<Action>, x: Tid, s1: Sys)
    requires Reachable(s) && Legal(s, CallKill(t)) && Sized(s)
    requires ValidTid(t) && t != s.k.current && s.k.slots[t].state != Killed
    requires IsRun(Next(s, CallKill(t)), acts) && DoomedThrough(Next(s, CallKill(t)), acts, t)
    requires s1 == After(Next(s, CallKill(t)), acts) && Legal(s1, Go)
    requires s1.k.current == t && Top(s1).top == WaitTail(x) && ValidTid(x) && s1.k.slots[x].exitCode == -1
    ensures Sized(Next(s1, Go)) && Next(s1, Go).k == s1.k
    ensures Top(Next(s1, Go)) == Push(ExitCall(9), Top(s1).below)
    ensures Legal(Next(s1, Go), Go) && Sized(Next(Next(s1, Go), Go))
    ensures var s2 := Next(Next(s1, Go), Go);
            s2.k.slots[t].state == Exited && s2.k.slots[t].exitCode == 9
  {
    ReachableIsSafe(s);
    StepSafe(s, CallKill(t));
    KillGives9(s, t);
    DoomedRun(Next(s, CallKill(t)), acts, t);
    KilledWaiterResumes(s1, x);
  }
}
