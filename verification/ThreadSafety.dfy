/**
 The machine of ThreadMachine keeps its invariant at every step, so it holds in
 every reachable state, under any preemption.
 */
module ThreadSafety {
  import opened ThreadKernel
  import opened ThreadInvariant
  import opened ThreadMachine

  // ---- stacks and the signal mask --------------------------------------------

  /** The mask with which control must be at the top frame of a stack. */
  function Need(st: Stack): bool {
    match st
    case Empty => false
    case Push(User(m), _) => m
    case Push(Start, _) => false
    case Push(Handler, _) => false
    case Push(InYield(_, _), _) => false
    case Push(AcquireLoop(_, _), _) => false
    case Push(_, below) => Need(below)
  }

  /**
   A stack that can be resumed: user code at the bottom, every saved flag equal
   to the mask its caller had, a handler only above code that had interrupts on.
   */
  predicate WellFormed(s: Sys, st: Stack) {
    match st
    case Empty => false
    case Push(User(_), below) => below.Empty?
    case Push(Start, below) => below.Empty?
    case Push(ExitTail(_), _) => false
    case Push(Handler, below) => WellFormed(s, below) && Need(below)
    case Push(InYield(saved, _), below) => WellFormed(s, below) && saved == Need(below)
    case Push(AcquireLoop(l, saved), below) =>
      WellFormed(s, below) && saved == Need(below) && l < |s.locks|
    case Push(f, below) => WellFormed(s, below) && FrameFits(s, f)
  }

  /** What the context of a thread that is not running looks like. */
  predicate Suspended(s: Sys, st: Stack) {
    WellFormed(s, st) && (st.top.Start? || st.top.InYield?)
  }

  predicate Resumable(state: ThreadState) {
    state in {Ready, Killed, Sleeping}
  }

  ghost predicate OthersSuspended(s: Sys)
    requires Sized(s)
  {
    forall t :: ValidTid(t) && t != s.k.current && Resumable(s.k.slots[t].state) ==> Suspended(s, s.conts[t])
  }

  /** Where the current thread is follows from its state, and the mask is what that point needs. */
  predicate CurrentOk(s: Sys)
    requires Sized(s)
  {
    var st := Top(s);
    && st.Push?
    && match Cur(s.k).state
       case Exited => st.top.ExitTail? && WellFormed(s, st.below) && s.mask == Need(st.below)
       case Sleeping => st.top.SleepTail? && WellFormed(s, st) && s.mask == Need(st) && s.k.queues[READY_QUEUE] != []
       case _ => WellFormed(s, st) && s.mask == Need(st)
  }

  predicate LockOk(s: Sys, l: nat)
    requires Sized(s) && l < |s.locks|
  {
    if s.locks[l].held then s.locks[l].inside == {s.locks[l].holder}
    else s.locks[l].inside == {} && s.k.queues[LockQueue(l)] == []
  }

  predicate LocksOk(s: Sys)
    requires Sized(s)
  {
    forall l :: 0 <= l < |s.locks| ==> LockOk(s, l)
  }

  ghost predicate Safe(s: Sys) {
    && Sized(s)
    && Inv(s.k)
    && OthersSuspended(s)
    && CurrentOk(s)
    && LocksOk(s)
  }

  lemma InvSized(k: Kernel)
    requires Inv(k)
    ensures forall q :: 0 <= q < |k.queues| ==> QueueInRange(k, q)
  {
  }

  // ---- steps that do not switch --------------------------------------------

  /** The current thread stays, nobody becomes resumable, and no free lock's queue fills up. */
  ghost predicate Calm(s: Sys, k': Kernel)
    requires Sized(s) && Shape(k')
  {
    && k'.current == s.k.current
    && |k'.queues| == |s.k.queues|
    && (forall t :: ValidTid(t) && t != s.k.current && Resumable(k'.slots[t].state) ==>
          Resumable(s.k.slots[t].state))
    && (forall l :: 0 <= l < |s.locks| && !s.locks[l].held && s.k.queues[LockQueue(l)] == [] ==>
          k'.queues[LockQueue(l)] == [])
  }

  /** Well-formedness depends only on the sizes of the lock and queue tables. */
  lemma {:induction false} WellFormedSame(s: Sys, s': Sys, st: Stack)
    requires |s'.locks| == |s.locks| && |s'.k.queues| == |s.k.queues|
    ensures WellFormed(s', st) == WellFormed(s, st)
  {
    if st.Push? {
      WellFormedSame(s, s', st.below);
    }
  }

  lemma OthersStay(s: Sys, s': Sys)
    requires Sized(s) && Sized(s') && OthersSuspended(s)
    requires |s'.locks| == |s.locks| && |s'.k.queues| == |s.k.queues|
    requires forall t :: ValidTid(t) && t != s'.k.current && Resumable(s'.k.slots[t].state) ==>
               t != s.k.current && Resumable(s.k.slots[t].state) && s'.conts[t] == s.conts[t]
    ensures OthersSuspended(s')
  {
    forall t | ValidTid(t) && t != s'.k.current && Resumable(s'.k.slots[t].state)
      ensures Suspended(s', s'.conts[t])
    {
      WellFormedSame(s, s', s.conts[t]);
    }
  }

  // ---- steps that switch -----------------------------------------------------

  /** Safe without what concerns the current thread's stack and the mask. */
  ghost predicate Core(s: Sys) {
    && Sized(s)
    && Inv(s.k)
    && OthersSuspended(s)
    && LocksOk(s)
  }

  function Switched(s: Sys, to: Tid, resume: Stack, m: bool): Sys
    requires Sized(s) && ValidTid(to)
  {
    SetStack(s, Push(InYield(m, to), resume)).(k := SwitchTo(s.k, to), mask := false)
  }

  lemma SwitchOthers(s: Sys, to: Tid, resume: Stack, m: bool)
    requires Core(s) && to in s.k.queues[READY_QUEUE] && Cur(s.k).state != Killed
    requires Cur(s.k).state != Exited ==> WellFormed(s, resume) && m == Need(resume)
    ensures Sized(Switched(s, to, resume, m)) && OthersSuspended(Switched(s, to, resume, m))
    ensures s.conts[to].Push? && Suspended(Switched(s, to, resume, m), s.conts[to])
  {
    var s' := Switched(s, to, resume, m);
    SwitchToInv(s.k, to);
    SwitchToSlots(s.k, to);
    SwitchToQueues(s.k, to);
    InvSized(s'.k);
    forall t | ValidTid(t) && (t == to || (t != s'.k.current && Resumable(s'.k.slots[t].state)))
      ensures Suspended(s', s'.conts[t])
    {
      WellFormedSame(s, s', s'.conts[t]);
      WellFormedSame(s, s', resume);
    }
  }

  lemma SwitchSafe(s: Sys, to: Tid, resume: Stack, m: bool)
    requires Core(s) && to in s.k.queues[READY_QUEUE] && Cur(s.k).state != Killed
    requires Cur(s.k).state != Exited ==> WellFormed(s, resume) && m == Need(resume)
    ensures Safe(Switched(s, to, resume, m))
  {
    var s' := Switched(s, to, resume, m);
    SwitchOthers(s, to, resume, m);
    SwitchToInv(s.k, to);
    SwitchToQueues(s.k, to);
    SwitchToSlots(s.k, to);
    forall l | 0 <= l < |s.locks| ensures LockOk(s', l) {
      assert LockOk(s, l);
    }
  }

  /** The current thread moves to another point of its code, the kernel unchanged. */
  lemma StackStep(s: Sys, st: Stack, m: bool)
    requires Core(s) && Alive(Cur(s.k).state)
    requires WellFormed(s, st) && m == Need(st)
    ensures Safe(SetStack(s, st).(mask := m))
  {
    var s' := SetStack(s, st).(mask := m);
    OthersStay(s, s');
    WellFormedSame(s, s', st);
    forall l | 0 <= l < |s.locks| ensures LockOk(s', l) {
      assert LockOk(s, l);
    }
  }

  lemma YieldStays(s: Sys, want: Tid, resume: Stack, m: bool)
    requires Core(s) && Alive(Cur(s.k).state) && !YieldDecision(s.k, want).Switches?
    requires WellFormed(s, resume) && m == Need(resume)
    ensures Safe(YieldFrom(s, want, resume, m))
  {
    if YieldDecision(s.k, want).Dies? {
      StackStep(s, Push(ExitCall(0), resume), m);
    } else {
      StackStep(s, resume, m);
    }
  }

  lemma YieldSwitches(s: Sys, want: Tid, resume: Stack, m: bool)
    requires Core(s) && YieldDecision(s.k, want).Switches?
    requires Cur(s.k).state != Exited ==> WellFormed(s, resume) && m == Need(resume)
    ensures Safe(YieldFrom(s, want, resume, m))
  {
    var to := YieldDecision(s.k, want).to;
    assert to in s.k.queues[READY_QUEUE];
    SwitchSafe(s, to, resume, m);
  }

  /** A yield from a running thread that has a sound place to resume at. */
  lemma YieldFromSafe(s: Sys, want: Tid, resume: Stack, m: bool)
    requires Core(s) && Alive(Cur(s.k).state)
    requires WellFormed(s, resume) && m == Need(resume)
    ensures Safe(YieldFrom(s, want, resume, m))
  {
    if YieldDecision(s.k, want).Switches? {
      YieldSwitches(s, want, resume, m);
    } else {
      YieldStays(s, want, resume, m);
    }
  }

  lemma TickSafe(s: Sys, a: Action)
    requires Safe(s) && Legal(s, a) && a.Tick?
    ensures Safe(Next(s, a))
  {
    match YieldDecision(s.k, THREAD_ANY)
    case Switches(_) => YieldSwitches(s, THREAD_ANY, Push(Handler, Top(s)), false);
    case Dies => StackStep(s, Push(ExitCall(0), Push(Handler, Top(s))), false);
    case Returns(_) =>
  }

  /** A sleeping thread that runs is about to yield, and there is somebody to yield to. */
  lemma SleepTailSafe(s: Sys)
    requires Safe(s) && Top(s).top.SleepTail?
    ensures Safe(YieldFrom(s, THREAD_ANY, Top(s).below, s.mask))
  {
    if Alive(Cur(s.k).state) {
      YieldFromSafe(s, THREAD_ANY, Top(s).below, s.mask);
    } else {
      YieldSwitches(s, THREAD_ANY, Top(s).below, s.mask);
    }
  }

  lemma ExitTailSafe(s: Sys)
    requires Safe(s) && Top(s).top.ExitTail?
    ensures Safe(StepExitTail(s, Top(s).top.second, Top(s).below))
  {
    var d := YieldDecision(s.k, THREAD_ANY);
    var below := Top(s).below;
    var s' := StepExitTail(s, Top(s).top.second, below);
    if d.Switches? {
      YieldSwitches(s, THREAD_ANY, Push(ExitTail(true), below), s.mask);
    } else {
      OthersStay(s, s');
      WellFormedSame(s, s', below);
      forall l | 0 <= l < |s.locks| ensures LockOk(s', l) {
        assert LockOk(s, l);
      }
    }
  }

  // ---- the other steps inside the library --------------------------------------

  /** Only a thread about to yield is asleep or dead while it is current. */
  lemma TopTells(s: Sys)
    requires Safe(s) && !Top(s).top.ExitTail? && !Top(s).top.SleepTail?
    ensures Alive(Cur(s.k).state)
  {
    assert SlotOk(s.k, s.k.current);
  }

  lemma WokeIsCalm(s: Sys, k': Kernel, q: int)
    requires Sized(s) && Shape(k') && IsWaitQueue(s.k, q) && Inv(s.k) && WokeFrom(s.k, k', q)
    ensures Calm(s, k')
    ensures Alive(Cur(s.k).state) ==> Cur(k') == Cur(s.k)
  {
    assert |k'.queues[READY_QUEUE] + k'.queues[q]| == |s.k.queues[READY_QUEUE] + s.k.queues[q]|;
  }

  /** Moving only the current thread, and the kernel calmly, to a point it may be at. */
  lemma MoveSafe(s: Sys, k': Kernel, st: Stack, m: bool)
    requires Core(s) && Inv(k') && Calm(s, k') && Alive(Cur(k').state)
    requires WellFormed(s, st) && m == Need(st)
    ensures Safe(SetStack(s, st).(k := k', mask := m))
  {
    var s' := SetStack(s, st).(k := k', mask := m);
    InvSized(k');
    OthersStay(s, s');
    WellFormedSame(s, s', st);
    forall l | 0 <= l < |s.locks| ensures LockOk(s', l) {
      assert LockOk(s, l);
    }
  }

  lemma ReapIsCalm(s: Sys)
    requires Core(s)
    ensures Inv(Reap(s.k)) && Calm(s, Reap(s.k)) && Cur(Reap(s.k)) == Cur(s.k)
  {
    ReapInv(s.k);
  }

  lemma ResumeSafe(s: Sys)
    requires Safe(s) && Top(s).top.InYield?
    ensures Safe(StepTop(s, Top(s).top, Top(s).below))
  {
    TopTells(s);
    ReapIsCalm(s);
    MoveSafe(s, Reap(s.k), Top(s).below, Top(s).top.saved);
  }

  lemma RetireIsCalm(s: Sys, code: int)
    requires Core(s) && Alive(Cur(s.k).state)
    ensures !IsLastThread(s.k) && Inv(Exit(s.k, code)) && Calm(s, Exit(s.k, code))
    ensures Cur(Exit(s.k, code)).state == Exited
  {
    ExitInv(s.k, code);
    var q := WaitQueueOf(s.k.current);
    var k1 := WakeAll(s.k, q);
    WakeAllInv(s.k, q);
    WokeIsCalm(s, k1, q);
  }

  lemma ExitSafe(s: Sys)
    requires Safe(s) && Top(s).top.ExitCall?
    ensures Safe(StepTop(s, Top(s).top, Top(s).below))
  {
    var code := Top(s).top.code;
    var below := Top(s).below;
    TopTells(s);
    RetireIsCalm(s, code);
    var k' := Exit(s.k, code);
    var s' := SetStack(s, Push(ExitTail(false), below)).(k := k');
    InvSized(k');
    OthersStay(s, s');
    WellFormedSame(s, s', below);
    forall l | 0 <= l < |s.locks| ensures LockOk(s', l) {
      assert LockOk(s, l);
    }
  }

  lemma FieldsAreCalm(s: Sys, k': Kernel)
    requires Core(s) && SameButFields(s.k, k')
    ensures Inv(k') && Calm(s, k') && Cur(k').state == Cur(s.k).state
  {
    FieldsInv(s.k, k');
  }

  /** The history of deliveries has no part in the invariant. */
  lemma DeliverSafe(s: Sys, from: Tid, code: int)
    requires Safe(s)
    ensures Safe(Deliver(s, from, code))
  {
    var s' := Deliver(s, from, code);
    OthersStay(s, s');
    WellFormedSame(s, s', Top(s));
    WellFormedSame(s, s', Top(s).below);
    forall l | 0 <= l < |s.locks| ensures LockOk(s', l) {
      assert LockOk(s, l);
    }
  }

  lemma WaitTailSafe(s: Sys)
    requires Safe(s) && Top(s).top.WaitTail? && FrameFits(s, Top(s).top)
    ensures Safe(StepTop(s, Top(s).top, Top(s).below))
  {
    var target := Top(s).top.target;
    TopTells(s);
    match WaitOutcome(s.k, target)
    case KilledMeanwhile(code) => StackStep(s, Push(ExitCall(code), Top(s).below), s.mask);
    case Delivered(code) =>
      WaitReturns(s, WaitEffect(s.k, target));
      DeliverSafe(SetStack(s, Top(s).below).(k := WaitEffect(s.k, target)), target, code);
    case AlreadyTaken => WaitReturns(s, WaitEffect(s.k, target));
  }

  lemma WaitReturns(s: Sys, k': Kernel)
    requires Safe(s) && Top(s).top.WaitTail? && Alive(Cur(s.k).state) && SameButFields(s.k, k')
    ensures Safe(SetStack(s, Top(s).below).(k := k'))
  {
    FieldsAreCalm(s, k');
    MoveSafe(s, k', Top(s).below, s.mask);
    assert SetStack(s, Top(s).below).(k := k', mask := s.mask) == SetStack(s, Top(s).below).(k := k');
  }

  /** A queue the current thread may sleep on: not of a dead thread, not of a free lock. */
  ghost predicate MaySleep(s: Sys, q: int)
    requires Sized(s)
  {
    && SleepTarget(s.k, q)
    && forall l :: 0 <= l < |s.locks| && q == LockQueue(l) ==> s.locks[l].held
  }

  lemma SleepFromSafe(s: Sys, q: int, resume: Stack, m: bool)
    requires Core(s) && Alive(Cur(s.k).state) && MaySleep(s, q)
    requires WellFormed(s, resume) && m == Need(resume)
    ensures Safe(SleepFrom(s, q, resume, m))
  {
    if CanSleep(s.k) {
      var k' := SleepOn(s.k, q);
      var s' := SetStack(s, Push(SleepTail, resume)).(k := k', mask := m);
      SleepOnInv(s.k, q);
      InvSized(k');
      OthersStay(s, s');
      WellFormedSame(s, s', resume);
      forall l | 0 <= l < |s.locks| ensures LockOk(s', l) {
        assert LockOk(s, l);
      }
    } else {
      StackStep(s, resume, m);
    }
  }

  lemma EnterLockSafe(s: Sys, l: nat, st: Stack, m: bool)
    requires Core(s) && Alive(Cur(s.k).state) && l < |s.locks| && !s.locks[l].held
    requires WellFormed(s, st) && m == Need(st)
    ensures Safe(SetStack(EnterLock(s, l), st).(mask := m))
  {
    var s' := SetStack(EnterLock(s, l), st).(mask := m);
    OthersStay(s, s');
    WellFormedSame(s, s', st);
    forall i | 0 <= i < |s.locks| ensures LockOk(s', i) {
      assert LockOk(s, i);
    }
  }

  lemma AcquireSafe(s: Sys)
    requires Safe(s) && Top(s).top.AcquireLoop? && FrameFits(s, Top(s).top)
    ensures Safe(StepTop(s, Top(s).top, Top(s).below))
  {
    var l := Top(s).top.lock;
    TopTells(s);
    if s.locks[l].held {
      SleepFromSafe(s, LockQueue(l), Top(s), false);
    } else {
      EnterLockSafe(s, l, Top(s).below, Top(s).top.saved);
    }
  }

  lemma StepSyncSafe(s: Sys)
    requires Safe(s) && FrameFits(s, Top(s).top)
    requires Top(s).top.AcquireLoop? || Top(s).top.CvSleep? || Top(s).top.CvReacquire? || Top(s).top.WaitTail?
    ensures Safe(StepTop(s, Top(s).top, Top(s).below))
  {
    var below := Top(s).below;
    TopTells(s);
    match Top(s).top
    case AcquireLoop(_, _) => AcquireSafe(s);
    case CvSleep(q, l) => SleepFromSafe(s, q, Push(CvReacquire(l), below), s.mask);
    case CvReacquire(l) => StackStep(s, Push(AcquireLoop(l, s.mask), below), false);
    case WaitTail(_) => WaitTailSafe(s);
  }

  lemma GoSafe(s: Sys, a: Action)
    requires Safe(s) && Legal(s, a) && a.Go?
    ensures Safe(Next(s, a))
  {
    var below := Top(s).below;
    match Top(s).top
    case InYield(_, _) => ResumeSafe(s);
    case SleepTail => SleepTailSafe(s);
    case ExitCall(_) => ExitSafe(s);
    case ExitTail(_) => ExitTailSafe(s);
    case Start => TopTells(s); StackStep(s, Push(User(true), below), true);
    case Handler => TopTells(s); StackStep(s, below, true);
    case _ => StepSyncSafe(s);
  }

  // ---- calls made by user code ---------------------------------------------

  lemma WakeupIsCalm(s: Sys, q: int, all: bool)
    requires Core(s) && Alive(Cur(s.k).state) && IsWaitQueue(s.k, q)
    ensures Inv(Wakeup(s.k, q, all)) && Calm(s, Wakeup(s.k, q, all))
    ensures Cur(Wakeup(s.k, q, all)) == Cur(s.k)
  {
    if all {
      WakeAllInv(s.k, q);
    } else {
      WakeOneInv(s.k, q);
    }
    WokeIsCalm(s, Wakeup(s.k, q, all), q);
  }

  lemma WakeupSafe(s: Sys, q: int, all: bool)
    requires Safe(s) && Top(s).top.User? && IsWaitQueue(s.k, q)
    ensures Safe(s.(k := Wakeup(s.k, q, all)))
  {
    TopTells(s);
    WakeupIsCalm(s, q, all);
    MoveKernel(s, Wakeup(s.k, q, all));
  }

  lemma MoveKernel(s: Sys, k': Kernel)
    requires Safe(s) && Top(s).top.User? && Inv(k') && Calm(s, k') && Alive(Cur(k').state)
    requires Alive(Cur(s.k).state)
    ensures Safe(s.(k := k'))
  {
    MoveSafe(s, k', Top(s), s.mask);
    assert SetStack(s, Top(s)).(k := k', mask := s.mask) == s.(k := k');
  }

  /** A release by the holder empties the lock's queue in the step that frees the lock. */
  lemma LeaveLockSafe(s: Sys, l: nat)
    requires Safe(s) && Alive(Cur(s.k).state) && l < |s.locks| && HoldsLock(s, l)
    ensures Safe(LeaveLock(s, l))
  {
    var q := LockQueue(l);
    var s' := LeaveLock(s, l);
    WakeAllInv(s.k, q);
    WokeIsCalm(s, s'.k, q);
    InvSized(s'.k);
    OthersStay(s, s');
    WellFormedSame(s, s', Top(s));
    forall i | 0 <= i < |s.locks| ensures LockOk(s', i) {
      assert LockOk(s, i);
    }
  }

  lemma CreateIsCalm(s: Sys, memory: bool)
    requires Core(s) && Alive(Cur(s.k).state) && CreateIsSound(s.k, memory)
    ensures var (k', ret) := Create(s.k, memory);
            && k'.current == s.k.current && Cur(k') == Cur(s.k)
            && |k'.queues| == |s.k.queues|
            && (ValidTid(ret) ==> ret != s.k.current)
            && (forall t :: ValidTid(t) && t != s.k.current && t != ret && Resumable(k'.slots[t].state) ==>
                  Resumable(s.k.slots[t].state))
            && (forall l :: 0 <= l < |s.locks| ==> k'.queues[LockQueue(l)] == s.k.queues[LockQueue(l)])
  {
  }

  lemma CreateSafe(s: Sys, memory: bool)
    requires Safe(s) && Top(s).top.User? && CreateIsSound(s.k, memory)
    ensures Safe(DoCreate(s, memory))
  {
    TopTells(s);
    CreateKeepsInvIff(s.k, memory);
    CreateIsCalm(s, memory);
    var s' := DoCreate(s, memory);
    var ret := Create(s.k, memory).1;
    InvSized(s'.k);
    WellFormedSame(s, s', Top(s));
    forall t | ValidTid(t) && t != s'.k.current && Resumable(s'.k.slots[t].state)
      ensures Suspended(s', s'.conts[t])
    {
      WellFormedSame(s, s', s.conts[t]);
    }
    forall l | 0 <= l < |s.locks| ensures LockOk(s', l) {
      assert LockOk(s, l);
    }
  }

  lemma KillIsCalm(s: Sys, tid: Tid)
    requires Core(s) && Alive(Cur(s.k).state) && Kill(s.k, tid).KillDone?
    requires s.k.slots[tid].state != Exited
    ensures Inv(Kill(s.k, tid).k) && Calm(s, Kill(s.k, tid).k) && Cur(Kill(s.k, tid).k) == Cur(s.k)
  {
    KillKeepsInvIff(s.k, tid);
    assert SlotOk(s.k, tid);
    if s.k.slots[tid].state == Sleeping {
      KillSleeperIs(s.k, tid);
    }
  }

  lemma StatusSafe(s: Sys, status: Status)
    requires Safe(s)
    ensures Safe(s.(status := status))
  {
    var s' := s.(status := status);
    OthersStay(s, s');
    WellFormedSame(s, s', Top(s));
    WellFormedSame(s, s', Top(s).below);
    forall l | 0 <= l < |s.locks| ensures LockOk(s', l) {
      assert LockOk(s, l);
    }
  }

  lemma KillSafe(s: Sys, tid: Tid)
    requires Safe(s) && Top(s).top.User?
    requires ValidTid(tid) ==> s.k.slots[tid].state != Exited
    ensures Safe(DoKill(s, tid))
  {
    TopTells(s);
    match Kill(s.k, tid)
    case KillRefused =>
    case KillStrays => StatusSafe(s, Crashed);
    case KillAsserts => StatusSafe(s, Crashed);
    case KillDone(k') =>
      KillIsCalm(s, tid);
      MoveKernel(s, k');
  }

  lemma FieldsSafe(s: Sys, k': Kernel)
    requires Safe(s) && Top(s).top.User? && SameButFields(s.k, k')
    ensures Safe(s.(k := k'))
  {
    TopTells(s);
    FieldsAreCalm(s, k');
    MoveKernel(s, k');
  }

  lemma WaitSafe(s: Sys, tid: Tid, ptr: bool)
    requires Safe(s) && Top(s).top.User?
    ensures Safe(DoWait(s, tid, ptr))
  {
    TopTells(s);
    match WaitTest(s.k, tid, ptr)
    case WaitRefused =>
    case WaitNullDereference => StatusSafe(s, Crashed);
    case WaitDelivers => TakeSafe(s, tid);
    case WaitSleeps => WaitSleepSafe(s, tid, ptr);
  }

  lemma TakeSafe(s: Sys, tid: Tid)
    requires Safe(s) && Top(s).top.User? && ValidTid(tid)
    ensures Safe(Deliver(s.(k := TakeCode(s.k, tid)), tid, s.k.slots[tid].exitCode))
  {
    FieldsSafe(s, TakeCode(s.k, tid));
    DeliverSafe(s.(k := TakeCode(s.k, tid)), tid, s.k.slots[tid].exitCode);
  }

  lemma WaitSleepSafe(s: Sys, tid: Tid, ptr: bool)
    requires Safe(s) && Top(s).top.User? && WaitTest(s.k, tid, ptr) == WaitSleeps && ValidTid(tid)
    ensures Safe(DoWait(s, tid, ptr))
  {
    TopTells(s);
    var s1 := s.(k := NoteWaitingOn(s.k, s.k.current, tid));
    FieldsSafe(s, s1.k);
    SleepFromSafe(s1, WaitQueueOf(tid), Push(WaitTail(tid), Top(s)), s.mask);
  }

  lemma CvWaitSafe(s: Sys, q: int, l: nat)
    requires Safe(s) && Top(s).top.User? && UserQueue(s, q) && l < |s.locks|
    ensures Safe(DoCvWait(s, q, l))
  {
    if HoldsLock(s, l) {
      TopTells(s);
      var s1 := SetStack(s, Push(CvSleep(q, l), Top(s)));
      StackStep(s, Push(CvSleep(q, l), Top(s)), s.mask);
      assert SetStack(s, Push(CvSleep(q, l), Top(s))).(mask := s.mask) == s1;
      LeaveLockSafe(s1, l);
    }
  }

  predicate IsThreadCall(a: Action) {
    a.SetMask? || a.CallYield? || a.CallCreate? || a.CallExit? || a.CallKill? || a.CallWait?
  }

  lemma ThreadCallSafe(s: Sys, a: Action)
    requires Safe(s) && Legal(s, a) && IsThreadCall(a)
    ensures Safe(Next(s, a))
  {
    TopTells(s);
    match a
    case SetMask(on) => StackStep(s, Push(User(on), Top(s).below), on);
    case CallYield(want) => YieldFromSafe(s, want, Top(s), s.mask);
    case CallCreate(memory) => CreateSafe(s, memory);
    case CallExit(code) =>
      StackStep(s, Push(ExitCall(code), Top(s)), s.mask);
      assert SetStack(s, Push(ExitCall(code), Top(s))).(mask := s.mask) == SetStack(s, Push(ExitCall(code), Top(s)));
    case CallKill(tid) => KillSafe(s, tid);
    case CallWait(tid, ptr) => WaitSafe(s, tid, ptr);
  }

  lemma SyncCallSafe(s: Sys, a: Action)
    requires Safe(s) && Legal(s, a) && !a.Tick? && !a.Go? && !IsThreadCall(a)
    ensures Safe(Next(s, a))
  {
    TopTells(s);
    match a
    case CallSleep(q) => SleepFromSafe(s, q, Top(s), s.mask);
    case CallWakeup(q, all) => WakeupSafe(s, q, all);
    case CallAcquire(l) => StackStep(s, Push(AcquireLoop(l, s.mask), Top(s)), false);
    case CallRelease(l) => LeaveLockSafe(s, l);
    case CallCvWait(q, l) => CvWaitSafe(s, q, l);
    case CallCvSignal(q, l, all) => if HoldsLock(s, l) { WakeupSafe(s, q, all); }
  }

  // ---- the main theorem ------------------------------------------------------

  lemma InitSafe(nLocks: nat, nQueues: nat)
    ensures Safe(Init(nLocks, nQueues))
  {
    BootInv(nLocks + nQueues);
  }

  lemma StepSafe(s: Sys, a: Action)
    requires Safe(s) && Legal(s, a)
    ensures Safe(Next(s, a))
  {
    if a.Tick? {
      TickSafe(s, a);
    } else if a.Go? {
      GoSafe(s, a);
    } else if IsThreadCall(a) {
      ThreadCallSafe(s, a);
    } else {
      SyncCallSafe(s, a);
    }
  }

  lemma {:induction false} RunSafe(s: Sys, acts: seq<Action>)
    requires Safe(s) && IsRun(s, acts)
    ensures Safe(After(s, acts))
    decreases |acts|
  {
    if acts != [] {
      StepSafe(s, acts[0]);
      RunSafe(Next(s, acts[0]), acts[1..]);
    }
  }
}
