/**
 Runs seen from one thread: the signal mask its calls give back to it, and the
 lock it holds when a call that acquires one returns.
 */
module ThreadStacks {
  import opened ThreadKernel
  import opened ThreadInvariant
  import opened ThreadMachine
  import opened ThreadSafety

  /** base is what remains of st after some of its top frames. */
  predicate Above(st: Stack, base: Stack) {
    st == base || (st.Push? && Above(st.below, base))
  }

  /** The part of the current thread's stack that its next step cannot remove. */
  function Kept(st: Stack): Stack {
    if st.Push? && !st.top.User? && !st.top.Start? then st.below else st
  }

  lemma YieldKeepsStack(s: Sys, want: Tid, resume: Stack, m: bool, base: Stack)
    requires Sized(s) && Above(resume, base)
    requires YieldDecision(s.k, want).Switches? ==> ValidTid(YieldDecision(s.k, want).to)
    ensures Above(YieldFrom(s, want, resume, m).conts[s.k.current], base)
  {
  }

  lemma GoKeepsStack(s: Sys, a: Action)
    requires Legal(s, a) && a.Go? && !Top(s).top.Start? && Inv(s.k)
    ensures Above(Next(s, a).conts[s.k.current], Kept(Top(s)))
  {
    var below := Top(s).below;
    match Top(s).top
    case SleepTail => YieldKeepsStack(s, THREAD_ANY, below, s.mask, below);
    case ExitTail(_) => YieldKeepsStack(s, THREAD_ANY, Push(ExitTail(true), below), s.mask, below);
    case _ =>
  }

  lemma CallKeepsStack(s: Sys, a: Action)
    requires Legal(s, a) && !a.Go? && !a.SetMask? && Inv(s.k)
    requires a.CallCreate? ==> Create(s.k, a.memory).1 != s.k.current
    ensures Above(Next(s, a).conts[s.k.current], Kept(Top(s)))
  {
    match a
    case Tick => YieldKeepsStack(s, THREAD_ANY, Push(Handler, Top(s)), false, Kept(Top(s)));
    case CallYield(want) => YieldKeepsStack(s, want, Top(s), s.mask, Top(s));
    case _ =>
  }

  lemma GoKeepsOthers(s: Sys, t: Tid)
    requires Legal(s, Go) && ValidTid(t) && t != s.k.current
    ensures Next(s, Go).conts[t] == s.conts[t]
  {
  }

  lemma YieldKeepsOthers(s: Sys, a: Action, t: Tid)
    requires Legal(s, a) && (a.Tick? || a.CallYield?) && ValidTid(t) && t != s.k.current
    ensures Next(s, a).conts[t] == s.conts[t]
  {
  }

  lemma CallKeepsOthers(s: Sys, a: Action, t: Tid)
    requires Legal(s, a) && !a.Go? && !a.Tick? && !a.CallYield? && ValidTid(t) && t != s.k.current
    requires s.k.slots[t].state !in {Exited, Uninitialized}
    ensures Next(s, a).conts[t] == s.conts[t]
  {
  }

  /** A thread that is not running keeps its stack, unless its slot is free for reuse. */
  lemma OthersKeepStacks(s: Sys, a: Action, t: Tid)
    requires Legal(s, a) && ValidTid(t) && t != s.k.current
    requires s.k.slots[t].state !in {Exited, Uninitialized}
    ensures Next(s, a).conts[t] == s.conts[t]
  {
    if a.Go? {
      GoKeepsOthers(s, t);
    } else if a.Tick? || a.CallYield? {
      YieldKeepsOthers(s, a, t);
    } else {
      CallKeepsOthers(s, a, t);
    }
  }

  lemma OwnStackKept(s: Sys, a: Action)
    requires Safe(s) && Legal(s, a) && !a.SetMask? && !Top(s).top.Start?
    ensures Above(Next(s, a).conts[s.k.current], Kept(Top(s)))
  {
    if a.Go? {
      GoKeepsStack(s, a);
    } else {
      if a.CallCreate? {
        TopTells(s);
        CreateIsCalm(s, a.memory);
      }
      CallKeepsStack(s, a);
    }
  }

  lemma OthersKeepStack(s: Sys, a: Action, t: Tid)
    requires Safe(s) && Legal(s, a) && ValidTid(t) && t != s.k.current
    requires s.k.slots[t].state !in {Exited, Uninitialized}
    ensures |Next(s, a).conts| == THREAD_MAX_THREADS && Next(s, a).conts[t] == s.conts[t]
  {
    StepSafe(s, a);
    OthersKeepStacks(s, a, t);
  }

  // ---- runs of one thread ----------------------------------------------------

  predicate Lives(s: Sys, t: Tid)
    requires Sized(s) && ValidTid(t)
  {
    s.k.slots[t].state !in {Exited, Uninitialized}
  }

  /** t does not exit during the run, and takes no user action that `barred` excludes. */
  ghost predicate LivesThrough(s: Sys, acts: seq<Action>, t: Tid, barred: Action -> bool)
    requires IsRun(s, acts) && ValidTid(t)
    decreases |acts|
  {
    Sized(s) && Lives(s, t) &&
    (acts == [] ||
     (!(s.k.current == t && Top(s).top.User? && barred(acts[0]))
      && LivesThrough(Next(s, acts[0]), acts[1..], t, barred)))
  }

  // ---- the interrupt flag ----------------------------------------------------

  function Bottom(st: Stack): Frame
    requires st.Push?
  {
    if st.below.Push? then Bottom(st.below) else st.top
  }

  lemma {:induction false} AboveBottom(st: Stack, base: Stack)
    requires Above(st, base) && base.Push?
    ensures st.Push? && Bottom(st) == Bottom(base)
  {
    if st != base {
      AboveBottom(st.below, base);
    }
  }

  lemma BottomKept(s: Sys, a: Action, t: Tid, m: bool)
    requires Safe(s) && Legal(s, a) && ValidTid(t) && Lives(s, t)
    requires s.conts[t].Push? && Bottom(s.conts[t]) == User(m)
    requires !(s.k.current == t && a.SetMask?)
    ensures |Next(s, a).conts| == THREAD_MAX_THREADS
    ensures Next(s, a).conts[t].Push? && Bottom(Next(s, a).conts[t]) == User(m)
  {
    StepSafe(s, a);
    if t == s.k.current {
      StartIsAlone(s);
      OwnStackKept(s, a);
      AboveBottom(Next(s, a).conts[t], Kept(Top(s)));
    } else {
      OthersKeepStack(s, a, t);
    }
  }

  lemma StartIsAlone(s: Sys)
    requires Safe(s)
    ensures Top(s).top.User? || Top(s).top.Start? || Top(s).below.Push?
    ensures Top(s).top.Start? ==> Bottom(Top(s)) == Start
  {
    if Top(s).below.Empty? {
      assert !WellFormed(s, Top(s).below);
    }
  }

  /**
   Whatever calls a thread makes, across any number of context switches, it is
   in user code with the interrupt state that it last set itself.
   */
  lemma {:induction false} MaskIsTheCallers(s: Sys, acts: seq<Action>, t: Tid, m: bool)
    requires Safe(s) && IsRun(s, acts) && ValidTid(t)
    requires s.conts[t].Push? && Bottom(s.conts[t]) == User(m)
    requires LivesThrough(s, acts, t, (a: Action) => a.SetMask?)
    ensures var s' := After(s, acts);
            Sized(s') && (s'.k.current == t && Top(s').Push? && Top(s').top.User? ==> s'.mask == m)
    decreases |acts|
  {
    if acts == [] {
      UserMask(s, t, m);
    } else {
      BottomKept(s, acts[0], t, m);
      StepSafe(s, acts[0]);
      MaskIsTheCallers(Next(s, acts[0]), acts[1..], t, m);
    }
  }

  lemma UserMask(s: Sys, t: Tid, m: bool)
    requires Safe(s) && ValidTid(t) && s.conts[t].Push? && Bottom(s.conts[t]) == User(m)
    ensures s.k.current == t && Top(s).top.User? ==> s.mask == m
  {
  }

  // ---- locks -------------------------------------------------------------------

  /** A free lock has nobody inside and nobody waiting; a held one has its holder inside, alone. */
  lemma MutualExclusion(s: Sys, l: nat)
    requires Safe(s) && l < |s.locks|
    ensures forall t, t' :: t in s.locks[l].inside && t' in s.locks[l].inside ==> t == t'
    ensures forall t :: t in s.locks[l].inside ==> s.locks[l].held && s.locks[l].holder == t
    ensures s.locks[l].held <==> s.locks[l].inside != {}
    ensures s.k.queues[LockQueue(l)] != [] ==> s.locks[l].held
  {
    assert LockOk(s, l);
  }

  predicate IsLockFrame(f: Frame, l: nat) {
    || (f.AcquireLoop? && f.lock == l)
    || (f.CvSleep? && f.lock == l)
    || (f.CvReacquire? && f.lock == l)
  }

  /** The stack holds a call that returns only with lock l held. */
  predicate Acquiring(st: Stack, l: nat) {
    st.Push? && (IsLockFrame(st.top, l) || Acquiring(st.below, l))
  }

  lemma {:induction false} AboveAcquiring(st: Stack, base: Stack, l: nat)
    requires Above(st, base) && Acquiring(base, l)
    ensures Acquiring(st, l)
  {
    if st != base {
      AboveAcquiring(st.below, base, l);
    }
  }

  /** Either t is still in the call, or it has the lock. */
  predicate AcquiringOrInside(s: Sys, t: Tid, l: nat)
    requires Sized(s) && ValidTid(t) && l < |s.locks|
  {
    Acquiring(s.conts[t], l) || t in s.locks[l].inside
  }

  /** Only a thread's own release or cv_wait takes it out of a lock. */
  lemma InsideStays(s: Sys, a: Action, t: Tid, l: nat)
    requires Legal(s, a) && ValidTid(t) && l < |s.locks| && t in s.locks[l].inside
    requires a.Tick? || !(s.k.current == t && Top(s).top.User?)
    ensures l < |Next(s, a).locks| && t in Next(s, a).locks[l].inside
  {
  }

  /** A lock frame on top of the current stack is replaced by another, or the lock is entered. */
  lemma LockFrameStep(s: Sys, a: Action, l: nat)
    requires Safe(s) && Legal(s, a) && a.Go? && IsLockFrame(Top(s).top, l)
    ensures l < |Next(s, a).locks| && |Next(s, a).conts| == THREAD_MAX_THREADS
    ensures Acquiring(Next(s, a).conts[s.k.current], l) || s.k.current in Next(s, a).locks[l].inside
  {
  }

  lemma AcquiringStep(s: Sys, a: Action, t: Tid, l: nat)
    requires Safe(s) && Legal(s, a) && ValidTid(t) && Lives(s, t) && l < |s.locks|
    requires Acquiring(s.conts[t], l) && !(s.k.current == t && Top(s).top.User?)
    ensures l < |Next(s, a).locks| && |Next(s, a).conts| == THREAD_MAX_THREADS
    ensures Acquiring(Next(s, a).conts[t], l) || t in Next(s, a).locks[l].inside
  {
    StepSafe(s, a);
    LocksKept(s, a);
    if t != s.k.current {
      OthersKeepStack(s, a, t);
    } else if a.Go? && IsLockFrame(Top(s).top, l) {
      LockFrameStep(s, a, l);
    } else if a.Go? {
      StartNotAcquiring(s, l);
      OwnStackKept(s, a);
      AboveAcquiring(Next(s, a).conts[t], Top(s).below, l);
    } else {
      TickKeepsStack(s, a);
      AboveAcquiring(Next(s, a).conts[t], Top(s), l);
    }
  }

  lemma StartNotAcquiring(s: Sys, l: nat)
    requires Safe(s) && Acquiring(Top(s), l)
    ensures !Top(s).top.Start? && !Top(s).top.User?
  {
  }

  lemma LocksKept(s: Sys, a: Action)
    requires Legal(s, a)
    ensures |Next(s, a).locks| == |s.locks|
  {
  }

  lemma TickKeepsStack(s: Sys, a: Action)
    requires Legal(s, a) && a.Tick? && Inv(s.k)
    ensures Above(Next(s, a).conts[s.k.current], Top(s))
  {
    YieldKeepsStack(s, THREAD_ANY, Push(Handler, Top(s)), false, Top(s));
  }

  /**
   A thread that is in lock_acquire(l), or in cv_wait with lock l, is back in
   user code only with the lock: no preemption, wakeup or kill breaks this.
   */
  lemma {:induction false} ReturnsWithLock(s: Sys, acts: seq<Action>, t: Tid, l: nat)
    requires Safe(s) && IsRun(s, acts) && ValidTid(t) && l < |s.locks|
    requires AcquiringOrInside(s, t, l)
    requires LivesThrough(s, acts, t, (a: Action) => !a.Tick?)
    ensures var s' := After(s, acts);
            && Safe(s') && l < |s'.locks|
            && (s'.k.current == t && Top(s').top.User? ==>
                  t in s'.locks[l].inside && HoldsLock(s', l))
    decreases |acts|
  {
    UserNotAcquiring(s, t, l);
    if acts == [] {
      MutualExclusion(s, l);
    } else {
      AcquiringOrInsideStep(s, acts[0], t, l);
      StepSafe(s, acts[0]);
      ReturnsWithLock(Next(s, acts[0]), acts[1..], t, l);
    }
  }

  lemma AcquiringOrInsideStep(s: Sys, a: Action, t: Tid, l: nat)
    requires Safe(s) && Legal(s, a) && ValidTid(t) && Lives(s, t) && l < |s.locks|
    requires AcquiringOrInside(s, t, l) && (a.Tick? || !(s.k.current == t && Top(s).top.User?))
    ensures Sized(Next(s, a)) && l < |Next(s, a).locks| && AcquiringOrInside(Next(s, a), t, l)
  {
    StepSafe(s, a);
    if t in s.locks[l].inside {
      InsideStays(s, a, t, l);
    } else {
      UserNotAcquiring(s, t, l);
      AcquiringStep(s, a, t, l);
    }
  }

  lemma UserNotAcquiring(s: Sys, t: Tid, l: nat)
    requires Safe(s) && ValidTid(t)
    ensures s.k.current == t && Top(s).top.User? ==> !Acquiring(s.conts[t], l)
  {
  }
}
