/**
 What every step does to the ready queue, and how long a thread can wait in it.
 */
module ThreadDispatch {
  import opened Seqs
  import opened ThreadKernel
  import opened ThreadInvariant
  import opened ThreadMachine
  import opened ThreadSafety
  import opened ThreadEffects

  /** The same thread runs on, and the ready queue at most got longer at its end. */
  ghost predicate Grows(k: Kernel, k': Kernel)
    requires Shape(k)
  {
    && Shape(k')
    && k'.current == k.current
    && k'.prev == k.prev
    && k.queues[READY_QUEUE] <= k'.queues[READY_QUEUE]
  }

  lemma WakeupGrows(k: Kernel, q: int, all: bool)
    requires Inv(k) && IsWaitQueue(k, q) && Alive(Cur(k).state)
    ensures Grows(k, Wakeup(k, q, all))
  {
    if all {
      WakeAllInv(k, q);
      WakeAllIsFifo(k, q);
    } else {
      WakeOneInv(k, q);
    }
  }

  lemma ExitGrows(k: Kernel, code: int)
    requires Inv(k) && Alive(Cur(k).state)
    ensures Grows(k, Exit(k, code))
  {
    var q := WaitQueueOf(k.current);
    WakeAllInv(k, q);
    WakeAllIsFifo(k, q);
    ExitIs(k, code);
  }

  lemma KillGrows(k: Kernel, tid: Tid)
    requires Inv(k) && Kill(k, tid).KillDone?
    ensures Grows(k, Kill(k, tid).k)
  {
    if k.slots[tid].state == Sleeping {
      KillSleeperIs(k, tid);
    }
  }

  /** Every effect but a switch. */
  lemma EffectGrows(k: Kernel, e: Effect)
    requires Inv(k) && Fits(k, e) && !e.Switch?
    ensures Grows(k, Apply(k, e))
  {
    match e
    case ReapZombie => ReapInv(k);
    case ExitWith(code) => ExitGrows(k, code);
    case WakeFrom(q, all) => WakeupGrows(k, q, all);
    case KillThread(tid) => KillGrows(k, tid);
    case _ =>
  }

  /**
   A switch lands on a thread that was ready and may run, and `prev` is the
   thread it leaves; no other step changes the current thread.
   */
  lemma OnlySwitchesChangeCurrent(s: Sys, a: Action)
    requires Safe(s) && Legal(s, a)
    ensures Shape(Next(s, a).k)
    ensures !EffectOf(s, a).Switch? ==> Next(s, a).k.current == s.k.current && Next(s, a).k.prev == s.k.prev
    ensures EffectOf(s, a).Switch? ==>
              && Next(s, a).k.current == EffectOf(s, a).to != s.k.current
              && Next(s, a).k.current in s.k.queues[READY_QUEUE]
              && Next(s, a).k.prev == s.k.current
              && Alive(Cur(Next(s, a).k).state)
  {
    EffectIs(s, a);
    match EffectOf(s, a)
    case Switch(to, _) => SwitchToSlots(s.k, to); SwitchToInv(s.k, to);
    case e => EffectGrows(s.k, e);
  }

  // ---- bounded waiting -------------------------------------------------------

  lemma {:induction false} IndexOfPrefix(r: seq<Tid>, r': seq<Tid>, t: Tid)
    requires r <= r' && t in r
    ensures IndexOf(r', t) == IndexOf(r, t)
  {
    if r[0] != t {
      assert t in r[1..];
      IndexOfPrefix(r[1..], r'[1..], t);
    }
  }

  lemma {:induction false} IndexOfRemove(r: seq<Tid>, u: Tid, t: Tid)
    requires NoDup(r) && t in r && u != t
    ensures t in Remove(r, u)
    ensures IndexOf(Remove(r, u), t) == IndexOf(r, t) - if IndexOf(r, u) < IndexOf(r, t) then 1 else 0
  {
    RemoveFacts(r, u);
    if r[0] != t && r[0] != u {
      assert t in r[1..];
      IndexOfRemove(r[1..], u, t);
      assert Remove(r, u)[1..] == Remove(r[1..], u);
    }
  }

  /** A dispatch of the head of the ready queue. */
  predicate IsAnyDispatch(e: Effect) {
    e.Switch? && e.want == THREAD_ANY
  }

  lemma SwitchPosition(k: Kernel, e: Effect, t: Tid)
    requires Inv(k) && Fits(k, e) && e.Switch? && t in k.queues[READY_QUEUE] && t != e.to
    ensures var r, r' := k.queues[READY_QUEUE], Apply(k, e).queues[READY_QUEUE];
            t in r' && IndexOf(r', t) <= IndexOf(r, t) - if IsAnyDispatch(e) then 1 else 0
  {
    var r := k.queues[READY_QUEUE];
    SwitchToQueues(k, e.to);
    IndexOfRemove(r, e.to, t);
    IndexOfPrefix(Remove(r, e.to), Apply(k, e).queues[READY_QUEUE], t);
  }

  /** A queued thread keeps its place, moves up, or runs; each dispatch of the head moves it up. */
  lemma PositionNeverGrows(s: Sys, a: Action, t: Tid)
    requires Safe(s) && Legal(s, a) && t in s.k.queues[READY_QUEUE]
    ensures Shape(Next(s, a).k)
    ensures var r, r' := s.k.queues[READY_QUEUE], Next(s, a).k.queues[READY_QUEUE];
            || Next(s, a).k.current == t
            || (t in r' && IndexOf(r', t) <= IndexOf(r, t) - if IsAnyDispatch(EffectOf(s, a)) then 1 else 0)
  {
    EffectIs(s, a);
    var e := EffectOf(s, a);
    OnlySwitchesChangeCurrent(s, a);
    if e.Switch? {
      if e.to != t {
        SwitchPosition(s.k, e, t);
      }
    } else {
      EffectGrows(s.k, e);
      IndexOfPrefix(s.k.queues[READY_QUEUE], Next(s, a).k.queues[READY_QUEUE], t);
    }
  }

  function CountAnyDispatches(s: Sys, acts: seq<Action>): nat
    requires IsRun(s, acts)
    decreases |acts|
  {
    if acts == [] then 0
    else (if IsAnyDispatch(EffectOf(s, acts[0])) then 1 else 0)
         + CountAnyDispatches(Next(s, acts[0]), acts[1..])
  }

  /** Some step of the run makes t the current thread. */
  predicate RunsDuring(s: Sys, acts: seq<Action>, t: Tid)
    requires IsRun(s, acts)
    decreases |acts|
  {
    acts != [] && (Next(s, acts[0]).k.current == t || RunsDuring(Next(s, acts[0]), acts[1..], t))
  }

  /** A thread with p threads ahead of it runs by the (p + 1)-th dispatch of the head. */
  lemma {:induction false} BoundedWaiting(s: Sys, acts: seq<Action>, t: Tid)
    requires Safe(s) && IsRun(s, acts) && t in s.k.queues[READY_QUEUE]
    requires CountAnyDispatches(s, acts) > IndexOf(s.k.queues[READY_QUEUE], t)
    ensures RunsDuring(s, acts, t)
    decreases |acts|
  {
    PositionNeverGrows(s, acts[0], t);
    StepSafe(s, acts[0]);
    var s' := Next(s, acts[0]);
    if s'.k.current != t {
      BoundedWaiting(s', acts[1..], t);
    }
  }
}
