/**
 The data of the user-level thread package and the effect of each of its
 regions that run with interrupts off (threads/thread.c).

 Queue 0 is the ready queue and queue t + 1 is the wait queue of thread t; the
 queues above THREAD_MAX_THREADS belong to locks, condition variables and
 users. Three components are history: `prev` is the thread that ran before the
 current one, `nextStack` numbers stack allocations, and `freed` lists the
 stacks passed to free, in order.
 */
module ThreadKernel {
  import opened Seqs

  const THREAD_MAX_THREADS: nat := 1024

  type Tid = int
  const THREAD_ANY: Tid := -1
  const THREAD_SELF: Tid := -2
  const THREAD_INVALID: Tid := -3
  const THREAD_NONE: Tid := -4
  const THREAD_NOMORE: Tid := -5
  const THREAD_NOMEMORY: Tid := -6

  datatype ThreadState = Ready | Running | Exited | Killed | Uninitialized | Sleeping

  /** A thread control block. Stack 0 is the null pointer. */
  datatype Slot = Slot(state: ThreadState, stack: nat, waitingOn: int, exitCode: int, exitCode2: int)

  datatype Kernel = Kernel(
    slots: seq<Slot>,
    queues: seq<seq<Tid>>,
    current: Tid,
    existing: int,
    prev: Tid,
    nextStack: nat,
    freed: seq<nat>)

  const READY_QUEUE: nat := 0

  function WaitQueueOf(t: Tid): int {
    t + 1
  }

  predicate ValidTid(t: Tid) {
    0 <= t < THREAD_MAX_THREADS
  }

  /** The table sizes, which no operation changes. */
  predicate Shape(k: Kernel) {
    && |k.slots| == THREAD_MAX_THREADS
    && |k.queues| > THREAD_MAX_THREADS
    && ValidTid(k.current)
    && ValidTid(k.prev)
  }

  predicate IsWaitQueue(k: Kernel, q: int) {
    1 <= q < |k.queues|
  }

  predicate Alive(state: ThreadState) {
    state == Running || state == Killed
  }

  function Cur(k: Kernel): Slot
    requires Shape(k)
  {
    k.slots[k.current]
  }

  function SetState(k: Kernel, t: Tid, state: ThreadState): Kernel
    requires Shape(k) && ValidTid(t)
  {
    k.(slots := k.slots[t := k.slots[t].(state := state)])
  }

  function Enqueue(k: Kernel, q: int, t: Tid): Kernel
    requires 0 <= q < |k.queues|
  {
    k.(queues := k.queues[q := k.queues[q] + [t]])
  }

  function Dequeue(k: Kernel, q: int, t: Tid): Kernel
    requires 0 <= q < |k.queues|
  {
    k.(queues := k.queues[q := Remove(k.queues[q], t)])
  }

  // ---- thread_init -------------------------------------------------------

  /** Static storage is zero, so every slot starts with exit code 0. */
  function Boot(nQueues: nat): Kernel {
    var blank := Slot(Uninitialized, 0, 0, 0, 0);
    Kernel(
      seq(THREAD_MAX_THREADS, i => if i == 0 then Slot(Running, 0, -1, 0, 0) else blank),
      seq(THREAD_MAX_THREADS + 1 + nQueues, i => []),
      0, 1, 0, 1, [])
  }

  // ---- thread_create -----------------------------------------------------

  /** The first slot at or after i that thread_create_helper can use. */
  function FirstFree(slots: seq<Slot>, i: nat): (r: nat)
    requires i <= |slots|
    ensures i <= r <= |slots|
    ensures r < |slots| ==> slots[r].state in {Uninitialized, Exited}
    ensures forall j :: i <= j < r ==> slots[j].state !in {Uninitialized, Exited}
    decreases |slots| - i
  {
    if i == |slots| || slots[i].state in {Uninitialized, Exited} then i else FirstFree(slots, i + 1)
  }

  function FreeStack(freed: seq<nat>, stack: nat): seq<nat> {
    if stack == 0 then freed else freed + [stack]
  }

  /** set_context_function: a new stack, an empty wait queue, onto the ready queue. */
  function SetUp(k: Kernel, i: Tid): Kernel
    requires Shape(k) && ValidTid(i)
  {
    var slot := k.slots[i].(state := Ready, stack := k.nextStack, waitingOn := -1);
    var k1 := k.(slots := k.slots[i := slot],
                 queues := k.queues[WaitQueueOf(i) := []],
                 nextStack := k.nextStack + 1);
    Enqueue(k1, READY_QUEUE, i).(existing := k.existing + 1)
  }

  /** The state in which thread_create_helper calls malloc. */
  function Reclaim(k: Kernel, i: Tid): Kernel
    requires Shape(k) && ValidTid(i)
  {
    if k.slots[i].state == Uninitialized then k.(slots := k.slots[i := k.slots[i].(exitCode := -1)])
    else k.(slots := k.slots[i := k.slots[i].(exitCode := -1, state := Ready)],
            freed := FreeStack(k.freed, k.slots[i].stack))
  }

  /** `memory` says whether malloc of the stack succeeds. */
  function Create(k: Kernel, memory: bool): (Kernel, Tid)
    requires Shape(k)
  {
    var i := FirstFree(k.slots, 0);
    if k.existing >= THREAD_MAX_THREADS || i == THREAD_MAX_THREADS then (k, THREAD_NOMORE)
    else
      var k1 := Reclaim(k, i);
      if memory then (SetUp(k1, i), i) else (k1, THREAD_NOMEMORY)
  }

  /** malloc succeeds, or no zombie has to be reused. */
  predicate CreateIsSound(k: Kernel, memory: bool)
    requires Shape(k)
  {
    var i := FirstFree(k.slots, 0);
    memory || k.existing >= THREAD_MAX_THREADS || i == THREAD_MAX_THREADS || k.slots[i].state == Uninitialized
  }

  // ---- thread_yield ------------------------------------------------------

  datatype YieldOutcome = Dies | Returns(value: Tid) | Switches(to: Tid)

  function YieldDecision(k: Kernel, want: Tid): YieldOutcome
    requires Shape(k)
  {
    if Cur(k).state == Killed then Dies
    else if want >= THREAD_MAX_THREADS || want < -2 then Returns(THREAD_INVALID)
    else if want == THREAD_SELF || want == k.current then Returns(k.current)
    else if want == THREAD_ANY then
      if k.queues[READY_QUEUE] == [] then Returns(THREAD_NONE) else Switches(k.queues[READY_QUEUE][0])
    else if want in k.queues[READY_QUEUE] then Switches(want)
    else Returns(THREAD_INVALID)
  }

  predicate IsZombie(k: Kernel, i: Tid)
    requires Shape(k) && ValidTid(i)
  {
    i != k.current && k.slots[i].state == Exited
  }

  function ReapSlot(k: Kernel, i: Tid): Kernel
    requires Shape(k) && ValidTid(i)
  {
    if IsZombie(k, i) then
      SetState(k, i, Uninitialized).(
        freed := FreeStack(k.freed, k.slots[i].stack),
        queues := k.queues[WaitQueueOf(i) := []])
    else k
  }

  /** The reaper loop after its first n iterations. */
  function ReapUpTo(k: Kernel, n: nat): (r: Kernel)
    requires Shape(k) && n <= THREAD_MAX_THREADS
    ensures Shape(r) && r.current == k.current
  {
    if n == 0 then k else ReapSlot(ReapUpTo(k, n - 1), n - 1)
  }

  function Reap(k: Kernel): (r: Kernel)
    requires Shape(k)
    ensures Shape(r) && r.current == k.current
  {
    ReapUpTo(k, THREAD_MAX_THREADS)
  }

  /** From getcontext to setcontext: reap, requeue a running caller, install `to`. */
  function Install(k: Kernel, to: Tid): Kernel
    requires Shape(k) && ValidTid(to)
  {
    var k1 := Reap(k);
    var k2 := if Cur(k1).state == Running
              then Enqueue(SetState(k1, k1.current, Ready), READY_QUEUE, k1.current) else k1;
    var k3 := if k2.slots[to].state != Killed then SetState(k2, to, Running) else k2;
    k3.(current := to, prev := k.current)
  }

  function SwitchTo(k: Kernel, to: Tid): Kernel
    requires Shape(k) && ValidTid(to)
  {
    Install(Dequeue(k, READY_QUEUE, to), to)
  }

  // ---- thread_sleep and thread_wakeup --------------------------------------

  predicate CanSleep(k: Kernel) {
    k.existing != 1
  }

  function SleepOn(k: Kernel, q: int): Kernel
    requires Shape(k) && IsWaitQueue(k, q)
  {
    Enqueue(SetState(k, k.current, Sleeping), q, k.current).(existing := k.existing - 1)
  }

  predicate QueueInRange(k: Kernel, q: int)
    requires 0 <= q < |k.queues|
  {
    forall t :: t in k.queues[q] ==> ValidTid(t)
  }

  /** A thread that left a wait queue goes to the end of the ready queue. */
  function MakeReady(k: Kernel, t: Tid): Kernel
    requires Shape(k) && ValidTid(t)
  {
    var k1 := if k.slots[t].state != Killed then SetState(k, t, Ready) else k;
    Enqueue(k1, READY_QUEUE, t).(existing := k.existing + 1)
  }

  /** Moves the head of wait queue q to the tail of the ready queue. */
  function WakeOne(k: Kernel, q: int): (r: Kernel)
    requires Shape(k) && IsWaitQueue(k, q) && QueueInRange(k, q)
    ensures Shape(r) && r.current == k.current && |r.queues| == |k.queues| && QueueInRange(r, q)
    ensures k.queues[q] != [] ==> |r.queues[q]| < |k.queues[q]|
  {
    if k.queues[q] == [] then k
    else
      var t := k.queues[q][0];
      assert t in k.queues[q];
      MakeReady(k.(queues := k.queues[q := k.queues[q][1..]]), t)
  }

  function WakeAll(k: Kernel, q: int): (r: Kernel)
    requires Shape(k) && IsWaitQueue(k, q) && QueueInRange(k, q)
    ensures Shape(r) && r.current == k.current && |r.queues| == |k.queues|
    ensures r.queues[q] == []
    decreases |k.queues[q]|
  {
    if k.queues[q] == [] then k else WakeAll(WakeOne(k, q), q)
  }

  function Wakeup(k: Kernel, q: int, all: bool): Kernel
    requires Shape(k) && IsWaitQueue(k, q) && QueueInRange(k, q)
  {
    if all then WakeAll(k, q) else WakeOne(k, q)
  }

  // ---- thread_exit -------------------------------------------------------

  /** The test of line 521, made after the first wakeup. */
  predicate IsLastThread(k: Kernel)
    requires Shape(k) && QueueInRange(k, WaitQueueOf(k.current))
  {
    WakeAll(k, WaitQueueOf(k.current)).existing < 1
  }

  /** The current thread becomes a zombie, its exit code deposited. */
  function Retire(k: Kernel, code: int): Kernel
    requires Shape(k)
  {
    k.(slots := k.slots[k.current := Cur(k).(state := Exited, exitCode := code)], existing := k.existing - 1)
  }

  /** Everything thread_exit does before it yields, on the branch where others remain. */
  function Exit(k: Kernel, code: int): Kernel
    requires Shape(k) && QueueInRange(k, WaitQueueOf(k.current))
  {
    var q := WaitQueueOf(k.current);
    WakeAll(Retire(WakeAll(k, q), code), q)
  }

  // ---- thread_kill -------------------------------------------------------

  /** KillStrays is a read outside the table, or of a wait queue that is null or freed. */
  datatype KillOutcome = KillRefused | KillStrays | KillAsserts | KillDone(k: Kernel)

  predicate KillCrashes(outcome: KillOutcome) {
    outcome.KillStrays? || outcome.KillAsserts?
  }

  /** The wait queue of a slot exists from its creation until its thread is reaped. */
  predicate HasQueue(k: Kernel, w: int)
    requires Shape(k)
  {
    ValidTid(w) && k.slots[w].state != Uninitialized
  }

  /** thread_awaken, which looks for its target where waiting_on says, and asserts that it was there. */
  function Awaken(k: Kernel, tid: Tid): KillOutcome
    requires Shape(k) && ValidTid(tid)
  {
    var w := k.slots[tid].waitingOn;
    if !HasQueue(k, w) then KillStrays
    else if tid !in k.queues[WaitQueueOf(w)] then KillAsserts
    else KillDone(Enqueue(Dequeue(k, WaitQueueOf(w), tid), READY_QUEUE, tid).(existing := k.existing + 1))
  }

  function Kill(k: Kernel, tid: Tid): KillOutcome
    requires Shape(k)
  {
    if !ValidTid(tid) || tid == k.current || k.slots[tid].state == Uninitialized then KillRefused
    else
      var k1 := SetState(k, tid, Killed);
      match (if k.slots[tid].state != Sleeping then KillDone(k1) else Awaken(k1, tid))
      case KillDone(k2) => KillDone(k2.(slots := k2.slots[tid := k2.slots[tid].(exitCode := 9)]))
      case crash => crash
  }

  // ---- thread_wait -------------------------------------------------------

  datatype WaitEntry = WaitRefused | WaitDelivers | WaitNullDereference | WaitSleeps

  /** The test thread_wait makes before it sleeps; `ptr` says exit_code is not NULL. */
  function WaitTest(k: Kernel, tid: Tid, ptr: bool): WaitEntry
    requires Shape(k)
  {
    if !ValidTid(tid) || tid == k.current then WaitRefused
    else if k.slots[tid].state == Exited
            || (k.slots[tid].state == Uninitialized && k.slots[tid].exitCode != -1 && ptr) then
      if ptr then WaitDelivers else WaitNullDereference
    else if k.slots[tid].state == Uninitialized then WaitRefused
    else WaitSleeps
  }

  function TakeCode(k: Kernel, tid: Tid): Kernel
    requires Shape(k) && ValidTid(tid)
  {
    k.(slots := k.slots[tid := k.slots[tid].(exitCode := -1)])
  }

  function NoteWaitingOn(k: Kernel, t: Tid, target: int): Kernel
    requires Shape(k) && ValidTid(t)
  {
    k.(slots := k.slots[t := k.slots[t].(waitingOn := target)])
  }

  datatype WaitResult = Delivered(code: int) | KilledMeanwhile(code: int) | AlreadyTaken

  /** What a waiter finds when it runs again (lines 757 to 779). */
  function WaitOutcome(k: Kernel, tid: Tid): WaitResult
    requires Shape(k) && ValidTid(tid)
  {
    if k.slots[tid].exitCode != -1 then Delivered(k.slots[tid].exitCode)
    else if Cur(k).state == Killed then KilledMeanwhile(Cur(k).exitCode)
    else AlreadyTaken
  }

  /** Line 775 clears the target's waiting_on, not the waiter's. */
  function WaitEffect(k: Kernel, tid: Tid): Kernel
    requires Shape(k) && ValidTid(tid)
  {
    match WaitOutcome(k, tid)
    case Delivered(code) =>
      k.(slots := k.slots[tid := k.slots[tid].(exitCode2 := code, exitCode := -1)])
    case KilledMeanwhile(_) => k
    case AlreadyTaken => NoteWaitingOn(k, tid, -1)
  }
}
