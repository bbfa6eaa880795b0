/**
 Runs from thread_init that show what a caller can bring about: a killed thread
 that runs on, a thread_kill that fails its assertion, and calls that the
 promises of thread.h leave out and that break the thread table.
 */
module ThreadWitnesses {
  import opened Seqs
  import opened ThreadKernel
  import opened ThreadInvariant
  import opened ThreadMachine
  import opened ThreadSafety
  import opened ThreadTheorems
  import opened ThreadDeliveries

  /** The actions lead from thread_init to s. */
  ghost predicate Leads(nLocks: nat, nQueues: nat, acts: seq<Action>, s: Sys) {
    && IsRun(Init(nLocks, nQueues), acts) && After(Init(nLocks, nQueues), acts) == s
    && Safe(s)
  }

  lemma {:induction false} OneMore(s: Sys, acts: seq<Action>, a: Action)
    requires IsRun(s, acts) && Legal(After(s, acts), a)
    ensures IsRun(s, acts + [a]) && After(s, acts + [a]) == Next(After(s, acts), a)
    decreases |acts|
  {
    if acts == [] {
      assert acts + [a] == [a] && [a][1..] == [];
      assert IsRun(Next(s, a), []) && After(Next(s, a), []) == Next(s, a);
    } else {
      OneMore(Next(s, acts[0]), acts[1..], a);
      assert (acts + [a])[1..] == acts[1..] + [a];
    }
  }

  lemma Step(nLocks: nat, nQueues: nat, acts: seq<Action>, s: Sys, a: Action)
    requires Leads(nLocks, nQueues, acts, s) && Legal(s, a)
    ensures Leads(nLocks, nQueues, acts + [a], Next(s, a))
  {
    OneMore(Init(nLocks, nQueues), acts, a);
    StepSafe(s, a);
  }

  lemma LeadsReaches(nLocks: nat, nQueues: nat, acts: seq<Action>, s: Sys)
    requires Leads(nLocks, nQueues, acts, s)
    ensures Reachable(s)
  {
  }

  lemma Begins(nLocks: nat, nQueues: nat)
    ensures Leads(nLocks, nQueues, [], Init(nLocks, nQueues))
  {
    InitSafe(nLocks, nQueues);
  }

  // ---- steps in detail -------------------------------------------------------------

  /** Who runs, in which states the first three threads are, and who is ready. */
  predicate View(s: Sys, current: Tid, s0: ThreadState, s1: ThreadState, s2: ThreadState,
                 ready: seq<Tid>, existing: int)
  {
    && Shape(s.k) && |s.conts| == THREAD_MAX_THREADS && s.status == Active
    && s.k.current == current
    && s.k.slots[0].state == s0 && s.k.slots[1].state == s1 && s.k.slots[2].state == s2
    && s.k.queues[READY_QUEUE] == ready && s.k.existing == existing
  }

  /** Nobody sleeps. */
  ghost predicate NoSleepers(s: Sys) {
    forall q :: IsWaitQueue(s.k, q) ==> s.k.queues[q] == []
  }

  const IN_USER: Stack := Push(User(true), Empty)

  /** A switch keeps all fields but the states, and the counter. */
  lemma SwitchDetails(k: Kernel, to: Tid)
    requires Inv(k) && to in k.queues[READY_QUEUE] && Cur(k).state != Killed
    ensures var k' := SwitchTo(k, to);
            && Shape(k') && k'.existing == k.existing
            && k'.current == to && k'.prev == k.current
            && k'.queues == k.queues[READY_QUEUE := Remove(k.queues[READY_QUEUE], to)
                                                    + if Cur(k).state == Running then [k.current] else []]
            && forall t :: ValidTid(t) ==>
                 k'.slots[t] == k.slots[t].(state :=
                   if t == to then (if k.slots[t].state == Killed then Killed else Running)
                   else if t == k.current then (if k.slots[t].state == Running then Ready else k.slots[t].state)
                   else if k.slots[t].state == Exited then Uninitialized else k.slots[t].state)
  {
    SwitchToQueues(k, to);
    SwitchToSlots(k, to);
    SwitchToIs(k, to);
    ReapInv(k);
  }

  /** thread_yield(to) from user code. */
  lemma YieldDetails(s: Sys, to: Tid)
    requires Sized(s) && s.status == Active && Top(s).Push? && Top(s).top.User? && s.mask
    requires Cur(s.k).state == Running && to in s.k.queues[READY_QUEUE] && ValidTid(to)
    requires to != s.k.current
    ensures Legal(s, CallYield(to))
    ensures Next(s, CallYield(to)) ==
            SetStack(s, Push(InYield(true, to), Top(s))).(k := SwitchTo(s.k, to), mask := false)
  {
  }

  /** A thread back in thread_yield finds no zombie and goes on. */
  lemma ResumeDetails(s: Sys, ran: Tid)
    requires Sized(s) && Inv(s.k) && s.status == Active
    requires Top(s).Push? && Top(s) == Push(InYield(true, ran), Top(s).below)
    requires !IsZombie(s.k, s.k.prev)
    ensures Legal(s, Go) && Next(s, Go) == SetStack(s, Top(s).below).(mask := true)
  {
    ReapInv(s.k);
  }

  /** A new thread enters the stub. */
  lemma StartDetails(s: Sys)
    requires Sized(s) && s.status == Active && Top(s) == Push(Start, Empty)
    ensures Legal(s, Go) && Next(s, Go) == SetStack(s, IN_USER).(mask := true)
  {
  }

  /** thread_create with memory, when slot i is the first free one. */
  lemma CreateDetails(s: Sys, i: Tid)
    requires Sized(s) && s.status == Active && Top(s).Push? && Top(s).top.User?
    requires ValidTid(i) && FirstFree(s.k.slots, 0) == i && s.k.slots[i].state == Uninitialized
    requires s.k.existing < THREAD_MAX_THREADS
    ensures Legal(s, CallCreate(true))
    ensures var s' := Next(s, CallCreate(true));
            && Shape(s'.k) && s' == s.(k := s'.k, conts := s.conts[i := Push(Start, Empty)])
            && s'.k.current == s.k.current && s'.k.prev == s.k.prev && s'.k.existing == s.k.existing + 1
            && s'.k.queues == s.k.queues[WaitQueueOf(i) := []][READY_QUEUE := s.k.queues[READY_QUEUE] + [i]]
            && s'.k.slots[i].state == Ready && s'.k.slots[i].waitingOn == -1 && s'.k.slots[i].exitCode == -1
            && forall t :: ValidTid(t) && t != i ==> s'.k.slots[t] == s.k.slots[t]
  {
  }

  // ---- the start of most runs ---------------------------------------------------------

  lemma Created(nLocks: nat, nQueues: nat) returns (s: Sys)
    ensures Leads(nLocks, nQueues, [CallCreate(true)], s)
    ensures View(s, 0, Running, Ready, Uninitialized, [1], 2)
    ensures s.mask && s.conts[0] == IN_USER && s.conts[1] == Push(Start, Empty)
    ensures s.k.slots[1].exitCode == -1 && s.k.slots[1].waitingOn == -1
    ensures |s.k.queues| == THREAD_MAX_THREADS + 1 + nLocks + nQueues
    ensures |s.locks| == nLocks && s.k.prev == 0 && NoSleepers(s)
    ensures (forall l :: 0 <= l < nLocks ==> !s.locks[l].held) && s.k.slots[0].exitCode == 0
  {
    var s0 := Init(nLocks, nQueues);
    Begins(nLocks, nQueues);
    assert FirstFree(s0.k.slots, 0) == FirstFree(s0.k.slots, 1) == 1;
    CreateDetails(s0, 1);
    Step(nLocks, nQueues, [], s0, CallCreate(true));
    s := Next(s0, CallCreate(true));
    assert [] + [CallCreate(true)] == [CallCreate(true)];
  }

  /** Main has created thread 1 and yielded to it. */
  const START: seq<Action> := [CallCreate(true), CallYield(1), Go]

  lemma Yielded(nLocks: nat, nQueues: nat) returns (s: Sys)
    ensures Leads(nLocks, nQueues, [CallCreate(true), CallYield(1)], s)
    ensures View(s, 1, Ready, Running, Uninitialized, [0], 2)
    ensures s.conts[0] == Push(InYield(true, 1), IN_USER) && s.conts[1] == Push(Start, Empty)
    ensures s.k.slots[1].exitCode == -1 && s.k.slots[1].waitingOn == -1
    ensures |s.k.queues| == THREAD_MAX_THREADS + 1 + nLocks + nQueues
    ensures |s.locks| == nLocks && s.k.prev == 0 && NoSleepers(s)
    ensures (forall l :: 0 <= l < nLocks ==> !s.locks[l].held) && s.k.slots[0].exitCode == 0
  {
    var s1 := Created(nLocks, nQueues);
    YieldDetails(s1, 1);
    SwitchDetails(s1.k, 1);
    Step(nLocks, nQueues, [CallCreate(true)], s1, CallYield(1));
    s := Next(s1, CallYield(1));
    assert [CallCreate(true)] + [CallYield(1)] == [CallCreate(true), CallYield(1)];
  }

  lemma Started(nLocks: nat, nQueues: nat) returns (s: Sys)
    ensures Leads(nLocks, nQueues, START, s)
    ensures View(s, 1, Ready, Running, Uninitialized, [0], 2)
    ensures s.mask && s.conts[0] == Push(InYield(true, 1), IN_USER) && s.conts[1] == IN_USER
    ensures s.k.slots[1].exitCode == -1 && s.k.slots[1].waitingOn == -1
    ensures |s.k.queues| == THREAD_MAX_THREADS + 1 + nLocks + nQueues
    ensures |s.locks| == nLocks && s.k.prev == 0 && NoSleepers(s)
    ensures (forall l :: 0 <= l < nLocks ==> !s.locks[l].held) && s.k.slots[0].exitCode == 0
  {
    var s1 := Yielded(nLocks, nQueues);
    StartDetails(s1);
    Step(nLocks, nQueues, [CallCreate(true), CallYield(1)], s1, Go);
    s := Next(s1, Go);
    assert [CallCreate(true), CallYield(1)] + [Go] == START;
  }

  // ---- a thread_kill that fails its assertion --------------------------------------------

  /** Thread 1 waits for main to exit. */
  lemma ChildWaits(s: Sys) returns (s': Sys)
    requires Sized(s) && View(s, 1, Ready, Running, Uninitialized, [0], 2) && s.mask
    requires s.conts[1] == IN_USER && s.k.slots[1].exitCode == -1
    ensures Legal(s, CallWait(0, true)) && s' == Next(s, CallWait(0, true))
    ensures View(s', 1, Ready, Sleeping, Uninitialized, [0], 1) && s'.mask && s'.conts[0] == s.conts[0]
    ensures s'.conts[1] == Push(SleepTail, Push(WaitTail(0), IN_USER)) && s'.k.slots[1].exitCode == -1
  {
    s' := Next(s, CallWait(0, true));
  }

  lemma ChildSleeps(s: Sys) returns (s': Sys)
    requires Sized(s) && View(s, 1, Ready, Sleeping, Uninitialized, [0], 1) && Inv(s.k) && s.mask
    requires s.conts[1] == Push(SleepTail, Push(WaitTail(0), IN_USER)) && s.k.slots[1].exitCode == -1
    ensures Legal(s, Go) && s' == Next(s, Go)
    ensures View(s', 0, Running, Sleeping, Uninitialized, [], 1) && s'.conts[0] == s.conts[0]
    ensures s'.k.slots[1].exitCode == -1 && s'.k.prev == 1
  {
    SwitchDetails(s.k, 0);
    s' := Next(s, Go);
  }

  /** Main waits for thread 1, but cannot sleep: nobody else could run. */
  lemma MainWaits(s: Sys) returns (s': Sys)
    requires Sized(s) && View(s, 0, Running, Sleeping, Uninitialized, [], 1) && s.mask
    requires s.conts[0] == IN_USER && s.k.slots[1].exitCode == -1
    ensures Legal(s, CallWait(1, true)) && s' == Next(s, CallWait(1, true))
    ensures View(s', 0, Running, Sleeping, Uninitialized, [], 1) && s'.mask
    ensures s'.conts[0] == Push(WaitTail(1), IN_USER) && s'.k.slots[1].exitCode == -1
  {
    s' := Next(s, CallWait(1, true));
  }

  /** Its wait is refused, and clears the note of thread 1. */
  lemma MainIsRefused(s: Sys) returns (s': Sys)
    requires Sized(s) && View(s, 0, Running, Sleeping, Uninitialized, [], 1) && s.mask
    requires s.conts[0] == Push(WaitTail(1), IN_USER) && s.k.slots[1].exitCode == -1
    ensures Legal(s, Go) && s' == Next(s, Go)
    ensures View(s', 0, Running, Sleeping, Uninitialized, [], 1)
    ensures s'.conts[0] == IN_USER && s'.k.slots[1].waitingOn == -1
  {
    s' := Next(s, Go);
  }

  lemma WaitChain1() returns (s: Sys)
    ensures Leads(0, 0, START + [CallWait(0, true)], s)
    ensures View(s, 1, Ready, Sleeping, Uninitialized, [0], 1) && s.mask
    ensures s.conts[0] == Push(InYield(true, 1), IN_USER)
    ensures s.conts[1] == Push(SleepTail, Push(WaitTail(0), IN_USER)) && s.k.slots[1].exitCode == -1
  {
    var s1 := Started(0, 0);
    s := ChildWaits(s1);
    Step(0, 0, START, s1, CallWait(0, true));
  }

  lemma WaitChain2() returns (s: Sys)
    ensures Leads(0, 0, START + [CallWait(0, true)] + [Go], s)
    ensures View(s, 0, Running, Sleeping, Uninitialized, [], 1) && s.conts[0] == Push(InYield(true, 1), IN_USER)
    ensures s.k.slots[1].exitCode == -1 && s.k.prev == 1
  {
    var s1 := WaitChain1();
    s := ChildSleeps(s1);
    Step(0, 0, START + [CallWait(0, true)], s1, Go);
  }

  lemma WaitChain3() returns (s: Sys)
    ensures Leads(0, 0, START + [CallWait(0, true)] + [Go] + [Go], s)
    ensures View(s, 0, Running, Sleeping, Uninitialized, [], 1) && s.mask
    ensures s.conts[0] == IN_USER && s.k.slots[1].exitCode == -1
  {
    var s1 := WaitChain2();
    ResumeDetails(s1, 1);
    s := Next(s1, Go);
    Step(0, 0, START + [CallWait(0, true)] + [Go], s1, Go);
  }

  lemma WaitChain4() returns (s: Sys)
    ensures Leads(0, 0, START + [CallWait(0, true)] + [Go] + [Go] + [CallWait(1, true)], s)
    ensures View(s, 0, Running, Sleeping, Uninitialized, [], 1) && s.mask
    ensures s.conts[0] == Push(WaitTail(1), IN_USER) && s.k.slots[1].exitCode == -1
  {
    var s1 := WaitChain3();
    s := MainWaits(s1);
    Step(0, 0, START + [CallWait(0, true)] + [Go] + [Go], s1, CallWait(1, true));
  }

  lemma WaitChain5() returns (s: Sys)
    ensures Leads(0, 0, START + [CallWait(0, true)] + [Go] + [Go] + [CallWait(1, true)] + [Go], s)
    ensures View(s, 0, Running, Sleeping, Uninitialized, [], 1)
    ensures s.conts[0] == IN_USER && s.k.slots[1].waitingOn == -1
  {
    var s1 := WaitChain4();
    s := MainIsRefused(s1);
    Step(0, 0, START + [CallWait(0, true)] + [Go] + [Go] + [CallWait(1, true)], s1, Go);
  }

  lemma KillStraysThere(s: Sys)
    requires Sized(s) && View(s, 0, Running, Sleeping, Uninitialized, [], 1) && s.conts[0] == IN_USER
    requires s.k.slots[1].waitingOn == -1
    ensures Legal(s, CallKill(1)) && Kill(s.k, 1) == KillStrays && Next(s, CallKill(1)).status == Crashed
  {
  }

  /** Thread 1 waits for main, main waits for thread 1 and then kills it. */
  const CRASH: seq<Action> :=
    [CallCreate(true), CallYield(1), Go, CallWait(0, true), Go, Go, CallWait(1, true), Go, CallKill(1)]

  /** Every call is permitted, and the last one follows the note -1 out of the table. */
  lemma RefusedWaitThenKillCrashes()
    ensures IsRun(Init(0, 0), CRASH) && After(Init(0, 0), CRASH).status == Crashed
    ensures IsRun(Init(0, 0), CRASH[..8]) && Shape(After(Init(0, 0), CRASH[..8]).k)
    ensures Kill(After(Init(0, 0), CRASH[..8]).k, 1) == KillStrays
  {
    var acts := START + [CallWait(0, true)] + [Go] + [Go] + [CallWait(1, true)] + [Go];
    var s := WaitChain5();
    KillStraysThere(s);
    Step(0, 0, acts, s, CallKill(1));
    assert acts + [CallKill(1)] == CRASH;
    assert CRASH[..8] == acts;
  }

  lemma ChildSleepsInQueue(s: Sys) returns (s': Sys)
    requires Sized(s) && View(s, 1, Ready, Running, Uninitialized, [0], 2) && s.mask && s.conts[1] == IN_USER
    requires s.k.slots[1].waitingOn == -1
    requires |s.k.queues| == THREAD_MAX_THREADS + 2 && |s.locks| == 0
    ensures Legal(s, CallSleep(THREAD_MAX_THREADS + 1)) && s' == Next(s, CallSleep(THREAD_MAX_THREADS + 1))
    ensures View(s', 1, Ready, Sleeping, Uninitialized, [0], 1) && s'.mask && s'.conts[0] == s.conts[0]
    ensures s'.conts[1] == Push(SleepTail, IN_USER)
    ensures s'.k.slots[1].waitingOn == -1
    ensures |s'.k.queues| == THREAD_MAX_THREADS + 2 && 1 in s'.k.queues[THREAD_MAX_THREADS + 1]
  {
    s' := Next(s, CallSleep(THREAD_MAX_THREADS + 1));
  }

  lemma ChildLeaves(s: Sys) returns (s': Sys)
    requires Sized(s) && View(s, 1, Ready, Sleeping, Uninitialized, [0], 1) && Inv(s.k) && s.mask
    requires s.conts[1] == Push(SleepTail, IN_USER)
    requires s.k.slots[1].waitingOn == -1
    requires |s.k.queues| == THREAD_MAX_THREADS + 2 && 1 in s.k.queues[THREAD_MAX_THREADS + 1]
    ensures Legal(s, Go) && s' == Next(s, Go)
    ensures View(s', 0, Running, Sleeping, Uninitialized, [], 1) && s'.conts[0] == s.conts[0]
    ensures s'.k.slots[1].waitingOn == -1
    ensures |s'.k.queues| == THREAD_MAX_THREADS + 2 && 1 in s'.k.queues[THREAD_MAX_THREADS + 1] && s'.k.prev == 1
  {
    SwitchDetails(s.k, 0);
    s' := Next(s, Go);
  }

  lemma SleepChain1() returns (s: Sys)
    ensures Leads(0, 1, START + [CallSleep(THREAD_MAX_THREADS + 1)], s)
    ensures View(s, 1, Ready, Sleeping, Uninitialized, [0], 1) && s.mask
    ensures s.conts[0] == Push(InYield(true, 1), IN_USER)
    ensures s.conts[1] == Push(SleepTail, IN_USER)
    ensures s.k.slots[1].waitingOn == -1
    ensures |s.k.queues| == THREAD_MAX_THREADS + 2 && 1 in s.k.queues[THREAD_MAX_THREADS + 1]
  {
    var s1 := Started(0, 1);
    s := ChildSleepsInQueue(s1);
    Step(0, 1, START, s1, CallSleep(THREAD_MAX_THREADS + 1));
  }

  lemma SleepChain2() returns (s: Sys)
    ensures Leads(0, 1, START + [CallSleep(THREAD_MAX_THREADS + 1)] + [Go], s)
    ensures View(s, 0, Running, Sleeping, Uninitialized, [], 1) && s.conts[0] == Push(InYield(true, 1), IN_USER)
    ensures s.k.slots[1].waitingOn == -1
    ensures |s.k.queues| == THREAD_MAX_THREADS + 2 && 1 in s.k.queues[THREAD_MAX_THREADS + 1] && s.k.prev == 1
  {
    var s1 := SleepChain1();
    s := ChildLeaves(s1);
    Step(0, 1, START + [CallSleep(THREAD_MAX_THREADS + 1)], s1, Go);
  }

  /** Thread 1 sleeps in a user's queue, and main runs again. */
  const ASLEEP: seq<Action> := START + [CallSleep(THREAD_MAX_THREADS + 1)] + [Go] + [Go]

  lemma SleepChain3() returns (s: Sys)
    ensures Leads(0, 1, ASLEEP, s)
    ensures View(s, 0, Running, Sleeping, Uninitialized, [], 1) && s.conts[0] == IN_USER
    ensures s.k.slots[1].waitingOn == -1
    ensures |s.k.queues| == THREAD_MAX_THREADS + 2 && 1 in s.k.queues[THREAD_MAX_THREADS + 1]
  {
    var s1 := SleepChain2();
    ResumeDetails(s1, 1);
    Step(0, 1, START + [CallSleep(THREAD_MAX_THREADS + 1)] + [Go], s1, Go);
    s := Next(s1, Go);
  }

  /** A thread_kill of it is permitted, and follows its note -1 out of the table. */
  lemma KillOfSleeperCrashes()
    ensures IsRun(Init(0, 1), ASLEEP)
    ensures var s := After(Init(0, 1), ASLEEP);
            && Legal(s, CallKill(1)) && Next(s, CallKill(1)).status == Crashed
            && Kill(s.k, 1) == KillStrays
  {
    var s := SleepChain3();
    KillStraysThere(s);
  }

  // ---- a killed thread that runs on --------------------------------------------------------

  /** Thread 1 kills main, which is in the ready queue. */
  lemma ChildKills(s: Sys) returns (s': Sys)
    requires Sized(s) && View(s, 1, Ready, Running, Uninitialized, [0], 2) && s.mask && s.conts[1] == IN_USER
    ensures Legal(s, CallKill(0)) && s' == Next(s, CallKill(0))
    ensures View(s', 1, Killed, Running, Uninitialized, [0], 2) && s'.mask && s'.conts == s.conts
    ensures |s'.k.queues| == |s.k.queues| && |s'.locks| == |s.locks| && s'.k.prev == s.k.prev
  {
    s' := Next(s, CallKill(0));
  }

  lemma ChildYields(s: Sys) returns (s': Sys)
    requires Sized(s) && View(s, 1, Killed, Running, Uninitialized, [0], 2) && Inv(s.k)
    requires s.mask && s.conts[1] == IN_USER
    ensures Legal(s, CallYield(0)) && s' == Next(s, CallYield(0))
    ensures View(s', 0, Killed, Ready, Uninitialized, [1], 2) && s'.conts[0] == s.conts[0]
    ensures |s'.k.queues| == |s.k.queues| && |s'.locks| == |s.locks| && s'.k.prev == 1
  {
    YieldDetails(s, 0);
    SwitchDetails(s.k, 0);
    s' := Next(s, CallYield(0));
  }

  lemma KillChain1() returns (s: Sys)
    ensures Leads(0, 1, START + [CallKill(0)], s)
    ensures View(s, 1, Killed, Running, Uninitialized, [0], 2) && s.mask && s.conts[1] == IN_USER
    ensures s.conts[0] == Push(InYield(true, 1), IN_USER)
    ensures |s.k.queues| == THREAD_MAX_THREADS + 2 && |s.locks| == 0
  {
    var s1 := Started(0, 1);
    s := ChildKills(s1);
    Step(0, 1, START, s1, CallKill(0));
  }

  lemma KillChain2() returns (s: Sys)
    ensures Leads(0, 1, START + [CallKill(0)] + [CallYield(0)], s)
    ensures View(s, 0, Killed, Ready, Uninitialized, [1], 2) && s.conts[0] == Push(InYield(true, 1), IN_USER)
    ensures |s.k.queues| == THREAD_MAX_THREADS + 2 && |s.locks| == 0 && s.k.prev == 1
  {
    var s1 := KillChain1();
    s := ChildYields(s1);
    Step(0, 1, START + [CallKill(0)], s1, CallYield(0));
  }

  const KILLED: seq<Action> := START + [CallKill(0)] + [CallYield(0)] + [Go]

  lemma KilledMain() returns (s: Sys)
    ensures Leads(0, 1, KILLED, s)
    ensures View(s, 0, Killed, Ready, Uninitialized, [1], 2) && s.mask && s.conts[0] == IN_USER
    ensures |s.k.queues| == THREAD_MAX_THREADS + 2 && |s.locks| == 0
  {
    var s1 := KillChain2();
    ResumeDetails(s1, 1);
    Step(0, 1, START + [CallKill(0)] + [CallYield(0)], s1, Go);
    s := Next(s1, Go);
  }

  /** Killed main is back in user code, creates another thread, and sleeps the kill off. */
  lemma KilledThreadActs()
    ensures IsRun(Init(0, 1), KILLED)
    ensures var s := After(Init(0, 1), KILLED);
            && Sized(s) && s.k.current == 0 && s.k.slots[0].state == Killed && Top(s) == IN_USER
            && Legal(s, CallCreate(true)) && Sized(Next(s, CallCreate(true)))
            && Next(s, CallCreate(true)).k.slots[2].state == Ready
            && Legal(s, CallSleep(THREAD_MAX_THREADS + 1)) && Sized(Next(s, CallSleep(THREAD_MAX_THREADS + 1)))
            && Next(s, CallSleep(THREAD_MAX_THREADS + 1)).k.slots[0].state == Sleeping
  {
    var s := KilledMain();
    assert FirstFree(s.k.slots, 0) == FirstFree(s.k.slots, 1) == FirstFree(s.k.slots, 2) == 2;
    CreateDetails(s, 2);
    StepSafe(s, CallCreate(true));
    StepSafe(s, CallSleep(THREAD_MAX_THREADS + 1));
  }

  // ---- calls that break the table ---------------------------------------------------------------

  lemma CreatesSecond(s: Sys) returns (s': Sys)
    requires Sized(s) && View(s, 0, Running, Ready, Uninitialized, [1], 2) && NoSleepers(s)
    requires s.mask && s.conts[0] == IN_USER && s.conts[1] == Push(Start, Empty)
    ensures Legal(s, CallCreate(true)) && s' == Next(s, CallCreate(true))
    ensures View(s', 0, Running, Ready, Ready, [1, 2], 3) && NoSleepers(s')
    ensures s'.mask && s'.conts[0] == IN_USER && s'.conts[1] == s'.conts[2] == Push(Start, Empty)
  {
    assert FirstFree(s.k.slots, 0) == FirstFree(s.k.slots, 1) == FirstFree(s.k.slots, 2) == 2;
    CreateDetails(s, 2);
    s' := Next(s, CallCreate(true));
  }

  lemma CreatedTwo() returns (s: Sys)
    ensures Leads(0, 0, [CallCreate(true)] + [CallCreate(true)], s)
    ensures View(s, 0, Running, Ready, Ready, [1, 2], 3) && NoSleepers(s)
    ensures s.mask && s.conts[0] == IN_USER && s.conts[1] == s.conts[2] == Push(Start, Empty)
  {
    var s1 := Created(0, 0);
    s := CreatesSecond(s1);
    Step(0, 0, [CallCreate(true)], s1, CallCreate(true));
  }

  lemma FirstRuns(s: Sys) returns (s': Sys)
    requires Sized(s) && View(s, 0, Running, Ready, Ready, [1, 2], 3) && Inv(s.k) && s.mask && s.conts[0] == IN_USER
    requires NoSleepers(s)
    ensures Legal(s, CallYield(1)) && s' == Next(s, CallYield(1))
    ensures View(s', 1, Ready, Running, Ready, [2, 0], 3) && NoSleepers(s')
    ensures s'.conts[1] == s.conts[1] && s'.conts[2] == s.conts[2]
  {
    YieldDetails(s, 1);
    SwitchDetails(s.k, 1);
    s' := Next(s, CallYield(1));
  }

  lemma FirstExits(s: Sys) returns (s': Sys)
    requires Sized(s) && View(s, 1, Ready, Running, Ready, [2, 0], 3) && s.conts[1] == Push(ExitCall(0), IN_USER)
    requires NoSleepers(s)
    ensures Legal(s, Go) && s' == Next(s, Go)
    ensures View(s', 1, Ready, Exited, Ready, [2, 0], 2)
    ensures s'.conts[1] == Push(ExitTail(false), IN_USER) && s'.conts[2] == s.conts[2]
  {
    ExitIs(s.k, 0);
    assert WakeAll(s.k, WaitQueueOf(1)) == s.k;
    s' := Next(s, Go);
  }

  /** The zombie's processor goes to thread 2. */
  lemma SecondTakesOver(s: Sys) returns (s': Sys)
    requires Sized(s) && View(s, 1, Ready, Exited, Ready, [2, 0], 2) && Inv(s.k) && s.conts[2] == Push(Start, Empty)
    requires s.conts[1] == Push(ExitTail(false), IN_USER)
    ensures Legal(s, Go) && s' == Next(s, Go)
    ensures View(s', 2, Ready, Exited, Running, [0], 2) && s'.conts[2] == s.conts[2]
  {
    SwitchDetails(s.k, 2);
    s' := Next(s, Go);
  }

  lemma ZombieChain1() returns (s: Sys)
    ensures Leads(0, 0, [CallCreate(true)] + [CallCreate(true)] + [CallYield(1)], s)
    ensures View(s, 1, Ready, Running, Ready, [2, 0], 3) && NoSleepers(s)
    ensures s.conts[1] == s.conts[2] == Push(Start, Empty)
  {
    var s1 := CreatedTwo();
    s := FirstRuns(s1);
    Step(0, 0, [CallCreate(true)] + [CallCreate(true)], s1, CallYield(1));
  }

  const TWO: seq<Action> := [CallCreate(true)] + [CallCreate(true)] + [CallYield(1)] + [Go]

  lemma ZombieChain2() returns (s: Sys)
    ensures Leads(0, 0, TWO, s)
    ensures View(s, 1, Ready, Running, Ready, [2, 0], 3) && NoSleepers(s)
    ensures s.conts[1] == IN_USER && s.conts[2] == Push(Start, Empty)
  {
    var s1 := ZombieChain1();
    StartDetails(s1);
    Step(0, 0, [CallCreate(true)] + [CallCreate(true)] + [CallYield(1)], s1, Go);
    s := Next(s1, Go);
  }

  lemma ZombieChain3() returns (s: Sys)
    ensures Leads(0, 0, TWO + [CallExit(0)], s)
    ensures View(s, 1, Ready, Running, Ready, [2, 0], 3) && NoSleepers(s)
    ensures s.conts[1] == Push(ExitCall(0), IN_USER) && s.conts[2] == Push(Start, Empty)
  {
    var s1 := ZombieChain2();
    Step(0, 0, TWO, s1, CallExit(0));
    s := Next(s1, CallExit(0));
  }

  lemma ZombieChain4() returns (s: Sys)
    ensures Leads(0, 0, TWO + [CallExit(0)] + [Go], s)
    ensures View(s, 1, Ready, Exited, Ready, [2, 0], 2)
    ensures s.conts[1] == Push(ExitTail(false), IN_USER) && s.conts[2] == Push(Start, Empty)
  {
    var s1 := ZombieChain3();
    s := FirstExits(s1);
    Step(0, 0, TWO + [CallExit(0)], s1, Go);
  }

  lemma ZombieChain5() returns (s: Sys)
    ensures Leads(0, 0, TWO + [CallExit(0)] + [Go] + [Go], s)
    ensures View(s, 2, Ready, Exited, Running, [0], 2) && s.conts[2] == Push(Start, Empty)
  {
    var s1 := ZombieChain4();
    s := SecondTakesOver(s1);
    Step(0, 0, TWO + [CallExit(0)] + [Go], s1, Go);
  }

  /** Thread 1 exits, and thread 2 starts: user code runs beside a zombie. */
  const ZOMBIE: seq<Action> := TWO + [CallExit(0)] + [Go] + [Go] + [Go]

  lemma UserBesideZombie() returns (s: Sys)
    ensures Leads(0, 0, ZOMBIE, s)
    ensures View(s, 2, Ready, Exited, Running, [0], 2) && s.conts[2] == IN_USER
  {
    var s1 := ZombieChain5();
    StartDetails(s1);
    Step(0, 0, TWO + [CallExit(0)] + [Go] + [Go], s1, Go);
    s := Next(s1, Go);
  }

  lemma KilledZombie(s: Sys)
    requires Sized(s) && View(s, 2, Ready, Exited, Running, [0], 2) && Inv(s.k) && s.conts[2] == IN_USER
    ensures Enabled(s, CallKill(1)) && !Inv(Next(s, CallKill(1)).k)
  {
    KillKeepsInvIff(s.k, 1);
  }

  lemma UnluckyCreate(s: Sys)
    requires Sized(s) && View(s, 2, Ready, Exited, Running, [0], 2) && Inv(s.k) && s.conts[2] == IN_USER
    ensures Enabled(s, CallCreate(false)) && !Inv(Next(s, CallCreate(false)).k)
  {
    assert FirstFree(s.k.slots, 0) == FirstFree(s.k.slots, 1) == 1;
    CreateKeepsInvIff(s.k, false);
  }

  /** There a thread_kill of the zombie, or a thread_create without memory, breaks the table invariant. */
  lemma ZombieCallsBreakTable()
    ensures IsRun(Init(0, 0), ZOMBIE)
    ensures var s := After(Init(0, 0), ZOMBIE);
            && Enabled(s, CallKill(1)) && !Inv(Next(s, CallKill(1)).k)
            && Enabled(s, CallCreate(false)) && !Inv(Next(s, CallCreate(false)).k)
  {
    var s := UserBesideZombie();
    KilledZombie(s);
    UnluckyCreate(s);
  }

  /** And thread_wait of the zombie, with the null pointer that thread.h allows, crashes. */
  lemma NullWaitCrashes()
    ensures IsRun(Init(0, 0), ZOMBIE + [CallWait(1, false)])
    ensures After(Init(0, 0), ZOMBIE + [CallWait(1, false)]).status == Crashed
  {
    var s := UserBesideZombie();
    NullWaitThere(s);
    Step(0, 0, ZOMBIE, s, CallWait(1, false));
  }

  lemma NullWaitThere(s: Sys)
    requires Sized(s) && View(s, 2, Ready, Exited, Running, [0], 2) && s.conts[2] == IN_USER
    ensures Legal(s, CallWait(1, false)) && Next(s, CallWait(1, false)).status == Crashed
  {
  }

  // ---- locks ---------------------------------------------------------------------------------------

  lemma LockChain1() returns (s: Sys)
    ensures Leads(1, 0, [CallAcquire(0)], s)
    ensures View(s, 0, Running, Uninitialized, Uninitialized, [], 1) && NoSleepers(s)
    ensures s.conts[0] == Push(AcquireLoop(0, true), IN_USER) && !s.mask
    ensures |s.locks| == 1 && !s.locks[0].held && s.k.prev == 0
  {
    var s0 := Init(1, 0);
    Begins(1, 0);
    InitView(1, 0);
    Step(1, 0, [], s0, CallAcquire(0));
    s := MainCallsAcquire(s0);
    assert [] + [CallAcquire(0)] == [CallAcquire(0)];
  }

  lemma InitView(nLocks: nat, nQueues: nat)
    ensures Sized(Init(nLocks, nQueues)) && NoSleepers(Init(nLocks, nQueues))
    ensures View(Init(nLocks, nQueues), 0, Running, Uninitialized, Uninitialized, [], 1)
  {
  }

  lemma MainCallsAcquire(s: Sys) returns (s': Sys)
    requires Sized(s) && View(s, 0, Running, Uninitialized, Uninitialized, [], 1) && NoSleepers(s)
    requires s.conts[0] == IN_USER && s.mask && |s.locks| == 1
    ensures Legal(s, CallAcquire(0)) && s' == Next(s, CallAcquire(0))
    ensures View(s', 0, Running, Uninitialized, Uninitialized, [], 1) && NoSleepers(s')
    ensures s'.conts[0] == Push(AcquireLoop(0, true), IN_USER) && !s'.mask
    ensures s'.locks == s.locks && s'.k == s.k
  {
    s' := Next(s, CallAcquire(0));
  }

  lemma LockChain2() returns (s: Sys)
    ensures Leads(1, 0, [CallAcquire(0)] + [Go], s)
    ensures View(s, 0, Running, Uninitialized, Uninitialized, [], 1)
    ensures s.conts[0] == IN_USER && s.mask && |s.locks| == 1 && s.locks[0].held && s.locks[0].holder == 0
  {
    var s1 := LockChain1();
    Step(1, 0, [CallAcquire(0)], s1, Go);
    s := Next(s1, Go);
  }

  /** A thread that acquires a lock twice spins with interrupts off, when nobody else can run. */
  lemma AcquireTwiceSpins()
    ensures IsRun(Init(1, 0), [CallAcquire(0)] + [Go] + [CallAcquire(0)])
    ensures var s := After(Init(1, 0), [CallAcquire(0)] + [Go] + [CallAcquire(0)]);
            Sized(s) && Spins(s) && Legal(s, Go) && Next(s, Go) == s && !s.mask
  {
    var s1 := LockChain2();
    Step(1, 0, [CallAcquire(0)] + [Go], s1, CallAcquire(0));
    var s := Next(s1, CallAcquire(0));
    SpinStays(s);
  }

  lemma LockChain3() returns (s: Sys)
    ensures Leads(1, 0, [CallAcquire(0)] + [Go] + [CallCreate(true)], s)
    ensures View(s, 0, Running, Ready, Uninitialized, [1], 2) && s.mask
    ensures s.conts[0] == IN_USER && s.conts[1] == Push(Start, Empty)
    ensures |s.locks| == 1 && s.locks[0].held && s.locks[0].holder == 0
  {
    var s1 := LockChain2();
    assert FirstFree(s1.k.slots, 0) == FirstFree(s1.k.slots, 1) == 1;
    CreateDetails(s1, 1);
    Step(1, 0, [CallAcquire(0)] + [Go], s1, CallCreate(true));
    s := Next(s1, CallCreate(true));
  }

  lemma LockChain4() returns (s: Sys)
    ensures Leads(1, 0, [CallAcquire(0)] + [Go] + [CallCreate(true)] + [CallYield(1)], s)
    ensures View(s, 1, Ready, Running, Uninitialized, [0], 2) && s.conts[1] == Push(Start, Empty)
    ensures |s.locks| == 1 && s.locks[0].held && s.locks[0].holder == 0
  {
    var s1 := LockChain3();
    YieldDetails(s1, 1);
    SwitchDetails(s1.k, 1);
    Step(1, 0, [CallAcquire(0)] + [Go] + [CallCreate(true)], s1, CallYield(1));
    s := Next(s1, CallYield(1));
  }

  /** Main acquires the lock and lets thread 1 run. */
  const FOREIGN: seq<Action> := [CallAcquire(0)] + [Go] + [CallCreate(true)] + [CallYield(1)] + [Go]

  lemma LockChain5() returns (s: Sys)
    ensures Leads(1, 0, FOREIGN, s)
    ensures View(s, 1, Ready, Running, Uninitialized, [0], 2) && s.conts[1] == IN_USER
    ensures |s.locks| == 1 && s.locks[0].held && s.locks[0].holder == 0
  {
    var s1 := LockChain4();
    StartDetails(s1);
    Step(1, 0, [CallAcquire(0)] + [Go] + [CallCreate(true)] + [CallYield(1)], s1, Go);
    s := Next(s1, Go);
  }

  /** There lock_release by a thread that does not hold the lock breaks the lock invariant. */
  lemma ForeignReleaseBreaksLock()
    ensures IsRun(Init(1, 0), FOREIGN)
    ensures var s := After(Init(1, 0), FOREIGN);
            && Enabled(s, CallRelease(0))
            && Sized(Next(s, CallRelease(0))) && |Next(s, CallRelease(0)).locks| == 1
            && !LockOk(Next(s, CallRelease(0)), 0)
  {
    var s := LockChain5();
    LeadsReaches(1, 0, FOREIGN, s);
    ReleaseKeepsLockIff(s, 0);
  }

  // ---- a thread_kill whose assertion fails ---------------------------------------------------------

  const Q: int := THREAD_MAX_THREADS + 1

  /** Main goes to sleep in the user's queue Q. */
  lemma MainSleeps(s: Sys) returns (s': Sys)
    requires Sized(s) && View(s, 0, Running, Ready, Uninitialized, [1], 2) && s.mask && s.conts[0] == IN_USER
    requires NoSleepers(s) && |s.k.queues| == THREAD_MAX_THREADS + 2 && |s.locks| == 0
    ensures Legal(s, CallSleep(Q)) && s' == Next(s, CallSleep(Q))
    ensures View(s', 0, Sleeping, Ready, Uninitialized, [1], 1) && s'.mask && s'.conts[1] == s.conts[1]
    ensures s'.conts[0] == Push(SleepTail, IN_USER) && s'.k.slots[0].exitCode == s.k.slots[0].exitCode
    ensures |s'.k.queues| == THREAD_MAX_THREADS + 2 && s'.k.queues[Q] == [0] && |s'.locks| == 0
    ensures s'.k.queues[WaitQueueOf(0)] == []
  {
    s' := Next(s, CallSleep(Q));
  }

  lemma MainLeaves(s: Sys) returns (s': Sys)
    requires Sized(s) && View(s, 0, Sleeping, Ready, Uninitialized, [1], 1) && Inv(s.k) && s.mask
    requires s.conts[0] == Push(SleepTail, IN_USER)
    requires |s.k.queues| == THREAD_MAX_THREADS + 2 && s.k.queues[Q] == [0] && |s.locks| == 0
    requires s.k.queues[WaitQueueOf(0)] == []
    ensures Legal(s, Go) && s' == Next(s, Go)
    ensures View(s', 1, Sleeping, Running, Uninitialized, [], 1) && s'.conts[1] == s.conts[1]
    ensures s'.conts[0] == Push(InYield(true, 1), IN_USER) && s'.k.slots[0].exitCode == s.k.slots[0].exitCode
    ensures |s'.k.queues| == THREAD_MAX_THREADS + 2 && s'.k.queues[Q] == [0] && |s'.locks| == 0
    ensures s'.k.queues[WaitQueueOf(0)] == []
  {
    SwitchDetails(s.k, 1);
    s' := Next(s, Go);
  }

  /** Thread 1 alone waits for main: it does not sleep, but notes main. */
  lemma ChildNotes(s: Sys) returns (s': Sys)
    requires Sized(s) && View(s, 1, Sleeping, Running, Uninitialized, [], 1) && s.mask && s.conts[1] == IN_USER
    ensures Legal(s, CallWait(0, true)) && s' == Next(s, CallWait(0, true))
    ensures View(s', 1, Sleeping, Running, Uninitialized, [], 1) && s'.mask
    ensures s'.conts[1] == Push(WaitTail(0), IN_USER) && s'.conts[0] == s.conts[0]
    ensures s'.k.slots[1].waitingOn == 0 && s'.k.slots[0].exitCode == s.k.slots[0].exitCode
    ensures s'.k.queues == s.k.queues && s'.locks == s.locks
  {
    s' := Next(s, CallWait(0, true));
  }

  /** It gets the status that main's slot started with. */
  lemma ChildIsServed(s: Sys) returns (s': Sys)
    requires Sized(s) && View(s, 1, Sleeping, Running, Uninitialized, [], 1) && s.mask
    requires s.conts[1] == Push(WaitTail(0), IN_USER) && s.k.slots[1].waitingOn == 0 && s.k.slots[0].exitCode == 0
    ensures Legal(s, Go) && s' == Next(s, Go)
    ensures View(s', 1, Sleeping, Running, Uninitialized, [], 1) && s'.mask
    ensures s'.conts[1] == IN_USER && s'.conts[0] == s.conts[0] && s'.k.slots[1].waitingOn == 0
    ensures s'.k.queues == s.k.queues && s'.locks == s.locks
  {
    s' := Next(s, Go);
  }

  lemma ChildWakesMain(s: Sys) returns (s': Sys)
    requires Sized(s) && View(s, 1, Sleeping, Running, Uninitialized, [], 1) && s.mask
    requires s.conts[1] == IN_USER && s.k.slots[1].waitingOn == 0
    requires |s.k.queues| == THREAD_MAX_THREADS + 2 && s.k.queues[Q] == [0] && |s.locks| == 0
    ensures Legal(s, CallWakeup(Q, false)) && s' == Next(s, CallWakeup(Q, false))
    ensures View(s', 1, Ready, Running, Uninitialized, [0], 2) && s'.mask
    ensures s'.conts == s.conts && s'.k.slots[1].waitingOn == 0
    ensures s'.k.queues == s.k.queues[Q := []][READY_QUEUE := [0]] && s'.locks == s.locks
  {
    s' := Next(s, CallWakeup(Q, false));
  }

  lemma ChildSleepsWithNote(s: Sys) returns (s': Sys)
    requires Sized(s) && View(s, 1, Ready, Running, Uninitialized, [0], 2) && s.mask
    requires s.conts[1] == IN_USER && s.k.slots[1].waitingOn == 0 && s.k.queues[WaitQueueOf(0)] == []
    requires |s.k.queues| == THREAD_MAX_THREADS + 2 && |s.locks| == 0
    ensures Legal(s, CallSleep(Q)) && s' == Next(s, CallSleep(Q))
    ensures View(s', 1, Ready, Sleeping, Uninitialized, [0], 1) && s'.mask && s'.conts[0] == s.conts[0]
    ensures s'.conts[1] == Push(SleepTail, IN_USER) && s'.k.slots[1].waitingOn == 0
    ensures s'.k.queues[WaitQueueOf(0)] == []
  {
    s' := Next(s, CallSleep(Q));
  }

  lemma ChildLeavesWithNote(s: Sys) returns (s': Sys)
    requires Sized(s) && View(s, 1, Ready, Sleeping, Uninitialized, [0], 1) && Inv(s.k) && s.mask
    requires s.conts[1] == Push(SleepTail, IN_USER) && s.k.slots[1].waitingOn == 0
    requires s.k.queues[WaitQueueOf(0)] == []
    ensures Legal(s, Go) && s' == Next(s, Go)
    ensures View(s', 0, Running, Sleeping, Uninitialized, [], 1) && s'.conts[0] == s.conts[0]
    ensures s'.k.slots[1].waitingOn == 0 && s'.k.queues[WaitQueueOf(0)] == [] && s'.k.prev == 1
  {
    SwitchDetails(s.k, 0);
    s' := Next(s, Go);
  }

  const NOTED: seq<Action> := [CallCreate(true)] + [CallSleep(Q)] + [Go] + [Go]

  lemma NoteChain1() returns (s: Sys)
    ensures Leads(0, 1, [CallCreate(true)] + [CallSleep(Q)], s)
    ensures View(s, 0, Sleeping, Ready, Uninitialized, [1], 1) && s.mask && s.conts[1] == Push(Start, Empty)
    ensures s.conts[0] == Push(SleepTail, IN_USER) && s.k.slots[0].exitCode == 0
    ensures |s.k.queues| == THREAD_MAX_THREADS + 2 && s.k.queues[Q] == [0] && |s.locks| == 0
    ensures s.k.queues[WaitQueueOf(0)] == []
  {
    var s1 := Created(0, 1);
    s := MainSleeps(s1);
    Step(0, 1, [CallCreate(true)], s1, CallSleep(Q));
  }

  lemma NoteChain2() returns (s: Sys)
    ensures Leads(0, 1, [CallCreate(true)] + [CallSleep(Q)] + [Go], s)
    ensures View(s, 1, Sleeping, Running, Uninitialized, [], 1) && s.conts[1] == Push(Start, Empty)
    ensures s.conts[0] == Push(InYield(true, 1), IN_USER) && s.k.slots[0].exitCode == 0
    ensures |s.k.queues| == THREAD_MAX_THREADS + 2 && s.k.queues[Q] == [0] && |s.locks| == 0
    ensures s.k.queues[WaitQueueOf(0)] == []
  {
    var s1 := NoteChain1();
    s := MainLeaves(s1);
    Step(0, 1, [CallCreate(true)] + [CallSleep(Q)], s1, Go);
  }

  lemma NoteChain3() returns (s: Sys)
    ensures Leads(0, 1, NOTED, s)
    ensures View(s, 1, Sleeping, Running, Uninitialized, [], 1) && s.conts[1] == IN_USER && s.mask
    ensures s.conts[0] == Push(InYield(true, 1), IN_USER) && s.k.slots[0].exitCode == 0
    ensures |s.k.queues| == THREAD_MAX_THREADS + 2 && s.k.queues[Q] == [0] && |s.locks| == 0
    ensures s.k.queues[WaitQueueOf(0)] == []
  {
    var s1 := NoteChain2();
    StartDetails(s1);
    Step(0, 1, [CallCreate(true)] + [CallSleep(Q)] + [Go], s1, Go);
    s := Next(s1, Go);
  }

  lemma NoteChain4() returns (s: Sys)
    ensures Leads(0, 1, NOTED + [CallWait(0, true)], s)
    ensures View(s, 1, Sleeping, Running, Uninitialized, [], 1) && s.mask && s.conts[1] == Push(WaitTail(0), IN_USER)
    ensures s.conts[0] == Push(InYield(true, 1), IN_USER) && s.k.slots[0].exitCode == 0
    ensures s.k.slots[1].waitingOn == 0
    ensures |s.k.queues| == THREAD_MAX_THREADS + 2 && s.k.queues[Q] == [0] && |s.locks| == 0
    ensures s.k.queues[WaitQueueOf(0)] == []
  {
    var s1 := NoteChain3();
    s := ChildNotes(s1);
    Step(0, 1, NOTED, s1, CallWait(0, true));
  }

  lemma NoteChain5() returns (s: Sys)
    ensures Leads(0, 1, NOTED + [CallWait(0, true)] + [Go], s)
    ensures View(s, 1, Sleeping, Running, Uninitialized, [], 1) && s.mask && s.conts[1] == IN_USER
    ensures s.conts[0] == Push(InYield(true, 1), IN_USER) && s.k.slots[1].waitingOn == 0
    ensures |s.k.queues| == THREAD_MAX_THREADS + 2 && s.k.queues[Q] == [0] && |s.locks| == 0
    ensures s.k.queues[WaitQueueOf(0)] == []
  {
    var s1 := NoteChain4();
    s := ChildIsServed(s1);
    Step(0, 1, NOTED + [CallWait(0, true)], s1, Go);
  }

  const SERVED: seq<Action> := NOTED + [CallWait(0, true)] + [Go]

  lemma NoteChain6() returns (s: Sys)
    ensures Leads(0, 1, SERVED + [CallWakeup(Q, false)], s)
    ensures View(s, 1, Ready, Running, Uninitialized, [0], 2) && s.mask && s.conts[1] == IN_USER
    ensures s.conts[0] == Push(InYield(true, 1), IN_USER) && s.k.slots[1].waitingOn == 0
    ensures |s.k.queues| == THREAD_MAX_THREADS + 2 && |s.locks| == 0
    ensures s.k.queues[WaitQueueOf(0)] == []
  {
    var s1 := NoteChain5();
    s := ChildWakesMain(s1);
    Step(0, 1, SERVED, s1, CallWakeup(Q, false));
  }

  lemma NoteChain7() returns (s: Sys)
    ensures Leads(0, 1, SERVED + [CallWakeup(Q, false)] + [CallSleep(Q)], s)
    ensures View(s, 1, Ready, Sleeping, Uninitialized, [0], 1) && s.mask && s.conts[1] == Push(SleepTail, IN_USER)
    ensures s.conts[0] == Push(InYield(true, 1), IN_USER) && s.k.slots[1].waitingOn == 0
    ensures s.k.queues[WaitQueueOf(0)] == []
  {
    var s1 := NoteChain6();
    s := ChildSleepsWithNote(s1);
    Step(0, 1, SERVED + [CallWakeup(Q, false)], s1, CallSleep(Q));
  }

  lemma NoteChain8() returns (s: Sys)
    ensures Leads(0, 1, SERVED + [CallWakeup(Q, false)] + [CallSleep(Q)] + [Go], s)
    ensures View(s, 0, Running, Sleeping, Uninitialized, [], 1) && s.conts[0] == Push(InYield(true, 1), IN_USER)
    ensures s.k.slots[1].waitingOn == 0 && s.k.queues[WaitQueueOf(0)] == [] && s.k.prev == 1
  {
    var s1 := NoteChain7();
    s := ChildLeavesWithNote(s1);
    Step(0, 1, SERVED + [CallWakeup(Q, false)] + [CallSleep(Q)], s1, Go);
  }

  /** Thread 1, which once waited for main, sleeps in the user's queue, and main runs. */
  const STALE: seq<Action> := SERVED + [CallWakeup(Q, false)] + [CallSleep(Q)] + [Go] + [Go]

  lemma NoteChain9() returns (s: Sys)
    ensures Leads(0, 1, STALE, s)
    ensures View(s, 0, Running, Sleeping, Uninitialized, [], 1) && s.conts[0] == IN_USER
    ensures s.k.slots[1].waitingOn == 0 && s.k.queues[WaitQueueOf(0)] == []
  {
    var s1 := NoteChain8();
    ResumeDetails(s1, 1);
    Step(0, 1, SERVED + [CallWakeup(Q, false)] + [CallSleep(Q)] + [Go], s1, Go);
    s := Next(s1, Go);
  }

  lemma KillAssertsThere(s: Sys)
    requires Sized(s) && View(s, 0, Running, Sleeping, Uninitialized, [], 1) && s.conts[0] == IN_USER
    requires s.k.slots[1].waitingOn == 0 && s.k.queues[WaitQueueOf(0)] == []
    ensures Legal(s, CallKill(1)) && Kill(s.k, 1) == KillAsserts && Next(s, CallKill(1)).status == Crashed
  {
  }

  /** A thread_kill of it finds main's wait queue empty, and the assertion of thread_awaken fails. */
  lemma StaleNoteFailsAssertion()
    ensures IsRun(Init(0, 1), STALE)
    ensures var s := After(Init(0, 1), STALE);
            && Legal(s, CallKill(1)) && Next(s, CallKill(1)).status == Crashed
            && Kill(s.k, 1) == KillAsserts
  {
    var s := NoteChain9();
    KillAssertsThere(s);
  }

  // ---- a lost signal ---------------------------------------------------------------------------------

  const CV: int := THREAD_MAX_THREADS + 2

  predicate Holds(s: Sys, t: Tid) {
    |s.locks| == 1 && s.locks[0].held && s.locks[0].holder == t
  }

  lemma ChildAcquires(s: Sys) returns (s': Sys)
    requires Sized(s) && View(s, 1, Ready, Running, Uninitialized, [0], 2) && s.mask && s.conts[1] == IN_USER
    requires |s.locks| == 1 && !s.locks[0].held && NoSleepers(s) && |s.k.queues| == THREAD_MAX_THREADS + 3
    ensures Legal(s, CallAcquire(0)) && Sized(Next(s, CallAcquire(0))) && Legal(Next(s, CallAcquire(0)), Go)
    ensures s' == Next(Next(s, CallAcquire(0)), Go)
    ensures View(s', 1, Ready, Running, Uninitialized, [0], 2) && s'.mask && s'.conts[1] == IN_USER
    ensures s'.conts[0] == s.conts[0] && s'.k == s.k && Holds(s', 1)
  {
    s' := Next(Next(s, CallAcquire(0)), Go);
  }

  /** cv_wait has released the lock and is about to sleep. */
  lemma ChildReleases(s: Sys) returns (s': Sys)
    requires Sized(s) && View(s, 1, Ready, Running, Uninitialized, [0], 2) && s.mask && s.conts[1] == IN_USER
    requires Holds(s, 1) && NoSleepers(s) && |s.k.queues| == THREAD_MAX_THREADS + 3
    ensures Legal(s, CallCvWait(CV, 0)) && s' == Next(s, CallCvWait(CV, 0))
    ensures View(s', 1, Ready, Running, Uninitialized, [0], 2) && s'.mask
    ensures s'.conts[1] == Push(CvSleep(CV, 0), IN_USER) && s'.conts[0] == s.conts[0]
    ensures s'.k == s.k && |s'.locks| == 1 && !s'.locks[0].held
  {
    assert WakeAll(s.k, LockQueue(0)) == s.k;
    s' := Next(s, CallCvWait(CV, 0));
  }

  /** There the timer takes the processor away. */
  lemma ChildIsPreempted(s: Sys) returns (s': Sys)
    requires Sized(s) && View(s, 1, Ready, Running, Uninitialized, [0], 2) && Inv(s.k) && s.mask
    requires s.conts[1] == Push(CvSleep(CV, 0), IN_USER) && NoSleepers(s)
    ensures Legal(s, Tick) && s' == Next(s, Tick)
    ensures View(s', 0, Running, Ready, Uninitialized, [1], 2) && s'.conts[0] == s.conts[0]
    ensures s'.conts[1] == Push(InYield(false, 0), Push(Handler, Push(CvSleep(CV, 0), IN_USER)))
    ensures s'.k.prev == 1 && s'.locks == s.locks && NoSleepers(s') && |s'.k.queues| == |s.k.queues|
  {
    SwitchDetails(s.k, 0);
    s' := Next(s, Tick);
  }

  lemma MainAcquires(s: Sys) returns (s': Sys)
    requires Sized(s) && View(s, 0, Running, Ready, Uninitialized, [1], 2) && s.mask && s.conts[0] == IN_USER
    requires |s.locks| == 1 && !s.locks[0].held && NoSleepers(s) && |s.k.queues| == THREAD_MAX_THREADS + 3
    ensures Legal(s, CallAcquire(0)) && Sized(Next(s, CallAcquire(0))) && Legal(Next(s, CallAcquire(0)), Go)
    ensures s' == Next(Next(s, CallAcquire(0)), Go)
    ensures View(s', 0, Running, Ready, Uninitialized, [1], 2) && s'.mask && s'.conts[0] == IN_USER
    ensures s'.conts[1] == s.conts[1] && s'.k == s.k && Holds(s', 0)
  {
    s' := Next(Next(s, CallAcquire(0)), Go);
  }

  const WAITING: seq<Action> := START + [CallAcquire(0)] + [Go] + [CallCvWait(CV, 0)]

  lemma SignalChain1() returns (s: Sys)
    ensures Leads(1, 1, START + [CallAcquire(0)] + [Go], s)
    ensures View(s, 1, Ready, Running, Uninitialized, [0], 2) && s.mask && s.conts[1] == IN_USER
    ensures s.conts[0] == Push(InYield(true, 1), IN_USER) && Holds(s, 1)
    ensures NoSleepers(s) && |s.k.queues| == THREAD_MAX_THREADS + 3
  {
    var s1 := Started(1, 1);
    s := ChildAcquires(s1);
    Step(1, 1, START, s1, CallAcquire(0));
    Step(1, 1, START + [CallAcquire(0)], Next(s1, CallAcquire(0)), Go);
  }

  lemma SignalChain2() returns (s: Sys)
    ensures Leads(1, 1, WAITING, s)
    ensures View(s, 1, Ready, Running, Uninitialized, [0], 2) && s.mask
    ensures s.conts[1] == Push(CvSleep(CV, 0), IN_USER) && s.conts[0] == Push(InYield(true, 1), IN_USER)
    ensures NoSleepers(s) && |s.k.queues| == THREAD_MAX_THREADS + 3 && |s.locks| == 1 && !s.locks[0].held
  {
    var s1 := SignalChain1();
    s := ChildReleases(s1);
    Step(1, 1, START + [CallAcquire(0)] + [Go], s1, CallCvWait(CV, 0));
  }

  lemma SignalChain3() returns (s: Sys)
    ensures Leads(1, 1, WAITING + [Tick], s)
    ensures View(s, 0, Running, Ready, Uninitialized, [1], 2) && s.conts[0] == Push(InYield(true, 1), IN_USER)
    ensures s.conts[1] == Push(InYield(false, 0), Push(Handler, Push(CvSleep(CV, 0), IN_USER))) && s.k.prev == 1
    ensures NoSleepers(s) && |s.k.queues| == THREAD_MAX_THREADS + 3 && |s.locks| == 1 && !s.locks[0].held
  {
    var s1 := SignalChain2();
    s := ChildIsPreempted(s1);
    Step(1, 1, WAITING, s1, Tick);
  }

  lemma SignalChain4() returns (s: Sys)
    ensures Leads(1, 1, WAITING + [Tick] + [Go], s)
    ensures View(s, 0, Running, Ready, Uninitialized, [1], 2) && s.mask && s.conts[0] == IN_USER
    ensures s.conts[1] == Push(InYield(false, 0), Push(Handler, Push(CvSleep(CV, 0), IN_USER)))
    ensures NoSleepers(s) && |s.k.queues| == THREAD_MAX_THREADS + 3 && |s.locks| == 1 && !s.locks[0].held
  {
    var s1 := SignalChain3();
    ResumeDetails(s1, 1);
    Step(1, 1, WAITING + [Tick], s1, Go);
    s := Next(s1, Go);
  }

  /** Thread 1 is preempted in cv_wait before it sleeps, and main acquires the lock. */
  const BEFORE_SIGNAL: seq<Action> := WAITING + [Tick] + [Go] + [CallAcquire(0)] + [Go]

  lemma SignalChain5() returns (s: Sys)
    ensures Leads(1, 1, BEFORE_SIGNAL, s)
    ensures View(s, 0, Running, Ready, Uninitialized, [1], 2) && s.conts[0] == IN_USER && Holds(s, 0)
    ensures s.conts[1] == Push(InYield(false, 0), Push(Handler, Push(CvSleep(CV, 0), IN_USER)))
    ensures NoSleepers(s) && |s.k.queues| == THREAD_MAX_THREADS + 3
  {
    var s1 := SignalChain4();
    s := MainAcquires(s1);
    Step(1, 1, WAITING + [Tick] + [Go], s1, CallAcquire(0));
    Step(1, 1, WAITING + [Tick] + [Go] + [CallAcquire(0)], Next(s1, CallAcquire(0)), Go);
  }

  /** Main, holding the lock, signals: nothing changes, although thread 1 is in cv_wait on its way to sleep. */
  lemma SignalIsLost()
    ensures IsRun(Init(1, 1), BEFORE_SIGNAL)
    ensures var s := After(Init(1, 1), BEFORE_SIGNAL);
            && |s.conts| == THREAD_MAX_THREADS
            && s.conts[1] == Push(InYield(false, 0), Push(Handler, Push(CvSleep(CV, 0), IN_USER)))
            && Holds(s, 0) && s.k.current == 0
            && Legal(s, CallCvSignal(CV, 0, false)) && Next(s, CallCvSignal(CV, 0, false)) == s
  {
    var s := SignalChain5();
    LeadsReaches(1, 1, BEFORE_SIGNAL, s);
    SignalWakesIff(s, CV, 0, false);
  }

  // ---- a status that outlives its thread ---------------------------------------------------------------

  lemma ChildExits(s: Sys) returns (s': Sys)
    requires Sized(s) && View(s, 1, Ready, Running, Uninitialized, [0], 2) && NoSleepers(s)
    requires s.conts[1] == Push(ExitCall(-42), IN_USER)
    ensures Legal(s, Go) && s' == Next(s, Go)
    ensures View(s', 1, Ready, Exited, Uninitialized, [0], 1) && s'.conts[0] == s.conts[0]
    ensures s'.conts[1] == Push(ExitTail(false), IN_USER) && s'.k.slots[1].exitCode == -42
  {
    ExitIs(s.k, -42);
    assert WakeAll(s.k, WaitQueueOf(1)) == s.k;
    s' := Next(s, Go);
  }

  lemma MainTakesOver(s: Sys) returns (s': Sys)
    requires Sized(s) && View(s, 1, Ready, Exited, Uninitialized, [0], 1) && Inv(s.k)
    requires s.conts[1] == Push(ExitTail(false), IN_USER) && s.k.slots[1].exitCode == -42
    ensures Legal(s, Go) && s' == Next(s, Go)
    ensures View(s', 0, Running, Exited, Uninitialized, [], 1) && s'.conts[0] == s.conts[0]
    ensures s'.k.slots[1].exitCode == -42 && s'.k.prev == 1
  {
    SwitchDetails(s.k, 0);
    s' := Next(s, Go);
  }

  lemma MainReaps(s: Sys) returns (s': Sys)
    requires Sized(s) && View(s, 0, Running, Exited, Uninitialized, [], 1) && Inv(s.k)
    requires s.conts[0] == Push(InYield(true, 1), IN_USER) && s.k.slots[1].exitCode == -42 && s.k.prev == 1
    ensures Legal(s, Go) && s' == Next(s, Go)
    ensures View(s', 0, Running, Uninitialized, Uninitialized, [], 1) && s'.conts[0] == IN_USER
    ensures s'.k.slots[1].exitCode == -42
  {
    ReapInv(s.k);
    s' := Next(s, Go);
  }

  lemma LateChain1() returns (s: Sys)
    ensures Leads(0, 0, START + [CallExit(-42)], s)
    ensures View(s, 1, Ready, Running, Uninitialized, [0], 2) && NoSleepers(s)
    ensures s.conts[0] == Push(InYield(true, 1), IN_USER) && s.conts[1] == Push(ExitCall(-42), IN_USER)
  {
    var s1 := Started(0, 0);
    Step(0, 0, START, s1, CallExit(-42));
    s := Next(s1, CallExit(-42));
  }

  lemma LateChain2() returns (s: Sys)
    ensures Leads(0, 0, START + [CallExit(-42)] + [Go], s)
    ensures View(s, 1, Ready, Exited, Uninitialized, [0], 1) && s.conts[0] == Push(InYield(true, 1), IN_USER)
    ensures s.conts[1] == Push(ExitTail(false), IN_USER) && s.k.slots[1].exitCode == -42
  {
    var s1 := LateChain1();
    s := ChildExits(s1);
    Step(0, 0, START + [CallExit(-42)], s1, Go);
  }

  lemma LateChain3() returns (s: Sys)
    ensures Leads(0, 0, START + [CallExit(-42)] + [Go] + [Go], s)
    ensures View(s, 0, Running, Exited, Uninitialized, [], 1) && s.conts[0] == Push(InYield(true, 1), IN_USER)
    ensures s.k.slots[1].exitCode == -42 && s.k.prev == 1
  {
    var s1 := LateChain2();
    s := MainTakesOver(s1);
    Step(0, 0, START + [CallExit(-42)] + [Go], s1, Go);
  }

  /** Thread 1 calls thread_exit(-42), main runs and reaps it. */
  const REAPED: seq<Action> := START + [CallExit(-42)] + [Go] + [Go] + [Go]

  lemma LateChain4() returns (s: Sys)
    ensures Leads(0, 0, REAPED, s)
    ensures View(s, 0, Running, Uninitialized, Uninitialized, [], 1) && s.conts[0] == IN_USER
    ensures s.k.slots[1].exitCode == -42
  {
    var s1 := LateChain3();
    s := MainReaps(s1);
    Step(0, 0, START + [CallExit(-42)] + [Go] + [Go], s1, Go);
  }

  /** thread_wait on the reaped thread returns at once, with its status. */
  lemma ReapedThreadIsWaitedFor()
    ensures IsRun(Init(0, 0), REAPED)
    ensures var s := After(Init(0, 0), REAPED);
            && Shape(s.k) && s.k.slots[1].state == Uninitialized && Legal(s, CallWait(1, true))
            && Next(s, CallWait(1, true)).deliveries == s.deliveries + [Delivery(0, 1, -42)]
            && Next(s, CallWait(1, true)).conts == s.conts
  {
    var s := LateChain4();
    CallGetsStatus(s, 1);
  }
}
