# Verification of the course labs

A Dafny model of the four programs of the repository that keep interesting
invariants: the user-level thread package, the web server, its robust I/O and
response framing, and the word counter. `dafny verify dfyconfig.toml` checks
everything.

## What is modelled

**Threads** (`threads/thread.c`, `threads/interrupt.c`). `ThreadKernel` gives the
thread table, the queues and the effect of each region that runs with interrupts
off. `ThreadMachine` runs them: every thread has a stack of library frames that
its saved context would resume, there is one signal mask, and the timer may
insert `thread_yield(THREAD_ANY)` wherever the mask is on. A fresh context
enters the stub and turns interrupts on; any other resumes after `getcontext`,
runs the reaper again and restores its own saved flag. `ThreadSafety` proves the
invariant of `ThreadInvariant` over all runs, and `ThreadTheorems`,
`ThreadDispatch`, `ThreadExitStatus`, `ThreadDeliveries`, `ThreadSleeping`,
`ThreadStacks` and `ThreadKilling` draw the conclusions over runs; `ThreadCalls`
says what each call does to states, queues, counter and contexts.
`ThreadWitnesses` gives the runs that break what is not promised. `WaitQueues`
and `ThreadSystems` are the same code over linked lists, arrays and a flag, each method proved to have the effect that `ThreadKernel` gives it.

**Server** (`webserver/server_thread.c`). `ConnRing` and `ServerBuffer` are the
circular buffer, on values and in an array. `ServerPipeline` is the protocol of
workers and producers around it: a section under the mutex is one step, a signal
wakes a waiter of the scheduler's choice, wakeups may be spurious, and woken
threads compete with newcomers (`pthread_cond_wait` in POSIX.1-2017).
`ServerTheorems` holds its results. `ServerCache` is the hash table with its byte
budget, `ServerFiles` the interleaving of lookups, reads and inserts. `LruList`
is the doubly linked list that the cache does not call.

**Robust I/O and framing** (`webserver/common.c`, `request.c`, `client.c`). In
`Rio` the kernel is an adversary: it chooses chunk sizes, interrupts a finite
number of times and lets a finite number of calls fail. `Framing` specifies the
response and the client on plain strings; `Connection` runs both ends over `Rio`.

**Word counter** (`warmup/wc.c`). `WordCount` says which words a text has and what
table they make; `WordTables` is the linked hash table and the one-pass tokenizer.

## Reading notes

- Stacks are numbered in order of allocation; `prev`, `freed`, `nextStack`, the
  set `inside` of a lock, the machine's `deliveries`, and the lists `accepted`,
  `taken`, `served`, `asked` and `answers` of the server are history that no
  program step reads.
- A thread's slot that was never created has status 0 (static storage), so one
  wait on it succeeds; the token theorem counts that status.
- `thread_wait` on a thread that exited returns it even when its status is -1 and
  even to a second waiter (line 730); only statuses other than -1 count as
  deliveries.
- The machine takes two things from its callers: `thread_kill` names no thread
  that has exited, and `lock_release` is called by the holder, as
  `threads/thread.h:155-157` asks. It also takes it that a stack can be allocated
  when a zombie's slot is reused. Three lemmas give the exact conditions:
  `KillKeepsInvIff`, `ReleaseKeepsLockIff`, `CreateKeepsInvIff`; two runs show
  states in which they fail: `ZombieCallsBreakTable`, `ForeignReleaseBreaksLock`.
- A `thread_kill` of a sleeper that is not in the queue named by its waiting_on
  crashes. If the note is -1 or names a slot without a queue, line 263 strays
  outside the table or to a null or freed queue; otherwise the assertion in line
  264 fails. A `thread_wait` on a zombie crashes when its exit_code is null (line
  732), although `threads/thread.h:130-132` permits that. The machine stops as
  crashed in these cases and in no other; `CrashIff` says exactly when.
- The server's hash is any function into the table (signed overflow in
  `hash_function` is taken not to leave it), and new tables and `next` fields
  start null.
- File contents are kept and handed out with `strdup`, which stops at the first
  NUL, while `file_size` bytes are sent. A file buffer has no terminator of its
  own; the byte behind it is taken to be NUL. Nothing depends on that, since only
  `file_size` bytes are sent. An empty file has a null buffer, which `strdup`
  does not survive.
- A C char is a Dafny char. `rio_readlineb` writes its terminator behind maxlen
  characters, and the client passes it MAXBUF for a buffer of MAXBUF cells
  (`webserver/client.c:27`, 37, 42, 56): a line that fills the buffer makes it
  write behind its end, and what follows is not defined. `FillsIff` and
  `RoundTrip` say exactly which files do that: those with MAXBUF characters, no
  newline before the last of them, at the start or after a newline.
- A wait queue that is null, or freed by the reaper, is an empty queue in the model.
- The client compares its buffer before the first line has arrived at the end of
  an empty stream; the buffer is taken to start with NUL.
- `int` lengths are unbounded in the client; `RoundTrip` covers files of up to
  2^31 - 1 bytes, the range of `file_size`.

## Model

| member | source | states |
|---|---|---|
| `ThreadTheorems.QueuedOnce` | threads/thread.c:76-182 | In every reachable state no thread is in two queues, nor twice in one, counting the ready queue and every wait queue of threads, locks and condition variables. |
| `ThreadTheorems.StateTellsQueue` | threads/thread.c:362-715 | In every reachable state a thread's state decides its queue, both ways: READY means queued to run, KILLED means queued or current, SLEEP means in a wait queue, RUNNING, EXITED and UNINITIALIZED mean in none. |
| `ThreadTheorems.ThreadCount` | threads/thread.c:638-640 | While a live thread runs the counter is one plus the ready queue's length, so the guard of thread_sleep fails exactly when nobody else can run, and the last-thread branch of thread_exit is never taken. |
| `ThreadTheorems.SleeperDoesNotRunOn` | threads/thread.c:643-653 | A current thread still marked SLEEP takes no step but one that switches to another thread. |
| `ThreadTheorems.NeverStuck` | threads/thread.c:362-557 | In an active reachable state the current thread is in user code or can take a library step; that step changes nothing if and only if the thread is in lock_acquire on a held lock with nobody else to run. |
| `ThreadTheorems.ZombieRanJustBefore` | threads/thread.c:404-418 | Among the slots that are not running at most one is EXITED: the thread that ran just before, whose wait queue is empty. |
| `ThreadTheorems.StackOwnership` | threads/thread.c:222-248 | Every stack ever allocated is either freed, once, or owned by exactly one slot; never both and never neither. |
| `ThreadTheorems.FreesOnlyZombies` | threads/thread.c:404-418 | A step frees at most one stack, that of a zombie that is not current, and only in the reaper or in thread_create. |
| `ThreadTheorems.AcquireReturnsWithLock` | threads/thread.c:842-856 | Under any preemption a thread that called lock_acquire is next in user code with the lock held in its name. |
| `ThreadTheorems.CvWaitReturnsWithLock` | threads/thread.c:919-931 | cv_wait entered with the lock gives it up at once, and its caller is next in user code with the lock held again; that it slept in between is CvWaitWaits. |
| `ThreadTheorems.ReleaseKeepsLockIff` | threads/thread.c:859-868 | lock_release keeps the lock invariant if and only if the lock is free or its caller holds it. |
| `ThreadTheorems.SignalWakesIff` | threads/thread.c:934-955 | A cv_signal or cv_broadcast by the holder wakes somebody if and only if the queue is not empty; then its first thread becomes READY, and otherwise the state stays the same. |
| `ThreadTheorems.KilledUnlessItSleeps` | threads/thread.c:559-592 | Every step of a killed thread, in user code or inside the library, leaves it KILLED, except that thread_exit makes it EXITED and that going to sleep, wherever it happens, turns it into an ordinary sleeper. |
| `ThreadWitnesses.KilledThreadActs` | threads/thread.h:81-83 | The promise that a killed thread does not run is broken by a run: killed main comes back to user code, can create a thread, and forgets the kill by sleeping. |
| `ThreadTheorems.KilledExitsAtYield` | threads/thread.c:368-371 | Corollary of one branch: the next yield of a killed thread, its own or the timer's, leads it to thread_exit(0) without touching the thread table. |
| `ThreadTheorems.ClearedWaitingOnBreaksKill` | threads/thread.c:775 | Corollary of StepNote and KillCrashesIff: a refused waiter clears its target's waiting_on instead of its own, and if the target sleeps the next thread_kill of it reads the queue of thread -1, outside the table. |
| `ThreadKilling.KillCrashesIff` | threads/thread.c:259-264 | In every reachable state thread_kill crashes if and only if its target sleeps and either is in no thread's wait queue or has waiting_on -1. It strays, outside the table or to a queue that was never made or was freed, exactly when waiting_on is -1 or names an unused slot; the assertion fails exactly when waiting_on names a thread in whose queue the target is not. |
| `ThreadKilling.SleeperElsewhereCrashesKill` | threads/thread.c:579-582 | So thread_kill of any thread asleep on a lock, a condition variable or a user's queue crashes, by the stray access or by the assertion. |
| `ThreadKilling.WaiterKillableUnlessRefused` | threads/thread.c:745-775 | Over every run after a thread went to sleep in thread_wait, and as long as it sleeps there, thread_kill of it reads outside the table if some waiter on it has been refused since, and succeeds otherwise. |
| `ThreadKilling.StepNote` | threads/thread.c:745-775 | A step writes the waiting_on of a thread in a wait queue only when the thread goes to sleep there, and otherwise clears it only in a refused waiter on that thread. |
| `ThreadKilling.CrashIff` | threads/thread.c:559-732 | A permitted step in any reachable state crashes the program if and only if it is a thread_kill of a sleeper that is in no thread's wait queue or lost its note, or a thread_wait with a null exit_code on an exited thread, which then ran just before. |
| `ThreadWitnesses.RefusedWaitThenKillCrashes` | threads/thread.c:263 | Nine permitted steps from thread_init end in the read outside the table: thread 1 waits for main, main waits for thread 1 in vain and kills it. |
| `ThreadWitnesses.KillOfSleeperCrashes` | threads/thread.c:263 | So does a run in which main kills thread 1, which never waited for a thread, while it sleeps in a user's queue. |
| `ThreadWitnesses.StaleNoteFailsAssertion` | threads/thread.c:264 | A run in which the assertion itself fails: thread 1 gets main's initial status from thread_wait without sleeping, keeps its note of main, and is killed while it sleeps in a user's queue. |
| `ThreadWitnesses.NullWaitCrashes` | threads/thread.c:732 | A run ends in thread_wait writing a zombie's status through the null pointer that thread.h:130-132 permits. |
| `ThreadWitnesses.SignalIsLost` | threads/thread.c:919-940 | A run in which the holder of the lock signals while a thread is inside cv_wait, between its release and its sleep: the signal changes nothing. |
| `ThreadWitnesses.ZombieCallsBreakTable` | threads/thread.c:233-246 | A run reaches user code beside a zombie; there thread_kill of the zombie, and thread_create whose malloc fails, both break the table invariant. |
| `ThreadWitnesses.ForeignReleaseBreaksLock` | threads/thread.c:859-868 | A run reaches a state in which lock_release by a thread that does not hold the lock breaks the lock invariant. |
| `ThreadWitnesses.AcquireTwiceSpins` | threads/thread.c:847-849 | A run in which one thread acquires a lock twice spins for ever with interrupts off. |
| `ThreadSafety.StepSafe` | threads/thread.c:325-955 | Every permitted step of every thread keeps the whole invariant: queues, states, counter, stacks, saved contexts, signal mask and locks. |
| `ThreadSafety.RunSafe` | threads/thread.c:325-955 | So does every run of permitted steps. |
| `ThreadSafety.InitSafe` | threads/thread.c:278-311 | The invariant holds after thread_init, whatever number of locks and queues is created. |
| `ThreadInvariant.KillKeepsInvIff` | threads/thread.c:560-592 | thread_kill keeps the table invariant if and only if its target has not exited. |
| `ThreadInvariant.CreateKeepsInvIff` | threads/thread.c:214-257 | thread_create keeps the table invariant if and only if its stack is allocated, or no zombie had to be reused for it; otherwise a READY slot is left in no queue. |
| `ThreadInvariant.WakeAllIsFifo` | threads/thread.c:669-690 | Waking all appends the sleepers to the ready queue in the order in which they went to sleep. |
| `ThreadInvariant.SwitchToQueues` | threads/thread.c:404-447 | A switch takes its target out of the ready queue and appends the caller exactly when the caller was RUNNING; no other queue changes. |
| `ThreadInvariant.SwitchToSlots` | threads/thread.c:425-447 | A switch marks its target RUNNING unless it is KILLED, the caller READY if it was RUNNING, a reaped zombie UNINITIALIZED, and no other thread. |
| `ThreadInvariant.ReapInv` | threads/thread.c:404-418 | The reaper loop over all slots amounts to reaping the previous thread; it leaves no zombie behind the current thread and changes no queue. |
| `ThreadInvariant.ExitIs` | threads/thread.c:518-540 | The second wakeup in thread_exit never finds anybody: the first one emptied the queue. |
| `ThreadEffects.EffectIs` | threads/thread.c:362-784 | Every permitted step changes the thread table by exactly one named effect, whose precondition holds; the run theorems rest on this. |
| `ThreadDispatch.OnlySwitchesChangeCurrent` | threads/thread.c:384-500 | Only a switch changes the current thread, and it lands on another thread that was in the ready queue and is alive. |
| `ThreadDispatch.PositionNeverGrows` | threads/thread.c:384-500 | Whatever happens, a thread in the ready queue runs, keeps its place or moves up, and moves up by at least one when the head is dispatched. |
| `ThreadDispatch.BoundedWaiting` | threads/thread.c:384-447 | In every run a thread with p threads ahead of it runs by the (p+1)-th dispatch of the head. |
| `ThreadExitStatus.StepCode` | threads/thread.c:525-584 | The status of a slot changes only by the exit or kill of its thread, by a wait that takes it, and by reuse of the slot. |
| `ThreadExitStatus.StatusesAreTokens` | threads/thread.c:730-779 | Over every run the statuses delivered for a slot, plus one if it still holds one, are at most those deposited plus one if it held one at the start. |
| `ThreadExitStatus.FirstWaiterTakesStatus` | threads/thread.c:744-779 | Of the waiters that resume after one exit, exactly the first gets the status that is in the slot; every later one is refused or, if killed, exits. That it is the argument of thread_exit is FirstWaiterGetsArgument. |
| `ThreadExitStatus.NoStatusNoDelivery` | threads/thread.c:757-779 | While no status is deposited for a thread none of its waiters returns successfully. |
| `ThreadDeliveries.ExitStatusIsArgument` | threads/thread.c:513-536 | Over every run after thread_exit(c), if the caller is not killed before it exits, the step by which it exits leaves c in its slot, however often it is preempted on the way. |
| `ThreadDeliveries.StatusDeliveredOnce` | threads/thread.c:730-763 | Over every run, while the slot of a thread that exited is not reused, its status stays as it is until a thread_wait asks for it; that one gets it, and no other. |
| `ThreadDeliveries.LateWaitSucceeds` | threads/thread.c:730-734 | If nobody asked since a thread exited with a status other than -1, a thread_wait on it returns at once into user code with that status, whether the thread is still a zombie or was reaped long ago. |
| `ThreadDeliveries.ArgumentReachesFirstAsker` | threads/thread.c:513-763 | End to end: the argument of thread_exit is what the first thread_wait on the caller delivers, before or after it is reaped, and no later one delivers it. |
| `ThreadDeliveries.FirstWaiterGetsArgument` | threads/thread.c:744-779 | End to end for sleeping waiters: the first to resume gets the argument of thread_exit, every later one is refused or exits. |
| `ThreadDeliveries.KilledWaiterExitsWith9` | threads/thread.c:769-772 | Over every run after thread_kill of a thread, if it resumes in thread_wait without a status to take, it calls thread_exit(9) and leaves the status 9. |
| `ThreadWitnesses.ReapedThreadIsWaitedFor` | threads/thread.c:730-734 | A run in which thread 1 calls thread_exit(-42), is reaped, and main then gets -42 from thread_wait. |
| `ThreadSleeping.SleepsUntil` | threads/thread.c:643-650 | A thread stays in a wait queue until an action that can wake it there: for a thread's queue its exit or a kill, for a lock's queue a release, for any other a wakeup, or a signal or broadcast by the holder of a lock. |
| `ThreadSleeping.SleepReturnsWoken` | threads/thread.c:625-654 | Over every run, thread_sleep with others to run is back in user code only after such an action took the caller out of the queue. |
| `ThreadSleeping.WaitReturnsWoken` | threads/thread.c:742-747 | Over every run, thread_wait on a live thread with others to run is back in user code only after that thread's exit, or a kill of the caller, took it out of the queue. |
| `ThreadSleeping.CvWaitWaits` | threads/thread.c:919-931 | Over every run, cv_wait is back in user code only after its caller slept in the condition's queue and a wakeup, or a signal or broadcast by a holder, took it out; or nobody else could run when it came to sleep. |
| `ThreadCalls.InitIs` | threads/thread.c:278-311 | After thread_init main runs alone with interrupts on, every slot is unused with status 0, every queue is empty and every lock is free. |
| `ThreadCalls.YieldReturnsAtOnce` | threads/thread.c:374-395 | Called with THREAD_SELF, its own number, THREAD_ANY when nobody is ready, or a number that is not ready, thread_yield changes nothing at all. |
| `ThreadCalls.YieldAnyRunsHead` | threads/thread.c:384-450 | Otherwise thread_yield(THREAD_ANY) runs the head of the ready queue: the caller becomes its last, a zombie is freed, and the caller's context resumes in thread_yield. |
| `ThreadCalls.YieldToRunsNamed` | threads/thread.c:451-500 | thread_yield(t) does the same with t, wherever it is in the ready queue, leaving the others in order. |
| `ThreadCalls.TickRunsHead` | threads/interrupt.c:150-177 | The timer runs the head of the ready queue, and the interrupted thread goes on in the handler later; with nobody ready it does nothing. |
| `ThreadCalls.SleeperYields` | threads/thread.c:643-653 | A thread that fell asleep hands the processor to the head of the ready queue and stays in its wait queue only. |
| `ThreadCalls.ZombieYields` | threads/thread.c:544-549 | So does a thread that exited; with nobody ready its first yield returns and its second ends the process. |
| `ThreadCalls.ResumptionReaps` | threads/thread.c:400-450 | A thread that gets the processor back frees the zombie it took over from and its stack, restores its own flag, and changes nothing else. |
| `ThreadCalls.CreateResult` | threads/thread.c:214-257 | thread_create returns THREAD_NOMORE if and only if 1024 threads can run or no slot is free, THREAD_NOMEMORY if and only if malloc fails otherwise, and else the lowest free number. |
| `ThreadCalls.CreateCreates` | threads/thread.c:185-211 | The new thread is the last of the ready ones, with a new stack, an empty wait queue, no status and a context that enters the stub; all others are as before. |
| `ThreadCalls.CreateFails` | threads/thread.c:214-246 | A thread_create without room changes nothing, and one without memory at most the status of the slot it tried. |
| `ThreadCalls.WakeupWakes` | threads/thread.c:662-715 | thread_wakeup makes the first sleeper, or all of them in order, the last of the ready threads, and leaves the rest asleep. |
| `ThreadCalls.SignalWakes` | threads/thread.c:934-955 | cv_signal by the holder wakes the first sleeper and cv_broadcast all of them, in order; by anybody else they do nothing. |
| `ThreadCalls.SleepSleeps` | threads/thread.c:625-654 | thread_sleep puts the caller at the end of the queue, asleep and no longer counted, unless nobody else can run; then it returns at once. |
| `ThreadCalls.KillRefuses` | threads/thread.c:565-576 | thread_kill of a number of no thread, of an unused slot or of its caller changes nothing. |
| `ThreadCalls.KillDoomsReady` | threads/thread.c:569-584 | thread_kill of a ready thread marks it KILLED with status 9 where it is. |
| `ThreadCalls.KillDoomsWaiter` | threads/thread.c:569-584 | thread_kill of a sleeper in the queue of its note makes it the last of the ready threads, KILLED with status 9, and moves nobody else. |
| `ThreadCalls.ExitExits` | threads/thread.c:513-540 | thread_exit leaves a zombie with the status and makes all its waiters ready, in the order in which they came. |
| `ThreadCalls.WaitRefuses` | threads/thread.c:725-741 | thread_wait refuses a number of no thread, its caller's, and an unused slot without a status or without a place for it, and changes nothing. |
| `ThreadCalls.WaitSleepsOn` | threads/thread.c:742-747 | On a live thread, with others to run, the caller notes it and sleeps at the end of its queue. |
| `ThreadCalls.WaitAlone` | threads/thread.c:742-757 | With nobody else to run it notes the thread and goes on to the test after the sleep. |
| `ThreadCalls.WaitEndsWithout` | threads/thread.c:769-784 | A waiter that finds no status calls thread_exit with its own if it was killed; otherwise it returns and clears the target's waiting_on. |
| `ThreadCalls.AcquireTests` | threads/thread.c:847-855 | lock_acquire takes a free lock and restores its caller's flag; for a held one the caller sleeps on the lock's queue and tests again, or spins if nobody else can run. |
| `ThreadCalls.ReleaseFrees` | threads/thread.c:859-868 | lock_release frees the lock and makes all who sleep on it ready, in order. |
| `ThreadCalls.CvWaitReleases` | threads/thread.c:919-926 | cv_wait by the holder frees the lock and wakes those who sleep on it before it sleeps; by anybody else it does nothing. |
| `ThreadCalls.CvWaitSleeps` | threads/thread.c:927-929 | It then sleeps at the end of the condition's queue, and is to acquire the lock when it runs again. |
| `ThreadStacks.MaskIsTheCallers` | threads/interrupt.c:65-79 | Across any number of switches, yields, sleeps, locks and signals, a thread is in user code with the interrupt state it last set itself. |
| `ThreadStacks.OwnStackKept` | threads/thread.c:399-450 | A step of a thread never pops more than its own top frame: what lies below a call is what the call returns to. |
| `ThreadStacks.MutualExclusion` | threads/thread.c:842-868 | At most one thread is between acquire and release, the lock names it, and a free lock has nobody waiting. |
| `ThreadStacks.ReturnsWithLock` | threads/thread.c:842-856 | From any point inside lock_acquire or cv_wait, over any run, the thread is back in user code only as the lock's holder. |
| `WaitQueues.Interrupts.Set` | threads/interrupt.c:65-79 | Sets the flag and returns its previous value. |
| `WaitQueues.WaitQueue.Enqueue` | threads/thread.c:77-95 | The linked list gains the element at its end, and the flag is as before. |
| `WaitQueues.WaitQueue.DequeueElement` | threads/thread.c:98-151 | The list loses the first occurrence of the element, which is returned; the flag is restored except on a hit behind the head, where it stays off. |
| `WaitQueues.WaitQueue.DequeueHead` | threads/thread.c:153-182 | The list loses its head, which is returned, or reports that it is empty; the flag is as before. |
| `WaitQueues.WaitQueue.Unlink` | threads/thread.c:132-140 | Cutting an interior node keeps the list well linked, its tail right and the other nodes in order, and is done only with interrupts off. |
| `WaitQueues.WaitQueue.AppendNode` | threads/thread.c:79-93 | Linking a node behind the tail appends its element, and is done only with interrupts off. |
| `ThreadSystems.ThreadSystem.constructor` | threads/thread.c:278-311 | The arrays, queues and flag represent the table after thread_init. |
| `ThreadSystems.ThreadSystem.CreateThread` | threads/thread.c:337-359 | Over arrays and linked queues, thread_create has its specified effect and result, and restores the flag. |
| `ThreadSystems.ThreadSystem.SetContext` | threads/thread.c:185-211 | A new slot gets its stack and an empty wait queue and joins the ready queue. |
| `ThreadSystems.ThreadSystem.ReapZombies` | threads/thread.c:404-418 | The loop over 1024 slots computes the reaper's specified effect, step by step. |
| `ThreadSystems.ThreadSystem.InstallThread` | threads/thread.c:400-447 | Between getcontext and setcontext zombies are reaped, a running caller is requeued and the target installed. |
| `ThreadSystems.ThreadSystem.Yield` | threads/thread.c:362-510 | A killed caller goes to thread_exit. Otherwise THREAD_SELF and its own number return its number, THREAD_ANY returns THREAD_NONE if nobody is ready, a number that is not ready returns THREAD_INVALID, all without a change; else it switches to the head or the named thread, with the table of a switch and the flag off. |
| `ThreadSystems.ThreadSystem.Resume` | threads/thread.c:400-450 | When a saved context resumes, the reaper runs again and the thread's own saved flag is restored. |
| `ThreadSystems.ThreadSystem.Sleep` | threads/thread.c:629-654 | thread_sleep queues the caller unless it is the only one left, and restores the flag before it yields. |
| `ThreadSystems.ThreadSystem.WakeUp` | threads/thread.c:662-715 | thread_wakeup moves one or all sleepers, returns how many, and restores the flag. |
| `ThreadSystems.ThreadSystem.ExitThread` | threads/thread.c:513-557 | thread_exit wakes its waiters, deposits its status and leaves a zombie, or reports that it was the last thread. |
| `ThreadSystems.ThreadSystem.KillThread` | threads/thread.c:560-592 | thread_kill refuses bad targets without a trace; otherwise it marks the target, gives it status 9 and requeues it if it slept, or reports the crash, exactly as specified. |
| `ThreadSystems.ThreadSystem.Awaken` | threads/thread.c:259-275 | A killed sleeper moves from the queue named by its waiting_on to the ready queue; an access outside the table or to a missing queue, or a failed assertion, is reported exactly when it happens. |
| `ThreadSystems.ThreadSystem.StartWait` | threads/thread.c:719-747 | The first half of thread_wait: a thread that exited, reaped or not, whose status is not -1 hands it over and keeps -1; else a refusal, the write through a null pointer, or a note of the target before sleeping. |
| `ThreadSystems.ThreadSystem.EndWait` | threads/thread.c:748-779 | The second half: the status is taken, or the waiter was killed, or it finds nothing and clears the target's waiting_on. |
| `ThreadSystems.ThreadSystem.TryEnter` | threads/thread.c:847-852 | One round of the loop in lock_acquire: the lock is taken for the caller, or the caller goes to sleep on it. |
| `ThreadSystems.ThreadSystem.ReleaseLock` | threads/thread.c:859-868 | The lock is marked free, with the caller as its last holder, and all waiters become ready. |
| `ServerPipeline.StepOk` | webserver/server_thread.c:362-485 | Every step of every worker and producer, with any choice of the thread a signal wakes, spurious wakeups and barging, keeps the pipeline invariant. |
| `ServerPipeline.InitOk` | webserver/server_thread.c:401-443 | The invariant holds after server_init. |
| `ServerTheorems.SignalsSuffice` | webserver/server_thread.c:372-389 | In every reachable state, if a worker is parked the queued requests are at most the signalled workers, and if a producer is parked the free slots are at most the signalled producers. |
| `ServerTheorems.SpuriousWakeups` | webserver/server_thread.c:372-460 | Any parked thread may wake without a signal, and then competes for the mutex with its descriptor kept. |
| `ServerTheorems.FirstComeFirstServed` | webserver/server_thread.c:446-468 | At most max_requests requests wait; what was taken followed by what is queued is what was accepted, in order; nothing is served that was not taken. |
| `ServerTheorems.StoreFindsFreeSlot` | webserver/server_thread.c:462 | The assertion before the store holds whenever a producer reaches it. |
| `ServerTheorems.QuietMeansServed` | webserver/server_thread.c:362-397 | If no thread can move without a new request or a spurious wakeup, every accepted request has been served exactly once and, with max_requests at least 1, no producer is left waiting. |
| `ServerTheorems.NoRequestLost` | webserver/server_thread.c:446-468 | In every run each descriptor was accepted as often as server_request was called with it, not counting callers that are still inside. |
| `ServerTheorems.QuietMeansEveryCallServed` | webserver/server_thread.c:362-397 | So once the server goes quiet, with max_requests at least 1, each descriptor has been served exactly as often as it was handed in. |
| `ServerTheorems.DeadlockIff` | webserver/server_thread.c:410-411 | With worker threads, a state in which everybody is parked and a producer still waits is reachable if and only if max_requests is 0. |
| `ServerTheorems.NoSpaceNoService` | webserver/server_thread.c:456-460 | With max_requests 0 and worker threads, no run ever accepts a request. |
| `ServerTheorems.DrainStep` | webserver/server_thread.c:368-397 | After the exit flag is set every step keeps workers from parking, accepts nothing and decreases the work left. |
| `ServerTheorems.DrainEnds` | webserver/server_thread.c:470-484 | So after shutdown at most three steps per queued request and two per worker remain. |
| `ServerTheorems.DrainGoesOn` | webserver/server_thread.c:470-484 | Until every worker has returned, some worker can take a step. |
| `ServerTheorems.JoinedMeansDrained` | webserver/server_thread.c:470-484 | When all joins complete every slot of the buffer is free and every accepted request has been taken in order and served exactly once. |
| `ServerTheorems.WorkersReturnLast` | webserver/server_thread.c:375-378 | A worker that has returned did so after the exit flag was set and leaves an empty buffer. |
| `ConnRing.PutAppends` | webserver/server_thread.c:462-464 | A store into a buffer that is not full finds -1 in its slot and appends to the queued descriptors. |
| `ConnRing.TakeRemovesOldest` | webserver/server_thread.c:383-386 | A fetch from a buffer that is not empty returns the oldest descriptor, clears its slot and leaves the others in order. |
| `ConnRing.OccupiedRange` | webserver/server_thread.c:409-421 | Exactly the slots from the tail up to the head, going round, hold descriptors; all others hold -1. |
| `ConnRing.CountIs` | webserver/server_thread.c:456-457 | The modular expression in server_request is the number of queued requests, never more than max_requests, and zero exactly when head equals tail. |
| `ServerBuffer.Server.constructor` | webserver/server_thread.c:402-421 | The loop in server_init leaves an empty buffer with one more slot than requests. |
| `ServerBuffer.Server.MustWait` | webserver/server_thread.c:456-460 | The waiting test is true exactly when max_requests descriptors are queued. |
| `ServerBuffer.Server.NothingToDo` | webserver/server_thread.c:372 | The worker's test is true exactly when nothing is queued. |
| `ServerBuffer.Server.Store` | webserver/server_thread.c:462-464 | The store in the array appends one descriptor; the program's assertion is proved on the way. |
| `ServerBuffer.Server.Fetch` | webserver/server_thread.c:383-386 | The fetch from the array removes and returns the oldest descriptor. |
| `ServerCache.InsertIsMapUpdate` | webserver/server_thread.c:225-270 | Seen as a map, an insert adds its key with the strdup of its bytes if it is new and fits the remaining budget, and otherwise changes nothing. |
| `ServerCache.LookupHitsStored` | webserver/server_thread.c:209-222 | A lookup through the hash finds exactly the names stored anywhere in the table. |
| `ServerCache.InsertOk` | webserver/server_thread.c:225-270 | An insert keeps every entry in its bucket, names distinct, occupied_cache equal to the sum of the sizes, and that sum within the budget. |
| `ServerCache.OneEntryPerName` | webserver/server_thread.c:251-257 | A name has one entry in the whole table if a lookup finds it, and none otherwise. |
| `ServerCache.SumsFitIff` | webserver/server_thread.c:204-207 | The sum in cache_evict_helper stays in int range for every cache and every file that reaches it if and only if max_cache_size is at most 2^30 - 1. |
| `ServerCache.CacheTable.constructor` | webserver/server_thread.c:68-86 | The initial table is empty and represents the empty map. |
| `ServerCache.CacheTable.CacheLookup` | webserver/server_thread.c:209-222 | The walk along a chain returns what the map holds for the name. |
| `ServerCache.CacheTable.CacheInsert` | webserver/server_thread.c:225-270 | The three refusals, the crash on an empty file that it accepts, and the store at the front of a chain, each exactly when specified. |
| `ServerFiles.CacheIsTransparentIff` | webserver/server_thread.c:322-355 | In every run, for unchanging files and any interleaving of the workers, all answers are those of a server that reads every file from disk and nothing crashes, if and only if every file that fits the cache has some bytes and no NUL before its last: strdup copies up to the first NUL, and takes no null buffer. |
| `ServerFiles.AnswersAreRight` | webserver/server_thread.c:322-355 | For any files, each answer in any run is that of a server without a cache, or a body read past its copy, and the latter only for a file that fits the cache and is not whole. |
| `ServerFiles.CopySends` | webserver/server_thread.c:246-247 | The copy of a file sends the same bytes if and only if the file has no NUL before its last byte; otherwise its buffer is shorter than its size. |
| `ServerFiles.SecondMissStoresNothing` | webserver/server_thread.c:232-235 | When two workers that missed on the same name both insert it, the second insert leaves the cache as it is. |
| `ServerFiles.OneEntryEach` | webserver/server_thread.c:338-355 | However many workers missed a name at once, the table ends with at most one entry for it, the strdup of the file's bytes with the file's size, and stays within budget. |
| `ServerFiles.NothingIsEvicted` | webserver/server_thread.c:262-270 | No run removes or changes an entry, although the top-level README speaks of eviction. |
| `ServerFiles.OnceCachedAlwaysHit` | webserver/server_thread.c:326-336 | Once a file is cached, no later lookup of it in any run misses: the cached copy is ready to send without reading the disk. |
| `ServerFiles.MissFillsCache` | webserver/server_thread.c:338-355 | After a miss the file just read is in the cache if and only if it was already there or fits the remaining budget; the insert crashes exactly when the file is new, fits and is empty. |
| `ServerFiles.CacheIsNeverSkipped` | webserver/server_thread.c:312-320 | Corollary: the file size that is compared before the read is still 0 in every run, so with any budget that main accepts the cache is never skipped. |
| `LruList.LruQueue.PopSpecified` | webserver/server_thread.c:91-113 | The first entry of that name leaves the doubly linked list, which stays well linked both ways; an absent name changes nothing. |
| `LruList.LruQueue.EnqueueHead` | webserver/server_thread.c:116-135 | A new entry is linked in front; head, tail and both directions stay right. |
| `LruList.LruQueue.DequeueTail` | webserver/server_thread.c:138-157 | The last entry leaves; an empty list stays empty. |
| `LruList.LruQueue.BringUp` | webserver/server_thread.c:160-180 | A listed name moves to the front, the others keep their order. |
| `LruList.OrderedByRecency` | webserver/server_thread.c:91-180 | Over every run that enqueues only new names and brings up only listed ones, names are distinct and ordered by most recent use. |
| `LruList.DequeueRemovesLeastRecent` | webserver/server_thread.c:138-157 | After such a run lru_dequeue_tail removes a name if and only if its last use is the oldest of all listed names. |
| `Rio.RioRead` | webserver/common.c:63-83 | Whatever the chunks and interruptions, the result is -1 exactly when a read failed; otherwise it is the first n bytes of the stream, or all there are, and the rest stays unread. |
| `Rio.RioWrite` | webserver/common.c:85-104 | Whatever the chunks and interruptions, the result is -1 exactly when a write failed, after a proper prefix; otherwise all n bytes were written in order. |
| `Rio.RioBuffer.Refill` | webserver/common.c:119-129 | The refill loop ends, gives up exactly when a read failed, and keeps buffered plus unread bytes the same. |
| `Rio.RioBuffer.ReadB` | webserver/common.c:114-139 | The result is -1 exactly when a read failed; delivered bytes, buffered bytes and unread stream together stay the same, and nothing is delivered only at the end of the stream. |
| `Rio.RioBuffer.ReadLineB` | webserver/common.c:142-165 | The result is -1 exactly when a read failed, with at most part of one line lost; otherwise the line delivered depends only on the stream and maxlen. It is terminated by NUL, and the terminator falls outside the buffer exactly when the line has maxlen characters and so has the buffer. |
| `Rio.LineIff` | webserver/common.c:148-162 | A prefix of the stream is its next line exactly when it ends at the first newline, at maxlen or at the end of the stream. |
| `Rio.LinesConcatenate` | webserver/common.c:141-165 | Successive lines are not empty, not longer than maxlen, and concatenate to the stream. |
| `Rio.FillsIff` | webserver/common.c:148-163 | For every stream and maxlen, some line read from it has maxlen characters if and only if maxlen characters without a newline before the last follow its start or some newline. |
| `Framing.RoundTrip` | webserver/client.c:24-72 | For every file content the client overruns its buffer if the file has a line of MAXBUF characters or more, counting the newline; otherwise it recovers length and checksum and counts the same, so its four assertions hold. |
| `Framing.AnnouncedAndCounted` | webserver/client.c:36-64 | For any announced numbers and any file without such a line the header loop reads exactly those, and the body loop counts exactly the body; with such a line the client overruns its buffer. |
| `Framing.MessageFillsIff` | webserver/client.c:27-56 | Of all lines of a response, header and body, some one fills the client's buffer if and only if the file has a long line. |
| `Framing.UnbrokenFileOverrunsIff` | webserver/fileset.c:124-134 | A file without newlines, as the file set generator writes them, overruns the client's buffer if and only if it has MAXBUF bytes or more. |
| `Framing.FileOfXOverruns` | webserver/client.c:56 | A file of MAXBUF times the letter x does so. |
| `Framing.HeaderRead` | webserver/client.c:36-51 | The header loop reads the header to its empty line, scans every line after the first, and leaves the body unread. |
| `Framing.ScanFindsNumber` | webserver/client.c:45-50 | sscanf of a tag line recovers the number that sprintf wrote, for every number. |
| `Framing.ScanNumberIs` | webserver/client.c:45-50 | sscanf of any white space, a sign or none, and the digits of any number gives that number with that sign. |
| `Framing.DecimalOf8192` | webserver/request.c:264-265 | For example, 8192 is printed as its four digits and 0 as one. |
| `Framing.AssertionsHoldIff` | webserver/client.c:66-70 | The four assertions hold for exactly one report: length and checksum as sent, both announced and counted. |
| `Framing.ChecksumIsSum` | webserver/request.c:255-257 | The wrapping loop computes the sum of all bytes modulo 2^32. |
| `Framing.ChecksumIsAdditive` | webserver/client.c:60-63 | The checksum of a whole is the wrapped sum of the checksums of its pieces, however it is cut. |
| `Connection.PutHeader` | webserver/request.c:260-265 | The five sprintf calls fit the buffer and leave the header at its start, without NUL: the five lines letter by letter, with the file type, the length and the checksum in their places. |
| `Connection.SendFile` | webserver/request.c:242-273 | For every chunking and interruption of the connection exactly this header and then the file are written, unless a write failed; it reports which. |
| `Connection.ReadHeader` | webserver/client.c:36-51 | The header loop over the buffered reader, in a buffer of MAXBUF cells, computes what its specification computes on the bare stream; it is stopped exactly when a read failed, and overruns only on a stream with a line that fills the buffer. |
| `Connection.ReadBody` | webserver/client.c:55-64 | The body loop is stopped exactly when a read failed; otherwise it overruns its buffer exactly when a line left in the stream fills it, and if not counts the length and checksum of all that is left. |
| `Connection.ClientPrint` | webserver/client.c:24-72 | For any stream the client is stopped exactly when a read failed; otherwise it overruns its buffer, or ends with the report, that the specification gives for the stream. |
| `Connection.Exchange` | webserver/client.c:66-70 | End to end, for every file and every chunking and interruption on both sides, the exchange is stopped exactly when a system call failed; otherwise the client overruns its buffer exactly when the file has a long line, and if not it reports the file's length and checksum, announced and counted, and the four assertions hold. |
| `WordCount.WordsAreOccurrences` | warmup/wc.c:73-139 | The words found by the pass count exactly the positions at which white space ends the word. |
| `WordCount.TabulateCounts` | warmup/wc.c:84-120 | After inserting any words, looking any word up in its bucket gives its exact number of insertions. |
| `WordCount.TabulateOk` | warmup/wc.c:87-118 | Every entry lies in the bucket of its hash, and no key occurs twice. |
| `WordCount.TabulateTotal` | warmup/wc.c:84 | The counts add up to the number of insertions. |
| `WordCount.ListingIsExact` | warmup/wc.c:143-159 | The listing has one entry for each word of the text, with its exact number of whitespace-terminated occurrences, and no other. |
| `WordCount.ListingByBucket` | warmup/wc.c:143-159 | The listing goes bucket by bucket in increasing order. |
| `WordCount.HashIsPolynomial` | warmup/wc.c:30-39 | Wrapping at every step, the hash is the number to the base 33 with leading digit 5381 and the signed characters as digits, modulo 2^64. |
| `WordCount.HashOfA` | warmup/wc.c:30-39 | The hash of the one-letter word a is 177670. |
| `CStrings.SpacesAre` | warmup/wc.c:76-86 | White space is the six characters of isspace in the C locale. |
| `WordTables.WordTable.Search` | warmup/wc.c:97-108 | The walk finds the item of the word, or the last item of a chain that does not have it. |
| `WordTables.WordTable.CountUp` | warmup/wc.c:101-105 | Counting in place changes the count of one item and nothing else in any chain. |
| `WordTables.WordTable.AddItem` | warmup/wc.c:88-118 | A new item goes to the end of its chain, or starts it; all other chains stay as they are. |
| `WordTables.WordTable.Insert` | warmup/wc.c:83-120 | One insertion does to the linked table what it does to the table of entries. |
| `WordTables.WordTable.Output` | warmup/wc.c:143-159 | The traversal lists the entries of all buckets in order. |
| `WordTables.HashIndex` | warmup/wc.c:30-39 | The loop computes the bucket: hash times 33 plus signed character, in 64 bits, modulo the size. |
| `WordTables.TakeCharacter` | warmup/wc.c:76-138 | Each of the four branches on a character does its part: insert a finished word, skip, start, or extend. |
| `WordTables.WcInit` | warmup/wc.c:54-141 | One pass over the array builds the table of all its words, with element_count their number. |
| `WordTables.CountWords` | warmup/wc.c:54-159 | For every character array the output has distinct keys, and contains an entry exactly when its count is the positive number of occurrences of its key. |

## Left out

- Stack alignment, register editing and the contents of `ucontext_t`: only "a fresh context starts in the stub" is kept.
- `thread_wait` tests its target and then sleeps with interrupts on (`threads/thread.c:725-747`): the test and the sleep are one step here, so a target that exits in between is not covered.
- NULL queue and lock arguments, which return an error or fail an assertion at once.
- `lock_create`, `cv_create` and `wait_queue_create` during a run: the machine has any number of locks and queues from the start.
- `lock_destroy`, `cv_destroy`, the frees in `server_exit`, `lru_clean_up` and `wc_destroy`: clean-up of memory.
- LruList.LruQueue.BringUp: requires the name to be listed, since the program follows a null pointer otherwise.
- What the program does after it wrote behind a buffer, read outside the table or used a null pointer.
- `request_init` and `request_read_headers` (`webserver/request.c:55-66`, 118), which read lines of MAXLINE characters into buffers of MAXLINE cells in the same way as the client.
- Rio.RioBuffer.ReadB: requests of 2^31 bytes or more, which the program narrows to int, are not distinguished.
- The context switch itself inside a method: the classes stop at `setcontext`, the machine goes on from there.
- Cache chains are immutable lists in an array of buckets, because entries never change after their insertion; sharing between entries is not modelled.
- Cache eviction: no code path of the program evicts.
- Files that change while the server runs, and the two concurrent reads that could then disagree.
- `request_error`, parsing of the request line and choice of the file type: string handling; the four file types are parameters of the response.
- Numbers too large for `%d` and `%u`: scanned here as unbounded integers; those that the server sends are in range.
- Words that contain NUL, which the program would cut short at it, and the unterminated buffer of `warmup/wc.c:79-82`, taken to hold exactly the word.
- A machine int that overflows in `wc` on arrays of 2^30 characters or more.
- Sockets, polling, timers, `stat` and `open`, printing, `webserver/fileset.c`, `pipe/`, and the other warmup programs: calls of the operating system, floating point, or little to prove.
