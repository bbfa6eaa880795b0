/**
 The request pipeline of the web server (webserver/server_thread.c): threads
 that accept connections put them in the circular buffer, workers take them out,
 and both sleep on condition variables. A section run under the mutex is one
 step. A thread waiting on a condition variable is parked until a signal, a
 broadcast or a spurious wakeup; it then competes for the mutex with everyone
 else and tests its condition again.
 */
module ServerPipeline {
  import opened ConnRing
  import opened Tallies

  /** Where a worker is in do_server_thread. */
  datatype Worker =
    | Wanting
    | Parked
    | Signalled
    | Serving(fd: int)
    | Done

  /** Where a thread is in server_request, with the descriptor it brought. */
  datatype Producer =
    | Idle
    | Asking(fd: int)
    | Waiting(fd: int)
    | Woken(fd: int)

  /** The last three fields are a history: everything put in the buffer, taken from it, and served. */
  datatype Pipe = Pipe(
    ring: Ring,
    exiting: bool,
    workers: seq<Worker>,
    producers: seq<Producer>,
    accepted: seq<int>,
    taken: seq<int>,
    served: multiset<int>)

  /** `wake` is the scheduler's choice of the thread that a signal unblocks. */
  datatype Action =
    | Call(p: nat, fd: int)
    | ProducerLocks(p: nat, wake: nat)
    | ProducerWakes(p: nat)
    | WorkerLocks(w: nat, wake: nat)
    | WorkerWakes(w: nat)
    | WorkerServes(w: nat)
    | Exit

  function Init(maxRequests: nat, workers: nat, producers: nat): Pipe {
    Pipe(NewRing(maxRequests), false, seq(workers, i => Wanting), seq(producers, i => Idle), [], [], multiset{})
  }

  // Signals

  predicate SomeParked(workers: seq<Worker>) {
    exists w :: 0 <= w < |workers| && workers[w].Parked?
  }

  predicate SomeWaiting(producers: seq<Producer>) {
    exists p :: 0 <= p < |producers| && producers[p].Waiting?
  }

  function SignalWorker(workers: seq<Worker>, wake: nat): seq<Worker> {
    if wake < |workers| && workers[wake].Parked? then workers[wake := Signalled] else workers
  }

  function SignalProducer(producers: seq<Producer>, wake: nat): seq<Producer> {
    if wake < |producers| && producers[wake].Waiting?
    then producers[wake := Woken(producers[wake].fd)]
    else producers
  }

  function Broadcast(workers: seq<Worker>): seq<Worker> {
    seq(|workers|, i requires 0 <= i < |workers| => if workers[i].Parked? then Signalled else workers[i])
  }

  // Steps

  predicate AllIdle(producers: seq<Producer>) {
    forall p :: 0 <= p < |producers| ==> producers[p].Idle?
  }

  predicate AllDone(workers: seq<Worker>) {
    forall w :: 0 <= w < |workers| ==> workers[w].Done?
  }

  /** A signal must unblock a waiter when there is one. The server exits after its last request. */
  predicate Enabled(s: Pipe, a: Action)
    requires Shaped(s.ring)
  {
    match a
    case Call(p, fd) => p < |s.producers| && s.producers[p].Idle? && fd >= 0 && !s.exiting
    case ProducerLocks(p, wake) =>
      && p < |s.producers| && (s.producers[p].Asking? || s.producers[p].Woken?)
      && (!IsFull(s.ring) && SomeParked(s.workers) ==> wake < |s.workers| && s.workers[wake].Parked?)
    case ProducerWakes(p) => p < |s.producers| && s.producers[p].Waiting?
    case WorkerLocks(w, wake) =>
      && w < |s.workers| && (s.workers[w].Wanting? || s.workers[w].Signalled?)
      && (!IsEmpty(s.ring) && SomeWaiting(s.producers) ==> wake < |s.producers| && s.producers[wake].Waiting?)
    case WorkerWakes(w) => w < |s.workers| && s.workers[w].Parked?
    case WorkerServes(w) => w < |s.workers| && s.workers[w].Serving?
    case Exit => !s.exiting && AllIdle(s.producers)
  }

  /** With no worker threads a request is served at once by its caller. */
  function DoCall(s: Pipe, p: nat, fd: int): Pipe
    requires p < |s.producers|
  {
    if |s.workers| == 0 then
      s.(accepted := s.accepted + [fd], taken := s.taken + [fd], served := s.served + multiset{fd})
    else
      s.(producers := s.producers[p := Asking(fd)])
  }

  function DoPut(s: Pipe, p: nat, wake: nat): Pipe
    requires Shaped(s.ring) && p < |s.producers| && !s.producers[p].Idle?
  {
    var fd := s.producers[p].fd;
    if IsFull(s.ring) then
      s.(producers := s.producers[p := Waiting(fd)])
    else
      s.(ring := Put(s.ring, fd),
         producers := s.producers[p := Idle],
         workers := SignalWorker(s.workers, wake),
         accepted := s.accepted + [fd])
  }

  function DoTake(s: Pipe, w: nat, wake: nat): Pipe
    requires Shaped(s.ring) && w < |s.workers|
  {
    if IsEmpty(s.ring) then
      s.(workers := s.workers[w := if s.exiting then Done else Parked])
    else
      var fd := s.ring.buf[s.ring.tail];
      s.(ring := Take(s.ring),
         workers := s.workers[w := Serving(fd)],
         producers := SignalProducer(s.producers, wake),
         taken := s.taken + [fd])
  }

  function DoServe(s: Pipe, w: nat): Pipe
    requires w < |s.workers| && s.workers[w].Serving?
  {
    s.(workers := s.workers[w := Wanting], served := s.served + multiset{s.workers[w].fd})
  }

  function Next(s: Pipe, a: Action): Pipe
    requires Shaped(s.ring) && Enabled(s, a)
  {
    match a
    case Call(p, fd) => DoCall(s, p, fd)
    case ProducerLocks(p, wake) => DoPut(s, p, wake)
    case ProducerWakes(p) => s.(producers := SignalProducer(s.producers, p))
    case WorkerLocks(w, wake) => DoTake(s, w, wake)
    case WorkerWakes(w) => s.(workers := SignalWorker(s.workers, w))
    case WorkerServes(w) => DoServe(s, w)
    case Exit => s.(exiting := true, workers := Broadcast(s.workers))
  }

  // The invariant

  function Roused(w: Worker): int {
    if w.Signalled? then 1 else 0
  }

  function RousedProducer(p: Producer): int {
    if p.Woken? then 1 else 0
  }

  function Holds(w: Worker, fd: int): nat {
    if w == Serving(fd) then 1 else 0
  }

  /** How many workers are serving the descriptor right now. */
  function InService(workers: seq<Worker>, fd: int): nat {
    if workers == [] then 0 else Holds(workers[0], fd) + InService(workers[1..], fd)
  }

  /** If a worker is parked, every queued request has a signalled worker on its way. */
  ghost predicate NoStrandedRequest(s: Pipe)
    requires Shaped(s.ring)
  {
    SomeParked(s.workers) ==> Count(s.ring) <= Tally(s.workers, Roused)
  }

  /** If a producer is parked, every free slot has a signalled producer on its way. */
  ghost predicate NoStrandedSlot(s: Pipe)
    requires Shaped(s.ring)
  {
    SomeWaiting(s.producers) ==> Capacity(s.ring) - Count(s.ring) <= Tally(s.producers, RousedProducer)
  }

  ghost predicate ShutdownOk(s: Pipe) {
    && (s.exiting ==> AllIdle(s.producers) && !SomeParked(s.workers))
    && (forall w :: 0 <= w < |s.workers| && s.workers[w].Done? ==> s.exiting && IsEmpty(s.ring))
  }

  ghost predicate HistoryOk(s: Pipe)
    requires Shaped(s.ring)
  {
    && s.accepted == s.taken + Contents(s.ring)
    && (forall fd: int :: multiset(s.taken)[fd] == s.served[fd] + InService(s.workers, fd))
  }

  /** Without workers nothing is ever queued. */
  ghost predicate InlineOk(s: Pipe) {
    |s.workers| == 0 ==> IsEmpty(s.ring) && AllIdle(s.producers)
  }

  ghost predicate Descriptors(s: Pipe) {
    forall p :: 0 <= p < |s.producers| && !s.producers[p].Idle? ==> s.producers[p].fd >= 0
  }

  ghost predicate Ok(s: Pipe) {
    && RingOk(s.ring)
    && NoStrandedRequest(s)
    && NoStrandedSlot(s)
    && ShutdownOk(s)
    && HistoryOk(s)
    && InlineOk(s)
    && Descriptors(s)
  }

  lemma {:induction false} InServiceUpdate(workers: seq<Worker>, w: nat, to: Worker, fd: int)
    requires w < |workers|
    ensures InService(workers[w := to], fd) == InService(workers, fd) - Holds(workers[w], fd) + Holds(to, fd)
  {
    var changed := workers[w := to];
    if w == 0 {
      assert changed[1..] == workers[1..];
    } else {
      assert changed[1..] == workers[1..][w - 1 := to];
      InServiceUpdate(workers[1..], w - 1, to, fd);
    }
  }

  lemma {:induction false} BroadcastKeepsService(workers: seq<Worker>, fd: int)
    ensures InService(Broadcast(workers), fd) == InService(workers, fd)
  {
    if workers != [] {
      assert Broadcast(workers)[1..] == Broadcast(workers[1..]);
      BroadcastKeepsService(workers[1..], fd);
    }
  }

  lemma {:induction false} NothingInService(workers: seq<Worker>, fd: int)
    requires forall w :: 0 <= w < |workers| ==> !workers[w].Serving?
    ensures InService(workers, fd) == 0
  {
    if workers != [] {
      NothingInService(workers[1..], fd);
    }
  }

  // Every step keeps the invariant

  lemma SignalWorkerFacts(workers: seq<Worker>, wake: nat)
    requires SomeParked(workers) ==> wake < |workers| && workers[wake].Parked?
    ensures Tally(SignalWorker(workers, wake), Roused) == Tally(workers, Roused) + if SomeParked(workers) then 1 else 0
    ensures forall fd :: InService(SignalWorker(workers, wake), fd) == InService(workers, fd)
    ensures SomeParked(SignalWorker(workers, wake)) ==> SomeParked(workers)
  {
    if SomeParked(workers) {
      TallyUpdate(workers, Roused, wake, Signalled);
      forall fd {
        InServiceUpdate(workers, wake, Signalled, fd);
      }
    }
  }

  lemma SignalProducerFacts(producers: seq<Producer>, wake: nat)
    requires SomeWaiting(producers) ==> wake < |producers| && producers[wake].Waiting?
    ensures Tally(SignalProducer(producers, wake), RousedProducer)
         == Tally(producers, RousedProducer) + if SomeWaiting(producers) then 1 else 0
    ensures SomeWaiting(SignalProducer(producers, wake)) ==> SomeWaiting(producers)
  {
    if SomeWaiting(producers) {
      TallyUpdate(producers, RousedProducer, wake, Woken(producers[wake].fd));
    }
  }

  lemma CallOk(s: Pipe, p: nat, fd: int)
    requires Ok(s) && Enabled(s, Call(p, fd))
    ensures Ok(DoCall(s, p, fd))
  {
    var s' := DoCall(s, p, fd);
    if |s.workers| == 0 {
      CountIs(s.ring);
      assert s'.accepted == s'.taken + Contents(s'.ring);
    } else {
      TallyUpdate(s.producers, RousedProducer, p, Asking(fd));
      assert SomeWaiting(s'.producers) ==> SomeWaiting(s.producers);
    }
  }

  lemma PutWaitsOk(s: Pipe, p: nat, wake: nat)
    requires Ok(s) && Enabled(s, ProducerLocks(p, wake)) && IsFull(s.ring)
    ensures Ok(DoPut(s, p, wake))
  {
    var s' := DoPut(s, p, wake);
    CountIs(s.ring);
    TallyUpdate(s.producers, RousedProducer, p, Waiting(s.producers[p].fd));
    RousedAtLeastZero(s'.producers);
  }

  lemma PutOk(s: Pipe, p: nat, wake: nat)
    requires Ok(s) && Enabled(s, ProducerLocks(p, wake)) && !IsFull(s.ring)
    ensures s.ring.buf[s.ring.head] == -1
    ensures Ok(DoPut(s, p, wake))
  {
    var s' := DoPut(s, p, wake);
    CountIs(s.ring);
    PutAppends(s.ring, s.producers[p].fd);
    CountIs(s'.ring);
    TallyUpdate(s.producers, RousedProducer, p, Idle);
    SignalWorkerFacts(s.workers, wake);
    assert |Contents(s'.ring)| == |Contents(s.ring)| + 1;
    assert SomeWaiting(s'.producers) ==> SomeWaiting(s.producers);
  }

  lemma RestOk(s: Pipe, w: nat, wake: nat)
    requires Ok(s) && Enabled(s, WorkerLocks(w, wake)) && IsEmpty(s.ring)
    ensures Ok(DoTake(s, w, wake))
  {
    var s' := DoTake(s, w, wake);
    CountIs(s.ring);
    forall fd {
      InServiceUpdate(s.workers, w, s'.workers[w], fd);
    }
    RousedWorkersAtLeastZero(s'.workers);
  }

  lemma TakeHistory(s: Pipe, w: nat, wake: nat)
    requires RingOk(s.ring) && HistoryOk(s)
    requires w < |s.workers| && !s.workers[w].Serving? && !IsEmpty(s.ring)
    ensures HistoryOk(DoTake(s, w, wake))
  {
    var s' := DoTake(s, w, wake);
    forall fd {
      InServiceUpdate(s.workers, w, s'.workers[w], fd);
    }
    TakeRemovesOldest(s.ring);
    assert s'.taken + Contents(s'.ring) == s.taken + ([s.ring.buf[s.ring.tail]] + Contents(s'.ring));
  }

  lemma TakeOk(s: Pipe, w: nat, wake: nat)
    requires Ok(s) && Enabled(s, WorkerLocks(w, wake)) && !IsEmpty(s.ring)
    ensures Ok(DoTake(s, w, wake))
  {
    var s' := DoTake(s, w, wake);
    CountIs(s.ring);
    TallyUpdate(s.workers, Roused, w, s'.workers[w]);
    TakeRemovesOldest(s.ring);
    CountIs(s'.ring);
    SignalProducerFacts(s.producers, wake);
    assert |Contents(s.ring)| == |Contents(s'.ring)| + 1;
    assert SomeParked(s'.workers) ==> SomeParked(s.workers);
    TakeHistory(s, w, wake);
  }

  lemma RousedAtLeastZero(producers: seq<Producer>)
    ensures Tally(producers, RousedProducer) >= 0
  {
    TallyBounds(producers, RousedProducer, 1);
  }

  lemma RousedWorkersAtLeastZero(workers: seq<Worker>)
    ensures Tally(workers, Roused) >= 0
  {
    TallyBounds(workers, Roused, 1);
  }

  lemma ServeOk(s: Pipe, w: nat)
    requires Ok(s) && Enabled(s, WorkerServes(w))
    ensures Ok(DoServe(s, w))
  {
    var s' := DoServe(s, w);
    TallyUpdate(s.workers, Roused, w, Wanting);
    forall fd {
      InServiceUpdate(s.workers, w, Wanting, fd);
    }
    assert SomeParked(s'.workers) ==> SomeParked(s.workers);
  }

  lemma WorkerWakeOk(s: Pipe, w: nat)
    requires Ok(s) && Enabled(s, WorkerWakes(w))
    ensures Ok(Next(s, WorkerWakes(w)))
  {
    SignalWorkerFacts(s.workers, w);
  }

  lemma ProducerWakeOk(s: Pipe, p: nat)
    requires Ok(s) && Enabled(s, ProducerWakes(p))
    ensures Ok(Next(s, ProducerWakes(p)))
  {
    SignalProducerFacts(s.producers, p);
  }

  lemma ExitOk(s: Pipe)
    requires Ok(s) && Enabled(s, Exit)
    ensures Ok(Next(s, Exit))
  {
    forall fd {
      BroadcastKeepsService(s.workers, fd);
    }
  }

  lemma StepOk(s: Pipe, a: Action)
    requires Ok(s) && Enabled(s, a)
    ensures Ok(Next(s, a))
  {
    match a
    case Call(p, fd) => CallOk(s, p, fd);
    case ProducerLocks(p, wake) => if IsFull(s.ring) { PutWaitsOk(s, p, wake); } else { PutOk(s, p, wake); }
    case WorkerLocks(w, wake) => if IsEmpty(s.ring) { RestOk(s, w, wake); } else { TakeOk(s, w, wake); }
    case WorkerServes(w) => ServeOk(s, w);
    case Exit => ExitOk(s);
    case WorkerWakes(w) => WorkerWakeOk(s, w);
    case ProducerWakes(p) => ProducerWakeOk(s, p);
  }

  lemma InitOk(maxRequests: nat, workers: nat, producers: nat)
    ensures Ok(Init(maxRequests, workers, producers))
  {
    NewRingOk(maxRequests);
    forall fd {
      NothingInService(Init(maxRequests, workers, producers).workers, fd);
    }
  }

  // Runs

  /** The actions can be taken one after the other from s. */
  predicate IsRun(s: Pipe, acts: seq<Action>)
    decreases |acts|
  {
    acts == [] || (Shaped(s.ring) && Enabled(s, acts[0]) && IsRun(Next(s, acts[0]), acts[1..]))
  }

  function After(s: Pipe, acts: seq<Action>): Pipe
    requires IsRun(s, acts)
    decreases |acts|
  {
    if acts == [] then s else After(Next(s, acts[0]), acts[1..])
  }

  lemma {:induction false} RunOk(s: Pipe, acts: seq<Action>)
    requires Ok(s) && IsRun(s, acts)
    ensures Ok(After(s, acts))
    ensures |After(s, acts).workers| == |s.workers| && |After(s, acts).producers| == |s.producers|
    ensures Capacity(After(s, acts).ring) == Capacity(s.ring)
    decreases |acts|
  {
    if acts != [] {
      StepOk(s, acts[0]);
      RunOk(Next(s, acts[0]), acts[1..]);
    }
  }
}
