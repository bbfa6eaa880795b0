/**
 What the request pipeline promises in every state that a run from server_init
 reaches, whichever thread gets the mutex, whichever waiter a signal unblocks,
 and with spurious wakeups at any time.
 */
module ServerTheorems {
  import opened ConnRing
  import opened Tallies
  import opened ServerPipeline

  ghost predicate Reachable(s: Pipe, maxRequests: nat, workers: nat, producers: nat) {
    exists acts :: IsRun(Init(maxRequests, workers, producers), acts)
                && s == After(Init(maxRequests, workers, producers), acts)
  }

  lemma ReachableIsOk(s: Pipe, maxRequests: nat, workers: nat, producers: nat)
    requires Reachable(s, maxRequests, workers, producers)
    ensures Ok(s)
    ensures |s.workers| == workers && |s.producers| == producers && Capacity(s.ring) == maxRequests
  {
    var acts :| IsRun(Init(maxRequests, workers, producers), acts)
             && s == After(Init(maxRequests, workers, producers), acts);
    InitOk(maxRequests, workers, producers);
    RunOk(Init(maxRequests, workers, producers), acts);
  }

  // ---- the buffer ---------------------------------------------------------

  /** At most max_requests wait, in order: what was taken is what came first. */
  lemma FirstComeFirstServed(s: Pipe, maxRequests: nat, workers: nat, producers: nat)
    requires Reachable(s, maxRequests, workers, producers)
    ensures Shaped(s.ring) && Count(s.ring) <= maxRequests
    ensures s.taken <= s.accepted && s.accepted[|s.taken|..] == Contents(s.ring)
    ensures s.served <= multiset(s.taken)
  {
    ReachableIsOk(s, maxRequests, workers, producers);
    CountIs(s.ring);
    assert forall fd :: s.served[fd] <= multiset(s.taken)[fd];
  }

  /** How often a descriptor is handed to server_request in a run. */
  function Calls(acts: seq<Action>, fd: int): nat {
    if acts == [] then 0 else (if acts[0].Call? && acts[0].fd == fd then 1 else 0) + Calls(acts[1..], fd)
  }

  function Brings(p: Producer, fd: int): nat {
    if !p.Idle? && p.fd == fd then 1 else 0
  }

  /** How many threads are in server_request with the descriptor. */
  function InFlight(producers: seq<Producer>, fd: int): nat {
    if producers == [] then 0 else Brings(producers[0], fd) + InFlight(producers[1..], fd)
  }

  lemma {:induction false} InFlightUpdate(producers: seq<Producer>, p: nat, to: Producer, fd: int)
    requires p < |producers|
    ensures InFlight(producers[p := to], fd) == InFlight(producers, fd) - Brings(producers[p], fd) + Brings(to, fd)
  {
    var changed := producers[p := to];
    if p == 0 {
      assert changed[1..] == producers[1..];
    } else {
      assert changed[1..] == producers[1..][p - 1 := to];
      InFlightUpdate(producers[1..], p - 1, to, fd);
    }
  }

  lemma {:induction false} NothingInFlight(producers: seq<Producer>, fd: int)
    requires AllIdle(producers)
    ensures InFlight(producers, fd) == 0
  {
    if producers != [] {
      assert forall p :: 0 <= p < |producers| - 1 ==> producers[1..][p] == producers[p + 1];
      NothingInFlight(producers[1..], fd);
    }
  }

  lemma SignalKeepsFlight(producers: seq<Producer>, wake: nat, fd: int)
    ensures InFlight(SignalProducer(producers, wake), fd) == InFlight(producers, fd)
  {
    if wake < |producers| && producers[wake].Waiting? {
      InFlightUpdate(producers, wake, Woken(producers[wake].fd), fd);
    }
  }

  /** A step accepts a descriptor or keeps it in flight; only a call brings one. */
  lemma CallStep(s: Pipe, a: Action, fd: int)
    requires Shaped(s.ring) && Enabled(s, a)
    ensures multiset(Next(s, a).accepted)[fd] + InFlight(Next(s, a).producers, fd)
         == multiset(s.accepted)[fd] + InFlight(s.producers, fd) + if a.Call? && a.fd == fd then 1 else 0
  {
    match a
    case Call(p, c) => InFlightUpdate(s.producers, p, Asking(c), fd);
    case ProducerLocks(p, _) =>
      InFlightUpdate(s.producers, p, Waiting(s.producers[p].fd), fd);
      InFlightUpdate(s.producers, p, Idle, fd);
    case ProducerWakes(p) => SignalKeepsFlight(s.producers, p, fd);
    case WorkerLocks(_, wake) => SignalKeepsFlight(s.producers, wake, fd);
    case _ =>
  }

  lemma {:induction false} CallsInRun(s: Pipe, acts: seq<Action>, fd: int)
    requires IsRun(s, acts)
    ensures multiset(After(s, acts).accepted)[fd] + InFlight(After(s, acts).producers, fd)
         == multiset(s.accepted)[fd] + InFlight(s.producers, fd) + Calls(acts, fd)
    decreases |acts|
  {
    if acts != [] {
      CallStep(s, acts[0], fd);
      CallsInRun(Next(s, acts[0]), acts[1..], fd);
    }
  }

  /** Every descriptor handed to server_request is accepted once, or its caller is still inside. */
  lemma NoRequestLost(maxRequests: nat, workers: nat, producers: nat, acts: seq<Action>, fd: int)
    requires IsRun(Init(maxRequests, workers, producers), acts)
    ensures var s := After(Init(maxRequests, workers, producers), acts);
            multiset(s.accepted)[fd] + InFlight(s.producers, fd) == Calls(acts, fd)
  {
    var start := Init(maxRequests, workers, producers);
    CallsInRun(start, acts, fd);
    NothingInFlight(start.producers, fd);
  }

  /** So when the server goes quiet, with room for requests, each has been served as often as it was made. */
  lemma QuietMeansEveryCallServed(maxRequests: nat, workers: nat, producers: nat, acts: seq<Action>, fd: int)
    requires maxRequests > 0 && IsRun(Init(maxRequests, workers, producers), acts)
    requires Quiet(After(Init(maxRequests, workers, producers), acts))
    ensures After(Init(maxRequests, workers, producers), acts).served[fd] == Calls(acts, fd)
  {
    var s := After(Init(maxRequests, workers, producers), acts);
    QuietMeansServed(s, maxRequests, workers, producers);
    NoRequestLost(maxRequests, workers, producers, acts, fd);
    NothingInFlight(s.producers, fd);
  }

  /** A waiter may wake without a signal, and then competes for the mutex like any other. */
  lemma SpuriousWakeups(s: Pipe, i: nat)
    requires Shaped(s.ring)
    ensures i < |s.workers| && s.workers[i].Parked? ==>
              Enabled(s, WorkerWakes(i)) && Next(s, WorkerWakes(i)).workers == s.workers[i := Signalled]
    ensures i < |s.producers| && s.producers[i].Waiting? ==>
              && Enabled(s, ProducerWakes(i))
              && Next(s, ProducerWakes(i)).producers == s.producers[i := Woken(s.producers[i].fd)]
  {
  }

  /** The assertion in server_request holds whenever a producer is about to store. */
  lemma StoreFindsFreeSlot(s: Pipe, p: nat, wake: nat, maxRequests: nat, workers: nat, producers: nat)
    requires Reachable(s, maxRequests, workers, producers)
    requires Shaped(s.ring) && Enabled(s, ProducerLocks(p, wake)) && !IsFull(s.ring)
    ensures s.ring.buf[s.ring.head] == -1
  {
    ReachableIsOk(s, maxRequests, workers, producers);
    PutOk(s, p, wake);
  }

  // ---- nothing is stranded -------------------------------------------------

  /** A parked worker means every queued request has its own signalled worker; likewise for free slots. */
  lemma SignalsSuffice(s: Pipe, maxRequests: nat, workers: nat, producers: nat)
    requires Reachable(s, maxRequests, workers, producers)
    ensures Shaped(s.ring)
    ensures SomeParked(s.workers) ==> Count(s.ring) <= Tally(s.workers, Roused)
    ensures SomeWaiting(s.producers) ==> maxRequests - Count(s.ring) <= Tally(s.producers, RousedProducer)
  {
    ReachableIsOk(s, maxRequests, workers, producers);
  }

  /** Nobody runs: every worker is parked or has returned, every producer is parked or away. */
  predicate Quiet(s: Pipe) {
    && (forall w :: 0 <= w < |s.workers| ==> s.workers[w].Parked? || s.workers[w].Done?)
    && (forall p :: 0 <= p < |s.producers| ==> s.producers[p].Waiting? || s.producers[p].Idle?)
  }

  /** When the server goes quiet, every request it accepted has been served, once each. */
  lemma QuietMeansServed(s: Pipe, maxRequests: nat, workers: nat, producers: nat)
    requires Reachable(s, maxRequests, workers, producers) && Quiet(s)
    ensures IsEmpty(s.ring)
    ensures s.taken == s.accepted && s.served == multiset(s.accepted)
    ensures maxRequests > 0 ==> AllIdle(s.producers)
  {
    ReachableIsOk(s, maxRequests, workers, producers);
    CountIs(s.ring);
    TallyZero(s.workers, Roused);
    TallyZero(s.producers, RousedProducer);
    if workers > 0 && !SomeParked(s.workers) {
      assert s.workers[0].Done?;
    }
    assert s.accepted == s.taken + Contents(s.ring) && Contents(s.ring) == [];
    forall fd {
      NothingInService(s.workers, fd);
    }
    assert forall fd :: multiset(s.taken)[fd] == s.served[fd];
  }

  /** Everyone is parked with a request still to hand over. */
  predicate Deadlocked(s: Pipe) {
    Quiet(s) && SomeWaiting(s.producers)
  }

  /** With worker threads, the server can deadlock exactly when it was given no queue space. */
  lemma DeadlockIff(maxRequests: nat, workers: nat, producers: nat)
    requires workers > 0 && producers > 0
    ensures maxRequests == 0 <==> exists s :: Reachable(s, maxRequests, workers, producers) && Deadlocked(s)
  {
    if maxRequests == 0 {
      var start := Init(0, workers, producers);
      CountIs(start.ring);
      var acts := [Call(0, 7), ProducerLocks(0, 0)];
      var s := Next(Next(start, acts[0]), acts[1]);
      TwoSteps(start, acts);
      var more := ParkAll(s, 0);
      RunThenRun(start, acts, more);
      assert Deadlocked(After(s, more)) by {
        assert s.producers[0].Waiting?;
      }
      assert Reachable(After(s, more), 0, workers, producers);
    }
    forall s | Reachable(s, maxRequests, workers, producers) && Deadlocked(s)
      ensures maxRequests == 0
    {
      QuietMeansServed(s, maxRequests, workers, producers);
    }
  }

  lemma TwoSteps(s: Pipe, acts: seq<Action>)
    requires |acts| == 2 && Shaped(s.ring) && Enabled(s, acts[0])
    requires Shaped(Next(s, acts[0]).ring) && Enabled(Next(s, acts[0]), acts[1])
    ensures IsRun(s, acts) && After(s, acts) == Next(Next(s, acts[0]), acts[1])
  {
    OneStep(Next(s, acts[0]), acts[1]);
    assert acts[1..] == [acts[1]];
    assert After(s, acts) == After(Next(s, acts[0]), acts[1..]);
  }

  lemma OneStep(s: Pipe, a: Action)
    requires Shaped(s.ring) && Enabled(s, a)
    ensures IsRun(s, [a]) && After(s, [a]) == Next(s, a)
  {
    assert [a][1..] == [];
    assert After(s, [a]) == After(Next(s, a), []);
  }

  lemma {:induction false} RunThenRun(s: Pipe, first: seq<Action>, second: seq<Action>)
    requires IsRun(s, first) && IsRun(After(s, first), second)
    ensures IsRun(s, first + second) && After(s, first + second) == After(After(s, first), second)
    decreases |first|
  {
    if first == [] {
      assert first + second == second;
    } else {
      RunThenRun(Next(s, first[0]), first[1..], second);
      assert (first + second)[1..] == first[1..] + second;
    }
  }

  /** Workers that find the buffer empty park, one after the other. */
  lemma {:induction false} ParkAll(s: Pipe, from: nat) returns (acts: seq<Action>)
    requires Shaped(s.ring) && IsEmpty(s.ring) && !s.exiting && from <= |s.workers|
    requires forall w :: 0 <= w < |s.workers| ==> if w < from then s.workers[w].Parked? else s.workers[w].Wanting?
    ensures IsRun(s, acts)
    ensures |After(s, acts).workers| == |s.workers| && After(s, acts).producers == s.producers
    ensures forall w :: 0 <= w < |s.workers| ==> After(s, acts).workers[w].Parked?
    decreases |s.workers| - from
  {
    if from == |s.workers| {
      acts := [];
    } else {
      var a := WorkerLocks(from, 0);
      var rest := ParkAll(Next(s, a), from + 1);
      acts := [a] + rest;
      assert acts[1..] == rest;
    }
  }

  /** With no queue space the workers never get anything. */
  lemma {:induction false} NoSpaceNoService(s: Pipe, acts: seq<Action>)
    requires Ok(s) && Capacity(s.ring) == 0 && |s.workers| > 0 && IsRun(s, acts)
    ensures After(s, acts).accepted == s.accepted
    decreases |acts|
  {
    if acts != [] {
      CountIs(s.ring);
      StepOk(s, acts[0]);
      NoSpaceNoService(Next(s, acts[0]), acts[1..]);
    }
  }

  // ---- shutdown ------------------------------------------------------------

  function Effort(w: Worker): int {
    match w
    case Serving(_) => 2
    case Done => 0
    case _ => 1
  }

  /** What is left to do: a queued request is worth three steps. */
  function Work(s: Pipe): int
    requires Shaped(s.ring)
  {
    3 * Count(s.ring) + Tally(s.workers, Effort)
  }

  /** After the exit flag is set no worker parks, nothing is accepted, and every step is progress. */
  lemma DrainStep(s: Pipe, a: Action)
    requires Ok(s) && s.exiting && Enabled(s, a)
    ensures var s' := Next(s, a);
            && s'.exiting && Shaped(s'.ring)
            && !SomeParked(s'.workers)
            && s'.accepted == s.accepted
            && Work(s') < Work(s)
  {
    StepOk(s, a);
    CountIs(s.ring);
    var s' := Next(s, a);
    CountIs(s'.ring);
    match a
    case WorkerLocks(w, wake) =>
      TallyUpdate(s.workers, Effort, w, s'.workers[w]);
      if !IsEmpty(s.ring) {
        TakeRemovesOldest(s.ring);
        assert |Contents(s.ring)| == |Contents(s'.ring)| + 1;
      }
    case WorkerServes(w) =>
      TallyUpdate(s.workers, Effort, w, Wanting);
    case _ =>
  }

  /** So at most this many steps remain, whoever takes them. */
  lemma DrainEnds(s: Pipe, acts: seq<Action>)
    requires Ok(s) && s.exiting && IsRun(s, acts)
    ensures |acts| <= 3 * Count(s.ring) + 2 * |s.workers|
    ensures After(s, acts).accepted == s.accepted
  {
    DrainBound(s, acts);
    TallyBounds(s.workers, Effort, 2);
  }

  lemma {:induction false} DrainBound(s: Pipe, acts: seq<Action>)
    requires Ok(s) && s.exiting && IsRun(s, acts)
    ensures |acts| <= Work(s)
    ensures After(s, acts).accepted == s.accepted
    decreases |acts|
  {
    if acts == [] {
      TallyBounds(s.workers, Effort, 2);
    } else {
      DrainStep(s, acts[0]);
      StepOk(s, acts[0]);
      DrainBound(Next(s, acts[0]), acts[1..]);
    }
  }

  /** And they do not stop short: while a join is outstanding, some worker can move. */
  lemma DrainGoesOn(s: Pipe) returns (a: Action)
    requires Ok(s) && s.exiting && !AllDone(s.workers)
    ensures Enabled(s, a)
  {
    var w: nat :| w < |s.workers| && !s.workers[w].Done?;
    if s.workers[w].Serving? {
      a := WorkerServes(w);
    } else {
      a := WorkerLocks(w, 0);
    }
  }

  /** When all joins complete every accepted request has been taken and served exactly once, in order. */
  lemma JoinedMeansDrained(s: Pipe, maxRequests: nat, workers: nat, producers: nat)
    requires Reachable(s, maxRequests, workers, producers) && AllDone(s.workers) && s.exiting
    ensures IsEmpty(s.ring) && s.taken == s.accepted && s.served == multiset(s.accepted)
    ensures forall j :: 0 <= j < |s.ring.buf| ==> s.ring.buf[j] == -1
  {
    ReachableIsOk(s, maxRequests, workers, producers);
    QuietMeansServed(s, maxRequests, workers, producers);
    forall j | 0 <= j < |s.ring.buf| ensures s.ring.buf[j] == -1 {
      OccupiedRange(s.ring, j);
    }
  }

  /** A worker returns only after shutdown began, when nothing is left to serve. */
  lemma WorkersReturnLast(s: Pipe, w: nat, maxRequests: nat, workers: nat, producers: nat)
    requires Reachable(s, maxRequests, workers, producers) && w < |s.workers| && s.workers[w].Done?
    ensures s.exiting && IsEmpty(s.ring)
  {
    ReachableIsOk(s, maxRequests, workers, producers);
  }
}
