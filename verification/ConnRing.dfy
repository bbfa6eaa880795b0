/**
 The circular buffer of accepted connections (webserver/server_thread.c): one
 slot is always left free, and a free slot holds -1.
 */
module ConnRing {

  /** conn_buf with request_head, where requests enter, and request_tail, where they leave. */
  datatype Ring = Ring(buf: seq<int>, head: nat, tail: nat)

  predicate Shaped(r: Ring) {
    r.head < |r.buf| && r.tail < |r.buf|
  }

  /** As server_request computes it. */
  function Count(r: Ring): nat
    requires Shaped(r)
  {
    (r.head - r.tail + |r.buf|) % |r.buf|
  }

  predicate IsEmpty(r: Ring) {
    r.head == r.tail
  }

  predicate IsFull(r: Ring)
    requires Shaped(r)
  {
    Count(r) == |r.buf| - 1
  }

  function Capacity(r: Ring): int {
    |r.buf| - 1
  }

  /** The slot i places after the tail. */
  function Place(r: Ring, i: nat): (p: nat)
    requires Shaped(r) && i < |r.buf|
    ensures p < |r.buf|
  {
    if r.tail + i < |r.buf| then r.tail + i else r.tail + i - |r.buf|
  }

  /** The queued descriptors, oldest first. */
  function Contents(r: Ring): (s: seq<int>)
    requires Shaped(r)
    ensures |s| == Count(r)
  {
    seq(Count(r), i requires 0 <= i < Count(r) => r.buf[Place(r, i)])
  }

  /** Queued slots hold descriptors, all others hold -1. */
  ghost predicate RingOk(r: Ring) {
    && Shaped(r)
    && forall i :: 0 <= i < |r.buf| ==>
         if i < Count(r) then r.buf[Place(r, i)] >= 0 else r.buf[Place(r, i)] == -1
  }

  /** server_init's buffer for max_requests requests. */
  function NewRing(maxRequests: nat): Ring {
    Ring(seq(maxRequests + 1, i => -1), 0, 0)
  }

  function Put(r: Ring, fd: int): Ring
    requires Shaped(r)
  {
    r.(buf := r.buf[r.head := fd], head := (r.head + 1) % |r.buf|)
  }

  function Take(r: Ring): Ring
    requires Shaped(r)
  {
    r.(buf := r.buf[r.tail := -1], tail := (r.tail + 1) % |r.buf|)
  }

  lemma Wrap(x: nat, n: nat)
    requires 0 < n && x < 2 * n
    ensures x % n == if x < n then x else x - n
  {
    if x >= n {
      assert x == n * 1 + (x - n);
    }
  }

  lemma CountIs(r: Ring)
    requires Shaped(r)
    ensures Count(r) == if r.head >= r.tail then r.head - r.tail else r.head - r.tail + |r.buf|
    ensures IsEmpty(r) <==> Count(r) == 0
    ensures Count(r) <= Capacity(r)
    ensures r.head == Place(r, Count(r))
  {
    Wrap(r.head - r.tail + |r.buf|, |r.buf|);
  }

  lemma NewRingOk(maxRequests: nat)
    ensures RingOk(NewRing(maxRequests)) && Contents(NewRing(maxRequests)) == []
    ensures Capacity(NewRing(maxRequests)) == maxRequests
  {
    CountIs(NewRing(maxRequests));
  }

  /** A put into a buffer that is not full appends, and finds its slot free. */
  lemma PutAppends(r: Ring, fd: int)
    requires RingOk(r) && !IsFull(r) && fd >= 0
    ensures r.buf[r.head] == -1
    ensures RingOk(Put(r, fd)) && Contents(Put(r, fd)) == Contents(r) + [fd]
  {
    var r' := Put(r, fd);
    Wrap(r.head + 1, |r.buf|);
    CountIs(r);
    CountIs(r');
    assert Count(r') == Count(r) + 1;
    forall i | 0 <= i < |r.buf|
      ensures r'.buf[Place(r', i)] == if i == Count(r) then fd else r.buf[Place(r, i)]
    {
    }
  }

  /** A take from a buffer that is not empty removes and clears the oldest entry. */
  lemma TakeRemovesOldest(r: Ring)
    requires RingOk(r) && !IsEmpty(r)
    ensures r.buf[r.tail] >= 0
    ensures RingOk(Take(r)) && Contents(r) == [r.buf[r.tail]] + Contents(Take(r))
  {
    var r' := Take(r);
    Wrap(r.tail + 1, |r.buf|);
    CountIs(r);
    CountIs(r');
    assert Count(r') == Count(r) - 1;
    assert Place(r, 0) == r.tail;
    forall i | 0 <= i < |r.buf| - 1
      ensures Place(r', i) == Place(r, i + 1) && Place(r, i + 1) != r.tail
    {
    }
    assert Place(r', |r.buf| - 1) == r.tail;
    assert forall i :: 0 < i < |r.buf| ==> Place(r', i - 1) == Place(r, i);
  }

  predicate InRange(r: Ring, j: nat)
    requires Shaped(r)
  {
    if r.tail <= r.head then r.tail <= j < r.head else j < r.head || r.tail <= j
  }

  /** The descriptors occupy exactly the slots from the tail up to the head, going round. */
  lemma OccupiedRange(r: Ring, j: nat)
    requires RingOk(r) && j < |r.buf|
    ensures InRange(r, j) ==> r.buf[j] >= 0
    ensures !InRange(r, j) ==> r.buf[j] == -1
  {
    CountIs(r);
    var i := if r.tail <= j then j - r.tail else j + |r.buf| - r.tail;
    assert Place(r, i) == j;
  }
}
