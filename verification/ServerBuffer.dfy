/** The server's buffer as it is laid out in memory: an array written in place under the mutex. */
module ServerBuffer {
  import opened ConnRing

  class Server {
    const maxRequests: nat
    const connBuf: array<int>
    var requestHead: nat
    var requestTail: nat

    ghost function Abs(): Ring
      reads this, connBuf
    {
      Ring(connBuf[..], requestHead, requestTail)
    }

    ghost predicate Valid()
      reads this, connBuf
    {
      connBuf.Length == maxRequests && RingOk(Abs())
    }

    /** One more slot than requests, because the buffer keeps one slot free. */
    constructor (requests: nat)
      ensures Valid() && fresh(connBuf)
      ensures Abs() == NewRing(requests)
    {
      maxRequests := requests + 1;
      connBuf := new int[requests + 1];
      requestHead := 0;
      requestTail := 0;
      new;
      for i := 0 to maxRequests
        invariant requestHead == 0 && requestTail == 0 && fresh(connBuf)
        invariant maxRequests == requests + 1
        invariant forall j :: 0 <= j < i ==> connBuf[j] == -1
      {
        connBuf[i] := -1;
      }
      NewRingOk(requests);
      assert connBuf[..] == NewRing(requests).buf;
    }

    /** The waiting condition of server_request. */
    method MustWait() returns (full: bool)
      requires Valid()
      ensures full <==> |Contents(Abs())| == maxRequests - 1
    {
      full := (requestHead - requestTail + maxRequests) % maxRequests == maxRequests - 1;
    }

    /** The waiting condition of do_server_thread. */
    method NothingToDo() returns (empty: bool)
      requires Valid()
      ensures empty <==> Contents(Abs()) == []
    {
      CountIs(Abs());
      empty := requestHead == requestTail;
    }

    /** server_request after its wait; the assertion is the one in the program. */
    method Store(connfd: nat)
      requires Valid() && |Contents(Abs())| < maxRequests - 1
      modifies this`requestHead, connBuf
      ensures Valid()
      ensures Abs() == Put(old(Abs()), connfd)
      ensures Contents(Abs()) == old(Contents(Abs())) + [connfd]
    {
      ghost var was := Abs();
      PutAppends(was, connfd);
      assert connBuf[requestHead] == -1;
      connBuf[requestHead] := connfd;
      requestHead := (requestHead + 1) % maxRequests;
      assert Abs() == Put(was, connfd);
    }

    /** do_server_thread after its wait. */
    method Fetch() returns (connfd: int)
      requires Valid() && Contents(Abs()) != []
      modifies this`requestTail, connBuf
      ensures Valid()
      ensures Abs() == Take(old(Abs()))
      ensures connfd >= 0 && old(Contents(Abs())) == [connfd] + Contents(Abs())
    {
      ghost var was := Abs();
      CountIs(was);
      TakeRemovesOldest(was);
      connfd := connBuf[requestTail];
      connBuf[requestTail] := -1;
      requestTail := (requestTail + 1) % maxRequests;
      assert Abs() == Take(was);
    }
  }
}
