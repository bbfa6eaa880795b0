/**
 Robust I/O (webserver/common.c). The kernel's read and write are adversaries:
 they choose how many bytes to move, interrupt a finite number of times, and
 fail a finite number of times. A call reports an error exactly when one of the
 system calls it made failed.
 */
module Rio {

  const RIO_BUFSIZE := 8192

  /** Interrupted stands for errno == EINTR, Failed for any other error. */
  datatype Outcome = Moved(count: nat) | Interrupted | Failed

  /** The reading end of a connection or file: what has not been read yet, and what can still go wrong. */
  class InputEnd {
    var unread: string
    var interrupts: nat
    var failures: nat

    constructor (content: string, interrupts: nat, failures: nat)
      ensures unread == content && this.interrupts == interrupts && this.failures == failures
    {
      unread := content;
      this.interrupts := interrupts;
      this.failures := failures;
    }

    /** read(2): any positive number of bytes up to n, and 0 only at the end of the stream. */
    method Read(buf: array<char>, at: nat, n: nat) returns (r: Outcome)
      requires at + n <= buf.Length
      modifies this, buf
      ensures r.Moved? ==>
                && r.count <= n && r.count <= |old(unread)|
                && (r.count == 0 ==> n == 0 || old(unread) == "")
                && unread == old(unread)[r.count..] && interrupts == old(interrupts)
                && buf[at..at + r.count] == old(unread)[..r.count]
                && forall i :: 0 <= i < buf.Length && !(at <= i < at + r.count) ==> buf[i] == old(buf[i])
      ensures !r.Moved? ==> unread == old(unread) && buf[..] == old(buf[..])
      ensures r.Interrupted? ==> interrupts < old(interrupts)
      ensures r.Failed? ==> interrupts == old(interrupts)
      ensures failures == old(failures) - if r.Failed? then 1 else 0
    {
      if interrupts > 0 {
        if * {
          interrupts := interrupts - 1;
          return Interrupted;
        }
      }
      if failures > 0 {
        if * {
          failures := failures - 1;
          return Failed;
        }
      }
      var count: nat := if n == 0 || unread == "" then 0 else 1;
      if * {
        count :| (n == 0 || unread == "" || count > 0) && count <= n && count <= |unread|;
      }
      forall i | 0 <= i < count {
        buf[at + i] := unread[i];
      }
      unread := unread[count..];
      return Moved(count);
    }
  }

  /** The writing end: what has been written so far, and what can still go wrong. */
  class OutputEnd {
    var written: string
    var interrupts: nat
    var failures: nat

    constructor (interrupts: nat, failures: nat)
      ensures written == "" && this.interrupts == interrupts && this.failures == failures
    {
      written := "";
      this.interrupts := interrupts;
      this.failures := failures;
    }

    /** write(2) of a non-empty range: some of it, at least one byte. */
    method Write(buf: array<char>, at: nat, n: nat) returns (r: Outcome)
      requires 0 < n && at + n <= buf.Length
      modifies this
      ensures r.Moved? ==>
                && 0 < r.count <= n
                && written == old(written) + buf[at..at + r.count] && interrupts == old(interrupts)
      ensures !r.Moved? ==> written == old(written)
      ensures r.Interrupted? ==> interrupts < old(interrupts)
      ensures r.Failed? ==> interrupts == old(interrupts)
      ensures failures == old(failures) - if r.Failed? then 1 else 0
    {
      if interrupts > 0 {
        if * {
          interrupts := interrupts - 1;
          return Interrupted;
        }
      }
      if failures > 0 {
        if * {
          failures := failures - 1;
          return Failed;
        }
      }
      var count: nat :| 0 < count <= n;
      written := written + buf[at..at + count];
      return Moved(count);
    }
  }

  // ---- unbuffered ------------------------------------------------------------

  function Min(a: nat, b: nat): nat {
    if a < b then a else b
  }

  /** rio_read: n bytes, or all there are; -1 exactly when a read failed, after some prefix. */
  method RioRead(fd: InputEnd, usrbuf: array<char>, n: nat) returns (r: int)
    requires n <= usrbuf.Length
    modifies fd, usrbuf
    ensures r == if fd.failures == old(fd.failures) then Min(n, |old(fd.unread)|) else -1
    ensures fd.failures == old(fd.failures) - if r == -1 then 1 else 0
    ensures r >= 0 ==> usrbuf[..r] == old(fd.unread)[..r] && fd.unread == old(fd.unread)[r..]
    ensures r == -1 ==> exists k :: 0 <= k <= |old(fd.unread)| && fd.unread == old(fd.unread)[k..]
  {
    ghost var stream := fd.unread;
    var nleft: nat := n;
    while nleft > 0
      invariant nleft <= n && n - nleft <= |stream|
      invariant usrbuf[..n - nleft] == stream[..n - nleft]
      invariant fd.unread == stream[n - nleft..] && fd.failures == old(fd.failures)
      decreases nleft, fd.interrupts
    {
      ghost var done := n - nleft;
      var nread := fd.Read(usrbuf, n - nleft, nleft);
      match nread
      case Failed =>
        return -1;
      case Interrupted =>
      case Moved(count) =>
        if count == 0 {
          break;
        }
        nleft := nleft - count;
        assert stream[done..][..count] == stream[done..done + count] == usrbuf[done..done + count];
        assert usrbuf[..done + count] == usrbuf[..done] + usrbuf[done..done + count];
        assert usrbuf[..done] == stream[..done];
    }
    return n - nleft;
  }

  /** rio_write: all n bytes in order; -1 exactly when a write failed, after some proper prefix. */
  method RioWrite(fd: OutputEnd, usrbuf: array<char>, n: nat) returns (r: int)
    requires n <= usrbuf.Length
    modifies fd
    ensures r == if fd.failures == old(fd.failures) then n else -1
    ensures fd.failures == old(fd.failures) - if r == -1 then 1 else 0
    ensures r == n ==> fd.written == old(fd.written) + usrbuf[..n]
    ensures r == -1 ==> exists k :: 0 <= k < n && fd.written == old(fd.written) + usrbuf[..k]
  {
    var nleft: nat := n;
    while nleft > 0
      invariant nleft <= n
      invariant fd.written == old(fd.written) + usrbuf[..n - nleft] && fd.failures == old(fd.failures)
      decreases nleft, fd.interrupts
    {
      ghost var done := n - nleft;
      var nwritten := fd.Write(usrbuf, n - nleft, nleft);
      match nwritten
      case Failed =>
        return -1;
      case Interrupted =>
      case Moved(count) =>
        nleft := nleft - count;
        assert usrbuf[..done + count] == usrbuf[..done] + usrbuf[done..done + count];
    }
    return n;
  }

  // ---- lines -------------------------------------------------------------------

  /** The next text line of a stream: up to a newline, up to maxlen characters, or all that is left. */
  function Line(stream: string, maxlen: nat): (line: string)
    ensures line <= stream && |line| <= maxlen
  {
    if stream == "" || maxlen == 0 then ""
    else if stream[0] == '\n' then [stream[0]]
    else [stream[0]] + Line(stream[1..], maxlen - 1)
  }

  /** What makes a prefix of the stream its next line. */
  ghost predicate IsLine(line: string, stream: string, maxlen: nat) {
    && line <= stream && |line| <= maxlen
    && (forall i :: 0 <= i < |line| - 1 ==> stream[i] != '\n')
    && (|line| == maxlen || |line| == |stream| || (line != "" && stream[|line| - 1] == '\n'))
  }

  lemma {:induction false} LineIsLine(stream: string, maxlen: nat)
    ensures IsLine(Line(stream, maxlen), stream, maxlen)
  {
    if stream != "" && maxlen > 0 && stream[0] != '\n' {
      var line, rest := Line(stream, maxlen), Line(stream[1..], maxlen - 1);
      LineIsLine(stream[1..], maxlen - 1);
      assert forall i :: 1 <= i < |line| ==> stream[i] == stream[1..][i - 1];
    }
  }

  /** That determines it. */
  lemma LineIff(line: string, stream: string, maxlen: nat)
    ensures IsLine(line, stream, maxlen) <==> line == Line(stream, maxlen)
  {
    LineIsLine(stream, maxlen);
    if IsLine(line, stream, maxlen) {
      assert |line| == |Line(stream, maxlen)|;
      assert line == stream[..|line|] == Line(stream, maxlen);
    }
  }

  /** What successive reads of lines deliver until the end of the stream. */
  function Lines(stream: string, maxlen: nat): (lines: seq<string>)
    requires maxlen > 0
    decreases |stream|
  {
    if stream == "" then []
    else
      var line := Line(stream, maxlen);
      [line] + Lines(stream[|line|..], maxlen)
  }

  function Concat(lines: seq<string>): string {
    if lines == [] then "" else lines[0] + Concat(lines[1..])
  }

  /** Nothing is lost, added or reordered by cutting a stream into lines. */
  lemma {:induction false} LinesConcatenate(stream: string, maxlen: nat)
    requires maxlen > 0
    ensures Concat(Lines(stream, maxlen)) == stream
    ensures forall i :: 0 <= i < |Lines(stream, maxlen)| ==> 0 < |Lines(stream, maxlen)[i]| <= maxlen
    decreases |stream|
  {
    if stream != "" {
      var line := Line(stream, maxlen);
      LinesConcatenate(stream[|line|..], maxlen);
      assert Lines(stream, maxlen)[1..] == Lines(stream[|line|..], maxlen);
      assert stream == line + stream[|line|..];
    }
  }

  /** A text with its only newline at the end is the next line of any stream that starts with it. */
  lemma LineOfText(text: string, rest: string, maxlen: nat)
    requires 0 < |text| <= maxlen && text[|text| - 1] == '\n'
    requires forall i :: 0 <= i < |text| - 1 ==> text[i] != '\n'
    ensures Line(text + rest, maxlen) == text && (text + rest)[|text|..] == rest
  {
    LineIff(text, text + rest, maxlen);
  }

  // ---- lines that fill a buffer ---------------------------------------------------

  /** Some read of a line of the stream delivers as many characters as it may. */
  ghost predicate SomeLineFills(stream: string, maxlen: nat)
    requires maxlen > 0
  {
    exists i :: 0 <= i < |Lines(stream, maxlen)| && |Lines(stream, maxlen)[i]| == maxlen
  }

  /** At p, which starts the stream or follows a newline, maxlen characters without a newline before the last. */
  ghost predicate LongLineAt(stream: string, maxlen: nat, p: nat) {
    && p + maxlen <= |stream|
    && (p == 0 || stream[p - 1] == '\n')
    && forall j :: p <= j < p + maxlen - 1 ==> stream[j] != '\n'
  }

  ghost predicate HasLongLine(stream: string, maxlen: nat) {
    exists p :: LongLineAt(stream, maxlen, p)
  }

  /** The next read fills, or a later one does. */
  lemma FillsStep(stream: string, maxlen: nat)
    requires maxlen > 0
    ensures SomeLineFills(stream, maxlen) <==>
            || |Line(stream, maxlen)| == maxlen
            || SomeLineFills(stream[|Line(stream, maxlen)|..], maxlen)
  {
    if stream == "" {
      assert stream[0..] == stream;
    } else {
      var line := Line(stream, maxlen);
      var lines, later := Lines(stream, maxlen), Lines(stream[|line|..], maxlen);
      assert lines == [line] + later;
      if |line| == maxlen {
        assert |lines[0]| == maxlen;
      }
      if i :| 0 <= i < |later| && |later[i]| == maxlen {
        assert |lines[i + 1]| == maxlen;
      }
      if i :| 0 <= i < |lines| && |lines[i]| == maxlen {
        assert i == 0 || later[i - 1] == lines[i];
      }
    }
  }

  /** Behind a line that does not fill, the long lines are those of the rest. */
  lemma LongLineShift(stream: string, maxlen: nat, line: string, p: nat)
    requires IsLine(line, stream, maxlen) && 0 < |line| < maxlen
    ensures LongLineAt(stream, maxlen, p) <==> p >= |line| && LongLineAt(stream[|line|..], maxlen, p - |line|)
  {
    var n, rest := |line|, stream[|line|..];
    if p >= n && p + maxlen <= |stream| {
      assert forall j :: p <= j < p + maxlen - 1 ==> rest[j - n] == stream[j];
      assert forall j :: p - n <= j < p - n + maxlen - 1 ==> stream[j + n] == rest[j];
      assert p > n ==> rest[p - n - 1] == stream[p - 1];
    }
  }

  /** A line is read that fills the buffer if and only if the stream has such a long line. */
  lemma {:induction false} FillsIff(stream: string, maxlen: nat)
    requires maxlen > 0
    ensures SomeLineFills(stream, maxlen) <==> HasLongLine(stream, maxlen)
    decreases |stream|
  {
    var line := Line(stream, maxlen);
    FillsStep(stream, maxlen);
    LineIsLine(stream, maxlen);
    if stream == "" {
    } else if |line| == maxlen {
      assert LongLineAt(stream, maxlen, 0);
    } else {
      FillsIff(stream[|line|..], maxlen);
      forall p: nat
        ensures LongLineAt(stream, maxlen, p) <==>
                p >= |line| && LongLineAt(stream[|line|..], maxlen, p - |line|)
      {
        LongLineShift(stream, maxlen, line, p);
      }
      if q: nat :| LongLineAt(stream[|line|..], maxlen, q) {
        assert LongLineAt(stream, maxlen, q + |line|);
      }
    }
  }

  // ---- buffered ----------------------------------------------------------------

  lemma SplitFront(front: string, back: string, rest: string)
    ensures (front + back + rest)[..|front|] == front && (front + back + rest)[|front|..] == back + rest
  {
  }

  lemma Shift(done: string, left: string)
    requires left != ""
    ensures done + left == (done + [left[0]]) + left[1..]
  {
  }

  /** memcpy to the start of a buffer. */
  method CopyInto(to: array<char>, from: array<char>, at: nat, n: nat)
    requires to != from && n <= to.Length && at + n <= from.Length
    modifies to
    ensures to[..n] == from[at..at + n]
  {
    forall i | 0 <= i < n {
      to[i] := from[at + i];
    }
  }

  class RioBuffer {
    const fd: InputEnd
    const buf: array<char>
    var cnt: int
    var ptr: nat

    ghost predicate Valid()
      reads this
    {
      && buf.Length == RIO_BUFSIZE
      && (cnt > 0 ==> ptr + cnt <= RIO_BUFSIZE)
    }

    ghost function Buffered(): string
      requires Valid()
      reads this, buf
    {
      if cnt > 0 then buf[ptr..ptr + cnt] else ""
    }

    /** Everything not delivered yet: first what is buffered, then what is unread. */
    ghost function Stream(): string
      requires Valid()
      reads this, buf, fd
    {
      Buffered() + fd.unread
    }

    constructor (fd: InputEnd)
      ensures this.fd == fd && Valid() && fresh(buf)
      ensures Stream() == fd.unread
    {
      this.fd := fd;
      buf := new char[RIO_BUFSIZE];
      cnt := 0;
      ptr := 0;
    }

    /** One round of the refill loop. */
    method Fill() returns (r: Outcome)
      requires Valid() && cnt <= 0
      modifies this, buf, fd
      ensures Valid() && Stream() == old(Stream())
      ensures r.Moved? ==> cnt == r.count && fd.interrupts == old(fd.interrupts)
      ensures r == Moved(0) ==> Stream() == ""
      ensures r.Interrupted? ==> fd.interrupts < old(fd.interrupts)
      ensures !r.Moved? ==> cnt == -1
      ensures fd.failures == old(fd.failures) - if r.Failed? then 1 else 0
    {
      ghost var unread := fd.unread;
      r := fd.Read(buf, 0, RIO_BUFSIZE);
      cnt := if r.Moved? then r.count else -1;
      if cnt > 0 {
        ptr := 0;
        assert Buffered() == unread[..cnt];
      }
    }

    /** The refill loop of rio_readb: afterwards something is buffered, or the stream ended or failed. */
    method Refill() returns (status: Outcome)
      requires Valid()
      modifies this, buf, fd
      ensures Valid() && Stream() == old(Stream())
      ensures status.Moved? || status.Failed?
      ensures status.Moved? && status.count > 0 ==> cnt > 0
      ensures status == Moved(0) ==> cnt == 0 && Stream() == ""
      ensures fd.failures == old(fd.failures) - if status.Failed? then 1 else 0
    {
      while cnt <= 0
        invariant Valid() && Stream() == old(Stream()) && fd.failures == old(fd.failures)
        decreases fd.interrupts, if cnt <= 0 then 1 else 0
      {
        var r := Fill();
        if r.Failed? || r == Moved(0) {
          return r;
        }
      }
      return Moved(cnt);
    }

    /** What an advance of the buffer pointer by n leaves of the stream. */
    lemma Advanced(n: nat)
      requires Valid() && cnt > 0 && n <= cnt
      ensures Stream()[..n] == buf[ptr..ptr + n]
      ensures Stream()[n..] == buf[ptr + n..ptr + cnt] + fd.unread
    {
      var front, back := buf[ptr..ptr + n], buf[ptr + n..ptr + cnt];
      assert Buffered() == front + back;
      SplitFront(front, back, fd.unread);
    }

    /** The copy at the end of rio_readb. */
    method Deliver(usrbuf: array<char>, n: nat)
      requires Valid() && cnt > 0 && n <= cnt && n <= usrbuf.Length && usrbuf != buf
      modifies this`cnt, this`ptr, usrbuf
      ensures Valid()
      ensures usrbuf[..n] == old(Stream())[..n] && Stream() == old(Stream())[n..]
    {
      ghost var back := buf[ptr + n..ptr + cnt];
      Advanced(n);
      CopyInto(usrbuf, buf, ptr, n);
      ptr := ptr + n;
      cnt := cnt - n;
      assert Buffered() == back;
    }

    /** rio_readb: at most n bytes, at least one unless the stream ended; -1 exactly when a read failed. */
    method ReadB(usrbuf: array<char>, n: nat) returns (r: int)
      requires Valid() && n <= usrbuf.Length && usrbuf != buf
      modifies this, buf, fd, usrbuf
      ensures Valid()
      ensures fd.failures == old(fd.failures) - if r == -1 then 1 else 0
      ensures r == -1 ==> Stream() == old(Stream())
      ensures r != -1 ==>
                && 0 <= r <= n && r <= |old(Stream())|
                && (r == 0 ==> n == 0 || old(Stream()) == "")
                && usrbuf[..r] == old(Stream())[..r]
                && Stream() == old(Stream())[r..]
    {
      var status := Refill();
      if status.Failed? {
        return -1;
      }
      if status.count == 0 {
        return 0;
      }
      var count := if cnt < n then cnt else n;
      Deliver(usrbuf, count);
      return count;
    }

    /** rio_readb into a single character. */
    method ReadChar() returns (rc: int, c: char)
      requires Valid()
      modifies this, buf, fd
      ensures Valid() && -1 <= rc <= 1
      ensures fd.failures == old(fd.failures) - if rc == -1 then 1 else 0
      ensures rc == -1 ==> Stream() == old(Stream())
      ensures rc == 0 ==> old(Stream()) == "" && Stream() == ""
      ensures rc == 1 ==> old(Stream()) != "" && c == old(Stream())[0] && Stream() == old(Stream())[1..]
    {
      var cell := new char[1];
      rc := ReadB(cell, 1);
      c := cell[0];
      assert rc == 1 ==> cell[..1][0] == c;
    }

    /** The next character, behind n others. */
    method ReadCharAt(usrbuf: array<char>, n: nat) returns (rc: int, c: char)
      requires Valid() && n < usrbuf.Length && usrbuf != buf
      modifies this, buf, fd, usrbuf
      ensures Valid() && -1 <= rc <= 1
      ensures fd.failures == old(fd.failures) - if rc == -1 then 1 else 0
      ensures rc == -1 ==> Stream() == old(Stream())
      ensures rc == 0 ==> old(Stream()) == "" && Stream() == ""
      ensures rc == 1 ==>
                && old(Stream()) != "" && c == old(Stream())[0] && Stream() == old(Stream())[1..]
                && usrbuf[..n + 1] == old(usrbuf[..n]) + [c]
      ensures forall i :: 0 <= i < usrbuf.Length && !(rc == 1 && i == n) ==> usrbuf[i] == old(usrbuf[i])
    {
      rc, c := ReadChar();
      if rc == 1 {
        usrbuf[n] := c;
      }
    }

    /** The loop of rio_readlineb: characters up to a newline, maxlen, the end of the stream or an error. */
    method ReadChars(usrbuf: array<char>, maxlen: nat) returns (n: nat, rc: int)
      requires Valid() && maxlen <= usrbuf.Length && usrbuf != buf
      modifies this, buf, fd, usrbuf
      ensures Valid() && -1 <= rc <= 1
      ensures fd.failures == old(fd.failures) - if rc == -1 then 1 else 0
      ensures n <= maxlen && n <= |old(Stream())|
      ensures Stream() == old(Stream())[n..] && usrbuf[..n] == old(Stream())[..n]
      ensures forall i :: n <= i < usrbuf.Length ==> usrbuf[i] == old(usrbuf[i])
      ensures n == 0 && rc == 1 ==> maxlen == 0
      ensures forall i :: 0 <= i < n - 1 ==> old(Stream())[i] != '\n'
      ensures rc == 1 ==> n == maxlen || (n > 0 && old(Stream())[n - 1] == '\n')
      ensures rc == 0 ==> n == |old(Stream())|
      ensures rc <= 0 ==> n < maxlen
    {
      ghost var done, left := "", Stream();
      n, rc := 0, 1;
      while n < maxlen
        invariant |done| == n <= maxlen && rc == 1
        invariant forall i :: 0 <= i < n ==> done[i] != '\n'
        invariant Valid() && fd.failures == old(fd.failures)
        invariant Stream() == left && old(Stream()) == done + left
        invariant usrbuf[..n] == done
        invariant forall i :: n <= i < usrbuf.Length ==> usrbuf[i] == old(usrbuf[i])
      {
        var c;
        rc, c := ReadCharAt(usrbuf, n);
        if rc != 1 {
          break;
        }
        Shift(done, left);
        done, left := done + [c], left[1..];
        n := n + 1;
        if c == '\n' {
          break;
        }
      }
    }

    /**
     rio_readlineb: the next line, or -1 exactly when a read failed. The
     terminator goes behind the line; `overran` says that this is outside usrbuf.
     */
    method ReadLineB(usrbuf: array<char>, maxlen: nat) returns (r: int, overran: bool)
      requires Valid() && maxlen <= usrbuf.Length && usrbuf != buf
      modifies this, buf, fd, usrbuf
      ensures Valid()
      ensures r >= -1 && fd.failures == old(fd.failures) - if r == -1 then 1 else 0
      ensures r >= 0 ==> Delivered(old(Stream()), r, maxlen) && usrbuf[..r] == Line(old(Stream()), maxlen)
      ensures overran <==> r == maxlen == usrbuf.Length
      ensures r == 0 < maxlen ==> usrbuf[..] == old(usrbuf[..])
      ensures r > 0 && !overran ==> usrbuf[r] == '\0'
      ensures r == -1 ==> LostSome(old(Stream()), maxlen)
    {
      ghost var stream := Stream();
      var n, rc := ReadChars(usrbuf, maxlen);
      if rc < 0 {
        return -1, false;
      }
      LineIff(stream[..n], stream, maxlen);
      if rc == 0 && n == 0 {
        return 0, false;
      }
      if n == usrbuf.Length {
        return n, true;
      }
      usrbuf[n] := '\0';
      return n, false;
    }

    /** The next line has been delivered, n characters, and the rest is still to come. */
    ghost predicate Delivered(stream: string, n: nat, maxlen: nat)
      requires Valid()
      reads this, buf, fd
    {
      n == |Line(stream, maxlen)| && Stream() == stream[n..]
    }

    /** After an error part of a line is gone. */
    ghost predicate LostSome(stream: string, maxlen: nat)
      requires Valid()
      reads this, buf, fd
    {
      exists k :: 0 <= k < maxlen && k <= |stream| && Stream() == stream[k..]
    }
  }
}
