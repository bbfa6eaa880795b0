/**
 Both ends of a connection as they run: request_sendfile (webserver/request.c)
 and client_print (webserver/client.c), over robust I/O with arbitrary chunks
 and interruptions.
 */
module Connection {
  import opened CommonTypes
  import opened CStrings
  import opened Rio
  import opened Framing

  // ---- C strings in a buffer -------------------------------------------------------

  /** sprintf of a text that fits. */
  method Sprintf(buf: array<char>, size: nat, text: string) returns (n: nat)
    requires size + |text| < buf.Length
    modifies buf
    ensures n == |text| && buf[..size + n] == old(buf[..size]) + text && buf[size + n] == '\0'
  {
    forall i | 0 <= i < |text| {
      buf[size + i] := text[i];
    }
    buf[size + |text|] := '\0';
    n := |text|;
  }

  /** What strlen counts and strcmp and sscanf read. */
  method GetText(buf: array<char>) returns (text: string)
    ensures text == CString(buf[..])
  {
    var n := 0;
    while n < buf.Length && buf[n] != '\0'
      invariant n <= buf.Length
      invariant forall i :: 0 <= i < n ==> buf[i] != '\0'
    {
      n := n + 1;
    }
    CStringIs(buf[..], n);
    return buf[..n];
  }

  // ---- sending ------------------------------------------------------------------------

  method ChecksumOf(data: array<char>) returns (csum: nat)
    ensures csum == Checksum(data[..]) && csum < UINT_SPAN
  {
    csum := 0;
    for i := 0 to data.Length
      invariant csum == Checksum(data[..i])
    {
      assert data[..i + 1][..i] == data[..i];
      csum := Add(csum, data[i] as int);
    }
    assert data[..data.Length] == data[..];
  }

  lemma Joined(a: string, b: string, c: string, d: string, e: string)
    requires NoNul(a) && NoNul(b) && NoNul(c) && NoNul(d) && NoNul(e)
    ensures NoNul(a + b + c + d + e) && |a + b + c + d + e| == |a| + |b| + |c| + |d| + |e|
    ensures a + b + c + d + e == a + (b + (c + (d + e)))
  {
  }

  lemma FixedPiecesFit(filetype: string)
    requires filetype in FILE_TYPES
    ensures NoNul(STATUS) && NoNul(SERVER) && |STATUS| < 50 && |SERVER| < 50
    ensures NoNul(TypeLine(filetype)) && |TypeLine(filetype)| < 50
  {
    FixedLines();
    TypeLineFacts(filetype);
  }

  lemma TagPiecesFit(length: nat, csum: nat)
    requires length < UINT_SPAN && csum < UINT_SPAN
    ensures NoNul(TagLine(LENGTH_TAG, length)) && |TagLine(LENGTH_TAG, length)| < 50
    ensures NoNul(TagLine(CSUM_TAG, csum) + EOL) && |TagLine(CSUM_TAG, csum) + EOL| < 50
  {
    TagLineIsText(LENGTH_TAG, length);
    TagLineIsText(CSUM_TAG, csum);
  }

  lemma ConcatCons(line: string, lines: seq<string>)
    ensures Concat([line] + lines) == line + Concat(lines)
  {
    assert ([line] + lines)[1..] == lines;
  }

  lemma ConcatHeader(filetype: string, length: nat, csum: nat)
    ensures Concat(HeaderLines(filetype, length, csum)) ==
            SERVER + (TypeLine(filetype) + (TagLine(LENGTH_TAG, length) + (TagLine(CSUM_TAG, csum) + EOL)))
  {
    assert Concat([EOL]) == EOL + Concat([]) == EOL;
    ConcatCons(TagLine(CSUM_TAG, csum), [EOL]);
    ConcatCons(TagLine(LENGTH_TAG, length), [TagLine(CSUM_TAG, csum)] + [EOL]);
    ConcatCons(TypeLine(filetype), TagLines(length, csum));
    ConcatCons(SERVER, [TypeLine(filetype)] + TagLines(length, csum));
  }

  lemma FixedTags()
    ensures LENGTH_TAG + " " == "Content-Length: " && CSUM_TAG + " " == "Content-Csum: "
    ensures EOL + EOL == "\r\n\r\n"
  {
  }

  lemma Flatten(status: string, server: string, typeTag: string, filetype: string, eol: string,
                lengthTag: string, a: string, csumTag: string, b: string)
    ensures status + server + (typeTag + filetype + eol) + (lengthTag + (" " + (a + eol)))
            + ((csumTag + (" " + (b + eol))) + eol)
            == status + server + typeTag + filetype + eol + (lengthTag + " ") + a + eol
               + (csumTag + " ") + b + (eol + eol)
  {
  }

  /** The header, spelled out. */
  lemma HeaderReads(filetype: string, a: string, b: string)
    ensures STATUS + SERVER + TypeLine(filetype) + (LENGTH_TAG + (" " + (a + EOL)))
            + ((CSUM_TAG + (" " + (b + EOL))) + EOL)
            == "HTTP/1.0 200 OK\r\n" + "Server: OS Web Server\r\n" + "Content-Type: " + filetype + "\r\n"
               + "Content-Length: " + a + "\r\n" + "Content-Csum: " + b + "\r\n\r\n"
  {
    FixedTags();
    Flatten(STATUS, SERVER, TYPE_TAG, filetype, EOL, LENGTH_TAG, a, CSUM_TAG, b);
  }

  /** Five calls of sprintf, at a moving offset. */
  method PutPieces(buf: array<char>, a: string, b: string, c: string, d: string, e: string) returns (size: nat)
    requires |a| + |b| + |c| + |d| + |e| < buf.Length
    modifies buf
    ensures size == |a| + |b| + |c| + |d| + |e|
    ensures buf[..size] == a + b + c + d + e && buf[size] == '\0'
  {
    size := 0;
    var n := Sprintf(buf, size, a);
    size := size + n;
    assert buf[..size] == a;
    n := Sprintf(buf, size, b);
    size := size + n;
    assert buf[..size] == a + b;
    n := Sprintf(buf, size, c);
    size := size + n;
    assert buf[..size] == a + b + c;
    n := Sprintf(buf, size, d);
    size := size + n;
    assert buf[..size] == a + b + c + d;
    n := Sprintf(buf, size, e);
    size := size + n;
  }

  /** The pieces fit the buffer, contain no NUL and make up the header. */
  method PutHeader(buf: array<char>, filetype: string, length: nat, csum: nat) returns (size: nat)
    requires buf.Length == MAXBUF
    requires filetype in FILE_TYPES && length < UINT_SPAN && csum < UINT_SPAN
    modifies buf
    ensures size < MAXBUF && buf[size] == '\0'
    ensures NoNul(buf[..size]) && buf[..size] == STATUS + Concat(HeaderLines(filetype, length, csum))
    ensures buf[..size] ==
            "HTTP/1.0 200 OK\r\n" + "Server: OS Web Server\r\n" + "Content-Type: " + filetype + "\r\n"
            + "Content-Length: " + Decimal(length) + "\r\n" + "Content-Csum: " + Decimal(csum) + "\r\n\r\n"
  {
    var typeLine, lengthLine := TypeLine(filetype), TagLine(LENGTH_TAG, length);
    var csumLines := TagLine(CSUM_TAG, csum) + EOL;
    FixedPiecesFit(filetype);
    TagPiecesFit(length, csum);
    Joined(STATUS, SERVER, typeLine, lengthLine, csumLines);
    ConcatHeader(filetype, length, csum);
    HeaderReads(filetype, Decimal(length), Decimal(csum));
    size := PutPieces(buf, STATUS, SERVER, typeLine, lengthLine, csumLines);
  }

  method SendHeader(out: OutputEnd, filetype: string, length: nat, csum: nat) returns (ok: bool)
    requires filetype in FILE_TYPES && length < UINT_SPAN && csum < UINT_SPAN
    modifies out
    ensures out.failures == old(out.failures) - if ok then 0 else 1
    ensures ok ==> out.written == old(out.written) + (STATUS + Concat(HeaderLines(filetype, length, csum)))
    ensures STATUS + Concat(HeaderLines(filetype, length, csum)) ==
            "HTTP/1.0 200 OK\r\n" + "Server: OS Web Server\r\n" + "Content-Type: " + filetype + "\r\n"
            + "Content-Length: " + Decimal(length) + "\r\n" + "Content-Csum: " + Decimal(csum) + "\r\n\r\n"
  {
    var buf := new char[MAXBUF];
    var size := PutHeader(buf, filetype, length, csum);
    assert buf[..][..size] == buf[..size];
    assert forall i :: 0 <= i < size ==> buf[..][i] == buf[..size][i];
    CStringIs(buf[..], size);
    var text := GetText(buf);
    var r := RioWrite(out, buf, |text|);
    return r >= 0;
  }

  /** The whole message is written, unless a write fails: that stops the program part of the way. */
  method SendFile(out: OutputEnd, filetype: string, data: array<char>) returns (ok: bool)
    requires filetype in FILE_TYPES && data.Length <= INT_MAX
    modifies out
    ensures out.failures == old(out.failures) - if ok then 0 else 1
    ensures ok ==> out.written == old(out.written) + Message(filetype, data.Length, Checksum(data[..]), data[..])
    ensures ok ==>
              out.written == old(out.written)
                + ("HTTP/1.0 200 OK\r\n" + "Server: OS Web Server\r\n" + "Content-Type: " + filetype + "\r\n"
                   + "Content-Length: " + Decimal(data.Length) + "\r\n"
                   + "Content-Csum: " + Decimal(Checksum(data[..])) + "\r\n\r\n")
                + data[..]
  {
    var csum := ChecksumOf(data);
    ok := SendHeader(out, filetype, data.Length, csum);
    if ok && data.Length > 0 {
      var r := RioWrite(out, data, data.Length);
      ok := r >= 0;
    }
    Regroup(STATUS, Concat(HeaderLines(filetype, data.Length, csum)), data[..]);
  }

  // ---- receiving -----------------------------------------------------------------------

  /**
   How the client ends. It is stopped by a system call that failed, or overruns
   its buffer with the terminator of a line; what happens then is not defined.
   */
  datatype Ending = Completed | Stopped | Overran

  /** One line into buf, and the text that the string functions then see there. */
  method NextText(rio: RioBuffer, buf: array<char>, ghost before: string)
    returns (end: Ending, n: nat, text: string)
    requires rio.Valid() && buf.Length == MAXBUF && buf != rio.buf
    requires before == CString(buf[..])
    modifies rio, rio.buf, rio.fd, buf
    ensures rio.Valid() && text == CString(buf[..])
    ensures rio.fd.failures == old(rio.fd.failures) - if end.Stopped? then 1 else 0
    ensures !end.Stopped? ==>
              && var line := Line(old(rio.Stream()), MAXBUF);
              && n == |line| && rio.Stream() == old(rio.Stream())[n..]
              && (end.Overran? <==> n == MAXBUF)
              && (end.Completed? ==> text == if line == "" then before else CString(line))
  {
    var r, overran := rio.ReadLineB(buf, MAXBUF);
    text := GetText(buf);
    if r < 0 {
      return Stopped, 0, text;
    }
    n := r;
    if overran {
      return Overran, n, text;
    }
    if n > 0 {
      CStringEndsAtNul(buf[..], n);
      assert buf[..][..n] == buf[..n];
    }
    return Completed, n, text;
  }

  /** The header loop of client_print. */
  method ReadHeader(rio: RioBuffer, buf: array<char>) returns (end: Ending, tags: Tags)
    requires rio.Valid() && buf.Length == MAXBUF && buf != rio.buf
    requires CString(buf[..]) == ""
    modifies rio, rio.buf, rio.fd, buf
    ensures rio.Valid()
    ensures rio.fd.failures == old(rio.fd.failures) - if end.Stopped? then 1 else 0
    ensures end.Overran? ==> SomeLineFills(old(rio.Stream()), MAXBUF)
    ensures end.Completed? ==>
              && var line := Line(old(rio.Stream()), MAXBUF);
              && var (body, lines) := ParseHeader(CString(line), |line|, old(rio.Stream())[|line|..]);
              && rio.Stream() == body && tags == TagsOf(lines, Tags(0, 0))
              && (SomeLineFills(body, MAXBUF) <==> SomeLineFills(old(rio.Stream()), MAXBUF))
  {
    tags := Tags(0, 0);
    FillsStep(rio.Stream(), MAXBUF);
    var n, text;
    end, n, text := NextText(rio, buf, "");
    if end != Completed {
      return;
    }
    ghost var (body, lines) := ParseHeader(text, n, rio.Stream());
    while text != EOL && n > 0
      invariant rio.Valid() && text == CString(buf[..]) && end == Completed
      invariant rio.fd.failures == old(rio.fd.failures)
      invariant ParseHeader(text, n, rio.Stream()).0 == body
      invariant TagsOf(ParseHeader(text, n, rio.Stream()).1, tags) == TagsOf(lines, Tags(0, 0))
      invariant SomeLineFills(rio.Stream(), MAXBUF) <==> SomeLineFills(old(rio.Stream()), MAXBUF)
      decreases |rio.Stream()|, if n > 0 then 1 else 0
    {
      FillsStep(rio.Stream(), MAXBUF);
      end, n, text := NextText(rio, buf, text);
      if end != Completed {
        return;
      }
      TagsCons(text, ParseHeader(text, n, rio.Stream()).1, tags);
      tags := ReadTags(text, tags);
    }
  }

  /** The inner loop over the bytes of a line. */
  method AddBytes(buf: array<char>, n: nat, csum: nat, ghost before: string) returns (sum: nat)
    requires n <= buf.Length && csum == Checksum(before)
    ensures sum == Checksum(before + buf[..n])
  {
    sum := csum;
    assert before + buf[..0] == before;
    for i := 0 to n
      invariant sum == Checksum(before + buf[..i]) < UINT_SPAN
    {
      var longer := before + buf[..i + 1];
      assert longer[..|longer| - 1] == before + buf[..i];
      sum := Add(sum, buf[i] as int);
    }
  }

  /** One round of the body loop: a line is read and added to the checksum of what came before. */
  method CountLine(rio: RioBuffer, buf: array<char>, csum: nat, ghost before: string)
    returns (end: Ending, n: nat, sum: nat)
    requires rio.Valid() && buf.Length == MAXBUF && buf != rio.buf
    requires csum == Checksum(before)
    modifies rio, rio.buf, rio.fd, buf
    ensures rio.Valid()
    ensures rio.fd.failures == old(rio.fd.failures) - if end.Stopped? then 1 else 0
    ensures !end.Stopped? ==>
              && n == |Line(old(rio.Stream()), MAXBUF)| && n <= |old(rio.Stream())|
              && (n == 0 ==> old(rio.Stream()) == "")
              && rio.Stream() == old(rio.Stream())[n..]
              && (end.Overran? <==> n == MAXBUF)
    ensures end.Completed? ==> sum == Checksum(before + old(rio.Stream())[..n])
  {
    var r, overran := rio.ReadLineB(buf, MAXBUF);
    if r < 0 {
      return Stopped, 0, csum;
    }
    n := r;
    if overran {
      return Overran, n, csum;
    }
    assert buf[..n] == old(rio.Stream())[..n];
    sum := AddBytes(buf, n, csum, before);
    return Completed, n, sum;
  }

  lemma Advance(done: string, left: string, n: nat)
    requires n <= |left|
    ensures done + left == (done + left[..n]) + left[n..]
  {
    assert left == left[..n] + left[n..];
  }

  /** The body loop of client_print. */
  method ReadBody(rio: RioBuffer, buf: array<char>) returns (end: Ending, length: nat, csum: nat)
    requires rio.Valid() && buf.Length == MAXBUF && buf != rio.buf
    modifies rio, rio.buf, rio.fd, buf
    ensures rio.Valid()
    ensures rio.fd.failures == old(rio.fd.failures) - if end.Stopped? then 1 else 0
    ensures !end.Stopped? ==> (end.Overran? <==> SomeLineFills(old(rio.Stream()), MAXBUF))
    ensures end.Completed? ==> length == |old(rio.Stream())| && csum == Checksum(old(rio.Stream()))
  {
    ghost var body, done := rio.Stream(), "";
    length, csum := 0, 0;
    var n := 1;
    while n > 0
      invariant rio.Valid() && rio.fd.failures == old(rio.fd.failures)
      invariant done + rio.Stream() == body
      invariant length == |done| && csum == Checksum(done)
      invariant n == 0 ==> rio.Stream() == ""
      invariant SomeLineFills(rio.Stream(), MAXBUF) <==> SomeLineFills(body, MAXBUF)
      decreases |rio.Stream()|, n
    {
      ghost var left := rio.Stream();
      FillsStep(left, MAXBUF);
      end, n, csum := CountLine(rio, buf, csum, done);
      if end != Completed {
        return;
      }
      Advance(done, left, n);
      done := done + left[..n];
      length := length + n;
    }
    assert done == body;
    return Completed, length, csum;
  }

  /** The client on any stream: it is stopped exactly when a read fails, and otherwise ends as specified. */
  method ClientPrint(rio: RioBuffer) returns (end: Ending, report: Report)
    requires rio.Valid()
    modifies rio, rio.buf, rio.fd
    ensures rio.fd.failures == old(rio.fd.failures) - if end.Stopped? then 1 else 0
    ensures end.Completed? ==> ClientRun(old(rio.Stream())) == Reports(report)
    ensures end.Overran? ==> ClientRun(old(rio.Stream())) == Overrun
  {
    var buf := new char[MAXBUF](i => '\0');
    var tags;
    assert CString(buf[..]) == "";
    end, tags := ReadHeader(rio, buf);
    report := Report(tags, 0, 0);
    if end.Completed? {
      var length, csum;
      end, length, csum := ReadBody(rio, buf);
      report := Report(tags, length, csum);
    }
  }

  lemma EndIsRight(filetype: string, data: string, length: nat, csum: nat, sent: string)
    requires filetype in FILE_TYPES && length == |data| <= INT_MAX && csum == Checksum(data)
    requires sent == Message(filetype, length, csum, data)
    ensures ClientRun(sent) == Overrun <==> HasLongLine(data, MAXBUF)
    ensures forall report :: ClientRun(sent) == Reports(report) ==>
              report == Report(Tags(length, csum), length, csum) && AssertionsHold(report, csum, length)
  {
    RoundTrip(filetype, data, length, csum);
  }

  /**
   End to end, with the chunks and interruptions that the kernel chooses on both
   sides. At most the given numbers of writes and reads may fail; the exchange is
   stopped exactly when one did. Otherwise the client overruns its buffer exactly
   when the file has a long line, and if not its four assertions hold for the
   file that was sent.
   */
  method Exchange(filetype: string, data: array<char>,
                  interrupts: nat, writeFailures: nat, moreInterrupts: nat, readFailures: nat)
    returns (end: Ending, report: Report, writeFailuresLeft: nat, readFailuresLeft: nat)
    requires filetype in FILE_TYPES && data.Length <= INT_MAX
    ensures end.Stopped? <==> writeFailuresLeft != writeFailures || readFailuresLeft != readFailures
    ensures writeFailures == 0 && readFailures == 0 ==> !end.Stopped?
    ensures !end.Stopped? ==> (end.Overran? <==> HasLongLine(data[..], MAXBUF))
    ensures end.Completed? ==>
              && var (length, csum) := (data.Length, Checksum(data[..]));
              && report == Report(Tags(length, csum), length, csum) && AssertionsHold(report, csum, length)
  {
    var out := new OutputEnd(interrupts, writeFailures);
    report := Report(Tags(0, 0), 0, 0);
    readFailuresLeft := readFailures;
    var ok := SendFile(out, filetype, data);
    writeFailuresLeft := out.failures;
    if !ok {
      return Stopped, report, writeFailuresLeft, readFailuresLeft;
    }
    var sent := out.written;
    var fd := new InputEnd(sent, moreInterrupts, readFailures);
    var rio := new RioBuffer(fd);
    end, report := ClientPrint(rio);
    readFailuresLeft := fd.failures;
    EndIsRight(filetype, data[..], data.Length, Checksum(data[..]), sent);
  }
}
