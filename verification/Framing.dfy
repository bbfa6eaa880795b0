/**
 The HTTP response of the server: what request_sendfile (webserver/request.c)
 writes and what client_print (webserver/client.c) makes of it. The length is
 sent as Content-Length (section 10.4 of RFC 1945), the checksum as a header of
 the server's own.
 */
module Framing {
  import opened CommonTypes
  import opened CStrings
  import opened Rio

  const MAXBUF := 8192
  const UINT_SPAN := 0x1_0000_0000

  // ---- checksum --------------------------------------------------------------

  /** Addition of unsigned ints, which wraps around. */
  function Add(a: nat, b: nat): (sum: nat)
    requires a < UINT_SPAN && b < UINT_SPAN
    ensures sum < UINT_SPAN
  {
    if a + b < UINT_SPAN then a + b else a + b - UINT_SPAN
  }

  function Checksum(s: string): (sum: nat)
    ensures sum < UINT_SPAN
  {
    if s == "" then 0 else Add(Checksum(s[..|s| - 1]), s[|s| - 1] as int)
  }

  function Sum(s: string): nat {
    if s == "" then 0 else Sum(s[..|s| - 1]) + s[|s| - 1] as int
  }

  /** The wrapping loop computes the sum of all bytes modulo 2^32. */
  lemma {:induction false} ChecksumIsSum(s: string)
    ensures Checksum(s) == Sum(s) % UINT_SPAN
  {
    if s != "" {
      var front, last := Sum(s[..|s| - 1]), s[|s| - 1] as int;
      ChecksumIsSum(s[..|s| - 1]);
      assert front + last == (front / UINT_SPAN) * UINT_SPAN + (front % UINT_SPAN + last);
      Wraps(front / UINT_SPAN, front % UINT_SPAN + last);
    }
  }

  lemma Wraps(q: nat, r: nat)
    requires r < 2 * UINT_SPAN
    ensures (q * UINT_SPAN + r) % UINT_SPAN == if r < UINT_SPAN then r else r - UINT_SPAN
  {
    if r >= UINT_SPAN {
      assert q * UINT_SPAN + r == (q + 1) * UINT_SPAN + (r - UINT_SPAN);
    }
  }

  /** The checksums of the pieces determine the checksum of the whole, whatever the pieces. */
  lemma {:induction false} ChecksumIsAdditive(a: string, b: string)
    ensures Checksum(a + b) == Add(Checksum(a), Checksum(b))
    decreases |b|
  {
    if b == "" {
      assert a + b == a;
    } else {
      ChecksumIsAdditive(a, b[..|b| - 1]);
      assert (a + b)[..|a + b| - 1] == a + b[..|b| - 1];
    }
  }

  // ---- decimal numbers ----------------------------------------------------------

  predicate IsDigit(c: char) {
    '0' <= c <= '9'
  }

  function Digit(d: nat): (c: char)
    requires d < 10
    ensures IsDigit(c)
  {
    (d + '0' as int) as char
  }

  /** sprintf of a non-negative number. */
  function Decimal(n: nat): (s: string)
    ensures s != "" && forall i :: 0 <= i < |s| ==> IsDigit(s[i])
    ensures s[0] == '0' <==> n == 0
  {
    if n < 10 then [Digit(n)] else Decimal(n / 10) + [Digit(n % 10)]
  }

  /** How many digits a text starts with. */
  function DigitCount(s: string): (n: nat)
    ensures n <= |s|
    ensures forall i :: 0 <= i < n ==> IsDigit(s[i])
    ensures n < |s| ==> !IsDigit(s[n])
  {
    if s == "" || !IsDigit(s[0]) then 0 else 1 + DigitCount(s[1..])
  }

  function DigitValue(c: char): nat
    requires IsDigit(c)
  {
    c as int - '0' as int
  }

  function Value(digits: string): nat
    requires forall i :: 0 <= i < |digits| ==> IsDigit(digits[i])
  {
    if digits == "" then 0
    else 10 * Value(digits[..|digits| - 1]) + DigitValue(digits[|digits| - 1])
  }

  lemma {:induction false} ValueOfDecimal(n: nat)
    ensures Value(Decimal(n)) == n
  {
    if n < 10 {
      assert Value(Decimal(n)[..0]) == 0;
    } else {
      ValueOfDecimal(n / 10);
      assert Decimal(n)[..|Decimal(n)| - 1] == Decimal(n / 10);
    }
  }

  lemma DecimalOf8192()
    ensures Decimal(8192) == "8192" && Decimal(0) == "0"
  {
    assert Decimal(8) == "8";
    assert Decimal(81) == "81";
    assert Decimal(819) == "819";
  }

  function Power10(k: nat): nat {
    if k == 0 then 1 else 10 * Power10(k - 1)
  }

  lemma {:induction false} DecimalLength(n: nat, k: nat)
    requires 0 < k && n < Power10(k)
    ensures |Decimal(n)| <= k
  {
    if n >= 10 {
      assert k > 1;
      DecimalLength(n / 10, k - 1);
    }
  }

  /** 32 bits fit in ten digits. */
  lemma DecimalIsShort(n: nat)
    requires n < UINT_SPAN
    ensures |Decimal(n)| <= 10
  {
    assert Power10(3) == 1000;
    assert Power10(6) == 1000000;
    assert Power10(9) == 1000000000;
    DecimalLength(n, 10);
  }

  // ---- the response ---------------------------------------------------------------

  const FILE_TYPES := {"text/html", "image/gif", "image/jpeg", "text/plain"}
  const STATUS := "HTTP/1.0 200 OK\r\n"
  const SERVER := "Server: OS Web Server\r\n"
  const TYPE_TAG := "Content-Type: "
  const LENGTH_TAG := "Content-Length:"
  const CSUM_TAG := "Content-Csum:"
  const EOL := "\r\n"

  function TagLine(tag: string, n: nat): string {
    tag + (" " + (Decimal(n) + EOL))
  }

  function TypeLine(filetype: string): string {
    TYPE_TAG + filetype + EOL
  }

  function TagLines(length: nat, csum: nat): seq<string> {
    [TagLine(LENGTH_TAG, length)] + ([TagLine(CSUM_TAG, csum)] + [EOL])
  }

  /** The header after its status line, one string per line; an empty line ends it. */
  function HeaderLines(filetype: string, length: nat, csum: nat): seq<string> {
    [SERVER] + ([TypeLine(filetype)] + TagLines(length, csum))
  }

  /** What is sent for a file, with the length and the checksum that the header announces. */
  function Message(filetype: string, length: nat, csum: nat, data: string): string {
    STATUS + (Concat(HeaderLines(filetype, length, csum)) + data)
  }

  // ---- sscanf -----------------------------------------------------------------------

  function SkipSpaces(s: string): string {
    if s != "" && IsSpace(s[0]) then SkipSpaces(s[1..]) else s
  }

  function ScanDigits(s: string): Option<int> {
    if DigitCount(s) == 0 then None else Some(Value(s[..DigitCount(s)]))
  }

  /** A %d or %u conversion: white space, a sign, digits. */
  function ScanNumber(s: string): Option<int> {
    var t := SkipSpaces(s);
    if t != "" && t[0] == '-' then
      match ScanDigits(t[1..])
      case Some(v) => Some(-v)
      case None => None
    else if t != "" && t[0] == '+' then ScanDigits(t[1..])
    else ScanDigits(t)
  }

  function ScanTag(tag: string, line: string): Option<int> {
    if tag <= line then ScanNumber(line[|tag|..]) else None
  }

  // ---- the client -------------------------------------------------------------------

  datatype Tags = Tags(length: int, csum: int)

  /** What the client has at the end: the announced and the counted length and checksum. */
  datatype Report = Report(tags: Tags, lengthReceived: int, csumReceived: int)

  function ReadTags(line: string, t: Tags): Tags {
    var length := match ScanTag(LENGTH_TAG, line) case Some(v) => v case None => t.length;
    var csum := match ScanTag(CSUM_TAG, line) case Some(v) => v case None => t.csum;
    Tags(length, csum)
  }

  /** The tags after scanning the lines one by one. */
  function TagsOf(lines: seq<string>, t: Tags): Tags {
    if lines == [] then t else TagsOf(lines[1..], ReadTags(lines[0], t))
  }

  /** The header loop, with the current line and its length: what is left, and the lines it scans for tags. */
  function ParseHeader(text: string, n: nat, stream: string): (string, seq<string>)
    decreases |stream|, if n > 0 then 1 else 0
  {
    if text == EOL || n == 0 then (stream, [])
    else
      var line := Line(stream, MAXBUF);
      var text' := if line == "" then text else CString(line);
      var (body, lines) := ParseHeader(text', |line|, stream[|line|..]);
      (body, [text'] + lines)
  }

  function Client(stream: string): Report {
    var line := Line(stream, MAXBUF);
    var (body, lines) := ParseHeader(CString(line), |line|, stream[|line|..]);
    Report(TagsOf(lines, Tags(0, 0)), |body|, Checksum(body))
  }

  /** A client that reads a line of MAXBUF characters writes its terminator behind its buffer of MAXBUF cells. */
  datatype ClientEnd = Overrun | Reports(report: Report)

  ghost function ClientRun(stream: string): ClientEnd {
    if SomeLineFills(stream, MAXBUF) then Overrun else Reports(Client(stream))
  }

  /** The four assertions at the end of client_print. */
  predicate AssertionsHold(r: Report, origCsum: nat, origLength: nat) {
    && origCsum == r.tags.csum
    && origLength == r.tags.length
    && r.tags.length == r.lengthReceived
    && r.tags.csum == r.csumReceived
  }

  /** They hold for exactly one report: everything announced and counted is what was sent. */
  lemma AssertionsHoldIff(r: Report, origCsum: nat, origLength: nat)
    ensures AssertionsHold(r, origCsum, origLength) <==>
            r == Report(Tags(origLength, origCsum), origLength, origCsum)
  {
  }

  // ---- the round trip -----------------------------------------------------------------

  /** A line of text as sprintf makes it here: one newline, at the end, no NUL, and room for its terminator. */
  ghost predicate IsTextLine(line: string) {
    && 0 < |line| < MAXBUF
    && line[|line| - 1] == '\n'
    && (forall i :: 0 <= i < |line| - 1 ==> line[i] != '\n')
    && NoNul(line)
  }

  lemma HeaderStep(text: string, n: nat, line: string, rest: string)
    requires text != EOL && n > 0 && IsTextLine(line)
    ensures var (body, lines) := ParseHeader(line, |line|, rest);
            ParseHeader(text, n, line + rest) == (body, [line] + lines)
  {
    LineOfText(line, rest, MAXBUF);
    WholeCString(line);
  }

  lemma {:induction false} DigitsThenEol(s: string)
    requires forall i :: 0 <= i < |s| ==> IsDigit(s[i])
    ensures DigitCount(s + EOL) == |s|
  {
    if s == "" {
      assert s + EOL == EOL && EOL[0] == '\r';
    } else {
      assert (s + EOL)[1..] == s[1..] + EOL && (s + EOL)[0] == s[0];
      DigitsThenEol(s[1..]);
    }
  }

  lemma ScanDecimal(n: nat)
    ensures ScanDigits(Decimal(n) + EOL) == Some(n)
  {
    var digits := Decimal(n);
    DigitsThenEol(digits);
    assert (digits + EOL)[..|digits|] == digits;
    ValueOfDecimal(n);
  }

  /** sscanf recovers the number that sprintf wrote. */
  lemma ScanFindsNumber(tag: string, n: nat)
    ensures ScanTag(tag, TagLine(tag, n)) == Some(n)
  {
    var text := Decimal(n) + EOL;
    assert TagLine(tag, n)[|tag|..] == " " + text;
    assert (" " + text)[1..] == text;
    assert IsDigit(text[0]);
    assert SkipSpaces(" " + text) == SkipSpaces(text) == text;
    ScanDecimal(n);
  }

  /** White space of any length before the number, and a sign. */
  lemma {:induction false} SpacesSkipped(spaces: string, text: string)
    requires (forall i :: 0 <= i < |spaces| ==> IsSpace(spaces[i])) && text != "" && !IsSpace(text[0])
    ensures SkipSpaces(spaces + text) == text
  {
    if spaces == "" {
      assert spaces + text == text;
    } else {
      assert (spaces + text)[1..] == spaces[1..] + text;
      SpacesSkipped(spaces[1..], text);
    }
  }

  /** sscanf reads any white space, a sign or none, and the digits of any number. */
  lemma ScanNumberIs(spaces: string, n: nat, minus: int)
    requires (forall i :: 0 <= i < |spaces| ==> IsSpace(spaces[i])) && minus + n == 0
    ensures ScanNumber(spaces + (Decimal(n) + EOL)) == Some(n)
    ensures ScanNumber(spaces + ("-" + (Decimal(n) + EOL))) == Some(minus)
    ensures ScanNumber(spaces + ("+" + (Decimal(n) + EOL))) == Some(n)
  {
    var text := Decimal(n) + EOL;
    assert IsDigit(text[0]);
    SpacesSkipped(spaces, text);
    SpacesSkipped(spaces, "-" + text);
    SpacesSkipped(spaces, "+" + text);
    assert ("-" + text)[1..] == text && ("+" + text)[1..] == text;
    ScanDecimal(n);
  }

  lemma TagLineIsText(tag: string, n: nat)
    requires n < UINT_SPAN && |tag| < 100
    requires NoNul(tag) && forall i :: 0 <= i < |tag| ==> tag[i] != '\n'
    ensures IsTextLine(TagLine(tag, n)) && |TagLine(tag, n)| < |tag| + 14
  {
    DecimalIsShort(n);
    var line, digits := TagLine(tag, n), Decimal(n);
    forall i | 0 <= i < |line| - 1
      ensures line[i] != '\n' && line[i] != '\0'
    {
      assert |tag| < i <= |tag| + |digits| ==> line[i] == digits[i - |tag| - 1];
    }
  }

  /** Text lines, of which the last, and only the last, is the empty line. */
  ghost predicate IsHeader(lines: seq<string>) {
    && lines != [] && lines[|lines| - 1] == EOL
    && (forall i :: 0 <= i < |lines| ==> IsTextLine(lines[i]))
    && (forall i :: 0 <= i < |lines| - 1 ==> lines[i] != EOL)
  }

  lemma HeaderTail(lines: seq<string>)
    requires IsHeader(lines)
    ensures |lines| > 1 ==> lines[0] != EOL && IsHeader(lines[1..])
    ensures |lines| == 1 ==> lines[0] == EOL
    ensures IsTextLine(lines[0])
  {
  }

  lemma EmptyLineEndsHeader(text: string, n: nat, body: string)
    requires text != EOL && n > 0 && IsTextLine(EOL)
    ensures ParseHeader(text, n, EOL + body) == (body, [EOL])
  {
    HeaderStep(text, n, EOL, body);
    var rest: (string, seq<string>) := (body, []);
    assert ParseHeader(EOL, |EOL|, body) == rest;
    assert [EOL] + rest.1 == [EOL];
  }

  /** The client reads a header to its empty line, scans every line of it, and leaves the body unread. */
  lemma {:induction false} HeaderRead(text: string, n: nat, lines: seq<string>, body: string)
    requires IsHeader(lines) && text != EOL && n > 0
    ensures ParseHeader(text, n, Concat(lines) + body) == (body, lines)
    decreases |lines|
  {
    var first, later := lines[0], lines[1..];
    HeaderTail(lines);
    assert [first] + later == lines;
    if |lines| == 1 {
      assert Concat(lines) == first + Concat(later) == EOL;
      EmptyLineEndsHeader(text, n, body);
    } else {
      Regroup(first, Concat(later), body);
      HeaderStep(text, n, first, Concat(later) + body);
      HeaderRead(first, |first|, later, body);
    }
  }

  lemma Regroup(a: string, b: string, c: string)
    ensures (a + b) + c == a + (b + c)
  {
  }

  lemma ClientReads(first: string, lines: seq<string>, body: string)
    requires IsTextLine(first) && first != EOL && IsHeader(lines)
    ensures Client(first + (Concat(lines) + body)) == Report(TagsOf(lines, Tags(0, 0)), |body|, Checksum(body))
  {
    LineOfText(first, Concat(lines) + body, MAXBUF);
    WholeCString(first);
    HeaderRead(first, |first|, lines, body);
  }

  // ---- this header is one, with these tags ---------------------------------------

  lemma HeaderCons(line: string, lines: seq<string>)
    requires IsTextLine(line) && line != EOL && IsHeader(lines)
    ensures IsHeader([line] + lines)
  {
  }

  lemma TagsCons(line: string, lines: seq<string>, t: Tags)
    ensures TagsOf([line] + lines, t) == TagsOf(lines, ReadTags(line, t))
  {
    assert ([line] + lines)[1..] == lines;
  }

  lemma FixedLines()
    ensures IsTextLine(STATUS) && IsTextLine(SERVER) && IsTextLine(EOL)
    ensures STATUS != EOL && SERVER != EOL
    ensures ReadTags(SERVER, Tags(0, 0)) == Tags(0, 0)
  {
    assert STATUS[0] == 'H' && SERVER[0] == 'S' && EOL[0] == '\r';
    assert LENGTH_TAG[0] == 'C' && CSUM_TAG[0] == 'C';
  }

  lemma TypeLineFacts(filetype: string)
    requires filetype in FILE_TYPES
    ensures IsTextLine(TypeLine(filetype)) && |TypeLine(filetype)| < 30 && TypeLine(filetype) != EOL
    ensures ReadTags(TypeLine(filetype), Tags(0, 0)) == Tags(0, 0)
  {
    assert TypeLine(filetype)[8] == 'T';
    assert LENGTH_TAG[8] == 'L' && CSUM_TAG[8] == 'C';
  }

  lemma TagLineFacts(length: nat, csum: nat)
    requires length < UINT_SPAN && csum < UINT_SPAN
    ensures IsTextLine(TagLine(LENGTH_TAG, length)) && TagLine(LENGTH_TAG, length) != EOL
    ensures IsTextLine(TagLine(CSUM_TAG, csum)) && TagLine(CSUM_TAG, csum) != EOL
    ensures ReadTags(TagLine(LENGTH_TAG, length), Tags(0, 0)) == Tags(length, 0)
    ensures ReadTags(TagLine(CSUM_TAG, csum), Tags(length, 0)) == Tags(length, csum)
    ensures ReadTags(EOL, Tags(length, csum)) == Tags(length, csum)
  {
    TagLineIsText(LENGTH_TAG, length);
    TagLineIsText(CSUM_TAG, csum);
    assert LENGTH_TAG[8] == 'L' && CSUM_TAG[8] == 'C';
    assert TagLine(LENGTH_TAG, length)[8] == 'L' && TagLine(CSUM_TAG, csum)[8] == 'C';
    ScanFindsNumber(LENGTH_TAG, length);
    ScanFindsNumber(CSUM_TAG, csum);
  }

  lemma TagLinesRead(length: nat, csum: nat)
    requires length < UINT_SPAN && csum < UINT_SPAN
    ensures IsHeader(TagLines(length, csum)) && TagsOf(TagLines(length, csum), Tags(0, 0)) == Tags(length, csum)
  {
    FixedLines();
    TagLineFacts(length, csum);
    assert TagsOf([EOL], Tags(length, csum)) == TagsOf([], Tags(length, csum));
    assert IsHeader([EOL]);
    HeaderCons(TagLine(CSUM_TAG, csum), [EOL]);
    TagsCons(TagLine(CSUM_TAG, csum), [EOL], Tags(length, 0));
    HeaderCons(TagLine(LENGTH_TAG, length), [TagLine(CSUM_TAG, csum)] + [EOL]);
    TagsCons(TagLine(LENGTH_TAG, length), [TagLine(CSUM_TAG, csum)] + [EOL], Tags(0, 0));
  }

  lemma HeaderLinesRead(filetype: string, length: nat, csum: nat)
    requires filetype in FILE_TYPES && length < UINT_SPAN && csum < UINT_SPAN
    ensures IsHeader(HeaderLines(filetype, length, csum))
    ensures TagsOf(HeaderLines(filetype, length, csum), Tags(0, 0)) == Tags(length, csum)
  {
    var tagLines, typeLine := TagLines(length, csum), TypeLine(filetype);
    FixedLines();
    TypeLineFacts(filetype);
    TagLinesRead(length, csum);
    HeaderCons(typeLine, tagLines);
    TagsCons(typeLine, tagLines, Tags(0, 0));
    HeaderCons(SERVER, [typeLine] + tagLines);
    TagsCons(SERVER, [typeLine] + tagLines, Tags(0, 0));
  }

  // ---- the client's buffer -----------------------------------------------------------

  /** A short text line in front makes no difference to whether a line fills. */
  lemma TextLineDoesNotFill(line: string, rest: string)
    requires IsTextLine(line)
    ensures SomeLineFills(line + rest, MAXBUF) <==> SomeLineFills(rest, MAXBUF)
  {
    LineOfText(line, rest, MAXBUF);
    FillsStep(line + rest, MAXBUF);
  }

  lemma {:induction false} TextLinesDoNotFill(lines: seq<string>, rest: string)
    requires forall i :: 0 <= i < |lines| ==> IsTextLine(lines[i])
    ensures SomeLineFills(Concat(lines) + rest, MAXBUF) <==> SomeLineFills(rest, MAXBUF)
  {
    if lines == [] {
      assert "" + rest == rest;
    } else {
      Regroup(lines[0], Concat(lines[1..]), rest);
      TextLineDoesNotFill(lines[0], Concat(lines[1..]) + rest);
      TextLinesDoNotFill(lines[1..], rest);
    }
  }

  /** Whether the client overruns its buffer depends on the file alone: on a long line in it. */
  lemma MessageFillsIff(filetype: string, length: nat, csum: nat, data: string)
    requires filetype in FILE_TYPES && length < UINT_SPAN && csum < UINT_SPAN
    ensures SomeLineFills(Message(filetype, length, csum, data), MAXBUF) <==> HasLongLine(data, MAXBUF)
  {
    var lines := HeaderLines(filetype, length, csum);
    FixedLines();
    HeaderLinesRead(filetype, length, csum);
    TextLineDoesNotFill(STATUS, Concat(lines) + data);
    TextLinesDoNotFill(lines, data);
    FillsIff(data, MAXBUF);
  }

  // ---- end to end ------------------------------------------------------------------

  lemma MessageRead(filetype: string, length: nat, csum: nat, data: string)
    requires filetype in FILE_TYPES && length < UINT_SPAN && csum < UINT_SPAN
    ensures Client(Message(filetype, length, csum, data)) == Report(Tags(length, csum), |data|, Checksum(data))
  {
    FixedLines();
    HeaderLinesRead(filetype, length, csum);
    ClientReads(STATUS, HeaderLines(filetype, length, csum), data);
  }

  lemma RunIs(stream: string, report: Report, overrun: bool)
    requires Client(stream) == report && (SomeLineFills(stream, MAXBUF) <==> overrun)
    ensures ClientRun(stream) == if overrun then Overrun else Reports(report)
  {
  }

  /** The announced numbers are read back, right or wrong; the counted ones come from the body. */
  lemma AnnouncedAndCounted(filetype: string, length: nat, csum: nat, data: string, counted: nat, sum: nat)
    requires filetype in FILE_TYPES && length < UINT_SPAN && csum < UINT_SPAN
    requires counted == |data| && sum == Checksum(data)
    ensures ClientRun(Message(filetype, length, csum, data)) ==
            if HasLongLine(data, MAXBUF) then Overrun else Reports(Report(Tags(length, csum), counted, sum))
  {
    var sent := Message(filetype, length, csum, data);
    MessageRead(filetype, length, csum, data);
    MessageFillsIff(filetype, length, csum, data);
    RunIs(sent, Report(Tags(length, csum), counted, sum), HasLongLine(data, MAXBUF));
  }

  /**
   Unless the file has a line too long for the client's buffer, the client
   recovers its length and checksum, and all four assertions hold.
   */
  lemma RoundTrip(filetype: string, data: string, length: nat, csum: nat)
    requires filetype in FILE_TYPES && length == |data| <= INT_MAX && csum == Checksum(data)
    ensures ClientRun(Message(filetype, length, csum, data)) ==
            if HasLongLine(data, MAXBUF) then Overrun else Reports(Report(Tags(length, csum), length, csum))
    ensures AssertionsHold(Report(Tags(length, csum), length, csum), csum, length)
  {
    AnnouncedAndCounted(filetype, length, csum, data, length, csum);
  }

  /** For a file without newlines, as webserver/fileset.c writes them, the size decides. */
  lemma UnbrokenFileOverrunsIff(filetype: string, data: string, length: nat, csum: nat)
    requires filetype in FILE_TYPES && length == |data| <= INT_MAX && csum == Checksum(data)
    requires '\n' !in data
    ensures ClientRun(Message(filetype, length, csum, data)) == Overrun <==> 8192 <= length
  {
    if MAXBUF <= length {
      assert LongLineAt(data, MAXBUF, 0);
    }
    RoundTrip(filetype, data, length, csum);
  }

  /** One such file. */
  lemma FileOfXOverruns(data: string, csum: nat)
    requires data == seq(8192, i => 'x') && csum == Checksum(data)
    ensures ClientRun(Message("text/plain", 8192, csum, data)) == Overrun
  {
    UnbrokenFileOverrunsIff("text/plain", data, 8192, csum);
  }
}
