/**
 Counting words (warmup/wc.c), on values: which words a text has, and the hash
 table of counts that results from inserting them one by one.
 */
module WordCount {
  import opened CStrings

  // ---- words -----------------------------------------------------------------

  /** The characters after the last white space: the word that is being read. */
  function Open(text: string): (word: string)
    ensures |word| <= |text| && word == text[|text| - |word|..]
    ensures forall i :: 0 <= i < |word| ==> !IsSpace(word[i])
    ensures |word| < |text| ==> IsSpace(text[|text| - |word| - 1])
  {
    if text == "" || IsSpace(text[|text| - 1]) then ""
    else Open(text[..|text| - 1]) + [text[|text| - 1]]
  }

  /** The words that white space ends; a last word without any after it does not count. */
  function Words(text: string): seq<string> {
    if text == "" then []
    else
      var front := text[..|text| - 1];
      if IsSpace(text[|text| - 1]) && Open(front) != "" then Words(front) + [Open(front)] else Words(front)
  }

  /** How often x occurs in s. */
  function Times(x: string, s: seq<string>): nat {
    if s == [] then 0 else Times(x, s[..|s| - 1]) + if s[|s| - 1] == x then 1 else 0
  }

  /** An occurrence of the word: white space, or the start of the text, before it and white space at position end. */
  predicate EndsAt(text: string, word: string, end: int) {
    && word != "" && |word| <= end < |text|
    && (forall i :: 0 <= i < |word| ==> !IsSpace(word[i]))
    && text[end - |word|..end] == word
    && IsSpace(text[end])
    && (end == |word| || IsSpace(text[end - |word| - 1]))
  }

  function Occurrences(text: string, word: string): set<int> {
    set end | 0 <= end < |text| && EndsAt(text, word, end)
  }

  /** A suffix without white space that cannot be extended to the left. */
  ghost predicate IsOpen(text: string, word: string) {
    && |word| <= |text| && word == text[|text| - |word|..]
    && (forall i :: |text| - |word| <= i < |text| ==> !IsSpace(text[i]))
    && (|word| < |text| ==> IsSpace(text[|text| - |word| - 1]))
  }

  lemma OpenIsOpen(text: string)
    ensures IsOpen(text, Open(text))
  {
    var open := Open(text);
    forall i | |text| - |open| <= i < |text|
      ensures !IsSpace(text[i])
    {
      assert text[i] == open[i - (|text| - |open|)];
    }
  }

  lemma OpenLength(text: string, word: string, other: string)
    requires IsOpen(text, word) && IsOpen(text, other)
    ensures |word| >= |other|
  {
    assert |word| < |text| ==> IsSpace(text[|text| - |word| - 1]);
  }

  lemma OpenIff(text: string, word: string)
    ensures IsOpen(text, word) <==> word == Open(text)
  {
    OpenIsOpen(text);
    if IsOpen(text, word) {
      OpenLength(text, word, Open(text));
      OpenLength(text, Open(text), word);
    }
  }

  lemma EndIsOpen(text: string, word: string)
    requires text != "" && IsSpace(text[|text| - 1])
    ensures EndsAt(text, word, |text| - 1) <==> word != "" && IsOpen(text[..|text| - 1], word)
  {
    var front := text[..|text| - 1];
    if |word| <= |front| {
      assert text[|front| - |word|..|front|] == front[|front| - |word|..];
      if word == front[|front| - |word|..] {
        assert forall i :: |front| - |word| <= i < |front| ==> front[i] == word[i - (|front| - |word|)];
        assert forall i :: 0 <= i < |word| ==> word[i] == front[|front| - |word| + i];
      }
    }
  }

  lemma OpenIsTheWord(text: string, word: string)
    requires text != "" && IsSpace(text[|text| - 1])
    ensures EndsAt(text, word, |text| - 1) <==> word != "" && word == Open(text[..|text| - 1])
  {
    EndIsOpen(text, word);
    OpenIff(text[..|text| - 1], word);
  }

  /** Adding a character at the end changes nothing about the words that ended before. */
  lemma EarlierEnds(text: string, word: string, end: int)
    requires text != "" && 0 <= end < |text| - 1
    ensures EndsAt(text, word, end) <==> EndsAt(text[..|text| - 1], word, end)
  {
    if |word| <= end {
      assert text[end - |word|..end] == text[..|text| - 1][end - |word|..end];
    }
  }

  lemma OccurrencesGrow(text: string, word: string)
    requires text != ""
    ensures |Occurrences(text, word)| ==
            |Occurrences(text[..|text| - 1], word)| + if EndsAt(text, word, |text| - 1) then 1 else 0
  {
    var front, last := text[..|text| - 1], |text| - 1;
    forall end | 0 <= end < last
      ensures EndsAt(text, word, end) <==> EndsAt(front, word, end)
    {
      EarlierEnds(text, word, end);
    }
    assert Occurrences(text, word) ==
           Occurrences(front, word) + if EndsAt(text, word, last) then {last} else {};
  }

  /** The words are counted exactly: one for every occurrence in the text. */
  lemma {:induction false} WordsAreOccurrences(text: string, word: string)
    ensures Times(word, Words(text)) == |Occurrences(text, word)|
  {
    if text == "" {
      assert Occurrences(text, word) == {};
    } else {
      WordsAreOccurrences(text[..|text| - 1], word);
      OccurrencesGrow(text, word);
      if IsSpace(text[|text| - 1]) {
        OpenIsTheWord(text, word);
      }
    }
  }

  // ---- the hash ----------------------------------------------------------------

  const ULONG_SPAN := 0x1_0000_0000_0000_0000

  /** A char is signed. */
  function Signed(c: char): int {
    if c as int < 128 then c as int else c as int - 256
  }

  /** hash * 33 + c in unsigned long, over the whole key. */
  function Hash(key: string): (h: nat)
    ensures h < ULONG_SPAN
  {
    if key == "" then 5381 else (Hash(key[..|key| - 1]) * 33 + Signed(key[|key| - 1])) % ULONG_SPAN
  }

  function Power33(k: nat): nat {
    if k == 0 then 1 else 33 * Power33(k - 1)
  }

  /** The characters as signed digits to the base 33. */
  function Digits33(key: string): int {
    if key == "" then 0
    else
      var c := key[0] as int;
      (if c <= 127 then c else c - 256) * Power33(|key| - 1) + Digits33(key[1..])
  }

  lemma {:induction false} Digits33Append(key: string, c: char)
    ensures Digits33(key + [c]) == 33 * Digits33(key) + Signed(c)
  {
    if key == "" {
      assert key + [c] == [c] && [c][1..] == "";
    } else {
      assert (key + [c])[1..] == key[1..] + [c];
      Digits33Append(key[1..], c);
      Regroup33(if key[0] as int <= 127 then key[0] as int else key[0] as int - 256, Power33(|key| - 1));
    }
  }

  lemma Regroup33(d: int, p: int)
    ensures d * (33 * p) == 33 * (d * p)
  {
  }

  /** Wrapping at every step is the same as wrapping once. */
  lemma WrapOnce(h: int, c: int)
    ensures (h % ULONG_SPAN * 33 + c) % ULONG_SPAN == (h * 33 + c) % ULONG_SPAN
  {
    var q := h / ULONG_SPAN;
    assert h * 33 + c == (h % ULONG_SPAN * 33 + c) + (q * 33) * ULONG_SPAN;
    WrapMultiple(h % ULONG_SPAN * 33 + c, q * 33);
  }

  lemma WrapMultiple(x: int, q: int)
    ensures (x + q * ULONG_SPAN) % ULONG_SPAN == x % ULONG_SPAN
  {
  }

  /** The hash is a number to the base 33, with 5381 in front of the characters, modulo 2^64. */
  lemma {:induction false} HashIsPolynomial(key: string)
    ensures Hash(key) == (5381 * Power33(|key|) + Digits33(key)) % ULONG_SPAN
  {
    if key != "" {
      var front, c := key[..|key| - 1], key[|key| - 1];
      HashIsPolynomial(front);
      assert key == front + [c];
      Digits33Append(front, c);
      WrapOnce(5381 * Power33(|front|) + Digits33(front), Signed(c));
      Regroup33(5381, Power33(|front|));
    }
  }

  lemma HashOfA()
    ensures Hash("a") == 177670
  {
    assert "a"[..0] == "";
  }

  function Bucket(key: string, size: nat): (b: nat)
    requires size > 0
    ensures b < size
  {
    Hash(key) % size
  }

  // ---- the table ------------------------------------------------------------------

  datatype Entry = Entry(key: string, count: int)

  /** Counts the word in its chain, or adds it at the end. */
  function Bump(chain: seq<Entry>, word: string): seq<Entry> {
    if chain == [] then [Entry(word, 1)]
    else if chain[0].key == word then [Entry(word, chain[0].count + 1)] + chain[1..]
    else [chain[0]] + Bump(chain[1..], word)
  }

  /** The table works with any function from keys to buckets. */
  ghost predicate IsHash(hash: string -> nat, size: nat) {
    size > 0 ==> forall key :: hash(key) < size
  }

  function Insert(hash: string -> nat, table: seq<seq<Entry>>, word: string): seq<seq<Entry>>
    requires hash(word) < |table|
  {
    var b := hash(word);
    table[b := Bump(table[b], word)]
  }

  function EmptyTable(size: nat): seq<seq<Entry>> {
    seq(size, b => [])
  }

  /** The table after inserting the words in order. */
  ghost function Tabulate(hash: string -> nat, words: seq<string>, size: nat): (table: seq<seq<Entry>>)
    requires IsHash(hash, size) && (words != [] ==> size > 0)
    ensures |table| == size
  {
    if words == [] then EmptyTable(size)
    else Insert(hash, Tabulate(hash, words[..|words| - 1], size), words[|words| - 1])
  }

  function CountIn(chain: seq<Entry>, word: string): int {
    if chain == [] then 0
    else if chain[0].key == word then chain[0].count
    else CountIn(chain[1..], word)
  }

  // ---- the table counts the words ---------------------------------------------------

  ghost predicate ChainOk(hash: string -> nat, chain: seq<Entry>, b: int) {
    && (forall i :: 0 <= i < |chain| ==> hash(chain[i].key) == b && chain[i].count > 0)
    && forall i, j :: 0 <= i < j < |chain| ==> chain[i].key != chain[j].key
  }

  ghost predicate TableOk(hash: string -> nat, table: seq<seq<Entry>>) {
    forall b :: 0 <= b < |table| ==> ChainOk(hash, table[b], b)
  }

  /** Where Bump acts. */
  lemma {:induction false} BumpPlace(chain: seq<Entry>, word: string, k: nat)
    requires k <= |chain| && forall i :: 0 <= i < k ==> chain[i].key != word
    ensures k == |chain| ==> Bump(chain, word) == chain + [Entry(word, 1)]
    ensures k < |chain| && chain[k].key == word ==> Bump(chain, word) == chain[k := Entry(word, chain[k].count + 1)]
  {
    if k > 0 {
      BumpPlace(chain[1..], word, k - 1);
      assert chain == [chain[0]] + chain[1..];
    }
  }

  /** The position of the word in the chain, or the length of the chain. */
  function Position(chain: seq<Entry>, word: string): (k: nat)
    ensures k <= |chain|
    ensures forall i :: 0 <= i < k ==> chain[i].key != word
    ensures k < |chain| ==> chain[k].key == word
  {
    if chain == [] || chain[0].key == word then 0 else 1 + Position(chain[1..], word)
  }

  lemma {:induction false} CountPlace(chain: seq<Entry>, word: string)
    ensures var k := Position(chain, word);
            CountIn(chain, word) == if k < |chain| then chain[k].count else 0
  {
    if chain != [] && chain[0].key != word {
      CountPlace(chain[1..], word);
    }
  }

  lemma BumpOk(hash: string -> nat, chain: seq<Entry>, word: string)
    requires ChainOk(hash, chain, hash(word))
    ensures ChainOk(hash, Bump(chain, word), hash(word))
  {
    BumpPlace(chain, word, Position(chain, word));
  }

  lemma {:induction false} BumpCounts(chain: seq<Entry>, word: string, other: string)
    ensures CountIn(Bump(chain, word), other) == CountIn(chain, other) + if other == word then 1 else 0
  {
    if chain != [] && chain[0].key != word {
      BumpCounts(chain[1..], word, other);
    }
  }

  lemma {:induction false} TabulateOk(hash: string -> nat, words: seq<string>, size: nat)
    requires IsHash(hash, size) && size > 0
    ensures TableOk(hash, Tabulate(hash, words, size))
  {
    if words != [] {
      var front, word := words[..|words| - 1], words[|words| - 1];
      TabulateOk(hash, front, size);
      BumpOk(hash, Tabulate(hash, front, size)[hash(word)], word);
    }
  }

  /** Every word, in the text or not, is found with its exact number of occurrences. */
  lemma {:induction false} TabulateCounts(hash: string -> nat, words: seq<string>, size: nat, word: string)
    requires IsHash(hash, size) && size > 0
    ensures CountIn(Tabulate(hash, words, size)[hash(word)], word) == Times(word, words)
  {
    if words != [] {
      var front, last := words[..|words| - 1], words[|words| - 1];
      TabulateCounts(hash, front, size, word);
      BumpCounts(Tabulate(hash, front, size)[hash(last)], last, word);
    }
  }

  function Sum(chain: seq<Entry>): int {
    if chain == [] then 0 else chain[0].count + Sum(chain[1..])
  }

  function Total(table: seq<seq<Entry>>): int {
    if table == [] then 0 else Sum(table[0]) + Total(table[1..])
  }

  lemma {:induction false} BumpAddsOne(chain: seq<Entry>, word: string)
    ensures Sum(Bump(chain, word)) == Sum(chain) + 1
  {
    if chain != [] && chain[0].key != word {
      BumpAddsOne(chain[1..], word);
      assert Bump(chain, word)[1..] == Bump(chain[1..], word);
    } else if chain != [] {
      assert Bump(chain, word)[1..] == chain[1..];
    }
  }

  lemma {:induction false} TotalUpdate(table: seq<seq<Entry>>, b: nat, chain: seq<Entry>)
    requires b < |table|
    ensures Total(table[b := chain]) == Total(table) - Sum(table[b]) + Sum(chain)
  {
    if b == 0 {
      assert table[0 := chain][1..] == table[1..];
    } else {
      assert table[b := chain][1..] == table[1..][b - 1 := chain];
      TotalUpdate(table[1..], b - 1, chain);
    }
  }

  lemma {:induction false} EmptyTotal(size: nat)
    ensures Total(EmptyTable(size)) == 0
  {
    if size > 0 {
      assert EmptyTable(size)[1..] == EmptyTable(size - 1);
      EmptyTotal(size - 1);
    }
  }

  /** The counts add up to the number of words. */
  lemma {:induction false} TabulateTotal(hash: string -> nat, words: seq<string>, size: nat)
    requires IsHash(hash, size) && (words != [] ==> size > 0)
    ensures Total(Tabulate(hash, words, size)) == |words|
  {
    if words == [] {
      EmptyTotal(size);
    } else {
      var front, word := words[..|words| - 1], words[|words| - 1];
      var table, b := Tabulate(hash, front, size), hash(word);
      TabulateTotal(hash, front, size);
      BumpAddsOne(table[b], word);
      TotalUpdate(table, b, Bump(table[b], word));
    }
  }

  // ---- the listing -------------------------------------------------------------------

  /** The entries in the order in which wc_output visits them. */
  function Listing(table: seq<seq<Entry>>): seq<Entry> {
    if table == [] then [] else Listing(table[..|table| - 1]) + table[|table| - 1]
  }

  ghost predicate DistinctKeys(entries: seq<Entry>) {
    forall i, j :: 0 <= i < j < |entries| ==> entries[i].key != entries[j].key
  }

  /** The first chains of a good table: in their listing all keys differ and hash below the bound. */
  lemma {:induction false} ListingDistinct(hash: string -> nat, table: seq<seq<Entry>>)
    requires TableOk(hash, table)
    ensures DistinctKeys(Listing(table))
    ensures forall i :: 0 <= i < |Listing(table)| ==> hash(Listing(table)[i].key) < |table|
  {
    if table != [] {
      ListingDistinct(hash, table[..|table| - 1]);
    }
  }

  /** They are listed bucket by bucket. */
  lemma {:induction false} ListingByBucket(hash: string -> nat, table: seq<seq<Entry>>, i: nat, j: nat)
    requires TableOk(hash, table) && i < j < |Listing(table)|
    ensures hash(Listing(table)[i].key) <= hash(Listing(table)[j].key)
  {
    var front := table[..|table| - 1];
    ListingDistinct(hash, front);
    if j < |Listing(front)| {
      ListingByBucket(hash, front, i, j);
    }
  }

  lemma {:induction false} ListingMembers(table: seq<seq<Entry>>, e: Entry)
    ensures e in Listing(table) <==> exists b :: 0 <= b < |table| && e in table[b]
  {
    if table != [] {
      var front := table[..|table| - 1];
      ListingMembers(front, e);
      assert forall b :: 0 <= b < |front| ==> front[b] == table[b];
    }
  }

  lemma MemberCount(hash: string -> nat, chain: seq<Entry>, b: int, e: Entry)
    requires ChainOk(hash, chain, b)
    ensures e in chain <==> CountIn(chain, e.key) == e.count && e.count > 0
  {
    CountPlace(chain, e.key);
    if e in chain {
      var i :| 0 <= i < |chain| && chain[i] == e;
      assert Position(chain, e.key) == i;
    }
  }

  /** The output has one line for every distinct word of the text, with its exact count. */
  lemma ListingIsExact(hash: string -> nat, text: string, e: Entry)
    requires IsHash(hash, 2 * |text|)
    ensures var listing := Listing(Tabulate(hash, Words(text), 2 * |text|));
            && DistinctKeys(listing)
            && (e in listing <==> e.count == |Occurrences(text, e.key)| && e.count > 0)
  {
    var words, size := Words(text), 2 * |text|;
    var table := Tabulate(hash, words, size);
    if text == "" {
      assert Occurrences(text, e.key) == {};
      return;
    }
    TabulateOk(hash, words, size);
    ListingDistinct(hash, table);
    ListingMembers(table, e);
    TabulateCounts(hash, words, size, e.key);
    WordsAreOccurrences(text, e.key);
    MemberCount(hash, table[hash(e.key)], hash(e.key), e);
  }
}
