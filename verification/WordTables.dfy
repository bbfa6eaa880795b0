/** The hash table of warmup/wc.c in memory: an array of linked chains whose counts change in place. */
module WordTables {
  import opened CStrings
  import opened WordCount

  class Item {
    const key: string
    var count: int
    var next: Item?

    constructor (key: string, count: int)
      ensures this.key == key && this.count == count && next == null
    {
      this.key := key;
      this.count := count;
      next := null;
    }
  }

  function At(chain: seq<Item>, i: nat): Item? {
    if i < |chain| then chain[i] else null
  }

  class WordTable {
    const hash: string -> nat
    const size: nat
    const items: array<Item?>
    var elementCount: int
    ghost var chains: seq<seq<Item>>
    /** The entries of every bucket, front to back. */
    ghost var rows: seq<seq<Entry>>
    ghost var Repr: set<object>

    /** The i-th item of a chain holds its entry and leads to the next item. */
    ghost predicate Link(chain: seq<Item>, row: seq<Entry>, i: int)
      requires 0 <= i < |chain| == |row|
      reads chain[i]
    {
      chain[i].key == row[i].key && chain[i].count == row[i].count && chain[i].next == At(chain, i + 1)
    }

    ghost predicate BucketOk(chain: seq<Item>, row: seq<Entry>, first: Item?)
      reads chain
    {
      && |chain| == |row|
      && first == At(chain, 0)
      && forall i :: 0 <= i < |chain| ==> Link(chain, row, i)
    }

    ghost predicate Valid()
      reads this, Repr
    {
      && this in Repr && items in Repr
      && items.Length == size == |chains| == |rows|
      && IsHash(hash, size) && TableOk(hash, rows)
      && (forall b :: 0 <= b < size ==> forall n :: n in chains[b] ==> n in Repr)
      && forall b :: 0 <= b < size ==> BucketOk(chains[b], rows[b], items[b])
    }

    /** calloc: every bucket starts empty. */
    constructor (hash: string -> nat, size: nat)
      requires IsHash(hash, size)
      ensures Valid() && fresh(Repr) && this.hash == hash && this.size == size
      ensures rows == EmptyTable(size) && elementCount == 0
    {
      this.hash := hash;
      this.size := size;
      items := new Item?[size](i => null);
      elementCount := 0;
      chains := seq(size, i => []);
      rows := EmptyTable(size);
      Repr := {this, items};
    }

    /** No item is in two places: its key says where it belongs. */
    lemma Apart(b: nat, i: nat, c: nat, j: nat)
      requires Valid() && b < size && i < |chains[b]| && c < size && j < |chains[c]|
      requires chains[b][i] == chains[c][j]
      ensures b == c && i == j
    {
      assert BucketOk(chains[b], rows[b], items[b]) && BucketOk(chains[c], rows[c], items[c]);
      assert Link(chains[b], rows[b], i) && Link(chains[c], rows[c], j);
      assert ChainOk(hash, rows[b], b) && ChainOk(hash, rows[c], c);
    }

    /** Walks the chain: the item of the word, or else the last item. */
    method Search(b: nat, word: string) returns (found: bool, item: Item, ghost k: nat)
      requires Valid() && b < size && items[b] != null
      ensures k < |chains[b]| && item == chains[b][k]
      ensures forall i :: 0 <= i < k ==> rows[b][i].key != word
      ensures found <==> item.key == word
      ensures found ==> Entry(word, item.count) in rows[b]
      ensures !found ==> forall e :: e in rows[b] ==> e.key != word
      ensures found ==> rows[b][k] == Entry(word, item.count)
      ensures !found ==> k == |chains[b]| - 1 && rows[b][k].key != word
    {
      ghost var chain := chains[b];
      assert BucketOk(chain, rows[b], items[b]);
      var temp := items[b];
      item := items[b];
      k := 0;
      ghost var i := 0;
      while temp != null
        invariant 0 <= i <= |chain| && temp == At(chain, i)
        invariant i > 0 ==> k == i - 1 && item == chain[k]
        invariant forall j :: 0 <= j < i ==> rows[b][j].key != word
        decreases |chain| - i
      {
        assert Link(chain, rows[b], i);
        k := i;
        item := temp;
        if temp.key == word {
          return true, item, k;
        }
        temp := temp.next;
        i := i + 1;
      }
      assert Link(chain, rows[b], k);
      found := false;
    }

    /** temp->count++ on the k-th item of bucket b. */
    method CountUp(b: nat, item: Item, ghost k: nat)
      requires Valid() && b < size && k < |chains[b]| && item == chains[b][k]
      modifies this, item
      ensures Valid() && Repr == old(Repr)
      ensures elementCount == old(elementCount)
      ensures rows == old(rows)[b := old(rows)[b][k := Entry(item.key, old(rows)[b][k].count + 1)]]
    {
      assert BucketOk(chains[b], rows[b], items[b]) && Link(chains[b], rows[b], k);
      forall c, j | 0 <= c < size && 0 <= j < |chains[c]| && chains[c][j] == item
        ensures c == b && j == k
      {
        Apart(b, k, c, j);
      }
      item.count := item.count + 1;
      rows := rows[b := rows[b][k := Entry(item.key, rows[b][k].count + 1)]];
      forall c | 0 <= c < size ensures BucketOk(chains[c], rows[c], items[c]) {
        assert old(BucketOk(chains[c], rows[c], items[c]));
        forall j | 0 <= j < |chains[c]| ensures Link(chains[c], rows[c], j) {
          assert old(Link(chains[c], rows[c], j));
        }
      }
    }

    /** Links a new item behind the last one of bucket b, or puts it in the empty bucket. */
    method AddItem(b: nat, last: Item?, word: string)
      requires Valid() && b < size && hash(word) == b
      requires last == (if chains[b] == [] then null else chains[b][|chains[b]| - 1])
      requires forall i :: 0 <= i < |rows[b]| ==> rows[b][i].key != word
      modifies this, items, if last == null then {} else {last}
      ensures Valid() && fresh(Repr - old(Repr))
      ensures elementCount == old(elementCount)
      ensures rows == old(rows)[b := old(rows)[b] + [Entry(word, 1)]]
    {
      ghost var n := |chains[b]|;
      assert BucketOk(chains[b], rows[b], items[b]);
      if n > 0 {
        forall c, j | 0 <= c < size && 0 <= j < |chains[c]| && chains[c][j] == last
          ensures c == b && j == n - 1
        {
          Apart(b, n - 1, c, j);
        }
      }
      var item := new Item(word, 1);
      if last == null {
        items[b] := item;
      } else {
        last.next := item;
      }
      ghost var row := rows[b] + [Entry(word, 1)];
      assert ChainOk(hash, row, b) by {
        assert ChainOk(hash, rows[b], b);
      }
      chains := chains[b := chains[b] + [item]];
      rows := rows[b := row];
      Repr := Repr + {item};
      forall c | 0 <= c < size ensures BucketOk(chains[c], rows[c], items[c]) {
        assert old(BucketOk(chains[c], rows[c], items[c]));
        forall j | 0 <= j < |chains[c]| ensures Link(chains[c], rows[c], j) {
          assert j < |old(chains)[c]| ==> old(Link(chains[c], rows[c], j));
        }
      }
    }

    /** Counts the word in bucket b. */
    method CountIn(b: nat, word: string)
      requires Valid() && b < size && hash(word) == b
      modifies Repr
      ensures Valid() && fresh(Repr - old(Repr))
      ensures elementCount == old(elementCount)
      ensures rows == old(rows)[b := Bump(old(rows)[b], word)]
    {
      assert BucketOk(chains[b], rows[b], items[b]);
      if items[b] == null {
        BumpPlace(rows[b], word, 0);
        AddItem(b, null, word);
        return;
      }
      var found, item, k := Search(b, word);
      assert item in chains[b];
      BumpPlace(rows[b], word, if found then k else k + 1);
      if found {
        assert Link(chains[b], rows[b], k);
        CountUp(b, item, k);
      } else {
        AddItem(b, item, word);
      }
    }

    /** One round of wc_init at the end of a word. */
    method Insert(word: string)
      requires Valid() && size > 0
      modifies Repr
      ensures Valid() && fresh(Repr - old(Repr))
      ensures elementCount == old(elementCount) + 1
      ensures rows == WordCount.Insert(hash, old(rows), word)
    {
      elementCount := elementCount + 1;
      var b := hash(word);
      CountIn(b, word);
    }

    /** The table and its counter are those for these words. */
    ghost predicate Counts(words: seq<string>)
      requires IsHash(hash, size)
      reads this
    {
      && (words != [] ==> size > 0)
      && rows == Tabulate(hash, words, size)
      && elementCount == |words|
    }

    /** The table after one more word of the text. */
    method InsertNext(word: string, ghost words: seq<string>)
      requires Valid() && size > 0 && Counts(words)
      modifies Repr
      ensures Valid() && fresh(Repr - old(Repr)) && Counts(words + [word])
    {
      TabulateStep(hash, words, word, size);
      Insert(word);
    }

    /** wc_output, as the lines it prints. */
    method Output() returns (lines: seq<Entry>)
      requires Valid()
      ensures lines == Listing(rows)
    {
      lines := [];
      for b := 0 to size
        invariant lines == Listing(rows[..b])
      {
        ghost var before := lines;
        assert BucketOk(chains[b], rows[b], items[b]);
        var ptr := items[b];
        ghost var i := 0;
        while ptr != null
          invariant 0 <= i <= |chains[b]| && ptr == At(chains[b], i)
          invariant lines == before + rows[b][..i]
          decreases |chains[b]| - i
        {
          assert Link(chains[b], rows[b], i);
          assert rows[b][..i + 1] == rows[b][..i] + [Entry(ptr.key, ptr.count)];
          lines := lines + [Entry(ptr.key, ptr.count)];
          ptr := ptr.next;
          i := i + 1;
        }
        assert rows[b][..i] == rows[b];
        assert rows[..b + 1][..b] == rows[..b];
      }
      assert rows[..size] == rows;
    }
  }

  /** hash_function. */
  method HashIndex(key: string, size: nat) returns (b: nat)
    requires size > 0
    ensures b == Bucket(key, size)
  {
    var hash := 5381;
    for i := 0 to |key|
      invariant hash == Hash(key[..i])
    {
      assert key[..i + 1][..i] == key[..i];
      hash := (hash * 33 + Signed(key[i])) % ULONG_SPAN;
    }
    assert key[..|key|] == key;
    return hash % size;
  }

  /** What one more character does to the words and to the length of the open word. */
  lemma NextWord(front: string, c: char, whole: string, n: nat)
    requires whole == front + [c] && n == |Open(front)|
    ensures n <= |front|
    ensures |Open(whole)| == if IsSpace(c) then 0 else n + 1
    ensures Words(whole) == if IsSpace(c) && n > 0 then Words(front) + [front[|front| - n..]] else Words(front)
  {
    assert whole[..|front|] == front;
  }

  lemma TabulateStep(hash: string -> nat, words: seq<string>, word: string, size: nat)
    requires IsHash(hash, size) && size > 0
    ensures Tabulate(hash, words + [word], size) == WordCount.Insert(hash, Tabulate(hash, words, size), word)
  {
    assert (words + [word])[..|words|] == words;
  }

  /** One character of the pass: a word ends, white space is skipped, a word starts, or it goes on. */
  method TakeCharacter(wc: WordTable, text: array<char>, index: nat, counter: nat, headOfWord: nat,
                       ghost words: seq<string>)
    returns (counter': nat, headOfWord': nat)
    requires wc.Valid() && wc.size > 0 && wc.Counts(words)
    requires text !in wc.Repr
    requires counter <= index < text.Length && (counter > 0 ==> headOfWord == index - counter)
    modifies wc.Repr
    ensures wc.Valid() && fresh(wc.Repr - old(wc.Repr))
    ensures wc.Counts(if IsSpace(text[index]) && counter > 0 then words + [text[index - counter..index]] else words)
    ensures counter' == if IsSpace(text[index]) then 0 else counter + 1
    ensures counter' > 0 ==> headOfWord' == index + 1 - counter'
  {
    counter', headOfWord' := counter, headOfWord;
    if IsSpace(text[index]) && counter > 0 {
      wc.InsertNext(text[headOfWord..headOfWord + counter], words);
      counter' := 0;
    } else if counter == 0 && IsSpace(text[index]) {
    } else if !IsSpace(text[index]) && counter == 0 {
      headOfWord' := index;
      counter' := 1;
    } else {
      counter' := counter + 1;
    }
  }

  /** What the pass knows after i characters. */
  ghost predicate Scanned(wc: WordTable, t: string, i: nat, counter: nat, headOfWord: nat)
    requires i <= |t| && IsHash(wc.hash, wc.size)
    reads wc
  {
    && wc.Counts(Words(t[..i]))
    && counter == |Open(t[..i])|
    && (counter > 0 ==> headOfWord == i - counter)
  }

  method ScanCharacter(wc: WordTable, text: array<char>, index: nat, counter: nat, headOfWord: nat)
    returns (counter': nat, headOfWord': nat)
    requires wc.Valid() && wc.size > 0 && text !in wc.Repr
    requires index < text.Length && Scanned(wc, text[..], index, counter, headOfWord)
    modifies wc.Repr
    ensures wc.Valid() && fresh(wc.Repr - old(wc.Repr))
    ensures Scanned(wc, old(text[..]), index + 1, counter', headOfWord')
  {
    ghost var t := text[..];
    NextWord(t[..index], t[index], t[..index + 1], counter);
    assert text[index - counter..index] == t[..index][index - counter..];
    counter', headOfWord' := TakeCharacter(wc, text, index, counter, headOfWord, Words(t[..index]));
  }

  /** wc_init: one pass over the text with the start and the length of the current word. */
  method WcInit(hash: string -> nat, text: array<char>) returns (wc: WordTable)
    requires IsHash(hash, 2 * text.Length)
    ensures wc.Valid() && fresh(wc.Repr)
    ensures wc.rows == Tabulate(hash, Words(text[..]), 2 * text.Length)
    ensures wc.elementCount == |Words(text[..])|
  {
    var counter, headOfWord := 0, 0;
    wc := new WordTable(hash, 2 * text.Length);
    ghost var t := text[..];
    for index := 0 to text.Length
      invariant wc.Valid() && fresh(wc.Repr) && wc.hash == hash && wc.size == 2 * text.Length
      invariant text[..] == t && Scanned(wc, t, index, counter, headOfWord)
    {
      counter, headOfWord := ScanCharacter(wc, text, index, counter, headOfWord);
    }
    assert t[..text.Length] == t;
  }

  /** The whole program on a text: its output lists each distinct word once, with its exact count. */
  method CountWords(text: array<char>) returns (lines: seq<Entry>, elementCount: int)
    ensures DistinctKeys(lines)
    ensures forall e: Entry :: e in lines <==> e.count == |Occurrences(text[..], e.key)| && e.count > 0
    ensures elementCount == |Words(text[..])|
  {
    var size := 2 * text.Length;
    var hash: string -> nat := (key: string) => if size > 0 then Bucket(key, size) else 0;
    var wc := WcInit(hash, text);
    elementCount := wc.elementCount;
    lines := wc.Output();
    ListingIsExact(hash, text[..], Entry("", 0));
    forall e: Entry
      ensures e in lines <==> e.count == |Occurrences(text[..], e.key)| && e.count > 0
    {
      ListingIsExact(hash, text[..], e);
    }
  }
}
