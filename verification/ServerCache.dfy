/**
 The file cache of the web server (webserver/server_thread.c): a table of
 TABLE_SIZE chains, new entries at the front of their chain, and a byte budget.
 The hash is any function into the table.
 */
module ServerCache {
  import opened CommonTypes
  import opened CStrings
  import opened Tallies

  const TABLE_SIZE := 5381

  /** struct file_data: a buffer and the number of bytes that count. An empty file has no buffer. */
  datatype FileData = FileData(buf: string, size: nat)

  /** What the cache keeps, and hands out again: strdup copies the buffer only up to its first NUL. */
  function Copy(data: FileData): FileData {
    FileData(StrDup(data.buf), data.size)
  }

  datatype Chain = Null | Entry(name: string, data: FileData, next: Chain)

  /** maxBytes is max_cache_size, occupied is occupied_cache. */
  datatype Cache = Cache(table: seq<Chain>, occupied: int, maxBytes: int)

  ghost predicate IsHash(hash: string -> int) {
    forall name :: 0 <= hash(name) < TABLE_SIZE
  }

  function Find(chain: Chain, name: string): Option<FileData> {
    match chain
    case Null => None
    case Entry(n, data, next) => if n == name then Some(data) else Find(next, name)
  }

  function ChainBytes(chain: Chain): int {
    match chain
    case Null => 0
    case Entry(_, data, next) => data.size + ChainBytes(next)
  }

  function NewCache(maxBytes: int): Cache {
    Cache(seq(TABLE_SIZE, i => Null), 0, maxBytes)
  }

  /** cache_lookup. */
  function Lookup(hash: string -> int, c: Cache, name: string): Option<FileData>
    requires 0 <= hash(name) < |c.table|
  {
    Find(c.table[hash(name)], name)
  }

  /** cache_evict_helper: how many bytes are missing. */
  function ToEvict(maxBytes: int, size: int, occupied: int): int {
    size + occupied - maxBytes
  }

  /** Whether cache_insert stores the file. */
  predicate Accepts(hash: string -> int, c: Cache, name: string, data: FileData)
    requires 0 <= hash(name) < |c.table|
  {
    && data.size <= c.maxBytes
    && Lookup(hash, c, name).None?
    && ToEvict(c.maxBytes, data.size, c.occupied) <= 0
  }

  /** cache_insert. */
  function Insert(hash: string -> int, c: Cache, name: string, data: FileData): Cache
    requires 0 <= hash(name) < |c.table|
  {
    if Accepts(hash, c, name, data) then
      c.(table := c.table[hash(name) := Entry(name, Copy(data), c.table[hash(name)])],
         occupied := c.occupied + data.size)
    else c
  }

  // ---- the invariant ------------------------------------------------------

  /** Every name of the chain belongs there, and none occurs twice. */
  ghost predicate ChainOk(hash: string -> int, chain: Chain, slot: int) {
    match chain
    case Null => true
    case Entry(n, _, next) => hash(n) == slot && Find(next, n).None? && ChainOk(hash, next, slot)
  }

  ghost predicate CacheOk(hash: string -> int, c: Cache) {
    && IsHash(hash)
    && |c.table| == TABLE_SIZE
    && (forall i :: 0 <= i < TABLE_SIZE ==> ChainOk(hash, c.table[i], i))
    && c.occupied == Tally(c.table, ChainBytes)
    && (c.maxBytes >= 0 ==> c.occupied <= c.maxBytes)
  }

  lemma NewCacheOk(hash: string -> int, maxBytes: int)
    requires IsHash(hash)
    ensures CacheOk(hash, NewCache(maxBytes))
    ensures forall name :: Lookup(hash, NewCache(maxBytes), name) == None
  {
    TallyZero(NewCache(maxBytes).table, ChainBytes);
  }

  lemma InsertOk(hash: string -> int, c: Cache, name: string, data: FileData)
    requires CacheOk(hash, c)
    ensures CacheOk(hash, Insert(hash, c, name, data))
  {
    if Accepts(hash, c, name, data) {
      TallyUpdate(c.table, ChainBytes, hash(name), Entry(name, Copy(data), c.table[hash(name)]));
    }
  }

  // ---- the table is a bounded map ------------------------------------------

  /** Every name in a chain; a lookup through the hash must reach each of them. */
  function ChainNames(chain: Chain): set<string> {
    match chain
    case Null => {}
    case Entry(n, _, next) => {n} + ChainNames(next)
  }

  function TableNames(table: seq<Chain>): set<string> {
    if table == [] then {} else ChainNames(table[0]) + TableNames(table[1..])
  }

  ghost function AsMap(hash: string -> int, c: Cache): map<string, FileData>
    requires CacheOk(hash, c)
  {
    map name | name in TableNames(c.table) && Lookup(hash, c, name).Some? :: Lookup(hash, c, name).value
  }

  lemma {:induction false} FindIsMember(chain: Chain, name: string)
    ensures Find(chain, name).Some? <==> name in ChainNames(chain)
  {
    if chain.Entry? {
      FindIsMember(chain.next, name);
    }
  }

  lemma {:induction false} TableMember(table: seq<Chain>, name: string)
    ensures name in TableNames(table) <==> exists i :: 0 <= i < |table| && name in ChainNames(table[i])
  {
    if table != [] {
      TableMember(table[1..], name);
      if name in TableNames(table[1..]) {
        var i :| 0 <= i < |table| - 1 && name in ChainNames(table[1..][i]);
        assert table[i + 1] == table[1..][i];
      }
      if i :| 0 <= i < |table| && name in ChainNames(table[i]) {
        assert i > 0 ==> table[i] == table[1..][i - 1];
      }
    }
  }

  lemma {:induction false} MembersBelong(hash: string -> int, chain: Chain, slot: int, name: string)
    requires ChainOk(hash, chain, slot) && name in ChainNames(chain)
    ensures hash(name) == slot
  {
    if chain.name != name {
      MembersBelong(hash, chain.next, slot, name);
    }
  }

  /** A lookup hits exactly the names that are stored anywhere in the table. */
  lemma LookupHitsStored(hash: string -> int, c: Cache, name: string)
    requires CacheOk(hash, c)
    ensures Lookup(hash, c, name).Some? <==> name in TableNames(c.table)
    ensures Lookup(hash, c, name) == if name in AsMap(hash, c) then Some(AsMap(hash, c)[name]) else None
  {
    FindIsMember(c.table[hash(name)], name);
    TableMember(c.table, name);
    if name in TableNames(c.table) {
      var i :| 0 <= i < |c.table| && name in ChainNames(c.table[i]);
      MembersBelong(hash, c.table[i], i, name);
    }
  }

  /** An insert adds its key, or nothing; every other key keeps its value. */
  lemma InsertIsMapUpdate(hash: string -> int, c: Cache, name: string, data: FileData)
    requires CacheOk(hash, c)
    ensures CacheOk(hash, Insert(hash, c, name, data))
    ensures AsMap(hash, Insert(hash, c, name, data)) ==
      if data.size + c.occupied <= c.maxBytes && name !in AsMap(hash, c)
      then AsMap(hash, c)[name := Copy(data)]
      else AsMap(hash, c)
  {
    InsertOk(hash, c, name, data);
    LookupHitsStored(hash, c, name);
    var c' := Insert(hash, c, name, data);
    OccupiedIsNatural(c.table);
    forall other
      ensures Lookup(hash, c, other) == if other in AsMap(hash, c) then Some(AsMap(hash, c)[other]) else None
      ensures Lookup(hash, c', other) == if other in AsMap(hash, c') then Some(AsMap(hash, c')[other]) else None
      ensures Lookup(hash, c', other) ==
              if Accepts(hash, c, name, data) && other == name then Some(Copy(data)) else Lookup(hash, c, other)
    {
      LookupHitsStored(hash, c, other);
      LookupHitsStored(hash, c', other);
    }
  }

  lemma {:induction false} ChainBytesNatural(chain: Chain)
    ensures ChainBytes(chain) >= 0
  {
    if chain.Entry? {
      ChainBytesNatural(chain.next);
    }
  }

  lemma {:induction false} OccupiedIsNatural(table: seq<Chain>)
    ensures Tally(table, ChainBytes) >= 0
  {
    if table != [] {
      ChainBytesNatural(table[0]);
      OccupiedIsNatural(table[1..]);
    }
  }

  // ---- one entry per name ---------------------------------------------------

  function ChainEntries(chain: Chain, name: string): nat {
    match chain
    case Null => 0
    case Entry(n, _, next) => (if n == name then 1 else 0) + ChainEntries(next, name)
  }

  function TableEntries(table: seq<Chain>, name: string): nat {
    if table == [] then 0 else ChainEntries(table[0], name) + TableEntries(table[1..], name)
  }

  lemma {:induction false} EntriesOfChain(hash: string -> int, chain: Chain, slot: int, name: string)
    requires ChainOk(hash, chain, slot)
    ensures ChainEntries(chain, name) == if Find(chain, name).Some? then 1 else 0
    ensures hash(name) != slot ==> ChainEntries(chain, name) == 0
  {
    if chain.Entry? {
      EntriesOfChain(hash, chain.next, slot, name);
    }
  }

  lemma {:induction false} EntriesOfTable(hash: string -> int, table: seq<Chain>, first: int, name: string)
    requires forall i :: 0 <= i < |table| ==> ChainOk(hash, table[i], first + i)
    ensures TableEntries(table, name) ==
      if first <= hash(name) < first + |table| then ChainEntries(table[hash(name) - first], name) else 0
  {
    if table != [] {
      EntriesOfChain(hash, table[0], first, name);
      forall i | 0 <= i < |table| - 1
        ensures ChainOk(hash, table[1..][i], first + 1 + i)
      {
        assert table[1..][i] == table[i + 1];
      }
      EntriesOfTable(hash, table[1..], first + 1, name);
    }
  }

  /** A name has one entry in the whole table when a lookup finds it, otherwise none. */
  lemma OneEntryPerName(hash: string -> int, c: Cache, name: string)
    requires CacheOk(hash, c)
    ensures TableEntries(c.table, name) == if Lookup(hash, c, name).Some? then 1 else 0
  {
    EntriesOfTable(hash, c.table, 0, name);
    EntriesOfChain(hash, c.table[hash(name)], hash(name), name);
  }

  /** A second insert of the same file, after a second miss, leaves the cache as it is. */
  lemma SecondInsertDoesNothing(hash: string -> int, c: Cache, name: string, data: FileData)
    requires IsHash(hash) && |c.table| == TABLE_SIZE
    ensures Insert(hash, Insert(hash, c, name, data), name, data) == Insert(hash, c, name, data)
  {
  }

  // ---- the machine integers ---------------------------------------------------

  /** The sum in cache_evict_helper for a file that passed the first test of cache_insert. */
  ghost predicate SumsFit(maxBytes: int) {
    forall hash, c: Cache, data: FileData ::
      CacheOk(hash, c) && c.maxBytes == maxBytes && data.size <= maxBytes ==> data.size + c.occupied <= INT_MAX
  }

  /** It stays in range for every cache and file exactly up to a budget of 2^30 - 1 bytes. */
  lemma SumsFitIff(maxBytes: nat)
    ensures SumsFit(maxBytes) <==> maxBytes <= 0x3fff_ffff
  {
    if maxBytes > 0x3fff_ffff {
      var hash: string -> int := (name: string) => 0;
      var data := FileData(seq(maxBytes, i => 'x'), maxBytes);
      var full := Insert(hash, NewCache(maxBytes), "f", data);
      NewCacheOk(hash, maxBytes);
      InsertOk(hash, NewCache(maxBytes), "f", data);
      assert full.occupied == maxBytes;
    }
  }

  // ---- the table in memory -----------------------------------------------------

  datatype InsertEnd = Stored | NotStored | Crashed

  class CacheTable {
    const hash: string -> int
    const maxBytes: int
    const table: array<Chain>
    var occupied: int

    ghost function Abs(): Cache
      reads this, table
    {
      Cache(table[..], occupied, maxBytes)
    }

    ghost predicate Valid()
      reads this, table
    {
      CacheOk(hash, Abs())
    }

    constructor (hash: string -> int, maxBytes: int)
      requires IsHash(hash)
      ensures this.hash == hash && Abs() == NewCache(maxBytes)
      ensures Valid() && fresh(table)
    {
      this.hash := hash;
      this.maxBytes := maxBytes;
      table := new Chain[TABLE_SIZE](i => Null);
      occupied := 0;
      new;
      NewCacheOk(hash, maxBytes);
      assert table[..] == NewCache(maxBytes).table;
    }

    /** Walks the chain of the name's bucket. */
    method CacheLookup(name: string) returns (found: Option<FileData>)
      requires Valid()
      ensures found == if name in AsMap(hash, Abs()) then Some(AsMap(hash, Abs())[name]) else None
    {
      LookupHitsStored(hash, Abs(), name);
      var current := table[hash(name)];
      while current != Null
        invariant Find(current, name) == Lookup(hash, Abs(), name)
        decreases current
      {
        if current.name == name {
          return Some(current.data);
        }
        current := current.next;
      }
      return None;
    }

    /** Inserting an empty file that it accepts crashes the program, in strdup of a null buffer. */
    method CacheInsert(name: string, data: FileData) returns (end: InsertEnd)
      requires Valid()
      modifies table, this`occupied
      ensures Valid()
      ensures end.NotStored? <==> data.size + old(occupied) > maxBytes || name in AsMap(hash, old(Abs()))
      ensures end.Crashed? <==> !end.NotStored? && data.size == 0
      ensures Abs() == if end.Crashed? then old(Abs()) else Insert(hash, old(Abs()), name, data)
    {
      ghost var was := Abs();
      InsertOk(hash, was, name, data);
      OccupiedIsNatural(was.table);
      LookupHitsStored(hash, was, name);
      if data.size > maxBytes {
        return NotStored;
      }
      var found := CacheLookup(name);
      if found.Some? {
        return NotStored;
      }
      if ToEvict(maxBytes, data.size, occupied) > 0 {
        return NotStored;
      }
      if data.size == 0 {
        return Crashed;
      }
      var key := hash(name);
      table[key] := Entry(name, Copy(data), table[key]);
      occupied := occupied + data.size;
      assert Abs() == Insert(hash, was, name, data);
      return Stored;
    }
  }
}
