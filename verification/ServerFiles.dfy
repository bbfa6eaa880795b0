/**
 Serving files through the shared cache (do_server_request in
 webserver/server_thread.c): any number of workers interleave lookups, reads
 and inserts. The file system is a fixed function from names to contents; None
 stands for a file that request_readfile refuses. The reference is a server
 that reads every file from disk.
 */
module ServerFiles {
  import opened CommonTypes
  import opened CStrings
  import opened ServerCache

  type Disk = string -> Option<string>

  /** `size` is the file size when the request has just been parsed. */
  datatype Phase =
    | Free
    | Asked(name: string, size: nat)
    | Missed(name: string)
    | Loaded(name: string, data: FileData)
    | Ready(name: string, data: FileData)

  /** What a client gets: an error, a body, or a body that is read past the end of its buffer. */
  datatype Answer = Refused | Sent(body: string) | Overrun

  /** A worker and its history: the names it was asked for and what it answered. */
  datatype Worker = Worker(phase: Phase, asked: seq<string>, answers: seq<Answer>)

  datatype World = World(cache: Cache, crashed: bool, workers: seq<Worker>)

  /** One step of one worker; the steps that touch the cache run under its mutex. */
  datatype Action =
    | Begin(w: nat, name: string)
    | LookUp(w: nat)
    | ReadFile(w: nat)
    | Store(w: nat)
    | Send(w: nat)

  function Init(maxBytes: int, workers: nat): World {
    World(NewCache(maxBytes), false, seq(workers, i => Worker(Free, [], [])))
  }

  /** The test that is meant to skip a cache of no size. */
  predicate SkipsCache(s: World, size: int) {
    s.cache.maxBytes < size
  }

  predicate Enabled(s: World, a: Action) {
    && !s.crashed
    && a.w < |s.workers|
    && var phase := s.workers[a.w].phase;
       match a
       case Begin(_, _) => phase.Free?
       case LookUp(_) => phase.Asked? && !SkipsCache(s, phase.size)
       case ReadFile(_) => phase.Missed? || (phase.Asked? && SkipsCache(s, phase.size))
       case Store(_) => phase.Loaded?
       case Send(_) => phase.Ready?
  }

  /** request_sendfile writes `size` bytes from the buffer. */
  function Body(data: FileData): Answer {
    if data.size <= |data.buf| then Sent(data.buf[..data.size]) else Overrun
  }

  function SetPhase(s: World, w: nat, phase: Phase): World
    requires w < |s.workers|
  {
    s.(workers := s.workers[w := s.workers[w].(phase := phase)])
  }

  function Reply(s: World, w: nat, answer: Answer): World
    requires w < |s.workers|
  {
    var worker := s.workers[w];
    s.(workers := s.workers[w := worker.(phase := Free, answers := worker.answers + [answer])])
  }

  function DoRead(disk: Disk, s: World, w: nat): World
    requires w < |s.workers| && (s.workers[w].phase.Asked? || s.workers[w].phase.Missed?)
  {
    var phase := s.workers[w].phase;
    match disk(phase.name)
    case None => Reply(s, w, Refused)
    case Some(text) =>
      var data := FileData(text, |text|);
      SetPhase(s, w, if phase.Asked? then Ready(phase.name, data) else Loaded(phase.name, data))
  }

  /** An empty file that fits has a null buffer, which strdup dereferences. */
  function DoStore(hash: string -> int, s: World, w: nat): World
    requires w < |s.workers| && s.workers[w].phase.Loaded?
    requires IsHash(hash) && |s.cache.table| == TABLE_SIZE
  {
    var name, data := s.workers[w].phase.name, s.workers[w].phase.data;
    if Accepts(hash, s.cache, name, data) && data.size == 0 then s.(crashed := true)
    else SetPhase(s.(cache := Insert(hash, s.cache, name, data)), w, Ready(name, data))
  }

  function Next(hash: string -> int, disk: Disk, s: World, a: Action): World
    requires Enabled(s, a) && IsHash(hash) && |s.cache.table| == TABLE_SIZE
  {
    var worker := s.workers[a.w];
    match a
    case Begin(w, name) =>
      s.(workers := s.workers[w := worker.(phase := Asked(name, 0), asked := worker.asked + [name])])
    case LookUp(w) =>
      var name := worker.phase.name;
      SetPhase(s, w, match Lookup(hash, s.cache, name)
                     case Some(data) => Ready(name, Copy(data))
                     case None => Missed(name))
    case ReadFile(w) => DoRead(disk, s, w)
    case Store(w) => DoStore(hash, s, w)
    case Send(w) => Reply(s, w, Body(worker.phase.data))
  }

  // ---- copies ------------------------------------------------------------------

  /** A file that survives strdup: it has a buffer, and no NUL but perhaps its last byte. */
  predicate Whole(text: string) {
    text != "" && NoNul(text[..|text| - 1])
  }

  /** The copy of a file sends the file if and only if it is whole; otherwise its buffer is too short. */
  lemma CopySends(text: string)
    requires text != ""
    ensures Body(Copy(FileData(text, |text|))) == if Whole(text) then Sent(text) else Overrun
  {
    var kept, last := CString(text), |text| - 1;
    if Whole(text) {
      if text[last] == '\0' {
        CStringIs(text, last);
        assert StrDup(text) == text;
      } else {
        assert NoNul(text) by {
          assert forall i :: 0 <= i < last ==> text[i] == text[..last][i];
        }
        WholeCString(text);
      }
      assert StrDup(text)[..|text|] == text;
    } else {
      var i :| 0 <= i < last && text[..last][i] == '\0';
      assert text[i] == '\0';
    }
  }

  lemma CopyTwice(data: FileData)
    ensures Copy(Copy(data)) == Copy(data)
  {
    StrDupTwice(data.buf);
  }

  // ---- the invariant ---------------------------------------------------------

  function Direct(disk: Disk, name: string): Answer {
    match disk(name)
    case None => Refused
    case Some(text) => Sent(text)
  }

  /** What a server that always reads the file would have answered. */
  function Uncached(disk: Disk, names: seq<string>): seq<Answer> {
    seq(|names|, i requires 0 <= i < |names| => Direct(disk, names[i]))
  }

  /** A file that the cache takes but does not keep whole. */
  predicate Spoils(disk: Disk, maxBytes: int, name: string) {
    disk(name).Some? && |disk(name).value| <= maxBytes && !Whole(disk(name).value)
  }

  predicate Right(disk: Disk, maxBytes: int, name: string, answer: Answer) {
    answer == Direct(disk, name) || (answer == Overrun && Spoils(disk, maxBytes, name))
  }

  predicate WorkerOk(disk: Disk, maxBytes: int, worker: Worker) {
    var n := |worker.asked|;
    && |worker.answers| == (if worker.phase.Free? then n else n - 1)
    && (forall i :: 0 <= i < |worker.answers| ==> Right(disk, maxBytes, worker.asked[i], worker.answers[i]))
    && (!worker.phase.Free? ==> worker.phase.name == worker.asked[n - 1])
    && match worker.phase
       case Asked(_, size) => size == 0
       case Loaded(name, data) => disk(name) == Some(data.buf) && data.size == |data.buf|
       case Ready(name, data) => Right(disk, maxBytes, name, Body(data))
       case _ => true
  }

  ghost predicate CacheHolds(hash: string -> int, disk: Disk, c: Cache)
    requires IsHash(hash) && |c.table| == TABLE_SIZE
  {
    forall name :: Lookup(hash, c, name).Some? ==>
      && disk(name).Some? && disk(name).value != "" && |disk(name).value| <= c.maxBytes
      && Lookup(hash, c, name).value == Copy(FileData(disk(name).value, |disk(name).value|))
  }

  ghost predicate Ok(hash: string -> int, disk: Disk, s: World) {
    && CacheOk(hash, s.cache)
    && CacheHolds(hash, disk, s.cache)
    && (s.crashed ==> exists name :: disk(name) == Some("") && Spoils(disk, s.cache.maxBytes, name))
    && forall w :: 0 <= w < |s.workers| ==> WorkerOk(disk, s.cache.maxBytes, s.workers[w])
  }

  lemma LookUpOk(hash: string -> int, disk: Disk, s: World, w: nat)
    requires Ok(hash, disk, s) && Enabled(s, LookUp(w))
    ensures Ok(hash, disk, Next(hash, disk, s, LookUp(w)))
  {
    var name := s.workers[w].phase.name;
    if Lookup(hash, s.cache, name).Some? {
      var data := Lookup(hash, s.cache, name).value;
      CopyTwice(FileData(disk(name).value, |disk(name).value|));
      assert Copy(data) == data;
      CopySends(disk(name).value);
    }
  }

  lemma StoreOk(hash: string -> int, disk: Disk, s: World, w: nat)
    requires Ok(hash, disk, s) && Enabled(s, Store(w))
    ensures Ok(hash, disk, Next(hash, disk, s, Store(w)))
  {
    var name, data := s.workers[w].phase.name, s.workers[w].phase.data;
    InsertOk(hash, s.cache, name, data);
    assert WorkerOk(disk, s.cache.maxBytes, s.workers[w]);
    assert data.buf[..|data.buf|] == data.buf;
    if Accepts(hash, s.cache, name, data) && data.size == 0 {
      assert disk(name) == Some("") && Spoils(disk, s.cache.maxBytes, name);
    }
  }

  lemma StepOk(hash: string -> int, disk: Disk, s: World, a: Action)
    requires Ok(hash, disk, s) && Enabled(s, a)
    ensures Ok(hash, disk, Next(hash, disk, s, a))
    ensures Next(hash, disk, s, a).cache.maxBytes == s.cache.maxBytes
    ensures |Next(hash, disk, s, a).workers| == |s.workers|
  {
    match a
    case LookUp(w) => LookUpOk(hash, disk, s, w);
    case Store(w) => StoreOk(hash, disk, s, w);
    case ReadFile(w) =>
      var text := disk(s.workers[w].phase.name);
      assert text.Some? ==> text.value[..|text.value|] == text.value;
    case _ =>
  }

  // ---- runs --------------------------------------------------------------------

  ghost predicate IsRun(hash: string -> int, disk: Disk, s: World, acts: seq<Action>)
    requires IsHash(hash)
    decreases |acts|
  {
    acts == [] || (&& Enabled(s, acts[0])
                   && |s.cache.table| == TABLE_SIZE
                   && IsRun(hash, disk, Next(hash, disk, s, acts[0]), acts[1..]))
  }

  ghost function After(hash: string -> int, disk: Disk, s: World, acts: seq<Action>): World
    requires IsHash(hash) && IsRun(hash, disk, s, acts)
    decreases |acts|
  {
    if acts == [] then s else After(hash, disk, Next(hash, disk, s, acts[0]), acts[1..])
  }

  lemma {:induction false} RunOk(hash: string -> int, disk: Disk, s: World, acts: seq<Action>)
    requires Ok(hash, disk, s) && IsRun(hash, disk, s, acts)
    ensures Ok(hash, disk, After(hash, disk, s, acts))
    ensures After(hash, disk, s, acts).cache.maxBytes == s.cache.maxBytes
    ensures |After(hash, disk, s, acts).workers| == |s.workers|
    decreases |acts|
  {
    if acts != [] {
      StepOk(hash, disk, s, acts[0]);
      RunOk(hash, disk, Next(hash, disk, s, acts[0]), acts[1..]);
    }
  }

  lemma InitOk(hash: string -> int, disk: Disk, maxBytes: int, workers: nat)
    requires IsHash(hash)
    ensures Ok(hash, disk, Init(maxBytes, workers))
  {
    NewCacheOk(hash, maxBytes);
  }

  ghost predicate Reachable(hash: string -> int, disk: Disk, maxBytes: int, workers: nat, s: World)
    requires IsHash(hash)
  {
    exists acts :: IsRun(hash, disk, Init(maxBytes, workers), acts)
                && s == After(hash, disk, Init(maxBytes, workers), acts)
  }

  lemma ReachableIsOk(hash: string -> int, disk: Disk, maxBytes: int, workers: nat, s: World)
    requires IsHash(hash) && Reachable(hash, disk, maxBytes, workers, s)
    ensures Ok(hash, disk, s) && s.cache.maxBytes == maxBytes && |s.workers| == workers
  {
    var acts :| IsRun(hash, disk, Init(maxBytes, workers), acts)
             && s == After(hash, disk, Init(maxBytes, workers), acts);
    InitOk(hash, disk, maxBytes, workers);
    RunOk(hash, disk, Init(maxBytes, workers), acts);
  }

  lemma {:induction false} OneMoreStep(hash: string -> int, disk: Disk, s: World, acts: seq<Action>, a: Action)
    requires IsHash(hash) && IsRun(hash, disk, s, acts)
    requires Enabled(After(hash, disk, s, acts), a)
    requires |After(hash, disk, s, acts).cache.table| == TABLE_SIZE
    ensures IsRun(hash, disk, s, acts + [a])
    ensures After(hash, disk, s, acts + [a]) == Next(hash, disk, After(hash, disk, s, acts), a)
    decreases |acts|
  {
    if acts == [] {
      assert [a][1..] == [] && acts + [a] == [a];
      assert IsRun(hash, disk, Next(hash, disk, s, a), []);
    } else {
      OneMoreStep(hash, disk, Next(hash, disk, s, acts[0]), acts[1..], a);
      assert (acts + [a])[1..] == acts[1..] + [a];
    }
  }

  lemma ReachNext(hash: string -> int, disk: Disk, maxBytes: int, workers: nat, s: World, a: Action)
    requires IsHash(hash) && Reachable(hash, disk, maxBytes, workers, s)
    requires Enabled(s, a) && |s.cache.table| == TABLE_SIZE
    ensures Reachable(hash, disk, maxBytes, workers, Next(hash, disk, s, a))
    ensures |Next(hash, disk, s, a).cache.table| == TABLE_SIZE
  {
    var acts :| IsRun(hash, disk, Init(maxBytes, workers), acts)
             && s == After(hash, disk, Init(maxBytes, workers), acts);
    OneMoreStep(hash, disk, Init(maxBytes, workers), acts, a);
  }

  // ---- transparency --------------------------------------------------------------

  /** Nobody can tell that there is a cache. */
  ghost predicate Transparent(disk: Disk, s: World) {
    && !s.crashed
    && forall w :: 0 <= w < |s.workers| ==>
         var worker := s.workers[w];
         && |worker.answers| <= |worker.asked|
         && worker.answers == Uncached(disk, worker.asked[..|worker.answers|])
  }

  /** Each answer is that of a server without a cache, except for files that the cache spoils. */
  lemma AnswersAreRight(hash: string -> int, disk: Disk, maxBytes: int, workers: nat, s: World, w: nat, i: nat)
    requires IsHash(hash) && Reachable(hash, disk, maxBytes, workers, s)
    requires w < |s.workers| && i < |s.workers[w].answers|
    ensures i < |s.workers[w].asked|
    ensures var answer, name := s.workers[w].answers[i], s.workers[w].asked[i];
            answer == Direct(disk, name) || (answer == Overrun && Spoils(disk, maxBytes, name))
  {
    ReachableIsOk(hash, disk, maxBytes, workers, s);
    assert WorkerOk(disk, maxBytes, s.workers[w]);
  }

  lemma NothingSpoiled(hash: string -> int, disk: Disk, maxBytes: int, workers: nat, s: World)
    requires IsHash(hash) && Reachable(hash, disk, maxBytes, workers, s)
    requires forall name :: !Spoils(disk, maxBytes, name)
    ensures Transparent(disk, s)
  {
    ReachableIsOk(hash, disk, maxBytes, workers, s);
    forall w | 0 <= w < |s.workers|
      ensures var worker := s.workers[w];
              && |worker.answers| <= |worker.asked|
              && worker.answers == Uncached(disk, worker.asked[..|worker.answers|])
    {
      assert WorkerOk(disk, maxBytes, s.workers[w]);
    }
  }

  /** The first worker alone asks for the file once, up to its insert. */
  lemma FirstRequest(hash: string -> int, disk: Disk, maxBytes: nat, workers: nat, name: string) returns (s: World)
    requires IsHash(hash) && workers > 0 && disk(name).Some? && |disk(name).value| <= maxBytes
    ensures Reachable(hash, disk, maxBytes, workers, s) && |s.workers| == workers
    ensures |s.cache.table| == TABLE_SIZE && Enabled(s, Store(0))
    ensures s.workers[0].phase.name == name && s.workers[0].asked == [name] && s.workers[0].answers == []
    ensures s.workers[0].phase.data == FileData(disk(name).value, |disk(name).value|)
    ensures s.cache == NewCache(maxBytes) && Accepts(hash, s.cache, name, s.workers[0].phase.data)
  {
    NewCacheOk(hash, maxBytes);
    s := Init(maxBytes, workers);
    assert IsRun(hash, disk, s, []) && s == After(hash, disk, s, []);
    assert Reachable(hash, disk, maxBytes, workers, s);
    ReachNext(hash, disk, maxBytes, workers, s, Begin(0, name));
    s := Next(hash, disk, s, Begin(0, name));
    ReachNext(hash, disk, maxBytes, workers, s, LookUp(0));
    s := Next(hash, disk, s, LookUp(0));
    ReachNext(hash, disk, maxBytes, workers, s, ReadFile(0));
    s := Next(hash, disk, s, ReadFile(0));
  }

  /** The first worker has the file ready after its insert, and nothing else happened yet. */
  ghost predicate JustStored(hash: string -> int, disk: Disk, maxBytes: nat, workers: nat, name: string, s: World)
    requires IsHash(hash)
  {
    && Reachable(hash, disk, maxBytes, workers, s) && !s.crashed && |s.workers| > 0
    && |s.cache.table| == TABLE_SIZE && s.cache.maxBytes == maxBytes
    && disk(name).Some? && disk(name).value != ""
    && Lookup(hash, s.cache, name) == Some(Copy(FileData(disk(name).value, |disk(name).value|)))
    && s.workers[0].phase.Ready? && s.workers[0].asked == [name] && s.workers[0].answers == []
  }

  /** The worker asks again and gets the copy. */
  lemma SecondRequest(hash: string -> int, disk: Disk, maxBytes: nat, workers: nat, name: string, s: World)
    returns (end: World)
    requires IsHash(hash) && JustStored(hash, disk, maxBytes, workers, name, s)
    ensures Reachable(hash, disk, maxBytes, workers, end) && |end.workers| > 0
    ensures end.workers[0].asked == [name, name] && |end.workers[0].answers| == 2
    ensures end.workers[0].answers[1] == if Whole(disk(name).value) then Sent(disk(name).value) else Overrun
  {
    var data := FileData(disk(name).value, |disk(name).value|);
    CopyTwice(data);
    CopySends(data.buf);
    ReachNext(hash, disk, maxBytes, workers, s, Send(0));
    end := Next(hash, disk, s, Send(0));
    ReachNext(hash, disk, maxBytes, workers, end, Begin(0, name));
    end := Next(hash, disk, end, Begin(0, name));
    ReachNext(hash, disk, maxBytes, workers, end, LookUp(0));
    end := Next(hash, disk, end, LookUp(0));
    assert end.workers[0].phase == Ready(name, Copy(Copy(data)));
    ReachNext(hash, disk, maxBytes, workers, end, Send(0));
    end := Next(hash, disk, end, Send(0));
  }

  /** A spoiled file shows: its insert crashes the server, or the second request for it overruns. */
  lemma SpoiledIsSeen(hash: string -> int, disk: Disk, maxBytes: nat, workers: nat, name: string) returns (s: World)
    requires IsHash(hash) && workers > 0 && Spoils(disk, maxBytes, name)
    ensures Reachable(hash, disk, maxBytes, workers, s) && !Transparent(disk, s)
  {
    var text := disk(name).value;
    s := FirstRequest(hash, disk, maxBytes, workers, name);
    ReachNext(hash, disk, maxBytes, workers, s, Store(0));
    s := Next(hash, disk, s, Store(0));
    if text != "" {
      s := SecondRequest(hash, disk, maxBytes, workers, name, s);
      assert Uncached(disk, s.workers[0].asked[..2])[1] == Sent(text);
    }
  }

  /**
   The cache is invisible in every run, however the workers interleave, if and
   only if every file that fits it has some bytes and no NUL before its last.
   */
  lemma CacheIsTransparentIff(hash: string -> int, disk: Disk, maxBytes: nat, workers: nat)
    requires IsHash(hash) && workers > 0
    ensures (forall s :: Reachable(hash, disk, maxBytes, workers, s) ==> Transparent(disk, s))
       <==> (forall name :: disk(name).Some? && |disk(name).value| <= maxBytes ==> Whole(disk(name).value))
  {
    if name :| Spoils(disk, maxBytes, name) {
      var s := SpoiledIsSeen(hash, disk, maxBytes, workers, name);
    } else {
      forall s | Reachable(hash, disk, maxBytes, workers, s)
        ensures Transparent(disk, s)
      {
        NothingSpoiled(hash, disk, maxBytes, workers, s);
      }
      forall name | disk(name).Some? && |disk(name).value| <= maxBytes
        ensures Whole(disk(name).value)
      {
        assert !Spoils(disk, maxBytes, name);
      }
    }
  }

  // ---- the table over runs ------------------------------------------------------

  /** However many workers missed on a name, it has at most one entry: the copy of the file. The budget is kept. */
  lemma OneEntryEach(hash: string -> int, disk: Disk, maxBytes: nat, workers: nat, s: World, name: string)
    requires IsHash(hash) && Reachable(hash, disk, maxBytes, workers, s)
    ensures CacheOk(hash, s.cache) && s.cache.occupied <= maxBytes
    ensures TableEntries(s.cache.table, name) == if name in AsMap(hash, s.cache) then 1 else 0
    ensures name in AsMap(hash, s.cache) ==>
              && disk(name).Some?
              && AsMap(hash, s.cache)[name] == Copy(FileData(disk(name).value, |disk(name).value|))
  {
    ReachableIsOk(hash, disk, maxBytes, workers, s);
    OneEntryPerName(hash, s.cache, name);
    LookupHitsStored(hash, s.cache, name);
  }

  /** Two workers that missed on the same name both insert it; the second insert changes nothing. */
  lemma SecondMissStoresNothing(hash: string -> int, disk: Disk, s: World, w: nat, v: nat)
    requires Ok(hash, disk, s) && Enabled(s, Store(w)) && Enabled(s, Store(v)) && w != v
    requires s.workers[w].phase.name == s.workers[v].phase.name
    ensures var s1 := Next(hash, disk, s, Store(w));
            && |s1.cache.table| == TABLE_SIZE
            && (Enabled(s1, Store(v)) ==> Next(hash, disk, s1, Store(v)).cache == s1.cache)
  {
    var name, data := s.workers[w].phase.name, s.workers[w].phase.data;
    assert WorkerOk(disk, s.cache.maxBytes, s.workers[w]) && WorkerOk(disk, s.cache.maxBytes, s.workers[v]);
    assert s.workers[v].phase.data == data;
    SecondInsertDoesNothing(hash, s.cache, name, data);
  }

  /** No run ever drops or changes an entry: the cache fills up and never evicts. */
  lemma {:induction false} NothingIsEvicted(hash: string -> int, disk: Disk, s: World, acts: seq<Action>, name: string)
    requires Ok(hash, disk, s) && IsRun(hash, disk, s, acts) && Lookup(hash, s.cache, name).Some?
    ensures Ok(hash, disk, After(hash, disk, s, acts))
    ensures Lookup(hash, After(hash, disk, s, acts).cache, name) == Lookup(hash, s.cache, name)
    decreases |acts|
  {
    if acts != [] {
      StepOk(hash, disk, s, acts[0]);
      NothingIsEvicted(hash, disk, Next(hash, disk, s, acts[0]), acts[1..], name);
    }
  }

  /** So once a file is cached no later lookup of it misses: it is sent without touching the disk. */
  lemma OnceCachedAlwaysHit(hash: string -> int, disk: Disk, s: World, acts: seq<Action>, now: World,
                            name: string, w: nat)
    requires Ok(hash, disk, s) && IsRun(hash, disk, s, acts) && now == After(hash, disk, s, acts)
    requires Lookup(hash, s.cache, name).Some?
    requires Enabled(now, LookUp(w)) && now.workers[w].phase.name == name
    ensures IsHash(hash) && |now.cache.table| == TABLE_SIZE
    ensures var next := Next(hash, disk, now, LookUp(w));
            w < |next.workers| && next.workers[w].phase == Ready(name, Lookup(hash, s.cache, name).value)
  {
    NothingIsEvicted(hash, disk, s, acts, name);
    CopyTwice(FileData(disk(name).value, |disk(name).value|));
  }

  /** A missed file that was read enters the cache, unless it came in meanwhile, does not fit, or crashes it. */
  lemma MissFillsCache(hash: string -> int, disk: Disk, s: World, w: nat)
    requires Ok(hash, disk, s) && Enabled(s, Store(w))
    ensures var name, data := s.workers[w].phase.name, s.workers[w].phase.data;
            var s' := Next(hash, disk, s, Store(w));
            var fits := s.cache.occupied + data.size <= s.cache.maxBytes;
            && CacheOk(hash, s'.cache)
            && (s'.crashed <==> name !in AsMap(hash, s.cache) && fits && disk(name) == Some(""))
            && (!s'.crashed ==> (name in AsMap(hash, s'.cache) <==> name in AsMap(hash, s.cache) || fits))
  {
    var name, data := s.workers[w].phase.name, s.workers[w].phase.data;
    StepOk(hash, disk, s, Store(w));
    OccupiedIsNatural(s.cache.table);
    LookupHitsStored(hash, s.cache, name);
    InsertIsMapUpdate(hash, s.cache, name, data);
    assert WorkerOk(disk, s.cache.maxBytes, s.workers[w]);
  }

  /** The size that decides about the cache is never set yet, so with a budget that main accepts none is skipped. */
  lemma CacheIsNeverSkipped(hash: string -> int, disk: Disk, maxBytes: nat, workers: nat, s: World, w: nat)
    requires IsHash(hash) && Reachable(hash, disk, maxBytes, workers, s)
    requires w < |s.workers| && s.workers[w].phase.Asked?
    ensures !SkipsCache(s, s.workers[w].phase.size)
  {
    ReachableIsOk(hash, disk, maxBytes, workers, s);
    assert WorkerOk(disk, maxBytes, s.workers[w]);
  }
}
