/** The two-level conversation cache: entries in memory, files in a directory and an index of them that is
    kept up to date step by step (codex_shim/chatgpt_conversation_cache.py). */
module ConversationCache {
  import opened Common
  import opened LruIndex
  import opened CachePaths
  import opened InputItems

  const MAX_CACHED_RESPONSES_PER_SESSION: nat := 1024

  datatype File = File(items: seq<Item>, size: nat, mtime: int)

  /** One call of `put` with a non-empty id and items; `written` when it wrote its file. */
  datatype PutRecord = PutRecord(key: Key, items: seq<Item>, written: bool)

  /** What was last put under a key. */
  function LastPut(puts: seq<PutRecord>, key: Key): Option<seq<Item>> {
    if puts == [] then None
    else
      var last := puts[|puts| - 1];
      if last.key == key then Some(last.items) else LastPut(puts[..|puts| - 1], key)
  }

  /** What was last written to a file. */
  function LastWrite(rules: PathRules, puts: seq<PutRecord>, path: Path): Option<seq<Item>> {
    if puts == [] then None
    else
      var last := puts[|puts| - 1];
      if last.written && PathOf(rules, last.key) == path then Some(last.items)
      else LastWrite(rules, puts[..|puts| - 1], path)
  }

  /** Since the key was last put, that put wrote its file and nobody has written it after that. */
  predicate FileIsCurrent(rules: PathRules, puts: seq<PutRecord>, key: Key) {
    puts == [] ||
    (var last := puts[|puts| - 1];
     if last.key == key then last.written
     else !(last.written && PathOf(rules, last.key) == PathOf(rules, key))
          && FileIsCurrent(rules, puts[..|puts| - 1], key))
  }

  lemma PutsSnoc(rules: PathRules, puts: seq<PutRecord>, p: PutRecord, key: Key, path: Path)
    ensures LastPut(puts + [p], key) == if p.key == key then Some(p.items) else LastPut(puts, key)
    ensures LastWrite(rules, puts + [p], path) ==
            if p.written && PathOf(rules, p.key) == path then Some(p.items) else LastWrite(rules, puts, path)
    ensures FileIsCurrent(rules, puts + [p], key) <==>
            if p.key == key then p.written
            else !(p.written && PathOf(rules, p.key) == PathOf(rules, key)) && FileIsCurrent(rules, puts, key)
  {
    assert (puts + [p])[..|puts|] == puts;
  }

  /** A current file holds what was last put under the key. */
  lemma {:induction false} CurrentAgrees(rules: PathRules, puts: seq<PutRecord>, key: Key)
    requires FileIsCurrent(rules, puts, key)
    ensures LastWrite(rules, puts, PathOf(rules, key)) == LastPut(puts, key)
  {
    if puts != [] && puts[|puts| - 1].key != key {
      CurrentAgrees(rules, puts[..|puts| - 1], key);
    }
  }

  /** Every put under the key wrote its file, and no other key's put wrote the same file. */
  ghost predicate Sound(rules: PathRules, puts: seq<PutRecord>, key: Key) {
    forall p :: p in puts ==>
      && (p.key == key ==> p.written)
      && (p.written && PathOf(rules, p.key) == PathOf(rules, key) ==> p.key == key)
  }

  lemma {:induction false} SoundIsCurrent(rules: PathRules, puts: seq<PutRecord>, key: Key)
    requires Sound(rules, puts, key)
    ensures FileIsCurrent(rules, puts, key)
  {
    if puts != [] {
      assert puts[|puts| - 1] in puts;
      SoundIsCurrent(rules, puts[..|puts| - 1], key);
    }
  }

  /** A file is current exactly when the put that last wrote it is the key's own last put, or neither was
      ever put. */
  lemma {:induction false} CurrentMeans(rules: PathRules, puts: seq<PutRecord>, key: Key)
    ensures FileIsCurrent(rules, puts, key) <==> LastPutAt(puts, key) == LastWriteAt(rules, puts, PathOf(rules, key))
  {
    if puts != [] {
      var n := |puts| - 1;
      CurrentMeans(rules, puts[..n], key);
      LastWriteBound(rules, puts[..n], PathOf(rules, key));
      LastPutBound(puts[..n], key);
    }
  }

  lemma LastPutBound(puts: seq<PutRecord>, key: Key)
    ensures LastPutAt(puts, key).Some? ==> LastPutAt(puts, key).value < |puts|
    ensures LastPutAt(puts, key).Some? <==> LastPut(puts, key).Some?
    ensures LastPutAt(puts, key).Some? ==> LastPut(puts, key) == Some(puts[LastPutAt(puts, key).value].items)
  {
  }

  lemma LastWriteBound(rules: PathRules, puts: seq<PutRecord>, path: Path)
    ensures LastWriteAt(rules, puts, path).Some? ==> LastWriteAt(rules, puts, path).value < |puts|
    ensures LastWriteAt(rules, puts, path).Some? <==> LastWrite(rules, puts, path).Some?
    ensures LastWriteAt(rules, puts, path).Some? ==>
              LastWrite(rules, puts, path) == Some(puts[LastWriteAt(rules, puts, path).value].items)
  {
  }

  function LastPutAt(puts: seq<PutRecord>, key: Key): Option<nat> {
    if puts == [] then None
    else if puts[|puts| - 1].key == key then Some(|puts| - 1)
    else LastPutAt(puts[..|puts| - 1], key)
  }

  function LastWriteAt(rules: PathRules, puts: seq<PutRecord>, path: Path): Option<nat> {
    if puts == [] then None
    else if puts[|puts| - 1].written && PathOf(rules, puts[|puts| - 1].key) == path then Some(|puts| - 1)
    else LastWriteAt(rules, puts[..|puts| - 1], path)
  }

  // ---- What the memory, the files and the index hold ----

  /** What `get` finds: the entry in memory, or else the key's file. */
  function Fetched(rules: PathRules, memory: seq<Slot<seq<Item>>>, files: map<Path, File>, key: Key)
    : Option<seq<Item>> {
    if key.responseId == "" then None
    else if Lookup(memory, key).Some? then Lookup(memory, key)
    else if PathOf(rules, key) in files then Some(files[PathOf(rules, key)].items)
    else None
  }

  /** The memory after storing an entry: the most recent entries within the cap. */
  function Remembered(memory: seq<Slot<seq<Item>>>, key: Key, items: seq<Item>, cap: nat): seq<Slot<seq<Item>>> {
    var all := Stored(memory, key, items);
    all[if |all| > cap then |all| - cap else 0..]
  }

  /** The most recently used key of a session. */
  function MostRecent<V>(d: seq<Slot<V>>, session: string): Option<Key> {
    if d == [] then None
    else if d[|d| - 1].key.session == session then Some(d[|d| - 1].key)
    else MostRecent(d[..|d| - 1], session)
  }

  /** The last entry of a session, if it has any, has the key. */
  ghost predicate IsMostRecent<V>(d: seq<Slot<V>>, session: string, key: Option<Key>) {
    match key
    case None => forall i :: 0 <= i < |d| ==> d[i].key.session != session
    case Some(k) =>
      exists i: nat :: At(d, i, k) && k.session == session && forall j :: i < j < |d| ==> d[j].key.session != session
  }

  /** The most recently used key of a session is that of its last entry. */
  lemma {:induction false} MostRecentIsLast<V>(d: seq<Slot<V>>, session: string)
    ensures IsMostRecent(d, session, MostRecent(d, session))
  {
    var n := |d| - 1;
    if d == [] {
    } else if d[n].key.session == session {
      assert At(d, n, d[n].key);
    } else {
      MostRecentIsLast(d[..n], session);
      match MostRecent(d, session)
      case None =>
      case Some(k) =>
        var i: nat :| At(d[..n], i, k) && forall j :: i < j < n ==> d[..n][j].key.session != session;
        assert At(d, i, k) && forall j :: i < j < n ==> d[j] == d[..n][j];
    }
  }

  ghost predicate MemorySound(rules: PathRules, puts: seq<PutRecord>, memory: seq<Slot<seq<Item>>>) {
    && Unique(memory)
    && forall x :: x in memory ==>
         x.value != [] && (FileIsCurrent(rules, puts, x.key) ==> LastPut(puts, x.key) == Some(x.value))
  }

  ghost predicate FilesSound(rules: PathRules, puts: seq<PutRecord>, files: map<Path, File>) {
    forall p :: p in files ==> files[p].items != [] && LastWrite(rules, puts, p) == Some(files[p].items)
  }

  /** The index lists exactly what a rebuild from the directory would list. */
  ghost predicate Indexed(disk: seq<Slot<nat>>, files: map<Path, File>) {
    forall x :: x in disk <==> PathFor(x.key) in files && files[PathFor(x.key)].size == x.value
  }

  // ---- The cache as a state ----

  datatype CacheState = CacheState(memory: seq<Slot<seq<Item>>>, disk: seq<Slot<nat>>, files: map<Path, File>,
                                   indexLoaded: bool)

  datatype Limits = Limits(entries: nat, bytes: nat)

  /** The index an operation works on: the one in memory or, in a new process, a listing of the directory
      with the oldest file first. */
  ghost predicate Listing(s: CacheState, index: seq<Slot<nat>>) {
    if s.indexLoaded then index == s.disk
    else Unique(index) && Indexed(index, s.files) && OldestFirst(s.files, index)
  }

  ghost function KeysIn(d: seq<Slot<nat>>): set<Key> {
    set x | x in d :: x.key
  }

  ghost function KeysLost(d: seq<Slot<nat>>, after: seq<Slot<nat>>): set<Key> {
    set x | x in d && x !in after :: x.key
  }

  function AfterGet(rules: PathRules, limits: Limits, s: CacheState, index: seq<Slot<nat>>, key: Key): CacheState {
    var path := PathOf(rules, key);
    if key.responseId == "" then s
    else if Lookup(s.memory, key).Some? then s.(memory := Touched(s.memory, key), disk := Touched(s.disk, key))
    else if path !in s.files then s
    else
      var listed := if Lookup(index, key).Some? then index else Stored(index, key, s.files[path].size);
      CacheState(Touched(Remembered(s.memory, key, s.files[path].items, limits.entries), key), Touched(listed, key),
                 s.files, true)
  }

  ghost function AfterPut(rules: PathRules, limits: Limits, s: CacheState, index: seq<Slot<nat>>, key: Key,
                          items: seq<Item>, terminal: bool, size: nat, mtime: int, failing: bool, stuck: set<Key>)
    : CacheState {
    var memory := Remembered(s.memory, key, items, limits.entries);
    if key.responseId == "" || items == [] then s
    else if !terminal then s.(memory := memory)
    else if failing then s.(memory := memory, disk := index, indexLoaded := true)
    else
      var listed := Stored(index, key, size);
      var kept := Survivors(listed, MAX_CACHED_RESPONSES_PER_SESSION, limits.bytes);
      var lost := KeysLost(listed, kept);
      CacheState(Purged(memory, lost), kept,
                 s.files[PathOf(rules, key) := File(items, size, mtime)] - PathsOf(rules, lost - stuck), true)
  }

  function AfterLatest(rules: PathRules, limits: Limits, s: CacheState, index: seq<Slot<nat>>, session: string)
    : CacheState {
    if session == "" then s
    else
      var listed := s.(disk := index, indexLoaded := true);
      var recent := MostRecent(index, session);
      if recent.Some? then AfterGet(rules, limits, listed, index, recent.value) else listed
  }

  function LatestIn(rules: PathRules, s: CacheState, index: seq<Slot<nat>>, session: string): Option<seq<Item>> {
    if session == "" then None
    else
      var onDisk, inMemory := MostRecent(index, session), MostRecent(s.memory, session);
      if onDisk.Some? then Fetched(rules, s.memory, s.files, onDisk.value)
      else if inMemory.Some? then Lookup(s.memory, inMemory.value)
      else None
  }

  ghost function AfterPrune(rules: PathRules, s: CacheState, index: seq<Slot<nat>>, limit: nat, stuck: set<Key>)
    : CacheState {
    var kept := Fitting(index, limit);
    var lost := KeysLost(index, kept);
    CacheState(Purged(s.memory, lost), kept, s.files - PathsOf(rules, lost - stuck), true)
  }

  ghost predicate FixedFiles(rules: PathRules, files: map<Path, File>) {
    forall p :: p in files ==> PathFor(KeyFor(p)) == p && Fixed(rules, KeyFor(p))
  }

  lemma MemoryAfterPut(rules: PathRules, puts: seq<PutRecord>, memory: seq<Slot<seq<Item>>>,
                       after: seq<Slot<seq<Item>>>, p: PutRecord)
    requires MemorySound(rules, puts, memory) && p.items != [] && Unique(after)
    requires forall x :: x in after ==> x == Slot(p.key, p.items) || (x in memory && x.key != p.key)
    ensures MemorySound(rules, puts + [p], after)
  {
    forall x | x in after
      ensures x.value != [] && (FileIsCurrent(rules, puts + [p], x.key) ==> LastPut(puts + [p], x.key) == Some(x.value))
    {
      PutsSnoc(rules, puts, p, x.key, PathOf(rules, x.key));
    }
  }

  lemma FilesAfterPut(rules: PathRules, puts: seq<PutRecord>, files: map<Path, File>, after: map<Path, File>,
                      p: PutRecord)
    requires FilesSound(rules, puts, files) && p.items != []
    requires forall q :: q in after ==>
               if p.written && q == PathOf(rules, p.key) then after[q].items == p.items
               else q in files && after[q] == files[q]
    ensures FilesSound(rules, puts + [p], after)
  {
    forall q | q in after ensures after[q].items != [] && LastWrite(rules, puts + [p], q) == Some(after[q].items) {
      PutsSnoc(rules, puts, p, p.key, q);
    }
  }

  lemma IndexedStore(disk: seq<Slot<nat>>, files: map<Path, File>, key: Key, file: File)
    requires Unique(disk) && Indexed(disk, files)
    ensures Indexed(Stored(disk, key, file.size), files[PathFor(key) := file])
  {
    StoredKeeps(disk, key, file.size);
    forall x ensures x in Stored(disk, key, file.size) <==>
                     && PathFor(x.key) in files[PathFor(key) := file]
                     && files[PathFor(key) := file][PathFor(x.key)].size == x.value {
      KeyForPath(x.key, key);
    }
  }

  lemma IndexedDrop(disk: seq<Slot<nat>>, files: map<Path, File>, key: Key)
    requires Unique(disk) && Indexed(disk, files)
    ensures Indexed(Without(disk, key), files - {PathFor(key)})
  {
    WithoutKeeps(disk, key);
    forall x ensures x in Without(disk, key) <==>
                     && PathFor(x.key) in files - {PathFor(key)}
                     && (files - {PathFor(key)})[PathFor(x.key)].size == x.value {
      KeyForPath(x.key, key);
    }
  }

  /** Counting one entry less. */
  lemma RecountDrop(counts: map<string, nat>, d: seq<Slot<nat>>, key: Key)
    requires Recounts(counts, d) && Lookup(d, key).Some?
    ensures key.session in counts && counts[key.session] > 0
    ensures var fewer := counts[key.session] - 1;
            Recounts(if fewer == 0 then counts - {key.session} else counts[key.session := fewer], Without(d, key))
  {
    TotalWithout(d, key);
    var x := Slot(key, Lookup(d, key).value);
    assert x in d;
    CountPositive(d, key.session);
  }

  /** Dropping an indexed key and its file keeps index and directory in agreement. */
  lemma {:induction false} DropStaysTidy(rules: PathRules, disk: seq<Slot<nat>>, files: map<Path, File>, key: Key)
    requires Unique(disk) && Lookup(disk, key).Some?
    ensures FixedFiles(rules, files) && Indexed(disk, files) ==>
              var after := files - {PathOf(rules, key)};
              FixedFiles(rules, after) && Indexed(Without(disk, key), after)
  {
    if FixedFiles(rules, files) && Indexed(disk, files) {
      assert Slot(key, Lookup(disk, key).value) in disk;
      KeyForPath(key, key);
      FixedPath(rules, key);
      IndexedDrop(disk, files, key);
    }
  }

  /** The entries of an ordered dictionary whose keys were not dropped. */
  function Purged(d: seq<Slot<seq<Item>>>, keys: set<Key>): seq<Slot<seq<Item>>> {
    if d == [] then [] else if d[0].key in keys then Purged(d[1..], keys) else [d[0]] + Purged(d[1..], keys)
  }

  lemma {:induction false} PurgedMore(d: seq<Slot<seq<Item>>>, keys: set<Key>, key: Key)
    requires Unique(d)
    ensures Without(Purged(d, keys), key) == Purged(d, keys + {key})
    ensures forall x :: x in Purged(d, keys) <==> x in d && x.key !in keys
  {
    if d != [] {
      PurgedMore(d[1..], keys, key);
      var rest := Purged(d[1..], keys);
      assert forall x :: x in d <==> x == d[0] || x in d[1..];
      var r := Purged(d, keys);
      if d[0].key !in keys {
        assert r == [d[0]] + rest;
        assert r[0] == d[0] && r[1..] == rest;
        if d[0].key == key {
          forall x | x in d[1..] ensures x.key != key {
            var i :| 0 <= i < |d| - 1 && d[1..][i] == x;
            assert d[i + 1] == x;
          }
          assert key in keys + {key};
          NothingPurged(d[1..], keys, key);
        }
      }
    }
  }

  lemma {:induction false} NothingPurged(d: seq<Slot<seq<Item>>>, keys: set<Key>, key: Key)
    requires forall x :: x in d ==> x.key != key
    ensures Purged(d, keys + {key}) == Purged(d, keys)
  {
    if d != [] {
      assert d[0] in d;
      assert forall x :: x in d[1..] ==> x in d;
      NothingPurged(d[1..], keys, key);
    }
  }

  function PathsOf(rules: PathRules, keys: set<Key>): set<Path> {
    set k | k in keys :: PathOf(rules, k)
  }

  /** A directory entry with the least modification time. */
  lemma {:induction false} HasOldest(files: map<Path, File>, todo: set<Path>)
    requires todo != {} && todo <= files.Keys
    ensures exists p :: p in todo && forall q :: q in todo ==> files[p].mtime <= files[q].mtime
  {
    var p :| p in todo;
    var rest := todo - {p};
    if rest != {} {
      HasOldest(files, rest);
      var q :| q in rest && forall r :: r in rest ==> files[q].mtime <= files[r].mtime;
      var oldest := if files[p].mtime < files[q].mtime then p else q;
      assert oldest in todo;
      forall r | r in todo ensures files[oldest].mtime <= files[r].mtime {
        assert r == p || r in rest;
      }
    } else {
      assert todo == {p};
    }
  }

  predicate IsJson(path: Path) {
    |path.name| >= 5 && path.name[|path.name| - 5..] == ".json"
  }

  /** The files outside `todo` are listed, oldest first, and none of those in `todo` is older. */
  ghost predicate Listed(files: map<Path, File>, todo: set<Path>, disk: seq<Slot<nat>>) {
    && Unique(disk)
    && (forall x :: x in disk <==>
          PathFor(x.key) in files && PathFor(x.key) !in todo && files[PathFor(x.key)].size == x.value)
    && (forall x, q :: x in disk && q in todo && q in files ==> files[PathFor(x.key)].mtime <= files[q].mtime)
    && OldestFirst(files, disk)
  }

  ghost predicate OldestFirst(files: map<Path, File>, disk: seq<Slot<nat>>) {
    forall i, j :: 0 <= i < j < |disk| && PathFor(disk[i].key) in files && PathFor(disk[j].key) in files ==>
      files[PathFor(disk[i].key)].mtime <= files[PathFor(disk[j].key)].mtime
  }

  lemma JsonPaths(key: Key)
    ensures IsJson(PathFor(key))
  {
    assert PathFor(key).name[|key.responseId|..] == ".json";
  }

  lemma ListStart(files: map<Path, File>)
    ensures Listed(files, set p | p in files && IsJson(p), [])
    ensures Unique<nat>([]) && Total([]) == 0 && Recounts(map[], [])
  {
    forall x: Slot<nat> ensures !(PathFor(x.key) in files && PathFor(x.key) !in set p | p in files && IsJson(p)) {
      JsonPaths(x.key);
    }
  }

  lemma ListDone(files: map<Path, File>, disk: seq<Slot<nat>>)
    requires Listed(files, {}, disk)
    ensures Unique(disk) && Indexed(disk, files) && OldestFirst(files, disk)
  {
  }

  lemma ListStep(files: map<Path, File>, todo: set<Path>, disk: seq<Slot<nat>>, p: Path)
    requires Listed(files, todo, disk) && todo <= files.Keys && p in todo && IsJson(p)
    requires forall q :: q in todo ==> files[p].mtime <= files[q].mtime
    ensures Listed(files, todo - {p}, disk + [Slot(KeyFor(p), files[p].size)])
    ensures Unique(disk + [Slot(KeyFor(p), files[p].size)])
  {
    var key := KeyFor(p);
    assert PathFor(key) == p;
    var after := disk + [Slot(key, files[p].size)];
    forall x: Slot<nat> ensures PathFor(x.key) == p <==> x.key == key { KeyForPath(x.key, key); }
    assert forall i :: 0 <= i < |disk| ==> disk[i] in disk;
    assert Unique(after);
    assert OldestFirst(files, after);
  }

  class ChatgptConversationCache {
    const rules: PathRules
    const maxMemoryEntries: nat
    const maxCacheBytes: nat
    var memory: seq<Slot<seq<Item>>>
    var disk: seq<Slot<nat>>
    var diskBytes: int
    var sessionCounts: map<string, nat>
    var indexLoaded: bool
    /** The directory: it outlives the process. */
    var files: map<Path, File>
    /** Every put so far, of this process and of earlier ones. */
    ghost var puts: seq<PutRecord>
    /** So far all keys were fixed by sanitizing and every file to be removed was removed. */
    ghost var tidy: bool

    ghost function State(): CacheState
      reads `memory, `disk, `files, `indexLoaded
    {
      CacheState(memory, disk, files, indexLoaded)
    }

    ghost function Bounds(): Limits {
      Limits(maxMemoryEntries, maxCacheBytes)
    }

    ghost predicate IndexOk()
      reads `disk, `diskBytes, `sessionCounts
    {
      Unique(disk) && diskBytes == Total(disk) && Recounts(sessionCounts, disk)
    }

    ghost predicate MemoryOk()
      reads `memory, `puts
    {
      |memory| <= maxMemoryEntries && MemorySound(rules, puts, memory)
    }

    ghost predicate FilesOk()
      reads `files, `puts
    {
      FilesSound(rules, puts, files)
    }

    ghost predicate TidyOk()
      reads `tidy, `files, `indexLoaded, `disk
    {
      tidy ==> FixedFiles(rules, files) && (indexLoaded ==> Indexed(disk, files))
    }

    ghost predicate Valid()
      reads this
    {
      IndexOk() && MemoryOk() && FilesOk() && TidyOk()
    }

    constructor (rules: PathRules, maxMemoryEntries: nat, maxCacheBytes: nat)
      ensures Valid() && tidy && puts == [] && State() == CacheState([], [], map[], false)
      ensures this.rules == rules && this.maxMemoryEntries == maxMemoryEntries && this.maxCacheBytes == maxCacheBytes
    {
      this.rules, this.maxMemoryEntries, this.maxCacheBytes := rules, maxMemoryEntries, maxCacheBytes;
      memory, disk, diskBytes, sessionCounts, indexLoaded, files := [], [], 0, map[], false, map[];
      puts, tidy := [], true;
    }

    /** A new process over the same directory. */
    method Restart()
      requires Valid()
      modifies `memory, `disk, `diskBytes, `sessionCounts, `indexLoaded
      ensures Valid() && State() == CacheState([], [], files, false)
    {
      memory, disk, diskBytes, sessionCounts, indexLoaded := [], [], 0, map[], false;
    }

    /** In a tidy run a new process finds the index the old one had. */
    method RestartAndReindex()
      requires Valid() && tidy && indexLoaded
      modifies `memory, `disk, `diskBytes, `sessionCounts, `indexLoaded
      ensures Valid() && indexLoaded
      ensures forall x :: x in disk <==> x in old(disk)
      ensures OldestFirst(files, disk)
    {
      Restart();
      EnsureIndex();
    }

    /** `_remember_locked`. */
    method Remember(key: Key, items: seq<Item>)
      requires Unique(memory)
      modifies `memory
      ensures memory == Remembered(old(memory), key, items, maxMemoryEntries)
      ensures Unique(memory) && |memory| <= maxMemoryEntries
      ensures forall x :: x in memory ==> x == Slot(key, items) || (x in old(memory) && x.key != key)
    {
      hide Unique, Stored;
      StoredKeeps(memory, key, items);
      memory := Stored(memory, key, items);
      ghost var all := memory;
      assert all[0..] == all;
      while |memory| > maxMemoryEntries
        invariant 0 <= |all| - |memory| && (memory == all || |memory| >= maxMemoryEntries)
        invariant memory == all[|all| - |memory|..]
      {
        memory := memory[1..];
      }
      SuffixUnique(all, |all| - |memory|);
    }

    /** `_touch_locked`. */
    method Touch(key: Key)
      requires Unique(memory) && IndexOk()
      modifies `memory, `disk
      ensures memory == Touched(old(memory), key) && disk == Touched(old(disk), key)
      ensures Unique(memory) && |memory| == |old(memory)| && IndexOk()
      ensures forall x :: x in memory <==> x in old(memory)
      ensures forall x :: x in disk <==> x in old(disk)
    {
      TouchedKeeps(memory, key);
      TouchedKeeps(disk, key);
      if Lookup(disk, key).Some? {
        TotalStored(disk, key, Lookup(disk, key).value);
      }
      memory := Touched(memory, key);
      disk := Touched(disk, key);
    }

    /** `_note_disk_locked`. */
    method NoteDisk(key: Key, size: nat)
      requires IndexOk()
      modifies `disk, `diskBytes, `sessionCounts
      ensures IndexOk() && disk == Stored(old(disk), key, size)
    {
      TotalStored(disk, key, size);
      StoredKeeps(disk, key, size);
      var before := Lookup(disk, key);
      if before.Some? {
        diskBytes := diskBytes - before.value;
      } else {
        var count := if key.session in sessionCounts then sessionCounts[key.session] else 0;
        sessionCounts := sessionCounts[key.session := count + 1];
      }
      disk := Stored(disk, key, size);
      diskBytes := diskBytes + size;
    }

    /** `_drop_disk_locked`; the file stays when it cannot be removed. */
    method DropDisk(key: Key, isStuck: bool)
      requires IndexOk() && TidyOk() && Lookup(disk, key).Some? && indexLoaded
      modifies `disk, `diskBytes, `sessionCounts, `memory, `files, `tidy
      ensures IndexOk() && TidyOk() && disk == Without(old(disk), key)
      ensures memory == Without(old(memory), key)
      ensures files == old(files) - (if isStuck then {} else {PathOf(rules, key)})
      ensures tidy == (old(tidy) && !isStuck)
    {
      hide Without, Unique, Indexed, FixedFiles, Total, CountOf, Recounts;
      TotalWithout(disk, key);
      RecountDrop(sessionCounts, disk, key);
      WithoutKeeps(disk, key);
      DropStaysTidy(rules, disk, files, key);
      var size := Lookup(disk, key).GetOr(0);
      disk := Without(disk, key);
      diskBytes := if diskBytes - size < 0 then 0 else diskBytes - size;
      memory := Without(memory, key);
      var remaining: int := (if key.session in sessionCounts then sessionCounts[key.session] else 0) - 1;
      if remaining <= 0 {
        sessionCounts := sessionCounts - {key.session};
      } else {
        sessionCounts := sessionCounts[key.session := remaining];
      }
      if !isStuck {
        files := files - {PathOf(rules, key)};
      }
      tidy := tidy && !isStuck;
    }

    /** `_ensure_index_locked`: list the directory, oldest file first. */
    method EnsureIndex()
      requires IndexOk() && TidyOk()
      modifies `disk, `diskBytes, `sessionCounts, `indexLoaded
      ensures IndexOk() && TidyOk() && indexLoaded && Listing(old(State()), disk)
    {
      hide Unique, Total, CountOf, Listed, Indexed, FixedFiles;
      if indexLoaded { return; }
      ListStart(files);
      disk, diskBytes, sessionCounts := [], 0, map[];
      var todo := set p | p in files && IsJson(p);
      while todo != {}
        invariant todo <= files.Keys && forall p :: p in todo ==> IsJson(p)
        invariant IndexOk()
        invariant Listed(files, todo, disk)
      {
        HasOldest(files, todo);
        var p :| p in todo && forall q :: q in todo ==> files[p].mtime <= files[q].mtime;
        var key := KeyFor(p);
        ListStep(files, todo, disk, p);
        TotalConcat(disk, [Slot(key, files[p].size)]);
        TotalOne(Slot(key, files[p].size));
        disk := disk + [Slot(key, files[p].size)];
        diskBytes := diskBytes + files[p].size;
        var count := if key.session in sessionCounts then sessionCounts[key.session] else 0;
        sessionCounts := sessionCounts[key.session := count + 1];
        todo := todo - {p};
      }
      ListDone(files, disk);
      indexLoaded := true;
    }

    /** What dropping these keys leaves of the entries that were there. */
    ghost predicate Dropped(keys: set<Key>, stuck: set<Key>, disk0: seq<Slot<nat>>, memory0: seq<Slot<seq<Item>>>,
                            files0: map<Path, File>, tidy0: bool)
      reads `disk, `memory, `files, `tidy
    {
      && (forall x :: x in disk <==> x in disk0 && x.key !in keys) && keys <= KeysIn(disk0)
      && memory == Purged(memory0, keys)
      && files == files0 - PathsOf(rules, keys - stuck)
      && tidy == (tidy0 && keys * stuck == {})
    }

    /** One more key dropped. */
    method DropOneMore(key: Key, stuck: set<Key>, ghost keys: set<Key>, ghost disk0: seq<Slot<nat>>,
                       ghost memory0: seq<Slot<seq<Item>>>, ghost files0: map<Path, File>, ghost tidy0: bool)
      requires IndexOk() && TidyOk() && Lookup(disk, key).Some? && indexLoaded
      requires Unique(memory0) && Dropped(keys, stuck, disk0, memory0, files0, tidy0)
      modifies `disk, `diskBytes, `sessionCounts, `memory, `files, `tidy
      ensures IndexOk() && TidyOk() && disk == Without(old(disk), key)
      ensures Dropped(keys + {key}, stuck, disk0, memory0, files0, tidy0)
    {
      hide TidyOk, Purged, Lookup, Without;
      WithoutKeeps(disk, key);
      PurgedMore(memory0, keys, key);
      MorePaths(rules, keys, key, stuck);
      DropDisk(key, key in stuck);
      assert files == files0 - PathsOf(rules, keys + {key} - stuck);
      if key in stuck {
        assert key in (keys + {key}) * stuck;
      } else {
        assert (keys + {key}) * stuck == keys * stuck;
      }
    }

    /** The session caps of `_evict_locked`. */
    method CapSessions(stuck: set<Key>) returns (ghost keys: set<Key>)
      requires IndexOk() && TidyOk() && Unique(memory) && indexLoaded
      modifies `disk, `diskBytes, `sessionCounts, `memory, `files, `tidy
      ensures IndexOk() && TidyOk()
      ensures disk == Newest(old(disk), MAX_CACHED_RESPONSES_PER_SESSION, set x | x in old(disk) :: x.key.session)
      ensures Dropped(keys, stuck, old(disk), old(memory), old(files), old(tidy))
    {
      hide TidyOk, Purged, Without, Dropped, Newest;
      keys := {};
      NothingDropped(stuck);
      var sessions := sessionCounts.Keys;
      var todo := sessions;
      ghost var was := disk;
      NewestOfNone(was, MAX_CACHED_RESPONSES_PER_SESSION);
      assert sessions - todo == {};
      while todo != {}
        invariant todo <= sessions
        invariant IndexOk() && TidyOk()
        invariant disk == Newest(was, MAX_CACHED_RESPONSES_PER_SESSION, sessions - todo)
        invariant Dropped(keys, stuck, was, old(memory), old(files), old(tidy))
      {
        var session :| session in todo;
        ghost var capped := sessions - todo;
        NewestOneMore(was, MAX_CACHED_RESPONSES_PER_SESSION, capped, session);
        keys := CapSession(session, stuck, keys, was, old(memory), old(files), old(tidy));
        todo := todo - {session};
        assert sessions - todo == capped + {session};
      }
      assert sessions - todo == sessions;
      forall s ensures s in sessions <==> s in (set x | x in was :: x.key.session) {
        CountPositive(was, s);
        assert s in sessions <==> CountOf(was, s) > 0;
      }
      assert sessions == set x | x in was :: x.key.session;
    }

    lemma NothingDropped(stuck: set<Key>)
      ensures Dropped({}, stuck, disk, memory, files, tidy)
    {
      NonePurged(memory);
      assert PathsOf(rules, {} - stuck) == {};
    }

    /** Drop the oldest entries of one session until it is within the cap. */
    method CapSession(session: string, stuck: set<Key>, ghost keys: set<Key>, ghost disk0: seq<Slot<nat>>,
                      ghost memory0: seq<Slot<seq<Item>>>, ghost files0: map<Path, File>, ghost tidy0: bool)
      returns (ghost keysAfter: set<Key>)
      requires IndexOk() && TidyOk() && indexLoaded
      requires Unique(memory0) && Dropped(keys, stuck, disk0, memory0, files0, tidy0)
      modifies `disk, `diskBytes, `sessionCounts, `memory, `files, `tidy
      ensures IndexOk() && TidyOk()
      ensures disk == Newest(old(disk), MAX_CACHED_RESPONSES_PER_SESSION, {session})
      ensures Dropped(keysAfter, stuck, disk0, memory0, files0, tidy0)
    {
      hide TidyOk, Without, Dropped, Newest, Lookup, Unique, Total;
      keysAfter := keys;
      var count := if session in sessionCounts then sessionCounts[session] else 0;
      assert count == CountOf(disk, session);
      while count > MAX_CACHED_RESPONSES_PER_SESSION
        invariant IndexOk() && TidyOk() && count == CountOf(disk, session)
        invariant Newest(disk, MAX_CACHED_RESPONSES_PER_SESSION, {session})
                  == Newest(old(disk), MAX_CACHED_RESPONSES_PER_SESSION, {session})
        invariant Dropped(keysAfter, stuck, disk0, memory0, files0, tidy0)
        decreases |disk|
      {
        var victim := Oldest(disk, session);
        if victim.None? { break; }
        NewestDropsOldest(disk, MAX_CACHED_RESPONSES_PER_SESSION, session);
        TotalWithout(disk, victim.value);
        ShorterWithout(disk, victim.value);
        DropOneMore(victim.value, stuck, keysAfter, disk0, memory0, files0, tidy0);
        keysAfter := keysAfter + {victim.value};
        count := if session in sessionCounts then sessionCounts[session] else 0;
        assert count == CountOf(disk, session);
      }
      NewestWithin(disk, MAX_CACHED_RESPONSES_PER_SESSION, session);
    }

    /** Drop the oldest entries until the total is within the limit (`_evict_locked`, `prune_until`). */
    method DropUntil(limit: nat, stuck: set<Key>) returns (ghost keys: set<Key>)
      requires IndexOk() && TidyOk() && Unique(memory) && indexLoaded
      modifies `disk, `diskBytes, `sessionCounts, `memory, `files, `tidy
      ensures IndexOk() && TidyOk()
      ensures disk == Fitting(old(disk), limit)
      ensures Dropped(keys, stuck, old(disk), old(memory), old(files), old(tidy))
    {
      hide TidyOk, Without, Dropped, Lookup, Recounts;
      keys := {};
      NothingDropped(stuck);
      while diskBytes > limit && disk != []
        invariant IndexOk() && TidyOk()
        invariant Fitting(disk, limit) == Fitting(old(disk), limit)
        invariant Dropped(keys, stuck, old(disk), old(memory), old(files), old(tidy))
        decreases |disk|
      {
        var victim := disk[0].key;
        FirstWithout(disk);
        DropOneMore(victim, stuck, keys, old(disk), old(memory), old(files), old(tidy));
        keys := keys + {victim};
      }
    }

    /** `_evict_locked`: the session caps, then the byte limit. */
    method Evict(stuck: set<Key>) returns (ghost keys: set<Key>)
      requires IndexOk() && TidyOk() && Unique(memory) && indexLoaded
      modifies `disk, `diskBytes, `sessionCounts, `memory, `files, `tidy
      ensures IndexOk() && TidyOk()
      ensures disk == Survivors(old(disk), MAX_CACHED_RESPONSES_PER_SESSION, maxCacheBytes)
      ensures Dropped(keys, stuck, old(disk), old(memory), old(files), old(tidy))
    {
      hide TidyOk, Newest, Fitting, Recounts, PathsOf;
      PurgedKeepsUnique(memory);
      keys := CapSessions(stuck);
      ghost var memory1 := memory;
      ghost var more := DropUntil(maxCacheBytes, stuck);
      PurgedUnion(old(memory), keys, more);
      PathsUnion(rules, keys - stuck, more - stuck);
      assert (keys - stuck) + (more - stuck) == keys + more - stuck;
      keys := keys + more;
    }

    /** `get`: from memory, or else from the key's file. */
    method Get(key: Key) returns (r: Option<seq<Item>>, ghost index: seq<Slot<nat>>)
      requires Valid()
      modifies `memory, `disk, `diskBytes, `sessionCounts, `indexLoaded, `tidy
      ensures Valid()
      ensures r == Fetched(rules, old(memory), files, key)
      ensures State() == AfterGet(rules, Bounds(), old(State()), index, key)
      ensures indexLoaded ==> Listing(old(State()), index)
      ensures r.Some? ==> r.value != []
      ensures r.Some? && FileIsCurrent(rules, puts, key) ==> r == LastPut(puts, key)
      ensures r.Some? && Lookup(old(memory), key).None? ==> r == LastWrite(rules, puts, PathOf(rules, key))
      ensures tidy == (old(tidy) && (r.None? || Lookup(old(memory), key).Some? || Fixed(rules, key)))
    {
      hide Unique, Lookup, Total, Recounts, Stored, Touched, MemorySound, FilesSound, Indexed, FileIsCurrent, LastPut,
           LastWrite, PathOf, Fixed, Remembered, OldestFirst;
      index := disk;
      if key.responseId == "" { return None, index; }
      var cached := Lookup(memory, key);
      MemoryFacts(rules, puts, memory);
      if cached.Some? {
        Touch(key);
        MemorySame(rules, puts, old(memory), memory);
        IndexedSame(old(disk), disk, files);
        return cached, index;
      }
      var path := PathOf(rules, key);
      if path !in files { return None, index; }
      FileFacts(rules, puts, files, key);
      tidy := tidy && Fixed(rules, key);
      EnsureIndex();
      index := disk;
      var items := files[path].items;
      FixedIsIndexed(rules, disk, files, key);
      if Lookup(disk, key).None? {
        NoteDisk(key, files[path].size);
      }
      ghost var disk1 := disk;
      Remember(key, items);
      ghost var memory1 := memory;
      Touch(key);
      IndexedSame(disk1, disk, files);
      MemorySame(rules, puts, memory1, memory) by {
        MemoryAfterLoad(rules, puts, old(memory), memory1, key, items);
      }
      r := Some(items);
    }

    /** `put`: remember the items and, when the turn is over, write the key's file, index it and evict.
        `failing` says that writing fails, `stuck` which files cannot be removed. */
    method Put(key: Key, items: seq<Item>, terminal: bool, size: nat, mtime: int, failing: bool, stuck: set<Key>)
      returns (ghost index: seq<Slot<nat>>)
      requires Valid()
      modifies this
      ensures Valid()
      ensures State() ==
              AfterPut(rules, Bounds(), old(State()), index, key, items, terminal, size, mtime, failing, stuck)
      ensures indexLoaded ==> Listing(old(State()), index)
      ensures puts == if key.responseId == "" || items == [] then old(puts)
                      else old(puts) + [PutRecord(key, items, terminal && !failing)]
      ensures old(tidy) && Fixed(rules, key) && stuck == {} ==> tidy
      ensures (old(tidy) && Fixed(rules, key) && key.responseId != "" && items != []
               && terminal && !failing && size <= maxCacheBytes) ==> PathOf(rules, key) in files
    {
      hide Unique, Lookup, Recounts, Stored, MemorySound, FilesSound, Indexed, FileIsCurrent, LastPut, LastWrite,
           PathOf, Fixed, Survivors, FixedFiles, PathsOf, Purged, Total, Remembered, OldestFirst, KeysLost, KeysIn;
      index := disk;
      if key.responseId == "" || items == [] { return; }
      ghost var put := PutRecord(key, items, terminal && !failing);
      MemoryFacts(rules, puts, memory);
      Remember(key, items);
      MemoryAfterPut(rules, puts, old(memory), memory, put);
      if !terminal {
        FilesAfterPut(rules, puts, files, files, put);
        puts := puts + [put];
        return;
      }
      EnsureIndex();
      index := disk;
      if failing {
        FilesAfterPut(rules, puts, files, files, put);
        puts := puts + [put];
        return;
      }
      StoreFile(key, items, size, mtime);
      ghost var listed, memory1, files1 := disk, memory, files;
      ghost var lost := Evict(stuck);
      MemoryPurged(rules, puts, memory1, lost);
      FilesFewer(rules, puts, files1, files);
      LostMeans(lost, listed, disk);
      if old(tidy) && Fixed(rules, key) && size <= maxCacheBytes {
        OwnFileStays(rules, files1, index, key, size, lost, disk, maxCacheBytes);
        assert PathOf(rules, key) !in PathsOf(rules, lost - stuck) by {
          PathsFewer(rules, lost, stuck);
        }
      }
    }

    /** The key's file is written and indexed. */
    method StoreFile(key: Key, items: seq<Item>, size: nat, mtime: int)
      requires IndexOk() && FilesOk() && TidyOk() && indexLoaded && items != []
      requires MemorySound(rules, puts + [PutRecord(key, items, true)], memory)
      modifies `files, `puts, `tidy, `disk, `diskBytes, `sessionCounts
      ensures IndexOk() && FilesOk() && TidyOk() && MemorySound(rules, puts, memory)
      ensures puts == old(puts) + [PutRecord(key, items, true)]
      ensures files == old(files)[PathOf(rules, key) := File(items, size, mtime)]
      ensures disk == Stored(old(disk), key, size) && tidy == (old(tidy) && Fixed(rules, key))
    {
      hide Unique, Lookup, Recounts, Stored, MemorySound, FilesSound, Indexed, FileIsCurrent, LastPut, LastWrite,
           PathOf, Fixed, FixedFiles, Total;
      ghost var put := PutRecord(key, items, true);
      var file := File(items, size, mtime);
      StoreStaysTidy(rules, disk, files, key, file);
      FilesAfterPut(rules, puts, files, files[PathOf(rules, key) := file], put);
      files := files[PathOf(rules, key) := file];
      puts := puts + [put];
      tidy := tidy && Fixed(rules, key);
      NoteDisk(key, size);
    }

    /** `latest`: the most recently used conversation of a session. */
    method Latest(session: string) returns (r: Option<seq<Item>>, ghost index: seq<Slot<nat>>)
      requires Valid()
      modifies `memory, `disk, `diskBytes, `sessionCounts, `indexLoaded, `tidy
      ensures Valid() && (indexLoaded ==> Listing(old(State()), index))
      ensures r == LatestIn(rules, old(State()), index, session)
      ensures State() == AfterLatest(rules, Bounds(), old(State()), index, session)
      ensures old(tidy) ==> tidy
    {
      hide Unique, Lookup, Total, Recounts, Stored, Touched, MemorySound, FilesSound, Indexed, FileIsCurrent, LastPut,
           LastWrite, PathOf, Fixed, Fetched, MostRecent, FixedFiles, OldestFirst, Remembered;
      index := disk;
      if session == "" { return None, index; }
      EnsureIndex();
      index := disk;
      var recent := FindRecent(disk, session);
      if recent.Some? {
        IndexedIsFixed(rules, disk, files, recent.value);
        ghost var listing: seq<Slot<nat>>;
        r, listing := Get(recent.value);
        return;
      }
      recent := FindRecent(memory, session);
      if recent.None? { return None, index; }
      r := Lookup(memory, recent.value);
    }

    /** `prune_until`. */
    method PruneUntil(limit: nat, stuck: set<Key>) returns (ghost index: seq<Slot<nat>>)
      requires Valid()
      modifies `memory, `disk, `diskBytes, `sessionCounts, `indexLoaded, `files, `tidy
      ensures Valid() && diskBytes <= limit
      ensures State() == AfterPrune(rules, old(State()), index, limit, stuck)
      ensures indexLoaded && Listing(old(State()), index)
      ensures old(tidy) && stuck == {} ==> tidy
    {
      hide Unique, Lookup, Total, Recounts, MemorySound, FilesSound, Indexed, FileIsCurrent, PathsOf, Purged,
           FixedFiles, OldestFirst, KeysLost, KeysIn;
      MemoryFacts(rules, puts, memory);
      EnsureIndex();
      index := disk;
      var n := FittingIsLongest(disk, limit);
      ghost var lost := DropUntil(limit, stuck);
      MemoryPurged(rules, puts, old(memory), lost);
      FilesFewer(rules, puts, old(files), files);
      LostMeans(lost, index, disk);
    }
  }

  lemma PathsFewer(rules: PathRules, keys: set<Key>, stuck: set<Key>)
    ensures PathsOf(rules, keys - stuck) <= PathsOf(rules, keys)
  {
  }

  /** In a tidy run a put that fits on its own does not remove the file it has written. */
  lemma OwnFileStays(rules: PathRules, files: map<Path, File>, index: seq<Slot<nat>>, key: Key, size: nat,
                     lost: set<Key>, disk: seq<Slot<nat>>, limit: nat)
    requires Unique(index) && FixedFiles(rules, files) && Indexed(Stored(index, key, size), files)
    requires disk == Survivors(Stored(index, key, size), MAX_CACHED_RESPONSES_PER_SESSION, limit)
    requires lost <= KeysIn(Stored(index, key, size)) && forall x :: x in disk ==> x.key !in lost
    requires size <= limit && Fixed(rules, key)
    ensures PathOf(rules, key) !in PathsOf(rules, lost)
  {
    hide Survivors, Stored, Fixed, PathOf, Indexed, FixedFiles, Unique;
    var listed := Stored(index, key, size);
    StoredLast(index, key, size);
    SurvivorsFit(listed, MAX_CACHED_RESPONSES_PER_SESSION, limit);
    assert disk[|disk| - 1] in disk;
    forall k | k in lost ensures PathOf(rules, k) != PathOf(rules, key) {
      var x :| x in listed && x.key == k;
      IndexedIsFixed(rules, listed, files, k);
      FixedKeysApart(rules, k, key);
    }
  }

  /** The keys dropped are the keys no longer listed. */
  lemma LostMeans(lost: set<Key>, d: seq<Slot<nat>>, after: seq<Slot<nat>>)
    requires Unique(d) && lost <= KeysIn(d) && forall x :: x in after <==> x in d && x.key !in lost
    ensures lost == KeysLost(d, after)
  {
    forall k ensures k in lost <==> k in KeysLost(d, after) {
      if k in lost {
        var x :| x in d && x.key == k;
        assert x !in after;
      }
    }
  }

  /** In a tidy run every listed key is left alone by sanitizing. */
  lemma IndexedIsFixed(rules: PathRules, disk: seq<Slot<nat>>, files: map<Path, File>, key: Key)
    requires exists x :: x in disk && x.key == key
    ensures FixedFiles(rules, files) && Indexed(disk, files) ==> Fixed(rules, key)
  {
    KeyForPath(key, key);
  }

  // ---- Whole runs ----

  datatype Operation =
    | Store(key: Key, items: seq<Item>, terminal: bool, size: nat, mtime: int, failing: bool, stuck: set<Key>)
    | Load(key: Key)
    | LoadLatest(session: string)
    | Prune(limit: nat, stuck: set<Key>)
    | NewProcess

  function PutsOf(operations: seq<Operation>): seq<PutRecord> {
    if operations == [] then []
    else
      var last := operations[|operations| - 1];
      PutsOf(operations[..|operations| - 1])
      + (if last.Store? && last.key.responseId != "" && last.items != []
         then [PutRecord(last.key, last.items, last.terminal && !last.failing)] else [])
  }

  /** The state after an operation that works on a given index. */
  ghost function After(rules: PathRules, limits: Limits, s: CacheState, index: seq<Slot<nat>>, op: Operation)
    : CacheState {
    match op
    case Store(key, items, terminal, size, mtime, failing, stuck) =>
      AfterPut(rules, limits, s, index, key, items, terminal, size, mtime, failing, stuck)
    case Load(key) => AfterGet(rules, limits, s, index, key)
    case LoadLatest(session) => AfterLatest(rules, limits, s, index, session)
    case Prune(limit, stuck) => AfterPrune(rules, s, index, limit, stuck)
    case NewProcess => CacheState([], [], s.files, false)
  }

  function AnswerTo(rules: PathRules, s: CacheState, index: seq<Slot<nat>>, op: Operation): Option<seq<Item>> {
    match op
    case Load(key) => Fetched(rules, s.memory, s.files, key)
    case LoadLatest(session) => LatestIn(rules, s, index, session)
    case _ => None
  }

  /** One operation: on the index in memory or on a fresh listing of the directory. */
  ghost predicate Moves(rules: PathRules, limits: Limits, op: Operation, s: CacheState, answer: Option<seq<Item>>,
                        after: CacheState) {
    exists index ::
      && (after.indexLoaded ==> Listing(s, index))
      && after == After(rules, limits, s, index, op) && answer == AnswerTo(rules, s, index, op)
  }

  /** What a load answers: from a current file, what was last put under the key; and if it read the file, the
      items of the put that last wrote it, which is the key's own last put exactly if the file is current. */
  ghost predicate LoadsRight(rules: PathRules, puts: seq<PutRecord>, key: Key, s: CacheState,
                             answer: Option<seq<Item>>) {
    var written := LastWriteAt(rules, puts, PathOf(rules, key));
    && (FileIsCurrent(rules, puts, key) ==> answer == LastPut(puts, key))
    && (Lookup(s.memory, key).None? ==>
          && written.Some? && written.value < |puts| && answer == Some(puts[written.value].items)
          && (FileIsCurrent(rules, puts, key) <==> LastPutAt(puts, key) == written))
  }

  /** All keys are left alone by sanitizing, and every file to be removed is removed. */
  predicate IsTidy(rules: PathRules, op: Operation) {
    match op
    case Store(key, _, _, _, _, _, stuck) => Fixed(rules, key) && stuck == {}
    case Load(key) => Fixed(rules, key)
    case Prune(_, stuck) => stuck == {}
    case LoadLatest(_) => true
    case NewProcess => true
  }

  predicate TidyRun(rules: PathRules, operations: seq<Operation>) {
    forall op :: op in operations ==> IsTidy(rules, op)
  }

  /** A rebuild from the directory would list exactly what the index lists. */
  ghost predicate Rebuilds(s: CacheState) {
    forall index :: Listing(s.(indexLoaded := false), index) ==> forall x :: x in index <==> x in s.disk
  }

  /** A put that wrote its file leaves every session within its cap and the total within the limit, and its own
      entry as the most recent one if that fits alone. */
  ghost predicate Fits(limits: Limits, op: Operation, after: CacheState) {
    op.Store? && op.terminal && !op.failing && op.key.responseId != "" && op.items != [] ==>
      && Total(after.disk) <= limits.bytes
      && (forall s :: CountOf(after.disk, s) <= MAX_CACHED_RESPONSES_PER_SESSION)
      && (op.size <= limits.bytes ==> after.disk != [] && after.disk[|after.disk| - 1] == Slot(op.key, op.size))
  }

  lemma PutFits(rules: PathRules, limits: Limits, s: CacheState, index: seq<Slot<nat>>, op: Operation)
    ensures Fits(limits, op, After(rules, limits, s, index, op))
  {
    hide Survivors, Remembered, Purged, PathsOf, KeysLost, CountOf, Total;
    if op.Store? {
      var listed := Stored(index, op.key, op.size);
      StoredLast(index, op.key, op.size);
      SurvivorsFit(listed, MAX_CACHED_RESPONSES_PER_SESSION, limits.bytes);
    }
  }

  /** An index that agrees with the directory is found again by a rebuild. */
  lemma IndexRebuilds(s: CacheState)
    requires Indexed(s.disk, s.files)
    ensures Rebuilds(s)
  {
  }

  // ---- Recency ----

  /** The entry is the most recent one of a dictionary with room for any. */
  ghost predicate IsLast<V>(d: seq<Slot<V>>, x: Slot<V>, cap: nat) {
    cap > 0 ==> d != [] && d[|d| - 1] == x
  }

  /** What is used becomes the most recent entry, in memory and in the index, and otherwise entries stand as they
      stood; only to make room in memory the oldest ones go. */
  ghost predicate UsedLast(limits: Limits, key: Key, items: seq<Item>, s: CacheState, after: CacheState) {
    && IsLast(after.memory, Slot(key, items), limits.entries)
    && (if exists i: nat :: At(s.memory, i, key) then
          MovedLast(s.memory, key, after.memory) && MovedLast(s.disk, key, after.disk)
        else
          && after.disk != [] && after.disk[|after.disk| - 1].key == key
          && exists n: nat :: n <= |s.memory| + 1 && after.memory == (s.memory + [Slot(key, items)])[n..]
                              && (n > 0 ==> |after.memory| == limits.entries))
  }

  /** A load that answers, `latest` when it finds a listed conversation, and a put use their key. */
  ghost predicate Recent(limits: Limits, op: Operation, s: CacheState, answer: Option<seq<Item>>, after: CacheState) {
    match op
    case Load(key) => answer.Some? ==> UsedLast(limits, key, answer.value, s, after)
    case LoadLatest(session) =>
      answer.Some? && (exists x :: x in after.disk && x.key.session == session) ==>
        && after.disk[|after.disk| - 1].key.session == session
        && IsLast(after.memory, Slot(after.disk[|after.disk| - 1].key, answer.value), limits.entries)
        && (s.indexLoaded ==> IsMostRecent(s.disk, session, Some(after.disk[|after.disk| - 1].key)))
    case Store(key, items, terminal, size, _, failing, _) =>
      key.responseId != "" && items != [] && (terminal && !failing ==> size <= limits.bytes) ==>
        IsLast(after.memory, Slot(key, items), limits.entries)
    case _ => true
  }

  lemma RememberedMeans(memory: seq<Slot<seq<Item>>>, key: Key, items: seq<Item>, cap: nat)
    ensures var r := Remembered(memory, key, items, cap);
            && IsLast(r, Slot(key, items), cap)
            && ((forall i: nat :: !At(memory, i, key)) ==>
                  exists n: nat :: n <= |memory| + 1 && r == (memory + [Slot(key, items)])[n..]
                                   && (n > 0 ==> |r| == cap))
  {
    WithoutAt(memory, key);
    var all := Stored(memory, key, items);
    if forall i: nat :: !At(memory, i, key) {
      var n := if |all| > cap then |all| - cap else 0;
      assert all == memory + [Slot(key, items)] && Remembered(memory, key, items, cap) == all[n..];
    }
  }

  lemma NoSlot<V(!new)>(d: seq<Slot<V>>, key: Key)
    ensures Lookup(d, key).Some? <==> exists i: nat :: At(d, i, key)
  {
    WithoutAt(d, key);
  }

  /** A key that is there is the last one once it is touched. */
  lemma TouchedIsLast<V(!new)>(d: seq<Slot<V>>, key: Key)
    requires Lookup(d, key).Some?
    ensures var r := Touched(d, key); r != [] && r[|r| - 1] == Slot(key, Lookup(d, key).value)
  {
  }

  lemma GetRecent(rules: PathRules, limits: Limits, s: CacheState, index: seq<Slot<nat>>, key: Key)
    requires Unique(s.memory) && |s.memory| <= limits.entries
    requires Fetched(rules, s.memory, s.files, key).Some?
    ensures UsedLast(limits, key, Fetched(rules, s.memory, s.files, key).value, s,
                     AfterGet(rules, limits, s, index, key))
    ensures s.disk == index && Lookup(index, key).Some? ==>
              var r := AfterGet(rules, limits, s, index, key).disk; r != [] && r[|r| - 1].key == key
  {
    hide Touched, Stored, Remembered, MovedLast, PathOf, Unique;
    var items := Fetched(rules, s.memory, s.files, key).value;
    NoSlot(s.memory, key);
    if Lookup(s.memory, key).Some? {
      TouchedMeans(s.memory, key);
      TouchedMeans(s.disk, key);
      TouchedIsLast(s.memory, key);
      if Lookup(s.disk, key).Some? { TouchedIsLast(s.disk, key); }
    } else {
      var memory := Remembered(s.memory, key, items, limits.entries);
      RememberedMeans(s.memory, key, items, limits.entries);
      var listed := if Lookup(index, key).Some? then index else Stored(index, key, s.files[PathOf(rules, key)].size);
      StoredFound(index, key, s.files[PathOf(rules, key)].size);
      TouchedIsLast(listed, key);
      RememberedStays(s.memory, key, items, limits.entries);
    }
  }

  lemma StoredFound(d: seq<Slot<nat>>, key: Key, size: nat)
    ensures Lookup(Stored(d, key, size), key).Some?
  {
    var r := Stored(d, key, size);
    assert r[|r| - 1] in r;
  }

  lemma RememberedStays(memory: seq<Slot<seq<Item>>>, key: Key, items: seq<Item>, cap: nat)
    requires Unique(memory) && |memory| <= cap
    ensures var r := Remembered(memory, key, items, cap); Touched(r, key) == r
  {
    StoredKeeps(memory, key, items);
    var all := Stored(memory, key, items);
    var r := Remembered(memory, key, items, cap);
    if r != [] { TouchedLast(r, key); }
  }

  lemma PutRecent(rules: PathRules, limits: Limits, s: CacheState, index: seq<Slot<nat>>, op: Operation)
    requires op.Store? && (op.terminal && !op.failing && op.key.responseId != "" && op.items != [] ==> Unique(index))
    ensures Recent(limits, op, s, None, After(rules, limits, s, index, op))
  {
    hide Remembered, Survivors, PathsOf, Purged, KeysLost;
    RememberedMeans(s.memory, op.key, op.items, limits.entries);
    var memory := Remembered(s.memory, op.key, op.items, limits.entries);
    if && op.terminal && !op.failing && op.key.responseId != "" && op.items != [] && op.size <= limits.bytes
       && limits.entries > 0
    {
      var listed := Stored(index, op.key, op.size);
      StoredLast(index, op.key, op.size);
      SurvivorsFit(listed, MAX_CACHED_RESPONSES_PER_SESSION, limits.bytes);
      var kept := Survivors(listed, MAX_CACHED_RESPONSES_PER_SESSION, limits.bytes);
      assert kept[|kept| - 1] in kept;
      StoredKeeps(index, op.key, op.size);
      NotLost(listed, kept, op.key);
      PurgedLast(memory, KeysLost(listed, kept));
    }
  }

  lemma NotLost(d: seq<Slot<nat>>, after: seq<Slot<nat>>, key: Key)
    requires Unique(d) && exists x :: x in d && x in after && x.key == key
    ensures key !in KeysLost(d, after)
  {
    var x :| x in d && x in after && x.key == key;
    forall y | y in d && y.key == key ensures y == x {
      LookupOne(d, x);
      LookupOne(d, y);
    }
  }

  lemma {:induction false} PurgedLast(d: seq<Slot<seq<Item>>>, keys: set<Key>)
    requires d != [] && d[|d| - 1].key !in keys
    ensures var r := Purged(d, keys); r != [] && r[|r| - 1] == d[|d| - 1]
  {
    if |d| > 1 {
      PurgedLast(d[1..], keys);
    } else {
      assert d[1..] == [];
    }
  }

  lemma LatestRecent(rules: PathRules, limits: Limits, s: CacheState, index: seq<Slot<nat>>, session: string)
    requires Unique(s.memory) && |s.memory| <= limits.entries
    requires session != "" && s.indexLoaded ==> index == s.disk
    ensures Recent(limits, LoadLatest(session), s, LatestIn(rules, s, index, session),
                   AfterLatest(rules, limits, s, index, session))
  {
    hide AfterGet, Fetched, MostRecent, Unique, MovedLast;
    MostRecentIsLast(index, session);
    var answer, after := LatestIn(rules, s, index, session), AfterLatest(rules, limits, s, index, session);
    if session != "" && answer.Some? {
      var recent := MostRecent(index, session);
      if recent.Some? {
        var listed := s.(disk := index, indexLoaded := true);
        NoSlot(index, recent.value);
        GetRecent(rules, limits, listed, index, recent.value);
      }
    }
  }

  lemma TidySoFar(rules: PathRules, operations: seq<Operation>, n: nat)
    requires n < |operations|
    ensures TidyRun(rules, operations[..n + 1]) <==> TidyRun(rules, operations[..n]) && IsTidy(rules, operations[n])
  {
    hide IsTidy;
    assert operations[..n + 1] == operations[..n] + [operations[n]];
    forall op ensures op in operations[..n + 1] <==> op in operations[..n] || op == operations[n] {
    }
  }

  lemma LoadIsRight(rules: PathRules, puts: seq<PutRecord>, key: Key, s: CacheState, answer: Option<seq<Item>>)
    requires FileIsCurrent(rules, puts, key) ==> answer == LastPut(puts, key)
    requires answer.Some? && (Lookup(s.memory, key).None? ==> answer == LastWrite(rules, puts, PathOf(rules, key)))
    ensures LoadsRight(rules, puts, key, s, answer)
  {
    hide FileIsCurrent, Lookup, LastPutAt, LastWriteAt, PathOf;
    LastWriteBound(rules, puts, PathOf(rules, key));
    CurrentMeans(rules, puts, key);
  }

  // ---- Answers ----

  /** What a load finds: the entry in memory if there is one, and otherwise what the key's file holds. */
  ghost predicate Finds(rules: PathRules, s: CacheState, key: Key, answer: Option<seq<Item>>) {
    if key.responseId == "" then answer == None
    else if exists i: nat :: At(s.memory, i, key) then
      exists i: nat :: At(s.memory, i, key) && answer == Some(s.memory[i].value)
    else answer == if PathOf(rules, key) in s.files then Some(s.files[PathOf(rules, key)].items) else None
  }

  /** What `latest` finds: what a load of the last listed key of the session does or, when none is listed, the last
      entry of the session in memory. */
  ghost predicate FindsLatest(rules: PathRules, s: CacheState, index: seq<Slot<nat>>, session: string,
                              answer: Option<seq<Item>>) {
    if session == "" then answer == None
    else
      && (forall key :: IsMostRecent(index, session, Some(key)) ==> Finds(rules, s, key, answer))
      && (IsMostRecent(index, session, None) ==>
            && (forall key :: IsMostRecent(s.memory, session, Some(key)) ==>
                  exists i: nat :: At(s.memory, i, key) && answer == Some(s.memory[i].value))
            && (IsMostRecent(s.memory, session, None) ==> answer == None))
  }

  ghost predicate AnswersRight(rules: PathRules, s: CacheState, op: Operation, answer: Option<seq<Item>>) {
    match op
    case Load(key) => Finds(rules, s, key, answer)
    case LoadLatest(session) =>
      session != "" ==> exists index :: Listing(s, index) && FindsLatest(rules, s, index, session, answer)
    case _ => answer == None
  }

  lemma FetchedFinds(rules: PathRules, s: CacheState, key: Key)
    ensures Finds(rules, s, key, Fetched(rules, s.memory, s.files, key))
  {
    hide Lookup, PathOf;
    WithoutAt(s.memory, key);
  }

  lemma MostRecentOnly<V(!new)>(d: seq<Slot<V>>, session: string, key: Option<Key>)
    requires IsMostRecent(d, session, key)
    ensures key == MostRecent(d, session)
  {
    hide MostRecent;
    MostRecentIsLast(d, session);
    var other := MostRecent(d, session);
    if key.Some? && other.Some? {
      var i: nat :| At(d, i, key.value) && forall j :: i < j < |d| ==> d[j].key.session != session;
      var j: nat :| At(d, j, other.value) && forall l :: j < l < |d| ==> d[l].key.session != session;
      assert i == j;
    }
  }

  lemma LatestFinds(rules: PathRules, s: CacheState, index: seq<Slot<nat>>, session: string)
    ensures FindsLatest(rules, s, index, session, LatestIn(rules, s, index, session))
  {
    hide Finds, MostRecent, IsMostRecent, Lookup, Fetched;
    var answer, inMemory := LatestIn(rules, s, index, session), MostRecent(s.memory, session);
    forall key | IsMostRecent(index, session, key) ensures key == MostRecent(index, session) {
      MostRecentOnly(index, session, key);
    }
    forall key | IsMostRecent(s.memory, session, key) ensures key == inMemory {
      MostRecentOnly(s.memory, session, key);
    }
    if MostRecent(index, session).Some? {
      FetchedFinds(rules, s, MostRecent(index, session).value);
    } else if inMemory.Some? {
      FoundHere(s.memory, session);
    }
  }

  lemma FoundHere(memory: seq<Slot<seq<Item>>>, session: string)
    requires MostRecent(memory, session).Some?
    ensures var key := MostRecent(memory, session).value;
            exists i: nat :: At(memory, i, key) && Lookup(memory, key) == Some(memory[i].value)
  {
    hide MostRecent, Lookup;
    MostRecentIsLast(memory, session);
    WithoutAt(memory, MostRecent(memory, session).value);
  }

  lemma LatestLoads(rules: PathRules, limits: Limits, s: CacheState, index: seq<Slot<nat>>, session: string)
    ensures session != "" ==> AfterLatest(rules, limits, s, index, session).indexLoaded
  {
    hide Lookup, PathOf, Touched, Remembered, Stored, MostRecent;
  }

  lemma StepAnswers(rules: PathRules, limits: Limits, s: CacheState, index: seq<Slot<nat>>, op: Operation)
    requires After(rules, limits, s, index, op).indexLoaded ==> Listing(s, index)
    ensures AnswersRight(rules, s, op, AnswerTo(rules, s, index, op))
  {
    hide Finds, FindsLatest, Fetched, LatestIn, AfterLatest, Listing;
    match op
    case Load(key) => FetchedFinds(rules, s, key);
    case LoadLatest(session) =>
      LatestLoads(rules, limits, s, index, session);
      LatestFinds(rules, s, index, session);
    case _ =>
  }

  /** What holds of the operation at `n` in a run, between the states before and after it. */
  ghost predicate Served(rules: PathRules, limits: Limits, operations: seq<Operation>, n: nat, s: CacheState,
                         answer: Option<seq<Item>>, after: CacheState)
    requires n < |operations|
  {
    var op := operations[n];
    && Moves(rules, limits, op, s, answer, after)
    && |after.memory| <= limits.entries && Fits(limits, op, after) && Recent(limits, op, s, answer, after)
    && AnswersRight(rules, s, op, answer)
    && (op.Load? && answer.Some? ==> LoadsRight(rules, PutsOf(operations[..n]), op.key, s, answer))
    && (TidyRun(rules, operations[..n + 1]) && after.indexLoaded ==> Rebuilds(after))
  }

  /** Any run over one directory, across restarts. Every operation moves the state as defined; the memory stays
      within its cap and puts within theirs; a load is right as far as the key's file is current; and as long
      as the run is tidy, a rebuild would find the index as it is. */
  method Serve(rules: PathRules, limits: Limits, operations: seq<Operation>)
    returns (answers: seq<Option<seq<Item>>>, states: seq<CacheState>)
    ensures |answers| == |operations| && |states| == |operations| + 1
    ensures states[0] == CacheState([], [], map[], false)
    ensures forall n :: 0 <= n < |operations| ==>
              Served(rules, limits, operations, n, states[n], answers[n], states[n + 1])
  {
    hide LoadsRight, Moves, Fits, TidyRun, Rebuilds, IsTidy, Served, Recent, AnswersRight,
         ChatgptConversationCache.Valid;
    var cache := new ChatgptConversationCache(rules, limits.entries, limits.bytes);
    answers, states := [], [CacheState(cache.memory, cache.disk, cache.files, cache.indexLoaded)];
    for n := 0 to |operations|
      invariant fresh(cache) && cache.Valid() && cache.rules == rules && cache.Bounds() == limits
      invariant |answers| == n && |states| == n + 1 && states[0] == CacheState([], [], map[], false)
      invariant cache.puts == PutsOf(operations[..n]) && states[n] == cache.State()
      invariant TidyRun(rules, operations[..n]) ==> cache.tidy
      invariant forall m :: 0 <= m < n ==> Served(rules, limits, operations, m, states[m], answers[m], states[m + 1])
    {
      PutsSoFar(operations, n);
      TidySoFar(rules, operations, n);
      ghost var puts := cache.puts;
      var answer := ServeOne(cache, operations[n]);
      assert Served(rules, limits, operations, n, states[n], answer, cache.State()) by {
        ServedHere(rules, limits, operations, n, states[n], answer, cache.State(), puts);
      }
      answers := answers + [answer];
      states := states + [CacheState(cache.memory, cache.disk, cache.files, cache.indexLoaded)];
    }
    assert operations[..|operations|] == operations;
  }

  lemma PutsSoFar(operations: seq<Operation>, n: nat)
    requires n < |operations|
    ensures PutsOf(operations[..n + 1]) == PutsOf(operations[..n]) + PutsOf([operations[n]])
  {
    assert operations[..n + 1][..n] == operations[..n];
    assert [operations[n]][..0] == [];
  }

  lemma ServedHere(rules: PathRules, limits: Limits, operations: seq<Operation>, n: nat, s: CacheState,
                   answer: Option<seq<Item>>, after: CacheState, puts: seq<PutRecord>)
    requires n < |operations| && puts == PutsOf(operations[..n])
    requires Moves(rules, limits, operations[n], s, answer, after)
    requires |after.memory| <= limits.entries && Fits(limits, operations[n], after)
    requires Recent(limits, operations[n], s, answer, after) && AnswersRight(rules, s, operations[n], answer)
    requires operations[n].Load? && answer.Some? ==> LoadsRight(rules, puts, operations[n].key, s, answer)
    requires TidyRun(rules, operations[..n + 1]) && after.indexLoaded ==> Rebuilds(after)
    ensures Served(rules, limits, operations, n, s, answer, after)
  {
  }

  lemma StepRecent(rules: PathRules, limits: Limits, s: CacheState, index: seq<Slot<nat>>, op: Operation)
    requires Unique(s.memory) && |s.memory| <= limits.entries && Unique(s.disk)
    requires After(rules, limits, s, index, op).indexLoaded ==> Listing(s, index)
    ensures Recent(limits, op, s, AnswerTo(rules, s, index, op), After(rules, limits, s, index, op))
  {
    hide AfterGet, AfterLatest, Fetched, LatestIn, Unique, UsedLast;
    match op
    case Load(key) => if Fetched(rules, s.memory, s.files, key).Some? { GetRecent(rules, limits, s, index, key); }
    case LoadLatest(session) =>
      LatestLoads(rules, limits, s, index, session);
      LatestRecent(rules, limits, s, index, session);
    case Store(_, _, _, _, _, _, _) => PutRecent(rules, limits, s, index, op);
    case _ =>
  }

  /** One operation of a run. */
  method ServeOne(cache: ChatgptConversationCache, op: Operation) returns (answer: Option<seq<Item>>)
    requires cache.Valid()
    modifies cache
    ensures cache.Valid()
    ensures Moves(cache.rules, cache.Bounds(), op, old(cache.State()), answer, cache.State())
    ensures |cache.memory| <= cache.maxMemoryEntries && Fits(cache.Bounds(), op, cache.State())
    ensures Recent(cache.Bounds(), op, old(cache.State()), answer, cache.State())
    ensures AnswersRight(cache.rules, old(cache.State()), op, answer)
    ensures op.Load? && answer.Some? ==> LoadsRight(cache.rules, old(cache.puts), op.key, old(cache.State()), answer)
    ensures cache.puts == old(cache.puts) + PutsOf([op])
    ensures old(cache.tidy) && IsTidy(cache.rules, op) ==> cache.tidy
    ensures cache.tidy && cache.indexLoaded ==> Rebuilds(cache.State())
  {
    hide LoadsRight, Fits, Rebuilds, FileIsCurrent, LastPut, LastWrite, PathOf, Fixed, Unique, Lookup, Total, Recounts,
         MemorySound, FilesSound, Indexed, FixedFiles, Listing, AfterPut, AfterGet, AfterLatest, AfterPrune, Fetched,
         LatestIn, Recent, AnswersRight;
    answer := None;
    assert [op][..0] == [];
    MemoryFacts(cache.rules, cache.puts, cache.memory);
    ghost var index := cache.disk;
    match op {
      case Store(key, items, terminal, size, mtime, failing, stuck) =>
        index := cache.Put(key, items, terminal, size, mtime, failing, stuck);
      case Load(key) =>
        answer, index := cache.Get(key);
        if answer.Some? {
          LoadIsRight(cache.rules, cache.puts, key, old(cache.State()), answer);
        }
      case LoadLatest(session) => answer, index := cache.Latest(session);
      case Prune(limit, stuck) => index := cache.PruneUntil(limit, stuck);
      case NewProcess => cache.Restart();
    }
    PutFits(cache.rules, cache.Bounds(), old(cache.State()), index, op);
    StepRecent(cache.rules, cache.Bounds(), old(cache.State()), index, op);
    StepAnswers(cache.rules, cache.Bounds(), old(cache.State()), index, op);
    if cache.tidy && cache.indexLoaded {
      IndexRebuilds(cache.State());
    }
  }

  lemma WithoutNone(d: seq<Slot<seq<Item>>>, key: Key)
    requires forall i :: 0 <= i < |d| ==> d[i].key != key
    ensures Without(d, key) == d
  {
    hide Without;
    WithoutIs(d, key);
  }

  /** A memory of two: `a`, `b`, then `a` again, then `c`. What was used last stays. */
  lemma {:induction false} RecentStaysExample(a: Key, b: Key, c: Key, x: seq<Item>)
    requires a != b && a != c && b != c
    ensures var two := Remembered(Remembered([], a, x, 2), b, x, 2);
            && two == [Slot(a, x), Slot(b, x)] && Touched(two, a) == [Slot(b, x), Slot(a, x)]
            && Remembered(Touched(two, a), c, x, 2) == [Slot(a, x), Slot(c, x)]
  {
    hide Lookup;
    var one, two := [Slot(a, x)], [Slot(a, x), Slot(b, x)];
    var swapped := [Slot(b, x), Slot(a, x)];
    assert Stored([], a, x) == one;
    WithoutNone(one, b);
    assert Stored(one, b, x) == two;
    assert Lookup(two, a) == Some(x) && Without(two, a) == [Slot(b, x)] by {
      LookupIs(two, a);
      assert At(two, 0, a) && two[1..] == [Slot(b, x)];
    }
    assert Touched(two, a) == swapped;
    WithoutNone(swapped, c);
    assert Stored(swapped, c, x)[1..] == [Slot(a, x), Slot(c, x)];
  }

  /** Two keys with one file: what was put under the first is gone after a restart. */
  method SharedFileExample(rules: PathRules, x: Item, y: Item) returns (answer: Option<seq<Item>>)
    requires x != y
    ensures answer != Some([x])
  {
    hide AfterPut, AfterGet, Fetched, Fixed, FixedFiles, Listing, MemorySound, FilesSound, Indexed, FileIsCurrent;
    var cache := new ChatgptConversationCache(rules, 256, 1000);
    SharedFile(rules);
    var first, second := Key("s", "a/b"), Key("s", "a_b");
    ghost var index := cache.Put(first, [x], true, 1, 0, false, {});
    index := cache.Put(second, [y], true, 1, 1, false, {});
    cache.Restart();
    answer, index := cache.Get(first);
    PutsSnoc(rules, [PutRecord(first, [x], true)], PutRecord(second, [y], true), first, PathOf(rules, first));
    assert [] + [PutRecord(first, [x], true)] == [PutRecord(first, [x], true)];
    assert answer.Some? ==> answer.value == [y];
  }

  /** A put that is not terminal is lost with the memory: the file still has the previous value. */
  method UnfinishedTurnExample(rules: PathRules, key: Key, x: Item, y: Item) returns (answer: Option<seq<Item>>)
    requires x != y && key.responseId != ""
    ensures answer != Some([y])
  {
    hide AfterPut, AfterGet, Fetched, Fixed, FixedFiles, Listing, MemorySound, FilesSound, Indexed, FileIsCurrent;
    var cache := new ChatgptConversationCache(rules, 256, 1000);
    ghost var index := cache.Put(key, [x], true, 1, 0, false, {});
    index := cache.Put(key, [y], false, 1, 1, false, {});
    cache.Restart();
    answer, index := cache.Get(key);
    PutsSnoc(rules, [PutRecord(key, [x], true)], PutRecord(key, [y], false), key, PathOf(rules, key));
    PutsSnoc(rules, [], PutRecord(key, [x], true), key, PathOf(rules, key));
    assert [] + [PutRecord(key, [x], true)] == [PutRecord(key, [x], true)];
    assert answer.Some? ==> answer.value == [x];
  }

  /** Search an ordered dictionary from its most recent entry. */
  method FindRecent<V>(d: seq<Slot<V>>, session: string) returns (r: Option<Key>)
    ensures r == MostRecent(d, session) && IsMostRecent(d, session, r)
    ensures r.Some? ==> r.value.session == session && exists x :: x in d && x.key == r.value
  {
    MostRecentIsLast(d, session);
    var i := |d|;
    assert d[..i] == d;
    while i > 0
      invariant 0 <= i <= |d| && MostRecent(d[..i], session) == MostRecent(d, session)
    {
      if d[i - 1].key.session == session {
        assert d[i - 1] in d;
        return Some(d[i - 1].key);
      }
      assert d[..i][..i - 1] == d[..i - 1];
      i := i - 1;
    }
    r := None;
  }

  lemma MemoryFacts(rules: PathRules, puts: seq<PutRecord>, memory: seq<Slot<seq<Item>>>)
    requires MemorySound(rules, puts, memory)
    ensures Unique(memory)
    ensures forall key :: Lookup(memory, key).Some? ==>
              && Lookup(memory, key).value != []
              && (FileIsCurrent(rules, puts, key) ==> LastPut(puts, key) == Lookup(memory, key))
    ensures forall x :: x in memory ==>
              x.value != [] && (FileIsCurrent(rules, puts, x.key) ==> LastPut(puts, x.key) == Some(x.value))
  {
    forall key | Lookup(memory, key).Some?
      ensures Lookup(memory, key).value != []
              && (FileIsCurrent(rules, puts, key) ==> LastPut(puts, key) == Lookup(memory, key))
    {
      assert Slot(key, Lookup(memory, key).value) in memory;
    }
  }

  lemma MemorySame(rules: PathRules, puts: seq<PutRecord>, memory: seq<Slot<seq<Item>>>, after: seq<Slot<seq<Item>>>)
    requires MemorySound(rules, puts, memory) && Unique(after) && forall x :: x in after <==> x in memory
    ensures MemorySound(rules, puts, after)
  {
  }

  lemma IndexedSame(disk: seq<Slot<nat>>, after: seq<Slot<nat>>, files: map<Path, File>)
    requires forall x :: x in after <==> x in disk
    ensures Indexed(after, files) <==> Indexed(disk, files)
  {
  }

  lemma FileFacts(rules: PathRules, puts: seq<PutRecord>, files: map<Path, File>, key: Key)
    requires FilesSound(rules, puts, files) && PathOf(rules, key) in files
    ensures var items := files[PathOf(rules, key)].items;
            && items != [] && LastWrite(rules, puts, PathOf(rules, key)) == Some(items)
            && (FileIsCurrent(rules, puts, key) ==> LastPut(puts, key) == Some(items))
  {
    if FileIsCurrent(rules, puts, key) {
      CurrentAgrees(rules, puts, key);
    }
  }

  lemma FixedIsIndexed(rules: PathRules, disk: seq<Slot<nat>>, files: map<Path, File>, key: Key)
    requires PathOf(rules, key) in files
    ensures Fixed(rules, key) && Indexed(disk, files) ==> Lookup(disk, key).Some?
  {
    FixedPath(rules, key);
    if Fixed(rules, key) && Indexed(disk, files) {
      assert Slot(key, files[PathOf(rules, key)].size) in disk;
    }
  }

  lemma MemoryAfterLoad(rules: PathRules, puts: seq<PutRecord>, memory: seq<Slot<seq<Item>>>,
                        after: seq<Slot<seq<Item>>>, key: Key, items: seq<Item>)
    requires MemorySound(rules, puts, memory) && Unique(after) && items != []
    requires FileIsCurrent(rules, puts, key) ==> LastPut(puts, key) == Some(items)
    requires forall x :: x in after ==> x == Slot(key, items) || (x in memory && x.key != key)
    ensures MemorySound(rules, puts, after)
  {
  }

  lemma {:induction false} StoreStaysTidy(rules: PathRules, disk: seq<Slot<nat>>, files: map<Path, File>, key: Key,
                                          file: File)
    requires Unique(disk)
    ensures FixedFiles(rules, files) && Indexed(disk, files) && Fixed(rules, key) ==>
              var after := files[PathOf(rules, key) := file];
              FixedFiles(rules, after) && Indexed(Stored(disk, key, file.size), after)
  {
    if FixedFiles(rules, files) && Indexed(disk, files) && Fixed(rules, key) {
      FixedPath(rules, key);
      KeyForPath(key, key);
      IndexedStore(disk, files, key, file);
    }
  }

  lemma SuffixUnique<V(!new)>(d: seq<Slot<V>>, n: nat)
    requires Unique(d) && n <= |d|
    ensures Unique(d[n..]) && forall x :: x in d[n..] ==> x in d
  {
  }

  lemma StoredLast(d: seq<Slot<nat>>, key: Key, size: nat)
    ensures var r := Stored(d, key, size); r != [] && r[|r| - 1] == Slot(key, size)
  {
  }

  lemma MemoryPurged(rules: PathRules, puts: seq<PutRecord>, memory: seq<Slot<seq<Item>>>, keys: set<Key>)
    requires MemorySound(rules, puts, memory)
    ensures MemorySound(rules, puts, Purged(memory, keys)) && |Purged(memory, keys)| <= |memory|
  {
    PurgedKeepsUnique(memory);
    PurgedShorter(memory, keys);
  }

  lemma PurgedShorter(d: seq<Slot<seq<Item>>>, keys: set<Key>)
    ensures |Purged(d, keys)| <= |d|
  {
  }

  lemma FilesFewer(rules: PathRules, puts: seq<PutRecord>, files: map<Path, File>, after: map<Path, File>)
    requires FilesSound(rules, puts, files)
    requires after.Keys <= files.Keys && forall p :: p in after ==> after[p] == files[p]
    ensures FilesSound(rules, puts, after)
  {
  }

  lemma MorePaths(rules: PathRules, keys: set<Key>, key: Key, stuck: set<Key>)
    ensures PathsOf(rules, keys + {key} - stuck)
            == PathsOf(rules, keys - stuck) + (if key in stuck then {} else {PathOf(rules, key)})
  {
    if key in stuck {
      assert keys + {key} - stuck == keys - stuck;
    } else {
      assert keys + {key} - stuck == (keys - stuck) + {key};
      PathsUnion(rules, keys - stuck, {key});
      assert PathsOf(rules, {key}) == {PathOf(rules, key)};
    }
  }

  lemma PathsUnion(rules: PathRules, a: set<Key>, b: set<Key>)
    ensures PathsOf(rules, a + b) == PathsOf(rules, a) + PathsOf(rules, b)
  {
  }

  lemma {:induction false} NonePurged(d: seq<Slot<seq<Item>>>)
    ensures Purged(d, {}) == d
  {
    if d != [] {
      NonePurged(d[1..]);
    }
  }

  lemma {:induction false} PurgedUnion(d: seq<Slot<seq<Item>>>, a: set<Key>, b: set<Key>)
    ensures Purged(Purged(d, a), b) == Purged(d, a + b)
  {
    if d != [] {
      PurgedUnion(d[1..], a, b);
      var r, rest := Purged(d, a), Purged(d[1..], a);
      if d[0].key !in a {
        assert r[0] == d[0] && r[1..] == rest;
      }
    }
  }

  lemma {:induction false} PurgedKeepsUnique(d: seq<Slot<seq<Item>>>)
    requires Unique(d)
    ensures forall keys :: Unique(Purged(d, keys))
    ensures forall keys, x :: x in Purged(d, keys) <==> x in d && x.key !in keys
  {
    if d != [] {
      PurgedKeepsUnique(d[1..]);
      assert forall x :: x in d <==> x == d[0] || x in d[1..];
      forall keys ensures Unique(Purged(d, keys)) {
        var rest, r := Purged(d[1..], keys), Purged(d, keys);
        forall x | x in rest ensures x.key != d[0].key {
          var i :| 0 <= i < |d| - 1 && d[1..][i] == x;
          assert d[i + 1] == x;
        }
      }
    }
  }

  lemma ShorterWithout(d: seq<Slot<nat>>, key: Key)
    requires Unique(d) && Lookup(d, key).Some?
    ensures |Without(d, key)| < |d|
  {
    WithoutKeeps(d, key);
  }

  lemma FirstWithout(d: seq<Slot<nat>>)
    requires d != []
    ensures Lookup(d, d[0].key).Some? && Without(d, d[0].key) == d[1..]
  {
  }

  lemma TotalOne(x: Slot<nat>)
    ensures Total([x]) == x.value
    ensures forall s :: CountOf([x], s) == if x.key.session == s then 1 else 0
  {
    assert [x][1..] == [];
  }
}
