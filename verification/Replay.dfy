/** Conversations replayed from cached snapshots (codex_shim/responses_input_pipeline.py, expansion;
    codex_shim/server.py, _build_turn_cache_items). */
module Replay {
  import opened Common
  import opened LruIndex
  import opened CachePaths
  import opened InputItems
  import opened InputPipeline
  import opened ConversationCache

  /** One turn: the new input, the response's id and its output items; the rest says what happens around
      it: the file of its snapshot, files that cannot be removed and whether a new process serves it. */
  datatype Turn = Turn(delta: seq<Item>, responseId: string, output: seq<Item>,
                       size: nat, mtime: int, stuck: set<Key>, newProcess: bool)

  /** What was said: every turn's new input followed by its output. */
  function History(turns: seq<Turn>): seq<Item> {
    if turns == [] then []
    else
      var last := turns[|turns| - 1];
      History(turns[..|turns| - 1]) + last.delta + last.output
  }

  /** The stored snapshot after the turns, with what the repairs added marked. */
  function Snapshot(turns: seq<Turn>, uuids: nat -> nat -> string): seq<Entry> {
    if turns == [] then []
    else
      var n := |turns| - 1;
      Prepared(Snapshot(turns[..n], uuids) + Plain(turns[n].delta), true, n > 0, NoNames, uuids(n))
      + Plain(turns[n].output)
  }

  function NoNames(key: string): Option<string> {
    None
  }

  /** What is sent upstream in the turn that follows: the prepared snapshot and new input. */
  function Forwarded(turns: seq<Turn>, delta: seq<Item>, repair: bool, names: string -> Option<string>,
                     uuids: nat -> nat -> string, newIds: nat -> string): seq<Entry> {
    Prepared(Snapshot(turns, uuids) + Plain(delta), repair, turns != [], names, newIds)
  }

  lemma {:induction false} EssencesOfPlain(es: seq<Entry>, items: seq<Item>)
    ensures Essences(Given(es + Plain(items))) == Essences(Given(es)) + Essences(items)
    ensures Marked(es) ==> Marked(es + Plain(items))
    ensures |Added(es + Plain(items))| == |Added(es)|
    ensures Items(es + Plain(items)) == Items(es) + items
  {
    hide Given, Added, Items, Essences, LooksSynthetic, Marked;
    EntriesConcat(es, Plain(items));
    PlainIsGiven(items);
    EssencesConcat(Given(es), items);
    MarksConcat(es, Plain(items));
    PlainMarked(items);
  }

  lemma PlainMarked(items: seq<Item>)
    ensures Marked(Plain(items))
  {
  }

  /** The snapshot keeps the whole history, in order and up to ids; everything else in it is synthetic. */
  lemma {:induction false} SnapshotKeepsHistory(turns: seq<Turn>, uuids: nat -> nat -> string)
    ensures Essences(Given(Snapshot(turns, uuids))) == Essences(History(turns))
    ensures Marked(Snapshot(turns, uuids))
  {
    if turns == [] {
    } else {
      hide Given, Added, Items, Essences, Marked, Prepared, Plain;
      var n := |turns| - 1;
      var before, last := turns[..n], turns[n];
      SnapshotKeepsHistory(before, uuids);
      var input := Snapshot(before, uuids) + Plain(last.delta);
      EssencesOfPlain(Snapshot(before, uuids), last.delta);
      PreparingKeeps(input, true, n > 0, NoNames, uuids(n));
      EssencesOfPlain(Prepared(input, true, n > 0, NoNames, uuids(n)), last.output);
      EssencesConcat(History(before), last.delta);
      EssencesConcat(History(before) + last.delta, last.output);
    }
  }

  /** Each item is the one that was said or what is sent for it. */
  ghost predicate AllKeptAs(kept: seq<Item>, said: seq<Item>) {
    |kept| == |said| && forall n :: 0 <= n < |said| ==> kept[n] == said[n] || SentAs(kept[n], said[n])
  }

  lemma SentOfKept(sent: seq<Item>, kept: seq<Item>, said: seq<Item>)
    requires AllSentAs(sent, kept) && AllKeptAs(kept, said)
    ensures AllSentAs(sent, said)
  {
    forall n | 0 <= n < |said| ensures SentAs(sent[n], said[n]) {
      if kept[n] != said[n] { SentAgain(sent[n], kept[n], said[n]); }
    }
  }

  lemma KeptThenSaid(kept: seq<Item>, said: seq<Item>, more: seq<Item>)
    requires AllKeptAs(kept, said)
    ensures AllKeptAs(kept + more, said + more)
  {
    hide SentAs;
  }

  lemma SentIsKept(sent: seq<Item>, said: seq<Item>)
    requires AllSentAs(sent, said)
    ensures AllKeptAs(sent, said)
  {
  }

  lemma GivenThenPlain(es: seq<Entry>, items: seq<Item>)
    ensures Given(es + Plain(items)) == Given(es) + items
  {
    hide Given, Added, Items;
    EntriesConcat(es, Plain(items));
    PlainIsGiven(items);
  }

  /** The snapshot holds every item of the history, in order, as it was said or as it was sent. */
  lemma {:induction false} SnapshotHoldsHistory(turns: seq<Turn>, uuids: nat -> nat -> string)
    ensures AllKeptAs(Given(Snapshot(turns, uuids)), History(turns))
  {
    if turns == [] {
    } else {
      hide Given, Prepared, Plain, AllKeptAs, AllSentAs;
      var n := |turns| - 1;
      var before, last := turns[..n], turns[n];
      SnapshotHoldsHistory(before, uuids);
      var input := Snapshot(before, uuids) + Plain(last.delta);
      var prepared := Prepared(input, true, n > 0, NoNames, uuids(n));
      GivenThenPlain(Snapshot(before, uuids), last.delta);
      KeptThenSaid(Given(Snapshot(before, uuids)), History(before), last.delta);
      PreparingSends(input, true, n > 0, NoNames, uuids(n));
      SentOfKept(Given(prepared), Given(input), History(before) + last.delta);
      SentIsKept(Given(prepared), History(before) + last.delta);
      GivenThenPlain(prepared, last.output);
      KeptThenSaid(Given(prepared), History(before) + last.delta, last.output);
    }
  }

  /** What is sent upstream holds every item of the history and the new input, in order, with its kind, its fields
      and its canonical call id. */
  lemma ReplaySendsHistory(turns: seq<Turn>, delta: seq<Item>, repair: bool, names: string -> Option<string>,
                           uuids: nat -> nat -> string, newIds: nat -> string)
    ensures AllSentAs(Given(Forwarded(turns, delta, repair, names, uuids, newIds)), History(turns) + delta)
  {
    hide Given, Prepared, Plain, AllKeptAs, AllSentAs, Snapshot, History;
    SnapshotHoldsHistory(turns, uuids);
    GivenThenPlain(Snapshot(turns, uuids), delta);
    KeptThenSaid(Given(Snapshot(turns, uuids)), History(turns), delta);
    PreparingSends(Snapshot(turns, uuids) + Plain(delta), repair, turns != [], names, newIds);
    SentOfKept(Given(Forwarded(turns, delta, repair, names, uuids, newIds)),
               Given(Snapshot(turns, uuids) + Plain(delta)), History(turns) + delta);
  }

  /** Replay keeps history: what is sent upstream is the history and the new input, in order and up to
      ids, with only synthetic items in between. */
  lemma ReplayKeepsHistory(turns: seq<Turn>, delta: seq<Item>, repair: bool, names: string -> Option<string>,
                           uuids: nat -> nat -> string, newIds: nat -> string)
    ensures var sent := Forwarded(turns, delta, repair, names, uuids, newIds);
            Essences(Given(sent)) == Essences(History(turns) + delta) && Marked(sent)
  {
    hide Given, Added, Items, Essences, Marked, Prepared, Plain, Snapshot, History;
    SnapshotKeepsHistory(turns, uuids);
    EssencesOfPlain(Snapshot(turns, uuids), delta);
    PreparingKeeps(Snapshot(turns, uuids) + Plain(delta), repair, turns != [], names, newIds);
    EssencesConcat(History(turns), delta);
  }

  // ---- When nothing is added ----

  /** The call ids that aligning gives are those of the essences. */
  lemma {:induction false} AlignedKeys(es: seq<Entry>)
    ensures CallKeys(Items(Aligned(es))) == CallKeys(Essences(Items(es)))
    ensures OutputKeys(Items(Aligned(es))) == OutputKeys(Essences(Items(es)))
  {
    if es == [] {
    } else {
      hide Given, Added, AddedKeys, Items, CallKeys, OutputKeys, Essences, Essence, AlignItem, Aligned;
      var before, last := es[..|es| - 1], es[|es| - 1];
      assert es == before + [last];
      AlignedKeys(before);
      AlignedSnoc(before, last);
      EntriesSnoc(before, last);
      EntriesSnoc(Aligned(before), Entry(AlignItem(last.item), last.added));
      EssencesSnoc(Items(before), last.item);
      KeysSnoc(Essences(Items(before)), Essence(last.item));
      EssenceHasKey(last.item);
    }
  }

  lemma EssenceHasKey(item: Item)
    ensures KeySet(AlignItem(item)) == KeySet(Essence(item))
    ensures IsCall(AlignItem(item)) == IsCall(Essence(item)) && IsOutput(AlignItem(item)) == IsOutput(Essence(item))
  {
  }

  /** In every turn the calls and outputs of the history and the new input pair up. */
  predicate AllPaired(turns: seq<Turn>) {
    turns == [] ||
    (var n := |turns| - 1;
     AllPaired(turns[..n]) && Unpaired(Essences(History(turns[..n]) + turns[n].delta)) == {})
  }

  lemma {:induction false} NothingAdded(es: seq<Entry>)
    ensures Added(es) == [] ==> Given(es) == Items(es)
  {
    if es != [] {
      NothingAdded(es[..|es| - 1]);
    }
  }

  /** The repairs have never added anything exactly when calls and outputs paired up in every turn; and
      then the snapshot is the history, up to ids. */
  lemma {:induction false} ExactWhenPaired(turns: seq<Turn>, uuids: nat -> nat -> string)
    ensures Added(Snapshot(turns, uuids)) == [] <==> AllPaired(turns)
    ensures AllPaired(turns) ==> Essences(Items(Snapshot(turns, uuids))) == Essences(History(turns))
  {
    if turns == [] {
    } else {
      hide Given, Added, Items, Essences, Marked, Prepared, Plain, CallKeys, OutputKeys, Unpaired, History;
      var n := |turns| - 1;
      var before, last := turns[..n], turns[n];
      ExactWhenPaired(before, uuids);
      var input := Snapshot(before, uuids) + Plain(last.delta);
      EssencesOfPlain(Snapshot(before, uuids), last.delta);
      PreparingKeeps(input, true, n > 0, NoNames, uuids(n));
      EssencesOfPlain(Prepared(input, true, n > 0, NoNames, uuids(n)), last.output);
      EssencesConcat(Items(Snapshot(before, uuids)), last.delta);
      EssencesConcat(History(before), last.delta);
      AlignedKeys(input);
      UnpairedOfKeys(Items(Aligned(input)), Essences(Items(input)));
      CountZero(Unpaired(Items(Aligned(input))));
      NothingAdded(Snapshot(turns, uuids));
      SnapshotKeepsHistory(turns, uuids);
    }
  }

  /** The same for what is sent upstream: it is the history and the new input, up to ids, exactly when calls
      and outputs have paired up in every turn. */
  lemma {:induction false} ForwardedExactWhenPaired(turns: seq<Turn>, delta: seq<Item>,
                                                    names: string -> Option<string>, uuids: nat -> nat -> string,
                                                    newIds: nat -> string)
    ensures var sent, said := Forwarded(turns, delta, true, names, uuids, newIds), Essences(History(turns) + delta);
            && (Added(sent) == [] <==> AllPaired(turns) && Unpaired(said) == {})
            && (Added(sent) == [] ==> Essences(Items(sent)) == said)
  {
    hide Given, Added, Items, Essences, Marked, Prepared, Plain, CallKeys, OutputKeys, Unpaired, History, Snapshot,
         AllPaired;
    ExactWhenPaired(turns, uuids);
    var input := Snapshot(turns, uuids) + Plain(delta);
    EssencesOfPlain(Snapshot(turns, uuids), delta);
    PreparingKeeps(input, true, turns != [], names, newIds);
    EssencesConcat(Items(Snapshot(turns, uuids)), delta);
    EssencesConcat(History(turns), delta);
    AlignedKeys(input);
    UnpairedOfKeys(Items(Aligned(input)), Essences(Items(input)));
    CountZero(Unpaired(Items(Aligned(input))));
    NothingAdded(Forwarded(turns, delta, true, names, uuids, newIds));
    ReplayKeepsHistory(turns, delta, true, names, uuids, newIds);
  }

  lemma UnpairedOfKeys(a: seq<Item>, b: seq<Item>)
    requires CallKeys(a) == CallKeys(b) && OutputKeys(a) == OutputKeys(b)
    ensures Unpaired(a) == Unpaired(b)
  {
  }

  lemma CountZero<T>(s: set<T>)
    ensures |s| == 0 <==> s == {}
  {
  }

  /** The call ids called by the output of the last turn. */
  function OpenKeys(turns: seq<Turn>): set<string> {
    if turns == [] then {} else CallKeys(Essences(turns[|turns| - 1].output))
  }

  predicate AnswersPromptly(turns: seq<Turn>) {
    turns == [] ||
    (var before, last := turns[..|turns| - 1], turns[|turns| - 1];
     && AnswersPromptly(before)
     && CallKeys(Essences(last.delta)) == {} && OutputKeys(Essences(last.output)) == {}
     && OutputKeys(Essences(last.delta)) == OpenKeys(before))
  }

  /** When every call of a turn's output is answered by the next turn's input, which brings no other
      output and no call, calls and outputs always pair up. */
  lemma {:induction false} PromptAnswersPair(turns: seq<Turn>)
    requires AnswersPromptly(turns)
    ensures AllPaired(turns)
    ensures var h := Essences(History(turns));
            CallKeys(h) == OutputKeys(h) + OpenKeys(turns)
  {
    if turns == [] {
    } else {
      hide Essences, CallKeys, OutputKeys, OpenKeys;
      var n := |turns| - 1;
      var before, last := turns[..n], turns[n];
      PromptAnswersPair(before);
      EssencesConcat(History(before), last.delta);
      KeysConcat(Essences(History(before)), Essences(last.delta));
      EssencesConcat(History(before) + last.delta, last.output);
      KeysConcat(Essences(History(before) + last.delta), Essences(last.output));
    }
  }

  // ---- A conversation over the cache ----

  lemma {:induction false} SplitLength(es: seq<Entry>)
    ensures |Given(es)| + |Added(es)| == |es|
  {
    if es != [] { SplitLength(es[..|es| - 1]); }
  }

  lemma {:induction false} EssencesLength(items: seq<Item>)
    ensures |Essences(items)| == |items|
  {
    if items != [] { EssencesLength(items[..|items| - 1]); }
  }

  /** Preparing never makes a list shorter. */
  lemma PreparedLonger(es: seq<Entry>, repair: bool, dropAll: bool, names: string -> Option<string>,
                       uuids: nat -> string)
    ensures |Prepared(es, repair, dropAll, names, uuids)| >= |es|
  {
    hide Prepared, Given, Added, Essences;
    var r := Prepared(es, repair, dropAll, names, uuids);
    PreparingKeeps(es, repair, dropAll, names, uuids);
    SplitLength(es);
    SplitLength(r);
    EssencesLength(Given(es));
    EssencesLength(Given(r));
  }

  /** `expand_cached_responses_input`; `hit` says that the cache knew the previous response. */
  method ExpandCachedInput(cache: ChatgptConversationCache, sessionKey: string, previous: Value, delta: seq<Item>,
                           enabled: bool)
    returns (expanded: seq<Item>, hit: bool)
    requires cache.Valid()
    modifies cache`memory, cache`disk, cache`diskBytes, cache`sessionCounts, cache`indexLoaded, cache`tidy
    ensures cache.Valid()
    ensures !enabled || !previous.Str? || previous.text == "" ==> expanded == delta && !hit
    ensures hit ==>
              && previous.Str? && previous.text != ""
              && Fetched(cache.rules, old(cache.memory), cache.files, Key(sessionKey, previous.text)).Some?
              && expanded == Fetched(cache.rules, old(cache.memory), cache.files,
                                     Key(sessionKey, previous.text)).value + delta
              && (FileIsCurrent(cache.rules, cache.puts, Key(sessionKey, previous.text)) ==>
                    && LastPut(cache.puts, Key(sessionKey, previous.text)).Some?
                    && expanded == LastPut(cache.puts, Key(sessionKey, previous.text)).value + delta)
    ensures enabled && previous.Str? && previous.text != "" && !hit ==>
              Fetched(cache.rules, old(cache.memory), cache.files, Key(sessionKey, previous.text)).None?
    ensures |delta| <= |expanded| && expanded[|expanded| - |delta|..] == delta
    ensures (enabled && previous.Str? && previous.text != ""
             && PathOf(cache.rules, Key(sessionKey, previous.text)) in cache.files) ==> hit
    ensures old(cache.tidy) && (previous.Str? ==> Fixed(cache.rules, Key(sessionKey, previous.text))) ==> cache.tidy
  {
    hide Fetched, FileIsCurrent, LastPut, PathOf, Fixed;
    if !enabled || !previous.Str? || previous.text == "" {
      return delta, false;
    }
    ghost var index: seq<Slot<nat>>;
    var cached;
    FileFound(cache.rules, cache.memory, cache.files, Key(sessionKey, previous.text));
    cached, index := cache.Get(Key(sessionKey, previous.text));
    hit := cached.Some?;
    if cached.None? {
      cached, index := cache.Latest(sessionKey);
      if cached.None? {
        return delta, false;
      }
    }
    expanded := cached.value + delta;
  }

  lemma FileFound(rules: PathRules, memory: seq<Slot<seq<Item>>>, files: map<Path, File>, key: Key)
    requires key.responseId != ""
    ensures PathOf(rules, key) in files ==> Fetched(rules, memory, files, key).Some?
  {
    hide PathOf;
  }

  /** `_build_turn_cache_items`. */
  method BuildTurnCacheItems(cache: ChatgptConversationCache, sessionKey: string, previous: Value, delta: seq<Item>,
                             output: seq<Item>, uuids: nat -> string, ghost es: seq<Entry>)
    returns (items: seq<Item>, hit: bool)
    requires cache.Valid() && forall n :: '-' in uuids(n)
    modifies cache`memory, cache`disk, cache`diskBytes, cache`sessionCounts, cache`indexLoaded, cache`tidy
    ensures cache.Valid()
    ensures hit ==> previous.Str? && previous.text != ""
    ensures !previous.Str? || previous.text == "" ==>
              items == Items(Prepared(Plain(delta), true, false, NoNames, uuids) + Plain(output))
    ensures hit && FileIsCurrent(cache.rules, cache.puts, Key(sessionKey, previous.text)) ==>
              LastPut(cache.puts, Key(sessionKey, previous.text)).Some?
    ensures hit && FileIsCurrent(cache.rules, cache.puts, Key(sessionKey, previous.text))
            && LastPut(cache.puts, Key(sessionKey, previous.text)) == Some(Items(es)) ==>
              items == Items(Prepared(es + Plain(delta), true, true, NoNames, uuids) + Plain(output))
    ensures |items| >= |delta| + |output|
    ensures (previous.Str? && previous.text != ""
             && PathOf(cache.rules, Key(sessionKey, previous.text)) in cache.files) ==> hit
    ensures old(cache.tidy) && (previous.Str? ==> Fixed(cache.rules, Key(sessionKey, previous.text))) ==> cache.tidy
  {
    hide FileIsCurrent, LastPut, PathOf, Fixed, Items, Given, Plain, Prepared, Fetched, NoLookups, CallKeys, OutputKeys,
         Added, AddedKeys;
    var replay := previous.Str? && previous.text != "";
    var expanded: seq<Item>;
    expanded, hit := ExpandCachedInput(cache, sessionKey, previous, delta, true);
    PlainIsGiven(expanded);
    ghost var entries := Plain(expanded);
    if hit && Items(es) + delta == expanded {
      EntriesConcat(es, Plain(delta));
      PlainIsGiven(delta);
      entries := es + Plain(delta);
    }
    var prepared := PrepareItems(expanded, entries, true, replay, NoNames, uuids);
    PreparedLonger(entries, true, replay, NoNames, uuids);
    EntriesConcat(Prepared(entries, true, replay, NoNames, uuids), Plain(output));
    PlainIsGiven(output);
    items := prepared + output;
  }

  ghost predicate WellNamed(rules: PathRules, sessionKey: string, turns: seq<Turn>) {
    && (forall n :: 0 <= n < |turns| ==>
          turns[n].responseId != "" && Fixed(rules, Key(sessionKey, turns[n].responseId)))
    && (forall m, n :: 0 <= m < n < |turns| ==> turns[m].responseId != turns[n].responseId)
  }

  /** Only turns of the conversation were put, and every put wrote its file. */
  ghost predicate PutsOfTurns(puts: seq<PutRecord>, sessionKey: string, turns: seq<Turn>, n: nat)
    requires n <= |turns|
  {
    forall p :: p in puts ==> p.written && exists m :: 0 <= m < n && p.key == Key(sessionKey, turns[m].responseId)
  }

  lemma {:induction false} TurnsAreCurrent(rules: PathRules, puts: seq<PutRecord>, sessionKey: string,
                                           turns: seq<Turn>, n: nat, k: nat)
    requires n <= |turns| && k < |turns| && WellNamed(rules, sessionKey, turns)
             && PutsOfTurns(puts, sessionKey, turns, n)
    ensures FileIsCurrent(rules, puts, Key(sessionKey, turns[k].responseId))
    ensures k >= n ==> LastPut(puts, Key(sessionKey, turns[k].responseId)) == None
    ensures turns[k].responseId != ""
  {
    hide Fixed, PathOf;
    var key := Key(sessionKey, turns[k].responseId);
    forall p | p in puts
      ensures p.written && (PathOf(rules, p.key) == PathOf(rules, key) ==> p.key == key) && (k >= n ==> p.key != key)
    {
      FixedKeysApart(rules, p.key, key);
    }
    SoundIsCurrent(rules, puts, key);
    if k >= n { NeverPut(puts, key); }
  }

  lemma {:induction false} NeverPut(puts: seq<PutRecord>, key: Key)
    requires forall p :: p in puts ==> p.key != key
    ensures LastPut(puts, key) == None
  {
    if puts != [] {
      NeverPut(puts[..|puts| - 1], key);
    }
  }

  /** What is sent holds the history and the new input, item by item with kind, fields and canonical call id, and
      synthetic items; there are none of these exactly when calls and outputs have paired up in every turn. */
  ghost predicate Faithful(turns: seq<Turn>, delta: seq<Item>, sent: seq<Entry>) {
    var said := Essences(History(turns) + delta);
    && AllSentAs(Given(sent), History(turns) + delta)
    && Essences(Given(sent)) == said && Marked(sent)
    && (Added(sent) == [] <==> AllPaired(turns) && Unpaired(said) == {})
    && (Added(sent) == [] ==> Essences(Items(sent)) == said)
  }

  lemma ForwardedIsFaithful(turns: seq<Turn>, delta: seq<Item>, names: string -> Option<string>,
                            uuids: nat -> nat -> string, newIds: nat -> string)
    ensures Faithful(turns, delta, Forwarded(turns, delta, true, names, uuids, newIds))
  {
    hide Forwarded, Essences, Given, Marked, Added, Items, AllPaired, Unpaired, History, AllSentAs;
    ReplaySendsHistory(turns, delta, true, names, uuids, newIds);
    ReplayKeepsHistory(turns, delta, true, names, uuids, newIds);
    ForwardedExactWhenPaired(turns, delta, names, uuids, newIds);
  }

  /** A chain of turns over the real cache, each naming the one before it. As long as every turn hits the
      stored snapshot, what is sent upstream is faithful to the history and the new input; and every turn hits when
      every snapshot fits and every file to be removed is removed. */
  method Converse(rules: PathRules, maxMemoryEntries: nat, maxCacheBytes: nat, sessionKey: string, turns: seq<Turn>,
                  names: string -> Option<string>, uuids: nat -> nat -> string, newIds: nat -> nat -> string)
    returns (inputs: seq<seq<Item>>, hits: seq<bool>)
    requires WellNamed(rules, sessionKey, turns)
    requires forall n, i :: '-' in uuids(n)(i) && '-' in newIds(n)(i)
    ensures |inputs| == |hits| == |turns|
    ensures forall n :: 0 <= n < |turns| && Chained(hits, n + 1) ==>
              var sent := Forwarded(turns[..n], turns[n].delta, true, names, uuids, newIds(n));
              && inputs[n] == Items(sent)
              && Faithful(turns[..n], turns[n].delta, sent)
    ensures KeptUp(turns, |turns|, maxCacheBytes) ==> Chained(hits, |turns|)
  {
    hide Fixed, PathOf, FileIsCurrent, LastPut, Items, Given, Plain, Prepared, Fetched, NoLookups, CallKeys, OutputKeys,
         Added, AddedKeys, Snapshot, PutsOfTurns, WellNamed, Holds, Forwarded, Chained, Essences, Marked, History,
         Faithful, KeepsUp, KeptUp, FileOf, Unpaired, AllPaired;
    hide ChatgptConversationCache.Valid;
    var cache := new ChatgptConversationCache(rules, maxMemoryEntries, maxCacheBytes);
    inputs, hits := [], [];
    NoPuts(sessionKey, turns);
    NoTurnsChained();
    for n := 0 to |turns|
      invariant fresh(cache) && cache.Valid() && cache.rules == rules && |inputs| == |hits| == n
      invariant PutsOfTurns(cache.puts, sessionKey, turns, n)
      invariant cache.maxCacheBytes == maxCacheBytes
      invariant KeptUp(turns, n, maxCacheBytes) ==>
                  && cache.tidy && (n > 0 ==> FileOf(rules, sessionKey, turns[n - 1]) in cache.files)
                  && Chained(hits, n)
      invariant Chained(hits, n) && n > 0 ==> Holds(cache.puts, sessionKey, turns, n, uuids)
      invariant forall k :: 0 <= k < n && Chained(hits, k + 1) ==>
                  inputs[k] == Items(Forwarded(turns[..k], turns[k].delta, true, names, uuids, newIds(k)))
    {
      KeptUpSoFar(turns, n, maxCacheBytes);
      var previous := if n == 0 then Absent else Str(turns[n - 1].responseId);
      var input, hit := ServeTurn(cache, sessionKey, previous, turns, n, names, uuids, newIds(n));
      inputs := inputs + [input];
      ChainedSnoc(hits, hit);
      hits := hits + [hit];
    }
    forall n | 0 <= n < |turns| && Chained(hits, n + 1)
      ensures var sent := Forwarded(turns[..n], turns[n].delta, true, names, uuids, newIds(n));
              Faithful(turns[..n], turns[n].delta, sent)
    {
      ForwardedIsFaithful(turns[..n], turns[n].delta, names, uuids, newIds(n));
    }
  }

  /** Each of the first `n` turns but the very first found the snapshot of the turn before it. */
  predicate Chained(hits: seq<bool>, n: nat) {
    forall m :: 0 < m < n && m < |hits| ==> hits[m]
  }

  lemma NoTurnsChained()
    ensures Chained([], 0)
  {
  }

  lemma ChainedSnoc(hits: seq<bool>, hit: bool)
    ensures Chained(hits + [hit], |hits| + 1) <==> Chained(hits, |hits|) && (hits == [] || hit)
    ensures forall k: nat :: k <= |hits| ==> Chained(hits + [hit], k) == Chained(hits, k)
  {
    var after := hits + [hit];
    assert after[|hits|] == hit;
    forall k: nat | k <= |hits| ensures Chained(after, k) == Chained(hits, k) {
      assert forall m :: 0 <= m < k ==> after[m] == hits[m];
    }
  }

  /** The file of a turn's snapshot. */
  function FileOf(rules: PathRules, sessionKey: string, turn: Turn): Path {
    PathOf(rules, Key(sessionKey, turn.responseId))
  }

  /** A turn that says something, whose snapshot fits and at which every file to be removed is removed. */
  predicate KeepsUp(turn: Turn, maxCacheBytes: nat) {
    turn.delta + turn.output != [] && turn.size <= maxCacheBytes && turn.stuck == {}
  }

  predicate KeptUp(turns: seq<Turn>, n: nat, maxCacheBytes: nat)
    requires n <= |turns|
  {
    forall m :: 0 <= m < n ==> KeepsUp(turns[m], maxCacheBytes)
  }

  lemma KeptUpSoFar(turns: seq<Turn>, n: nat, maxCacheBytes: nat)
    requires n < |turns|
    ensures KeptUp(turns, n + 1, maxCacheBytes) <==> KeptUp(turns, n, maxCacheBytes) && KeepsUp(turns[n], maxCacheBytes)
  {
    hide KeepsUp;
  }

  lemma NamesFixed(rules: PathRules, sessionKey: string, turns: seq<Turn>, n: nat)
    requires WellNamed(rules, sessionKey, turns) && n < |turns|
    ensures Fixed(rules, Key(sessionKey, turns[n].responseId)) && turns[n].responseId != ""
  {
    hide Fixed;
  }

  /** One turn of the conversation: what is sent upstream, and the snapshot that is stored afterwards. */
  method ServeTurn(cache: ChatgptConversationCache, sessionKey: string, previous: Value, turns: seq<Turn>, n: nat,
                   names: string -> Option<string>, uuids: nat -> nat -> string, newIds: nat -> string)
    returns (input: seq<Item>, hit: bool)
    requires cache.Valid() && n < |turns| && WellNamed(cache.rules, sessionKey, turns)
    requires PutsOfTurns(cache.puts, sessionKey, turns, n)
    requires forall i :: '-' in newIds(i)
    requires forall i :: '-' in uuids(n)(i)
    requires previous == if n == 0 then Absent else Str(turns[n - 1].responseId)
    modifies cache
    ensures cache.Valid() && PutsOfTurns(cache.puts, sessionKey, turns, n + 1)
    ensures n == 0 || (hit && Holds(old(cache.puts), sessionKey, turns, n, uuids)) ==>
              && input == Items(Forwarded(turns[..n], turns[n].delta, true, names, uuids, newIds))
              && Holds(cache.puts, sessionKey, turns, n + 1, uuids)
    ensures n > 0 && FileOf(cache.rules, sessionKey, turns[n - 1]) in old(cache.files) ==> hit
    ensures old(cache.tidy) && KeepsUp(turns[n], cache.maxCacheBytes) ==>
              cache.tidy && FileOf(cache.rules, sessionKey, turns[n]) in cache.files
  {
    hide Fixed, PathOf, FileIsCurrent, LastPut, Items, Given, Plain, Prepared, Fetched, NoLookups, CallKeys, OutputKeys,
         Added, AddedKeys, Snapshot, PutsOfTurns, WellNamed, AfterPut, Listing;
    hide ChatgptConversationCache.Valid;
    assert n > 0 ==> Fixed(cache.rules, Key(sessionKey, turns[n - 1].responseId)) && turns[n - 1].responseId != "" by {
      if n > 0 { NamesFixed(cache.rules, sessionKey, turns, n - 1); }
    }
    NamesFixed(cache.rules, sessionKey, turns, n);
    var turn := turns[n];
    if turn.newProcess { cache.Restart(); }
    ghost var es := Snapshot(turns[..n], uuids);
    ghost var puts := cache.puts;
    if n > 0 { TurnsAreCurrent(cache.rules, puts, sessionKey, turns, n, n - 1); }
    TurnsAreCurrent(cache.rules, puts, sessionKey, turns, n, n);
    SnapshotStep(turns, n, uuids);
    input, hit := SendTurn(cache, sessionKey, previous, turn.delta, names, newIds, es);
    var items, hit' := BuildTurnCacheItems(cache, sessionKey, previous, turn.delta, turn.output, uuids(n), es);
    hit := hit && hit';
    ghost var index := cache.Put(Key(sessionKey, turn.responseId), items, true, turn.size, turn.mtime, false,
                                 turn.stuck);
    TurnStored(cache.rules, puts, cache.puts, sessionKey, turns, n, items);
  }

  /** What was put under the response id of the last of the first `n` turns is their snapshot. */
  ghost predicate Holds(puts: seq<PutRecord>, sessionKey: string, turns: seq<Turn>, n: nat, uuids: nat -> nat -> string)
    requires 0 < n <= |turns|
  {
    var put := LastPut(puts, Key(sessionKey, turns[n - 1].responseId));
    put.Some? ==> put == Some(Items(Snapshot(turns[..n], uuids)))
  }

  lemma NoPuts(sessionKey: string, turns: seq<Turn>)
    ensures PutsOfTurns([], sessionKey, turns, 0)
  {
  }

  lemma {:induction false} SnapshotStep(turns: seq<Turn>, n: nat, uuids: nat -> nat -> string)
    requires n < |turns|
    ensures Snapshot(turns[..n + 1], uuids) ==
            Prepared(Snapshot(turns[..n], uuids) + Plain(turns[n].delta), true, n > 0, NoNames, uuids(n))
            + Plain(turns[n].output)
    ensures n == 0 ==> Snapshot(turns[..n], uuids) == []
    ensures n == 0 ==> Snapshot(turns[..n], uuids) + Plain(turns[n].delta) == Plain(turns[n].delta)
  {
    assert turns[..n + 1][..n] == turns[..n];
  }

  lemma TurnStored(rules: PathRules, puts: seq<PutRecord>, after: seq<PutRecord>, sessionKey: string,
                   turns: seq<Turn>, n: nat, items: seq<Item>)
    requires n < |turns| && WellNamed(rules, sessionKey, turns) && PutsOfTurns(puts, sessionKey, turns, n)
    requires var key := Key(sessionKey, turns[n].responseId);
             after == if items == [] then puts else puts + [PutRecord(key, items, true)]
    ensures PutsOfTurns(after, sessionKey, turns, n + 1)
    ensures var key := Key(sessionKey, turns[n].responseId);
            LastPut(after, key).Some? ==> LastPut(after, key) == Some(items)
  {
    hide Fixed, PathOf;
    var key := Key(sessionKey, turns[n].responseId);
    TurnsAreCurrent(rules, puts, sessionKey, turns, n, n);
    PutsSnoc(rules, puts, PutRecord(key, items, true), key, PathOf(rules, key));
  }

  /** The part of a turn that goes upstream. */
  method SendTurn(cache: ChatgptConversationCache, sessionKey: string, previous: Value, delta: seq<Item>,
                  names: string -> Option<string>, uuids: nat -> string, ghost es: seq<Entry>)
    returns (input: seq<Item>, hit: bool)
    requires cache.Valid() && forall n :: '-' in uuids(n)
    modifies cache`memory, cache`disk, cache`diskBytes, cache`sessionCounts, cache`indexLoaded, cache`tidy
    ensures cache.Valid()
    ensures NoLookups(input, previous.Str? && previous.text != "", uuids) && CallKeys(input) == OutputKeys(input)
    ensures !previous.Str? || previous.text == "" ==> input == Items(Prepared(Plain(delta), true, false, names, uuids))
    ensures hit ==> previous.Str? && previous.text != ""
    ensures hit && FileIsCurrent(cache.rules, cache.puts, Key(sessionKey, previous.text)) ==>
              LastPut(cache.puts, Key(sessionKey, previous.text)).Some?
    ensures hit && FileIsCurrent(cache.rules, cache.puts, Key(sessionKey, previous.text))
            && LastPut(cache.puts, Key(sessionKey, previous.text)) == Some(Items(es)) ==>
              input == Items(Prepared(es + Plain(delta), true, true, names, uuids))
    ensures (previous.Str? && previous.text != ""
             && PathOf(cache.rules, Key(sessionKey, previous.text)) in cache.files) ==> hit
    ensures old(cache.tidy) && (previous.Str? ==> Fixed(cache.rules, Key(sessionKey, previous.text))) ==> cache.tidy
  {
    hide FileIsCurrent, LastPut, PathOf, Fixed, Items, Given, Plain, Prepared, Fetched, NoLookups, CallKeys, OutputKeys,
         Added, AddedKeys;
    var replay := previous.Str? && previous.text != "";
    var expanded: seq<Item>;
    expanded, hit := ExpandCachedInput(cache, sessionKey, previous, delta, true);
    PlainIsGiven(expanded);
    ghost var entries := Plain(expanded);
    if hit && Items(es) + delta == expanded {
      EntriesConcat(es, Plain(delta));
      PlainIsGiven(delta);
      entries := es + Plain(delta);
    }
    input := PrepareItems(expanded, entries, true, replay, names, uuids);
  }
}
