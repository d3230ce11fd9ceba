/** The final output of a turn: what is collected from the dictionaries, sorted by index, and how it agrees with the
    items that a client has seen (codex_shim/server.py, ResponsesStreamState._response). */
module ResponsesOutput {
  import opened Common
  import opened ChatUpstream
  import opened ResponsesClient
  import opened ResponsesLayout
  import opened ToolNames

  /** What the state holds when the output is put together; `open` holds the open message. */
  datatype Turn = Turn(store: map<nat, Block>, blocks: map<ReasoningKey, nat>, open: map<nat, string>,
                       books: CallBooks, finished: map<nat, string>)
  {
    predicate Refers() {
      blocks.Values <= store.Keys && books.Within(store)
    }
  }

  /** An entry of one of the six places from which the output is collected. */
  datatype Entry =
    | OfBlock(key: ReasoningKey)
    | OfOpen(index: nat)
    | OfPlain(call: int)
    | OfMcp(call: int)
    | OfSearch(call: int)
    | OfFinished(index: nat)

  /** The entries that are collected: a plain call is passed over because of its name. */
  predicate IsEntry(v: Turn, e: Entry)
    requires v.Refers()
  {
    match e
    case OfBlock(key) => key in v.blocks
    case OfOpen(k) => k in v.open
    case OfPlain(i) => i in v.books.plain && v.books.plain[i] in v.store && IsPlain(v.store[v.books.plain[i]].name)
    case OfMcp(i) => i in v.books.mcp
    case OfSearch(i) => i in v.books.search
    case OfFinished(k) => k in v.finished
  }

  /** The six places in the order in which they are collected. */
  function PlaceOf(e: Entry): (place: nat)
    ensures place < 6
  {
    match e
    case OfBlock(_) => 0
    case OfOpen(_) => 1
    case OfPlain(_) => 2
    case OfMcp(_) => 3
    case OfSearch(_) => 4
    case OfFinished(_) => 5
  }

  function EntriesOf(v: Turn, place: nat): (r: set<Entry>)
    requires v.Refers()
    ensures forall e :: e in r <==> IsEntry(v, e) && PlaceOf(e) == place
  {
    match place
    case 0 => set key | key in v.blocks :: OfBlock(key)
    case 1 => set k | k in v.open :: OfOpen(k)
    case 2 => set i | i in v.books.plain && IsEntry(v, OfPlain(i)) :: OfPlain(i)
    case 3 => set i | i in v.books.mcp :: OfMcp(i)
    case 4 => set i | i in v.books.search :: OfSearch(i)
    case 5 => set k | k in v.finished :: OfFinished(k)
    case _ => {}
  }

  /** The pair that is collected for an entry. */
  function Pair(v: Turn, e: Entry): (nat, Output)
    requires v.Refers() && IsEntry(v, e)
  {
    match e
    case OfBlock(key) => assert v.blocks[key] in v.blocks.Values; (v.blocks[key], v.store[v.blocks[key]].item)
    case OfOpen(k) => (k, Message(v.open[k]))
    case OfPlain(i) => (v.books.plain[i], v.store[v.books.plain[i]].item)
    case OfMcp(i) => assert v.books.mcp[i] in v.books.mcp.Values; (v.books.mcp[i], v.store[v.books.mcp[i]].item)
    case OfSearch(i) =>
      assert v.books.search[i] in v.books.search.Values; (v.books.search[i], v.store[v.books.search[i]].item)
    case OfFinished(k) => (k, Message(v.finished[k]))
  }

  ghost predicate NoRepeats(es: seq<Entry>) {
    forall i, j :: 0 <= i < j < |es| ==> es[i] != es[j]
  }

  /** The entries of one place, in any order. */
  method ListOf(entries: set<Entry>) returns (es: seq<Entry>)
    ensures NoRepeats(es) && forall e :: e in es <==> e in entries
  {
    es := [];
    var todo := entries;
    while todo != {}
      invariant NoRepeats(es) && todo <= entries
      invariant forall e :: e in es <==> e in entries && e !in todo
    {
      var e :| e in todo;
      es, todo := es + [e], todo - {e};
    }
  }

  /** A list with every entry once. */
  ghost predicate Enumerates(v: Turn, es: seq<Entry>)
    requires v.Refers()
  {
    NoRepeats(es) && forall e :: e in es <==> IsEntry(v, e)
  }

  function Pairs(v: Turn, es: seq<Entry>): seq<(nat, Output)>
    requires v.Refers() && forall e :: e in es ==> IsEntry(v, e)
  {
    seq(|es|, j requires 0 <= j < |es| => Pair(v, es[j]))
  }

  /** `list.sort(key=...)`: by the index, and alike ones as they came. */
  function ByIndex(pairs: seq<(nat, Output)>): (sorted: seq<(nat, Output)>)
    ensures |sorted| == |pairs|
  {
    if pairs == [] then [] else Insert(ByIndex(pairs[..|pairs| - 1]), pairs[|pairs| - 1])
  }

  function Insert(sorted: seq<(nat, Output)>, p: (nat, Output)): (r: seq<(nat, Output)>)
    ensures |r| == |sorted| + 1
  {
    if sorted == [] || sorted[|sorted| - 1].0 <= p.0 then sorted + [p]
    else Insert(sorted[..|sorted| - 1], p) + [sorted[|sorted| - 1]]
  }

  function OutputsOf(pairs: seq<(nat, Output)>): (output: seq<Output>)
    ensures |output| == |pairs|
  {
    seq(|pairs|, j requires 0 <= j < |pairs| => pairs[j].1)
  }

  ghost function IndicesOf(pairs: seq<(nat, Output)>): (r: seq<int>)
    ensures |r| == |pairs|
  {
    seq(|pairs|, j requires 0 <= j < |pairs| => pairs[j].0)
  }

  lemma {:induction false} InsertKeeps(sorted: seq<(nat, Output)>, p: (nat, Output))
    requires Increasing(IndicesOf(sorted)) && forall q :: q in sorted ==> q.0 != p.0
    ensures forall q :: q in Insert(sorted, p) <==> q in sorted || q == p
    ensures Increasing(IndicesOf(Insert(sorted, p)))
  {
    if sorted != [] && sorted[|sorted| - 1].0 > p.0 {
      var before, last := sorted[..|sorted| - 1], sorted[|sorted| - 1];
      assert sorted == before + [last];
      forall i, j | 0 <= i < j < |before| ensures before[i].0 < before[j].0 {
        assert IndicesOf(sorted)[i] < IndicesOf(sorted)[j];
      }
      InsertKeeps(before, p);
      var r := Insert(before, p);
      forall i | 0 <= i < |r| ensures r[i].0 < last.0 {
        assert r[i] in r;
        if r[i] in before {
          var j :| 0 <= j < |before| && before[j] == r[i];
          assert IndicesOf(sorted)[j] < IndicesOf(sorted)[|before|];
        }
      }
      forall i, j | 0 <= i < j < |r + [last]| ensures IndicesOf(r + [last])[i] < IndicesOf(r + [last])[j] {
        if j < |r| { assert IndicesOf(r)[i] < IndicesOf(r)[j]; }
      }
    } else {
      var r := sorted + [p];
      forall i, j | 0 <= i < j < |r| ensures IndicesOf(r)[i] < IndicesOf(r)[j] {
        if j < |sorted| {
          assert IndicesOf(sorted)[i] < IndicesOf(sorted)[j];
        } else {
          assert sorted[i] in sorted;
          assert i < |sorted| - 1 ==> IndicesOf(sorted)[i] < IndicesOf(sorted)[|sorted| - 1];
        }
      }
    }
  }

  /** Sorting pairs of different indices lists the same pairs with increasing indices. */
  lemma {:induction false} ByIndexIncreases(pairs: seq<(nat, Output)>)
    requires forall i, j :: 0 <= i < j < |pairs| ==> pairs[i].0 != pairs[j].0
    ensures Increasing(IndicesOf(ByIndex(pairs))) && forall q :: q in ByIndex(pairs) <==> q in pairs
  {
    if pairs != [] {
      var before, last := pairs[..|pairs| - 1], pairs[|pairs| - 1];
      assert pairs == before + [last];
      ByIndexIncreases(before);
      forall q | q in ByIndex(before) ensures q.0 != last.0 {
        var i :| 0 <= i < |before| && before[i] == q;
        assert pairs[i] == q;
      }
      InsertKeeps(ByIndex(before), last);
    }
  }

  /** The collected items in the order of their indices. */
  function Reported(v: Turn, es: seq<Entry>): seq<Output>
    requires v.Refers() && forall e :: e in es ==> IsEntry(v, e)
  {
    OutputsOf(ByIndex(Pairs(v, es)))
  }

  /** No two entries have the same index. */
  ghost predicate Apart(v: Turn)
    requires v.Refers()
  {
    forall e, g :: IsEntry(v, e) && IsEntry(v, g) && Pair(v, e).0 == Pair(v, g).0 ==> e == g
  }

  /** The record at an index is collected. */
  predicate IsCollected(v: Turn, k: nat)
    requires v.Refers()
  {
    || k in v.blocks.Values || k in v.books.mcp.Values || k in v.books.search.Values
    || (k in v.books.plain.Values && IsPlain(v.store[k].name))
  }

  /** What is reported at each index, as a map. */
  function Collected(v: Turn): map<nat, Output>
    requires v.Refers()
  {
    (map k | k in v.store && IsCollected(v, k) :: v.store[k].item)
    + (map k | k in v.open :: Message(v.open[k])) + (map k | k in v.finished :: Message(v.finished[k]))
  }

  /** The collected items in index order. */
  function InOrder(collected: map<nat, Output>): (output: seq<Output>)
    ensures |output| == |Sorted(collected.Keys)|
    ensures forall j :: 0 <= j < |Sorted(collected.Keys)| ==> Sorted(collected.Keys)[j] in collected.Keys
  {
    var keys: seq<nat> := Sorted(collected.Keys);
    seq(|keys|, j requires 0 <= j < |keys| => assert keys[j] in keys; collected[keys[j]])
  }

  /** An entry's index is one of the map's. */
  lemma EntryIsCollected(v: Turn, e: Entry)
    requires v.Refers() && IsEntry(v, e)
    ensures Pair(v, e).0 in Collected(v)
  {
    hide IsPlain;
  }

  lemma KeyOfBlock(blocks: map<ReasoningKey, nat>, k: nat) returns (key: ReasoningKey)
    requires k in blocks.Values
    ensures key in blocks && blocks[key] == k
  {
    key :| key in blocks && blocks[key] == k;
  }

  /** What the map reports at an index is what some entry with that index reports. */
  lemma {:induction false} CollectedEntry(v: Turn, k: nat) returns (e: Entry)
    requires v.Refers() && k in Collected(v)
    ensures IsEntry(v, e) && Pair(v, e) == (k, Collected(v)[k])
  {
    hide IsPlain, IsCollected;
    if k in v.finished {
      e := OfFinished(k);
    } else if k in v.open {
      e := OfOpen(k);
    } else {
      e := RecordEntry(v, k);
    }
  }

  lemma RecordEntry(v: Turn, k: nat) returns (e: Entry)
    requires v.Refers() && k in v.store && IsCollected(v, k)
    ensures IsEntry(v, e) && Pair(v, e) == (k, v.store[k].item)
  {
    hide IsPlain;
    if k in v.books.search.Values {
      var i := KeyOf(v.books.search, k);
      e := OfSearch(i);
    } else if k in v.books.mcp.Values {
      var i := KeyOf(v.books.mcp, k);
      e := OfMcp(i);
    } else if k in v.books.plain.Values && IsPlain(v.store[k].name) {
      var i := KeyOf(v.books.plain, k);
      e := OfPlain(i);
    } else {
      var key := KeyOfBlock(v.blocks, k);
      e := OfBlock(key);
    }
  }

  /** The sorted pairs are those of the map, once each. */
  lemma {:induction false} SortedPairs(v: Turn, es: seq<Entry>)
    requires v.Refers() && Enumerates(v, es) && Apart(v)
    ensures var sorted := ByIndex(Pairs(v, es));
            && Increasing(IndicesOf(sorted))
            && (forall p :: p in sorted ==> p.0 in Collected(v) && Collected(v)[p.0] == p.1)
            && (forall k :: k in Collected(v) ==> (k, Collected(v)[k]) in sorted)
  {
    hide IsEntry, Pair, Collected, ByIndex;
    var pairs := Pairs(v, es);
    forall i, j | 0 <= i < j < |pairs| ensures pairs[i].0 != pairs[j].0 {
      assert es[i] in es && es[j] in es && es[i] != es[j];
    }
    ByIndexIncreases(pairs);
    forall p | p in pairs ensures p.0 in Collected(v) && Collected(v)[p.0] == p.1 {
      var i :| 0 <= i < |pairs| && pairs[i] == p;
      assert es[i] in es;
      EntryIsCollected(v, es[i]);
      var e := CollectedEntry(v, p.0);
      assert e == es[i];
    }
    forall k | k in Collected(v) ensures (k, Collected(v)[k]) in pairs {
      var e := CollectedEntry(v, k);
      var i :| 0 <= i < |es| && es[i] == e;
      assert pairs[i] == Pair(v, e);
    }
  }

  /** With no two entries at one index, whatever order the dictionaries have, the sorted list is the map in index
      order. */
  lemma {:induction false} ReportedOnce(v: Turn, es: seq<Entry>)
    requires v.Refers() && Enumerates(v, es) && Apart(v)
    ensures Reported(v, es) == InOrder(Collected(v))
  {
    hide Pairs, Collected, ByIndex, NoRepeats, Apart;
    SortedPairs(v, es);
    var sorted := ByIndex(Pairs(v, es));
    SortedIndices(sorted, Collected(v));
    forall j | 0 <= j < |sorted| ensures Reported(v, es)[j] == InOrder(Collected(v))[j] {
      assert sorted[j] in sorted && IndicesOf(sorted)[j] == sorted[j].0;
    }
  }

  lemma SortedIndices(sorted: seq<(nat, Output)>, collected: map<nat, Output>)
    requires Increasing(IndicesOf(sorted)) && forall p :: p in sorted ==> p.0 in collected
    requires forall k :: k in collected ==> (k, collected[k]) in sorted
    ensures IndicesOf(sorted) == Sorted(collected.Keys)
  {
    var indices, keys := IndicesOf(sorted), Sorted(collected.Keys);
    forall x: int ensures x in indices <==> x in keys {
      if x in indices {
        var j :| 0 <= j < |indices| && indices[j] == x;
        assert sorted[j] in sorted && sorted[j].0 in collected.Keys;
      }
      if x in keys {
        assert x in collected.Keys;
        var j :| 0 <= j < |sorted| && sorted[j] == (x, collected[x]);
        assert indices[j] == x;
      }
    }
    IncreasingUnique(indices, keys);
  }

  lemma InOrderFull(collected: map<nat, Output>, n: nat)
    requires forall k: nat :: k in collected <==> k < n
    ensures |InOrder(collected)| == n
    ensures forall k :: 0 <= k < n ==> InOrder(collected)[k] == collected[k]
  {
    var all: seq<nat> := seq(n, k requires 0 <= k < n => k);
    var keys := Sorted(collected.Keys);
    forall x ensures x in all <==> x in keys {
      if x in all {
        var k :| 0 <= k < n && all[k] == x;
        assert k in collected.Keys;
      }
      if x in keys {
        assert x in collected.Keys;
        assert all[x] == x;
      }
    }
    IncreasingUnique(all, keys);
  }

  lemma KeyOf(refs: map<int, nat>, k: nat) returns (i: int)
    requires k in refs.Values
    ensures i in refs && refs[i] == k
  {
    if forall j :: j in refs ==> refs[j] != k { assert false; }
    i :| i in refs && refs[i] == k;
  }

  lemma ValuesIn(refs: map<int, nat>, store: map<nat, Block>)
    requires forall i :: i in refs ==> refs[i] in store
    ensures refs.Values <= store.Keys
  {
    forall k | k in refs.Values ensures k in store {
      var i := KeyOf(refs, k);
    }
  }

  /** The output list agrees with the announced items: one for each, of the announced kind and identity,
      with the text that was streamed. */
  ghost predicate Agrees(items: seq<Item>, output: seq<Output>) {
    && |output| == |items|
    && (forall k :: 0 <= k < |items| ==> output[k] == WithText(items[k].added, TextOf(output[k])))
    && (forall k :: 0 <= k < |items| && Streams(output[k]) ==> TextOf(output[k]) == items[k].Deltas())
  }

  lemma {:induction false} AgreesSays(items: seq<Item>, output: seq<Output>)
    requires Agrees(items, output)
    ensures SaidOn(OutputText, output) == Streamed(OutputText, items)
    ensures SaidOn(ReasoningSummary, output) == Streamed(ReasoningSummary, items)
    ensures MessagesOf(output) == MessageTexts(items)
  {
    if items != [] {
      AgreesSays(items[..|items| - 1], output[..|output| - 1]);
    }
  }

  lemma {:induction false} CallsInOrder(t: ToolTable, owners: seq<Owner>, output: seq<Output>, fs: seq<Fragment>)
    requires |owners| == |output|
    requires forall k :: 0 <= k < |owners| ==>
               if owners[k].OfCall? then output[k].Call? && output[k] == SaidCall(t, fs, owners[k].index)
               else !output[k].Call?
    ensures CallsOf(output) == SaidCalls(t, fs, CallOrder(owners))
  {
    hide SaidCall;
    if owners != [] {
      CallsInOrder(t, owners[..|owners| - 1], output[..|output| - 1], fs);
    }
  }

  ghost function OpenMessage(current: Option<nat>, text: string): map<nat, string> {
    if current.Some? then map[current.value := text] else map[]
  }

  /** The state is laid out as the items are. */
  ghost predicate Laid(items: seq<Item>, owners: seq<Owner>, v: Turn, current: Option<nat>, text: string) {
    && Layout(items, owners, v.store, v.finished, current, text)
    && v.open == OpenMessage(current, text) && v.Refers()
  }

  /** Every key of the reasoning dictionary has a record of its own. */
  ghost predicate ReasoningApart(store: map<nat, Block>, blocks: map<ReasoningKey, nat>) {
    && (forall key :: key in blocks ==> blocks[key] in store && store[blocks[key]].item.Reasoning?)
    && (forall a, b :: a in blocks && b in blocks && blocks[a] == blocks[b] ==> a == b)
  }

  /** What an entry's index tells of the entry. */
  lemma EntryTells(items: seq<Item>, owners: seq<Owner>, v: Turn, current: Option<nat>, text: string, e: Entry)
    requires Laid(items, owners, v, current, text) && ReasoningApart(v.store, v.blocks)
    requires Referring(owners, v.books) && Kinds(v.store, v.books) && IsEntry(v, e)
    ensures var k := Pair(v, e).0;
            match e
            case OfBlock(key) => v.blocks[key] == k && k in v.store && v.store[k].item.Reasoning?
            case OfOpen(j) => j == k && k !in v.store && current == Some(k) && k !in v.finished
            case OfPlain(i) => k in v.store && IsCallOf(v.store[k], {AsPlain}) && owners[k] == OfCall(i)
            case OfMcp(i) => k in v.store && IsCallOf(v.store[k], {AsMcp}) && owners[k] == OfCall(i)
            case OfSearch(i) => k in v.store && IsCallOf(v.store[k], {AsSearch}) && owners[k] == OfCall(i)
            case OfFinished(j) => j == k && k !in v.store && k in v.finished
  {
    hide IsPlain;
    var k := Pair(v, e).0;
    match e
    case OfOpen(_) => assert Slot(k, items[k], owners[k], v.store, v.finished, current, text);
    case OfFinished(_) => assert Slot(k, items[k], owners[k], v.store, v.finished, current, text);
    case _ =>
  }

  lemma TracedRefers(owners: seq<Owner>, books: CallBooks)
    requires Traced(owners, books)
    ensures Referring(owners, books)
  {
  }

  /** No two of the collected pairs have the same index, strayed calls or not. */
  lemma {:induction false} EntriesApart(items: seq<Item>, owners: seq<Owner>, v: Turn, current: Option<nat>,
                                        text: string)
    requires Laid(items, owners, v, current, text) && ReasoningApart(v.store, v.blocks)
    requires Referring(owners, v.books) && Kinds(v.store, v.books)
    ensures Apart(v)
  {
    hide Layout, Kinds, Referring, IsPlain;
    forall e, g | IsEntry(v, e) && IsEntry(v, g) && Pair(v, e).0 == Pair(v, g).0 ensures e == g {
      EntryTells(items, owners, v, current, text, e);
      EntryTells(items, owners, v, current, text, g);
    }
  }

  /** What is reported at an index is the item announced there. */
  lemma {:induction false} CollectedShown(items: seq<Item>, owners: seq<Owner>, v: Turn, current: Option<nat>,
                                          text: string, k: nat)
    requires Laid(items, owners, v, current, text) && k in Collected(v)
    ensures var o := Collected(v)[k];
            && k < |items| == |owners| && o == WithText(items[k].added, TextOf(o))
            && (Streams(o) ==> TextOf(o) == items[k].Deltas())
            && (if owners[k].OfMessage? then o.Message? else k in v.store && o == v.store[k].item)
  {
    hide Collected, IsPlain;
    var e := CollectedEntry(v, k);
    LayoutAt(items, owners, v.store, v.finished, current, text, k);
    assert items[k].before + "" == items[k].before;
  }

  lemma CollectedMessage(items: seq<Item>, owners: seq<Owner>, v: Turn, current: Option<nat>, text: string, k: nat)
    requires Laid(items, owners, v, current, text) && k < |items| && owners[k].OfMessage?
    ensures k in Collected(v)
  {
    hide IsPlain, Collected;
    LayoutAt(items, owners, v.store, v.finished, current, text, k);
    EntryIsCollected(v, if current == Some(k) then OfOpen(k) else OfFinished(k));
  }

  /** The own record of a call that strayed is passed over because of its name. */
  lemma {:induction false} StrayedOut(t: ToolTable, items: seq<Item>, owners: seq<Owner>, v: Turn,
                                      current: Option<nat>, text: string, fs: seq<Fragment>, i: int)
    requires Laid(items, owners, v, current, text) && ReasoningApart(v.store, v.blocks)
    requires Traced(owners, v.books) && Kinds(v.store, v.books) && FiledAt(t, fs, i, v.store, v.books)
    requires Strayed(t, fs, i)
    ensures i in v.books.plain && v.books.plain[i] < |items| == |owners| && owners[v.books.plain[i]] == OfCall(i)
    ensures v.books.plain[i] !in Collected(v)
  {
    hide Layout, IsPlain, Collected, Kinds;
    StrayedRecord(t, fs, i, v.store, v.books);
    var k := v.books.plain[i];
    KindOf(v.store, v.books, i);
    LayoutRecord(items, owners, v.store, v.finished, current, text, k);
    LayoutAt(items, owners, v.store, v.finished, current, text, k);
    if k in Collected(v) {
      var e := CollectedEntry(v, k);
      EntryTells(items, owners, v, current, text, e);
      assert false;
    }
  }

  lemma StrayedRecord(t: ToolTable, fs: seq<Fragment>, i: int, store: map<nat, Block>, books: CallBooks)
    requires FiledAt(t, fs, i, store, books) && Strayed(t, fs, i)
    ensures i in books.plain && books.plain[i] in store && !IsPlain(store[books.plain[i]].name)
  {
    hide Shown, Again, Resolve, McpReference, IsSearch;
  }

  /** Nothing else is: what is missing is the own record of a call that strayed. */
  lemma {:induction false} MissingStrayed(t: ToolTable, items: seq<Item>, owners: seq<Owner>, v: Turn,
                                          current: Option<nat>, text: string, fs: seq<Fragment>, k: nat)
    requires Laid(items, owners, v, current, text) && ReasoningOk(owners, v.store, v.blocks)
    requires Traced(owners, v.books) && Kinds(v.store, v.books) && Filed(t, fs, v.store, v.books)
    requires k < |items| && k !in Collected(v)
    ensures |owners| == |items| && owners[k].OfCall?
    ensures var i := owners[k].index; Strayed(t, fs, i) && i in v.books.plain && v.books.plain[i] == k
  {
    hide Layout, IsPlain, Collected, FiledAt, Kinds, Strayed;
    LayoutAt(items, owners, v.store, v.finished, current, text, k);
    if owners[k].OfMessage? {
      CollectedMessage(items, owners, v, current, text, k);
    } else if owners[k].OfReasoning? {
      EntryIsCollected(v, OfBlock(Chat));
    } else {
      var i := owners[k].index;
      assert FiledAt(t, fs, i, v.store, v.books);
      if i in v.books.mcp && v.books.mcp[i] == k { EntryIsCollected(v, OfMcp(i)); }
      if i in v.books.search && v.books.search[i] == k { EntryIsCollected(v, OfSearch(i)); }
      assert i in v.books.plain && v.books.plain[i] == k;
      if IsPlain(v.store[k].name) { EntryIsCollected(v, OfPlain(i)); }
      PlainStrayed(t, fs, i, v.store, v.books);
    }
  }

  /** A plain call with another name has strayed. */
  lemma PlainStrayed(t: ToolTable, fs: seq<Fragment>, i: int, store: map<nat, Block>, books: CallBooks)
    requires FiledAt(t, fs, i, store, books) && i in books.plain && books.plain[i] in store
    requires !IsPlain(store[books.plain[i]].name)
    ensures Strayed(t, fs, i)
  {
    hide Resolve, Again, Shown, McpReference, IsSearch;
  }

  /** The calls that strayed. */
  function StrayedCalls(t: ToolTable, fs: seq<Fragment>): set<int> {
    set i | i in Indices(fs) && Strayed(t, fs, i)
  }

  /** As many items are missing from the output as calls have strayed. */
  lemma {:induction false} StrayedAreMissing(t: ToolTable, items: seq<Item>, owners: seq<Owner>, v: Turn,
                                             current: Option<nat>, text: string, fs: seq<Fragment>)
    requires Laid(items, owners, v, current, text) && ReasoningOk(owners, v.store, v.blocks)
    requires Traced(owners, v.books) && Kinds(v.store, v.books) && Filed(t, fs, v.store, v.books)
    ensures |InOrder(Collected(v))| + |StrayedCalls(t, fs)| == |items|
  {
    hide Layout, Collected, Kinds, ReasoningOk, FiledAt, Strayed, Indices, ReasoningApart, Traced;
    OneReasoning(owners, v.store, v.blocks);
    var strayed := StrayedCalls(t, fs);
    forall i | i in strayed
      ensures i in v.books.plain && v.books.plain[i] < |items| == |owners| && v.books.plain[i] !in Collected(v)
              && owners[v.books.plain[i]] == OfCall(i)
    {
      assert FiledAt(t, fs, i, v.store, v.books);
      StrayedOut(t, items, owners, v, current, text, fs, i);
    }
    forall k: nat | k < |items| && k !in Collected(v)
      ensures exists i :: i in strayed && i in v.books.plain && v.books.plain[i] == k
    {
      MissingStrayed(t, items, owners, v, current, text, fs, k);
      StrayedSeen(t, fs, owners[k].index);
    }
    forall k | k in Collected(v) ensures k < |items| {
      CollectedShown(items, owners, v, current, text, k);
    }
    SizesAddUp(|items|, Collected(v).Keys, strayed, v.books.plain);
  }

  lemma SizesAddUp(n: nat, keys: set<nat>, calls: set<int>, refs: map<int, nat>)
    requires forall i :: i in calls ==> i in refs && refs[i] < n && refs[i] !in keys
    requires forall i, j :: i in calls && j in calls && refs[i] == refs[j] ==> i == j
    requires forall k :: k in keys ==> k < n
    requires forall k: nat :: k < n && k !in keys ==> exists i :: i in calls && i in refs && refs[i] == k
    ensures |Sorted(keys)| + |calls| == n
  {
    var missing: set<int> := set i | i in calls :: refs[i];
    ImageSize(calls, refs);
    var kept: set<int> := keys;
    assert UpTo(n) == kept + missing && kept !! missing;
    SortedSize(kept);
  }

  lemma OneReasoning(owners: seq<Owner>, store: map<nat, Block>, blocks: map<ReasoningKey, nat>)
    requires ReasoningOk(owners, store, blocks)
    ensures ReasoningApart(store, blocks)
  {
  }

  lemma StrayedSeen(t: ToolTable, fs: seq<Fragment>, i: int)
    requires Strayed(t, fs, i)
    ensures i in Indices(fs)
  {
    FirstSeen(fs, i);
  }

  lemma StrayedNone(t: ToolTable, fs: seq<Fragment>)
    ensures NoneStrayed(t, fs) <==> |StrayedCalls(t, fs)| == 0
  {
    hide Strayed;
    if !NoneStrayed(t, fs) {
      var i := StrayedOne(t, fs);
      StrayedSeen(t, fs, i);
      assert i in StrayedCalls(t, fs);
    }
  }

  /** Different calls have different records. */
  lemma {:induction false} ImageSize(calls: set<int>, refs: map<int, nat>)
    requires forall i :: i in calls ==> i in refs
    requires forall i, j :: i in calls && j in calls && refs[i] == refs[j] ==> i == j
    ensures |set i | i in calls :: refs[i]| == |calls|
  {
    if calls != {} {
      if forall i :: i !in calls { assert false; }
      var i :| i in calls;
      ImageSize(calls - {i}, refs);
      assert (set j | j in calls :: refs[j]) == (set j | j in calls - {i} :: refs[j]) + {refs[i]};
    }
  }

  function UpTo(n: nat): (r: set<int>)
    ensures |r| == n && forall k :: k in r <==> 0 <= k < n
  {
    if n == 0 then {} else UpTo(n - 1) + {n - 1}
  }

  /** Text and reasoning are reported as they were streamed, and every message. */
  lemma {:induction false} CollectedSays(items: seq<Item>, owners: seq<Owner>, v: Turn, current: Option<nat>,
                                         text: string)
    requires Laid(items, owners, v, current, text)
    ensures MessagesOf(InOrder(Collected(v))) == MessageTexts(items)
    ensures SaidOn(OutputText, InOrder(Collected(v))) == Streamed(OutputText, items)
    ensures ReasoningOk(owners, v.store, v.blocks) ==>
              SaidOn(ReasoningSummary, InOrder(Collected(v))) == Streamed(ReasoningSummary, items)
  {
    hide MessagesOf, MessageTexts, SaidOn, Streamed, Layout, Collected, Below, KeysBelow, InOrder;
    var c := Collected(v);
    forall k | k in c ensures k < |items| {
      CollectedShown(items, owners, v, current, text, k);
    }
    InOrderIsBelow(c, |items|);
    assert items[..|items|] == items;
    forall k: nat | k < |items| ensures TellsAt(c, items, OutputText, k) {
      CollectedTells(items, owners, v, current, text, OutputText, k);
    }
    SaidBelow(c, items, OutputText, |items|);
    if ReasoningOk(owners, v.store, v.blocks) {
      forall k: nat | k < |items| ensures TellsAt(c, items, ReasoningSummary, k) {
        CollectedTells(items, owners, v, current, text, ReasoningSummary, k);
      }
      SaidBelow(c, items, ReasoningSummary, |items|);
    }
  }

  /** At an index of a channel the streamed text is reported. */
  ghost predicate TellsAt(collected: map<nat, Output>, items: seq<Item>, channel: Channel, k: nat)
    requires k < |items|
  {
    if ChannelOf(items[k].added) == channel then
      k in collected && ChannelOf(collected[k]) == channel && TextOf(collected[k]) == items[k].Deltas()
    else k in collected ==> ChannelOf(collected[k]) != channel
  }

  lemma CollectedTells(items: seq<Item>, owners: seq<Owner>, v: Turn, current: Option<nat>, text: string,
                       channel: Channel, k: nat)
    requires Laid(items, owners, v, current, text) && k < |items|
    requires channel == OutputText || (channel == ReasoningSummary && ReasoningOk(owners, v.store, v.blocks))
    ensures TellsAt(Collected(v), items, channel, k)
  {
    hide Layout, Collected;
    LayoutAt(items, owners, v.store, v.finished, current, text, k);
    if owners[k].OfMessage? {
      CollectedMessage(items, owners, v, current, text, k);
    } else if channel == ReasoningSummary && owners[k].OfReasoning? {
      EntryIsCollected(v, OfBlock(Chat));
    }
    if k in Collected(v) { CollectedShown(items, owners, v, current, text, k); }
  }

  /** The reported item of a call that has not strayed is what its fragments said. */
  lemma {:induction false} CollectedAt(t: ToolTable, items: seq<Item>, owners: seq<Owner>, v: Turn,
                                       current: Option<nat>, text: string, fs: seq<Fragment>, k: nat)
    requires Laid(items, owners, v, current, text) && CallsOk(t, owners, v.store, v.books.All(), fs)
    requires k in Collected(v)
    ensures k < |items| == |owners|
    ensures var o := Collected(v)[k];
            if owners[k].OfCall? then o.Call? && o == SaidCall(t, fs, owners[k].index) else !o.Call?
  {
    hide Layout, Collected, SaidCall, Shown, CallOrder, ShownOrder;
    CollectedShown(items, owners, v, current, text, k);
    LayoutAt(items, owners, v.store, v.finished, current, text, k);
    if owners[k].OfCall? {
      assert CallSays(t, owners[k].index, k, owners, v.store, fs);
      CallIsCall(t, fs, owners[k].index);
    }
  }

  /** While no call has strayed, the output has exactly one item for each that was announced, in the order of their
      announcements, saying what was streamed and what the calls' fragments said. */
  lemma {:induction false} CollectedFull(t: ToolTable, items: seq<Item>, owners: seq<Owner>, v: Turn,
                                         current: Option<nat>, text: string, fs: seq<Fragment>, es: seq<Entry>)
    requires Laid(items, owners, v, current, text) && ReasoningOk(owners, v.store, v.blocks)
    requires Traced(owners, v.books) && Kinds(v.store, v.books) && Filed(t, fs, v.store, v.books)
    requires CallsOk(t, owners, v.store, v.books.All(), fs) && NoneStrayed(t, fs) && Enumerates(v, es)
    ensures Agrees(items, Reported(v, es)) && CallsOf(Reported(v, es)) == SaidCalls(t, fs, ShownOrder(t, fs))
  {
    hide SaidCall, CallsOf, SaidCalls, Collected, Layout, CallsOk, FiledAt, Strayed, ReasoningOk, CallOrder, Kinds,
         ShownOrder, Enumerates, Traced, Reported;
    OneReasoning(owners, v.store, v.blocks);
    TracedRefers(owners, v.books);
    EntriesApart(items, owners, v, current, text);
    ReportedOnce(v, es);
    var c := Collected(v);
    forall k: nat ensures k in c <==> k < |items| {
      if k in c { CollectedShown(items, owners, v, current, text, k); }
      if k < |items| && k !in c { MissingStrayed(t, items, owners, v, current, text, fs, k); }
    }
    InOrderFull(c, |items|);
    var output := InOrder(c);
    OwnersMatch(t, items, owners, v.store, v.finished, current, text, v.books.All(), fs);
    forall k | 0 <= k < |items|
      ensures output[k] == WithText(items[k].added, TextOf(output[k]))
      ensures Streams(output[k]) ==> TextOf(output[k]) == items[k].Deltas()
      ensures if owners[k].OfCall? then output[k].Call? && output[k] == SaidCall(t, fs, owners[k].index)
              else !output[k].Call?
    {
      CollectedShown(items, owners, v, current, text, k);
      CollectedAt(t, items, owners, v, current, text, fs, k);
    }
    CallsInOrder(t, owners, output, fs);
  }

  lemma OwnersMatch(t: ToolTable, items: seq<Item>, owners: seq<Owner>, store: map<nat, Block>,
                    finished: map<nat, string>, current: Option<nat>, text: string, calls: map<int, nat>,
                    fs: seq<Fragment>)
    requires Layout(items, owners, store, finished, current, text) && CallsOk(t, owners, store, calls, fs)
    ensures |owners| == |items| && CallOrder(owners) == ShownOrder(t, fs)
  {
    hide ShownOrder, CallOrder;
  }

  /** Something waits exactly when some call is stuck. */
  lemma {:induction false} WaitingIsStuck(t: ToolTable, fs: seq<Fragment>, i: int, store: map<nat, Block>,
                                          books: CallBooks)
    requires FiledAt(t, fs, i, store, books)
    ensures i in books.waiting <==> Stuck(t, fs, i)
  {
    hide EverComplete, Again, McpReference, Resolve;
  }

  lemma WaitingMeans(t: ToolTable, fs: seq<Fragment>, store: map<nat, Block>, books: CallBooks)
    requires Filed(t, fs, store, books)
    ensures books.waiting == map[] <==> !SomeStuck(t, fs)
  {
    hide FiledAt, Stuck;
    forall i ensures i in books.waiting <==> Stuck(t, fs, i) {
      assert FiledAt(t, fs, i, store, books);
      WaitingIsStuck(t, fs, i, store, books);
    }
    if books.waiting != map[] {
      if forall i :: i !in books.waiting { assert false; }
    }
  }

  // ---- What is done ----

  predicate InSomeBook(books: CallBooks, k: nat) {
    k in books.plain.Values || k in books.mcp.Values || k in books.search.Values
  }

  /** With the message and the reasoning done, every announced item is done exactly when every call's record is closed,
      strayed calls or not. */
  lemma {:induction false} DoneMeans(t: ToolTable, items: seq<Item>, owners: seq<Owner>, v: Turn, text: string)
    requires Laid(items, owners, v, None, text) && ReasoningOk(owners, v.store, v.blocks)
    requires Owned(t, owners, v.store, v.books) && Kinds(v.store, v.books)
    requires forall key :: key in v.blocks ==> v.blocks[key] in v.store && v.store[v.blocks[key]].closed
    ensures AllDone(items) <==> forall k :: InSomeBook(v.books, k) ==> v.store[k].closed
  {
    hide Layout, Kinds, ClosedWhenComplete;
    if AllDone(items) {
      forall k | InSomeBook(v.books, k) ensures v.store[k].closed {
        LayoutRecord(items, owners, v.store, v.finished, None, text, k);
      }
    }
    if forall k :: InSomeBook(v.books, k) ==> v.store[k].closed {
      forall k | 0 <= k < |items| ensures items[k].done.Some? {
        LayoutAt(items, owners, v.store, v.finished, None, text, k);
        if owners[k].OfCall? {
          assert InBooks(v.books, owners[k].index, k);
          assert InSomeBook(v.books, k);
        }
      }
    }
  }

  /** While no call has strayed and none waits, every call's record is closed exactly when the arguments of every call
      have been complete. */
  lemma {:induction false} CompleteMeans(t: ToolTable, owners: seq<Owner>, v: Turn, fs: seq<Fragment>)
    requires CallsOk(t, owners, v.store, v.books.All(), fs) && Traced(owners, v.books) && v.Refers()
    requires Filed(t, fs, v.store, v.books) && v.books.waiting == map[]
    ensures (forall k :: InSomeBook(v.books, k) ==> v.store[k].closed) <==> AllComplete(t, fs)
  {
    hide CallOrder, ShownOrder, Shown, EverComplete, Opened, SaidCall, FiledAt, Indices;
    var calls := v.books.All();
    if AllComplete(t, fs) {
      forall k | InSomeBook(v.books, k) ensures v.store[k].closed {
        var i := OwnerOf(owners, v.books, k);
        assert calls[i] == k && CallSays(t, i, k, owners, v.store, fs);
        FirstSeen(fs, i);
      }
    }
    if forall k :: InSomeBook(v.books, k) ==> v.store[k].closed {
      forall i | i in Indices(fs) ensures EverComplete(t, fs, i) {
        assert FiledAt(t, fs, i, v.store, v.books);
        var k := SomeRecord(t, fs, i, v.store, v.books);
        assert i in calls && CallSays(t, i, calls[i], owners, v.store, fs);
        assert InSomeBook(v.books, calls[i]);
      }
    }
  }

  /** The record of a call that has not strayed is closed exactly when some fragment completed its arguments; an open
      one has incomplete arguments, and a closed one visible ones. */
  lemma {:induction false} OpenCallMeans(t: ToolTable, i: int, owners: seq<Owner>, store: map<nat, Block>,
                                         books: CallBooks, fs: seq<Fragment>)
    requires CallsOk(t, owners, store, books.All(), fs) && Owned(t, owners, store, books) && i in books.All()
    ensures var k := books.All()[i];
            && k in store && store[k].item.Call? && TextOf(store[k].item) == Arguments(fs, i)
            && store[k].closed == EverComplete(t, fs, i)
            && if store[k].closed then Strip(Arguments(fs, i)) != ""
               else !ArgumentsComplete(t, store[k].name, Arguments(fs, i))
  {
    hide CallOrder, ShownOrder, Shown, EverComplete, ArgumentsComplete, Opened, Traced;
    var k := books.All()[i];
    assert CallSays(t, i, k, owners, store, fs);
    CallIsCall(t, fs, i);
  }

  /** When every announced item is done, every call had arguments that could be read, strayed or not. */
  lemma {:induction false} DoneReadable(t: ToolTable, items: seq<Item>, owners: seq<Owner>, v: Turn,
                                        current: Option<nat>, text: string, fs: seq<Fragment>)
    requires Laid(items, owners, v, current, text) && Kinds(v.store, v.books) && Filed(t, fs, v.store, v.books)
    requires AllTold(t, fs, v.store, v.books) && v.books.waiting == map[] && AllDone(items)
    ensures forall i :: i in Indices(fs) ==> EverReadable(t, fs, i)
  {
    hide Layout, Kinds, EverReadable, Resolve, McpReference, IsSearch, Shown, Again, Indices;
    forall i | i in Indices(fs) ensures EverReadable(t, fs, i) {
      FirstSeen(fs, i);
      assert FiledAt(t, fs, i, v.store, v.books) && Told(t, fs, i, v.store, v.books);
      KindOf(v.store, v.books, i);
      LayoutRecord(items, owners, v.store, v.finished, current, text, OwnRefs(fs, i, v.books)[i]);
    }
  }

  /** What has been streamed for a named call whose item is not done cannot be read. */
  lemma {:induction false} OpenUnreadable(t: ToolTable, items: seq<Item>, owners: seq<Owner>, v: Turn,
                                          current: Option<nat>, text: string)
    requires Laid(items, owners, v, current, text) && Kinds(v.store, v.books) && Owned(t, owners, v.store, v.books)
    requires DonesRead(t, items)
    ensures DoneWhenReadable(t, items)
  {
    hide Layout, Kinds;
    forall k | 0 <= k < |items| && items[k].added.Call? && items[k].done.None?
               && Streams(items[k].added) && items[k].added.name != ""
      ensures !Readable(t, items[k].Deltas())
    {
      LayoutAt(items, owners, v.store, v.finished, current, text, k);
      assert InBooks(v.books, owners[k].index, k);
      KindOf(v.store, v.books, owners[k].index);
    }
  }

  lemma OwnerOf(owners: seq<Owner>, books: CallBooks, k: nat) returns (i: int)
    requires Traced(owners, books) && InSomeBook(books, k)
    ensures k < |owners| && owners[k] == OfCall(i) && InBooks(books, i, k)
  {
    if k in books.plain.Values {
      i := KeyOf(books.plain, k);
    } else if k in books.mcp.Values {
      i := KeyOf(books.mcp, k);
    } else {
      i := KeyOf(books.search, k);
    }
  }

  /** A call of which nothing waits has a record. */
  lemma SomeRecord(t: ToolTable, fs: seq<Fragment>, i: int, store: map<nat, Block>, books: CallBooks) returns (k: nat)
    requires FiledAt(t, fs, i, store, books) && i in Indices(fs) && books.waiting == map[]
    ensures InBooks(books, i, k) && InSomeBook(books, k) && i in books.All()
  {
    hide Shown, Again, Resolve, McpReference, IsSearch, Indices;
    FirstSeen(fs, i);
    k := if i in books.plain then books.plain[i] else if i in books.mcp then books.mcp[i] else books.search[i];
    assert k in books.plain.Values || k in books.mcp.Values || k in books.search.Values;
  }

  /** The collected items below an index, in index order. */
  function Below(collected: map<nat, Output>, n: nat): seq<Output> {
    if n == 0 then [] else Below(collected, n - 1) + (if n - 1 in collected then [collected[n - 1]] else [])
  }

  function KeysBelow(collected: map<nat, Output>, n: nat): (keys: seq<nat>)
    ensures Increasing(keys) && forall x: int :: x in keys <==> 0 <= x < n && x in collected
  {
    if n == 0 then []
    else
      var keys := KeysBelow(collected, n - 1);
      assert forall i :: 0 <= i < |keys| ==> keys[i] in keys;
      if n - 1 in collected then keys + [n - 1] else keys
  }

  lemma {:induction false} BelowAt(collected: map<nat, Output>, n: nat)
    ensures |Below(collected, n)| == |KeysBelow(collected, n)|
    ensures forall j :: 0 <= j < |Below(collected, n)| ==>
              var k := KeysBelow(collected, n)[j]; k in collected && Below(collected, n)[j] == collected[k]
  {
    if n > 0 {
      BelowAt(collected, n - 1);
    }
  }

  lemma InOrderIsBelow(collected: map<nat, Output>, n: nat)
    requires forall k :: k in collected ==> k < n
    ensures InOrder(collected) == Below(collected, n)
  {
    BelowAt(collected, n);
    var keys := Sorted(collected.Keys);
    forall x: int ensures x in keys <==> x in KeysBelow(collected, n) {
      if x in keys { assert x in collected.Keys; }
    }
    IncreasingUnique(keys, KeysBelow(collected, n));
  }

  lemma {:induction false} SaidBelow(collected: map<nat, Output>, items: seq<Item>, channel: Channel, n: nat)
    requires n <= |items| && forall k: nat :: k < |items| ==> TellsAt(collected, items, channel, k)
    ensures SaidOn(channel, Below(collected, n)) == Streamed(channel, items[..n])
    ensures channel == OutputText ==> MessagesOf(Below(collected, n)) == MessageTexts(items[..n])
  {
    if n > 0 {
      SaidBelow(collected, items, channel, n - 1);
      assert items[..n][..n - 1] == items[..n - 1];
      assert TellsAt(collected, items, channel, n - 1);
      var before := Below(collected, n - 1);
      if n - 1 in collected {
        assert (before + [collected[n - 1]])[..|before|] == before;
      } else {
        assert before + [] == before;
      }
    }
  }
}
