/** Ordered dictionaries used as LRU lists, and what their eviction loops keep
    (codex_shim/chatgpt_conversation_cache.py). */
module LruIndex {
  import opened Common

  datatype Key = Key(session: string, responseId: string)

  /** One entry of an ordered dictionary; the least recently used entry comes first. */
  datatype Slot<V> = Slot(key: Key, value: V)

  ghost predicate Unique<V(!new)>(d: seq<Slot<V>>) {
    forall i, j :: 0 <= i < j < |d| ==> d[i].key != d[j].key
  }

  function Lookup<V(!new)>(d: seq<Slot<V>>, key: Key): (r: Option<V>)
    ensures r.Some? <==> exists x :: x in d && x.key == key
    ensures r.Some? ==> Slot(key, r.value) in d
  {
    if d == [] then None
    else if d[0].key == key then
      assert d[0] in d;
      Some(d[0].value)
    else
      assert forall x :: x in d <==> x == d[0] || x in d[1..];
      Lookup(d[1..], key)
  }

  /** `pop(key, None)`. */
  function Without<V(!new)>(d: seq<Slot<V>>, key: Key): (r: seq<Slot<V>>)
    ensures |d| - 1 <= |r| <= |d|
  {
    if d == [] then [] else if d[0].key == key then d[1..] else [d[0]] + Without(d[1..], key)
  }

  /** Store under a key and make it the most recent one. */
  function Stored<V(!new)>(d: seq<Slot<V>>, key: Key, value: V): seq<Slot<V>> {
    Without(d, key) + [Slot(key, value)]
  }

  /** `move_to_end(key)` if the key is there. */
  function Touched<V(!new)>(d: seq<Slot<V>>, key: Key): seq<Slot<V>> {
    match Lookup(d, key)
    case None => d
    case Some(value) => Stored(d, key, value)
  }

  /** The first key of a dictionary does not come again. */
  lemma FirstApart<V(!new)>(d: seq<Slot<V>>)
    requires Unique(d) && d != []
    ensures Unique(d[1..]) && (forall x :: x in d[1..] ==> x.key != d[0].key)
    ensures forall x :: x in d <==> x == d[0] || x in d[1..]
  {
    forall x | x in d[1..] ensures x.key != d[0].key {
      var i :| 0 <= i < |d| - 1 && d[1..][i] == x;
      assert d[i + 1] == x;
    }
  }

  lemma UniqueCons<V(!new)>(x: Slot<V>, d: seq<Slot<V>>)
    requires Unique(d) && forall y :: y in d ==> y.key != x.key
    ensures Unique([x] + d)
  {
    var r := [x] + d;
    forall i, j | 0 <= i < j < |r| ensures r[i].key != r[j].key {
      assert r[j] == d[j - 1] && d[j - 1] in d;
      assert i > 0 ==> r[i] == d[i - 1];
    }
  }

  lemma {:induction false} WithoutKeeps<V(!new)>(d: seq<Slot<V>>, key: Key)
    requires Unique(d)
    ensures Unique(Without(d, key))
    ensures forall x :: x in Without(d, key) <==> x in d && x.key != key
    ensures |Without(d, key)| == |d| - (if Lookup(d, key).Some? then 1 else 0)
  {
    hide Unique;
    if d != [] {
      FirstApart(d);
      if d[0].key != key {
        WithoutKeeps(d[1..], key);
        UniqueCons(d[0], Without(d[1..], key));
        assert forall x :: x in [d[0]] + Without(d[1..], key) <==> x == d[0] || x in Without(d[1..], key);
      }
    }
  }

  lemma StoredKeeps<V(!new)>(d: seq<Slot<V>>, key: Key, value: V)
    requires Unique(d)
    ensures Unique(Stored(d, key, value))
    ensures forall x :: x in Stored(d, key, value) <==> x == Slot(key, value) || (x in d && x.key != key)
    ensures |Stored(d, key, value)| == |d| + (if Lookup(d, key).Some? then 0 else 1)
  {
    WithoutKeeps(d, key);
    var r := Stored(d, key, value);
    var rest := Without(d, key);
    forall i, j | 0 <= i < j < |r| ensures r[i].key != r[j].key {
      assert r[i] == rest[i] && rest[i] in rest;
    }
  }

  lemma LookupOne<V(!new)>(d: seq<Slot<V>>, x: Slot<V>)
    requires Unique(d) && x in d
    ensures Lookup(d, x.key) == Some(x.value)
  {
    var i :| 0 <= i < |d| && d[i] == x;
    var y := Slot(x.key, Lookup(d, x.key).value);
    var j :| 0 <= j < |d| && d[j] == y;
  }

  lemma TouchedKeeps<V(!new)>(d: seq<Slot<V>>, key: Key)
    requires Unique(d)
    ensures Unique(Touched(d, key)) && |Touched(d, key)| == |d|
    ensures forall x :: x in Touched(d, key) <==> x in d
  {
    if Lookup(d, key).Some? {
      var value := Lookup(d, key).value;
      StoredKeeps(d, key, value);
      forall x ensures x in Touched(d, key) <==> x in d {
        if x in d && x.key == key { LookupOne(d, x); }
      }
    }
  }

  // ---- Recency, said by position ----

  /** The key stands at a position. */
  ghost predicate At<V>(d: seq<Slot<V>>, i: nat, key: Key) {
    i < |d| && d[i].key == key
  }

  /** A value has been put under a key as the most recent entry; the others stand as they stood. */
  ghost predicate PutLast<V>(d: seq<Slot<V>>, key: Key, value: V, after: seq<Slot<V>>) {
    || (exists i: nat :: At(d, i, key) && after == d[..i] + d[i + 1..] + [Slot(key, value)])
    || ((forall i: nat :: !At(d, i, key)) && after == d + [Slot(key, value)])
  }

  /** The entry of a key, if there is one, has been made the most recent one; the others stand as they stood. */
  ghost predicate MovedLast<V>(d: seq<Slot<V>>, key: Key, after: seq<Slot<V>>) {
    || (exists i: nat :: At(d, i, key) && after == d[..i] + d[i + 1..] + [d[i]])
    || ((forall i: nat :: !At(d, i, key)) && after == d)
  }

  /** Where a key first stands, or the length. */
  function Position<V>(d: seq<Slot<V>>, key: Key): (i: nat)
    ensures i <= |d| && (i < |d| ==> At(d, i, key)) && forall j: nat :: j < i ==> !At(d, j, key)
  {
    if d == [] || d[0].key == key then 0
    else
      var i := Position(d[1..], key);
      assert forall j: nat :: 0 < j < i + 1 ==> (At(d, j, key) <==> At(d[1..], j - 1, key));
      i + 1
  }

  lemma {:induction false} WithoutIs<V(!new)>(d: seq<Slot<V>>, key: Key)
    ensures var i := Position(d, key); Without(d, key) == if i < |d| then d[..i] + d[i + 1..] else d
  {
    hide At;
    if d == [] {
    } else if d[0].key == key {
      assert d[..0] + d[1..] == d[1..];
    } else {
      WithoutIs(d[1..], key);
      Behind(d, Position(d[1..], key));
    }
  }

  lemma Behind<V>(d: seq<V>, i: nat)
    requires d != [] && i < |d|
    ensures i < |d| - 1 ==> [d[0]] + (d[1..][..i] + d[1..][i + 1..]) == d[..i + 1] + d[i + 2..]
    ensures [d[0]] + d[1..] == d
  {
  }

  lemma {:induction false} LookupIs<V(!new)>(d: seq<Slot<V>>, key: Key)
    ensures var i := Position(d, key); Lookup(d, key) == if i < |d| then Some(d[i].value) else None
  {
    hide At;
    if d != [] && d[0].key != key {
      LookupIs(d[1..], key);
    }
  }

  lemma WithoutAt<V(!new)>(d: seq<Slot<V>>, key: Key)
    ensures match Lookup(d, key)
            case None => Without(d, key) == d && forall i: nat :: !At(d, i, key)
            case Some(value) =>
              exists i: nat :: At(d, i, key) && d[i] == Slot(key, value) && Without(d, key) == d[..i] + d[i + 1..]
  {
    hide Lookup, Without;
    WithoutIs(d, key);
    LookupIs(d, key);
    var i := Position(d, key);
    if i < |d| { assert At(d, i, key); }
  }

  lemma StoredMeans<V(!new)>(d: seq<Slot<V>>, key: Key, value: V)
    ensures PutLast(d, key, value, Stored(d, key, value))
  {
    WithoutAt(d, key);
  }

  /** A touched entry becomes the most recent one, and nothing else moves. */
  lemma TouchedMeans<V(!new)>(d: seq<Slot<V>>, key: Key)
    ensures MovedLast(d, key, Touched(d, key))
  {
    WithoutAt(d, key);
    if Lookup(d, key).Some? {
      var value := Lookup(d, key).value;
      var i: nat :| At(d, i, key) && d[i] == Slot(key, value) && Without(d, key) == d[..i] + d[i + 1..];
      assert Touched(d, key) == d[..i] + d[i + 1..] + [d[i]];
    }
  }

  /** Touching the most recent entry changes nothing. */
  lemma TouchedLast<V(!new)>(d: seq<Slot<V>>, key: Key)
    requires Unique(d) && d != [] && d[|d| - 1].key == key
    ensures Touched(d, key) == d
  {
    hide Lookup, Without, Position;
    WithoutIs(d, key);
    LookupIs(d, key);
    var i, n := Position(d, key), |d| - 1;
    assert At(d, n, key);
    assert i == n;
    assert d == d[..n] + d[n + 1..] + [d[n]];
  }

  // ---- Totals ----

  function Total(d: seq<Slot<nat>>): nat {
    if d == [] then 0 else d[0].value + Total(d[1..])
  }

  /** How many entries a session has. */
  function CountOf(d: seq<Slot<nat>>, session: string): nat {
    if d == [] then 0 else (if d[0].key.session == session then 1 else 0) + CountOf(d[1..], session)
  }

  lemma {:induction false} TotalConcat(a: seq<Slot<nat>>, b: seq<Slot<nat>>)
    ensures Total(a + b) == Total(a) + Total(b)
    ensures forall s :: CountOf(a + b, s) == CountOf(a, s) + CountOf(b, s)
  {
    if a == [] {
      assert a + b == b;
    } else {
      TotalConcat(a[1..], b);
      assert (a + b)[1..] == a[1..] + b && (a + b)[0] == a[0];
    }
  }

  lemma {:induction false} TotalWithout(d: seq<Slot<nat>>, key: Key)
    ensures Total(Without(d, key)) == Total(d) - Lookup(d, key).GetOr(0)
    ensures forall s :: CountOf(Without(d, key), s) ==
                        CountOf(d, s) - (if Lookup(d, key).Some? && key.session == s then 1 else 0)
  {
    if d == [] {
    } else if d[0].key == key {
    } else {
      TotalWithout(d[1..], key);
      var r := Without(d, key);
      assert r[0] == d[0] && r[1..] == Without(d[1..], key);
    }
  }

  lemma TotalStored(d: seq<Slot<nat>>, key: Key, value: nat)
    ensures Total(Stored(d, key, value)) == Total(d) - Lookup(d, key).GetOr(0) + value
    ensures forall s :: CountOf(Stored(d, key, value), s) ==
                        CountOf(d, s) + (if Lookup(d, key).None? && key.session == s then 1 else 0)
  {
    TotalWithout(d, key);
    TotalConcat(Without(d, key), [Slot(key, value)]);
    assert [Slot(key, value)][1..] == [];
    assert Total([Slot(key, value)]) == value;
    assert forall s :: CountOf([Slot(key, value)], s) == if key.session == s then 1 else 0;
  }

  /** The session counts agree with the entries and name no empty session. */
  ghost predicate Recounts(counts: map<string, nat>, d: seq<Slot<nat>>) {
    forall s :: (s in counts <==> CountOf(d, s) > 0) && (s in counts ==> counts[s] == CountOf(d, s))
  }

  // ---- Session cap: the most recent entries of each session ----

  /** The entries with fewer than `cap` more recent entries of their session, for the sessions in
      `sessions`; all entries of other sessions. */
  function Newest(d: seq<Slot<nat>>, cap: nat, sessions: set<string>): seq<Slot<nat>> {
    if d == [] then []
    else
      (if d[0].key.session in sessions && CountOf(d[1..], d[0].key.session) >= cap then [] else [d[0]])
      + Newest(d[1..], cap, sessions)
  }

  lemma {:induction false} CountNewest(d: seq<Slot<nat>>, cap: nat, sessions: set<string>, s: string)
    ensures CountOf(Newest(d, cap, sessions), s) ==
            if s in sessions && cap < CountOf(d, s) then cap else CountOf(d, s)
  {
    if d != [] {
      CountNewest(d[1..], cap, sessions, s);
      var head := if d[0].key.session in sessions && CountOf(d[1..], d[0].key.session) >= cap then [] else [d[0]];
      TotalConcat(head, Newest(d[1..], cap, sessions));
      assert head == [] || CountOf(head, s) == if d[0].key.session == s then 1 else 0;
    }
  }

  /** Capping one more session. */
  lemma {:induction false} NewestOneMore(d: seq<Slot<nat>>, cap: nat, sessions: set<string>, s: string)
    requires s !in sessions
    ensures Newest(Newest(d, cap, sessions), cap, {s}) == Newest(d, cap, sessions + {s})
  {
    if d != [] {
      NewestOneMore(d[1..], cap, sessions, s);
      var rest := Newest(d[1..], cap, sessions);
      CountNewest(d[1..], cap, sessions, s);
      var kept := Newest(d, cap, sessions);
      if kept != rest {
        assert kept == [d[0]] + rest;
        assert kept[0] == d[0] && kept[1..] == rest;
      }
    }
  }

  lemma {:induction false} NewestWithin(d: seq<Slot<nat>>, cap: nat, s: string)
    requires CountOf(d, s) <= cap
    ensures Newest(d, cap, {s}) == d
  {
    if d != [] {
      NewestWithin(d[1..], cap, s);
    }
  }

  lemma {:induction false} NewestOfNone(d: seq<Slot<nat>>, cap: nat)
    ensures Newest(d, cap, {}) == d
  {
    if d != [] {
      NewestOfNone(d[1..], cap);
    }
  }

  /** The oldest entry of a session. */
  function Oldest(d: seq<Slot<nat>>, s: string): (r: Option<Key>)
    ensures r.None? <==> CountOf(d, s) == 0
    ensures r.Some? ==> r.value.session == s && Lookup(d, r.value).Some?
  {
    if d == [] then None
    else if d[0].key.session == s then Some(d[0].key)
    else
      assert forall x :: x in d[1..] ==> x in d;
      Oldest(d[1..], s)
  }

  /** Dropping the oldest entry of a session that has too many. */
  lemma {:induction false} NewestDropsOldest(d: seq<Slot<nat>>, cap: nat, s: string)
    requires CountOf(d, s) > cap
    ensures Newest(Without(d, Oldest(d, s).value), cap, {s}) == Newest(d, cap, {s})
  {
    if d[0].key.session == s {
    } else {
      NewestDropsOldest(d[1..], cap, s);
      var key := Oldest(d, s).value;
      var r := Without(d, key);
      assert r == [d[0]] + Without(d[1..], key);
      assert r[0] == d[0] && r[1..] == Without(d[1..], key);
    }
  }

  lemma {:induction false} NewestMembers(d: seq<Slot<nat>>, cap: nat, sessions: set<string>)
    requires Unique(d)
    ensures Unique(Newest(d, cap, sessions))
    ensures forall x :: x in Newest(d, cap, sessions) ==> x in d
  {
    if d != [] {
      NewestMembers(d[1..], cap, sessions);
      var rest, r := Newest(d[1..], cap, sessions), Newest(d, cap, sessions);
      forall x | x in rest ensures x in d && x.key != d[0].key {
        var i :| 0 <= i < |d| - 1 && d[1..][i] == x;
        assert d[i + 1] == x;
      }
    }
  }

  // ---- Byte cap: the longest suffix that fits ----

  function Fitting(d: seq<Slot<nat>>, limit: nat): seq<Slot<nat>> {
    if d == [] || Total(d) <= limit then d else Fitting(d[1..], limit)
  }

  /** What fits is the longest suffix within the limit. */
  lemma {:induction false} FittingIsLongest(d: seq<Slot<nat>>, limit: nat) returns (n: nat)
    ensures n <= |d| && Fitting(d, limit) == d[n..] && Total(d[n..]) <= limit
    ensures forall m :: 0 <= m < n ==> Total(d[m..]) > limit
  {
    if d == [] || Total(d) <= limit {
      n := 0;
      assert d[0..] == d;
    } else {
      var k := FittingIsLongest(d[1..], limit);
      n := k + 1;
      assert d[1..][k..] == d[n..];
      forall m | 0 <= m < n ensures Total(d[m..]) > limit {
        if m == 0 {
          assert d[0..] == d;
        } else {
          assert d[1..][m - 1..] == d[m..];
        }
      }
    }
  }

  /** What remains after both caps. */
  function Survivors(d: seq<Slot<nat>>, cap: nat, limit: nat): seq<Slot<nat>> {
    Fitting(Newest(d, cap, set x | x in d :: x.key.session), limit)
  }

  lemma {:induction false} FittingCount(d: seq<Slot<nat>>, limit: nat, s: string)
    ensures CountOf(Fitting(d, limit), s) <= CountOf(d, s)
  {
    if d != [] && Total(d) > limit {
      FittingCount(d[1..], limit, s);
    }
  }

  lemma {:induction false} CountPositive(d: seq<Slot<nat>>, s: string)
    ensures CountOf(d, s) > 0 <==> exists x :: x in d && x.key.session == s
  {
    if d != [] {
      CountPositive(d[1..], s);
      assert forall x :: x in d <==> x == d[0] || x in d[1..];
    }
  }

  lemma {:induction false} LastStays(d: seq<Slot<nat>>, cap: nat, limit: nat, sessions: set<string>, x: Slot<nat>)
    requires cap > 0 && x.value <= limit && d != [] && d[|d| - 1] == x
    ensures var kept := Newest(d, cap, sessions); kept != [] && kept[|kept| - 1] == x
    ensures var kept := Fitting(d, limit); kept != [] && kept[|kept| - 1] == x
  {
    if |d| > 1 {
      LastStays(d[1..], cap, limit, sessions, x);
    } else {
      assert d == [x] && d[1..] == [];
      assert Total(d) == x.value;
      assert Newest(d[1..], cap, sessions) == [];
    }
  }

  /** After eviction no session is over its cap and the total is within the limit; and an entry that fits
      on its own and is the most recent one stays. */
  lemma SurvivorsFit(d: seq<Slot<nat>>, cap: nat, limit: nat)
    requires cap > 0
    ensures Total(Survivors(d, cap, limit)) <= limit
    ensures forall s :: CountOf(Survivors(d, cap, limit), s) <= cap
    ensures d != [] && d[|d| - 1].value <= limit ==>
              var kept := Survivors(d, cap, limit); kept != [] && kept[|kept| - 1] == d[|d| - 1]
  {
    var sessions := set x | x in d :: x.key.session;
    var newest := Newest(d, cap, sessions);
    var n := FittingIsLongest(newest, limit);
    forall s ensures CountOf(Survivors(d, cap, limit), s) <= cap {
      CountNewest(d, cap, sessions, s);
      CountPositive(d, s);
      FittingCount(newest, limit, s);
    }
    if d != [] && d[|d| - 1].value <= limit {
      LastStays(d, cap, limit, sessions, d[|d| - 1]);
      LastStays(newest, cap, limit, sessions, d[|d| - 1]);
    }
  }

  /** Where an entry of the session cap's result stands: it is there exactly when fewer than `cap` more
      recent entries belong to its session. */
  lemma {:induction false} NewestKeepsRecent(d: seq<Slot<nat>>, cap: nat, sessions: set<string>, i: nat)
    requires Unique(d) && i < |d| && d[i].key.session in sessions
    ensures d[i] in Newest(d, cap, sessions) <==> CountOf(d[i + 1..], d[i].key.session) < cap
  {
    var rest := Newest(d[1..], cap, sessions);
    NewestMembers(d[1..], cap, sessions);
    if i == 0 {
      forall x | x in rest ensures x.key != d[0].key {
        assert x in d[1..];
        var j :| 0 <= j < |d| - 1 && d[1..][j] == x;
        assert d[j + 1] == x;
      }
    } else {
      NewestKeepsRecent(d[1..], cap, sessions, i - 1);
      assert d[1..][i - 1] == d[i] && d[1..][i..] == d[i + 1..];
    }
  }
}
