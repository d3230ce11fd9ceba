/** File names of cached conversations (codex_shim/chatgpt_conversation_cache.py, sanitize_path_segment). */
module CachePaths {
  import opened Common
  import opened LruIndex

  const MAX_PATH_SEGMENT_LEN := 200

  /** What sanitizing consults: which characters outside ASCII are word characters, and the SHA-256
      digest of a text in hexadecimal. */
  datatype PathRules = PathRules(isWord: char -> bool, digest: string -> string)

  /** A path below the cache's root: a session directory and a file in it. */
  datatype Path = Path(directory: string, name: string)

  predicate IsSafe(rules: PathRules, c: char) {
    || 'a' <= c <= 'z' || 'A' <= c <= 'Z' || '0' <= c <= '9' || c == '_' || c == '.' || c == '-'
    || (128 <= c as int && rules.isWord(c))
  }

  /** `value.replace(unwanted, "_")` for a one-character string. */
  function ReplaceChar(s: string, unwanted: char): string {
    seq(|s|, i requires 0 <= i < |s| => if s[i] == unwanted then '_' else s[i])
  }

  function ReplaceDotDot(s: string): string {
    if |s| < 2 then s
    else if s[0] == '.' && s[1] == '.' then "_" + ReplaceDotDot(s[2..])
    else [s[0]] + ReplaceDotDot(s[1..])
  }

  /** Each run of unsafe characters becomes one underscore. */
  function ReplaceUnsafe(rules: PathRules, s: string, inRun: bool): string {
    if s == "" then ""
    else if IsSafe(rules, s[0]) then [s[0]] + ReplaceUnsafe(rules, s[1..], false)
    else (if inRun then "" else "_") + ReplaceUnsafe(rules, s[1..], true)
  }

  predicate IsEdge(c: char) {
    c == '.' || c == '_'
  }

  function StripEdges(s: string): string {
    if s != "" && IsEdge(s[0]) then StripEdges(s[1..])
    else if s != "" && IsEdge(s[|s| - 1]) then StripEdges(s[..|s| - 1])
    else s
  }

  function Prefix(s: string, n: nat): string {
    if n < |s| then s[..n] else s
  }

  function Cleaned(rules: PathRules, value: string): string {
    StripEdges(ReplaceUnsafe(rules, ReplaceDotDot(ReplaceChar(ReplaceChar(value, '/'), '\\')), false))
  }

  function Sanitize(rules: PathRules, value: string): string {
    var cleaned := Cleaned(rules, value);
    if |cleaned| > MAX_PATH_SEGMENT_LEN then
      Prefix(cleaned, MAX_PATH_SEGMENT_LEN - 17) + "_" + Prefix(rules.digest(value), 16)
    else if cleaned == "" then Prefix(rules.digest(value), 32)
    else cleaned
  }

  /** `_entry_path`. */
  function PathOf(rules: PathRules, key: Key): Path {
    Path(Sanitize(rules, key.session), Sanitize(rules, key.responseId) + ".json")
  }

  /** The file from which a rebuilt index reads this key. */
  function PathFor(key: Key): Path {
    Path(key.session, key.responseId + ".json")
  }

  /** Sanitizing leaves both parts of the key as they are. */
  predicate Fixed(rules: PathRules, key: Key) {
    Sanitize(rules, key.session) == key.session && Sanitize(rules, key.responseId) == key.responseId
  }

  /** The key under which a rebuilt index lists a file: its directory and its name without `.json`. */
  function KeyFor(path: Path): Key {
    var n := |path.name|;
    Key(path.directory, if n >= 5 && path.name[n - 5..] == ".json" then path.name[..n - 5] else path.name)
  }

  lemma KeyForPath(key: Key, other: Key)
    ensures KeyFor(PathFor(key)) == key
    ensures PathFor(key) == PathFor(other) <==> key == other
  {
    var name := key.responseId + ".json";
    assert name[|name| - 5..] == ".json" && name[..|name| - 5] == key.responseId;
    var name' := other.responseId + ".json";
    assert name'[|name'| - 5..] == ".json" && name'[..|name'| - 5] == other.responseId;
  }

  lemma FixedPath(rules: PathRules, key: Key)
    ensures Fixed(rules, key) <==> PathOf(rules, key) == PathFor(key)
  {
    var a, b := Sanitize(rules, key.responseId), key.responseId;
    if a + ".json" == b + ".json" {
      assert (a + ".json")[..|a|] == a && (b + ".json")[..|b|] == b;
    }
  }

  /** Fixed keys do not share a file. */
  lemma FixedKeysApart(rules: PathRules, a: Key, b: Key)
    requires Fixed(rules, a) && Fixed(rules, b)
    ensures PathOf(rules, a) == PathOf(rules, b) <==> a == b
  {
    FixedPath(rules, a);
    FixedPath(rules, b);
    KeyForPath(a, b);
  }

  /** An id of at most 200 ASCII letters, digits and inner underscores or hyphens is fixed. */
  lemma PlainIdsAreFixed(rules: PathRules, s: string)
    requires 0 < |s| <= MAX_PATH_SEGMENT_LEN && !IsEdge(s[0]) && !IsEdge(s[|s| - 1])
    requires forall i :: 0 <= i < |s| ==>
               'a' <= s[i] <= 'z' || 'A' <= s[i] <= 'Z' || '0' <= s[i] <= '9' || s[i] == '_' || s[i] == '-'
    ensures Sanitize(rules, s) == s
  {
    assert ReplaceChar(s, '/') == s && ReplaceChar(s, '\\') == s;
    NoDots(s);
    NothingUnsafe(rules, s, false);
  }

  lemma {:induction false} NoDots(s: string)
    requires forall i :: 0 <= i < |s| ==> s[i] != '.'
    ensures ReplaceDotDot(s) == s
  {
    if |s| >= 2 {
      NoDots(s[1..]);
    }
  }

  lemma {:induction false} NothingUnsafe(rules: PathRules, s: string, inRun: bool)
    requires forall i :: 0 <= i < |s| ==> IsSafe(rules, s[i])
    ensures ReplaceUnsafe(rules, s, inRun) == s
  {
    if s != "" {
      NothingUnsafe(rules, s[1..], false);
    }
  }

  predicate NoTwoDots(s: string) {
    forall i :: 0 < i < |s| ==> s[i - 1] != '.' || s[i] != '.'
  }

  /** Nothing leads out of a directory: no separator and no two dots in a row. */
  predicate StaysInside(s: string) {
    (forall i :: 0 <= i < |s| ==> s[i] != '/' && s[i] != '\\') && NoTwoDots(s)
  }

  lemma {:induction false} DotsReplaced(s: string)
    ensures var r := ReplaceDotDot(s); NoTwoDots(r) && (r != "" && r[0] == '.' ==> s != "" && s[0] == '.')
    ensures |s| >= 2 && s[0] == '.' && s[1] == '.' ==> ReplaceDotDot(s)[0] == '_'
  {
    if |s| >= 2 {
      if s[0] == '.' && s[1] == '.' { DotsReplaced(s[2..]); } else { DotsReplaced(s[1..]); }
    }
  }

  lemma {:induction false} UnsafeReplaced(rules: PathRules, s: string, inRun: bool)
    requires NoTwoDots(s)
    ensures var r := ReplaceUnsafe(rules, s, inRun);
            && NoTwoDots(r) && (forall i :: 0 <= i < |r| ==> IsSafe(rules, r[i]))
            && (r != "" && r[0] == '.' && !inRun ==> s != "" && s[0] == '.')
            && |r| <= |s|
  {
    if s != "" {
      assert forall i :: 0 <= i < |s[1..]| ==> s[1..][i] == s[i + 1];
      UnsafeReplaced(rules, s[1..], !IsSafe(rules, s[0]));
    }
  }

  lemma {:induction false} EdgesStripped(s: string)
    ensures var r := StripEdges(s);
            && (exists i, j :: 0 <= i <= j <= |s| && r == s[i..j])
            && (r != "" ==> !IsEdge(r[0]) && !IsEdge(r[|r| - 1]))
  {
    if s != "" && IsEdge(s[0]) {
      EdgesStripped(s[1..]);
      var i, j :| 0 <= i <= j <= |s[1..]| && StripEdges(s) == s[1..][i..j];
      assert StripEdges(s) == s[i + 1..j + 1];
    } else if s != "" && IsEdge(s[|s| - 1]) {
      var n := |s| - 1;
      EdgesStripped(s[..n]);
      var i, j :| 0 <= i <= j <= |s[..n]| && StripEdges(s) == s[..n][i..j];
      assert StripEdges(s) == s[i..j];
    } else {
      assert s == s[0..|s|];
    }
  }

  lemma CleanedMeans(rules: PathRules, value: string)
    ensures var r := Cleaned(rules, value);
            NoTwoDots(r) && (forall i :: 0 <= i < |r| ==> IsSafe(rules, r[i]))
            && (r != "" ==> !IsEdge(r[0]) && !IsEdge(r[|r| - 1]))
  {
    hide ReplaceChar, ReplaceDotDot, ReplaceUnsafe, StripEdges, IsSafe, IsEdge;
    var flat := ReplaceChar(ReplaceChar(value, '/'), '\\');
    DotsReplaced(flat);
    UnsafeReplaced(rules, ReplaceDotDot(flat), false);
    var replaced := ReplaceUnsafe(rules, ReplaceDotDot(flat), false);
    EdgesStripped(replaced);
    var cleaned := StripEdges(replaced);
    var i, j :| 0 <= i <= j <= |replaced| && cleaned == replaced[i..j];
    assert forall k :: 0 <= k < |cleaned| ==> cleaned[k] == replaced[i + k];
  }

  /** Whatever a session or response is called, its part of the path has at most 200 characters, is not empty and
      stays inside its directory, and it begins and ends with neither a dot nor an underscore. */
  lemma SanitizedStaysInside(rules: PathRules, value: string)
    requires |rules.digest(value)| >= 32
    requires forall i :: 0 <= i < |rules.digest(value)| ==>
               '0' <= rules.digest(value)[i] <= '9' || 'a' <= rules.digest(value)[i] <= 'f'
    ensures var r := Sanitize(rules, value);
            && 0 < |r| <= MAX_PATH_SEGMENT_LEN && !IsEdge(r[0]) && !IsEdge(r[|r| - 1]) && StaysInside(r)
  {
    hide ReplaceChar, ReplaceDotDot, ReplaceUnsafe, StripEdges;
    CleanedMeans(rules, value);
  }

  /** Two ids with one file. */
  lemma SharedFile(rules: PathRules)
    ensures Sanitize(rules, "a/b") == "a_b" == Sanitize(rules, "a_b")
  {
    PlainIdsAreFixed(rules, "a_b");
    assert ReplaceChar("a/b", '/') == "a_b" == ReplaceChar("a_b", '\\');
    NoDots("a_b");
    NothingUnsafe(rules, "a_b", false);
  }
}
