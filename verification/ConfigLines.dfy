/** A configuration file as lines, the assignments it denotes, and the shim's managed blocks in it
    (codex_shim/cli.py, install_codex_config and restore_codex_config). */
module ConfigLines {
  import opened Common

  /** A stripped line: `Blank` is the empty one, `Spaces` one of white space only. The last two are the comments in
      which a managed block keeps earlier values; `None` stands for values that cannot be decoded. */
  datatype Line =
    | Blank
    | Spaces
    | Comment(text: string)
    | Header(section: string)
    | Assign(key: string, value: string)
    | ManagedBegin
    | ManagedEnd
    | PreviousTopLevel(values: Option<map<string, string>>)
    | PreviousFeatures(values: Option<map<string, string>>)

  /** A text as its lines and whether it ends with a newline. */
  datatype RawText = RawText(lines: seq<Line>, newline: bool)

  /** Without a newline at its end a text does not end with an empty line. */
  predicate IsText(t: RawText) {
    if t.newline then t.lines != [] else t.lines == [] || !t.lines[|t.lines| - 1].Blank?
  }

  type Text = t: RawText | IsText(t) witness RawText([], false)

  /** Where an assignment stands: in a section, or before the first one. */
  datatype Place = Place(section: Option<string>, key: string)

  const FEATURES := "features"
  const LEGACY_SECTION := "model_providers.codex_shim"
  const MANAGED_TOP_LEVEL_KEYS := {"model", "model_provider", "model_catalog_json", "openai_base_url"}
  const MANAGED_FEATURE_KEYS := {"tool_search_always_defer_mcp_tools"}

  /** The section in force after the lines. */
  function SectionAfter(lines: seq<Line>): Option<string> {
    if lines == [] then None
    else if lines[|lines| - 1].Header? then Some(lines[|lines| - 1].section)
    else SectionAfter(lines[..|lines| - 1])
  }

  /** The assignments; a later one for the same place wins. */
  function Denotes(lines: seq<Line>): map<Place, string> {
    if lines == [] then map[]
    else
      var before, last := lines[..|lines| - 1], lines[|lines| - 1];
      if last.Assign? then Denotes(before)[Place(SectionAfter(before), last.key) := last.value] else Denotes(before)
  }

  lemma LinesSnoc(lines: seq<Line>, l: Line)
    ensures SectionAfter(lines + [l]) == if l.Header? then Some(l.section) else SectionAfter(lines)
    ensures Denotes(lines + [l]) == if l.Assign? then Denotes(lines)[Place(SectionAfter(lines), l.key) := l.value]
                                    else Denotes(lines)
  {
    assert (lines + [l])[..|lines|] == lines;
  }

  /** What lines denote when they stand in a section. */
  function DenotesIn(section: Option<string>, lines: seq<Line>): map<Place, string> {
    if lines == [] then map[]
    else
      var before, last := lines[..|lines| - 1], lines[|lines| - 1];
      if last.Assign? then DenotesIn(section, before)[Place(SectionFrom(section, before), last.key) := last.value]
      else DenotesIn(section, before)
  }

  function SectionFrom(section: Option<string>, lines: seq<Line>): Option<string> {
    if SectionAfter(lines).Some? then SectionAfter(lines) else section
  }

  lemma {:induction false} LinesConcat(a: seq<Line>, b: seq<Line>)
    ensures SectionAfter(a + b) == SectionFrom(SectionAfter(a), b)
    ensures Denotes(a + b) == Denotes(a) + DenotesIn(SectionAfter(a), b)
  {
    if b == [] {
      assert a + b == a;
    } else {
      var before, last := b[..|b| - 1], b[|b| - 1];
      LinesConcat(a, before);
      assert a + b == (a + before) + [last];
      LinesSnoc(a + before, last);
    }
  }

  /** Lines that leave no trace: they denote nothing and name no section. */
  predicate IsSilent(l: Line) {
    !l.Header? && !l.Assign?
  }

  lemma {:induction false} SilentLines(section: Option<string>, lines: seq<Line>)
    requires forall l :: l in lines ==> IsSilent(l)
    ensures DenotesIn(section, lines) == map[] && SectionAfter(lines) == None
  {
    if lines != [] {
      SilentLines(section, lines[..|lines| - 1]);
      assert lines[|lines| - 1] in lines;
    }
  }

  /** Silent lines between two parts do not matter. */
  lemma SilentBetween(a: seq<Line>, quiet: seq<Line>, b: seq<Line>)
    requires forall l :: l in quiet ==> IsSilent(l)
    ensures Denotes(a + quiet + b) == Denotes(a + b) && SectionAfter(a + quiet + b) == SectionAfter(a + b)
  {
    SilentLines(SectionAfter(a), quiet);
    LinesConcat(a, quiet);
    LinesConcat(a + quiet, b);
    LinesConcat(a, b);
  }

  // ---- Texts ----

  /** Lines joined again, with a newline at the end if there was one: an empty last line is itself that newline. */
  function Rejoin(lines: seq<Line>, newline: bool): Text {
    if newline then RawText(if lines == [] then [Blank] else lines, true)
    else if lines == [] || !lines[|lines| - 1].Blank? then RawText(lines, false)
    else RawText(lines[..|lines| - 1], |lines| > 1)
  }

  /** Joining keeps the assignments and every line that is not empty. */
  lemma RejoinSame(lines: seq<Line>, newline: bool)
    ensures var t := Rejoin(lines, newline);
            && Denotes(t.lines) == Denotes(lines) && SectionAfter(t.lines) == SectionAfter(lines)
            && (forall l :: l in t.lines ==> l in lines || l == Blank)
            && (forall l :: l in lines ==> l in t.lines || l == Blank)
  {
    if lines != [] {
      var before, last := lines[..|lines| - 1], lines[|lines| - 1];
      assert before + [last] == lines;
      LinesSnoc(before, last);
    }
    LinesSnoc([], Blank);
    assert [] + [Blank] == [Blank];
  }

  predicate IsBlank(l: Line) {
    l.Blank? || l.Spaces?
  }

  function DropBlanks(lines: seq<Line>): seq<Line> {
    if lines != [] && IsBlank(lines[0]) then DropBlanks(lines[1..]) else lines
  }

  function TrimBlanks(lines: seq<Line>): seq<Line> {
    if lines != [] && IsBlank(lines[|lines| - 1]) then TrimBlanks(lines[..|lines| - 1]) else lines
  }

  lemma {:induction false} TrimmedSame(lines: seq<Line>)
    ensures Denotes(TrimBlanks(lines)) == Denotes(lines) && SectionAfter(TrimBlanks(lines)) == SectionAfter(lines)
    ensures forall l :: l in TrimBlanks(lines) ==> l in lines
    ensures forall h :: h in lines && !IsBlank(h) ==> h in TrimBlanks(lines)
  {
    if lines != [] && IsBlank(lines[|lines| - 1]) {
      TrimmedSame(lines[..|lines| - 1]);
      assert lines == lines[..|lines| - 1] + [lines[|lines| - 1]];
    }
  }

  lemma {:induction false} DroppedSame(lines: seq<Line>)
    ensures Denotes(DropBlanks(lines)) == Denotes(lines) && SectionAfter(DropBlanks(lines)) == SectionAfter(lines)
    ensures forall l :: l in DropBlanks(lines) ==> l in lines
    ensures forall h :: h in lines && !IsBlank(h) ==> h in DropBlanks(lines)
    ensures DropBlanks(lines) != [] ==> DropBlanks(lines)[|DropBlanks(lines)| - 1] == lines[|lines| - 1]
    ensures DropBlanks(lines) != [] ==> !IsBlank(DropBlanks(lines)[0])
  {
    hide Denotes, SectionAfter;
    if lines != [] && IsBlank(lines[0]) {
      DroppedSame(lines[1..]);
      SilentBetween([], [lines[0]], lines[1..]);
      assert [] + [lines[0]] + lines[1..] == lines && [] + lines[1..] == lines[1..];
    }
  }

  /** `text.lstrip()`. */
  function LeftStripped(t: Text): Text {
    var lines := DropBlanks(t.lines);
    DroppedSame(t.lines);
    RawText(lines, lines != [] && t.newline)
  }

  /** The lines without the assignments to the keys in a section. */
  function LinesWithout(lines: seq<Line>, section: Option<string>, keys: set<string>): seq<Line> {
    if lines == [] then []
    else
      var before, last := lines[..|lines| - 1], lines[|lines| - 1];
      LinesWithout(before, section, keys)
      + (if last.Assign? && SectionAfter(before) == section && last.key in keys then [] else [last])
  }

  /** The lines without a section and its header. */
  function LinesOutside(lines: seq<Line>, section: string): seq<Line> {
    if lines == [] then []
    else
      LinesOutside(lines[..|lines| - 1], section)
      + (if SectionAfter(lines) == Some(section) then [] else [lines[|lines| - 1]])
  }

  /** Without the assignments just these are missing. */
  lemma {:induction false} LinesWithoutDenote(lines: seq<Line>, section: Option<string>, keys: set<string>)
    ensures var kept := LinesWithout(lines, section, keys);
            && Denotes(kept) == Without(Denotes(lines), section, keys) && SectionAfter(kept) == SectionAfter(lines)
            && (forall l :: l in kept ==> l in lines)
  {
    hide Without;
    if lines == [] {
      NothingDenoted(section, keys, "");
    } else {
      var before, last := lines[..|lines| - 1], lines[|lines| - 1];
      LinesWithoutDenote(before, section, keys);
      LinesSnoc(LinesWithout(before, section, keys), last);
      assert LinesWithout(before, section, keys) + [] == LinesWithout(before, section, keys);
      assert last in lines;
      if last.Assign? {
        WithoutUpdate(Denotes(before), section, keys, Place(SectionAfter(before), last.key), last.value);
      }
    }
  }

  /** Without a section just its assignments are missing. */
  lemma {:induction false} LinesOutsideDenote(lines: seq<Line>, section: string)
    ensures var kept := LinesOutside(lines, section);
            && Denotes(kept) == WithoutSection(Denotes(lines), section)
            && (SectionAfter(lines) != Some(section) ==> SectionAfter(kept) == SectionAfter(lines))
  {
    hide WithoutSection;
    if lines == [] {
      NothingDenoted(None, {}, section);
    } else {
      var before, last := lines[..|lines| - 1], lines[|lines| - 1];
      LinesOutsideDenote(before, section);
      LinesSnoc(LinesOutside(before, section), last);
      assert LinesOutside(before, section) + [] == LinesOutside(before, section);
      if last.Assign? {
        WithoutSectionUpdate(Denotes(before), section, Place(SectionAfter(before), last.key), last.value);
      }
    }
  }

  /** Of the headers just the section's own is missing. */
  lemma {:induction false} HeadersOutside(lines: seq<Line>, section: string)
    ensures forall l :: l in LinesOutside(lines, section) ==> l in lines
    ensures forall l :: l in lines && l.Header? && l.section != section ==> l in LinesOutside(lines, section)
  {
    if lines != [] {
      HeadersOutside(lines[..|lines| - 1], section);
      assert lines == lines[..|lines| - 1] + [lines[|lines| - 1]];
    }
  }

  /** Nothing is removed of a section that does not appear. */
  lemma {:induction false} NoSuchSection(lines: seq<Line>, section: string)
    requires Header(section) !in lines
    ensures LinesOutside(lines, section) == lines && SectionAfter(lines) != Some(section)
  {
    if lines != [] {
      var before, last := lines[..|lines| - 1], lines[|lines| - 1];
      NoSuchSection(before, section);
      assert lines == before + [last] && last in lines;
    }
  }

  // ---- Managed blocks ----

  function IndexOf(lines: seq<Line>, l: Line): (k: nat)
    ensures k <= |lines|
    ensures k < |lines| <==> l in lines
    ensures k < |lines| ==> lines[k] == l
    ensures forall j :: 0 <= j < k ==> lines[j] != l
  {
    if lines == [] then 0 else if lines[0] == l then 0 else 1 + IndexOf(lines[1..], l)
  }

  /** The file without its managed blocks, each of which leaves a blank line; from an unfinished block
      on, nothing is left. */
  function Unmanaged(lines: seq<Line>): seq<Line>
    decreases |lines|
  {
    var begin := IndexOf(lines, ManagedBegin);
    if begin == |lines| then lines
    else
      var rest := lines[begin + 1..];
      var end := IndexOf(rest, ManagedEnd);
      if end == |rest| then lines[..begin]
      else lines[..begin] + [Blank] + Unmanaged(rest[end + 1..])
  }

  /** The lines before the first block and, if that block is finished, those after it. */
  function FirstBlock(lines: seq<Line>): (r: (seq<Line>, Option<seq<Line>>))
    ensures ManagedBegin !in r.0
    ensures r.1.Some? ==> |r.1.value| < |lines|
    ensures Unmanaged(lines) == r.0 + (if r.1.Some? then [Blank] + Unmanaged(r.1.value) else [])
  {
    var begin := IndexOf(lines, ManagedBegin);
    if begin == |lines| then (lines, None)
    else
      var rest := lines[begin + 1..];
      var end := IndexOf(rest, ManagedEnd);
      if end == |rest| then (lines[..begin], None)
      else
        var after := Unmanaged(rest[end + 1..]);
        assert lines[..begin] + [Blank] + after == lines[..begin] + ([Blank] + after);
        (lines[..begin], Some(rest[end + 1..]))
  }

  lemma {:induction false} UnmanagedHasNoBegin(lines: seq<Line>)
    ensures ManagedBegin !in Unmanaged(lines)
    decreases |lines|
  {
    hide Unmanaged;
    var (before, after) := FirstBlock(lines);
    if after.Some? {
      UnmanagedHasNoBegin(after.value);
      NotInConcat([Blank], Unmanaged(after.value), ManagedBegin);
      NotInConcat(before, [Blank] + Unmanaged(after.value), ManagedBegin);
    } else {
      assert before + [] == before;
    }
  }

  lemma NotInConcat(a: seq<Line>, b: seq<Line>, l: Line)
    requires l !in a && l !in b
    ensures l !in a + b
  {
  }

  lemma NothingManaged(lines: seq<Line>)
    requires ManagedBegin !in lines
    ensures Unmanaged(lines) == lines
  {
  }

  lemma IndexIs(a: seq<Line>, l: Line, b: seq<Line>)
    requires l !in a
    ensures IndexOf(a + [l] + b, l) == |a|
    ensures (a + [l] + b)[..|a|] == a && (a + [l] + b)[|a| + 1..] == b && |a| < |a + [l] + b|
  {
    hide IndexOf;
    var all := a + [l] + b;
    assert all[|a|] == l;
    var k := IndexOf(all, l);
    assert forall j :: 0 <= j < |a| ==> all[j] == a[j];
  }

  /** Removing a block that follows unmanaged lines. */
  lemma {:induction false} BlockRemoved(a: seq<Line>, inner: seq<Line>, b: seq<Line>)
    requires ManagedBegin !in a && ManagedEnd !in inner
    ensures Unmanaged(a + [ManagedBegin] + inner + [ManagedEnd] + b) == a + [Blank] + Unmanaged(b)
  {
    hide IndexOf;
    var tail := inner + [ManagedEnd] + b;
    Regrouped(a, inner, b);
    IndexIs(a, ManagedBegin, tail);
    IndexIs(inner, ManagedEnd, b);
  }

  lemma Regrouped(a: seq<Line>, inner: seq<Line>, b: seq<Line>)
    ensures a + [ManagedBegin] + inner + [ManagedEnd] + b == a + [ManagedBegin] + (inner + [ManagedEnd] + b)
  {
  }

  lemma UnfinishedBlock(before: seq<Line>, rest: seq<Line>)
    requires ManagedBegin !in before && ManagedEnd !in rest
    ensures Unmanaged(before + [ManagedBegin] + rest) == before
  {
    hide IndexOf;
    IndexIs(before, ManagedBegin, rest);
  }

  /** Unmanaged lines in front stay in front. */
  lemma {:induction false} UnmanagedPrefix(a: seq<Line>, b: seq<Line>)
    requires ManagedBegin !in a
    ensures Unmanaged(a + b) == a + Unmanaged(b)
  {
    hide IndexOf, Unmanaged;
    var begin := IndexOf(b, ManagedBegin);
    if begin == |b| {
      NotInConcat(a, b, ManagedBegin);
      NothingManaged(b);
      NothingManaged(a + b);
    } else {
      PrefixOfBlock(a, b[..begin], b[begin + 1..]);
      assert b == b[..begin] + [ManagedBegin] + b[begin + 1..];
    }
  }

  lemma {:induction false} PrefixOfBlock(a: seq<Line>, before: seq<Line>, rest: seq<Line>)
    requires ManagedBegin !in a && ManagedBegin !in before
    ensures var b := before + [ManagedBegin] + rest; Unmanaged(a + b) == a + Unmanaged(b)
  {
    hide IndexOf, Unmanaged;
    NotInConcat(a, before, ManagedBegin);
    var b := before + [ManagedBegin] + rest;
    assert a + b == a + before + [ManagedBegin] + rest;
    var end := IndexOf(rest, ManagedEnd);
    if end == |rest| {
      UnfinishedBlock(before, rest);
      UnfinishedBlock(a + before, rest);
    } else {
      PrefixOfFinished(a, before, rest[..end], rest[end + 1..]);
      assert rest == rest[..end] + [ManagedEnd] + rest[end + 1..];
      assert b == before + [ManagedBegin] + rest[..end] + [ManagedEnd] + rest[end + 1..];
    }
  }

  lemma {:induction false} PrefixOfFinished(a: seq<Line>, before: seq<Line>, inner: seq<Line>, after: seq<Line>)
    requires ManagedBegin !in a + before && ManagedBegin !in before && ManagedEnd !in inner
    ensures var b := before + [ManagedBegin] + inner + [ManagedEnd] + after; Unmanaged(a + b) == a + Unmanaged(b)
  {
    hide IndexOf, Unmanaged;
    var b := before + [ManagedBegin] + inner + [ManagedEnd] + after;
    assert a + b == a + before + [ManagedBegin] + inner + [ManagedEnd] + after;
    BlockRemoved(before, inner, after);
    BlockRemoved(a + before, inner, after);
  }

  /** Inside a managed block after the lines, as the scan for earlier values sees it. */
  function InManaged(lines: seq<Line>): bool {
    lines != [] &&
    (var last := lines[|lines| - 1];
     if last.ManagedBegin? then true else if last.ManagedEnd? then false else InManaged(lines[..|lines| - 1]))
  }

  /** The first comment with earlier top-level values inside a managed block. */
  function FirstPrevious(lines: seq<Line>, features: bool): Option<Option<map<string, string>>> {
    if lines == [] then None
    else
      var before, last := lines[..|lines| - 1], lines[|lines| - 1];
      var found := FirstPrevious(before, features);
      if found.Some? then found
      else if InManaged(before) && !features && last.PreviousTopLevel? then Some(last.values)
      else if InManaged(before) && features && last.PreviousFeatures? then Some(last.values)
      else None
  }

  /** `_managed_previous_top_level`. */
  function PreviousTop(lines: seq<Line>): map<string, string> {
    var found := FirstPrevious(lines, false);
    if found.Some? && found.value.Some? then
      map k | k in found.value.value && k in MANAGED_TOP_LEVEL_KEYS :: found.value.value[k]
    else map[]
  }

  /** `_managed_previous_features`: blank values are left out. */
  function PreviousFeature(lines: seq<Line>): map<string, string> {
    var found := FirstPrevious(lines, true);
    if found.Some? && found.value.Some? then
      var values := found.value.value;
      map k | k in values && k in MANAGED_FEATURE_KEYS && Strip(values[k]) != "" :: values[k]
    else map[]
  }

  lemma PreviousSnoc(lines: seq<Line>, l: Line, features: bool)
    ensures InManaged(lines + [l]) == (l.ManagedBegin? || (!l.ManagedEnd? && InManaged(lines)))
    ensures FirstPrevious(lines + [l], features) ==
            if FirstPrevious(lines, features).Some? then FirstPrevious(lines, features)
            else if InManaged(lines) && !features && l.PreviousTopLevel? then Some(l.values)
            else if InManaged(lines) && features && l.PreviousFeatures? then Some(l.values)
            else None
  {
    assert (lines + [l])[..|lines|] == lines;
  }

  /** Lines without a block add nothing to what was found. */
  lemma {:induction false} PreviousOutside(a: seq<Line>, b: seq<Line>, features: bool)
    requires !InManaged(a) && ManagedBegin !in b
    ensures FirstPrevious(a + b, features) == FirstPrevious(a, features) && !InManaged(a + b)
  {
    if b == [] {
      assert a + b == a;
    } else {
      var before, last := b[..|b| - 1], b[|b| - 1];
      PreviousOutside(a, before, features);
      assert a + b == (a + before) + [last];
      PreviousSnoc(a + before, last, features);
      assert last in b;
    }
  }

  lemma {:induction false} StillManaged(before: seq<Line>, rest: seq<Line>)
    requires ManagedEnd !in rest
    ensures InManaged(before + [ManagedBegin] + rest)
  {
    if rest == [] {
      assert before + [ManagedBegin] + rest == before + [ManagedBegin];
    } else {
      var n := |rest| - 1;
      assert rest[n] in rest;
      StillManaged(before, rest[..n]);
      assert before + [ManagedBegin] + rest == (before + [ManagedBegin] + rest[..n]) + [rest[n]];
      PreviousSnoc(before + [ManagedBegin] + rest[..n], rest[n], false);
    }
  }

  /** After the end of a block only later markers matter. */
  lemma {:induction false} AfterEnd(before: seq<Line>, after: seq<Line>)
    ensures InManaged(before + [ManagedEnd] + after) == InManaged(after)
  {
    if after == [] {
      assert before + [ManagedEnd] + after == before + [ManagedEnd];
    } else {
      var n := |after| - 1;
      AfterEnd(before, after[..n]);
      assert before + [ManagedEnd] + after == (before + [ManagedEnd] + after[..n]) + [after[n]];
      PreviousSnoc(before + [ManagedEnd] + after[..n], after[n], false);
      PreviousSnoc(after[..n], after[n], false);
      assert after[..n] + [after[n]] == after;
    }
  }

  /** `_remove_managed_config`: from an unfinished block on nothing is left; otherwise the text ends as it did. */
  function UnmanagedText(t: Text): Text {
    var lines := Unmanaged(t.lines);
    if !InManaged(t.lines) then Rejoin(lines, t.newline)
    else if lines == [] then RawText([], false)
    else RawText(lines, true)
  }

  lemma UnmanagedSame(t: Text)
    ensures var lines := Unmanaged(t.lines);
            && Denotes(UnmanagedText(t).lines) == Denotes(lines)
            && (forall l :: l in UnmanagedText(t).lines ==> l in lines || l == Blank)
            && (forall l :: l in lines ==> l in UnmanagedText(t).lines || l == Blank)
  {
    RejoinSame(Unmanaged(t.lines), t.newline);
  }

  /** Removing one block. */
  lemma {:induction false} RemoveBlock(t: Text, before: seq<Line>, inner: seq<Line>, after: seq<Line>)
    requires t.lines == before + [ManagedBegin] + inner + [ManagedEnd] + after
    requires ManagedBegin !in before && ManagedEnd !in inner
    ensures UnmanagedText(Rejoin(before + [Blank] + after, t.newline)) == UnmanagedText(t)
  {
    hide Unmanaged, InManaged;
    BlockRemoved(before, inner, after);
    AfterEnd(before + [ManagedBegin] + inner, after);
    var shorter := before + [Blank] + after;
    NotInConcat(before, [Blank], ManagedBegin);
    UnmanagedPrefix(before + [Blank], after);
    NoneManaged(before + [Blank]);
    InManagedConcat(before + [Blank], after);
    if after == [] {
      assert shorter == before + [Blank];
      NoneManaged(before);
      NothingManaged(before);
      NothingManaged(shorter);
    } else {
      assert t.lines[|t.lines| - 1] == after[|after| - 1] == shorter[|shorter| - 1];
      assert Rejoin(shorter, t.newline) == RawText(shorter, t.newline);
    }
  }

  lemma {:induction false} NoneManaged(lines: seq<Line>)
    requires ManagedBegin !in lines
    ensures !InManaged(lines)
  {
    if lines != [] {
      assert lines[|lines| - 1] in lines;
      NoneManaged(lines[..|lines| - 1]);
    }
  }

  lemma {:induction false} InManagedConcat(a: seq<Line>, b: seq<Line>)
    requires !InManaged(a)
    ensures InManaged(a + b) == InManaged(b)
  {
    if b == [] {
      assert a + b == a;
    } else {
      var n := |b| - 1;
      InManagedConcat(a, b[..n]);
      assert a + b == (a + b[..n]) + [b[n]] && b == b[..n] + [b[n]];
      PreviousSnoc(a + b[..n], b[n], false);
      PreviousSnoc(b[..n], b[n], false);
    }
  }

  lemma BlockConcat(before: seq<Line>, inner: seq<Line>, after: seq<Line>, z: seq<Line>)
    requires ManagedBegin !in before && ManagedEnd !in inner
    requires Unmanaged(after + z) == Unmanaged(after) + Unmanaged(z)
    ensures var x := before + [ManagedBegin] + inner + [ManagedEnd] + after;
            Unmanaged(x + z) == Unmanaged(x) + Unmanaged(z)
  {
    hide Unmanaged;
    BlockRemoved(before, inner, after);
    BlockRemoved(before, inner, after + z);
    assert before + [ManagedBegin] + inner + [ManagedEnd] + after + z
           == before + [ManagedBegin] + inner + [ManagedEnd] + (after + z);
  }

  /** A block as it is found. */
  lemma BlockAt(x: seq<Line>, begin: nat, end: nat)
    requires begin + 1 + end < |x| && x[begin] == ManagedBegin && x[begin + 1 + end] == ManagedEnd
    ensures var rest := x[begin + 1..];
            x == x[..begin] + [ManagedBegin] + rest[..end] + [ManagedEnd] + rest[end + 1..]
  {
    var rest := x[begin + 1..];
    assert rest == rest[..end] + [ManagedEnd] + rest[end + 1..];
    assert x == x[..begin] + [ManagedBegin] + rest;
  }

  /** Lines that end outside of a block keep what is unmanaged of them, whatever follows. */
  lemma {:induction false} UnmanagedConcat(x: seq<Line>, z: seq<Line>)
    requires !InManaged(x)
    ensures Unmanaged(x + z) == Unmanaged(x) + Unmanaged(z)
    decreases |x|
  {
    hide IndexOf, Unmanaged, InManaged;
    var begin := IndexOf(x, ManagedBegin);
    if begin == |x| {
      UnmanagedPrefix(x, z);
      NothingManaged(x);
    } else {
      var before, rest := x[..begin], x[begin + 1..];
      var end := IndexOf(rest, ManagedEnd);
      if end == |rest| {
        assert x == before + [ManagedBegin] + rest;
        StillManaged(before, rest);
      } else {
        var inner, after := rest[..end], rest[end + 1..];
        BlockAt(x, begin, end);
        AfterEnd(before + [ManagedBegin] + inner, after);
        UnmanagedConcat(after, z);
        BlockConcat(before, inner, after, z);
      }
    }
  }

  /** The scan for earlier values goes on alike from alike states. */
  lemma {:induction false} PreviousAlike(a: seq<Line>, b: seq<Line>, rest: seq<Line>, features: bool)
    requires FirstPrevious(a, features) == FirstPrevious(b, features) && InManaged(a) == InManaged(b)
    ensures FirstPrevious(a + rest, features) == FirstPrevious(b + rest, features)
    ensures InManaged(a + rest) == InManaged(b + rest)
  {
    if rest == [] {
      assert a + rest == a && b + rest == b;
    } else {
      var n := |rest| - 1;
      PreviousAlike(a, b, rest[..n], features);
      assert a + rest == (a + rest[..n]) + [rest[n]] && b + rest == (b + rest[..n]) + [rest[n]];
      PreviousSnoc(a + rest[..n], rest[n], features);
      PreviousSnoc(b + rest[..n], rest[n], features);
    }
  }

  /** Replacing lines outside of the blocks leaves the blocks' earlier values as they are, and replaces just
      those lines in what is unmanaged. */
  lemma {:induction false} EditOutside(x: seq<Line>, was: seq<Line>, now: seq<Line>, y: seq<Line>)
    requires !InManaged(x) && ManagedBegin !in was && ManagedBegin !in now
    ensures Unmanaged(x + was + y) == Unmanaged(x) + was + Unmanaged(y)
    ensures Unmanaged(x + now + y) == Unmanaged(x) + now + Unmanaged(y)
    ensures PreviousTop(x + was + y) == PreviousTop(x + now + y)
    ensures PreviousFeature(x + was + y) == PreviousFeature(x + now + y)
  {
    hide Unmanaged, FirstPrevious, InManaged;
    forall features: bool ensures FirstPrevious(x + was + y, features) == FirstPrevious(x + now + y, features) {
      PreviousOutside(x, was, features);
      PreviousOutside(x, now, features);
      PreviousAlike(x + was, x + now, y, features);
    }
    forall mid | mid in {was, now} ensures Unmanaged(x + mid + y) == Unmanaged(x) + mid + Unmanaged(y) {
      PreviousOutside(x, mid, false);
      UnmanagedConcat(x, mid);
      UnmanagedConcat(x + mid, y);
      NothingManaged(mid);
    }
  }

  // ---- Maps of places ----

  function Without(m: map<Place, string>, section: Option<string>, keys: set<string>): map<Place, string> {
    map p | p in m && !(p.section == section && p.key in keys) :: m[p]
  }

  /** The values of the keys in a section. */
  function ValuesAt(m: map<Place, string>, section: Option<string>, keys: set<string>): map<string, string> {
    map k | k in keys && Place(section, k) in m :: m[Place(section, k)]
  }

  function WithoutSection(m: map<Place, string>, section: string): map<Place, string> {
    map p | p in m && p.section != Some(section) :: m[p]
  }

  function Places(section: Option<string>, keys: set<string>): set<Place> {
    set k | k in keys :: Place(section, k)
  }

  function Placed(section: Option<string>, values: map<string, string>): map<Place, string> {
    map p | p in Places(section, values.Keys) :: values[p.key]
  }

  lemma WithoutUpdate(m: map<Place, string>, section: Option<string>, keys: set<string>, p: Place, value: string)
    ensures Without(m[p := value], section, keys) ==
            if p.section == section && p.key in keys then Without(m, section, keys)
            else Without(m, section, keys)[p := value]
  {
  }

  lemma WithoutSectionUpdate(m: map<Place, string>, section: string, p: Place, value: string)
    ensures WithoutSection(m[p := value], section) ==
            if p.section == Some(section) then WithoutSection(m, section) else WithoutSection(m, section)[p := value]
  {
  }

  lemma ValuesUpdate(m: map<Place, string>, section: Option<string>, keys: set<string>, p: Place, value: string)
    ensures ValuesAt(m[p := value], section, keys) ==
            if p.section == section && p.key in keys then ValuesAt(m, section, keys)[p.key := value]
            else ValuesAt(m, section, keys)
  {
  }

  lemma NothingDenoted(section: Option<string>, keys: set<string>, name: string)
    ensures Without(map[], section, keys) == map[] && WithoutSection(map[], name) == map[]
            && ValuesAt(map[], section, keys) == map[]
  {
  }

  lemma WithoutAt(m: map<Place, string>, section: Option<string>, keys: set<string>)
    ensures forall p :: p in Without(m, section, keys) <==> p in m && !(p.section == section && p.key in keys)
    ensures forall p :: p in Without(m, section, keys) ==> Without(m, section, keys)[p] == m[p]
  {
  }

  lemma WithoutSectionAt(m: map<Place, string>, section: string)
    ensures forall p :: p in WithoutSection(m, section) <==> p in m && p.section != Some(section)
    ensures forall p :: p in WithoutSection(m, section) ==> WithoutSection(m, section)[p] == m[p]
  {
  }

  lemma PlacedAt(section: Option<string>, values: map<string, string>)
    ensures forall p :: p in Placed(section, values) <==> p.section == section && p.key in values
    ensures forall p :: p in Placed(section, values) ==> Placed(section, values)[p] == values[p.key]
  {
  }

  lemma ValuesOf(m: map<Place, string>, section: Option<string>, keys: set<string>)
    ensures forall k :: k in ValuesAt(m, section, keys) <==> k in keys && Place(section, k) in m
    ensures forall k :: k in ValuesAt(m, section, keys) ==> ValuesAt(m, section, keys)[k] == m[Place(section, k)]
  {
  }
}
