/** Installing the shim in a Codex configuration and restoring it (codex_shim/cli.py). */
module CliConfig {
  import opened Common
  import opened ConfigLines

  /** What an installation sets, as it is written: the model, the provider, the shim's address and its
      catalog. */
  datatype ShimValues = ShimValues(model: string, modelProvider: string, baseUrl: string, catalog: string)

  const TOOL_SEARCH_KEY := "tool_search_always_defer_mcp_tools"
  const RESTORE_ORDER := ["model", "model_provider", "openai_base_url", "model_catalog_json"]

  function ShimAssignments(v: ShimValues): map<string, string> {
    map["model" := v.model, "model_provider" := v.modelProvider, "openai_base_url" := v.baseUrl,
        "model_catalog_json" := v.catalog]
  }

  /** `_managed_config_block`. */
  function ManagedBlock(v: ShimValues, top: map<string, string>, features: map<string, string>): seq<Line> {
    [ManagedBegin] + BlockBody(v, top, features) + [ManagedEnd]
  }

  function BlockBody(v: ShimValues, top: map<string, string>, features: map<string, string>): seq<Line> {
    (if top != map[] then [PreviousTopLevel(Some(top))] else [])
    + (if features != map[] then [PreviousFeatures(Some(features))] else [])
    + ShimLines(v)
  }

  const FEATURE_BLOCK := [ManagedBegin, Assign(TOOL_SEARCH_KEY, "true"), ManagedEnd]

  function EqualsAt(s: string): nat
    ensures EqualsAt(s) <= |s|
  {
    if s == "" || s[0] == '=' then 0 else 1 + EqualsAt(s[1..])
  }

  /** `_stored_config_rhs`: a stored value that repeats its own key is taken for a whole assignment. */
  function StoredRhs(key: string, stored: string): string {
    var stripped := Strip(stored);
    var k := EqualsAt(stripped);
    if k < |stripped| && Strip(stripped[..k]) == key then Strip(stripped[k + 1..]) else stripped
  }

  /** The value starts like an assignment to its own key: before its first `=` stands the key. */
  predicate RepeatsKey(key: string, value: string) {
    EqualsAt(value) < |value| && Strip(value[..EqualsAt(value)]) == key
  }

  /** A value can be written back as it is. */
  predicate Restorable(key: string, value: string) {
    Strip(value) == value && !RepeatsKey(key, value)
  }

  /** Writing a value back leaves it as it is exactly when it is stripped and does not repeat its key. */
  lemma RestorableMeans(key: string, value: string)
    ensures StoredRhs(key, value) == value <==> Restorable(key, value)
  {
    var stripped := Strip(value);
    var k := EqualsAt(stripped);
    if k < |stripped| {
      StripShorter(stripped[k + 1..]);
      StripShorter(value);
    }
  }

  lemma StripShorter(s: string)
    ensures |Strip(s)| <= |s|
  {
    LeftStripShorter(s);
    RightStripShorter(LeftStrip(s));
  }

  // ---- The text helpers ----

  method RemoveManagedConfig(original: Text) returns (text: Text)
    ensures text == UnmanagedText(original) && ManagedBegin !in text.lines
  {
    hide IndexOf, Unmanaged, UnmanagedText, InManaged;
    text := original;
    while ManagedBegin in text.lines
      invariant UnmanagedText(text) == UnmanagedText(original)
      decreases |text.lines|
    {
      var begin := IndexOf(text.lines, ManagedBegin);
      var before, rest := text.lines[..begin], text.lines[begin + 1..];
      var end := IndexOf(rest, ManagedEnd);
      if end == |rest| {
        assert text.lines == before + [ManagedBegin] + rest;
        UnfinishedText(text, before, rest);
        return RawText(before, before != []);
      }
      var after := rest[end + 1..];
      BlockAt(text.lines, begin, end);
      RemoveBlock(text, before, rest[..end], after);
      assert |before + [Blank] + after| < |text.lines|;
      text := Rejoin(before + [Blank] + after, text.newline);
    }
    UnmanagedTextSame(text);
  }

  lemma UnfinishedText(text: Text, before: seq<Line>, rest: seq<Line>)
    requires text.lines == before + [ManagedBegin] + rest && ManagedBegin !in before && ManagedEnd !in rest
    ensures UnmanagedText(text) == RawText(before, before != [])
  {
    UnfinishedBlock(before, rest);
    StillManaged(before, rest);
  }

  lemma UnmanagedTextSame(text: Text)
    requires ManagedBegin !in text.lines
    ensures UnmanagedText(text) == text
  {
    NothingManaged(text.lines);
    NoneManaged(text.lines);
  }

  method ExtractTopLevelKeys(lines: seq<Line>, keys: set<string>) returns (found: map<string, string>)
    ensures found == ValuesAt(Denotes(lines), None, keys)
  {
    hide Denotes, SectionAfter, Without, WithoutSection, ValuesAt;
    NoLines();
    NothingDenoted(None, keys, "");
    assert lines[..0] == [];
    found := map[];
    var inTopLevel := true;
    for n := 0 to |lines|
      invariant inTopLevel == SectionAfter(lines[..n]).None?
      invariant found == ValuesAt(Denotes(lines[..n]), None, keys)
    {
      assert lines[..n + 1] == lines[..n] + [lines[n]];
      LinesSnoc(lines[..n], lines[n]);
      if lines[n].Assign? {
        ValuesUpdate(Denotes(lines[..n]), None, keys, Place(SectionAfter(lines[..n]), lines[n].key), lines[n].value);
      }
      if lines[n].Header? {
        inTopLevel := false;
      }
      if inTopLevel && lines[n].Assign? && lines[n].key in keys {
        found := found[lines[n].key := lines[n].value];
      }
    }
    assert lines[..|lines|] == lines;
  }

  method ExtractSectionKeys(lines: seq<Line>, section: string, keys: set<string>) returns (found: map<string, string>)
    ensures found == ValuesAt(Denotes(lines), Some(section), keys)
  {
    hide Denotes, SectionAfter, Without, WithoutSection, ValuesAt;
    NoLines();
    NothingDenoted(Some(section), keys, "");
    assert lines[..0] == [];
    found := map[];
    var inSection := false;
    for n := 0 to |lines|
      invariant inSection == (SectionAfter(lines[..n]) == Some(section))
      invariant found == ValuesAt(Denotes(lines[..n]), Some(section), keys)
    {
      assert lines[..n + 1] == lines[..n] + [lines[n]];
      LinesSnoc(lines[..n], lines[n]);
      if lines[n].Assign? {
        ValuesUpdate(Denotes(lines[..n]), Some(section), keys, Place(SectionAfter(lines[..n]), lines[n].key),
                     lines[n].value);
      }
      if lines[n].Header? {
        inSection := lines[n].section == section;
      } else if inSection && lines[n].Assign? && lines[n].key in keys {
        found := found[lines[n].key := lines[n].value];
      }
    }
    assert lines[..|lines|] == lines;
  }

  lemma NoLines()
    ensures Denotes([]) == map[] && SectionAfter([]) == None
  {
  }

  method RemoveTopLevelKeys(text: Text, keys: set<string>) returns (r: Text)
    ensures r == Rejoin(LinesWithout(text.lines, None, keys), text.newline)
    ensures Denotes(r.lines) == Without(Denotes(text.lines), None, keys)
  {
    hide Denotes, SectionAfter, Without;
    var lines, output: seq<Line> := text.lines, [];
    NoLines();
    assert lines[..0] == [];
    var inTopLevel := true;
    for n := 0 to |lines|
      invariant inTopLevel == SectionAfter(lines[..n]).None?
      invariant output == LinesWithout(lines[..n], None, keys)
    {
      assert lines[..n + 1] == lines[..n] + [lines[n]] && lines[..n + 1][..n] == lines[..n];
      LinesSnoc(lines[..n], lines[n]);
      if lines[n].Header? {
        inTopLevel := false;
      }
      if !(inTopLevel && lines[n].Assign? && lines[n].key in keys) {
        output := output + [lines[n]];
      }
    }
    assert lines[..|lines|] == lines;
    LinesWithoutDenote(lines, None, keys);
    RejoinSame(output, text.newline);
    r := Rejoin(output, text.newline);
  }

  method RemoveKeysFromSection(text: Text, section: string, keys: set<string>) returns (r: Text)
    ensures r == Rejoin(LinesWithout(text.lines, Some(section), keys), text.newline)
    ensures Denotes(r.lines) == Without(Denotes(text.lines), Some(section), keys)
  {
    hide Denotes, SectionAfter, Without;
    var lines, output: seq<Line> := text.lines, [];
    NoLines();
    assert lines[..0] == [];
    var inSection := false;
    for n := 0 to |lines|
      invariant inSection == (SectionAfter(lines[..n]) == Some(section))
      invariant output == LinesWithout(lines[..n], Some(section), keys)
    {
      assert lines[..n + 1] == lines[..n] + [lines[n]] && lines[..n + 1][..n] == lines[..n];
      LinesSnoc(lines[..n], lines[n]);
      if lines[n].Header? {
        inSection := lines[n].section == section;
        output := output + [lines[n]];
      } else if !(inSection && lines[n].Assign? && lines[n].key in keys) {
        output := output + [lines[n]];
      }
    }
    assert lines[..|lines|] == lines;
    LinesWithoutDenote(lines, Some(section), keys);
    RejoinSame(output, text.newline);
    r := Rejoin(output, text.newline);
  }

  method RemoveSection(text: Text, section: string) returns (r: Text)
    ensures r == SectionRemoved(text, section)
    ensures Denotes(r.lines) == WithoutSection(Denotes(text.lines), section)
  {
    hide Denotes, SectionAfter, WithoutSection;
    var lines, output: seq<Line> := text.lines, [];
    NoLines();
    assert lines[..0] == [];
    var skipping := false;
    for n := 0 to |lines|
      invariant skipping == (SectionAfter(lines[..n]) == Some(section))
      invariant output == LinesOutside(lines[..n], section)
    {
      assert lines[..n + 1] == lines[..n] + [lines[n]] && lines[..n + 1][..n] == lines[..n];
      LinesSnoc(lines[..n], lines[n]);
      if lines[n].Header? {
        skipping := lines[n].section == section;
      }
      if !skipping {
        output := output + [lines[n]];
      }
    }
    assert lines[..|lines|] == lines;
    LinesOutsideDenote(lines, section);
    RejoinSame(output, text.newline);
    r := Rejoin(output, text.newline);
  }

  function SectionRemoved(text: Text, section: string): Text {
    Rejoin(LinesOutside(text.lines, section), text.newline)
  }

  method FeaturesHaveAssignments(lines: seq<Line>) returns (r: bool)
    ensures r <==> exists p :: p in Denotes(lines) && p.section == Some(FEATURES)
  {
    var inSection := false;
    for n := 0 to |lines|
      invariant inSection == (SectionAfter(lines[..n]) == Some(FEATURES))
      invariant forall p :: p in Denotes(lines[..n]) ==> p.section != Some(FEATURES)
    {
      assert lines[..n + 1] == lines[..n] + [lines[n]];
      LinesSnoc(lines[..n], lines[n]);
      if lines[n].Header? {
        inSection := lines[n].section == FEATURES;
      } else if inSection && lines[n].Assign? {
        assert Place(Some(FEATURES), lines[n].key) in Denotes(lines[..n + 1]);
        DenotedStays(lines, n + 1, Place(Some(FEATURES), lines[n].key));
        return true;
      }
    }
    assert lines[..|lines|] == lines;
    r := false;
  }

  lemma {:induction false} DenotedStays(lines: seq<Line>, n: nat, p: Place)
    requires n <= |lines| && p in Denotes(lines[..n])
    ensures p in Denotes(lines)
    decreases |lines| - n
  {
    if n == |lines| {
      assert lines[..n] == lines;
    } else {
      assert lines[..n + 1] == lines[..n] + [lines[n]];
      LinesSnoc(lines[..n], lines[n]);
      DenotedStays(lines, n + 1, p);
    }
  }

  /** What a line becomes when the header of a section is put directly behind it. */
  function Glued(l: Line, section: string): Line {
    match l
    case Assign(key, value) => Assign(key, value + "[" + section + "]")
    case Header(s) => Header(s + "][" + section)
    case Comment(text) => Comment(text + "[" + section + "]")
    case PreviousTopLevel(_) => PreviousTopLevel(None)
    case PreviousFeatures(_) => PreviousFeatures(None)
    case _ => Comment("")
  }

  /** The header of a new section ends up on the last line: the text ends with a newline, which is stripped and
      not put back. */
  predicate GluesHeader(text: Text, section: string) {
    text.newline && Header(section) !in text.lines && TrimBlanks(text.lines) != []
  }

  function GluedText(text: Text, section: string, line: Line): Text
    requires GluesHeader(text, section) && !line.Blank?
  {
    var kept := TrimBlanks(text.lines);
    RawText(kept[..|kept| - 1] + [Glued(kept[|kept| - 1], section)] + [line], true)
  }

  /** A glued header heads no section, and the assignment it is glued to has another value. */
  lemma {:induction false} GluedDenotes(text: Text, section: string, key: string, value: string)
    requires GluesHeader(text, section)
    ensures var glued := GluedText(text, section, Assign(key, value)).lines;
            && Header(section) !in glued
            && (forall p :: p in Denotes(glued) ==> p.section != Some(section))
            && (var last := TrimBlanks(text.lines)[|TrimBlanks(text.lines)| - 1];
                last.Assign? ==>
                  var place := SectionAfter(text.lines);
                  Denotes(glued) == Denotes(text.lines)[Place(place, last.key) := last.value + "[" + section + "]"]
                                                       [Place(place, key) := value])
  {
    hide Denotes, SectionAfter, TrimBlanks;
    TrimmedSame(text.lines);
    var kept := TrimBlanks(text.lines);
    var before, last := kept[..|kept| - 1], kept[|kept| - 1];
    var glued := GluedText(text, section, Assign(key, value)).lines;
    assert kept == before + [last] && glued == before + [Glued(last, section)] + [Assign(key, value)];
    assert last in kept && forall l :: l in before ==> l in kept;
    assert Glued(last, section) != Header(section) by {
      if last.Header? { assert |last.section + "][" + section| > |section|; }
    }
    assert Header(section) !in glued;
    NotDenoted(glued, section);
    LinesSnoc(before, last);
    LinesSnoc(before, Glued(last, section));
    LinesSnoc(before + [Glued(last, section)], Assign(key, value));
  }

  /** A section without a header has no assignments. */
  lemma {:induction false} NotDenoted(lines: seq<Line>, section: string)
    requires Header(section) !in lines
    ensures forall p :: p in Denotes(lines) ==> p.section != Some(section)
  {
    if lines != [] {
      var before, last := lines[..|lines| - 1], lines[|lines| - 1];
      assert lines == before + [last];
      NotDenoted(before, section);
      NoSuchSection(before, section);
      LinesSnoc(before, last);
    }
  }

  /** `_upsert_key_in_section`: afterwards the section assigns the value to the key, and every other assignment is
      as before, exactly unless the header of a new section is glued to the last line. */
  method UpsertKeyInSection(text: Text, section: string, key: string, value: string) returns (r: Text)
    ensures Denotes(r.lines) == Denotes(text.lines)[Place(Some(section), key) := value] <==> !GluesHeader(text, section)
    ensures GluesHeader(text, section) ==> r == GluedText(text, section, Assign(key, value))
  {
    hide Denotes, SectionAfter, TrimBlanks, Rejoin, Glued;
    NoLines();
    var lines, line, place := text.lines, Assign(key, value), Place(Some(section), key);
    assert lines[..0] == [];
    var output: seq<Line> := [];
    var inSection, inserted := false, false;
    for n := 0 to |lines|
      invariant inSection == (SectionAfter(lines[..n]) == Some(section))
      invariant SectionAfter(output) == SectionAfter(lines[..n])
      invariant Header(section) in lines[..n] && !inserted ==> inSection
      invariant inserted ==> Header(section) in lines[..n]
      invariant if inserted then Denotes(output) == Denotes(lines[..n])[place := value]
                else Denotes(output) == Denotes(lines[..n]) && place !in Denotes(output)
    {
      assert lines[..n + 1] == lines[..n] + [lines[n]];
      LinesSnoc(lines[..n], lines[n]);
      if lines[n].Header? {
        if inSection && !inserted {
          TrimmedSame(output);
          output := TrimBlanks(output);
          LinesSnoc(output, line);
          output := output + [line];
          inserted := true;
          SectionSeen(lines[..n], section);
        }
        inSection := lines[n].section == section;
        LinesSnoc(output, lines[n]);
        output := output + [lines[n]];
      } else if inSection && lines[n].Assign? && lines[n].key == key {
        SectionSeen(lines[..n], section);
        LinesSnoc(output, line);
        output := output + [line];
        inserted := true;
      } else {
        LinesSnoc(output, lines[n]);
        output := output + [lines[n]];
      }
    }
    assert lines[..|lines|] == lines;
    if Header(section) in lines {
      if inSection && !inserted {
        TrimmedSame(output);
        output := TrimBlanks(output);
        LinesSnoc(output, line);
        output := output + [line];
      }
      RejoinSame(output, text.newline);
      return Rejoin(output, text.newline);
    }
    SectionAddedDenotes(text, section, key, value);
    r := SectionAdded(text, section, line);
  }

  /** The text stripped at its end, a newline if it had none, the header and the line. */
  function SectionAdded(text: Text, section: string, line: Line): Text
    requires Header(section) !in text.lines && !line.Blank?
  {
    var kept := TrimBlanks(text.lines);
    if GluesHeader(text, section) then GluedText(text, section, line)
    else
      var gap := if kept == [] && text.lines != [] && !text.newline then [Blank] else [];
      RawText(kept + gap + [Header(section)] + [line], true)
  }

  lemma SectionAddedDenotes(text: Text, section: string, key: string, value: string)
    requires Header(section) !in text.lines
    ensures var r := SectionAdded(text, section, Assign(key, value));
            Denotes(r.lines) == Denotes(text.lines)[Place(Some(section), key) := value] <==> !GluesHeader(text, section)
  {
    hide Denotes, SectionAfter, TrimBlanks, Glued;
    if GluesHeader(text, section) {
      GluedDenotes(text, section, key, value);
    } else {
      var kept := TrimBlanks(text.lines);
      var gap := if kept == [] && text.lines != [] && !text.newline then [Blank] else [];
      TrimmedSame(text.lines);
      LinesSnoc(kept, Blank);
      assert kept + [] == kept;
      LinesSnoc(kept + gap, Header(section));
      LinesSnoc(kept + gap + [Header(section)], Assign(key, value));
    }
  }

  lemma {:induction false} SectionSeen(lines: seq<Line>, section: string)
    requires SectionAfter(lines) == Some(section)
    ensures Header(section) in lines
  {
    var n := |lines| - 1;
    if lines[n].Header? {
      assert lines[n] in lines;
    } else {
      SectionSeen(lines[..n], section);
    }
  }

  // ---- The managed features ----

  const FLAG := Place(Some(FEATURES), TOOL_SEARCH_KEY)

  /** `_apply_managed_features`: the block goes to the end of the first features section, or a new one;
      `before` and `after` are the lines around it. */
  method ApplyManagedFeatures(text: Text) returns (r: Text, ghost before: seq<Line>, ghost after: seq<Line>)
    ensures r.lines == before + FEATURE_BLOCK + after
    ensures Denotes(before + after) == Denotes(text.lines) && SectionAfter(before) == Some(FEATURES)
    ensures forall l :: l in before + after ==> l in text.lines || l == Blank || l == Header(FEATURES)
    ensures Header(FEATURES) in before
    ensures ManagedBegin !in text.lines ==> Denotes(Unmanaged(r.lines)) == Denotes(text.lines)
    ensures FLAG !in Denotes(text.lines) ==> Denotes(r.lines) == Denotes(text.lines)[FLAG := "true"]
  {
    r, before, after := InsertManagedFeatures(text);
    if FLAG !in Denotes(text.lines) { FlagDenotes(before, after); }
    if ManagedBegin !in text.lines {
      var flag := [Assign(TOOL_SEARCH_KEY, "true")];
      assert r.lines == before + [ManagedBegin] + flag + [ManagedEnd] + after;
      assert forall l :: l in before || l in after ==> l in before + after;
      BlockRemoved(before, flag, after);
      NothingManaged(after);
      SilentBetween(before, [Blank], after);
    }
  }

  /** The loop of `_apply_managed_features`. */
  method InsertManagedFeatures(text: Text) returns (r: Text, ghost before: seq<Line>, ghost after: seq<Line>)
    ensures r.lines == before + FEATURE_BLOCK + after
    ensures Denotes(before + after) == Denotes(text.lines) && SectionAfter(before) == Some(FEATURES)
    ensures forall l :: l in before + after ==> l in text.lines || l == Blank || l == Header(FEATURES)
    ensures Header(FEATURES) in before
  {
    hide Denotes, TrimBlanks, SectionAfter;
    NoLines();
    var lines, output: seq<Line> := text.lines, [];
    var inFeatures, inserted := false, false;
    before, after := [], [];
    assert lines[..0] == [];
    for n := 0 to |lines|
      invariant inFeatures == (SectionAfter(lines[..n]) == Some(FEATURES))
      invariant Header(FEATURES) in lines[..n] && !inserted ==> inFeatures
      invariant inserted ==> before + after == lines[..n] && output == before + FEATURE_BLOCK + after
      invariant inserted ==> SectionAfter(before) == Some(FEATURES)
      invariant !inserted ==> output == lines[..n]
    {
      assert lines[..n + 1] == lines[..n] + [lines[n]];
      LinesSnoc(lines[..n], lines[n]);
      if lines[n].Header? {
        if inFeatures && !inserted {
          before, after := lines[..n], [];
          output := output + FEATURE_BLOCK;
          inserted := true;
        }
        inFeatures := lines[n].section == FEATURES;
      }
      if inserted {
        assert output + [lines[n]] == before + FEATURE_BLOCK + (after + [lines[n]]);
        after := after + [lines[n]];
      }
      output := output + [lines[n]];
    }
    assert lines[..|lines|] == lines;
    if Header(FEATURES) in lines {
      if inFeatures && !inserted {
        before, after := lines, [];
        assert before + after == lines && output + FEATURE_BLOCK == before + FEATURE_BLOCK + after;
        output := output + FEATURE_BLOCK;
      }
      SectionSeen(before, FEATURES);
      assert after != [] ==> after[|after| - 1] == lines[|lines| - 1];
      return Rejoin(output, text.newline), before, after;
    }
    var kept := TrimBlanks(lines);
    var blanks := if kept == [] then [Blank, Blank] else [Blank];
    NewFeatures(lines, blanks);
    before, after := kept + blanks + [Header(FEATURES)], [];
    r := RawText(kept + blanks + [Header(FEATURES)] + FEATURE_BLOCK, true);
  }

  /** A new features section at the end. */
  lemma NewFeatures(lines: seq<Line>, blanks: seq<Line>)
    requires forall l :: l in blanks ==> l == Blank
    ensures var before := TrimBlanks(lines) + blanks + [Header(FEATURES)];
            && Denotes(before + []) == Denotes(lines) && SectionAfter(before) == Some(FEATURES)
            && (forall l :: l in before + [] ==> l in lines || l == Blank || l == Header(FEATURES))
            && before + FEATURE_BLOCK + [] == before + FEATURE_BLOCK
  {
    hide Denotes, SectionAfter, TrimBlanks;
    var kept := TrimBlanks(lines);
    TrimmedSame(lines);
    SilentBetween(kept, blanks, []);
    assert kept + blanks + [] == kept + blanks && kept + [] == kept;
    LinesSnoc(kept + blanks, Header(FEATURES));
    assert kept + blanks + [Header(FEATURES)] + [] == kept + blanks + [Header(FEATURES)];
  }

  // ---- Install ----

  function ManagedTop(m: map<Place, string>): map<string, string> {
    ValuesAt(m, None, MANAGED_TOP_LEVEL_KEYS)
  }

  function ManagedFeature(m: map<Place, string>): map<string, string> {
    ValuesAt(m, Some(FEATURES), MANAGED_FEATURE_KEYS)
  }

  /** The assignments of which the shim takes no part. */
  function Own(m: map<Place, string>): map<Place, string> {
    Without(Without(WithoutSection(m, LEGACY_SECTION), None, MANAGED_TOP_LEVEL_KEYS), Some(FEATURES),
            MANAGED_FEATURE_KEYS)
  }

  function Visible(values: map<string, string>): map<string, string> {
    map k | k in values && k in MANAGED_FEATURE_KEYS && Strip(values[k]) != "" :: values[k]
  }

  /** What an installation keeps of the top level: what the file assigns or else what it had kept. */
  function KeptTop(original: seq<Line>, backup: Option<seq<Line>>): map<string, string> {
    var current := ManagedTop(Denotes(Unmanaged(original)));
    var previous := if current != map[] then current else PreviousTop(original);
    if previous == map[] && backup.Some? then ManagedTop(Denotes(backup.value)) else previous
  }

  function KeptFeatures(original: seq<Line>, backup: Option<seq<Line>>): map<string, string> {
    var current := ManagedFeature(WithoutSection(Without(Denotes(Unmanaged(original)), None, MANAGED_TOP_LEVEL_KEYS),
                                                 LEGACY_SECTION));
    var previous := if current != map[] then current else PreviousFeature(original);
    if previous == map[] && backup.Some? then ManagedFeature(Denotes(backup.value)) else previous
  }

  /** `install_codex_config`: the new file sets the shim's values and otherwise denotes the file's own
      assignments; its managed blocks keep the earlier values, and without them it denotes just its own
      assignments. */
  method InstallCodexConfig(original: Text, backup: Option<seq<Line>>, v: ShimValues) returns (r: Text)
    ensures Denotes(Unmanaged(r.lines)) == Own(Denotes(Unmanaged(original.lines)))
    ensures PreviousTop(r.lines) == KeptTop(original.lines, backup)
    ensures PreviousFeature(r.lines) == Visible(KeptFeatures(original.lines, backup))
    ensures var own := Own(Denotes(Unmanaged(original.lines)));
            Denotes(r.lines) == (own + Placed(None, ShimAssignments(v)))[FLAG := "true"]
    ensures Header(FEATURES) in Unmanaged(r.lines)
  {
    hide Denotes, Unmanaged, UnmanagedText, SectionAfter, PreviousTop, PreviousFeature, Without, WithoutSection,
         ValuesAt, Placed, DropBlanks, Rejoin, LinesWithout, LinesOutside, ShimAssignments;
    var cleaned := RemoveManagedConfig(original);
    UnmanagedSame(original);
    var previousTop := ExtractTopLevelKeys(cleaned.lines, MANAGED_TOP_LEVEL_KEYS);
    if previousTop == map[] {
      previousTop := PreviousTop(original.lines);
    }
    if previousTop == map[] && backup.Some? {
      previousTop := ExtractTopLevelKeys(backup.value, MANAGED_TOP_LEVEL_KEYS);
    }
    cleaned := RemoveTopLevelKeys(cleaned, MANAGED_TOP_LEVEL_KEYS);
    cleaned := RemoveSection(cleaned, LEGACY_SECTION);
    var previousFeatures := ExtractSectionKeys(cleaned.lines, FEATURES, MANAGED_FEATURE_KEYS);
    if previousFeatures == map[] {
      previousFeatures := PreviousFeature(original.lines);
    }
    if previousFeatures == map[] && backup.Some? {
      previousFeatures := ExtractSectionKeys(backup.value, FEATURES, MANAGED_FEATURE_KEYS);
    }
    cleaned := RemoveKeysFromSection(cleaned, FEATURES, MANAGED_FEATURE_KEYS);
    StillUnmanaged(original);
    RemovalsCommute(Denotes(Unmanaged(original.lines)));
    KeptKeys(original.lines);
    if backup.Some? { ValuesKeys(Denotes(backup.value)); }
    ValuesKeys(Denotes(Unmanaged(original.lines)));
    ValuesKeys(WithoutSection(Without(Denotes(Unmanaged(original.lines)), None, MANAGED_TOP_LEVEL_KEYS),
                              LEGACY_SECTION));
    r := WithBlocks(cleaned, v, previousTop, previousFeatures);
  }

  /** The text that an installation writes: its block in front and one in the features section. */
  method WithBlocks(cleaned: Text, v: ShimValues, top: map<string, string>, features: map<string, string>)
    returns (r: Text)
    requires ManagedBegin !in cleaned.lines
    requires top.Keys <= MANAGED_TOP_LEVEL_KEYS && features.Keys <= MANAGED_FEATURE_KEYS
    requires ManagedTop(Denotes(cleaned.lines)) == map[] && FLAG !in Denotes(cleaned.lines)
    ensures Denotes(Unmanaged(r.lines)) == Denotes(cleaned.lines) && Header(FEATURES) in Unmanaged(r.lines)
    ensures PreviousTop(r.lines) == top && PreviousFeature(r.lines) == Visible(features)
    ensures Denotes(r.lines) == (Denotes(cleaned.lines) + Placed(None, ShimAssignments(v)))[FLAG := "true"]
  {
    hide Denotes, Unmanaged, SectionAfter, PreviousTop, PreviousFeature, ValuesAt, Placed, DropBlanks, ShimAssignments;
    ghost var before, after;
    var applied;
    applied, before, after := ApplyManagedFeatures(cleaned);
    assert forall l :: l in before || l in after ==> l in before + after;
    var stripped := LeftStripped(applied);
    DroppedSame(applied.lines);
    assert Header(FEATURES) in applied.lines && Header(FEATURES) in stripped.lines;
    var front := ManagedBlock(v, top, features) + [Blank];
    assert (front + stripped.lines)[|front| + |stripped.lines| - 1] == stripped.lines[|stripped.lines| - 1];
    r := RawText(front + stripped.lines, stripped.newline);
    Installed(v, top, features, before, after);
  }

  /** The removals bring no block back. */
  lemma StillUnmanaged(original: Text)
    ensures var one := UnmanagedText(original);
            var two := Rejoin(LinesWithout(one.lines, None, MANAGED_TOP_LEVEL_KEYS), one.newline);
            var three := SectionRemoved(two, LEGACY_SECTION);
            var four := Rejoin(LinesWithout(three.lines, Some(FEATURES), MANAGED_FEATURE_KEYS), three.newline);
            ManagedBegin !in four.lines
  {
    hide Unmanaged, UnmanagedText, Rejoin, LinesWithout, LinesOutside, Denotes;
    UnmanagedSame(original);
    UnmanagedHasNoBegin(original.lines);
    var one := UnmanagedText(original);
    LinesWithoutDenote(one.lines, None, MANAGED_TOP_LEVEL_KEYS);
    RejoinSame(LinesWithout(one.lines, None, MANAGED_TOP_LEVEL_KEYS), one.newline);
    var two := Rejoin(LinesWithout(one.lines, None, MANAGED_TOP_LEVEL_KEYS), one.newline);
    HeadersOutside(two.lines, LEGACY_SECTION);
    RejoinSame(LinesOutside(two.lines, LEGACY_SECTION), two.newline);
    var three := SectionRemoved(two, LEGACY_SECTION);
    LinesWithoutDenote(three.lines, Some(FEATURES), MANAGED_FEATURE_KEYS);
    RejoinSame(LinesWithout(three.lines, Some(FEATURES), MANAGED_FEATURE_KEYS), three.newline);
  }

  lemma KeptKeys(original: seq<Line>)
    ensures PreviousTop(original).Keys <= MANAGED_TOP_LEVEL_KEYS
            && PreviousFeature(original).Keys <= MANAGED_FEATURE_KEYS
  {
  }

  lemma ValuesKeys(m: map<Place, string>)
    ensures ManagedTop(m).Keys <= MANAGED_TOP_LEVEL_KEYS && ManagedFeature(m).Keys <= MANAGED_FEATURE_KEYS
  {
  }

  /** The removals of an installation, in the order in which it makes them. */
  lemma RemovalsCommute(m: map<Place, string>)
    ensures Without(WithoutSection(Without(m, None, MANAGED_TOP_LEVEL_KEYS), LEGACY_SECTION), Some(FEATURES),
                    MANAGED_FEATURE_KEYS) == Own(m)
    ensures ManagedTop(Own(m)) == map[] && FLAG !in Own(m)
  {
    assert TOOL_SEARCH_KEY in MANAGED_FEATURE_KEYS;
  }

  /** The shape of an installed file. */
  lemma {:induction false} Installed(v: ShimValues, top: map<string, string>, features: map<string, string>,
                                     before: seq<Line>, after: seq<Line>)
    requires ManagedBegin !in before && ManagedBegin !in after
    requires Header(FEATURES) in before && SectionAfter(before) == Some(FEATURES)
    requires top.Keys <= MANAGED_TOP_LEVEL_KEYS && features.Keys <= MANAGED_FEATURE_KEYS
    requires ManagedTop(Denotes(before + after)) == map[] && FLAG !in Denotes(before + after)
    ensures var r := ManagedBlock(v, top, features) + [Blank] + DropBlanks(before + FEATURE_BLOCK + after);
            && Denotes(Unmanaged(r)) == Denotes(before + after)
            && Header(FEATURES) in Unmanaged(r)
            && PreviousTop(r) == top && PreviousFeature(r) == Visible(features)
            && Denotes(r) == (Denotes(before + after) + Placed(None, ShimAssignments(v)))[FLAG := "true"]
  {
    hide Denotes, Unmanaged, PreviousTop, PreviousFeature, Placed, ShimAssignments, DropBlanks;
    var kept := DropBlanks(before);
    DropBefore(before, FEATURE_BLOCK + after);
    assert before + FEATURE_BLOCK + after == before + (FEATURE_BLOCK + after);
    DroppedSame(before);
    var r := ManagedBlock(v, top, features) + [Blank] + (kept + FEATURE_BLOCK + after);
    assert kept + (FEATURE_BLOCK + after) == kept + FEATURE_BLOCK + after;
    LinesConcat(kept, after);
    LinesConcat(before, after);
    InstalledUserPart(v, top, features, kept, after);
    InstalledPrevious(v, top, features, kept, after);
    InstalledDenotes(v, top, features, kept, after);
  }

  lemma {:induction false} DropBefore(before: seq<Line>, rest: seq<Line>)
    requires Header(FEATURES) in before
    ensures DropBlanks(before + rest) == DropBlanks(before) + rest
  {
    assert (before + rest)[0] == before[0];
    if IsBlank(before[0]) {
      assert (before + rest)[1..] == before[1..] + rest;
      DropBefore(before[1..], rest);
    }
  }

  lemma {:induction false} InstalledUserPart(v: ShimValues, top: map<string, string>, features: map<string, string>,
                                             kept: seq<Line>, after: seq<Line>)
    requires ManagedBegin !in kept && ManagedBegin !in after
    ensures var r := ManagedBlock(v, top, features) + [Blank] + (kept + FEATURE_BLOCK + after);
            Denotes(Unmanaged(r)) == Denotes(kept + after) && forall l :: l in kept ==> l in Unmanaged(r)
  {
    hide Denotes, Unmanaged;
    var body := BlockBody(v, top, features);
    var flag := [Assign(TOOL_SEARCH_KEY, "true")];
    var rest := [Blank] + (kept + FEATURE_BLOCK + after);
    var r := ManagedBlock(v, top, features) + [Blank] + (kept + FEATURE_BLOCK + after);
    assert r == [] + [ManagedBegin] + body + [ManagedEnd] + rest;
    BlockRemoved([], body, rest);
    NotInConcat([Blank], kept, ManagedBegin);
    assert rest == ([Blank] + kept) + [ManagedBegin] + flag + [ManagedEnd] + after;
    BlockRemoved([Blank] + kept, flag, after);
    NothingManaged(after);
    assert Unmanaged(r) == [] + [Blank, Blank] + (kept + [Blank] + after);
    SilentBetween([], [Blank, Blank], kept + [Blank] + after);
    assert [] + (kept + [Blank] + after) == kept + [Blank] + after;
    SilentBetween(kept, [Blank], after);
  }

  lemma InstalledPrevious(v: ShimValues, top: map<string, string>, features: map<string, string>, kept: seq<Line>,
                          after: seq<Line>)
    requires ManagedBegin !in kept && ManagedBegin !in after
    requires top.Keys <= MANAGED_TOP_LEVEL_KEYS && features.Keys <= MANAGED_FEATURE_KEYS
    ensures var r := ManagedBlock(v, top, features) + [Blank] + (kept + FEATURE_BLOCK + after);
            PreviousTop(r) == top && PreviousFeature(r) == Visible(features)
  {
    var block := ManagedBlock(v, top, features);
    BlockPrevious(v, top, features);
    forall which: bool
      ensures var r := block + [Blank] + (kept + FEATURE_BLOCK + after);
              FirstPrevious(r, which) == FirstPrevious(block, which)
    {
      NotInConcat([Blank], kept, ManagedBegin);
      PreviousOutside(block, [Blank] + kept, which);
      var a := block + ([Blank] + kept);
      PreviousSnoc(a, ManagedBegin, which);
      PreviousSnoc(a + [ManagedBegin], FEATURE_BLOCK[1], which);
      PreviousSnoc(a + [ManagedBegin] + [FEATURE_BLOCK[1]], ManagedEnd, which);
      PreviousOutside(a + [ManagedBegin] + [FEATURE_BLOCK[1]] + [ManagedEnd], after, which);
      assert block + [Blank] + (kept + FEATURE_BLOCK + after)
             == a + [ManagedBegin] + [FEATURE_BLOCK[1]] + [ManagedEnd] + after;
    }
  }

  lemma BlockPrevious(v: ShimValues, top: map<string, string>, features: map<string, string>)
    requires top.Keys <= MANAGED_TOP_LEVEL_KEYS && features.Keys <= MANAGED_FEATURE_KEYS
    ensures var block := ManagedBlock(v, top, features);
            && !InManaged(block)
            && FirstPrevious(block, false) == (if top != map[] then Some(Some(top)) else None)
            && FirstPrevious(block, true) == (if features != map[] then Some(Some(features)) else None)
  {
    hide FirstPrevious, InManaged;
    var a := [ManagedBegin];
    var b := a + (if top != map[] then [PreviousTopLevel(Some(top))] else []);
    var c := b + (if features != map[] then [PreviousFeatures(Some(features))] else []);
    var tail := ShimLines(v);
    forall which: bool
      ensures InManaged(c) && FirstPrevious(c, which) ==
              if which then (if features != map[] then Some(Some(features)) else None)
              else (if top != map[] then Some(Some(top)) else None)
    {
      PreviousNone(which);
      PreviousSnoc([], ManagedBegin, which);
      assert [] + [ManagedBegin] == a;
      PreviousSnoc(a, PreviousTopLevel(Some(top)), which);
      assert top == map[] ==> b == a;
      PreviousSnoc(b, PreviousFeatures(Some(features)), which);
      assert features == map[] ==> c == b;
    }
    forall which: bool
      ensures FirstPrevious(c + tail + [ManagedEnd], which) == FirstPrevious(c, which)
      ensures !InManaged(c + tail + [ManagedEnd])
    {
      PreviousPlain(c, tail, which);
      PreviousSnoc(c + tail, ManagedEnd, which);
    }
    assert ManagedBlock(v, top, features) == c + tail + [ManagedEnd];
  }

  lemma PreviousNone(features: bool)
    ensures FirstPrevious([], features) == None && !InManaged([])
  {
  }

  lemma {:induction false} PreviousPlain(a: seq<Line>, b: seq<Line>, features: bool)
    requires forall l :: l in b ==> l.Assign?
    ensures FirstPrevious(a + b, features) == FirstPrevious(a, features)
  {
    if b == [] {
      assert a + b == a;
    } else {
      var before, last := b[..|b| - 1], b[|b| - 1];
      PreviousPlain(a, before, features);
      assert a + b == (a + before) + [last];
      assert last in b;
      PreviousSnoc(a + before, last, features);
    }
  }

  lemma {:induction false} DenotesFromStart(lines: seq<Line>)
    ensures DenotesIn(None, lines) == Denotes(lines)
  {
    if lines != [] {
      DenotesFromStart(lines[..|lines| - 1]);
    }
  }

  lemma {:induction false} InstalledDenotes(v: ShimValues, top: map<string, string>, features: map<string, string>,
                                            kept: seq<Line>, after: seq<Line>)
    requires SectionAfter(kept) == Some(FEATURES)
    requires ManagedTop(Denotes(kept + after)) == map[] && FLAG !in Denotes(kept + after)
    ensures var r := ManagedBlock(v, top, features) + [Blank] + (kept + FEATURE_BLOCK + after);
            Denotes(r) == (Denotes(kept + after) + Placed(None, ShimAssignments(v)))[FLAG := "true"]
  {
    hide Denotes, DenotesIn, SectionAfter, Placed, ShimAssignments, ValuesAt;
    var block := ManagedBlock(v, top, features);
    var rest := kept + FEATURE_BLOCK + after;
    BlockDenotes(v, top, features);
    LinesSnoc(block, Blank);
    LinesConcat(block + [Blank], rest);
    DenotesFromStart(rest);
    FlagDenotes(kept, after);
    ShimKeys(v);
    TopApart(Denotes(kept + after), ShimAssignments(v), FLAG, "true");
  }

  lemma ShimKeys(v: ShimValues)
    ensures ShimAssignments(v).Keys == MANAGED_TOP_LEVEL_KEYS
  {
  }

  lemma BlockDenotes(v: ShimValues, top: map<string, string>, features: map<string, string>)
    ensures Denotes(ManagedBlock(v, top, features)) == Placed(None, ShimAssignments(v))
    ensures SectionAfter(ManagedBlock(v, top, features)) == None
  {
    hide Denotes, SectionAfter, Placed, ShimAssignments;
    var quiet := [ManagedBegin] + (if top != map[] then [PreviousTopLevel(Some(top))] else [])
                 + (if features != map[] then [PreviousFeatures(Some(features))] else []);
    var tail := ShimLines(v);
    ShimLinesDenote(v);
    SilentBetween([], quiet, tail + [ManagedEnd]);
    assert [] + quiet + (tail + [ManagedEnd]) == ManagedBlock(v, top, features);
    assert [] + (tail + [ManagedEnd]) == tail + [ManagedEnd];
    LinesSnoc(tail, ManagedEnd);
  }

  function ShimLines(v: ShimValues): seq<Line> {
    [Assign("model", v.model), Assign("model_provider", v.modelProvider),
     Assign("openai_base_url", v.baseUrl), Assign("model_catalog_json", v.catalog)]
  }

  lemma ShimLinesDenote(v: ShimValues)
    ensures Denotes(ShimLines(v)) == Placed(None, ShimAssignments(v)) && SectionAfter(ShimLines(v)) == None
  {
    hide Denotes, SectionAfter;
    var tail := ShimLines(v);
    NoLines();
    LinesSnoc([], tail[0]);
    LinesSnoc([] + [tail[0]], tail[1]);
    LinesSnoc([] + [tail[0]] + [tail[1]], tail[2]);
    LinesSnoc([] + [tail[0]] + [tail[1]] + [tail[2]], tail[3]);
    assert tail == [] + [tail[0]] + [tail[1]] + [tail[2]] + [tail[3]];
  }

  lemma FlagDenotes(kept: seq<Line>, after: seq<Line>)
    requires SectionAfter(kept) == Some(FEATURES) && FLAG !in Denotes(kept + after)
    ensures Denotes(kept + FEATURE_BLOCK + after) == Denotes(kept + after)[FLAG := "true"]
  {
    hide Denotes, DenotesIn, SectionAfter;
    LinesSnoc(kept, ManagedBegin);
    LinesSnoc(kept + [ManagedBegin], FEATURE_BLOCK[1]);
    LinesSnoc(kept + [ManagedBegin] + [FEATURE_BLOCK[1]], ManagedEnd);
    assert kept + FEATURE_BLOCK == kept + [ManagedBegin] + [FEATURE_BLOCK[1]] + [ManagedEnd];
    LinesConcat(kept + FEATURE_BLOCK, after);
    LinesConcat(kept, after);
  }

  /** Top-level values that do not clash may come first or last. */
  lemma TopApart(m: map<Place, string>, values: map<string, string>, flag: Place, value: string)
    requires ManagedTop(m) == map[] && values.Keys <= MANAGED_TOP_LEVEL_KEYS && flag.section.Some?
    ensures Placed(None, values) + m[flag := value] == (m + Placed(None, values))[flag := value]
  {
    forall p | p in Placed(None, values) ensures p !in m {
      assert p in m ==> p.key in ManagedTop(m);
    }
  }

  // ---- Restore ----

  /** The lines for the previous values that are not current, in an order. */
  function TopLines(order: seq<string>, previous: map<string, string>, current: map<string, string>): seq<Line> {
    if order == [] then []
    else
      var key := order[|order| - 1];
      TopLines(order[..|order| - 1], previous, current)
      + (if key in previous && key !in current then [Assign(key, StoredRhs(key, previous[key]))] else [])
  }

  /** The text with those lines in front; white space at its start goes if it starts with an empty line. */
  function TopRestored(text: Text, previous: map<string, string>): Text {
    var prefix := TopLines(RESTORE_ORDER, previous, ManagedTop(Denotes(text.lines)));
    var rest := if text.lines != [] && text.lines[0] != Blank then text else LeftStripped(text);
    if prefix == [] then text
    else
      assert (prefix + rest.lines)[|prefix + rest.lines| - 1] == if rest.lines == [] then prefix[|prefix| - 1]
                                                                  else rest.lines[|rest.lines| - 1];
      RawText(prefix + rest.lines, rest.lines == [] || rest.newline)
  }

  /** `_restore_missing_top_level_keys`: the kept values of the keys that the file does not assign. */
  method RestoreMissingTopLevelKeys(text: Text, previous: map<string, string>) returns (r: Text)
    requires previous.Keys <= MANAGED_TOP_LEVEL_KEYS
    ensures r == TopRestored(text, previous)
    ensures Denotes(r.lines) == Denotes(text.lines) + Placed(None, MissingTop(Denotes(text.lines), previous))
  {
    hide Denotes, SectionAfter, ValuesAt, Placed, MissingTop, DropBlanks, StoredRhs;
    MissingApart(Denotes(text.lines), previous);
    TopLinesMissing(text.lines, previous);
    if previous == map[] {
      return text;
    }
    var current := ExtractTopLevelKeys(text.lines, MANAGED_TOP_LEVEL_KEYS);
    var prefix := AssignmentsOf(previous, current);
    if prefix == [] {
      NoLines();
      return text;
    }
    var rest := if text.lines != [] && text.lines[0] != Blank then text else LeftStripped(text);
    DroppedSame(text.lines);
    LinesConcat(prefix, rest.lines);
    DenotesFromStart(rest.lines);
    r := RawText(prefix + rest.lines, rest.lines == [] || rest.newline);
  }

  /** What the lines in front denote. */
  lemma TopLinesMissing(lines: seq<Line>, previous: map<string, string>)
    requires previous.Keys <= MANAGED_TOP_LEVEL_KEYS
    ensures var prefix := TopLines(RESTORE_ORDER, previous, ManagedTop(Denotes(lines)));
            && SectionAfter(prefix) == None
            && Denotes(prefix) == Placed(None, MissingTop(Denotes(lines), previous))
            && (previous == map[] ==> prefix == [])
  {
    hide Denotes, SectionAfter, Placed, MissingTop, StoredRhs;
    MissingIs(Denotes(lines), previous);
    TopLinesDenote(RESTORE_ORDER, previous, ManagedTop(Denotes(lines)));
    AllInOrder();
    assert RESTORE_ORDER[..|RESTORE_ORDER|] == RESTORE_ORDER;
    assert TopPut(RESTORE_ORDER, previous, ManagedTop(Denotes(lines))) == MissingTop(Denotes(lines), previous);
  }

  /** The previous values that are not current, as they are written. */
  function TopPut(order: seq<string>, previous: map<string, string>, current: map<string, string>)
    : map<string, string> {
    map k | k in previous && k !in current && k in order :: StoredRhs(k, previous[k])
  }

  lemma {:induction false} TopLinesDenote(order: seq<string>, previous: map<string, string>,
                                          current: map<string, string>)
    ensures var lines := TopLines(order, previous, current);
            && SectionAfter(lines) == None && Denotes(lines) == Placed(None, TopPut(order, previous, current))
            && (forall l :: l in lines ==> l.Assign?) && (previous == map[] ==> lines == [])
  {
    hide Denotes, SectionAfter, Placed, StoredRhs;
    if order == [] {
      NoLines();
      PlacedNothing();
      assert TopPut(order, previous, current) == map[];
    } else {
      var before, key := order[..|order| - 1], order[|order| - 1];
      assert order == before + [key];
      TopLinesDenote(before, previous, current);
      var put, lines := TopPut(before, previous, current), TopLines(before, previous, current);
      assert lines + [] == lines;
      if key in previous && key !in current {
        PlacedMore(put, key, StoredRhs(key, previous[key]));
        LinesSnoc(lines, Assign(key, StoredRhs(key, previous[key])));
        assert put[key := StoredRhs(key, previous[key])] == TopPut(order, previous, current);
      } else {
        assert put == TopPut(order, previous, current);
      }
    }
  }

  /** The list of lines for the previous values that are not current, in the restore order. */
  method AssignmentsOf(previous: map<string, string>, current: map<string, string>) returns (prefix: seq<Line>)
    ensures prefix == TopLines(RESTORE_ORDER, previous, current)
  {
    prefix := [];
    for n := 0 to |RESTORE_ORDER|
      invariant prefix == TopLines(RESTORE_ORDER[..n], previous, current)
    {
      var key := RESTORE_ORDER[n];
      assert RESTORE_ORDER[..n + 1] == RESTORE_ORDER[..n] + [key] && RESTORE_ORDER[..n + 1][..n] == RESTORE_ORDER[..n];
      if key in previous && key !in current {
        prefix := prefix + [Assign(key, StoredRhs(key, previous[key]))];
      }
    }
    assert RESTORE_ORDER[..|RESTORE_ORDER|] == RESTORE_ORDER;
  }

  lemma PlacedNothing()
    ensures Placed(None, map[]) == map[]
  {
  }

  lemma PlacedMore(values: map<string, string>, key: string, value: string)
    ensures Placed(None, values[key := value]) == Placed(None, values)[Place(None, key) := value]
  {
  }

  lemma MissingIs(m: map<Place, string>, previous: map<string, string>)
    requires previous.Keys <= MANAGED_TOP_LEVEL_KEYS
    ensures forall k :: k in MissingTop(m, previous) <==> k in previous && k !in ManagedTop(m)
    ensures forall k :: k in MissingTop(m, previous) ==> MissingTop(m, previous)[k] == StoredRhs(k, previous[k])
  {
    hide ValuesAt;
    ValuesOf(m, None, MANAGED_TOP_LEVEL_KEYS);
  }

  /** The kept top-level values that a file lacks, as they are written back. */
  function MissingTop(m: map<Place, string>, previous: map<string, string>): map<string, string> {
    map k | k in previous && Place(None, k) !in m :: StoredRhs(k, previous[k])
  }

  lemma AllInOrder()
    ensures forall k :: k in MANAGED_TOP_LEVEL_KEYS <==> k in RESTORE_ORDER[..|RESTORE_ORDER|]
  {
    assert RESTORE_ORDER[0] in RESTORE_ORDER && RESTORE_ORDER[1] in RESTORE_ORDER
        && RESTORE_ORDER[2] in RESTORE_ORDER && RESTORE_ORDER[3] in RESTORE_ORDER;
    assert RESTORE_ORDER[..|RESTORE_ORDER|] == RESTORE_ORDER;
  }

  lemma MissingApart(m: map<Place, string>, previous: map<string, string>)
    ensures var missing := Placed(None, MissingTop(m, previous)); missing + m == m + missing
    ensures previous == map[] ==> m + Placed(None, MissingTop(m, previous)) == m
  {
    hide Placed;
    PlacedAt(None, MissingTop(m, previous));
  }

  /** `_restore_features_keys`: the kept feature values are assigned, exactly unless there is one and no header of
      the section, so that a new header is glued to the last line. */
  method RestoreFeaturesKeys(text: Text, previous: map<string, string>) returns (r: Text)
    ensures var put := RestoredFeatures(previous);
            var glued := put != map[] && GluesHeader(text, FEATURES);
            && (Denotes(r.lines) == Denotes(text.lines) + Placed(Some(FEATURES), put) <==> !glued)
            && (glued ==> r == GluedText(text, FEATURES, FeatureLine(previous)) && Header(FEATURES) !in r.lines)
            && (glued ==> forall p :: p in Denotes(r.lines) ==> p.section != Some(FEATURES))
  {
    hide Denotes, StoredRhs, RestoredFeatures, TrimBlanks, Glued;
    OneFeature(previous, Denotes(text.lines));
    if TOOL_SEARCH_KEY !in previous || previous[TOOL_SEARCH_KEY] == "" {
      return text;
    }
    var value := StoredRhs(TOOL_SEARCH_KEY, previous[TOOL_SEARCH_KEY]);
    r := UpsertKeyInSection(text, FEATURES, TOOL_SEARCH_KEY, value);
    if GluesHeader(text, FEATURES) { GluedDenotes(text, FEATURES, TOOL_SEARCH_KEY, value); }
  }

  /** The line for the one managed feature. */
  function FeatureLine(previous: map<string, string>): Line
    requires RestoredFeatures(previous) != map[]
  {
    OneFeature(previous, map[]);
    Assign(TOOL_SEARCH_KEY, StoredRhs(TOOL_SEARCH_KEY, previous[TOOL_SEARCH_KEY]))
  }

  /** There is one managed feature. */
  lemma OneFeature(previous: map<string, string>, m: map<Place, string>)
    ensures m + Placed(Some(FEATURES), RestoredFeatures(previous)) ==
            if TOOL_SEARCH_KEY !in previous || previous[TOOL_SEARCH_KEY] == "" then m
            else m[FLAG := StoredRhs(TOOL_SEARCH_KEY, previous[TOOL_SEARCH_KEY])]
    ensures RestoredFeatures(previous) != map[] <==> TOOL_SEARCH_KEY in previous && previous[TOOL_SEARCH_KEY] != ""
  {
    hide StoredRhs, Placed;
    var put := Placed(Some(FEATURES), RestoredFeatures(previous));
    PlacedAt(Some(FEATURES), RestoredFeatures(previous));
    forall p ensures p in put <==> p == FLAG && TOOL_SEARCH_KEY in previous && previous[TOOL_SEARCH_KEY] != "" {
      assert p.key in MANAGED_FEATURE_KEYS <==> p.key == TOOL_SEARCH_KEY;
    }
    if RestoredFeatures(previous) != map[] {
      var k :| k in RestoredFeatures(previous);
      assert k == TOOL_SEARCH_KEY;
    }
    assert TOOL_SEARCH_KEY in RestoredFeatures(previous)
           <==> TOOL_SEARCH_KEY in previous && previous[TOOL_SEARCH_KEY] != "";
  }

  function RestoredFeatures(previous: map<string, string>): map<string, string> {
    map k | k in previous && k in MANAGED_FEATURE_KEYS && previous[k] != "" :: StoredRhs(k, previous[k])
  }

  function RestoredTop(current: seq<Line>, backup: Option<seq<Line>>): map<string, string> {
    var previous := PreviousTop(current);
    if previous == map[] && backup.Some? then ManagedTop(Denotes(backup.value)) else previous
  }

  function RestoredFeature(current: seq<Line>, backup: Option<seq<Line>>): map<string, string> {
    var previous := PreviousFeature(current);
    if previous == map[] && backup.Some? then ManagedFeature(Denotes(backup.value)) else previous
  }

  /** What a restored file denotes: what the file denotes without its managed blocks and the legacy
      section, the kept top-level values it lacks and the kept feature values. */
  function Restored(own: map<Place, string>, top: map<string, string>, features: map<string, string>)
    : map<Place, string> {
    var base := WithoutSection(own, LEGACY_SECTION);
    base + Placed(None, MissingTop(base, top)) + Placed(Some(FEATURES), RestoredFeatures(features))
  }

  /** The text to which a restore adds the kept values: without blocks, legacy section and white space in front. */
  function RestoreBase(current: Text): Text {
    LeftStripped(SectionRemoved(UnmanagedText(current), LEGACY_SECTION))
  }

  /** A restore glues the features header to the last line: there is a feature value to put back, no features header
      outside of the blocks, and what is left ends with a newline, or is nothing but kept top-level values. */
  predicate Glues(current: Text, top: map<string, string>, features: map<string, string>) {
    && RestoredFeatures(features) != map[] && Header(FEATURES) !in Unmanaged(current.lines)
    && var base := RestoreBase(current); if base.lines == [] then top != map[] else base.newline
  }

  lemma BaseIs(current: Text)
    ensures var base := RestoreBase(current);
            && Denotes(base.lines) == WithoutSection(Denotes(Unmanaged(current.lines)), LEGACY_SECTION)
            && (Header(FEATURES) in base.lines <==> Header(FEATURES) in Unmanaged(current.lines))
            && (base.lines != [] ==> !IsBlank(base.lines[0]))
            && (base.lines == [] ==> !base.newline)
  {
    hide Denotes, Unmanaged, UnmanagedText, LinesOutside, DropBlanks, Rejoin, WithoutSection;
    UnmanagedSame(current);
    var one := UnmanagedText(current);
    HeadersOutside(one.lines, LEGACY_SECTION);
    LinesOutsideDenote(one.lines, LEGACY_SECTION);
    RejoinSame(LinesOutside(one.lines, LEGACY_SECTION), one.newline);
    DroppedSame(SectionRemoved(one, LEGACY_SECTION).lines);
  }

  /** The condition is that of the last step. */
  lemma GluesMeans(current: Text, top: map<string, string>, features: map<string, string>)
    requires top.Keys <= MANAGED_TOP_LEVEL_KEYS
    ensures Glues(current, top, features)
            <==> RestoredFeatures(features) != map[] && GluesHeader(TopRestored(RestoreBase(current), top), FEATURES)
  {
    hide Denotes, Unmanaged, RestoreBase, RestoredFeatures, TopRestored, GluesHeader, WithoutSection;
    BaseIs(current);
    AfterTop(RestoreBase(current), top);
  }

  lemma AfterTop(base: Text, top: map<string, string>)
    requires top.Keys <= MANAGED_TOP_LEVEL_KEYS && (base.lines != [] ==> !IsBlank(base.lines[0]))
    ensures GluesHeader(TopRestored(base, top), FEATURES)
            <==> Header(FEATURES) !in base.lines && if base.lines == [] then top != map[] else base.newline
  {
    hide Denotes, StoredRhs, TopLines, TrimBlanks, ValuesAt;
    var values := ManagedTop(Denotes(base.lines));
    var prefix := TopLines(RESTORE_ORDER, top, values);
    TopLinesDenote(RESTORE_ORDER, top, values);
    var restored := TopRestored(base, top);
    TrimmedSame(restored.lines);
    TrimmedSame([]);
    if base.lines == [] {
      NoLines();
      NothingDenoted(None, MANAGED_TOP_LEVEL_KEYS, "");
      if top != map[] { SomeLine(top); }
      assert DropBlanks([]) == [] && prefix + [] == prefix;
    }
    if restored.lines != [] {
      assert restored.lines == if prefix == [] then base.lines else prefix + base.lines;
      if prefix != [] { assert restored.lines[0] == prefix[0] && prefix[0] in prefix; }
      assert restored.lines[0] in restored.lines && !IsBlank(restored.lines[0]);
    }
  }

  /** Nothing is assigned in an empty file, so every kept value has its line. */
  lemma SomeLine(top: map<string, string>)
    requires top != map[] && top.Keys <= MANAGED_TOP_LEVEL_KEYS
    ensures TopLines(RESTORE_ORDER, top, map[]) != []
  {
    hide StoredRhs, TopLines, Placed, Denotes;
    var k :| k in top;
    AllInOrder();
    assert RESTORE_ORDER[..|RESTORE_ORDER|] == RESTORE_ORDER;
    TopLinesDenote(RESTORE_ORDER, top, map[]);
    PlacedAt(None, TopPut(RESTORE_ORDER, top, map[]));
    assert Place(None, k) in Placed(None, TopPut(RESTORE_ORDER, top, map[]));
    NoLines();
  }

  /** `restore_codex_config`: the kept values are put back into what is left of the file, exactly unless the
      features header is glued to its last line. */
  method RestoreCodexConfig(current: Text, backup: Option<seq<Line>>) returns (r: Text)
    ensures var top, features := RestoredTop(current.lines, backup), RestoredFeature(current.lines, backup);
            && (Denotes(r.lines) == Restored(Denotes(Unmanaged(current.lines)), top, features)
                <==> !Glues(current, top, features))
            && (Glues(current, top, features) ==>
                  var restored := TopRestored(RestoreBase(current), top);
                  && GluesHeader(restored, FEATURES) && r == GluedText(restored, FEATURES, FeatureLine(features))
                  && forall p :: p in Denotes(r.lines) ==> p.section != Some(FEATURES))
  {
    hide Denotes, Unmanaged, UnmanagedText, PreviousTop, PreviousFeature, ValuesAt, MissingTop, RestoredFeatures,
         Placed, WithoutSection, LinesOutside, DropBlanks, Rejoin, TopRestored, Glues, GluesHeader, GluedText,
         FeatureLine;
    var top, features := PreviousTop(current.lines), PreviousFeature(current.lines);
    KeptKeys(current.lines);
    if top == map[] && backup.Some? {
      top := ExtractTopLevelKeys(backup.value, MANAGED_TOP_LEVEL_KEYS);
      ValuesKeys(Denotes(backup.value));
    }
    if features == map[] && backup.Some? {
      features := ExtractSectionKeys(backup.value, FEATURES, MANAGED_FEATURE_KEYS);
    }
    GluesMeans(current, top, features);
    BaseIs(current);
    r := RemoveManagedConfig(current);
    r := RemoveSection(r, LEGACY_SECTION);
    r := LeftStripped(r);
    r := RestoreMissingTopLevelKeys(r, top);
    r := RestoreFeaturesKeys(r, features);
    var any := FeaturesHaveAssignments(r.lines);
    if !any {
      NoFeatures(Denotes(r.lines));
      NothingRemoved(r);
      r := RemoveSection(r, FEATURES);
    }
  }

  lemma NothingRemoved(text: Text)
    ensures Header(FEATURES) !in text.lines ==> SectionRemoved(text, FEATURES) == text
  {
    if Header(FEATURES) !in text.lines { NoSuchSection(text.lines, FEATURES); }
  }

  lemma NoFeatures(m: map<Place, string>)
    requires !exists p :: p in m && p.section == Some(FEATURES)
    ensures WithoutSection(m, FEATURES) == m
  {
  }

  // ---- Round trip ----

  /** Every managed value is restorable, and no managed feature value is blank. */
  predicate ComesBack(m: map<Place, string>) {
    && (forall k :: k in ManagedTop(m) ==> Restorable(k, m[Place(None, k)]))
    && (forall k :: k in ManagedFeature(m) ==>
          Strip(m[Place(Some(FEATURES), k)]) != "" && Restorable(k, m[Place(Some(FEATURES), k)]))
  }

  /** One or more installations and a restore give back every assignment, exactly when the managed values
      come back. */
  method InstallAndRestore(user: Text, installs: seq<ShimValues>) returns (r: Text)
    requires ManagedBegin !in user.lines && installs != []
    requires forall p :: p in Denotes(user.lines) ==> p.section != Some(LEGACY_SECTION)
    ensures Denotes(r.lines) == Denotes(user.lines) <==> ComesBack(Denotes(user.lines))
  {
    hide Denotes, Unmanaged, PreviousTop, PreviousFeature, KeptTop, KeptFeatures, Own, Restored, ComesBack, ManagedTop,
         ManagedFeature, RestoreBase, RestoredFeatures, GluedText, FeatureLine, TopRestored;
    var m := Denotes(user.lines);
    NothingManaged(user.lines);
    NothingKept(user.lines);
    r := user;
    for n := 0 to |installs|
      invariant n == 0 ==> r == user
      invariant n > 0 ==> Denotes(Unmanaged(r.lines)) == Own(m) && PreviousTop(r.lines) == ManagedTop(m)
      invariant n > 0 ==> PreviousFeature(r.lines) == Visible(ManagedFeature(m))
      invariant n > 0 ==> Header(FEATURES) in Unmanaged(r.lines)
    {
      KeptFirst(user.lines);
      if n > 0 { KeptAgain(r.lines, m); }
      r := InstallCodexConfig(r, None, installs[n]);
    }
    r := RestoreCodexConfig(r, None);
    RoundTrip(m);
  }

  /** A file without managed blocks keeps nothing. */
  lemma NothingKept(user: seq<Line>)
    requires ManagedBegin !in user
    ensures PreviousTop(user) == map[] && PreviousFeature(user) == map[]
  {
    PreviousNone(false);
    PreviousNone(true);
    PreviousOutside([], user, false);
    PreviousOutside([], user, true);
    assert [] + user == user;
  }

  lemma {:induction false} KeptFirst(user: seq<Line>)
    requires ManagedBegin !in user
    ensures KeptTop(user, None) == ManagedTop(Denotes(user))
    ensures KeptFeatures(user, None) == ManagedFeature(Denotes(user))
  {
    hide Denotes, Unmanaged, PreviousTop, PreviousFeature;
    NothingManaged(user);
    NothingKept(user);
    var m := Denotes(user);
    assert ManagedFeature(WithoutSection(Without(m, None, MANAGED_TOP_LEVEL_KEYS), LEGACY_SECTION))
           == ManagedFeature(m);
  }

  /** A place of which the shim takes no part. */
  predicate IsOwn(p: Place) {
    && p.section != Some(LEGACY_SECTION)
    && !(p.section == None && p.key in MANAGED_TOP_LEVEL_KEYS)
    && !(p.section == Some(FEATURES) && p.key in MANAGED_FEATURE_KEYS)
  }

  predicate OnlyOwn(m: map<Place, string>) {
    forall p :: p in m ==> IsOwn(p)
  }

  lemma OwnAt(m: map<Place, string>)
    ensures forall p :: p in Own(m) <==> p in m && IsOwn(p)
    ensures forall p :: p in Own(m) ==> Own(m)[p] == m[p]
  {
    hide Without, WithoutSection;
    WithoutSectionAt(m, LEGACY_SECTION);
    WithoutAt(WithoutSection(m, LEGACY_SECTION), None, MANAGED_TOP_LEVEL_KEYS);
    WithoutAt(Without(WithoutSection(m, LEGACY_SECTION), None, MANAGED_TOP_LEVEL_KEYS), Some(FEATURES),
              MANAGED_FEATURE_KEYS);
  }

  /** The own assignments have nothing more to remove. */
  lemma OwnIsOwn(m: map<Place, string>)
    requires forall p :: p in m ==> IsOwn(p)
    ensures Own(m) == m && WithoutSection(m, LEGACY_SECTION) == m
    ensures WithoutSection(Without(m, None, MANAGED_TOP_LEVEL_KEYS), LEGACY_SECTION) == m
    ensures ManagedTop(m) == map[] && ManagedFeature(m) == map[]
  {
    hide Without, WithoutSection, ValuesAt, Own;
    OwnAt(m);
    assert Own(m) == m;
    WithoutSectionAt(m, LEGACY_SECTION);
    assert WithoutSection(m, LEGACY_SECTION) == m;
    WithoutAt(m, None, MANAGED_TOP_LEVEL_KEYS);
    assert Without(m, None, MANAGED_TOP_LEVEL_KEYS) == m;
    ValuesOf(m, None, MANAGED_TOP_LEVEL_KEYS);
    ValuesOf(m, Some(FEATURES), MANAGED_FEATURE_KEYS);
  }

  /** Installing over an installation keeps what the first one kept. */
  lemma {:induction false} KeptAgain(r: seq<Line>, m: map<Place, string>)
    requires Denotes(Unmanaged(r)) == Own(m) && PreviousTop(r) == ManagedTop(m)
             && PreviousFeature(r) == Visible(ManagedFeature(m))
    ensures KeptTop(r, None) == ManagedTop(m)
    ensures Visible(KeptFeatures(r, None)) == Visible(ManagedFeature(m))
    ensures Own(Own(m)) == Own(m)
  {
    hide Denotes, Unmanaged, PreviousTop, PreviousFeature, Own, Without, WithoutSection, ValuesAt;
    OwnAt(m);
    OwnIsOwn(Own(m));
    assert Visible(Visible(ManagedFeature(m))) == Visible(ManagedFeature(m));
  }

  /** What a restored file denotes at each place, when its own assignments touch no managed key. */
  lemma {:induction false} RestoredAt(own: map<Place, string>, top: map<string, string>, features: map<string, string>)
    requires forall p :: p in own ==> IsOwn(p)
    requires top.Keys <= MANAGED_TOP_LEVEL_KEYS
    ensures var r := Restored(own, top, features);
            && (forall p :: IsOwn(p) ==> (p in r <==> p in own) && (p in own ==> r[p] == own[p]))
            && (forall p :: p in r ==> IsOwn(p) || p.section == None || p.section == Some(FEATURES))
            && (forall k :: k in MANAGED_TOP_LEVEL_KEYS ==>
                  (Place(None, k) in r <==> k in top) && (k in top ==> r[Place(None, k)] == StoredRhs(k, top[k])))
            && (forall k :: k in MANAGED_FEATURE_KEYS ==>
                  var p := Place(Some(FEATURES), k);
                  (p in r <==> k in features && features[k] != "") && (p in r ==> r[p] == StoredRhs(k, features[k])))
  {
    hide Placed, WithoutSection, StoredRhs;
    WithoutSectionAt(own, LEGACY_SECTION);
    var base := WithoutSection(own, LEGACY_SECTION);
    PlacedAt(None, MissingTop(base, top));
    PlacedAt(Some(FEATURES), RestoredFeatures(features));
  }

  /** Putting the kept values back beside assignments that are the user's own: they come back as they were
      exactly when they are restorable. */
  lemma {:induction false} BesideOwn(own: map<Place, string>, m: map<Place, string>)
    requires OnlyOwn(own)
    ensures (Restored(own, ManagedTop(m), Visible(ManagedFeature(m)))
             == own + Placed(None, ManagedTop(m)) + Placed(Some(FEATURES), ManagedFeature(m))) <==> ComesBack(m)
  {
    hide Restored, ValuesAt, StoredRhs, Strip, Placed, Restorable;
    var top, features := ManagedTop(m), ManagedFeature(m);
    var r, wanted := Restored(own, top, Visible(features)), own + Placed(None, top) + Placed(Some(FEATURES), features);
    ValuesKeys(m);
    RestoredAt(own, top, Visible(features));
    PlacedAt(None, top);
    PlacedAt(Some(FEATURES), features);
    ValuesOf(m, None, MANAGED_TOP_LEVEL_KEYS);
    ValuesOf(m, Some(FEATURES), MANAGED_FEATURE_KEYS);
    NothingVisible();
    forall k, v ensures StoredRhs(k, v) == v <==> Restorable(k, v) { RestorableMeans(k, v); }
    forall k | k in top ensures r[Place(None, k)] == StoredRhs(k, top[k]) && wanted[Place(None, k)] == top[k] { }
    if ComesBack(m) {
      forall p ensures (p in r <==> p in wanted) && (p in wanted ==> r[p] == wanted[p]) {
        if !IsOwn(p) && p.section == None {
          assert p == Place(None, p.key);
        } else if !IsOwn(p) && p.section == Some(FEATURES) {
          assert p == Place(Some(FEATURES), p.key);
        }
      }
    } else if k :| k in top && !Restorable(k, m[Place(None, k)]) {
      assert r[Place(None, k)] != wanted[Place(None, k)];
    } else {
      var k :| k in features && !(Strip(features[k]) != "" && Restorable(k, features[k]));
      var p := Place(Some(FEATURES), k);
      assert p in wanted && (p !in r || r[p] != wanted[p]);
    }
  }

  /** Putting the kept values back into the own assignments. */
  lemma {:induction false} RoundTrip(m: map<Place, string>)
    requires forall p :: p in m ==> p.section != Some(LEGACY_SECTION)
    ensures Restored(Own(m), ManagedTop(m), Visible(ManagedFeature(m))) == m <==> ComesBack(m)
  {
    hide Own, Restored, ManagedTop, ManagedFeature, Placed, ComesBack;
    OwnAt(m);
    BesideOwn(Own(m), m);
    OwnAndManaged(m);
  }

  /** The own and the managed assignments are all. */
  lemma {:induction false} OwnAndManaged(m: map<Place, string>)
    requires forall p :: p in m ==> p.section != Some(LEGACY_SECTION)
    ensures Own(m) + Placed(None, ManagedTop(m)) + Placed(Some(FEATURES), ManagedFeature(m)) == m
  {
    hide Own, ValuesAt, Placed;
    OwnAt(m);
    ValuesOf(m, None, MANAGED_TOP_LEVEL_KEYS);
    ValuesOf(m, Some(FEATURES), MANAGED_FEATURE_KEYS);
    PlacedAt(None, ManagedTop(m));
    PlacedAt(Some(FEATURES), ManagedFeature(m));
    var all := Own(m) + Placed(None, ManagedTop(m)) + Placed(Some(FEATURES), ManagedFeature(m));
    forall p ensures (p in all <==> p in m) && (p in m ==> all[p] == m[p]) {
      if !IsOwn(p) && p.section == None {
        assert p == Place(None, p.key);
      } else if !IsOwn(p) && p.section == Some(FEATURES) {
        assert p == Place(Some(FEATURES), p.key);
      }
    }
  }

  lemma NothingVisible()
    ensures Strip("") == ""
  {
  }

  /** A value that repeats its own key, and a blank feature value, do not come back. */
  lemma {:induction false} LostValues()
    ensures !ComesBack(Denotes([Assign("model", "model = x")]))
    ensures !ComesBack(Denotes([Header(FEATURES), Assign(TOOL_SEARCH_KEY, "")]))
  {
    var one := [Assign("model", "model = x")];
    NoLines();
    LinesSnoc([], one[0]);
    assert [] + [one[0]] == one;
    var m := Denotes(one);
    assert m[Place(None, "model")] == "model = x" && "model" in ManagedTop(m);
    SplitsAtEquals();
    var two := [Header(FEATURES), Assign(TOOL_SEARCH_KEY, "")];
    LinesSnoc([], two[0]);
    LinesSnoc([] + [two[0]], two[1]);
    assert [] + [two[0]] + [two[1]] == two;
    assert TOOL_SEARCH_KEY in MANAGED_FEATURE_KEYS && Denotes(two)[FLAG] == "";
    assert TOOL_SEARCH_KEY in ManagedFeature(Denotes(two));
    NothingVisible();
  }

  lemma SplitsAtEquals()
    ensures RepeatsKey("model", "model = x")
  {
    var s := "model = x";
    assert EqualsAt(s) == 6 by {
      assert s[1..] == "odel = x" && s[2..] == "del = x" && s[3..] == "el = x" && s[4..] == "l = x";
      assert s[5..] == " = x" && s[6..] == "= x";
      assert EqualsAt("= x") == 0;
      assert EqualsAt(" = x") == 1 by { assert " = x"[1..] == "= x"; }
      assert EqualsAt("l = x") == 2 by { assert "l = x"[1..] == " = x"; }
      assert EqualsAt("el = x") == 3 by { assert "el = x"[1..] == "l = x"; }
      assert EqualsAt("del = x") == 4 by { assert "del = x"[1..] == "el = x"; }
      assert EqualsAt("odel = x") == 5 by { assert "odel = x"[1..] == "del = x"; }
    }
    assert s[..6] == "model ";
    assert RightStrip("model ") == "model" by { assert "model "[..5] == "model"; }
    assert Strip("model ") == "model";
  }

  lemma RightStripShorter(s: string)
    ensures |RightStrip(s)| <= |s|
  {
  }

  lemma LeftStripShorter(s: string)
    ensures |LeftStrip(s)| <= |s|
  {
  }

  // ---- Installing, editing, restoring ----

  /** An installation, or an edit that replaces `length` lines from the line `at` on and says how the text ends. */
  datatype Change = Install(values: ShimValues) | Edit(at: nat, length: nat, lines: seq<Line>, newline: bool)

  predicate NoMarkers(lines: seq<Line>) {
    ManagedBegin !in lines && ManagedEnd !in lines
  }

  /** The edit is made outside of the managed blocks. */
  predicate CanEdit(file: Text, change: Change)
    requires change.Edit?
  {
    var at, length := change.at, change.length;
    && at + length <= |file.lines| && !InManaged(file.lines[..at])
    && NoMarkers(file.lines[at..at + length]) && NoMarkers(change.lines)
    && IsText(RawText(file.lines[..at] + change.lines + file.lines[at + length..], change.newline))
  }

  /** What a change does. An installation leaves the own assignments outside of the blocks, and keeps in them what it
      finds there or else what they kept; an edit replaces its lines, and the blocks keep what they kept. */
  ghost predicate Changed(file: Text, change: Change, after: Text) {
    match change
    case Install(v) =>
      var own := Own(Denotes(Unmanaged(file.lines)));
      && Denotes(Unmanaged(after.lines)) == own
      && Denotes(after.lines) == (own + Placed(None, ShimAssignments(v)))[FLAG := "true"]
      && PreviousTop(after.lines) == KeptTop(file.lines, None)
      && PreviousFeature(after.lines) == Visible(KeptFeatures(file.lines, None))
    case Edit(at, length, lines, newline) =>
      if !CanEdit(file, change) then after == file
      else
        var x, was, y := file.lines[..at], file.lines[at..at + length], file.lines[at + length..];
        && after == RawText(x + lines + y, newline)
        && Unmanaged(file.lines) == Unmanaged(x) + was + Unmanaged(y)
        && Unmanaged(after.lines) == Unmanaged(x) + lines + Unmanaged(y)
        && PreviousTop(after.lines) == PreviousTop(file.lines)
        && PreviousFeature(after.lines) == PreviousFeature(file.lines)
  }

  method MakeEdit(file: Text, change: Change) returns (r: Text)
    requires change.Edit?
    ensures Changed(file, change, r)
  {
    hide Denotes, Unmanaged, PreviousTop, PreviousFeature, InManaged;
    if !CanEdit(file, change) { return file; }
    var at, length := change.at, change.length;
    var x, was, y := file.lines[..at], file.lines[at..at + length], file.lines[at + length..];
    assert file.lines == x + was + y;
    EditOutside(x, was, change.lines, y);
    r := RawText(x + change.lines + y, change.newline);
  }

  /** No managed key is assigned outside of the blocks. */
  ghost predicate Plain(file: Text) {
    OnlyOwn(Denotes(Unmanaged(file.lines)))
  }

  /** The blocks keep the managed values of the user's first file. */
  ghost predicate Keeps(file: Text, m: map<Place, string>) {
    PreviousTop(file.lines) == ManagedTop(m) && PreviousFeature(file.lines) == Visible(ManagedFeature(m))
  }

  /** As long as no managed key is assigned outside of the blocks, they keep what they kept. */
  lemma {:induction false} ChangeKeeps(file: Text, change: Change, after: Text, m: map<Place, string>)
    requires Changed(file, change, after) && Plain(file) && Keeps(file, m)
    ensures Keeps(after, m)
  {
    hide Denotes, Unmanaged, PreviousTop, PreviousFeature, Own, Without, WithoutSection, ValuesAt, CanEdit, Placed,
         ShimAssignments;
    OwnIsOwn(Denotes(Unmanaged(file.lines)));
    assert Visible(Visible(ManagedFeature(m))) == Visible(ManagedFeature(m));
  }

  /** Installations and edits outside of the blocks, in any order after a first installation, and then a restore. What
      the blocks keep is put back into what the last file denotes outside of them, exactly unless the features header
      is glued to the last line. If none of the edits assigned a managed key, this gives the edited assignments and
      the managed ones as before the first installation, exactly when those are restorable as well. */
  method InstallEditRestore(user: Text, first: ShimValues, changes: seq<Change>) returns (files: seq<Text>, r: Text)
    requires ManagedBegin !in user.lines
    ensures |files| == |changes| + 1 && Changed(user, Install(first), files[0])
    ensures forall n :: 0 <= n < |changes| ==> Changed(files[n], changes[n], files[n + 1])
    ensures var last := files[|changes|];
            var top, features := PreviousTop(last.lines), PreviousFeature(last.lines);
            Denotes(r.lines) == Restored(Denotes(Unmanaged(last.lines)), top, features)
            <==> !Glues(last, top, features)
    ensures (forall n :: 0 <= n <= |changes| ==> Plain(files[n])) ==>
              var m, last := Denotes(user.lines), files[|changes|];
              Denotes(r.lines) == Denotes(Unmanaged(last.lines)) + Placed(None, ManagedTop(m))
                                  + Placed(Some(FEATURES), ManagedFeature(m))
              <==> ComesBack(m) && !Glues(last, ManagedTop(m), Visible(ManagedFeature(m)))
  {
    hide Denotes, Unmanaged, PreviousTop, PreviousFeature, KeptTop, KeptFeatures, Own, Restored, ComesBack, ManagedTop,
         ManagedFeature, Visible, Placed, ShimAssignments, CanEdit, RestoreBase, TopRestored, GluedText, FeatureLine,
         GluesHeader, RestoredFeatures;
    ghost var m := Denotes(user.lines);
    NothingManaged(user.lines);
    NothingKept(user.lines);
    KeptFirst(user.lines);
    var file := InstallCodexConfig(user, None, first);
    files := [file];
    for n := 0 to |changes|
      invariant |files| == n + 1 && files[n] == file && Changed(user, Install(first), files[0])
      invariant (forall i :: 0 <= i <= n ==> Plain(files[i])) ==> Keeps(file, m)
      invariant forall i :: 0 <= i < n ==> Changed(files[i], changes[i], files[i + 1])
    {
      match changes[n] {
        case Install(v) =>
          file := InstallCodexConfig(file, None, v);
        case Edit(_, _, _, _) =>
          file := MakeEdit(file, changes[n]);
      }
      if forall i :: 0 <= i <= n ==> Plain(files[i]) { ChangeKeeps(files[n], changes[n], file, m); }
      ghost var shorter := files;
      files := files + [file];
      assert forall i :: 0 <= i <= n ==> files[i] == shorter[i];
    }
    r := RestoreCodexConfig(file, None);
    if forall n :: 0 <= n <= |changes| ==> Plain(files[n]) {
      assert Plain(files[|changes|]);
      PlainRestored(file, m);
    }
  }

  /** Restoring a file whose blocks keep the user's values gives them back exactly when they are restorable. */
  lemma {:induction false} PlainRestored(file: Text, m: map<Place, string>)
    requires Plain(file) && Keeps(file, m)
    ensures var own, top, features := Denotes(Unmanaged(file.lines)), ManagedTop(m), ManagedFeature(m);
            var wanted := own + Placed(None, top) + Placed(Some(FEATURES), features);
            && (Restored(own, top, Visible(features)) == wanted <==> ComesBack(m))
            && (Glues(file, top, Visible(features)) ==> FLAG in wanted)
  {
    hide Denotes, Unmanaged, PreviousTop, PreviousFeature, Restored, ValuesAt, Placed, RestoreBase, StoredRhs,
         RestoredFeatures, ComesBack;
    var own, features := Denotes(Unmanaged(file.lines)), ManagedFeature(m);
    BesideOwn(own, m);
    OneFeature(Visible(features), own);
    PlacedAt(Some(FEATURES), features);
  }

  /** What the user assigned to a top-level key outside of the blocks stays on a restore, and a kept feature value
      that is not blank replaces what the user assigned; every other assignment stays. */
  lemma {:induction false} RestoreMeetsEdits(own: map<Place, string>, top: map<string, string>,
                                             features: map<string, string>)
    ensures var base, r := WithoutSection(own, LEGACY_SECTION), Restored(own, top, features);
            && (forall k :: Place(None, k) in base ==> Place(None, k) in r && r[Place(None, k)] == base[Place(None, k)])
            && (forall k :: k in MANAGED_FEATURE_KEYS && k in features && features[k] != "" ==>
                  var p := Place(Some(FEATURES), k); p in r && r[p] == StoredRhs(k, features[k]))
            && (forall p :: p in base && !(p.section == Some(FEATURES) && p.key in features && features[p.key] != "")
                  ==> p in r && r[p] == base[p])
  {
    hide Placed, WithoutSection, StoredRhs;
    var base := WithoutSection(own, LEGACY_SECTION);
    PlacedAt(None, MissingTop(base, top));
    PlacedAt(Some(FEATURES), RestoredFeatures(features));
  }

  /** An installation goes on keeping every value that was kept exactly unless a managed key has been assigned outside
      of the blocks, but not all the kept ones: then the others are forgotten. */
  lemma {:induction false} InstallForgets(file: seq<Line>)
    ensures var now, kept := ManagedTop(Denotes(Unmanaged(file))), PreviousTop(file);
            (forall k :: k in kept ==> k in KeptTop(file, None)) <==> now == map[] || kept.Keys <= now.Keys
  {
    hide Denotes, Unmanaged, PreviousTop, ManagedTop;
  }

  const KEPT_FALSE := map[TOOL_SEARCH_KEY := "false"]

  /** The shim's blocks around some lines, with the tool search key kept as `false`. */
  function BlocksAround(v: ShimValues, lines: seq<Line>): Text {
    RawText(ManagedBlock(v, map[], KEPT_FALSE) + [Blank] + (lines + FEATURE_BLOCK + []), true)
  }

  /** A file as an installation leaves it over `foo = 1` and a features section that assigned `false` to the tool
      search key; the line with the header is deleted, and the file restored: the header comes back behind the other
      assignment, which has another value then, and the kept feature value is not in its section. */
  method GluedHeaderExample(v: ShimValues) returns (r: Text)
    ensures r == RawText([Assign("foo", "1[features]"), Assign(TOOL_SEARCH_KEY, "false")], true)
    ensures FLAG !in Denotes(r.lines)
    ensures PreviousFeature(BlocksAround(v, [Assign("foo", "1")] + [Header(FEATURES)]).lines) == KEPT_FALSE
  {
    hide Denotes, Unmanaged, InManaged, PreviousTop, PreviousFeature, Restored, ManagedBlock, RestoreBase, TopRestored,
         GluedText, BlocksAround, CanEdit, Glues, GluesHeader, FeatureLine, RestoredFeatures, StoredRhs;
    var foo, header := [Assign("foo", "1")], [Header(FEATURES)];
    var at := |ManagedBlock(v, map[], KEPT_FALSE)| + 2;
    HeaderDeleted(v, foo, header);
    KeptFalse(v, foo + header);
    KeptFalse(v, foo);
    BaseOfEdited(v);
    var file := MakeEdit(BlocksAround(v, foo + header), Edit(at, 1, [], true));
    assert file == BlocksAround(v, foo);
    r := RestoreCodexConfig(file, None);
  }

  /** The edit is possible and deletes just the header. */
  lemma HeaderDeleted(v: ShimValues, foo: seq<Line>, header: seq<Line>)
    requires foo == [Assign("foo", "1")] && header == [Header(FEATURES)]
    ensures var at, file := |ManagedBlock(v, map[], KEPT_FALSE)| + 2, BlocksAround(v, foo + header);
            && CanEdit(file, Edit(at, 1, [], true))
            && RawText(file.lines[..at] + [] + file.lines[at + 1..], true) == BlocksAround(v, foo)
  {
    hide ManagedBlock, InManaged;
    var block, file := ManagedBlock(v, map[], KEPT_FALSE), BlocksAround(v, foo + header);
    var at := |block| + 2;
    BlockPrevious(v, map[], KEPT_FALSE);
    NoneManaged([Blank] + foo);
    InManagedConcat(block, [Blank] + foo);
    assert file.lines[..at] == block + ([Blank] + foo);
    assert file.lines[at..at + 1] == header;
    assert file.lines[at + 1..] == FEATURE_BLOCK;
    assert file.lines[..at] + [] + file.lines[at + 1..] == BlocksAround(v, foo).lines;
    assert BlocksAround(v, foo).lines != [];
  }

  lemma KeptFalse(v: ShimValues, lines: seq<Line>)
    requires ManagedBegin !in lines
    ensures var r := BlocksAround(v, lines).lines; PreviousTop(r) == map[] && PreviousFeature(r) == KEPT_FALSE
  {
    hide PreviousTop, PreviousFeature, ManagedBlock;
    assert TOOL_SEARCH_KEY in MANAGED_FEATURE_KEYS;
    InstalledPrevious(v, map[], KEPT_FALSE, lines, []);
    PlainFalse();
    assert Visible(KEPT_FALSE) == KEPT_FALSE;
  }

  lemma PlainFalse()
    ensures Strip("false") == "false" && StoredRhs(TOOL_SEARCH_KEY, "false") == "false"
  {
    assert RightStrip("false") == "false" && LeftStrip("false") == "false";
    assert EqualsAt("false") == 5 by {
      assert "false"[1..] == "alse" && "alse"[1..] == "lse" && "lse"[1..] == "se" && "se"[1..] == "e" && "e"[1..] == "";
      assert EqualsAt("e") == 1 && EqualsAt("se") == 2 && EqualsAt("lse") == 3 && EqualsAt("alse") == 4;
    }
  }

  /** What a restore makes of the edited file. */
  lemma BaseOfEdited(v: ShimValues)
    ensures var edited := BlocksAround(v, [Assign("foo", "1")]);
            var restored := TopRestored(RestoreBase(edited), map[]);
            && Glues(edited, map[], KEPT_FALSE) && GluesHeader(restored, FEATURES)
            && GluedText(restored, FEATURES, FeatureLine(KEPT_FALSE))
               == RawText([Assign("foo", "1[features]"), Assign(TOOL_SEARCH_KEY, "false")], true)
  {
    hide Unmanaged, InManaged, ManagedBlock, RestoreBase, TopRestored, StoredRhs, Denotes, RestoredFeatures;
    EditedBase(v);
    var base := RestoreBase(BlocksAround(v, [Assign("foo", "1")]));
    assert base.lines[..1] == [Assign("foo", "1")];
    assert TrimBlanks([Assign("foo", "1"), Blank]) == [Assign("foo", "1")];
    PlainFalse();
    OneFeature(KEPT_FALSE, map[]);
    assert Glued(Assign("foo", "1"), FEATURES) == Assign("foo", "1[features]");
  }

  lemma EditedBase(v: ShimValues)
    ensures var edited := BlocksAround(v, [Assign("foo", "1")]);
            && RestoreBase(edited) == RawText([Assign("foo", "1"), Blank], true)
            && TopRestored(RestoreBase(edited), map[]) == RestoreBase(edited)
            && Header(FEATURES) !in Unmanaged(edited.lines)
  {
    hide Unmanaged, InManaged, Denotes, BlocksAround;
    var edited := BlocksAround(v, [Assign("foo", "1")]);
    EditedUnmanaged(v);
    var left := [Blank, Blank, Assign("foo", "1"), Blank];
    NoSuchSection(left, LEGACY_SECTION);
    assert DropBlanks(left) == left[2..] by {
      assert left[1..] == [Blank, Assign("foo", "1"), Blank] && left[1..][1..] == left[2..];
    }
    assert left[2..] == [Assign("foo", "1"), Blank];
    TopLinesDenote(RESTORE_ORDER, map[], ManagedTop(Denotes(left[2..])));
  }

  lemma EditedUnmanaged(v: ShimValues)
    ensures var edited, left := BlocksAround(v, [Assign("foo", "1")]), [Blank, Blank, Assign("foo", "1"), Blank];
            Unmanaged(edited.lines) == left && UnmanagedText(edited) == RawText(left, true)
  {
    hide Unmanaged, InManaged, BlockBody;
    var foo := [Assign("foo", "1")];
    var edited := BlocksAround(v, foo);
    var inner, flag := BlockBody(v, map[], KEPT_FALSE), [Assign(TOOL_SEARCH_KEY, "true")];
    var rest := [Blank] + foo + [ManagedBegin] + flag + [ManagedEnd] + [];
    BlockRemoved([Blank] + foo, flag, []);
    NothingManaged([]);
    BodyHasNoEnd(v, map[], KEPT_FALSE);
    BlockRemoved([], inner, rest);
    assert edited.lines == [] + [ManagedBegin] + inner + [ManagedEnd] + rest;
    var before := [ManagedBegin] + inner + [ManagedEnd] + [Blank] + foo + [ManagedBegin] + flag;
    AfterEnd(before, []);
    assert edited.lines == before + [ManagedEnd] + [];
    NoneManaged([]);
  }

  lemma BodyHasNoEnd(v: ShimValues, top: map<string, string>, features: map<string, string>)
    ensures ManagedEnd !in BlockBody(v, top, features)
  {
  }
}
