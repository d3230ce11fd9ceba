/** Responses input items and the rewriting of their ids (codex_shim/tool_translate.py,
    codex_shim/responses_input_pipeline.py). */
module InputItems {
  import opened Common
  import ToolIds

  /** A field of a JSON object as Python reads it; `text` is its `str()`. */
  datatype Value = Absent | Null | Str(text: string) | Other(text: string, truthy: bool)
  {
    predicate Truthy() {
      (Str? && text != "") || (Other? && truthy)
    }

    /** `"" if value is None else str(value)`. */
    function Text(): string {
      if Str? || Other? then text else ""
    }
  }

  datatype Kind = FunctionCall | CustomToolCall | FunctionCallOutput | CustomToolCallOutput | OtherKind(name: string)

  /** An input item: an object with its two ids and its other fields, or a value that is no object. */
  datatype Item =
    | Loose(json: string)
    | Obj(kind: Kind, id: Value, callId: Value, fields: map<string, string>)

  predicate IsCall(item: Item) {
    item.Obj? && (item.kind.FunctionCall? || item.kind.CustomToolCall?)
  }

  predicate IsOutput(item: Item) {
    item.Obj? && (item.kind.FunctionCallOutput? || item.kind.CustomToolCallOutput?)
  }

  /** `_tool_item_call_id`. */
  function Key(item: Item): Option<string> {
    if item.Obj? && item.callId.Str? && item.callId.text != "" then Some(item.callId.text) else None
  }

  function KeySet(item: Item): set<string> {
    match Key(item)
    case None => {}
    case Some(key) => {key}
  }

  /** The call ids of the tool calls. */
  function CallKeys(items: seq<Item>): set<string> {
    if items == [] then {}
    else
      var last := items[|items| - 1];
      CallKeys(items[..|items| - 1]) + (if IsCall(last) then KeySet(last) else {})
  }

  /** The call ids of the tool outputs. */
  function OutputKeys(items: seq<Item>): set<string> {
    if items == [] then {}
    else
      var last := items[|items| - 1];
      OutputKeys(items[..|items| - 1]) + (if IsOutput(last) then KeySet(last) else {})
  }

  lemma KeysSnoc(items: seq<Item>, item: Item)
    ensures CallKeys(items + [item]) == CallKeys(items) + (if IsCall(item) then KeySet(item) else {})
    ensures OutputKeys(items + [item]) == OutputKeys(items) + (if IsOutput(item) then KeySet(item) else {})
  {
    assert (items + [item])[..|items|] == items;
  }

  // ---- Canonical call ids ----

  function Canonical(v: Value): Value {
    if v.Str? && Strip(v.text) != "" then Str(ToolIds.CallId(v.text)) else v
  }

  /** `apply_function_call_ids`. */
  function ApplyFunctionCallIds(item: Item): Item {
    if !(item.Obj? && item.kind.FunctionCall?) then item
    else
      var raw := if item.callId.Truthy() then item.callId else item.id;
      var (itemId, callId) := ToolIds.FunctionCallIds(raw.Text());
      item.(id := Str(itemId), callId := Str(callId))
  }

  /** `strip_function_call_output_item_id`. */
  function StripOutputItemId(item: Item): Item {
    if !IsOutput(item) then item
    else
      var leaked := item.id.Str? && ("call_" <= item.id.text || "fc_" <= item.id.text || item.id == item.callId);
      item.(callId := Canonical(item.callId), id := if leaked then Absent else item.id)
  }

  /** One step of `align_responses_tool_call_ids`. */
  function AlignItem(item: Item): Item {
    if item.Loose? then item
    else match item.kind
      case FunctionCall => ApplyFunctionCallIds(item)
      case FunctionCallOutput => StripOutputItemId(item)
      case CustomToolCallOutput => StripOutputItemId(item)
      case CustomToolCall => item.(callId := Canonical(item.callId))
      case OtherKind(_) => item
  }

  lemma CanonicalShows(raw: string)
    ensures "call_" <= ToolIds.CallId(raw) && Strip(ToolIds.CallId(raw)) == ToolIds.CallId(raw) != ""
  {
    ToolIds.SuffixOfPrefixed("call_", raw);
  }

  lemma BlankHasNoText(s: string)
    requires s == ""
    ensures Strip(s) == ""
  {
  }

  /** Aligning an aligned item changes nothing. */
  lemma AlignIsStable(item: Item)
    ensures AlignItem(AlignItem(item)) == AlignItem(item)
  {
    if item.Obj? {
      BlankHasNoText("");
      if item.kind.FunctionCall? {
        var raw := (if item.callId.Truthy() then item.callId else item.id).Text();
        CanonicalShows(raw);
        ToolIds.CanonicalIsFixed(raw);
      } else if item.callId.Str? {
        CanonicalShows(item.callId.text);
        ToolIds.CanonicalIsFixed(item.callId.text);
      }
    }
  }

  /** A call and an output with the same call id still have the same call id after aligning, except
      that a blank call id is replaced on a function call only. */
  lemma AlignKeepsPairs(call: Item, output: Item)
    requires IsCall(call) && IsOutput(output) && call.callId == output.callId && call.callId.Str?
             && call.callId.text != ""
    ensures AlignItem(call).callId == AlignItem(output).callId <==>
            Strip(call.callId.text) != "" || call.kind.CustomToolCall?
    ensures Strip(call.callId.text) != "" ==> AlignItem(call).callId == Str(ToolIds.CallId(call.callId.text))
  {
    var raw := call.callId.text;
    if Strip(raw) == "" {
      CanonicalShows(raw);
      assert Strip(AlignItem(output).callId.text) == "";
    }
  }

  /** A function call and its output with the blank call id " " do not pair any more after aligning. */
  lemma {:induction false} BlankIdExample()
    ensures var call := Obj(FunctionCall, Absent, Str(" "), map[]);
            var output := Obj(FunctionCallOutput, Absent, Str(" "), map[]);
            Key(call) == Key(output) != None && AlignItem(call).callId != AlignItem(output).callId
  {
    var call := Obj(FunctionCall, Absent, Str(" "), map[]);
    var output := Obj(FunctionCallOutput, Absent, Str(" "), map[]);
    assert " "[1..] == "";
    assert LeftStrip(" ") == LeftStrip("") == "";
    assert Strip(" ") == "";
    AlignKeepsPairs(call, output);
  }

  /** Calls and outputs that shared a visible call id share the aligned one. */
  lemma AlignKeepsSharing(a: Item, b: Item)
    requires (IsCall(a) || IsOutput(a)) && (IsCall(b) || IsOutput(b))
    requires a.callId == b.callId && a.callId.Str? && Strip(a.callId.text) != ""
    ensures AlignItem(a).callId == AlignItem(b).callId == Str(ToolIds.CallId(a.callId.text))
  {
    BlankHasNoText("");
  }

  // ---- Ids that a server would look up ----

  predicate IsLowerHex(c: char) {
    '0' <= c <= '9' || 'a' <= c <= 'f'
  }

  /** `is_persisted_response_item_id`: lower-case letters and digits, an underscore, and at least 32
      hexadecimal digits. */
  predicate IsPersistedId(s: string) {
    exists k :: 1 <= k < |s| - 32 && s[k] == '_' && 'a' <= s[0] <= 'z'
      && (forall j :: 1 <= j < k ==> 'a' <= s[j] <= 'z' || '0' <= s[j] <= '9')
      && (forall j :: k < j < |s| ==> IsLowerHex(s[j]))
  }

  /** An id with one underscore is persisted exactly when at least 32 hexadecimal digits follow it. */
  lemma PersistedMeans(prefix: string, rest: string)
    requires prefix != "" && 'a' <= prefix[0] <= 'z' && '_' !in rest
    requires forall j :: 0 <= j < |prefix| ==> 'a' <= prefix[j] <= 'z' || '0' <= prefix[j] <= '9'
    ensures IsPersistedId(prefix + "_" + rest) <==> |rest| >= 32 && forall j :: 0 <= j < |rest| ==> IsLowerHex(rest[j])
  {
    var s, k := prefix + "_" + rest, |prefix|;
    assert s[k] == '_' && s[0] == prefix[0];
    forall j | 0 <= j < |rest| ensures s[k + 1 + j] == rest[j] && s[k + 1 + j] != '_' {
      assert rest[j] in rest;
    }
    assert forall j :: k < j < |s| ==> s[j] == rest[j - k - 1];
    assert forall j :: 0 <= j < k ==> s[j] == prefix[j] != '_';
    if |rest| >= 32 && forall j :: 0 <= j < |rest| ==> IsLowerHex(rest[j]) {
      assert 1 <= k < |s| - 32;
    }
    if IsPersistedId(s) {
      var m :| 1 <= m < |s| - 32 && s[m] == '_' && forall j :: m < j < |s| ==> IsLowerHex(s[j]);
      assert m == k;
    }
  }

  function ToolCallIdPrefix(kind: Kind): Option<string> {
    match kind
    case FunctionCall => Some("fc")
    case CustomToolCall => Some("ctc")
    case _ => None
  }

  predicate MustClear(item: Item, dropAll: bool) {
    item.Obj? && item.id.Str? && item.id.text != "" && (dropAll || IsPersistedId(item.id.text))
  }

  /** One step of `clear_persisted_lookup_ids`; `uuid` is the text of a random UUID. */
  function ClearItem(item: Item, dropAll: bool, uuid: string): Item {
    if !MustClear(item, dropAll) then item
    else match ToolCallIdPrefix(item.kind)
      case Some(prefix) => item.(id := Str(prefix + "_" + uuid))
      case None => item.(id := Absent)
  }

  /** Clearing touches ids only, leaves no id in persisted form and, when dropping all, no id but a fresh one on a
      tool call; otherwise an id that is not in persisted form stays. */
  lemma ClearLeavesNoLookup(item: Item, dropAll: bool, uuid: string)
    requires '-' in uuid
    ensures var cleared := ClearItem(item, dropAll, uuid);
            && (item.Loose? ==> cleared == item)
            && (item.Obj? ==>
                  && cleared.Obj? && cleared == item.(id := cleared.id)
                  && (cleared.id.Str? ==> !IsPersistedId(cleared.id.text))
                  && (!dropAll && !(item.id.Str? && IsPersistedId(item.id.text)) ==> cleared == item)
                  && (dropAll && cleared.id.Str? && cleared.id.text != "" ==>
                        IsCall(item) && cleared.id.text == ToolCallIdPrefix(item.kind).value + "_" + uuid))
  {
    var cleared := ClearItem(item, dropAll, uuid);
    if MustClear(item, dropAll) && ToolCallIdPrefix(item.kind).Some? {
      var text := cleared.id.text;
      var prefix := ToolCallIdPrefix(item.kind).value;
      var n :| 0 <= n < |uuid| && uuid[n] == '-';
      assert text[|prefix| + 1 + n] == '-';
      assert text[|prefix|] == '_';
    } else if item.Obj? && item.id.Str? && item.id.text == "" {
      assert !IsPersistedId(item.id.text);
    }
  }

  // ---- The same item up to its ids ----

  /** What aligning and clearing leave of an item. */
  function Essence(item: Item): Item {
    var aligned := AlignItem(item);
    if aligned.Obj? then aligned.(id := Absent) else aligned
  }

  lemma {:induction false} EssenceOfAligned(item: Item)
    ensures Essence(AlignItem(item)) == Essence(item)
  {
    AlignIsStable(item);
  }

  /** The item that is sent for a given one, apart from its id: it is of the same kind and has the same fields; a
      function call has the canonical form of its call id or, without one, of its id; another call or an output
      that of its call id, if that is visible. */
  predicate SentAs(sent: Item, given: Item) {
    if given.Loose? then sent == given
    else
      && sent.Obj? && sent.kind == given.kind && sent.fields == given.fields
      && sent.callId ==
         if given.kind.FunctionCall? then
           Str(ToolIds.CallId(if given.callId.Truthy() then given.callId.Text() else given.id.Text()))
         else if (IsCall(given) || IsOutput(given)) && given.callId.Str? && Strip(given.callId.text) != "" then
           Str(ToolIds.CallId(given.callId.text))
         else given.callId
  }

  /** Aligning rewrites ids and nothing else: an output loses an id that is an item id of a call, a call id or its
      own call id, and only such an id; the id of a function call is an item id, and that of any other item stays. */
  lemma AlignTouchesIds(item: Item)
    ensures var aligned := AlignItem(item);
            && SentAs(aligned, item)
            && (item.Loose? ==> aligned == item)
            && (item.Obj? ==> aligned == item.(id := aligned.id, callId := aligned.callId))
            && (item.Obj? && item.kind.FunctionCall? ==> aligned.id.Str? && "fc_" <= aligned.id.text)
            && (IsOutput(item) ==>
                  && (aligned.id != item.id <==>
                        item.id.Str? && ("call_" <= item.id.text || "fc_" <= item.id.text || item.id == item.callId))
                  && (aligned.id != item.id ==> aligned.id == Absent))
            && (item.Obj? && !item.kind.FunctionCall? && !IsOutput(item) ==> aligned.id == item.id)
  {
  }

  /** Clearing the id of what is sent changes nothing about it. */
  lemma ClearedIsSent(sent: Item, given: Item, dropAll: bool, uuid: string)
    requires SentAs(sent, given)
    ensures SentAs(ClearItem(sent, dropAll, uuid), given)
  {
    hide IsPersistedId;
  }

  /** What is sent for an item that was sent for another one is what is sent for that one. */
  lemma SentAgain(sent: Item, kept: Item, given: Item)
    requires SentAs(sent, kept) && SentAs(kept, given)
    ensures SentAs(sent, given)
  {
    if given.Obj? && kept.callId.Str? && (kept.callId != given.callId || given.kind.FunctionCall?) {
      var raw := if given.kind.FunctionCall? && !given.callId.Truthy() then given.id.Text() else given.callId.Text();
      assert kept.callId == Str(ToolIds.CallId(raw));
      CanonicalShows(raw);
      ToolIds.CanonicalIsFixed(raw);
    }
  }

  /** Replacing the id of an aligned item leaves its essence. */
  lemma EssenceOfCleared(item: Item, dropAll: bool, uuid: string)
    ensures Essence(ClearItem(AlignItem(item), dropAll, uuid)) == Essence(item)
  {
    AlignIsStable(item);
    if item.Obj? && item.kind.FunctionCall? {
      CanonicalShows((if item.callId.Truthy() then item.callId else item.id).Text());
    }
  }
}
