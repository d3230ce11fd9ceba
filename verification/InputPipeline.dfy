/** Preparation of a Responses input list: aligning call ids, repairing orphan outputs and unanswered
    calls, and clearing ids (codex_shim/responses_input_pipeline.py). */
module InputPipeline {
  import opened Common
  import opened InputItems

  /** An item of a prepared list together with whether the preparation added it. */
  datatype Entry = Entry(item: Item, added: bool)

  function Items(es: seq<Entry>): (items: seq<Item>)
    ensures |items| == |es|
  {
    if es == [] then [] else Items(es[..|es| - 1]) + [es[|es| - 1].item]
  }

  /** The list without what was added. */
  function Given(es: seq<Entry>): seq<Item> {
    if es == [] then []
    else Given(es[..|es| - 1]) + (if es[|es| - 1].added then [] else [es[|es| - 1].item])
  }

  function Added(es: seq<Entry>): seq<Item> {
    if es == [] then []
    else Added(es[..|es| - 1]) + (if es[|es| - 1].added then [es[|es| - 1].item] else [])
  }

  /** The call ids of the added items, each as often as it was added. */
  function AddedKeys(es: seq<Entry>): multiset<string> {
    if es == [] then multiset{}
    else AddedKeys(es[..|es| - 1]) + (if es[|es| - 1].added then multiset(KeySet(es[|es| - 1].item)) else multiset{})
  }

  function Plain(items: seq<Item>): (es: seq<Entry>)
    ensures |es| == |items|
  {
    if items == [] then [] else Plain(items[..|items| - 1]) + [Entry(items[|items| - 1], false)]
  }

  lemma EntriesSnoc(es: seq<Entry>, e: Entry)
    ensures Items(es + [e]) == Items(es) + [e.item]
    ensures Given(es + [e]) == Given(es) + (if e.added then [] else [e.item])
    ensures Added(es + [e]) == Added(es) + (if e.added then [e.item] else [])
    ensures AddedKeys(es + [e]) == AddedKeys(es) + (if e.added then multiset(KeySet(e.item)) else multiset{})
    ensures CallKeys(Items(es + [e])) == CallKeys(Items(es)) + (if IsCall(e.item) then KeySet(e.item) else {})
    ensures OutputKeys(Items(es + [e])) == OutputKeys(Items(es)) + (if IsOutput(e.item) then KeySet(e.item) else {})
  {
    assert (es + [e])[..|es|] == es;
    KeysSnoc(Items(es), e.item);
  }

  lemma {:induction false} EntriesConcat(es: seq<Entry>, more: seq<Entry>)
    ensures Items(es + more) == Items(es) + Items(more) && Given(es + more) == Given(es) + Given(more)
    ensures Added(es + more) == Added(es) + Added(more) && AddedKeys(es + more) == AddedKeys(es) + AddedKeys(more)
    ensures CallKeys(Items(es + more)) == CallKeys(Items(es)) + CallKeys(Items(more))
    ensures OutputKeys(Items(es + more)) == OutputKeys(Items(es)) + OutputKeys(Items(more))
  {
    hide Items, Given, Added, AddedKeys, CallKeys, OutputKeys, KeySet, IsCall, IsOutput;
    if more == [] {
      NoEntries();
      assert es + more == es;
    } else {
      var rest, last := more[..|more| - 1], more[|more| - 1];
      EntriesConcat(es, rest);
      assert es + more == (es + rest) + [last] && more == rest + [last];
      EntriesSnoc(es + rest, last);
      EntriesSnoc(rest, last);
    }
  }

  lemma EntriesOne(e: Entry)
    ensures Items([e]) == [e.item] && Given([e]) == (if e.added then [] else [e.item])
    ensures AddedKeys([e]) == if e.added then multiset(KeySet(e.item)) else multiset{}
    ensures CallKeys(Items([e])) == CallKey(e.item) && OutputKeys(Items([e])) == OutputKey(e.item)
  {
    NoEntries();
    EntriesSnoc([], e);
    assert [] + [e] == [e];
  }

  lemma NoEntries()
    ensures Items([]) == Given([]) == Added([]) == [] && AddedKeys([]) == multiset{}
    ensures CallKeys(Items([])) == OutputKeys(Items([])) == {}
  {
  }

  lemma PlainSnoc(items: seq<Item>, item: Item)
    ensures Plain(items + [item]) == Plain(items) + [Entry(item, false)]
  {
    assert (items + [item])[..|items|] == items;
  }

  lemma PlainIsGiven(items: seq<Item>)
    ensures Items(Plain(items)) == Given(Plain(items)) == items
    ensures Added(Plain(items)) == [] && AddedKeys(Plain(items)) == multiset{}
  {
    if items != [] {
      var n := |items| - 1;
      PlainIsGiven(items[..n]);
      EntriesSnoc(Plain(items[..n]), Entry(items[n], false));
    }
  }

  // ---- Synthetic items ----

  const STALE_TOOL_OUTPUT_MESSAGE :=
    "This tool output is old and no longer available. "
    + "Do not assume a previous result is still valid; continue without it or retry the tool if still needed."

  /** `_synthetic_tool_call_item`. */
  function SyntheticCall(kind: Kind, key: string, name: Option<string>): Item {
    var resolved := name.GetOr("");
    if kind.CustomToolCallOutput? then
      Obj(CustomToolCall, Absent, Str(key), map["name" := OrElse(resolved, "unknown_custom_tool"), "input" := ""])
    else
      Obj(FunctionCall, Absent, Str(key), map["name" := OrElse(resolved, "unknown_tool"), "arguments" := "{}"])
  }

  /** `_synthetic_tool_output_item`. */
  function SyntheticOutput(kind: Kind, key: string): Item {
    Obj(if kind.CustomToolCall? then CustomToolCallOutput else FunctionCallOutput, Absent, Str(key),
        map["output" := STALE_TOOL_OUTPUT_MESSAGE])
  }

  /** A call made for an output, or an output made for a call, is of the matching kind and has its call id; a
      call has the resolved name or a placeholder, an output says that the result is gone. */
  lemma SyntheticMatches(item: Item, name: Option<string>)
    requires Key(item).Some?
    ensures IsOutput(item) ==>
              var call := SyntheticCall(item.kind, Key(item).value, name);
              && Key(call) == Key(item) && IsCall(call)
              && (call.kind.CustomToolCall? <==> item.kind.CustomToolCallOutput?)
              && "name" in call.fields && call.fields["name"] != ""
              && (name.GetOr("") != "" ==> call.fields["name"] == name.value)
              && LooksSynthetic(call) && IsOutput(SyntheticOutput(call.kind, Key(call).value))
              && SyntheticOutput(call.kind, Key(call).value).kind == item.kind
    ensures IsCall(item) ==>
              var output := SyntheticOutput(item.kind, Key(item).value);
              && Key(output) == Key(item) && IsOutput(output) && LooksSynthetic(output)
              && SyntheticCall(output.kind, Key(output).value, name).kind == item.kind
              && output.fields == map["output" := STALE_TOOL_OUTPUT_MESSAGE]
  {
  }

  /** What a synthetic item looks like apart from its ids. */
  predicate LooksSynthetic(item: Item) {
    item.Obj? &&
    match item.kind
    case FunctionCall => "name" in item.fields && item.fields == map["name" := item.fields["name"], "arguments" := "{}"]
    case CustomToolCall => "name" in item.fields && item.fields == map["name" := item.fields["name"], "input" := ""]
    case OtherKind(_) => false
    case _ => item.fields == map["output" := STALE_TOOL_OUTPUT_MESSAGE]
  }

  // ---- Repair: a call before each orphan output, an output after each unanswered call ----

  function CallKey(item: Item): set<string> {
    if IsCall(item) then KeySet(item) else {}
  }

  function OutputKey(item: Item): set<string> {
    if IsOutput(item) then KeySet(item) else {}
  }

  /** What is inserted before an item: a call, if the item is an output whose call id was not seen. */
  function CallBefore(item: Item, seen: set<string>, names: string -> Option<string>): seq<Entry> {
    if IsOutput(item) && Key(item).Some? && Key(item).value !in seen
    then [Entry(SyntheticCall(item.kind, Key(item).value, names(Key(item).value)), true)]
    else []
  }

  /** What is inserted after an item: an output, if the item is a call that is not answered. */
  function OutputAfter(item: Item, answered: set<string>): seq<Entry> {
    if IsCall(item) && Key(item).Some? && Key(item).value !in answered
    then [Entry(SyntheticOutput(item.kind, Key(item).value), true)]
    else []
  }

  /** The list with a call inserted before the first output of each call id outside `calls`. */
  function WithCalls(es: seq<Entry>, calls: set<string>, names: string -> Option<string>): seq<Entry> {
    if es == [] then []
    else
      var before, last := es[..|es| - 1], es[|es| - 1];
      WithCalls(before, calls, names) + CallBefore(last.item, calls + OutputKeys(Items(before)), names) + [last]
  }

  /** The list with an output inserted after the first call of each call id outside `answered`. */
  function WithOutputs(es: seq<Entry>, answered: set<string>): seq<Entry> {
    if es == [] then []
    else
      var before, last := es[..|es| - 1], es[|es| - 1];
      WithOutputs(before, answered) + [last] + OutputAfter(last.item, answered + CallKeys(Items(before)))
  }

  function OrphansRepaired(es: seq<Entry>, names: string -> Option<string>): seq<Entry> {
    WithCalls(es, CallKeys(Items(es)), names)
  }

  function OutputsRepaired(es: seq<Entry>): seq<Entry> {
    WithOutputs(es, OutputKeys(Items(es)))
  }

  /** Both repairs. */
  function Repaired(es: seq<Entry>, names: string -> Option<string>): seq<Entry> {
    OutputsRepaired(OrphansRepaired(es, names))
  }

  /** The call ids that have a call or an output but not both. */
  function Unpaired(items: seq<Item>): set<string> {
    (CallKeys(items) - OutputKeys(items)) + (OutputKeys(items) - CallKeys(items))
  }

  lemma WithCallsSnoc(es: seq<Entry>, e: Entry, calls: set<string>, names: string -> Option<string>)
    ensures WithCalls(es + [e], calls, names) ==
            WithCalls(es, calls, names) + CallBefore(e.item, calls + OutputKeys(Items(es)), names) + [e]
  {
    assert (es + [e])[..|es|] == es;
  }

  lemma WithOutputsSnoc(es: seq<Entry>, e: Entry, answered: set<string>)
    ensures WithOutputs(es + [e], answered) ==
            WithOutputs(es, answered) + [e] + OutputAfter(e.item, answered + CallKeys(Items(es)))
  {
    assert (es + [e])[..|es|] == es;
  }

  lemma CallBeforeMeans(item: Item, seen: set<string>, names: string -> Option<string>)
    ensures var x := CallBefore(item, seen, names);
            && Given(x) == [] && AddedKeys(x) == multiset(OutputKey(item) - seen) && |x| == |OutputKey(item) - seen|
            && CallKeys(Items(x)) == OutputKey(item) - seen && OutputKeys(Items(x)) == {} && Ordered(Items(x))
  {
    hide Items, Given, Added, AddedKeys, CallKeys, OutputKeys;
    var x := CallBefore(item, seen, names);
    NoEntries();
    if x == [] {
      assert OutputKey(item) - seen == {};
    } else {
      EntriesOne(x[0]);
      assert OutputKey(item) - seen == {Key(item).value};
      KeysSnoc([], x[0].item);
      assert [] + [x[0].item] == Items(x);
    }
  }

  lemma OutputAfterMeans(item: Item, answered: set<string>)
    ensures var x := OutputAfter(item, answered);
            && Given(x) == [] && AddedKeys(x) == multiset(CallKey(item) - answered) && |x| == |CallKey(item) - answered|
            && OutputKeys(Items(x)) == CallKey(item) - answered && CallKeys(Items(x)) == {}
  {
    hide Items, Given, Added, AddedKeys, CallKeys, OutputKeys;
    var x := OutputAfter(item, answered);
    NoEntries();
    if x == [] {
      assert CallKey(item) - answered == {};
    } else {
      EntriesOne(x[0]);
      assert CallKey(item) - answered == {Key(item).value};
    }
  }

  /** More call ids to handle: those not handled already. */
  lemma MoreKeys(handled: set<string>, before: set<string>, more: set<string>)
    ensures (before + more) - handled == (before - handled) + (more - (handled + before))
    ensures |(before + more) - handled| == |before - handled| + |more - (handled + before)|
    ensures multiset((before + more) - handled) == multiset(before - handled) + multiset(more - (handled + before))
  {
    assert (before + more) - handled == (before - handled) + (more - (handled + before));
  }

  /** Inserting calls keeps the given items and the outputs and gives every output a call. */
  lemma {:induction false} WithCallsKeys(es: seq<Entry>, calls: set<string>, names: string -> Option<string>)
    ensures var r := WithCalls(es, calls, names);
            && Given(r) == Given(es)
            && CallKeys(Items(r)) == CallKeys(Items(es)) + (OutputKeys(Items(es)) - calls)
            && OutputKeys(Items(r)) == OutputKeys(Items(es))
  {
    hide Items, Given, AddedKeys, CallKeys, OutputKeys, CallBefore, OutputKey, CallKey;
    if es == [] {
      NoEntries();
    } else {
      hide WithCalls;
      var before, last := es[..|es| - 1], es[|es| - 1];
      assert es == before + [last];
      WithCallsKeys(before, calls, names);
      WithCallsSnoc(before, last, calls, names);
      var r := WithCalls(before, calls, names);
      var x := CallBefore(last.item, calls + OutputKeys(Items(before)), names);
      CallBeforeMeans(last.item, calls + OutputKeys(Items(before)), names);
      EntriesConcat(before, [last]);
      EntriesConcat(r, x);
      EntriesConcat(r + x, [last]);
      EntriesOne(last);
      KeysStep(CallKeys(Items(before)), CallKey(last.item), OutputKeys(Items(before)), OutputKey(last.item), calls);
      assert Given(r) + [] == Given(r);
    }
  }

  /** Inserting calls adds one call for each call id it has to. */
  lemma {:induction false} WithCallsCount(es: seq<Entry>, calls: set<string>, names: string -> Option<string>)
    ensures AddedKeys(WithCalls(es, calls, names)) == AddedKeys(es) + multiset(OutputKeys(Items(es)) - calls)
  {
    hide Items, Given, Added, AddedKeys, CallKeys, OutputKeys, CallBefore, OutputKey, CallKey;
    if es == [] {
      NoEntries();
    } else {
      hide WithCalls;
      var before, last := es[..|es| - 1], es[|es| - 1];
      assert es == before + [last];
      WithCallsCount(before, calls, names);
      WithCallsSnoc(before, last, calls, names);
      var seen := calls + OutputKeys(Items(before));
      CallBeforeMeans(last.item, seen, names);
      var r, x := WithCalls(before, calls, names), CallBefore(last.item, seen, names);
      EntriesConcat(before, [last]);
      EntriesConcat(r, x);
      EntriesConcat(r + x, [last]);
      EntriesOne(last);
      MoreKeys(calls, OutputKeys(Items(before)), OutputKey(last.item));
    }
  }

  /** The list grows by the calls that are inserted. */
  lemma {:induction false} WithCallsLength(es: seq<Entry>, calls: set<string>, names: string -> Option<string>)
    ensures |WithCalls(es, calls, names)| == |es| + |OutputKeys(Items(es)) - calls|
  {
    hide Items, Given, Added, AddedKeys, CallKeys, OutputKeys, CallBefore, OutputKey, CallKey;
    if es == [] {
      NoEntries();
    } else {
      hide WithCalls;
      var before, last := es[..|es| - 1], es[|es| - 1];
      assert es == before + [last];
      WithCallsLength(before, calls, names);
      WithCallsSnoc(before, last, calls, names);
      var seen := calls + OutputKeys(Items(before));
      CallBeforeMeans(last.item, seen, names);
      EntriesSnoc(before, last);
      MoreKeys(calls, OutputKeys(Items(before)), OutputKey(last.item));
      OutputKeyIs(last.item);
    }
  }

  lemma OutputKeyIs(item: Item)
    ensures OutputKey(item) == if IsOutput(item) then KeySet(item) else {}
  {
  }

  lemma KeysStep(c: set<string>, moreCalls: set<string>, o: set<string>, moreOutputs: set<string>, calls: set<string>)
    ensures ((c + (o - calls)) + (moreOutputs - (calls + o))) + moreCalls
            == (c + moreCalls) + ((o + moreOutputs) - calls)
    ensures (o + {}) + moreOutputs == o + moreOutputs
  {
  }

  /** Inserting outputs keeps the given items and adds one output for each call id it has to. */
  lemma {:induction false} WithOutputsAdds(es: seq<Entry>, answered: set<string>)
    ensures var r := WithOutputs(es, answered);
            && Given(r) == Given(es)
            && CallKeys(Items(r)) == CallKeys(Items(es))
            && OutputKeys(Items(r)) == OutputKeys(Items(es)) + (CallKeys(Items(es)) - answered)
            && AddedKeys(r) == AddedKeys(es) + multiset(CallKeys(Items(es)) - answered)
            && |r| == |es| + |CallKeys(Items(es)) - answered|
  {
    hide Items, Given, AddedKeys, CallKeys, OutputKeys, OutputAfter, CallKey;
    if es == [] {
      NoEntries();
    } else {
      hide WithOutputs;
      var before, last := es[..|es| - 1], es[|es| - 1];
      assert es == before + [last];
      WithOutputsAdds(before, answered);
      WithOutputsSnoc(before, last, answered);
      var r := WithOutputs(before, answered);
      var x := OutputAfter(last.item, answered + CallKeys(Items(before)));
      OutputAfterMeans(last.item, answered + CallKeys(Items(before)));
      EntriesConcat(before, [last]);
      EntriesConcat(r, [last]);
      EntriesConcat(r + [last], x);
      EntriesOne(last);
      MoreKeys(answered, CallKeys(Items(before)), CallKey(last.item));
    }
  }

  /** Pairing closure: after both repairs a call id has a call exactly when it has an output, deleting the
      added items recovers the input, and exactly one item is added for each unpaired call id. */
  lemma {:induction false} RepairClosesPairs(es: seq<Entry>, names: string -> Option<string>)
    ensures var r := Repaired(es, names);
            && CallKeys(Items(r)) == OutputKeys(Items(r)) == CallKeys(Items(es)) + OutputKeys(Items(es))
            && Given(r) == Given(es)
            && AddedKeys(r) == AddedKeys(es) + multiset(Unpaired(Items(es)))
            && |r| == |es| + |Unpaired(Items(es))|
  {
    hide Items, Given, AddedKeys, CallKeys, OutputKeys, WithCalls, WithOutputs;
    var calls, outputs := CallKeys(Items(es)), OutputKeys(Items(es));
    WithCallsKeys(es, calls, names);
    WithCallsCount(es, calls, names);
    WithCallsLength(es, calls, names);
    var middle := OrphansRepaired(es, names);
    WithOutputsAdds(middle, outputs);
    UnpairedSplits(calls, outputs);
  }

  lemma UnpairedSplits(calls: set<string>, outputs: set<string>)
    ensures calls + (outputs - calls) - outputs == calls - outputs
    ensures calls + (outputs - calls) == outputs + (calls - outputs) == calls + outputs
    ensures multiset((calls - outputs) + (outputs - calls)) == multiset(outputs - calls) + multiset(calls - outputs)
    ensures |(calls - outputs) + (outputs - calls)| == |outputs - calls| + |calls - outputs|
  {
  }

  lemma {:induction false} WithCallsNothing(es: seq<Entry>, calls: set<string>, names: string -> Option<string>)
    requires OutputKeys(Items(es)) <= calls
    ensures WithCalls(es, calls, names) == es
  {
    if es != [] {
      var n := |es| - 1;
      assert es == es[..n] + [es[n]];
      EntriesSnoc(es[..n], es[n]);
      KeysSnoc(Items(es[..n]), es[n].item);
      WithCallsNothing(es[..n], calls, names);
    }
  }

  lemma {:induction false} WithOutputsNothing(es: seq<Entry>, answered: set<string>)
    requires CallKeys(Items(es)) <= answered
    ensures WithOutputs(es, answered) == es
  {
    if es != [] {
      var n := |es| - 1;
      assert es == es[..n] + [es[n]];
      EntriesSnoc(es[..n], es[n]);
      KeysSnoc(Items(es[..n]), es[n].item);
      WithOutputsNothing(es[..n], answered);
    }
  }

  /** The repairs leave a list alone exactly when its calls and outputs pair up. */
  lemma {:induction false} RepairOnlyWhenNeeded(es: seq<Entry>, names: string -> Option<string>)
    ensures Repaired(es, names) == es <==> CallKeys(Items(es)) == OutputKeys(Items(es))
  {
    RepairClosesPairs(es, names);
    if CallKeys(Items(es)) == OutputKeys(Items(es)) {
      WithCallsNothing(es, CallKeys(Items(es)), names);
      WithOutputsNothing(es, OutputKeys(Items(es)));
    } else {
      assert Unpaired(Items(es)) != {};
    }
  }

  /** Repairing a repaired list changes nothing. */
  lemma RepairIsStable(items: seq<Item>, names: string -> Option<string>, others: string -> Option<string>)
    ensures var r := Items(Repaired(Plain(items), names));
            Repaired(Plain(r), others) == Plain(r)
  {
    var r := Items(Repaired(Plain(items), names));
    RepairClosesPairs(Plain(items), names);
    PlainIsGiven(r);
    RepairOnlyWhenNeeded(Plain(r), others);
  }

  // ---- Order ----

  /** Every output comes after a call with its call id. */
  predicate Ordered(items: seq<Item>) {
    items == [] ||
    (Ordered(items[..|items| - 1]) &&
     (IsOutput(items[|items| - 1]) ==> KeySet(items[|items| - 1]) <= CallKeys(items[..|items| - 1])))
  }

  /** The same for the outputs whose call id is in `calls`. */
  predicate OrderedFor(items: seq<Item>, calls: set<string>) {
    items == [] ||
    (OrderedFor(items[..|items| - 1], calls) &&
     (IsOutput(items[|items| - 1]) ==> KeySet(items[|items| - 1]) * calls <= CallKeys(items[..|items| - 1])))
  }

  lemma OrderedSnoc(items: seq<Item>, item: Item, calls: set<string>)
    ensures Ordered(items + [item]) <==> Ordered(items) && (IsOutput(item) ==> KeySet(item) <= CallKeys(items))
    ensures OrderedFor(items + [item], calls) <==>
            OrderedFor(items, calls) && (IsOutput(item) ==> KeySet(item) * calls <= CallKeys(items))
  {
    assert (items + [item])[..|items|] == items;
  }

  lemma {:induction false} OrderedAnswers(items: seq<Item>, more: seq<Item>)
    requires OutputKeys(more) <= CallKeys(items)
    ensures Ordered(items + more) <==> Ordered(items)
  {
    hide Ordered, OrderedFor;
    if more == [] {
      assert items + more == items;
    } else {
      var rest, last := more[..|more| - 1], more[|more| - 1];
      OrderedAnswers(items, rest);
      assert items + more == (items + rest) + [last];
      OrderedSnoc(items + rest, last, {});
      KeysConcat(items, rest);
    }
  }

  lemma {:induction false} KeysConcat(items: seq<Item>, more: seq<Item>)
    ensures CallKeys(items + more) == CallKeys(items) + CallKeys(more)
    ensures OutputKeys(items + more) == OutputKeys(items) + OutputKeys(more)
  {
    if more == [] {
      assert items + more == items;
    } else {
      var rest, last := more[..|more| - 1], more[|more| - 1];
      KeysConcat(items, rest);
      assert items + more == (items + rest) + [last];
      KeysSnoc(items + rest, last);
    }
  }

  lemma {:induction false} WithCallsOrdered(es: seq<Entry>, calls: set<string>, names: string -> Option<string>)
    ensures Ordered(Items(WithCalls(es, calls, names))) <==> OrderedFor(Items(es), calls)
  {
    if es != [] {
      hide Items, Given, AddedKeys, CallKeys, OutputKeys, Ordered, OrderedFor, WithCalls, CallBefore, OutputKey;
      var before, last := es[..|es| - 1], es[|es| - 1];
      assert es == before + [last];
      WithCallsOrdered(before, calls, names);
      WithCallsKeys(before, calls, names);
      WithCallsSnoc(before, last, calls, names);
      var r := WithCalls(before, calls, names);
      var x := CallBefore(last.item, calls + OutputKeys(Items(before)), names);
      CallBeforeMeans(last.item, calls + OutputKeys(Items(before)), names);
      EntriesConcat(before, [last]);
      EntriesConcat(r, x);
      EntriesConcat(r + x, [last]);
      EntriesOne(last);
      OrderedSnoc(Items(before), last.item, calls);
      OrderedAnswers(Items(r), Items(x));
      OrderedSnoc(Items(r + x), last.item, calls);
    }
  }

  lemma {:induction false} WithOutputsOrdered(es: seq<Entry>, answered: set<string>)
    ensures Ordered(Items(WithOutputs(es, answered))) <==> Ordered(Items(es))
  {
    if es != [] {
      hide Items, Given, AddedKeys, CallKeys, OutputKeys, Ordered, OrderedFor, WithOutputs, OutputAfter, CallKey;
      var before, last := es[..|es| - 1], es[|es| - 1];
      assert es == before + [last];
      WithOutputsOrdered(before, answered);
      WithOutputsAdds(before, answered);
      WithOutputsSnoc(before, last, answered);
      var r := WithOutputs(before, answered);
      var x := OutputAfter(last.item, answered + CallKeys(Items(before)));
      OutputAfterMeans(last.item, answered + CallKeys(Items(before)));
      EntriesConcat(before, [last]);
      EntriesConcat(r, [last]);
      EntriesConcat(r + [last], x);
      EntriesOne(last);
      OrderedSnoc(Items(before), last.item, {});
      OrderedSnoc(Items(r), last.item, {});
      OrderedAnswers(Items(r + [last]), Items(x));
    }
  }

  /** The repairs put a call before every output, except that an output is left before its own call when
      it came before it. */
  lemma {:induction false} RepairOrders(es: seq<Entry>, names: string -> Option<string>)
    ensures Ordered(Items(Repaired(es, names))) <==> OrderedFor(Items(es), CallKeys(Items(es)))
  {
    WithCallsOrdered(es, CallKeys(Items(es)), names);
    WithOutputsOrdered(OrphansRepaired(es, names), OutputKeys(Items(OrphansRepaired(es, names))));
  }

  /** An output in front of its call stays there. */
  lemma {:induction false} OutputFirstExample(names: string -> Option<string>)
    ensures var items := [Obj(FunctionCallOutput, Absent, Str("call_1"), map[]),
                          Obj(FunctionCall, Absent, Str("call_1"), map[])];
            Items(Repaired(Plain(items), names)) == items && !Ordered(items)
  {
    var output := Obj(FunctionCallOutput, Absent, Str("call_1"), map[]);
    var call := Obj(FunctionCall, Absent, Str("call_1"), map[]);
    var items := [output, call];
    NoEntries();
    assert [] + [output] == [output] && [output] + [call] == items;
    KeysSnoc([], output);
    KeysSnoc([output], call);
    PlainIsGiven(items);
    RepairOnlyWhenNeeded(Plain(items), names);
    OrderedSnoc([], output, {});
    OrderedSnoc([output], call, {});
    assert KeySet(output) == {"call_1"};
  }

  // ---- Every item ----

  function Aligned(es: seq<Entry>): (r: seq<Entry>)
    ensures |r| == |es|
  {
    if es == [] then []
    else Aligned(es[..|es| - 1]) + [Entry(AlignItem(es[|es| - 1].item), es[|es| - 1].added)]
  }

  function Cleared(es: seq<Entry>, dropAll: bool, uuids: nat -> string): (r: seq<Entry>)
    ensures |r| == |es|
  {
    if es == [] then []
    else
      var n := |es| - 1;
      Cleared(es[..n], dropAll, uuids) + [Entry(ClearItem(es[n].item, dropAll, uuids(n)), es[n].added)]
  }

  function AlignedAndRepaired(es: seq<Entry>, repair: bool, names: string -> Option<string>): seq<Entry> {
    if repair then Repaired(Aligned(es), names) else Aligned(es)
  }

  /** Everything `prepare_responses_input_items` does after expansion. */
  function Prepared(es: seq<Entry>, repair: bool, dropAll: bool, names: string -> Option<string>,
                    uuids: nat -> string): seq<Entry> {
    Cleared(AlignedAndRepaired(es, repair, names), dropAll, uuids)
  }

  function Essences(items: seq<Item>): seq<Item> {
    if items == [] then [] else Essences(items[..|items| - 1]) + [Essence(items[|items| - 1])]
  }

  lemma EssencesSnoc(items: seq<Item>, item: Item)
    ensures Essences(items + [item]) == Essences(items) + [Essence(item)]
  {
    assert (items + [item])[..|items|] == items;
  }

  lemma {:induction false} EssencesConcat(items: seq<Item>, more: seq<Item>)
    ensures Essences(items + more) == Essences(items) + Essences(more)
  {
    if more == [] {
      assert items + more == items;
    } else {
      var rest, last := more[..|more| - 1], more[|more| - 1];
      EssencesConcat(items, rest);
      assert items + more == (items + rest) + [last];
      EssencesSnoc(items + rest, last);
    }
  }

  /** Everything added is synthetic. */
  ghost predicate Marked(es: seq<Entry>) {
    forall e :: e in es && e.added ==> LooksSynthetic(e.item)
  }

  /** A function call that has a call id: its essence does not depend on its id. */
  predicate Settled(item: Item) {
    item.Obj? && item.kind.FunctionCall? ==> item.callId.Truthy()
  }

  ghost predicate AllSettled(es: seq<Entry>) {
    forall e :: e in es ==> Settled(e.item)
  }

  lemma AlignItemSettles(item: Item)
    ensures Settled(AlignItem(item)) && (LooksSynthetic(item) ==> LooksSynthetic(AlignItem(item)))
  {
    if item.Obj? && item.kind.FunctionCall? {
      CanonicalShows((if item.callId.Truthy() then item.callId else item.id).Text());
    }
  }

  lemma ClearItemKeeps(item: Item, dropAll: bool, uuid: string)
    requires Settled(item)
    ensures var cleared := ClearItem(item, dropAll, uuid);
            && Essence(cleared) == Essence(item) && (LooksSynthetic(item) ==> LooksSynthetic(cleared))
            && KeySet(cleared) == KeySet(item) && IsCall(cleared) == IsCall(item) && IsOutput(cleared) == IsOutput(item)
  {
  }

  lemma MarksConcat(es: seq<Entry>, more: seq<Entry>)
    ensures Marked(es + more) <==> Marked(es) && Marked(more)
    ensures AllSettled(es + more) <==> AllSettled(es) && AllSettled(more)
  {
    var all := es + more;
    forall e ensures e in all <==> e in es || e in more {
    }
  }

  lemma AlignedSnoc(es: seq<Entry>, e: Entry)
    ensures Aligned(es + [e]) == Aligned(es) + [Entry(AlignItem(e.item), e.added)]
  {
    assert (es + [e])[..|es|] == es;
  }

  lemma ClearedSnoc(es: seq<Entry>, e: Entry, dropAll: bool, uuids: nat -> string)
    ensures Cleared(es + [e], dropAll, uuids) ==
            Cleared(es, dropAll, uuids) + [Entry(ClearItem(e.item, dropAll, uuids(|es|)), e.added)]
  {
    assert (es + [e])[..|es|] == es;
  }

  lemma {:induction false} AlignedKeeps(es: seq<Entry>)
    ensures Essences(Given(Aligned(es))) == Essences(Given(es))
    ensures AllSettled(Aligned(es)) && (Marked(es) ==> Marked(Aligned(es)))
    ensures |Added(Aligned(es))| == |Added(es)|
  {
    if es == [] {
    } else {
      hide Given, Added, AddedKeys, CallKeys, OutputKeys, Items, Essences, AlignItem, Essence, LooksSynthetic, Settled,
           Marked,
           AllSettled, Aligned;
      var before, last := es[..|es| - 1], es[|es| - 1];
      assert es == before + [last];
      AlignedKeeps(before);
      AlignedSnoc(before, last);
      var aligned := Entry(AlignItem(last.item), last.added);
      KeptStep(Aligned(before), aligned, before, last);
    }
  }

  /** One more item on both sides: the item on the left stands for the one on the right. */
  lemma {:induction false} KeptStep(es: seq<Entry>, e: Entry, was: seq<Entry>, given: Entry)
    requires Essences(Given(es)) == Essences(Given(was)) && |Added(es)| == |Added(was)|
    requires e.added == given.added
             && (e == Entry(AlignItem(given.item), e.added) || Essence(e.item) == Essence(given.item))
    ensures Essences(Given(es + [e])) == Essences(Given(was + [given])) && |Added(es + [e])| == |Added(was + [given])|
    ensures e == Entry(AlignItem(given.item), e.added) && AllSettled(es) ==> AllSettled(es + [e])
    ensures (e == Entry(AlignItem(given.item), e.added) && Marked(was + [given]) && (Marked(was) ==> Marked(es)))
            ==> Marked(es + [e])
    ensures Marked(was + [given]) && (LooksSynthetic(given.item) ==> LooksSynthetic(e.item))
            && (Marked(was) ==> Marked(es)) ==>
              Marked(es + [e])
  {
    hide Given, Added, AddedKeys, CallKeys, OutputKeys, Items, Essences, AlignItem, Essence, LooksSynthetic, Settled;
    EntriesSnoc(es, e);
    EntriesSnoc(was, given);
    EssenceOfAligned(given.item);
    AlignItemSettles(given.item);
    EssencesSnoc(Given(was), given.item);
    EssencesSnoc(Given(es), e.item);
    MarksConcat(es, [e]);
    MarksConcat(was, [given]);
    assert Given(was) + [] == Given(was) && Given(es) + [] == Given(es);
    assert given in [given];
  }

  lemma {:induction false} ClearedKeeps(es: seq<Entry>, dropAll: bool, uuids: nat -> string)
    requires AllSettled(es)
    ensures var r := Cleared(es, dropAll, uuids);
            && Essences(Given(r)) == Essences(Given(es)) && (Marked(es) ==> Marked(r)) && |Added(r)| == |Added(es)|
            && CallKeys(Items(r)) == CallKeys(Items(es)) && OutputKeys(Items(r)) == OutputKeys(Items(es))
  {
    if es == [] {
    } else {
      hide Given, Added, AddedKeys, Items, CallKeys, OutputKeys, Essences, ClearItem, Essence, LooksSynthetic, Settled,
           Marked, Cleared;
      var before, last := es[..|es| - 1], es[|es| - 1];
      assert es == before + [last];
      assert AllSettled(before) && Settled(last.item);
      ClearedKeeps(before, dropAll, uuids);
      ClearedSnoc(before, last, dropAll, uuids);
      var cleared := Entry(ClearItem(last.item, dropAll, uuids(|before|)), last.added);
      EntriesSnoc(before, last);
      EntriesSnoc(Cleared(before, dropAll, uuids), cleared);
      ClearItemKeeps(last.item, dropAll, uuids(|before|));
      KeptStep(Cleared(before, dropAll, uuids), cleared, before, last);
    }
  }

  lemma {:induction false} RepairMarks(es: seq<Entry>, calls: set<string>, answered: set<string>,
                                       names: string -> Option<string>)
    requires AllSettled(es)
    ensures AllSettled(WithCalls(es, calls, names)) && (Marked(es) ==> Marked(WithCalls(es, calls, names)))
    ensures AllSettled(WithOutputs(es, answered)) && (Marked(es) ==> Marked(WithOutputs(es, answered)))
  {
    if es == [] {
    } else {
      hide Marked, AllSettled, LooksSynthetic, WithCalls, WithOutputs, Items, CallKeys, OutputKeys;
      var before, last := es[..|es| - 1], es[|es| - 1];
      assert es == before + [last];
      MarksConcat(before, [last]);
      RepairMarks(before, calls, answered, names);
      WithCallsSnoc(before, last, calls, names);
      WithOutputsSnoc(before, last, answered);
      var x := CallBefore(last.item, calls + OutputKeys(Items(before)), names);
      var y := OutputAfter(last.item, answered + CallKeys(Items(before)));
      InsertedMarks(last.item, calls + OutputKeys(Items(before)), answered + CallKeys(Items(before)), names);
      MarksConcat(WithCalls(before, calls, names), x);
      MarksConcat(WithCalls(before, calls, names) + x, [last]);
      MarksConcat(WithOutputs(before, answered), [last]);
      MarksConcat(WithOutputs(before, answered) + [last], y);
    }
  }

  lemma InsertedMarks(item: Item, seen: set<string>, answered: set<string>, names: string -> Option<string>)
    ensures Marked(CallBefore(item, seen, names)) && AllSettled(CallBefore(item, seen, names))
    ensures Marked(OutputAfter(item, answered)) && AllSettled(OutputAfter(item, answered))
  {
  }

  /** Adding for the unpaired call ids is all the repair adds. */
  lemma {:induction false} AddedCount(es: seq<Entry>)
    ensures |Given(es)| + |Added(es)| == |es|
  {
    if es != [] {
      AddedCount(es[..|es| - 1]);
    }
  }

  /** What preparing does to a list: the given items are kept, in order and up to their ids; what is added
      is synthetic; with repair, calls and outputs pair up and one item is added for each call id that
      aligning left unpaired. */
  lemma PreparingKeeps(es: seq<Entry>, repair: bool, dropAll: bool, names: string -> Option<string>,
                       uuids: nat -> string)
    ensures var r := Prepared(es, repair, dropAll, names, uuids);
            && Essences(Given(r)) == Essences(Given(es))
            && (Marked(es) ==> Marked(r))
            && |Added(r)| == |Added(es)| + (if repair then |Unpaired(Items(Aligned(es)))| else 0)
            && (repair ==> CallKeys(Items(r)) == OutputKeys(Items(r)))
  {
    hide Essences, Given, Added, Items, CallKeys, OutputKeys, Marked, AllSettled, Unpaired;
    var aligned := Aligned(es);
    AlignedKeeps(es);
    if repair {
      RepairMarks(aligned, CallKeys(Items(aligned)), {}, names);
      RepairMarks(OrphansRepaired(aligned, names), {}, OutputKeys(Items(OrphansRepaired(aligned, names))), names);
      RepairClosesPairs(aligned, names);
    }
    var middle := AlignedAndRepaired(es, repair, names);
    ClearedKeeps(middle, dropAll, uuids);
    AddedCount(aligned);
    AddedCount(middle);
  }

  /** Each item is what is sent for the given one in its place. */
  ghost predicate AllSentAs(sent: seq<Item>, given: seq<Item>) {
    |sent| == |given| && forall n :: 0 <= n < |given| ==> SentAs(sent[n], given[n])
  }

  lemma SentSnoc(sent: seq<Item>, given: seq<Item>, item: Item, one: Item)
    requires AllSentAs(sent, given) && SentAs(item, one)
    ensures AllSentAs(sent + [item], given + [one])
  {
    hide SentAs;
  }

  lemma SentStep(sent: seq<Item>, given: seq<Item>, item: Item)
    requires given != [] && AllSentAs(sent, given[..|given| - 1]) && SentAs(item, given[|given| - 1])
    ensures AllSentAs(sent + [item], given)
  {
    hide SentAs;
    SentSnoc(sent, given[..|given| - 1], item, given[|given| - 1]);
    assert given[..|given| - 1] + [given[|given| - 1]] == given;
  }

  lemma GivenSnoc(es: seq<Entry>, e: Entry)
    ensures Given(es + [e]) == if e.added then Given(es) else Given(es) + [e.item]
  {
    assert (es + [e])[..|es|] == es;
  }

  lemma SentPrefix(sent: seq<Item>, item: Item, given: seq<Item>)
    requires AllSentAs(sent + [item], given)
    ensures given != [] && AllSentAs(sent, given[..|given| - 1]) && SentAs(item, given[|given| - 1])
  {
    hide SentAs;
    var all, n := sent + [item], |given| - 1;
    assert all[n] == item;
    assert forall m :: 0 <= m < n ==> all[m] == sent[m];
  }

  lemma {:induction false} AlignedIsSent(es: seq<Entry>)
    ensures AllSentAs(Given(Aligned(es)), Given(es))
  {
    if es == [] {
    } else {
      hide Given, AlignItem, Aligned, AllSentAs, SentAs;
      var before, last := es[..|es| - 1], es[|es| - 1];
      assert es == before + [last];
      AlignedIsSent(before);
      AlignedSnoc(before, last);
      GivenSnoc(before, last);
      GivenSnoc(Aligned(before), Entry(AlignItem(last.item), last.added));
      AlignTouchesIds(last.item);
      if !last.added {
        SentSnoc(Given(Aligned(before)), Given(before), AlignItem(last.item), last.item);
      }
    }
  }

  lemma {:induction false} ClearedGiven(es: seq<Entry>, given: seq<Item>, dropAll: bool, uuids: nat -> string)
    requires AllSentAs(Given(es), given)
    ensures AllSentAs(Given(Cleared(es, dropAll, uuids)), given)
  {
    if es == [] {
    } else {
      hide Given, ClearItem, Cleared, SentAs, AllSentAs;
      var before, last := es[..|es| - 1], es[|es| - 1];
      assert es == before + [last];
      GivenSnoc(before, last);
      ClearedSnoc(before, last, dropAll, uuids);
      var cleared := ClearItem(last.item, dropAll, uuids(|before|));
      GivenSnoc(Cleared(before, dropAll, uuids), Entry(cleared, last.added));
      if last.added {
        ClearedGiven(before, given, dropAll, uuids);
      } else {
        SentPrefix(Given(before), last.item, given);
        var rest, one := given[..|given| - 1], given[|given| - 1];
        ClearedGiven(before, rest, dropAll, uuids);
        ClearedIsSent(last.item, one, dropAll, uuids(|before|));
        SentStep(Given(Cleared(before, dropAll, uuids)), given, cleared);
      }
    }
  }

  /** Preparing sends every given item, in order, with its kind, its fields and its canonical call id. */
  lemma PreparingSends(es: seq<Entry>, repair: bool, dropAll: bool, names: string -> Option<string>,
                       uuids: nat -> string)
    ensures AllSentAs(Given(Prepared(es, repair, dropAll, names, uuids)), Given(es))
  {
    hide Given, Added, Items, CallKeys, OutputKeys, Unpaired, AllSentAs;
    AlignedIsSent(es);
    if repair { RepairClosesPairs(Aligned(es), names); }
    ClearedGiven(AlignedAndRepaired(es, repair, names), Given(es), dropAll, uuids);
  }

  /** No prepared item carries an id in persisted form; on a replay only tool calls carry a non-empty id
      text, and it is fresh. */
  ghost predicate NoLookups(items: seq<Item>, dropAll: bool, uuids: nat -> string) {
    forall n :: 0 <= n < |items| && items[n].Obj? && items[n].id.Str? && items[n].id.text != "" ==>
      && !IsPersistedId(items[n].id.text)
      && (dropAll ==> IsCall(items[n]) && items[n].id.text == ToolCallIdPrefix(items[n].kind).value + "_" + uuids(n))
  }

  lemma {:induction false} ClearedHasNoLookups(es: seq<Entry>, dropAll: bool, uuids: nat -> string)
    requires forall n :: '-' in uuids(n)
    ensures NoLookups(Items(Cleared(es, dropAll, uuids)), dropAll, uuids)
  {
    if es != [] {
      hide Items, Given, Added, AddedKeys, CallKeys, OutputKeys, Cleared, ClearItem, IsPersistedId;
      var n := |es| - 1;
      ClearedHasNoLookups(es[..n], dropAll, uuids);
      assert es == es[..n] + [es[n]];
      ClearedSnoc(es[..n], es[n], dropAll, uuids);
      EntriesSnoc(Cleared(es[..n], dropAll, uuids), Entry(ClearItem(es[n].item, dropAll, uuids(n)), es[n].added));
      ClearLeavesNoLookup(es[n].item, dropAll, uuids(n));
    }
  }

  // ---- The loops ----

  method AlignResponsesToolCallIds(inputItems: seq<Item>) returns (aligned: seq<Item>)
    ensures aligned == Items(Aligned(Plain(inputItems)))
    ensures |aligned| == |inputItems|
  {
    aligned := [];
    for n := 0 to |inputItems|
      invariant aligned == Items(Aligned(Plain(inputItems[..n])))
    {
      assert inputItems[..n + 1] == inputItems[..n] + [inputItems[n]];
      PlainSnoc(inputItems[..n], inputItems[n]);
      var plain := Plain(inputItems[..n]);
      assert (plain + [Entry(inputItems[n], false)])[..n] == plain;
      EntriesSnoc(Aligned(plain), Entry(AlignItem(inputItems[n]), false));
      aligned := aligned + [AlignItem(inputItems[n])];
    }
    assert inputItems[..|inputItems|] == inputItems;
  }

  /** The first loop of `synthesize_orphan_tool_calls`. */
  method CalledIds(inputItems: seq<Item>) returns (seenCallIds: set<string>)
    ensures seenCallIds == CallKeys(inputItems)
  {
    seenCallIds := {};
    for n := 0 to |inputItems|
      invariant seenCallIds == CallKeys(inputItems[..n])
    {
      assert inputItems[..n + 1] == inputItems[..n] + [inputItems[n]];
      KeysSnoc(inputItems[..n], inputItems[n]);
      if IsCall(inputItems[n]) && Key(inputItems[n]).Some? {
        seenCallIds := seenCallIds + {Key(inputItems[n]).value};
      }
    }
    assert inputItems[..|inputItems|] == inputItems;
  }

  /** The first loop of `synthesize_missing_tool_outputs`. */
  method AnsweredIds(inputItems: seq<Item>) returns (answered: set<string>)
    ensures answered == OutputKeys(inputItems)
  {
    answered := {};
    for n := 0 to |inputItems|
      invariant answered == OutputKeys(inputItems[..n])
    {
      assert inputItems[..n + 1] == inputItems[..n] + [inputItems[n]];
      KeysSnoc(inputItems[..n], inputItems[n]);
      if IsOutput(inputItems[n]) && Key(inputItems[n]).Some? {
        answered := answered + {Key(inputItems[n]).value};
      }
    }
    assert inputItems[..|inputItems|] == inputItems;
  }

  method SynthesizeOrphanToolCalls(inputItems: seq<Item>, names: string -> Option<string>) returns (repaired: seq<Item>)
    ensures repaired == Items(OrphansRepaired(Plain(inputItems), names))
    ensures CallKeys(repaired) == CallKeys(inputItems) + OutputKeys(inputItems)
            && OutputKeys(repaired) == OutputKeys(inputItems)
  {
    hide Items, Given, Added, AddedKeys, CallKeys, OutputKeys, Plain, WithCalls;
    PlainIsGiven(inputItems);
    WithCallsKeys(Plain(inputItems), CallKeys(inputItems), names);
    NothingToRepair(names);
    if inputItems == [] { return []; }
    assert inputItems[..0] == [];
    var seenCallIds := CalledIds(inputItems);
    ghost var calls := seenCallIds;
    assert inputItems[..|inputItems|] == inputItems;
    repaired := [];
    for n := 0 to |inputItems|
      invariant repaired == Items(WithCalls(Plain(inputItems[..n]), calls, names))
      invariant seenCallIds == calls + OutputKeys(inputItems[..n])
    {
      var raw := inputItems[n];
      OrphanStep(inputItems, n, calls, names);
      if IsCall(raw) && Key(raw).Some? {
        CallIsThere(inputItems, n);
        seenCallIds := seenCallIds + {Key(raw).value};
      } else if IsOutput(raw) && Key(raw).Some? && Key(raw).value !in seenCallIds {
        repaired := repaired + [SyntheticCall(raw.kind, Key(raw).value, names(Key(raw).value))];
        seenCallIds := seenCallIds + {Key(raw).value};
      }
      repaired := repaired + [raw];
    }
  }

  lemma NothingToRepair(names: string -> Option<string>)
    ensures Plain([]) == [] && Items([]) == [] && CallKeys([]) == OutputKeys([]) == {}
    ensures forall calls :: WithCalls([], calls, names) == []
    ensures forall answered :: WithOutputs([], answered) == []
  {
  }

  lemma {:induction false} OrphanStep(items: seq<Item>, n: nat, calls: set<string>, names: string -> Option<string>)
    requires n < |items|
    ensures var seen := calls + OutputKeys(items[..n]);
            Items(WithCalls(Plain(items[..n + 1]), calls, names)) ==
            Items(WithCalls(Plain(items[..n]), calls, names)) + Items(CallBefore(items[n], seen, names)) + [items[n]]
    ensures var x := CallBefore(items[n], calls + OutputKeys(items[..n]), names);
            Items(x) == if x == [] then [] else [x[0].item]
    ensures OutputKeys(items[..n + 1]) == OutputKeys(items[..n]) + OutputKey(items[n])
  {
    var e := Entry(items[n], false);
    assert items[..n + 1] == items[..n] + [items[n]];
    KeysSnoc(items[..n], items[n]);
    PlainSnoc(items[..n], items[n]);
    PlainIsGiven(items[..n]);
    WithCallsSnoc(Plain(items[..n]), e, calls, names);
    var r, x := WithCalls(Plain(items[..n]), calls, names), CallBefore(items[n], calls + OutputKeys(items[..n]), names);
    EntriesConcat(r, x);
    EntriesSnoc(r + x, e);
  }

  lemma {:induction false} CallIsThere(items: seq<Item>, n: nat)
    requires n < |items|
    ensures IsCall(items[n]) ==> KeySet(items[n]) <= CallKeys(items)
    ensures IsOutput(items[n]) ==> KeySet(items[n]) <= OutputKeys(items)
  {
    if n < |items| - 1 {
      CallIsThere(items[..|items| - 1], n);
    }
  }

  method SynthesizeMissingToolOutputs(inputItems: seq<Item>) returns (repaired: seq<Item>)
    ensures repaired == Items(OutputsRepaired(Plain(inputItems)))
    ensures OutputKeys(repaired) == CallKeys(inputItems) + OutputKeys(inputItems)
            && CallKeys(repaired) == CallKeys(inputItems)
  {
    hide Items, Given, Added, AddedKeys, CallKeys, OutputKeys, Plain, WithOutputs;
    PlainIsGiven(inputItems);
    WithOutputsAdds(Plain(inputItems), OutputKeys(inputItems));
    NothingToRepair(_ => None);
    if inputItems == [] { return []; }
    assert inputItems[..0] == [];
    var answered := AnsweredIds(inputItems);
    ghost var outputs := answered;
    assert inputItems[..|inputItems|] == inputItems;
    repaired := [];
    for n := 0 to |inputItems|
      invariant repaired == Items(WithOutputs(Plain(inputItems[..n]), outputs))
      invariant answered == outputs + CallKeys(inputItems[..n])
    {
      var raw := inputItems[n];
      AnswerStep(inputItems, n, outputs);
      repaired := repaired + [raw];
      if IsCall(raw) && Key(raw).Some? && Key(raw).value !in answered {
        repaired := repaired + [SyntheticOutput(raw.kind, Key(raw).value)];
        answered := answered + {Key(raw).value};
      }
    }
  }

  lemma AnswerStep(items: seq<Item>, n: nat, outputs: set<string>)
    requires n < |items|
    ensures Items(WithOutputs(Plain(items[..n + 1]), outputs)) ==
            Items(WithOutputs(Plain(items[..n]), outputs)) + [items[n]]
            + Items(OutputAfter(items[n], outputs + CallKeys(items[..n])))
    ensures var x := OutputAfter(items[n], outputs + CallKeys(items[..n]));
            Items(x) == if x == [] then [] else [x[0].item]
    ensures CallKeys(items[..n + 1]) == CallKeys(items[..n]) + CallKey(items[n])
  {
    var e := Entry(items[n], false);
    assert items[..n + 1] == items[..n] + [items[n]];
    KeysSnoc(items[..n], items[n]);
    PlainSnoc(items[..n], items[n]);
    PlainIsGiven(items[..n]);
    WithOutputsSnoc(Plain(items[..n]), e, outputs);
    var r, x := WithOutputs(Plain(items[..n]), outputs), OutputAfter(items[n], outputs + CallKeys(items[..n]));
    EntriesSnoc(r, e);
    EntriesConcat(r + [e], x);
  }

  lemma ClearIsLocal(item: Item, dropAll: bool, uuid: string)
    ensures var cleared := ClearItem(item, dropAll, uuid);
            cleared == if item.Obj? && cleared.Obj? then item.(id := cleared.id) else item
  {
  }

  /** How many items have an id to clear. */
  function ClearCount(items: seq<Item>, dropAll: bool): nat {
    if items == [] then 0
    else ClearCount(items[..|items| - 1], dropAll) + (if MustClear(items[|items| - 1], dropAll) then 1 else 0)
  }

  /** Clearing changes nothing but ids. */
  lemma {:induction false} ClearedIsLocal(items: seq<Item>, dropAll: bool, uuids: nat -> string)
    ensures var output := Items(Cleared(Plain(items), dropAll, uuids));
            |output| == |items| &&
            forall n :: 0 <= n < |items| ==>
              output[n] == (if items[n].Obj? && output[n].Obj? then items[n].(id := output[n].id) else items[n])
  {
    if items != [] {
      hide Items, Given, Added, AddedKeys, CallKeys, OutputKeys, Plain, Cleared, ClearItem;
      var before, last := items[..|items| - 1], items[|items| - 1];
      ClearedIsLocal(before, dropAll, uuids);
      ClearStep(before, last, dropAll, uuids);
      ClearIsLocal(last, dropAll, uuids(|before|));
      assert before + [last] == items;
    }
  }

  lemma ClearStep(before: seq<Item>, last: Item, dropAll: bool, uuids: nat -> string)
    ensures Items(Cleared(Plain(before + [last]), dropAll, uuids)) ==
            Items(Cleared(Plain(before), dropAll, uuids)) + [ClearItem(last, dropAll, uuids(|before|))]
    ensures ClearCount(before + [last], dropAll)
            == ClearCount(before, dropAll) + (if MustClear(last, dropAll) then 1 else 0)
  {
    hide Items, Given, Added, AddedKeys, CallKeys, OutputKeys, Plain, Cleared, ClearItem, MustClear;
    assert (before + [last])[..|before|] == before;
    PlainSnoc(before, last);
    ClearedSnoc(Plain(before), Entry(last, false), dropAll, uuids);
    EntriesSnoc(Cleared(Plain(before), dropAll, uuids), Entry(ClearItem(last, dropAll, uuids(|before|)), false));
  }

  method ClearPersistedLookupIds(items: seq<Item>, dropAll: bool, uuids: nat -> string) returns (output: seq<Item>,
      cleared: nat)
    requires forall n :: '-' in uuids(n)
    ensures output == Items(Cleared(Plain(items), dropAll, uuids))
    ensures |output| == |items| && NoLookups(output, dropAll, uuids)
    ensures forall n :: 0 <= n < |items| ==>
              output[n] == (if items[n].Obj? && output[n].Obj? then items[n].(id := output[n].id) else items[n])
    ensures cleared == ClearCount(items, dropAll)
  {
    hide Items, Given, Added, AddedKeys, CallKeys, OutputKeys, Plain, Cleared, IsPersistedId, MustClear, NoLookups,
         ClearItem, ClearCount;
    NothingToClear(dropAll, uuids);
    assert items[..0] == [];
    output, cleared := [], 0;
    for n := 0 to |items|
      invariant output == Items(Cleared(Plain(items[..n]), dropAll, uuids))
      invariant cleared == ClearCount(items[..n], dropAll)
    {
      assert items[..n + 1] == items[..n] + [items[n]];
      ClearStep(items[..n], items[n], dropAll, uuids);
      if MustClear(items[n], dropAll) {
        cleared := cleared + 1;
      }
      output := output + [ClearItem(items[n], dropAll, uuids(n))];
    }
    assert items[..|items|] == items;
    ClearedIsLocal(items, dropAll, uuids);
    ClearedHasNoLookups(Plain(items), dropAll, uuids);
  }

  lemma NothingToClear(dropAll: bool, uuids: nat -> string)
    ensures Items(Cleared(Plain([]), dropAll, uuids)) == [] && ClearCount([], dropAll) == 0
  {
  }

  // ---- The whole preparation ----

  /** The items do not depend on which of them count as added. */
  lemma {:induction false} TagsDoNotMatter(es: seq<Entry>, other: seq<Entry>, calls: set<string>,
                                           answered: set<string>, names: string -> Option<string>, dropAll: bool,
                                           uuids: nat -> string)
    requires Items(es) == Items(other)
    ensures Items(Aligned(es)) == Items(Aligned(other))
    ensures Items(WithCalls(es, calls, names)) == Items(WithCalls(other, calls, names))
    ensures Items(WithOutputs(es, answered)) == Items(WithOutputs(other, answered))
    ensures Items(Cleared(es, dropAll, uuids)) == Items(Cleared(other, dropAll, uuids))
  {
    assert |es| == |other|;
    if es == [] {
    } else {
      hide Given, Added, AddedKeys, Items, CallKeys, OutputKeys, ClearItem, AlignItem, Cleared, Aligned, WithCalls,
           WithOutputs,
           CallBefore, OutputAfter;
      var before, last, before', last' := es[..|es| - 1], es[|es| - 1], other[..|es| - 1], other[|es| - 1];
      assert es == before + [last] && other == before' + [last'];
      EntriesSnoc(before, last);
      EntriesSnoc(before', last');
      assert Items(before) == Items(es)[..|es| - 1] && Items(before') == Items(other)[..|es| - 1];
      assert last.item == Items(es)[|es| - 1] == last'.item;
      TagsDoNotMatter(before, before', calls, answered, names, dropAll, uuids);
      AlignedSnoc(before, last);
      AlignedSnoc(before', last');
      EntriesSnoc(Aligned(before), Entry(AlignItem(last.item), last.added));
      EntriesSnoc(Aligned(before'), Entry(AlignItem(last.item), last'.added));
      ClearedSnoc(before, last, dropAll, uuids);
      ClearedSnoc(before', last', dropAll, uuids);
      var cleared := ClearItem(last.item, dropAll, uuids(|before|));
      EntriesSnoc(Cleared(before, dropAll, uuids), Entry(cleared, last.added));
      EntriesSnoc(Cleared(before', dropAll, uuids), Entry(cleared, last'.added));
      SameInsertions(before, last, before', last', calls, answered, names);
    }
  }

  lemma {:induction false} SameInsertions(es: seq<Entry>, e: Entry, other: seq<Entry>, e': Entry, calls: set<string>,
                                          answered: set<string>, names: string -> Option<string>)
    requires Items(es) == Items(other) && e.item == e'.item
    requires Items(WithCalls(es, calls, names)) == Items(WithCalls(other, calls, names))
    requires Items(WithOutputs(es, answered)) == Items(WithOutputs(other, answered))
    ensures Items(WithCalls(es + [e], calls, names)) == Items(WithCalls(other + [e'], calls, names))
    ensures Items(WithOutputs(es + [e], answered)) == Items(WithOutputs(other + [e'], answered))
  {
    hide Given, Added, AddedKeys, Items, CallKeys, OutputKeys, WithCalls, WithOutputs, CallBefore, OutputAfter;
    WithCallsSnoc(es, e, calls, names);
    WithCallsSnoc(other, e', calls, names);
    WithOutputsSnoc(es, e, answered);
    WithOutputsSnoc(other, e', answered);
    var x := CallBefore(e.item, calls + OutputKeys(Items(es)), names);
    var y := OutputAfter(e.item, answered + CallKeys(Items(es)));
    var r, r' := WithCalls(es, calls, names), WithCalls(other, calls, names);
    var o, o' := WithOutputs(es, answered), WithOutputs(other, answered);
    EntriesConcat(r, x);
    EntriesConcat(r', x);
    EntriesSnoc(r + x, e);
    EntriesSnoc(r' + x, e');
    EntriesSnoc(o, e);
    EntriesSnoc(o', e');
    EntriesConcat(o + [e], y);
    EntriesConcat(o' + [e'], y);
  }

  /** `prepare_responses_input_items` after expansion. */
  method PrepareItems(expanded: seq<Item>, ghost es: seq<Entry>, orphanSynthesis: bool, statelessReplay: bool,
                      names: string -> Option<string>, uuids: nat -> string) returns (prepared: seq<Item>)
    requires forall n :: '-' in uuids(n)
    requires Items(es) == expanded
    ensures prepared == Items(Prepared(es, orphanSynthesis, statelessReplay, names, uuids))
    ensures NoLookups(prepared, statelessReplay, uuids)
    ensures orphanSynthesis ==> CallKeys(prepared) == OutputKeys(prepared)
  {
    hide Given, Added, AddedKeys, Items, CallKeys, OutputKeys, Cleared, Aligned, WithCalls, WithOutputs, NoLookups,
         Plain;
    PlainIsGiven(expanded);
    TagsDoNotMatter(Plain(expanded), es, {}, {}, names, false, uuids);
    prepared := AlignResponsesToolCallIds(expanded);
    ghost var middle := Aligned(es);
    if orphanSynthesis {
      PlainIsGiven(prepared);
      TagsDoNotMatter(Plain(prepared), middle, CallKeys(prepared), {}, names, false, uuids);
      prepared := SynthesizeOrphanToolCalls(prepared, names);
      middle := OrphansRepaired(middle, names);
      PlainIsGiven(prepared);
      TagsDoNotMatter(Plain(prepared), middle, {}, OutputKeys(prepared), names, false, uuids);
      prepared := SynthesizeMissingToolOutputs(prepared);
      middle := OutputsRepaired(middle);
    }
    PlainIsGiven(prepared);
    TagsDoNotMatter(Plain(prepared), middle, {}, {}, names, statelessReplay, uuids);
    var cleared: nat;
    prepared, cleared := ClearPersistedLookupIds(prepared, statelessReplay, uuids);
    PreparingKeeps(es, orphanSynthesis, statelessReplay, names, uuids);
  }
}
