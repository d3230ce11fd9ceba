/** Translation of OpenAI chat-completion chunks into Anthropic Messages events
    (codex_shim/server.py, AnthropicMessagesStreamState), proved against the strict client:
    what the client rebuilds is what the chunks say. */
module AnthropicStream {
  import opened Common
  import opened AnthropicClient
  import opened ChatUpstream

  datatype Ending = Finish | Fail(message: string, code: string)

  datatype ToolCall = ToolCall(id: string, name: string, arguments: string, emitted: nat,
                               blockIndex: Option<nat>, open: bool, closed: bool)

  function ChatFinishToStop(reason: string): string {
    if reason == "tool_calls" || reason == "function_call" then "tool_use"
    else if reason == "length" then "max_tokens"
    else if reason == "content_filter" then "refusal"
    else "end_turn"
  }

  function SaidStop(chunks: seq<Chunk>): string {
    if chunks == [] then "end_turn"
    else
      var last := chunks[|chunks| - 1].finishReason;
      if last.GetOr("") != "" then ChatFinishToStop(last.value) else SaidStop(chunks[..|chunks| - 1])
  }

  /** The stop reason is that of the last finish reason, which is a tool use for `tool_calls` and `function_call`, a
      lack of tokens for `length`, a refusal for `content_filter` and the end of the turn for any other one. */
  lemma {:induction false} StopMeans(chunks: seq<Chunk>, chunk: Chunk)
    ensures var stop, reason := SaidStop(chunks + [chunk]), chunk.finishReason.GetOr("");
            && (reason == "" ==> stop == SaidStop(chunks))
            && (reason != "" ==>
                  && (stop == "tool_use" <==> reason == "tool_calls" || reason == "function_call")
                  && (stop == "max_tokens" <==> reason == "length")
                  && (stop == "refusal" <==> reason == "content_filter")
                  && stop in {"tool_use", "max_tokens", "refusal", "end_turn"})
    ensures SaidStop([]) == "end_turn"
  {
    assert (chunks + [chunk])[..|chunks|] == chunks;
    var tool, tokens, refusal, end := "tool_use", "max_tokens", "refusal", "end_turn";
    assert |tool| == 8 && |tokens| == 10 && |refusal| == 7 && tool[0] != end[0];
    var calls, call, length, content := "tool_calls", "function_call", "length", "content_filter";
    assert |calls| == 10 && |call| == 13 && |length| == 6 && |content| == 14;
  }

  /** The last id given for a call up to the fragment that names it. */
  function IdWhenNamed(fs: seq<Fragment>, index: int): string {
    if fs == [] then ""
    else
      var prefix, last := fs[..|fs| - 1], fs[|fs| - 1];
      if FirstName(prefix, index) == "" && last.index == index && last.id != "" then last.id
      else IdWhenNamed(prefix, index)
  }

  function ToolId(fs: seq<Fragment>, index: int): string {
    OrElse(IdWhenNamed(fs, index), "call_" + IntText(index))
  }

  /** A call has the id of the fragment that names it; if neither that one nor any of the call's before it has an id,
      one is made from its index. */
  lemma {:induction false} ToolIdMeans(fs: seq<Fragment>, n: nat)
    requires n < |fs| && fs[n].name != ""
    requires forall m :: 0 <= m < n && fs[m].index == fs[n].index ==> fs[m].name == ""
    ensures fs[n].id != "" ==> ToolId(fs, fs[n].index) == fs[n].id
    ensures (forall m :: 0 <= m <= n && fs[m].index == fs[n].index ==> fs[m].id == "") ==>
              ToolId(fs, fs[n].index) == "call_" + IntText(fs[n].index)
  {
    hide FirstName, IntText;
    var last := |fs| - 1;
    if n < last {
      ToolIdMeans(fs[..last], n);
      FirstNameMeans(fs[..last], n);
    } else {
      FirstNameMeans(fs, n);
      if forall m :: 0 <= m <= n && fs[m].index == fs[n].index ==> fs[m].id == "" {
        NoId(fs, fs[n].index);
      }
    }
  }

  lemma {:induction false} NoId(fs: seq<Fragment>, i: int)
    requires forall m :: 0 <= m < |fs| && fs[m].index == i ==> fs[m].id == ""
    ensures IdWhenNamed(fs, i) == ""
  {
    if fs != [] {
      NoId(fs[..|fs| - 1], i);
    }
  }

  function ToolName(fs: seq<Fragment>, index: int): string {
    OrElse(FirstName(fs, index), "tool")
  }

  function Unnamed(keys: seq<int>, fs: seq<Fragment>): seq<int> {
    if keys == [] then []
    else
      var last := keys[|keys| - 1];
      Unnamed(keys[..|keys| - 1], fs) + (if FirstName(fs, last) == "" then [last] else [])
  }

  /** The calls a message shows: the named ones and, when it is finished rather than failed,
      the never-named ones in index order. */
  function ShownOrder(fs: seq<Fragment>, finished: bool): seq<int> {
    NamedOrder(fs) + (if finished then Unnamed(Sorted(Indices(fs)), fs) else [])
  }

  function SaidTool(fs: seq<Fragment>, index: int): ToolUse {
    ToolUse(ToolId(fs, index), ToolName(fs, index), Arguments(fs, index))
  }

  function SaidTools(order: seq<int>, fs: seq<Fragment>): seq<ToolUse> {
    seq(|order|, k requires 0 <= k < |order| => SaidTool(fs, order[k]))
  }

  lemma FragmentSnoc(fs: seq<Fragment>, f: Fragment, i: int)
    ensures Arguments(fs + [f], i) == Arguments(fs, i) + (if f.index == i then f.arguments else "")
    ensures FirstName(fs + [f], i) == if FirstName(fs, i) == "" && f.index == i then f.name else FirstName(fs, i)
    ensures IdWhenNamed(fs + [f], i) ==
            if FirstName(fs, i) == "" && f.index == i && f.id != "" then f.id else IdWhenNamed(fs, i)
    ensures NamedOrder(fs + [f]) ==
            NamedOrder(fs) + (if f.name != "" && FirstName(fs, f.index) == "" then [f.index] else [])
  {
    FragmentsSnoc(fs, f, i);
    assert (fs + [f])[..|fs|] == fs;
  }

  lemma Unseen(fs: seq<Fragment>, i: int)
    requires i !in Indices(fs)
    ensures Arguments(fs, i) == "" && FirstName(fs, i) == "" && IdWhenNamed(fs, i) == ""
  {
    UnseenSaysNothing(fs, i);
    if fs != [] {
      var n := |fs| - 1;
      assert fs[n] in fs;
      assert forall f :: f in fs[..n] ==> f in fs;
      Unseen(fs[..n], i);
    }
  }

  // ---- The translator's state against the client's ----

  /** The one open block of a plain kind is the one the index names, and none of its kind follows it. */
  ghost predicate PlainOk(blocks: seq<Block>, kind: Kind, index: Option<nat>, open: bool) {
    && open == index.Some?
    && (forall j :: 0 <= j < |blocks| && blocks[j].kind == kind && blocks[j].open ==> index == Some(j))
    && (index.Some? ==>
          && index.value < |blocks|
          && blocks[index.value].kind == kind
          && blocks[index.value].open
          && forall j :: index.value < j < |blocks| ==> blocks[j].kind != kind)
  }

  /** A call that owns a block shows there exactly what its fragments said. */
  ghost predicate CallOk(i: int, t: ToolCall, blocks: seq<Block>, owners: seq<Option<int>>, fs: seq<Fragment>) {
    && t.arguments == Arguments(fs, i)
    && (t.open ==> t.blockIndex.Some? && t.name != "" && FirstName(fs, i) != "")
    && (t.closed ==> t.blockIndex.Some? && !t.open)
    && (t.blockIndex.Some? ==>
          && (t.open || t.closed)
          && t.blockIndex.value < |blocks| == |owners|
          && owners[t.blockIndex.value] == Some(i)
          && blocks[t.blockIndex.value] == Block(Tool(ToolId(fs, i), ToolName(fs, i)), t.arguments, t.open)
          && t.emitted == |t.arguments|)
    && (t.blockIndex.None? ==> t.name == "" && FirstName(fs, i) == "" && t.id == IdWhenNamed(fs, i) && t.emitted == 0)
  }

  ghost predicate OwnersOk(blocks: seq<Block>, owners: seq<Option<int>>, calls: map<int, ToolCall>) {
    && |owners| == |blocks|
    && (forall k :: 0 <= k < |owners| ==> owners[k].Some? == blocks[k].kind.Tool?)
    && (forall k :: 0 <= k < |owners| && owners[k].Some? ==>
          owners[k].value in calls && calls[owners[k].value].blockIndex == Some(k))
  }

  ghost predicate ToolsOk(blocks: seq<Block>, owners: seq<Option<int>>, calls: map<int, ToolCall>, fs: seq<Fragment>) {
    && OwnersOk(blocks, owners, calls)
    && (forall i :: i in calls ==> CallOk(i, calls[i], blocks, owners, fs))
  }

  /** The owners of tool blocks, in block order. */
  ghost function Opened(owners: seq<Option<int>>): seq<int> {
    if owners == [] then []
    else
      var last := owners[|owners| - 1];
      Opened(owners[..|owners| - 1]) + (if last.Some? then [last.value] else [])
  }

  lemma OpenedSnoc(owners: seq<Option<int>>, o: Option<int>)
    ensures Opened(owners + [o]) == Opened(owners) + (if o.Some? then [o.value] else [])
  {
    assert (owners + [o])[..|owners|] == owners;
  }

  /** A block with an owner is a tool block that shows the owner's fragments; one without is plain. */
  ghost predicate BlockSays(b: Block, owner: Option<int>, fs: seq<Fragment>) {
    match owner
    case None => !b.kind.Tool?
    case Some(i) => b.kind.Tool? && ToolUse(b.kind.id, b.kind.name, b.body) == SaidTool(fs, i)
  }

  lemma {:induction false} ToolBlocksSay(blocks: seq<Block>, owners: seq<Option<int>>, fs: seq<Fragment>)
    requires |owners| == |blocks|
    requires forall k :: 0 <= k < |owners| ==> BlockSays(blocks[k], owners[k], fs)
    ensures ToolsOf(blocks) == SaidTools(Opened(owners), fs)
  {
    if blocks != [] {
      var n := |blocks| - 1;
      ToolBlocksSay(blocks[..n], owners[..n], fs);
      assert BlockSays(blocks[n], owners[n], fs);
    }
  }

  /** Changing plain blocks leaves the calls' blocks alone. */
  lemma ToolsOkPlain(blocks: seq<Block>, after: seq<Block>, owners: seq<Option<int>>, calls: map<int, ToolCall>,
                     fs: seq<Fragment>)
    requires ToolsOk(blocks, owners, calls, fs)
    requires |after| == |blocks|
    requires forall k :: 0 <= k < |blocks| ==> after[k].kind == blocks[k].kind
    requires forall k :: 0 <= k < |blocks| && blocks[k].kind.Tool? ==> after[k] == blocks[k]
    ensures ToolsOk(after, owners, calls, fs)
  {
    forall i | i in calls ensures CallOk(i, calls[i], after, owners, fs) {
      assert CallOk(i, calls[i], blocks, owners, fs);
    }
  }

  lemma ToolsOkGrow(blocks: seq<Block>, b: Block, owners: seq<Option<int>>, calls: map<int, ToolCall>,
                    fs: seq<Fragment>)
    requires ToolsOk(blocks, owners, calls, fs)
    requires !b.kind.Tool?
    ensures ToolsOk(blocks + [b], owners + [None], calls, fs)
  {
    forall i | i in calls ensures CallOk(i, calls[i], blocks + [b], owners + [None], fs) {
      assert CallOk(i, calls[i], blocks, owners, fs);
    }
  }

  lemma PlainOkGrow(blocks: seq<Block>, b: Block, kind: Kind, index: Option<nat>, open: bool)
    requires PlainOk(blocks, kind, index, open)
    requires b.open && (b.kind == kind ==> index == None)
    ensures PlainOk(blocks + [b], kind, if b.kind == kind then Some(|blocks|) else index, open || b.kind == kind)
  {
  }

  lemma PlainOkOpen(blocks: seq<Block>, kind: Kind, index: Option<nat>, open: bool)
    requires PlainOk(blocks, kind, index, open)
    ensures open == index.Some?
    ensures index.Some? ==>
              && index.value < |blocks|
              && blocks[index.value].kind == kind
              && blocks[index.value].open
              && forall j :: index.value < j < |blocks| ==> blocks[j].kind != kind
  {
  }

  lemma PlainOkOther(blocks: seq<Block>, after: seq<Block>, kind: Kind, index: Option<nat>, open: bool)
    requires PlainOk(blocks, kind, index, open)
    requires |after| == |blocks|
    requires forall k :: 0 <= k < |blocks| ==> after[k].kind == blocks[k].kind
    requires forall k :: 0 <= k < |blocks| && blocks[k].kind == kind ==> after[k].open == blocks[k].open
    ensures PlainOk(after, kind, index, open)
  {
  }

  /** What holds of a call's record when a fragment of it arrives. */
  lemma CallBefore(i: int, t: ToolCall, blocks: seq<Block>, owners: seq<Option<int>>, calls: map<int, ToolCall>,
                   fs: seq<Fragment>)
    requires ToolsOk(blocks, owners, calls, fs) && calls.Keys == Indices(fs)
    requires if i in calls then t == calls[i] && !t.closed else t == ToolCall("", "", "", 0, None, false, false)
    ensures |owners| == |blocks|
    ensures CallOk(i, t, blocks, owners, fs)
    ensures if t.open then
              && t.blockIndex.Some? && t.blockIndex.value < |blocks| && owners[t.blockIndex.value] == Some(i)
              && blocks[t.blockIndex.value].kind.Tool? && blocks[t.blockIndex.value].open
              && blocks[t.blockIndex.value].body == t.arguments && t.emitted == |t.arguments|
              && FirstName(fs, i) != ""
            else
              t.blockIndex.None? && t.name == "" && FirstName(fs, i) == "" && t.emitted == 0
  {
    if i !in calls {
      Unseen(fs, i);
    }
  }

  /** A call's record after a fragment, before anything is written. */
  ghost function Grown(t: ToolCall, f: Fragment): ToolCall {
    t.(id := OrElse(f.id, t.id), name := t.name + f.name, arguments := t.arguments + f.arguments)
  }

  /** The record and the block of a call after a fragment say what the fragments now say. */
  lemma CallTakes(f: Fragment, was: ToolCall, now: ToolCall, b: nat, blocks: seq<Block>, after: seq<Block>,
                  owners: seq<Option<int>>, ownersAfter: seq<Option<int>>, fs: seq<Fragment>)
    requires CallOk(f.index, was, blocks, owners, fs) && !was.closed
    requires !was.open && was.name + f.name == "" ==> now == Grown(was, f)
    requires was.open || was.name + f.name != "" ==>
               && b < |after| == |ownersAfter| && ownersAfter[b] == Some(f.index)
               && now.(id := was.id) == Grown(was, f).(id := was.id, emitted := |now.arguments|,
                                                       blockIndex := Some(b), open := true)
    requires was.open ==> was.blockIndex == Some(b) && after[b] == blocks[b].(body := now.arguments)
    requires !was.open && was.name + f.name != "" ==>
               && now.id == OrElse(Grown(was, f).id, "call_" + IntText(f.index))
               && after[b] == Block(Tool(now.id, now.name), now.arguments, true)
    ensures CallOk(f.index, now, after, ownersAfter, fs + [f])
  {
    FragmentSnoc(fs, f, f.index);
    assert "" + f.name == f.name;
  }

  /** No block changes kind, and no tool block but `b` changes at all. */
  ghost predicate Keeps(blocks: seq<Block>, after: seq<Block>, b: nat) {
    && |blocks| <= |after|
    && (forall k :: 0 <= k < |blocks| ==> after[k].kind == blocks[k].kind)
    && (forall k :: 0 <= k < |blocks| && blocks[k].kind.Tool? && k != b ==> after[k] == blocks[k])
  }

  /** A step that concerns one call, owner of block `b` if of any, leaves what is recorded of the others true. */
  lemma OthersKeep(index: int, more: seq<Fragment>, b: nat, blocks: seq<Block>, after: seq<Block>,
                   owners: seq<Option<int>>, ownersAfter: seq<Option<int>>, calls: map<int, ToolCall>, now: ToolCall,
                   fs: seq<Fragment>)
    requires more == [] || (|more| == 1 && more[0].index == index)
    requires ToolsOk(blocks, owners, calls, fs)
    requires CallOk(index, now, after, ownersAfter, fs + more)
    requires Keeps(blocks, after, b) && b <= |blocks|
    requires index in calls && calls[index].blockIndex.Some? ==> calls[index].blockIndex == Some(b) == now.blockIndex
    requires (index in calls ==> calls[index].blockIndex.None?) ==> b == |blocks|
    requires if |after| == |blocks| then ownersAfter == owners
             else |after| == |blocks| + 1 && after[b].kind.Tool? && b == |blocks|
                  && ownersAfter == owners + [Some(index)] && now.blockIndex == Some(b)
    ensures ToolsOk(after, ownersAfter, calls[index := now], fs + more)
  {
    var callsAfter := calls[index := now];
    forall i | i in callsAfter ensures CallOk(i, callsAfter[i], after, ownersAfter, fs + more) {
      if i != index {
        assert CallOk(i, calls[i], blocks, owners, fs);
        if more == [] {
          assert fs + more == fs;
        } else {
          FragmentSnoc(fs, more[0], i);
          assert more == [more[0]];
        }
      }
    }
    forall k | 0 <= k < |ownersAfter| && ownersAfter[k].Some?
      ensures ownersAfter[k].value in callsAfter && callsAfter[ownersAfter[k].value].blockIndex == Some(k)
    {
      if k < |owners| {
        assert ownersAfter[k] == owners[k];
      }
    }
  }

  /** What writing out call `index` does: `was` is its record before, `now` after. */
  ghost predicate Written(index: int, was: ToolCall, now: ToolCall, blocks: seq<Block>, after: seq<Block>,
                          owners: seq<Option<int>>, ownersAfter: seq<Option<int>>) {
    if was.open then
      && was.blockIndex.Some? && was.blockIndex.value < |blocks|
      && now == was.(emitted := |was.arguments|) && ownersAfter == owners
      && after == blocks[was.blockIndex.value := blocks[was.blockIndex.value].(body := was.arguments)]
    else if was.name != "" then
      && now == was.(id := OrElse(was.id, "call_" + IntText(index)), blockIndex := Some(|blocks|), open := true,
                     emitted := |was.arguments|)
      && ownersAfter == owners + [Some(index)]
      && |after| == |blocks| + 1 && after[|blocks|] == Block(Tool(now.id, now.name), now.arguments, true)
      && Keeps(blocks, after, |blocks|)
    else
      now == was && ownersAfter == owners && after == blocks
  }

  /** Recording a fragment and writing the call out keeps every call's block saying what its fragments say. */
  lemma DeltaKept(f: Fragment, was: ToolCall, now: ToolCall, blocks: seq<Block>, after: seq<Block>,
                  owners: seq<Option<int>>, ownersAfter: seq<Option<int>>, calls: map<int, ToolCall>,
                  callsAfter: map<int, ToolCall>, fs: seq<Fragment>)
    requires ToolsOk(blocks, owners, calls, fs) && calls.Keys == Indices(fs)
    requires callsAfter.Keys == calls.Keys + {f.index} && callsAfter[f.index] == now
    requires forall i :: i in calls && i != f.index ==> callsAfter[i] == calls[i]
    requires if f.index in calls then was == calls[f.index] && !was.closed
             else was == ToolCall("", "", "", 0, None, false, false)
    requires Written(f.index, Grown(was, f), now, blocks, after, owners, ownersAfter)
    requires Opened(owners) == NamedOrder(fs)
    ensures ToolsOk(after, ownersAfter, callsAfter, fs + [f])
    ensures Indices(fs + [f]) == callsAfter.Keys
    ensures Opened(ownersAfter) == NamedOrder(fs + [f])
    ensures !now.closed
  {
    hide ToolsOk, CallOk, Opened, NamedOrder, Indices, ToolId, ToolName, Arguments, FirstName, IdWhenNamed;
    CallBefore(f.index, was, blocks, owners, calls, fs);
    var b := if was.open then was.blockIndex.value else |blocks|;
    assert "" + f.name == f.name;
    CallTakes(f, was, now, b, blocks, after, owners, ownersAfter, fs);
    OthersKeep(f.index, [f], b, blocks, after, owners, ownersAfter, calls, now, fs);
    assert callsAfter == calls[f.index := now];
    FragmentSnoc(fs, f, f.index);
    IndicesSnoc(fs, f);
    OpenedSnoc(owners, Some(f.index));
  }

  /** What closing call `index` does; a call without a block gets one first. */
  ghost predicate Shut(index: int, was: ToolCall, now: ToolCall, blocks: seq<Block>, after: seq<Block>,
                       owners: seq<Option<int>>, ownersAfter: seq<Option<int>>) {
    if was.open then
      && was.blockIndex.Some? && was.blockIndex.value < |blocks|
      && now == was.(open := false, closed := true) && ownersAfter == owners
      && after == blocks[was.blockIndex.value := blocks[was.blockIndex.value].(open := false)]
    else
      && now == was.(id := OrElse(was.id, "call_" + IntText(index)), blockIndex := Some(|blocks|),
                     emitted := |was.arguments|, open := false, closed := true)
      && ownersAfter == owners + [Some(index)]
      && after == blocks + [Block(Tool(now.id, OrElse(was.name, "tool")), was.arguments, false)]
  }

  lemma ShutKept(index: int, was: ToolCall, now: ToolCall, blocks: seq<Block>, after: seq<Block>,
                 owners: seq<Option<int>>, ownersAfter: seq<Option<int>>, calls: map<int, ToolCall>,
                 fs: seq<Fragment>)
    requires ToolsOk(blocks, owners, calls, fs)
    requires index in calls && was == calls[index] && !was.closed
    requires Shut(index, was, now, blocks, after, owners, ownersAfter)
    ensures ToolsOk(after, ownersAfter, calls[index := now], fs)
    ensures Opened(ownersAfter) == Opened(owners) + (if FirstName(fs, index) == "" then [index] else [])
  {
    hide Opened, NamedOrder, Indices, Arguments, FirstName, IdWhenNamed;
    assert CallOk(index, was, blocks, owners, fs);
    var b := if was.open then was.blockIndex.value else |blocks|;
    assert fs + [] == fs;
    assert CallOk(index, now, after, ownersAfter, fs);
    OthersKeep(index, [], b, blocks, after, owners, ownersAfter, calls, now, fs);
    OpenedSnoc(owners, Some(index));
  }

  lemma AllShut(blocks: seq<Block>, owners: seq<Option<int>>, calls: map<int, ToolCall>, fs: seq<Fragment>)
    requires ToolsOk(blocks, owners, calls, fs)
    requires PlainOk(blocks, Text, None, false) && PlainOk(blocks, Thinking, None, false)
    requires forall i :: i in calls ==> !calls[i].open
    ensures AllClosed(blocks)
    ensures ToolsOf(blocks) == SaidTools(Opened(owners), fs)
  {
    hide Opened, Arguments, FirstName, IdWhenNamed, ToolId, ToolName;
    forall k | 0 <= k < |blocks| ensures !blocks[k].open && BlockSays(blocks[k], owners[k], fs) {
      if owners[k].Some? {
        assert CallOk(owners[k].value, calls[owners[k].value], blocks, owners, fs);
        SaidToolIs(fs, owners[k].value);
      } else {
        assert blocks[k].kind == Text || blocks[k].kind == Thinking;
      }
    }
    ToolBlocksSay(blocks, owners, fs);
  }

  lemma SaidToolIs(fs: seq<Fragment>, i: int)
    ensures SaidTool(fs, i) == ToolUse(ToolId(fs, i), ToolName(fs, i), Arguments(fs, i))
  {
  }

  class AnthropicMessagesStreamState {
    const model: string
    var nextIndex: nat
    var textIndex: Option<nat>
    var reasoningIndex: Option<nat>
    var textOpen: bool
    var reasoningOpen: bool
    var toolCalls: map<int, ToolCall>
    var stopReason: string
    var failed: bool
    var terminalEmitted: bool

    /** Everything written to the response so far, and the client that has read it. */
    var trace: seq<Event>
    ghost var client: Client
    /** Which upstream call each started block belongs to. */
    ghost var owners: seq<Option<int>>
    /** What has been asked of the translator so far. */
    ghost var text: string
    ghost var thinking: string
    ghost var fragments: seq<Fragment>

    ghost predicate InStep()
      reads `client, `trace, `nextIndex
    {
      client == Decode(trace) && client.phase.Streaming? && nextIndex == |client.blocks|
    }

    ghost predicate Says()
      reads `client, `text, `thinking
    {
      BodyOf(client.blocks, Text) == text && BodyOf(client.blocks, Thinking) == thinking
    }

    ghost predicate Plain()
      reads `client, `textIndex, `textOpen, `reasoningIndex, `reasoningOpen
    {
      && PlainOk(client.blocks, Text, textIndex, textOpen)
      && PlainOk(client.blocks, Thinking, reasoningIndex, reasoningOpen)
    }

    /** Between two chunks, after `start` and before `finish` or `fail`. */
    ghost predicate Live()
      reads this
    {
      && !failed && !terminalEmitted
      && InStep()
      && Says()
      && Plain()
      && ToolsOk(client.blocks, owners, toolCalls, fragments)
      && toolCalls.Keys == Indices(fragments)
      && (forall i :: i in toolCalls ==> !toolCalls[i].closed)
      && Opened(owners) == NamedOrder(fragments)
    }

    constructor (model: string)
      ensures this.model == model
      ensures !failed && !terminalEmitted && stopReason == "end_turn"
      ensures nextIndex == 0 && textIndex == reasoningIndex == None && !textOpen && !reasoningOpen && toolCalls == map[]
      ensures trace == [] && client == Client([], Waiting) && owners == []
      ensures text == thinking == "" && fragments == []
    {
      this.model := model;
      nextIndex := 0;
      textIndex, reasoningIndex := None, None;
      textOpen, reasoningOpen := false, false;
      toolCalls := map[];
      stopReason := "end_turn";
      failed, terminalEmitted := false, false;
      trace, client, owners := [], Client([], Waiting), [];
      text, thinking, fragments := "", "", [];
    }

    /** Write one event to the response. */
    method Emit(e: Event)
      requires client == Decode(trace)
      modifies `trace, `client
      ensures trace == old(trace) + [e]
      ensures client == Decode(trace) == Feed(old(client), e)
    {
      DecodeSnoc(trace, e);
      trace := trace + [e];
      client := Feed(client, e);
    }

    method Start()
      requires trace == [] && client == Client([], Waiting) && nextIndex == 0 && owners == []
      requires textIndex == reasoningIndex == None && !textOpen && !reasoningOpen && toolCalls == map[]
      requires text == thinking == "" && fragments == [] && !failed && !terminalEmitted
      modifies `trace, `client
      ensures Live()
    {
      assert Decode(trace) == client;
      Emit(MessageStart(model));
    }

    method CloseText()
      requires InStep() && Says() && Plain()
      modifies `trace, `client, `textIndex, `textOpen
      ensures InStep() && Says() && Plain() && textIndex == None
      ensures |client.blocks| == |old(client.blocks)| && Keeps(old(client.blocks), client.blocks, |client.blocks|)
      ensures forall k :: 0 <= k < |client.blocks| && client.blocks[k].kind != Text ==>
                client.blocks[k] == old(client.blocks)[k]
    {
      hide Decode, BodyOf;
      if textIndex == None { return; }
      Emit(BlockStop(textIndex.value));
      BodyOfSame(old(client.blocks), client.blocks, Text);
      BodyOfSame(old(client.blocks), client.blocks, Thinking);
      PlainOkOther(old(client.blocks), client.blocks, Thinking, reasoningIndex, reasoningOpen);
      textIndex := None;
      textOpen := false;
    }

    method CloseReasoning()
      requires InStep() && Says() && Plain()
      modifies `trace, `client, `reasoningIndex, `reasoningOpen
      ensures InStep() && Says() && Plain() && reasoningIndex == None
      ensures |client.blocks| == |old(client.blocks)| && Keeps(old(client.blocks), client.blocks, |client.blocks|)
      ensures forall k :: 0 <= k < |client.blocks| && client.blocks[k].kind != Thinking ==>
                client.blocks[k] == old(client.blocks)[k]
    {
      hide Decode, BodyOf;
      if reasoningIndex == None { return; }
      Emit(BlockStop(reasoningIndex.value));
      BodyOfSame(old(client.blocks), client.blocks, Text);
      BodyOfSame(old(client.blocks), client.blocks, Thinking);
      PlainOkOther(old(client.blocks), client.blocks, Text, textIndex, textOpen);
      reasoningIndex := None;
      reasoningOpen := false;
    }

    /** The first half of `TextDelta`: start a text block unless one is open. */
    method StartText()
      requires Live() && textIndex == None
      modifies this
      ensures Live() && textIndex.Some?
      ensures text == old(text) && thinking == old(thinking) && fragments == old(fragments)
      ensures stopReason == old(stopReason)
    {
      hide PlainOk, ToolsOk, Opened, NamedOrder, BodyOf, Indices, Decode;
      ghost var block := Block(Text, "", true);
      PlainOkOpen(client.blocks, Text, textIndex, textOpen);
      PlainOkGrow(client.blocks, block, Text, None, false);
      PlainOkGrow(client.blocks, block, Thinking, reasoningIndex, reasoningOpen);
      BodyOfSnoc(client.blocks, block, Text);
      BodyOfSnoc(client.blocks, block, Thinking);
      ToolsOkGrow(client.blocks, block, owners, toolCalls, fragments);
      OpenedSnoc(owners, None);
      textIndex := Some(nextIndex);
      nextIndex := nextIndex + 1;
      textOpen := true;
      Emit(BlockStart(textIndex.value, Text));
      owners := owners + [None];
    }

    method TextDelta(delta: string)
      requires Live()
      modifies this
      ensures Live()
      ensures text == old(text) + delta && thinking == old(thinking) && fragments == old(fragments)
      ensures stopReason == old(stopReason)
    {
      hide PlainOk, ToolsOk, Opened, NamedOrder, BodyOf, Indices, Decode;
      if textIndex == None {
        StartText();
      }
      ghost var before := client.blocks;
      PlainOkOpen(before, Text, textIndex, textOpen);
      Emit(BlockDelta(textIndex.value, DeltaKind.TextDelta, delta));
      BodyOfAppend(before, textIndex.value, Text, delta);
      BodyOfSame(before, client.blocks, Thinking);
      PlainOkOther(before, client.blocks, Text, textIndex, textOpen);
      PlainOkOther(before, client.blocks, Thinking, reasoningIndex, reasoningOpen);
      ToolsOkPlain(before, client.blocks, owners, toolCalls, fragments);
      text := text + delta;
    }

    /** The first half of `ReasoningDelta`: start a thinking block unless one is open. */
    method StartReasoning()
      requires Live() && reasoningIndex == None
      modifies this
      ensures Live() && reasoningIndex.Some?
      ensures text == old(text) && thinking == old(thinking) && fragments == old(fragments)
      ensures stopReason == old(stopReason)
    {
      hide PlainOk, ToolsOk, Opened, NamedOrder, BodyOf, Indices, Decode;
      ghost var block := Block(Thinking, "", true);
      PlainOkOpen(client.blocks, Thinking, reasoningIndex, reasoningOpen);
      PlainOkGrow(client.blocks, block, Thinking, None, false);
      PlainOkGrow(client.blocks, block, Text, textIndex, textOpen);
      BodyOfSnoc(client.blocks, block, Thinking);
      BodyOfSnoc(client.blocks, block, Text);
      ToolsOkGrow(client.blocks, block, owners, toolCalls, fragments);
      OpenedSnoc(owners, None);
      reasoningIndex := Some(nextIndex);
      nextIndex := nextIndex + 1;
      reasoningOpen := true;
      Emit(BlockStart(reasoningIndex.value, Thinking));
      owners := owners + [None];
    }

    method ReasoningDelta(delta: string)
      requires Live()
      modifies this
      ensures Live()
      ensures thinking == old(thinking) + delta && text == old(text) && fragments == old(fragments)
      ensures stopReason == old(stopReason)
    {
      hide PlainOk, ToolsOk, Opened, NamedOrder, BodyOf, Indices, Decode;
      if reasoningIndex == None {
        StartReasoning();
      }
      ghost var before := client.blocks;
      PlainOkOpen(before, Thinking, reasoningIndex, reasoningOpen);
      Emit(BlockDelta(reasoningIndex.value, DeltaKind.ThinkingDelta, delta));
      BodyOfAppend(before, reasoningIndex.value, Thinking, delta);
      BodyOfSame(before, client.blocks, Text);
      PlainOkOther(before, client.blocks, Thinking, reasoningIndex, reasoningOpen);
      PlainOkOther(before, client.blocks, Text, textIndex, textOpen);
      ToolsOkPlain(before, client.blocks, owners, toolCalls, fragments);
      thinking := thinking + delta;
    }

    /** Start the block of a call; a call without an id or a name gets a default one. */
    method OpenTool(index: int)
      requires InStep() && Says() && Plain() && index in toolCalls && |owners| == |client.blocks|
      modifies `trace, `client, `nextIndex, `toolCalls, `owners
      ensures InStep() && Says() && Plain()
      ensures var was := old(toolCalls)[index];
              var id := OrElse(was.id, "call_" + IntText(index));
              && toolCalls == old(toolCalls)[index := was.(id := id, blockIndex := Some(old(nextIndex)), open := true)]
              && client.blocks == old(client.blocks) + [Block(Tool(id, OrElse(was.name, "tool")), "", true)]
      ensures owners == old(owners) + [Some(index)]
      ensures Opened(owners) == Opened(old(owners)) + [index]
    {
      hide Decode, BodyOf, Opened, PlainOk;
      var state := toolCalls[index].(blockIndex := Some(nextIndex), open := true);
      nextIndex := nextIndex + 1;
      if state.id == "" {
        state := state.(id := "call_" + IntText(index));
      }
      toolCalls := toolCalls[index := state];
      ghost var block := Block(Tool(state.id, OrElse(state.name, "tool")), "", true);
      Emit(BlockStart(state.blockIndex.value, Tool(state.id, OrElse(state.name, "tool"))));
      BodyOfSnoc(old(client.blocks), block, Text);
      BodyOfSnoc(old(client.blocks), block, Thinking);
      PlainOkGrow(old(client.blocks), block, Text, textIndex, textOpen);
      PlainOkGrow(old(client.blocks), block, Thinking, reasoningIndex, reasoningOpen);
      OpenedSnoc(owners, Some(index));
      owners := owners + [Some(index)];
    }

    /** Send the arguments of an open call that have not been sent yet. */
    method EmitArguments(index: int)
      requires InStep() && Says() && Plain() && index in toolCalls
      requires var t := toolCalls[index];
               && t.emitted <= |t.arguments| && t.blockIndex.Some? && t.blockIndex.value < |client.blocks|
               && client.blocks[t.blockIndex.value].kind.Tool?
               && client.blocks[t.blockIndex.value].open
               && client.blocks[t.blockIndex.value].body == t.arguments[..t.emitted]
      modifies `trace, `client, `toolCalls
      ensures InStep() && Says() && Plain()
      ensures var was := old(toolCalls)[index];
              var b := was.blockIndex.value;
              && toolCalls == old(toolCalls)[index := was.(emitted := |was.arguments|)]
              && client.blocks == old(client.blocks)[b := old(client.blocks[b]).(body := was.arguments)]
    {
      hide Decode, BodyOf, PlainOk;
      var state := toolCalls[index];
      assert state.arguments == state.arguments[..state.emitted] + state.arguments[state.emitted..];
      if |state.arguments| > state.emitted {
        var delta := state.arguments[state.emitted..];
        toolCalls := toolCalls[index := state.(emitted := |state.arguments|)];
        Emit(BlockDelta(state.blockIndex.value, InputJsonDelta, delta));
        BodyOfSame(old(client.blocks), client.blocks, Text);
        BodyOfSame(old(client.blocks), client.blocks, Thinking);
        PlainOkOther(old(client.blocks), client.blocks, Text, textIndex, textOpen);
        PlainOkOther(old(client.blocks), client.blocks, Thinking, reasoningIndex, reasoningOpen);
      } else {
        assert state.arguments == state.arguments[..state.emitted];
      }
    }

    /** The second half of `ToolDelta`: start the block of a call once it has a name, closing the
        plain blocks first, and send what is unsent of its arguments. */
    method WriteCall(index: int)
      requires InStep() && Says() && Plain() && index in toolCalls && |owners| == |client.blocks|
      requires var t := toolCalls[index];
               if t.open then
                 && t.emitted <= |t.arguments| && t.blockIndex.Some? && t.blockIndex.value < |client.blocks|
                 && client.blocks[t.blockIndex.value].kind.Tool?
                 && client.blocks[t.blockIndex.value].open
                 && client.blocks[t.blockIndex.value].body == t.arguments[..t.emitted]
               else t.emitted == 0
      modifies `trace, `client, `nextIndex, `toolCalls, `owners, `textIndex, `textOpen, `reasoningIndex, `reasoningOpen
      ensures InStep() && Says() && Plain() && index in toolCalls
      ensures toolCalls.Keys == old(toolCalls).Keys
      ensures forall i :: i in toolCalls && i != index ==> toolCalls[i] == old(toolCalls)[i]
      ensures Written(index, old(toolCalls)[index], toolCalls[index], old(client.blocks), client.blocks, old(owners),
                      owners)
    {
      hide Decode, BodyOf, PlainOk, Opened;
      if !toolCalls[index].open && toolCalls[index].name != "" {
        if reasoningOpen {
          CloseReasoning();
        }
        if textOpen {
          CloseText();
        }
        OpenTool(index);
      }
      if toolCalls[index].open {
        EmitArguments(index);
      }
    }

    method ToolDelta(call: Fragment)
      requires Live()
      modifies `trace, `client, `nextIndex, `toolCalls, `owners, `textIndex, `textOpen, `reasoningIndex,
               `reasoningOpen, `fragments
      ensures Live()
      ensures fragments == old(fragments) + [call]
    {
      hide Decode, BodyOf, PlainOk, ToolsOk, CallOk, Opened, NamedOrder, Indices, Written, FirstName, Says, Plain,
           InStep;
      var index := call.index;
      if index !in toolCalls {
        toolCalls := toolCalls[index := ToolCall("", "", "", 0, None, false, false)];
      }
      ghost var was := toolCalls[index];
      CallBefore(index, was, client.blocks, owners, old(toolCalls), fragments);
      var state := toolCalls[index];
      state := state.(id := if call.id != "" then call.id else state.id);
      state := state.(name := state.name + call.name, arguments := state.arguments + call.arguments);
      toolCalls := toolCalls[index := state];
      WriteCall(index);
      DeltaKept(call, was, toolCalls[index], old(client.blocks), client.blocks, old(owners), owners,
                old(toolCalls), toolCalls, fragments);
      fragments := fragments + [call];
    }

    method WriteChatDelta(chunk: Chunk)
      requires Live()
      modifies this
      ensures Live()
      ensures text == old(text) + chunk.content
      ensures thinking == old(thinking) + ReasoningOf(chunk)
      ensures fragments == old(fragments) + chunk.toolCalls
      ensures stopReason == if chunk.finishReason.GetOr("") != "" then ChatFinishToStop(chunk.finishReason.value)
                            else old(stopReason)
    {
      hide Decode, BodyOf, PlainOk, ToolsOk, Opened, NamedOrder, Indices;
      if chunk.finishReason.GetOr("") != "" {
        stopReason := ChatFinishToStop(chunk.finishReason.value);
      }
      var reasoning := OrElse(chunk.reasoningContent, chunk.reasoning);
      if reasoning != "" {
        ReasoningDelta(reasoning);
      }
      if chunk.content != "" {
        if reasoningOpen {
          ghost var before := client.blocks;
          CloseReasoning();
          ToolsOkPlain(before, client.blocks, owners, toolCalls, fragments);
        }
        TextDelta(chunk.content);
      }
      WriteToolDeltas(chunk.toolCalls);
    }

    /** The loop over `delta.tool_calls`. */
    method WriteToolDeltas(calls: seq<Fragment>)
      requires Live()
      modifies this
      ensures Live()
      ensures fragments == old(fragments) + calls && text == old(text) && thinking == old(thinking)
      ensures stopReason == old(stopReason)
    {
      hide Live;
      for n := 0 to |calls|
        invariant Live()
        invariant fragments == old(fragments) + calls[..n] && text == old(text) && thinking == old(thinking)
        invariant stopReason == old(stopReason)
      {
        ToolDelta(calls[n]);
        assert calls[..n + 1] == calls[..n] + [calls[n]];
      }
      assert calls[..|calls|] == calls;
    }

    method CloseTool(index: int)
      requires InStep() && Says() && Plain()
      requires ToolsOk(client.blocks, owners, toolCalls, fragments)
      requires index in toolCalls && !toolCalls[index].closed
      modifies `trace, `client, `nextIndex, `toolCalls, `owners
      ensures InStep() && Says() && Plain()
      ensures ToolsOk(client.blocks, owners, toolCalls, fragments)
      ensures toolCalls.Keys == old(toolCalls).Keys && toolCalls[index].closed && !toolCalls[index].open
      ensures forall i :: i in toolCalls && i != index ==> toolCalls[i] == old(toolCalls)[i]
      ensures Opened(owners) == Opened(old(owners)) + (if FirstName(fragments, index) == "" then [index] else [])
    {
      hide Decode, BodyOf, PlainOk, Opened, NamedOrder, FirstName, Arguments, IdWhenNamed;
      ghost var was, calls := toolCalls[index], toolCalls;
      assert CallOk(index, was, client.blocks, owners, fragments);
      if !toolCalls[index].open {
        OpenTool(index);
        EmitArguments(index);
      }
      ghost var before := client.blocks;
      Emit(BlockStop(toolCalls[index].blockIndex.value));
      BodyOfSame(before, client.blocks, Text);
      BodyOfSame(before, client.blocks, Thinking);
      PlainOkOther(before, client.blocks, Text, textIndex, textOpen);
      PlainOkOther(before, client.blocks, Thinking, reasoningIndex, reasoningOpen);
      toolCalls := toolCalls[index := toolCalls[index].(open := false, closed := true)];
      ShutKept(index, was, toolCalls[index], old(client.blocks), client.blocks, old(owners), owners, calls, fragments);
      assert toolCalls == calls[index := toolCalls[index]];
    }

    /** The client holds a complete message that says what the fragments said. */
    ghost predicate Shown(finished: bool)
      reads this
    {
      && client == Decode(trace)
      && Says()
      && AllClosed(client.blocks)
      && ToolsOf(client.blocks) == SaidTools(ShownOrder(fragments, finished), fragments)
    }

    method Finish()
      requires failed || terminalEmitted || Live()
      modifies this
      ensures text == old(text) && thinking == old(thinking) && fragments == old(fragments)
              && stopReason == old(stopReason)
      ensures old(failed || terminalEmitted) ==> trace == old(trace) && client == old(client)
      ensures terminalEmitted || failed
      ensures old(!failed && !terminalEmitted) ==> Shown(true) && client.phase == Stopped(stopReason)
    {
      hide Decode, BodyOf, PlainOk, ToolsOk, Opened, NamedOrder, Indices, FirstName, ToolsOf;
      if failed || terminalEmitted { return; }
      ClosePlain();
      CloseCalls(true);
      PlainOkOpen(client.blocks, Text, textIndex, textOpen);
      PlainOkOpen(client.blocks, Thinking, reasoningIndex, reasoningOpen);
      AllShut(client.blocks, owners, toolCalls, fragments);
      Emit(MessageDelta(stopReason));
      Emit(MessageStop);
      terminalEmitted := true;
    }

    method Fail(message: string, code: string)
      requires failed || terminalEmitted || Live()
      modifies this
      ensures text == old(text) && thinking == old(thinking) && fragments == old(fragments)
              && stopReason == old(stopReason)
      ensures old(failed || terminalEmitted) ==> trace == old(trace) && client == old(client)
      ensures terminalEmitted || failed
      ensures old(!failed && !terminalEmitted) ==> Shown(false) && client.phase == Failed(code, message)
    {
      hide Decode, BodyOf, PlainOk, ToolsOk, Opened, NamedOrder, Indices, FirstName, ToolsOf;
      if failed || terminalEmitted { return; }
      ClosePlain();
      CloseCalls(false);
      PlainOkOpen(client.blocks, Text, textIndex, textOpen);
      PlainOkOpen(client.blocks, Thinking, reasoningIndex, reasoningOpen);
      AllShut(client.blocks, owners, toolCalls, fragments);
      Emit(Error(code, message));
      failed := true;
      terminalEmitted := true;
    }

    /** The first lines of `finish` and of `fail`. */
    method ClosePlain()
      requires Live()
      modifies `trace, `client, `textIndex, `textOpen, `reasoningIndex, `reasoningOpen
      ensures Live() && textIndex == None && reasoningIndex == None
    {
      hide Decode, BodyOf, PlainOk, ToolsOk, Opened, NamedOrder, Indices;
      PlainOkOpen(client.blocks, Text, textIndex, textOpen);
      PlainOkOpen(client.blocks, Thinking, reasoningIndex, reasoningOpen);
      ghost var before := client.blocks;
      if reasoningOpen {
        CloseReasoning();
      }
      if textOpen {
        CloseText();
      }
      ToolsOkPlain(before, client.blocks, owners, toolCalls, fragments);
    }

    /** The closing loop of `finish`, over every call, and of `fail`, over the open ones. */
    method CloseCalls(finishing: bool)
      requires Live() && textIndex == None && reasoningIndex == None
      modifies `trace, `client, `nextIndex, `toolCalls, `owners
      ensures InStep() && Says() && Plain()
      ensures ToolsOk(client.blocks, owners, toolCalls, fragments)
      ensures forall i :: i in toolCalls ==> !toolCalls[i].open
      ensures Opened(owners) == ShownOrder(fragments, finishing)
    {
      hide Decode, BodyOf, PlainOk, ToolsOk, Opened, NamedOrder, Indices, FirstName, CallOk, ShownAfter, ShownOrder,
           Sorted, Plain, InStep, Says;
      var keys := Sorted(toolCalls.Keys);
      ShownEnds(keys, fragments, finishing);
      for n := 0 to |keys|
        invariant InStep() && Says() && Plain()
        invariant ToolsOk(client.blocks, owners, toolCalls, fragments)
        invariant toolCalls.Keys == old(toolCalls.Keys)
        invariant forall m :: 0 <= m < n ==> !toolCalls[keys[m]].open
        invariant forall m :: n <= m < |keys| ==> !toolCalls[keys[m]].closed
        invariant Opened(owners) == ShownAfter(keys, n, fragments, finishing)
      {
        assert keys[n] in keys;
        assert forall m :: 0 <= m < |keys| && m != n ==> keys[m] in toolCalls && keys[m] != keys[n];
        OpenIsNamed(keys[n], client.blocks, owners, toolCalls, fragments);
        ShownStep(keys, n, fragments, finishing);
        if finishing || toolCalls[keys[n]].open {
          CloseTool(keys[n]);
        }
      }
      forall i | i in toolCalls ensures !toolCalls[i].open {
        assert i in keys;
      }
    }
  }

  lemma OpenIsNamed(i: int, blocks: seq<Block>, owners: seq<Option<int>>, calls: map<int, ToolCall>, fs: seq<Fragment>)
    requires ToolsOk(blocks, owners, calls, fs) && i in calls
    ensures calls[i].open ==> FirstName(fs, i) != ""
  {
    assert CallOk(i, calls[i], blocks, owners, fs);
  }

  /** The calls shown once the first `n` keys have been closed. */
  ghost function ShownAfter(keys: seq<int>, n: nat, fs: seq<Fragment>, finishing: bool): seq<int>
    requires n <= |keys|
  {
    NamedOrder(fs) + (if finishing then Unnamed(keys[..n], fs) else [])
  }

  lemma ShownStep(keys: seq<int>, n: nat, fs: seq<Fragment>, finishing: bool)
    requires n < |keys|
    ensures ShownAfter(keys, n + 1, fs, finishing) ==
            ShownAfter(keys, n, fs, finishing) + (if finishing && FirstName(fs, keys[n]) == "" then [keys[n]] else [])
  {
    assert keys[..n + 1][..n] == keys[..n];
  }

  lemma ShownEnds(keys: seq<int>, fs: seq<Fragment>, finishing: bool)
    requires keys == Sorted(Indices(fs))
    ensures ShownAfter(keys, 0, fs, finishing) == NamedOrder(fs)
    ensures ShownAfter(keys, |keys|, fs, finishing) == ShownOrder(fs, finishing)
  {
    assert keys[..0] == [];
    assert keys[..|keys|] == keys;
  }

  /** A whole turn: start, the chunks, then any number of endings, of which the first one counts.
      The client accepts the events and rebuilds exactly what the chunks say. */
  method Translate(model: string, chunks: seq<Chunk>, endings: seq<Ending>) returns (events: seq<Event>)
    requires endings != []
    ensures var c := Decode(events);
            && c.phase == (match endings[0]
                           case Finish => Stopped(SaidStop(chunks))
                           case Fail(message, code) => Failed(code, message))
            && AllClosed(c.blocks)
            && BodyOf(c.blocks, Text) == SaidText(chunks)
            && BodyOf(c.blocks, Thinking) == SaidThinking(chunks)
            && ToolsOf(c.blocks) == SaidTools(ShownOrder(DeltaFragments(chunks), endings[0].Finish?),
                                              DeltaFragments(chunks))
  {
    hide Decode, BodyOf, PlainOk, ToolsOk, Opened, NamedOrder, Indices, ToolsOf, AllClosed;
    var state := new AnthropicMessagesStreamState(model);
    state.Start();
    for n := 0 to |chunks|
      invariant state.Live() && fresh(state)
      invariant state.text == SaidText(chunks[..n]) && state.thinking == SaidThinking(chunks[..n])
      invariant state.fragments == DeltaFragments(chunks[..n]) && state.stopReason == SaidStop(chunks[..n])
    {
      state.WriteChatDelta(chunks[n]);
      assert chunks[..n + 1][..n] == chunks[..n];
    }
    assert chunks[..|chunks|] == chunks;
    for n := 0 to |endings|
      invariant fresh(state)
      invariant n == 0 ==> state.Live()
      invariant n > 0 ==> (state.failed || state.terminalEmitted) && state.Shown(endings[0].Finish?)
      invariant state.text == SaidText(chunks) && state.thinking == SaidThinking(chunks)
      invariant state.fragments == DeltaFragments(chunks) && state.stopReason == SaidStop(chunks)
      invariant n > 0 ==> state.client.phase == (match endings[0]
                                                 case Finish => Stopped(state.stopReason)
                                                 case Fail(message, code) => Failed(code, message))
    {
      match endings[n]
      case Finish => state.Finish();
      case Fail(message, code) => state.Fail(message, code);
    }
    events := state.trace;
  }
}
