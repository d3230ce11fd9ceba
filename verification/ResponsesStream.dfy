/** Translation of chat-completion chunks and Cursor events into Responses events
    (codex_shim/server.py, ResponsesStreamState), proved against the strict client. */
module ResponsesStream {
  import opened Common
  import opened ChatUpstream
  import opened ResponsesClient
  import opened ResponsesLayout
  import opened ResponsesOutput
  import opened ToolNames
  import ToolIds

  const REASONING_DELTA_CHUNK_CHARS := 80

  /** `_iter_reasoning_delta_chunks`: the pieces of a reasoning text, which rejoin to it. */
  method ReasoningDeltaChunks(text: string) returns (chunks: seq<string>)
    ensures Joined(chunks) == text
    ensures forall i :: 0 <= i < |chunks| ==> 0 < |chunks[i]| <= REASONING_DELTA_CHUNK_CHARS
    ensures forall i :: 0 <= i < |chunks| - 1 ==> |chunks[i]| == REASONING_DELTA_CHUNK_CHARS
  {
    if text == "" { return []; }
    if |text| <= REASONING_DELTA_CHUNK_CHARS { return [text]; }
    chunks := [];
    var start := 0;
    while start < |text|
      invariant 0 <= start <= |text|
      invariant Joined(chunks) == text[..start]
      invariant forall i :: 0 <= i < |chunks| ==> 0 < |chunks[i]| <= REASONING_DELTA_CHUNK_CHARS
      invariant start < |text| ==> forall i :: 0 <= i < |chunks| ==> |chunks[i]| == REASONING_DELTA_CHUNK_CHARS
      invariant forall i :: 0 <= i < |chunks| - 1 ==> |chunks[i]| == REASONING_DELTA_CHUNK_CHARS
    {
      var end := if start + REASONING_DELTA_CHUNK_CHARS < |text| then start + REASONING_DELTA_CHUNK_CHARS else |text|;
      JoinedSnoc(chunks, text[start..end]);
      assert text[..start] + text[start..end] == text[..end];
      chunks := chunks + [text[start..end]];
      start := end;
    }
    assert text[..start] == text;
  }

  function Joined(pieces: seq<string>): string {
    if pieces == [] then "" else Joined(pieces[..|pieces| - 1]) + pieces[|pieces| - 1]
  }

  lemma JoinedSnoc(pieces: seq<string>, piece: string)
    ensures Joined(pieces + [piece]) == Joined(pieces) + piece
  {
    assert (pieces + [piece])[..|pieces|] == pieces;
  }

  const THINKING_TITLE := "**cursor-agent · thinking**\n\n"

  /** A reasoning block is started under a key. */
  ghost predicate Started(store: map<nat, Block>, after: map<nat, Block>, blocks: map<ReasoningKey, nat>,
                          blocksAfter: map<ReasoningKey, nat>, key: ReasoningKey, k: nat, text: string) {
    blocksAfter == blocks[key := k] && after == store[k := Block("", Reasoning(text), false)]
  }

  /** A reasoning block goes on. */
  ghost predicate Continued(store: map<nat, Block>, after: map<nat, Block>, k: nat, text: string) {
    && k in store && store[k].item.Reasoning?
    && after == store[k := store[k].(item := Reasoning(store[k].item.text + text))]
  }

  ghost predicate Interrupted(was: Block, now: Block, message: string) {
    was.item.Reasoning? && now == was.(item := Reasoning(was.item.text + message), closed := true)
  }

  /** What a chat turn tells its client. */
  ghost predicate Tells(table: ToolTable, chunks: seq<Chunk>, ending: Ending, events: seq<Event>) {
    var c, fs := Decode(events), AllFragments(chunks);
    && c.phase.Closed?
    && c.phase.verdict == VerdictOf(AllReadable(table, fs), SaidText(chunks), fs, SaidFinish(chunks),
                                    SaidNative(chunks), ending)
    && Agrees(c.items, c.phase.output)
    && SaidOn(OutputText, c.phase.output) == SaidText(chunks)
    && SaidOn(ReasoningSummary, c.phase.output) == SaidThinking(chunks)
    && CallsOf(c.phase.output) == SaidCalls(table, fs, ShownOrder(table, fs))
    && (c.phase.verdict.Completed? ==> AllDone(c.items))
  }

  /** Whatever its calls are named, a turn that ends is accepted, with one verdict, `completed` only when every
      announced item is done and every call had arguments that could be read, and with all text and reasoning. Its
      output lacks one item for each call that strayed. An item of a call is done with arguments that can be read, and
      as soon as what has been streamed for it can be. */
  ghost predicate Ends(table: ToolTable, chunks: seq<Chunk>, ending: Ending, events: seq<Event>) {
    var c, fs := Decode(events), AllFragments(chunks);
    && c.phase.Closed?
    && c.phase.verdict == VerdictOf(AllDone(c.items), SaidText(chunks), fs, SaidFinish(chunks), SaidNative(chunks),
                                    ending)
    && (c.phase.verdict.Completed? ==> AllDone(c.items) && forall i :: i in Indices(fs) ==> EverReadable(table, fs, i))
    && DoneWhenReadable(table, c.items)
    && SaidOn(OutputText, c.phase.output) == SaidText(chunks)
    && SaidOn(ReasoningSummary, c.phase.output) == SaidThinking(chunks)
    && |c.phase.output| + |StrayedCalls(table, fs)| == |c.items|
  }

  /** A turn ends exactly if no call is stuck, and then tells its client what it should if and only if every call is
      kept. */
  ghost predicate TellsIfKept(table: ToolTable, chunks: seq<Chunk>, ending: Ending, events: seq<Event>) {
    var c, fs := Decode(events), AllFragments(chunks);
    && (Tells(table, chunks, ending, events) <==> AllKept(table, fs))
    && (Ends(table, chunks, ending, events) <==> !SomeStuck(table, fs))
    && (c.phase.Streaming? <==> SomeStuck(table, fs))
  }

  class ResponsesStreamState {
    const table: ToolTable
    var failed: bool
    var terminalEmitted: bool
    var messageIndex: Option<nat>
    var messageText: string
    var messageOpened: bool
    var messageClosed: bool
    /** The records, identified by their output index, and the dictionaries that refer to them. */
    var store: map<nat, Block>
    var toolCalls: map<int, nat>
    var mcpToolCalls: map<int, nat>
    var toolSearchCalls: map<int, nat>
    /** The tool searches without an output index, which the source keeps among the others. */
    var waitingSearches: map<int, Block>
    var reasoningBlocks: map<ReasoningKey, nat>
    var cursorThinkingSeq: nat
    var finishedMessages: map<nat, string>
    var nextOutputIndex: nat
    var upstreamFinishReason: Option<string>
    var upstreamNativeFinishReason: Option<string>

    /** Everything written to the response so far, and the client that has read it. */
    var trace: seq<Event>
    ghost var client: Client
    /** What each announced item belongs to. */
    ghost var owners: seq<Owner>
    /** What the chat chunks have said so far. */
    ghost var text: string
    ghost var thinking: string
    ghost var fragments: seq<Fragment>

    ghost function Current(): Option<nat>
      reads `messageOpened, `messageClosed, `messageIndex
    {
      if messageOpened && !messageClosed then messageIndex else None
    }

    ghost predicate InStep()
      reads `client, `trace, `nextOutputIndex
    {
      && client == Decode(trace) && client.phase.Streaming? && nextOutputIndex == |client.items|
      && DonesReadable(table, trace)
    }

    /** Between `start` and the terminal event: every announced item is accounted for. */
    ghost predicate Framed()
      reads `client, `trace, `nextOutputIndex, `owners, `store, `finishedMessages
      reads `messageOpened, `messageClosed, `messageIndex, `messageText
    {
      && InStep() && |owners| == |client.items|
      && Layout(client.items, owners, store, finishedMessages, Current(), messageText)
      && (messageOpened ==> messageIndex.Some?)
      && (messageClosed ==> messageOpened)
      && messageOpened == (messageText != "")
    }

    ghost function Heard(channel: Channel): string
      reads `client
    {
      Streamed(channel, client.items)
    }

    constructor (table: ToolTable)
      ensures this.table == table
      ensures !failed && !terminalEmitted && trace == [] && client == Client([], Waiting) && owners == []
      ensures messageIndex == None && messageText == "" && !messageOpened && !messageClosed
      ensures store == map[] && Books() == CallBooks(map[], map[], map[], map[]) && reasoningBlocks == map[]
      ensures cursorThinkingSeq == 0 && finishedMessages == map[] && nextOutputIndex == 0
      ensures upstreamFinishReason == None && upstreamNativeFinishReason == None
      ensures text == thinking == "" && fragments == []
    {
      this.table := table;
      failed, terminalEmitted := false, false;
      messageIndex, messageText, messageOpened, messageClosed := None, "", false, false;
      store, toolCalls, mcpToolCalls, toolSearchCalls := map[], map[], map[], map[];
      waitingSearches, reasoningBlocks := map[], map[];
      cursorThinkingSeq, finishedMessages, nextOutputIndex := 0, map[], 0;
      upstreamFinishReason, upstreamNativeFinishReason := None, None;
      trace, client, owners := [], Client([], Waiting), [];
      text, thinking, fragments := "", "", [];
    }

    /** Write one event to the response. */
    method Emit(e: Event)
      requires client == Decode(trace) && DonesReadable(table, trace)
      requires e.ItemDone? && e.item.Call? ==> Readable(table, TextOf(e.item))
      modifies `trace, `client
      ensures trace == old(trace) + [e] && DonesReadable(table, trace)
      ensures client == Decode(trace) == Feed(old(client), e)
    {
      hide Decode, Feed, Readable;
      DecodeSnoc(trace, e);
      assert forall x :: x in trace + [e] <==> x in trace || x == e;
      trace := trace + [e];
      client := Feed(client, e);
    }

    // ---- Messages ----

    method OpenMessage()
      requires InStep() && |owners| == |client.items| && !messageOpened && !messageClosed
      requires Layout(client.items, owners, store, finishedMessages, None, messageText)
      modifies `trace, `client, `owners, `messageIndex, `nextOutputIndex, `messageOpened
      ensures InStep() && |owners| == |client.items| && messageOpened && messageIndex == Some(|old(client.items)|)
      ensures client.items == old(client.items) + [Fresh(Message(""))]
      ensures Layout(client.items, owners, store, finishedMessages, messageIndex, "")
      ensures owners == old(owners) + [OfMessage]
    {
      hide Decode, DonesReadable, Layout;
      LayoutAddMessage(client.items, owners, store, finishedMessages, messageText);
      messageIndex := Some(nextOutputIndex);
      nextOutputIndex := nextOutputIndex + 1;
      messageOpened := true;
      Emit(ItemAdded(messageIndex.value, Message("")));
      Emit(PartAdded(messageIndex.value));
      owners := owners + [OfMessage];
    }

    method CloseMessage()
      requires Framed()
      modifies `trace, `client, `messageClosed, `finishedMessages
      ensures Framed() && messageClosed == messageOpened
      ensures Heard(OutputText) == old(Heard(OutputText)) && Heard(ReasoningSummary) == old(Heard(ReasoningSummary))
      ensures MessageTexts(client.items) == old(MessageTexts(client.items))
    {
      hide Decode, DonesReadable, Layout, Streamed, MessageTexts;
      if !messageOpened || messageClosed { return; }
      var m := messageIndex.value;
      ghost var before := client.items;
      LayoutAt(before, owners, store, finishedMessages, Current(), messageText, m);
      Emit(TextDone(m, OutputText, messageText));
      Emit(PartDone(m, messageText));
      Emit(ItemDone(m, Message(messageText)));
      LayoutFinish(before, owners, store, finishedMessages, m, messageText, client.items[m]);
      assert client.items == before[m := client.items[m]];
      StreamedSame(OutputText, before, client.items);
      StreamedSame(ReasoningSummary, before, client.items);
      messageClosed := true;
      finishedMessages := finishedMessages[messageIndex.value := messageText];
    }

    /** Reset the message fields and open the next message item. */
    method ReopenMessageSegment()
      requires Framed() && messageClosed
      modifies `trace, `client, `owners, `messageIndex, `nextOutputIndex, `messageOpened, `messageClosed, `messageText
      ensures InStep() && |owners| == |client.items| && messageOpened && !messageClosed && messageText == ""
      ensures messageIndex == Some(|old(client.items)|)
      ensures client.items == old(client.items) + [Fresh(Message(""))]
      ensures Layout(client.items, owners, store, finishedMessages, messageIndex, "")
      ensures owners == old(owners) + [OfMessage]
    {
      hide Decode, DonesReadable, Layout;
      LayoutFree(client.items, owners, store, finishedMessages, messageText, "");
      messageText := "";
      messageClosed := false;
      messageOpened := false;
      messageIndex := None;
      OpenMessage();
    }

    method TextDelta(text: string)
      requires Framed()
      modifies `trace, `client, `owners, `messageIndex, `nextOutputIndex, `messageOpened, `messageClosed, `messageText
      ensures Framed()
      ensures Heard(OutputText) == old(Heard(OutputText)) + text
              && Heard(ReasoningSummary) == old(Heard(ReasoningSummary))
      ensures owners == old(owners) || owners == old(owners) + [OfMessage]
      ensures text == "" ==>
                MessageTexts(client.items) == old(MessageTexts(client.items)) && Current() == old(Current())
      ensures text != "" ==> Current().Some?
      ensures text != "" ==>
                var before := old(MessageTexts(client.items));
                MessageTexts(client.items) ==
                (if old(Current()).Some? && before != [] then before[..|before| - 1] + [before[|before| - 1] + text]
                 else before + [text])
      ensures text != "" && old(Current()).Some? ==> old(MessageTexts(client.items)) != []
      ensures messageText == if old(messageClosed) && text != "" then text else old(messageText) + text
    {
      hide Decode, DonesReadable, Layout, Streamed, MessageTexts;
      if text == "" {
        return;
      }
      if messageClosed {
        ReopenMessageSegment();
        StreamedSnoc(OutputText, old(client.items), Fresh(Message("")));
        StreamedSnoc(ReasoningSummary, old(client.items), Fresh(Message("")));
      } else if !messageOpened {
        OpenMessage();
        StreamedSnoc(OutputText, old(client.items), Fresh(Message("")));
        StreamedSnoc(ReasoningSummary, old(client.items), Fresh(Message("")));
      }
      ghost var before := messageText;
      assert "" + text == text;
      ghost var texts := old(MessageTexts(client.items));
      assert (texts + [""])[..|texts|] == texts;
      messageText := messageText + text;
      SendText(text, before);
    }

    /** The delta event of `TextDelta`, once `messageText` holds the new text. */
    method SendText(text: string, ghost before: string)
      requires InStep() && |owners| == |client.items|
      requires messageOpened && !messageClosed && messageIndex.Some? && text != ""
      requires messageText == before + text
      requires Layout(client.items, owners, store, finishedMessages, Current(), before)
      modifies `trace, `client
      ensures Framed()
      ensures Heard(OutputText) == old(Heard(OutputText)) + text
              && Heard(ReasoningSummary) == old(Heard(ReasoningSummary))
      ensures var texts := old(MessageTexts(client.items));
              texts != [] && MessageTexts(client.items) == texts[..|texts| - 1] + [texts[|texts| - 1] + text]
    {
      hide Decode, DonesReadable, Layout, Streamed, MessageTexts;
      var m := messageIndex.value;
      ghost var items := client.items;
      LayoutAt(items, owners, store, finishedMessages, Current(), before, m);
      Emit(Delta(m, OutputText, text));
      LayoutText(items, owners, store, finishedMessages, m, before, client.items[m], messageText);
      StreamedAppend(OutputText, items, m, client.items[m], text);
      StreamedSame(ReasoningSummary, items, client.items);
    }

    // ---- Reasoning blocks ----

    /** `_emit_reasoning_summary_deltas`. */
    method EmitReasoningDeltas(k: nat, text: string)
      requires InStep() && k < |client.items| && client.items[k].added == Reasoning("")
      modifies `trace, `client
      ensures InStep()
      ensures client.items == old(client.items)[k := Grow(old(client.items)[k], text)]
    {
      hide Decode, DonesReadable;
      var chunks := ReasoningDeltaChunks(text);
      ghost var items := client.items;
      GrowNothing(items[k]);
      assert chunks[..0] == [];
      for n := 0 to |chunks|
        invariant InStep()
        invariant client.items == items[k := Grow(items[k], Joined(chunks[..n]))]
      {
        GrowMore(items[k], Joined(chunks[..n]), chunks[n]);
        JoinedSnoc(chunks[..n], chunks[n]);
        assert chunks[..n + 1] == chunks[..n] + [chunks[n]];
        Emit(Delta(k, ReasoningSummary, chunks[n]));
      }
      assert chunks[..|chunks|] == chunks;
    }

    /** Announce a reasoning item and record it, still empty. */
    method AddReasoning(key: ReasoningKey) returns (k: nat)
      requires Framed()
      modifies `trace, `client, `owners, `nextOutputIndex, `store, `reasoningBlocks
      ensures Framed() && k == |old(owners)|
      ensures reasoningBlocks == old(reasoningBlocks)[key := k]
      ensures store == old(store)[k := Block("", Reasoning(""), false)]
      ensures owners == old(owners) + [OfReasoning]
      ensures Heard(OutputText) == old(Heard(OutputText)) && Heard(ReasoningSummary) == old(Heard(ReasoningSummary))
      ensures MessageTexts(client.items) == old(MessageTexts(client.items))
    {
      hide Decode, DonesReadable, Layout, Streamed, MessageTexts;
      k := nextOutputIndex;
      nextOutputIndex := nextOutputIndex + 1;
      var blank := Block("", Reasoning(""), false);
      LayoutAddBlock(client.items, owners, store, finishedMessages, Current(), messageText, OfReasoning, blank);
      StreamedSnoc(OutputText, client.items, Fresh(blank.item));
      StreamedSnoc(ReasoningSummary, client.items, Fresh(blank.item));
      store := store[k := blank];
      reasoningBlocks := reasoningBlocks[key := k];
      Emit(ItemAdded(k, Reasoning("")));
      owners := owners + [OfReasoning];
    }

    method OpenReasoning(key: ReasoningKey, initialText: string) returns (k: nat)
      requires Framed()
      modifies `trace, `client, `owners, `nextOutputIndex, `store, `reasoningBlocks
      ensures Framed() && k == |old(owners)|
      ensures reasoningBlocks == old(reasoningBlocks)[key := k]
      ensures store == old(store)[k := Block("", Reasoning(initialText), false)]
      ensures owners == old(owners) + [OfReasoning]
      ensures Heard(OutputText) == old(Heard(OutputText))
      ensures Heard(ReasoningSummary) == old(Heard(ReasoningSummary)) + initialText
      ensures MessageTexts(client.items) == old(MessageTexts(client.items))
    {
      hide Decode, DonesReadable, Layout, Streamed, MessageTexts;
      k := AddReasoning(key);
      AppendReasoning(k, initialText);
      assert "" + initialText == initialText;
    }

    method AppendReasoning(k: nat, text: string)
      requires Framed() && k in store && store[k].item.Reasoning?
      modifies `trace, `client, `store
      ensures Framed()
      ensures store == old(store)[k := old(store)[k].(item := Reasoning(old(store)[k].item.text + text))]
      ensures Heard(OutputText) == old(Heard(OutputText))
      ensures MessageTexts(client.items) == old(MessageTexts(client.items))
      ensures (forall j :: k < j < |owners| ==> owners[j] != OfReasoning) ==>
                Heard(ReasoningSummary) == old(Heard(ReasoningSummary)) + text
    {
      hide Decode, DonesReadable, Layout, Streamed, MessageTexts;
      ghost var items := client.items;
      LayoutRecord(items, owners, store, finishedMessages, Current(), messageText, k);
      store := store[k := store[k].(item := Reasoning(store[k].item.text + text))];
      EmitReasoningDeltas(k, text);
      GrowDeltas(items[k], text);
      LayoutBlock(items, owners, old(store), finishedMessages, Current(), messageText, k, client.items[k], store[k]);
      StreamedSame(OutputText, items, client.items);
      if forall j :: k < j < |owners| ==> owners[j] != OfReasoning {
        LayoutChannel(items, owners, old(store), finishedMessages, Current(), messageText, k);
        StreamedAppend(ReasoningSummary, items, k, client.items[k], text);
      }
    }

    method CloseReasoning(k: nat)
      requires Framed() && k in store && store[k].item.Reasoning? && !store[k].closed
      modifies `trace, `client, `store
      ensures Framed()
      ensures store == old(store)[k := old(store)[k].(closed := true)]
      ensures Heard(OutputText) == old(Heard(OutputText)) && Heard(ReasoningSummary) == old(Heard(ReasoningSummary))
      ensures MessageTexts(client.items) == old(MessageTexts(client.items))
    {
      hide Decode, DonesReadable, Layout, Streamed, MessageTexts;
      ghost var items := client.items;
      hide Feed, BlockShown;
      LayoutRecord(items, owners, store, finishedMessages, Current(), messageText, k);
      FeedDone(client, k, store[k]);
      store := store[k := store[k].(closed := true)];
      Emit(TextDone(k, ReasoningSummary, store[k].item.text));
      Emit(ItemDone(k, store[k].item));
      LayoutBlock(items, owners, old(store), finishedMessages, Current(), messageText, k, client.items[k], store[k]);
      StreamedSame(OutputText, items, client.items);
      StreamedSame(ReasoningSummary, items, client.items);
    }

    // ---- Calls ----

    /** Announce a call's item and record it. */
    method AddCall(index: int, name: string, item: Output) returns (k: nat)
      requires Framed() && item.Call? && item.arguments == ""
      modifies `trace, `client, `owners, `nextOutputIndex, `store
      ensures Framed() && k == |old(owners)|
      ensures store == old(store)[k := Block(name, item, false)]
      ensures owners == old(owners) + [OfCall(index)]
      ensures Heard(OutputText) == old(Heard(OutputText)) && Heard(ReasoningSummary) == old(Heard(ReasoningSummary))
      ensures MessageTexts(client.items) == old(MessageTexts(client.items))
    {
      hide Decode, DonesReadable, Layout, Streamed, MessageTexts;
      k := nextOutputIndex;
      nextOutputIndex := nextOutputIndex + 1;
      ghost var items := client.items;
      LayoutAddBlock(items, owners, store, finishedMessages, Current(), messageText, OfCall(index),
                     Block(name, item, false));
      store := store[k := Block(name, item, false)];
      Emit(ItemAdded(k, item));
      owners := owners + [OfCall(index)];
      StreamedSnoc(OutputText, items, Fresh(item));
      StreamedSnoc(ReasoningSummary, items, Fresh(item));
    }

    /** Add to a call's arguments and, except for a tool search, send the addition. */
    method AppendArguments(k: nat, delta: string)
      requires Framed() && k in store && store[k].item.Call?
      modifies `trace, `client, `store
      ensures Framed()
      ensures var was := old(store)[k];
              store == old(store)[k := was.(item := WithText(was.item, TextOf(was.item) + delta))]
      ensures Heard(OutputText) == old(Heard(OutputText)) && Heard(ReasoningSummary) == old(Heard(ReasoningSummary))
      ensures MessageTexts(client.items) == old(MessageTexts(client.items))
    {
      hide Decode, DonesReadable, Layout, Streamed, MessageTexts;
      if delta == "" {
        assert store[k].item.arguments + delta == store[k].item.arguments;
        return;
      }
      ghost var items := client.items;
      LayoutRecord(items, owners, store, finishedMessages, Current(), messageText, k);
      GrowDeltas(items[k], delta);
      store := store[k := store[k].(item := store[k].item.(arguments := store[k].item.arguments + delta))];
      if Streams(store[k].item) {
        Emit(Delta(k, CallArguments, delta));
      }
      assert client.items == items[k := client.items[k]];
      LayoutBlock(items, owners, old(store), finishedMessages, Current(), messageText, k, client.items[k], store[k]);
      StreamedSame(OutputText, items, client.items);
      StreamedSame(ReasoningSummary, items, client.items);
    }

    /** The done events of a call. */
    method CloseCall(k: nat)
      requires Framed() && k in store && store[k].item.Call? && !store[k].closed
      requires Readable(table, store[k].item.arguments)
      modifies `trace, `client, `store
      ensures Framed()
      ensures store == old(store)[k := old(store)[k].(closed := true)]
      ensures Heard(OutputText) == old(Heard(OutputText)) && Heard(ReasoningSummary) == old(Heard(ReasoningSummary))
      ensures MessageTexts(client.items) == old(MessageTexts(client.items))
    {
      hide Decode, DonesReadable, Layout, Streamed, MessageTexts;
      ghost var items := client.items;
      hide Feed, BlockShown, Readable, DonesReadable;
      LayoutRecord(items, owners, store, finishedMessages, Current(), messageText, k);
      FeedDone(client, k, store[k]);
      store := store[k := store[k].(closed := true)];
      if Settles(store[k].item) {
        Emit(TextDone(k, CallArguments, store[k].item.arguments));
      }
      Emit(ItemDone(k, store[k].item));
      LayoutBlock(items, owners, old(store), finishedMessages, Current(), messageText, k, client.items[k], store[k]);
      StreamedSame(OutputText, items, client.items);
      StreamedSame(ReasoningSummary, items, client.items);
    }

    ghost predicate ReasoningRefs()
      reads `reasoningBlocks, `store
    {
      ReasoningApart(store, reasoningBlocks)
    }

    /** Close every reasoning block that is still open. */
    method CloseOpenReasoning()
      requires Framed() && ReasoningRefs()
      modifies `trace, `client, `store
      ensures Framed() && ReasoningRefs()
      ensures store.Keys == old(store).Keys
      ensures forall k :: k in store ==>
                || store[k] == old(store)[k]
                || (old(store)[k].item.Reasoning? && store[k] == old(store)[k].(closed := true))
      ensures forall key :: key in reasoningBlocks ==> store[reasoningBlocks[key]].closed
      ensures Heard(OutputText) == old(Heard(OutputText)) && Heard(ReasoningSummary) == old(Heard(ReasoningSummary))
      ensures MessageTexts(client.items) == old(MessageTexts(client.items))
    {
      hide Framed, Streamed, MessageTexts;
      var refs: seq<nat> := Sorted(reasoningBlocks.Values);
      for n := 0 to |refs|
        invariant Framed() && ReasoningRefs()
        invariant store.Keys == old(store).Keys
        invariant forall k :: k in store ==>
                    || store[k] == old(store)[k]
                    || (old(store)[k].item.Reasoning? && store[k] == old(store)[k].(closed := true))
        invariant forall m :: 0 <= m < n ==> refs[m] in store && store[refs[m]].closed
        invariant Heard(OutputText) == old(Heard(OutputText)) && Heard(ReasoningSummary) == old(Heard(ReasoningSummary))
        invariant MessageTexts(client.items) == old(MessageTexts(client.items))
      {
        assert refs[n] in refs;
        var k := refs[n];
        if !store[k].closed {
          CloseReasoning(k);
        }
      }
      forall key | key in reasoningBlocks ensures store[reasoningBlocks[key]].closed {
        assert reasoningBlocks[key] in reasoningBlocks.Values;
        assert reasoningBlocks[key] in refs;
      }
    }

    /** Add to a call's arguments and close the call once they are complete. */
    method TakeArguments(k: nat, delta: string)
      requires Framed() && k in store && store[k].item.Call?
      modifies `trace, `client, `store
      ensures Framed()
      ensures var was := old(store)[k];
              var arguments := TextOf(was.item) + delta;
              store == old(store)[k := Block(was.name, WithText(was.item, arguments),
                                             was.closed || ArgumentsComplete(table, was.name, arguments))]
      ensures Heard(OutputText) == old(Heard(OutputText)) && Heard(ReasoningSummary) == old(Heard(ReasoningSummary))
    {
      hide Framed, Streamed, MessageTexts;
      AppendArguments(k, delta);
      if ArgumentsComplete(table, store[k].name, store[k].item.arguments) && !store[k].closed {
        CloseCall(k);
      }
    }

    // ---- Cursor activities ----

    method OpenCursorToolActivity(callId: string, markdown: string)
      requires Framed() && ReasoningRefs()
      modifies `trace, `client, `owners, `nextOutputIndex, `store, `reasoningBlocks
      ensures Framed() && ReasoningRefs()
      ensures Started(old(store), store, old(reasoningBlocks), reasoningBlocks, CursorTool(callId), |old(owners)|,
                      markdown)
      ensures MessageTexts(client.items) == old(MessageTexts(client.items))
    {
      hide Framed, MessageTexts, Streamed;
      StoreBound();
      var k := OpenReasoning(CursorTool(callId), markdown);
    }

    /** A tool activity is started, or goes on in its block. */
    method AppendCursorToolActivity(callId: string, markdown: string)
      requires Framed() && ReasoningRefs()
      modifies `trace, `client, `owners, `nextOutputIndex, `store, `reasoningBlocks
      ensures Framed() && ReasoningRefs()
      ensures if markdown == "" then store == old(store) && reasoningBlocks == old(reasoningBlocks)
              else if CursorTool(callId) in old(reasoningBlocks) then
                && reasoningBlocks == old(reasoningBlocks)
                && Continued(old(store), store, reasoningBlocks[CursorTool(callId)], markdown)
              else Started(old(store), store, old(reasoningBlocks), reasoningBlocks, CursorTool(callId),
                           |old(owners)|, markdown)
      ensures MessageTexts(client.items) == old(MessageTexts(client.items))
    {
      hide Framed, MessageTexts, Streamed;
      if markdown == "" { return; }
      if CursorTool(callId) !in reasoningBlocks {
        OpenCursorToolActivity(callId, markdown);
        return;
      }
      AppendReasoning(reasoningBlocks[CursorTool(callId)], markdown);
    }

    /** `close_cursor_tool_activity` and `close_cursor_thinking_activity`. */
    method CloseCursorActivity(key: ReasoningKey)
      requires Framed() && ReasoningRefs()
      modifies `trace, `client, `store
      ensures Framed() && ReasoningRefs()
      ensures store == if key in reasoningBlocks then
                         old(store)[reasoningBlocks[key] := old(store)[reasoningBlocks[key]].(closed := true)]
                       else old(store)
      ensures MessageTexts(client.items) == old(MessageTexts(client.items))
    {
      hide Framed, MessageTexts, Streamed;
      if key in reasoningBlocks && !store[reasoningBlocks[key]].closed {
        CloseReasoning(reasoningBlocks[key]);
      }
    }

    /** Thinking goes on in the current block unless that block is closed; then a new one starts. */
    method AppendCursorThinkingActivity(delta: string)
      requires Framed() && ReasoningRefs()
      modifies `trace, `client, `owners, `nextOutputIndex, `store, `reasoningBlocks, `cursorThinkingSeq
      ensures Framed() && ReasoningRefs()
      ensures var key := CursorThinking(old(cursorThinkingSeq));
              var next := CursorThinking(cursorThinkingSeq);
              var isClosed := key in old(reasoningBlocks) && old(store)[old(reasoningBlocks)[key]].closed;
              && cursorThinkingSeq == old(cursorThinkingSeq) + (if delta != "" && isClosed then 1 else 0)
              && (if delta == "" then store == old(store) && reasoningBlocks == old(reasoningBlocks)
                  else if key in old(reasoningBlocks) && !isClosed then
                    reasoningBlocks == old(reasoningBlocks) && Continued(old(store), store, reasoningBlocks[key], delta)
                  else Started(old(store), store, old(reasoningBlocks), reasoningBlocks, next, |old(owners)|,
                               THINKING_TITLE + delta))
      ensures MessageTexts(client.items) == old(MessageTexts(client.items))
    {
      hide Framed, MessageTexts, Streamed;
      if delta == "" { return; }
      StoreBound();
      var key := CursorThinking(cursorThinkingSeq);
      if key in reasoningBlocks && store[reasoningBlocks[key]].closed {
        cursorThinkingSeq := cursorThinkingSeq + 1;
        key := CursorThinking(cursorThinkingSeq);
        var k := OpenReasoning(key, THINKING_TITLE + delta);
      } else if key !in reasoningBlocks {
        var k := OpenReasoning(key, THINKING_TITLE + delta);
      } else {
        AppendReasoning(reasoningBlocks[key], delta);
      }
    }

    /** The records of tool activities. */
    ghost function ToolRefs(keys: set<ReasoningKey>): set<nat>
      reads `reasoningBlocks
    {
      set key | key in keys && key in reasoningBlocks && key.CursorTool? :: reasoningBlocks[key]
    }

    /** One step of `interrupt_cursor_tool_activities`. */
    method InterruptActivity(k: nat, message: string)
      requires Framed() && ReasoningRefs() && k in store && store[k].item.Reasoning?
      modifies `trace, `client, `store
      ensures Framed() && ReasoningRefs() && store.Keys == old(store).Keys && store[k].closed
      ensures forall j :: j in store && (j != k || old(store)[j].closed) ==> store[j] == old(store)[j]
      ensures !old(store)[k].closed ==> Interrupted(old(store)[k], store[k], message)
      ensures MessageTexts(client.items) == old(MessageTexts(client.items))
    {
      hide Framed, MessageTexts, Streamed;
      if !store[k].closed {
        AppendReasoning(k, message);
        CloseReasoning(k);
      }
    }

    /** `interrupt_cursor_tool_activities`: exactly the open tool activities get the message and are closed. The
        order of the activities is left open. */
    method InterruptCursorToolActivities(message: string)
      requires Framed() && ReasoningRefs()
      modifies `trace, `client, `store
      ensures Framed() && ReasoningRefs() && store.Keys == old(store).Keys
      ensures forall k :: k in store ==>
                if k in ToolRefs(reasoningBlocks.Keys) && !old(store)[k].closed
                then Interrupted(old(store)[k], store[k], message) else store[k] == old(store)[k]
      ensures MessageTexts(client.items) == old(MessageTexts(client.items))
    {
      hide Framed, MessageTexts, Streamed;
      var todo := set key | key in reasoningBlocks && key.CursorTool?;
      while todo != {}
        invariant todo <= reasoningBlocks.Keys && store.Keys == old(store).Keys
        invariant Framed() && ReasoningRefs()
        invariant MessageTexts(client.items) == old(MessageTexts(client.items))
        invariant forall key :: key in reasoningBlocks && key.CursorTool? && key !in todo ==>
                    store[reasoningBlocks[key]].closed
        invariant forall k :: k in store ==>
                    || store[k] == old(store)[k]
                    || (k in ToolRefs(reasoningBlocks.Keys) && !old(store)[k].closed
                        && Interrupted(old(store)[k], store[k], message))
      {
        var key :| key in todo;
        assert reasoningBlocks[key] in ToolRefs(reasoningBlocks.Keys);
        InterruptActivity(reasoningBlocks[key], message);
        todo := todo - {key};
      }
    }

    // ---- Chat deltas ----

    ghost function Books(): CallBooks
      reads `toolCalls, `mcpToolCalls, `toolSearchCalls, `waitingSearches
    {
      CallBooks(toolCalls, mcpToolCalls, toolSearchCalls, waitingSearches)
    }

    method ChatToolSearchDelta(call: Fragment) returns (k: Option<nat>)
      requires Framed() && ReasoningRefs() && Kinds(store, Books())
      requires call.index in toolSearchCalls ==> call.index !in waitingSearches
      modifies `trace, `client, `store, `owners, `nextOutputIndex, `toolSearchCalls, `waitingSearches
      ensures Framed()
      ensures TakenAsSearch(table, call, k, old(Books()), Books(), old(owners), owners, old(store), store)
      ensures Heard(OutputText) == old(Heard(OutputText)) && Heard(ReasoningSummary) == old(Heard(ReasoningSummary))
    {
      hide Framed, Streamed, MessageTexts, ArgumentsComplete, IsSearch, TakesIn, Kinds;
      KindOf(store, Books(), call.index);
      var index := call.index;
      if index in toolSearchCalls {
        var open := toolSearchCalls[index];
        ghost var was := SearchWas(call, Books(), store);
        TakeArguments(open, call.arguments);
        TakesInFrom(table, call, open, true, was, old(owners), owners, old(store), old(store), store);
        assert toolSearchCalls[index := open] == toolSearchCalls && waitingSearches - {index} == waitingSearches;
        return Some(open);
      }
      var record := if index in waitingSearches then waitingSearches[index] else SearchRecord(call);
      var arguments := TextOf(record.item) + call.arguments;
      if IsSearch(record.name) || ArgumentsComplete(table, record.name, arguments) {
        var added := TakeSearch(call, record);
        return Some(added);
      }
      waitingSearches := waitingSearches[index := record.(item := WithText(record.item, arguments))];
      return None;
    }

    /** The tool search is announced, and then has all its arguments so far. */
    method TakeSearch(call: Fragment, record: Block) returns (k: nat)
      requires Framed() && ReasoningRefs() && record.item.Call? && !record.closed && call.index !in toolSearchCalls
      modifies `trace, `client, `store, `owners, `nextOutputIndex, `toolSearchCalls, `waitingSearches
      ensures Framed()
      ensures TakesIn(table, call, k, false, record, old(owners), owners, old(store), store)
      ensures toolSearchCalls == old(toolSearchCalls)[call.index := k]
      ensures waitingSearches == old(waitingSearches) - {call.index}
      ensures Heard(OutputText) == old(Heard(OutputText)) && Heard(ReasoningSummary) == old(Heard(ReasoningSummary))
    {
      hide Framed, Streamed, MessageTexts, ArgumentsComplete, TakesIn;
      var arguments := TextOf(record.item) + call.arguments;
      k := OpenToolSearch(call.index, record);
      ghost var made := store;
      TakeArguments(k, arguments);
      assert "" + arguments == arguments;
      TakesInFrom(table, call, k, false, record, old(owners), owners, old(store), made, store);
    }

    /** `_open_tool_search`: the item is announced without arguments. */
    method OpenToolSearch(index: int, record: Block) returns (k: nat)
      requires Framed() && ReasoningRefs() && record.item.Call?
      modifies `trace, `client, `store, `owners, `nextOutputIndex, `toolSearchCalls, `waitingSearches
      ensures Framed() && k == |old(owners)| && k in store && k !in old(store)
      ensures store[k] == Block(record.name, WithText(record.item, ""), false) && store.Keys == old(store).Keys + {k}
      ensures forall j :: j in old(store) ==>
                && j in store
                && (store[j] == old(store)[j]
                    || (old(store)[j].item.Reasoning? && store[j] == old(store)[j].(closed := true)))
      ensures owners == old(owners) + [OfCall(index)]
      ensures toolSearchCalls == old(toolSearchCalls)[index := k] && waitingSearches == old(waitingSearches) - {index}
      ensures Heard(OutputText) == old(Heard(OutputText)) && Heard(ReasoningSummary) == old(Heard(ReasoningSummary))
    {
      hide Framed, Streamed, MessageTexts;
      StoreBound();
      CloseOpenReasoning();
      k := AddCall(index, record.name, WithText(record.item, ""));
      toolSearchCalls := toolSearchCalls[index := k];
      waitingSearches := waitingSearches - {index};
    }

    method ChatMcpToolDelta(call: Fragment, name: string) returns (k: nat)
      requires Framed() && ReasoningRefs() && Kinds(store, Books()) && McpReference(name).Some?
      modifies `trace, `client, `store, `owners, `nextOutputIndex, `mcpToolCalls
      ensures Framed()
      ensures TakenAsMcp(table, call, name, k, old(Books()), Books(), old(owners), owners, old(store), store)
      ensures Heard(OutputText) == old(Heard(OutputText)) && Heard(ReasoningSummary) == old(Heard(ReasoningSummary))
    {
      hide Framed, Streamed, MessageTexts, ArgumentsComplete, McpReference, McpRecord, TakesIn;
      var seen := call.index in mcpToolCalls;
      if seen {
        k := mcpToolCalls[call.index];
        assert mcpToolCalls[call.index := k] == mcpToolCalls;
      } else {
        StoreBound();
        CloseOpenReasoning();
        McpRecordIsCall(call, name);
        k := AddCall(call.index, name, McpRecord(call, name).item);
        mcpToolCalls := mcpToolCalls[call.index := k];
      }
      ghost var made := store;
      TakeArguments(k, call.arguments);
      TakesInFrom(table, call, k, seen, McpRecord(call, name), old(owners), owners, old(store), made, store);
    }

    /** `_open_tool`: close the open message and announce a call of a plain tool. */
    method OpenTool(index: int, callId: string, name: string, namespace: Option<string>) returns (k: nat)
      requires Framed()
      modifies `trace, `client, `store, `owners, `nextOutputIndex, `toolCalls, `messageClosed, `finishedMessages
      ensures Framed() && k == |old(owners)|
      ensures var item := if table.isWebSearch(name) then Call(WebSearch, callId, name, namespace, "")
                          else Call(Function, ToolIds.CallId(callId), name, namespace, "");
              store == old(store)[k := Block(name, item, false)]
      ensures owners == old(owners) + [OfCall(index)]
      ensures toolCalls == old(toolCalls)[index := k]
      ensures Heard(OutputText) == old(Heard(OutputText)) && Heard(ReasoningSummary) == old(Heard(ReasoningSummary))
    {
      hide Framed, Streamed, MessageTexts;
      CloseMessage();
      var item := if table.isWebSearch(name) then Call(WebSearch, callId, name, namespace, "")
                  else Call(Function, ToolIds.CallId(callId), name, namespace, "");
      k := AddCall(index, name, item);
      toolCalls := toolCalls[index := k];
    }

    /** The part of `_chat_tool_delta` for plain tools. */
    method ChatPlainToolDelta(call: Fragment, name: string) returns (k: nat)
      requires Framed() && Kinds(store, Books())
      modifies `trace, `client, `store, `owners, `nextOutputIndex, `toolCalls, `messageClosed, `finishedMessages
      ensures Framed()
      ensures TakenAsPlain(table, call, name, k, old(Books()), Books(), old(owners), owners, old(store), store)
      ensures Heard(OutputText) == old(Heard(OutputText)) && Heard(ReasoningSummary) == old(Heard(ReasoningSummary))
    {
      hide Framed, Streamed, MessageTexts, ArgumentsComplete, Resolve, TakesIn, Kinds;
      StoreBound();
      KindOf(store, Books(), call.index);
      var seen := call.index in toolCalls;
      if seen {
        k := toolCalls[call.index];
        assert toolCalls[call.index := k] == toolCalls;
      } else {
        var callId := OrElse(call.id, "call_" + IntText(call.index));
        if !table.isWebSearch(name) {
          callId := ToolIds.CallId(callId);
        }
        var (namespace, tool) := Resolve(table.toolResolve, name);
        k := OpenTool(call.index, callId, tool, namespace);
      }
      ghost var made := store;
      TakeArguments(k, call.arguments);
      TakesInFrom(table, call, k, seen, PlainRecord(table, call, name), old(owners), owners, old(store), made, store);
    }

    /** Between two chunks of a chat stream the message stays open until a call closes it. */
    ghost predicate Chatting()
      reads `client, `trace, `nextOutputIndex, `owners, `store, `finishedMessages
      reads `messageOpened, `messageClosed, `messageIndex, `messageText
      reads `toolCalls, `mcpToolCalls, `toolSearchCalls, `waitingSearches, `reasoningBlocks
      reads `text, `thinking, `fragments
    {
      Records() && (fragments == [] ==> !messageClosed)
    }

    /** Every call is kept where it belongs and, while none has strayed, every record says what the chunks of a
        chat stream have said. */
    ghost predicate Records()
      reads `client, `trace, `nextOutputIndex, `owners, `store, `finishedMessages
      reads `messageOpened, `messageClosed, `messageIndex, `messageText
      reads `toolCalls, `mcpToolCalls, `toolSearchCalls, `waitingSearches, `reasoningBlocks
      reads `text, `thinking, `fragments
    {
      && Framed()
      && Kinds(store, Books()) && Filed(table, fragments, store, Books()) && Owned(table, owners, store, Books())
      && AllTold(table, fragments, store, Books())
      && (NoneStrayed(table, fragments) ==> CallsOk(table, owners, store, Books().All(), fragments))
      && ReasoningOk(owners, store, reasoningBlocks)
      && Heard(OutputText) == text && Heard(ReasoningSummary) == thinking
      && (fragments == [] ==> messageText == text)
    }

    lemma StoreBound()
      requires Framed()
      ensures forall k :: k in store ==> k < |owners|
      ensures ReasoningOk(owners, store, reasoningBlocks) ==> ReasoningRefs()
    {
    }

    /** The branches of `_chat_tool_delta`. */
    method RouteToolDelta(call: Fragment) returns (k: Option<nat>)
      requires Framed() && ReasoningRefs() && Kinds(store, Books())
      requires FiledAt(table, fragments, call.index, store, Books()) && NamesWhole(fragments, call)
      modifies `trace, `client, `store, `owners, `nextOutputIndex
      modifies `toolCalls, `mcpToolCalls, `toolSearchCalls, `waitingSearches, `messageClosed, `finishedMessages
      ensures Framed()
      ensures Routed(table, fragments, call, k, old(Books()), Books(), old(owners), owners, old(store), store)
      ensures Heard(OutputText) == old(Heard(OutputText)) && Heard(ReasoningSummary) == old(Heard(ReasoningSummary))
    {
      hide Framed, Streamed, MessageTexts, TakenAsSearch, TakenAsMcp, TakenAsPlain, Heard, IsSearch, McpReference,
           Kinds;
      var index := call.index;
      assert index in mcpToolCalls ==> mcpToolCalls[index] in store by {
        KindOf(store, Books(), index);
      }
      assert index in toolSearchCalls ==> toolSearchCalls[index] in store by {
        KindOf(store, Books(), index);
      }
      var name := if index in toolCalls then store[toolCalls[index]].name
                  else if index in mcpToolCalls then store[mcpToolCalls[index]].name
                  else if index in toolSearchCalls then store[toolSearchCalls[index]].name
                  else if index in waitingSearches then waitingSearches[index].name
                  else Strip(call.name);
      NameFound(table, fragments, call, store, Books(), name);
      if IsSearch(name) || index in toolSearchCalls || index in waitingSearches {
        k := ChatToolSearchDelta(call);
      } else if McpReference(name).Some? || index in mcpToolCalls {
        var taken := ChatMcpToolDelta(call, name);
        k := Some(taken);
      } else {
        var taken := ChatPlainToolDelta(call, name);
        k := Some(taken);
      }
    }

    method ChatToolDelta(call: Fragment)
      requires Chatting() && NamesWhole(fragments, call)
      modifies `trace, `client, `store, `owners, `nextOutputIndex
      modifies `toolCalls, `mcpToolCalls, `toolSearchCalls, `waitingSearches, `messageClosed, `finishedMessages
      modifies `fragments
      ensures Chatting() && fragments == old(fragments) + [call]
    {
      hide Framed, Streamed, MessageTexts, CallsOk, NoneStrayed, FiledAt, Kinds, ReasoningOk, Heard, Routed, NamesWhole,
           Owned, AllTold;
      StoreBound();
      assert FiledAt(table, fragments, call.index, store, Books());
      var k := RouteToolDelta(call);
      ghost var was, before := old(Books()), old(store);
      OwnedTraced(table, old(owners), before, was);
      ToldTake(table, fragments, call, k, was, Books(), old(owners), owners, before, store);
      FiledTake(table, fragments, call, k, old(Books()), Books(), old(owners), owners, old(store), store);
      KindsTake(table, fragments, call, k, old(Books()), Books(), old(owners), owners, old(store), store);
      TakesInReasoning(table, fragments, call, k, old(Books()), Books(), old(owners), owners, old(store), store,
                       reasoningBlocks);
      OwnedTake(table, fragments, call, k, old(Books()), Books(), old(owners), owners, old(store), store);
      if NoneStrayed(table, fragments + [call]) {
        NoneStrayedBefore(table, fragments, call);
        ChatTake(table, fragments, call, k, old(Books()), Books(), old(owners), owners, old(store), store);
      }
      fragments := fragments + [call];
    }

    /** The loops over `delta.tool_calls` and `message.tool_calls`. */
    method ChatToolDeltas(calls: seq<Fragment>)
      requires Chatting() && WholeNames(fragments + calls)
      modifies `trace, `client, `store, `owners, `nextOutputIndex
      modifies `toolCalls, `mcpToolCalls, `toolSearchCalls, `waitingSearches, `messageClosed, `finishedMessages
      modifies `fragments
      ensures Chatting() && fragments == old(fragments) + calls
    {
      hide Chatting, WholeNames, NamesWhole;
      for n := 0 to |calls|
        invariant Chatting() && fragments == old(fragments) + calls[..n]
      {
        assert old(fragments) + calls == fragments + [calls[n]] + calls[n + 1..];
        WholeNamesPrefix(fragments, calls[n], calls[n + 1..]);
        ChatToolDelta(calls[n]);
        assert calls[..n + 1] == calls[..n] + [calls[n]];
      }
      assert calls[..|calls|] == calls;
    }

    method ChatReasoningDelta(delta: string)
      requires Chatting()
      modifies `trace, `client, `owners, `nextOutputIndex, `store, `reasoningBlocks, `thinking
      ensures Chatting() && thinking == old(thinking) + delta
    {
      hide Streamed, MessageTexts, CallsOk, NoneStrayed, Filed, Kinds, Framed, Owned, AllTold, ReasoningOk, Heard,
           ReasoningApart;
      StoreBound();
      ghost var more;
      if Chat in reasoningBlocks {
        ReasoningAt(owners, store, reasoningBlocks);
        AppendReasoning(reasoningBlocks[Chat], delta);
        ReasoningKeep(owners, [], old(store), store, reasoningBlocks);
        more := [];
      } else {
        ReasoningStarts(owners, store, reasoningBlocks, delta);
        var k := OpenReasoning(Chat, delta);
        more := [OfReasoning];
      }
      assert owners == old(owners) + more;
      ChatKeep(table, old(owners), more, old(store), store, Books(), fragments);
      thinking := thinking + delta;
    }

    /** Closing the open reasoning is a step between chat deltas. */
    method ChatCloseReasoning()
      requires Records()
      modifies `trace, `client, `store
      ensures Records()
      ensures forall key :: key in reasoningBlocks ==>
                reasoningBlocks[key] in store && store[reasoningBlocks[key]].closed
    {
      hide Streamed, MessageTexts, CallsOk, NoneStrayed, Filed, Kinds, Framed, ReasoningOk, Owned, AllTold;
      StoreBound();
      CloseOpenReasoning();
      ChatKeep(table, owners, [], old(store), store, Books(), fragments);
      assert owners + [] == owners;
      ReasoningKeep(owners, [], old(store), store, reasoningBlocks);
    }

    method ChatTextDelta(delta: string)
      requires Chatting() && delta != ""
      modifies `trace, `client, `owners, `messageIndex, `nextOutputIndex, `messageOpened, `messageClosed, `messageText,
               `text
      ensures Chatting() && text == old(text) + delta
    {
      hide Streamed, MessageTexts, CallsOk, NoneStrayed, Filed, Kinds, Framed, ReasoningOk, Owned, AllTold;
      StoreBound();
      TextDelta(delta);
      ghost var more := if owners == old(owners) then [] else [OfMessage];
      assert owners == old(owners) + more;
      ChatKeep(table, old(owners), more, store, store, Books(), fragments);
      ReasoningKeep(old(owners), more, store, store, reasoningBlocks);
      text := text + delta;
    }

    method WriteChatDelta(chunk: Chunk)
      requires Chatting() && WholeNames(fragments + chunk.toolCalls + chunk.messageToolCalls)
      modifies this
      ensures Chatting()
      ensures text == old(text) + chunk.content && thinking == old(thinking) + ChatUpstream.ReasoningOf(chunk)
      ensures fragments == old(fragments) + chunk.toolCalls + chunk.messageToolCalls
      ensures upstreamFinishReason == if chunk.finishReason.Some? then chunk.finishReason else old(upstreamFinishReason)
      ensures upstreamNativeFinishReason ==
              if chunk.nativeFinishReason.Some? then chunk.nativeFinishReason else old(upstreamNativeFinishReason)
      ensures failed == old(failed) && terminalEmitted == old(terminalEmitted)
    {
      hide Records, WholeNames;
      if chunk.finishReason.Some? {
        upstreamFinishReason := chunk.finishReason;
      }
      if chunk.nativeFinishReason.Some? {
        upstreamNativeFinishReason := chunk.nativeFinishReason;
      }
      var reasoning := ChatUpstream.ReasoningOf(chunk);
      if reasoning != "" {
        ChatReasoningDelta(reasoning);
      }
      WholeNamesStart(fragments + chunk.toolCalls, chunk.messageToolCalls);
      ChatToolDeltas(chunk.toolCalls);
      ChatToolDeltas(chunk.messageToolCalls);
      if chunk.content != "" {
        ChatCloseReasoning();
        ChatTextDelta(chunk.content);
      }
    }

    // ---- The end of a turn ----

    /** `close_turn_items`. No call is left to close here: the fragment that completes a call's arguments
        closes the call. A tool search without an output index makes the sorting fail. */
    method CloseTurnItems() returns (raised: bool)
      requires Records()
      modifies `trace, `client, `store, `messageClosed, `finishedMessages
      ensures Records() && messageClosed == messageOpened && (raised <==> waitingSearches != map[])
      ensures forall key :: key in reasoningBlocks ==>
                reasoningBlocks[key] in store && store[reasoningBlocks[key]].closed
    {
      hide Streamed, MessageTexts, CallsOk, NoneStrayed, Filed, Kinds, Framed, ReasoningOk, Owned, AllTold;
      ChatCloseReasoning();
      CloseMessage();
      raised := waitingSearches != map[];
    }

    /** What the output is collected from. */
    ghost function State(): Turn
      reads `messageOpened, `messageClosed, `messageIndex, `messageText, `store, `finishedMessages, `reasoningBlocks
      reads `toolCalls, `mcpToolCalls, `toolSearchCalls, `waitingSearches
    {
      Turn(store, reasoningBlocks, ResponsesOutput.OpenMessage(Current(), messageText), Books(), finishedMessages)
    }

    /** `_response(status, final=True)["output"]`: every entry of the six places is collected once, in whatever order
        the dictionaries have, and the list of pairs is sorted by index. */
    method Response() returns (output: seq<Output>, ghost entries: seq<Entry>)
      requires Framed() && State().Refers() && waitingSearches == map[]
      ensures Enumerates(State(), entries) && output == Reported(State(), entries)
    {
      hide Layout, IsEntry, ByIndex, Pair, EntriesOf;
      var open := if messageOpened && messageText != "" && messageIndex.Some? && !messageClosed
                  then map[messageIndex.value := messageText] else map[];
      var turn := Turn(store, reasoningBlocks, open,
                       CallBooks(toolCalls, mcpToolCalls, toolSearchCalls, waitingSearches), finishedMessages);
      assert turn == State();
      var collected: seq<Entry> := [];
      for place := 0 to 6
        invariant NoRepeats(collected)
        invariant forall e :: e in collected <==> IsEntry(turn, e) && PlaceOf(e) < place
      {
        var more := ListOf(EntriesOf(turn, place));
        forall i, j | 0 <= i < |collected| && 0 <= j < |more| ensures collected[i] != more[j] {
          assert collected[i] in collected && more[j] in more;
        }
        collected := collected + more;
      }
      entries := collected;
      output := Reported(turn, collected);
    }

    /** The final output of a chat turn: all text and reasoning, and one item for each that was announced but those of
        the calls that strayed; while none has strayed, each item says what its fragments said. */
    method ChatOutput() returns (output: seq<Output>)
      requires Records() && waitingSearches == map[]
      ensures SaidOn(OutputText, output) == text && SaidOn(ReasoningSummary, output) == thinking
      ensures |output| + |StrayedCalls(table, fragments)| == |client.items|
      ensures NoneStrayed(table, fragments) ==>
                && Agrees(client.items, output)
                && CallsOf(output) == SaidCalls(table, fragments, ShownOrder(table, fragments))
    {
      hide Layout, CallsOk, Collected, Streamed, NoneStrayed, FiledAt, Kinds, SaidOn, CallsOf, SaidCalls, ShownOrder,
           Agrees, MessagesOf, MessageTexts, Enumerates, ResponsesOutput.Reported, Apart, StrayedCalls, InOrder, Traced,
           ReasoningOk;
      RefsAreRecords();
      ghost var entries;
      output, entries := Response();
      ghost var items, v, current := client.items, State(), Current();
      OneReasoning(owners, store, reasoningBlocks);
      TracedRefers(owners, v.books);
      EntriesApart(items, owners, v, current, messageText);
      ReportedOnce(v, entries);
      CollectedSays(items, owners, v, current, messageText);
      StrayedAreMissing(table, items, owners, v, current, messageText, fragments);
      if NoneStrayed(table, fragments) {
        CollectedFull(table, items, owners, v, current, messageText, fragments, entries);
      }
    }

    /** `output_items`: whatever became of the reasoning, the messages are those that were streamed. */
    method OutputItems() returns (output: seq<Output>)
      requires Framed() && ReasoningRefs() && Books() == CallBooks(map[], map[], map[], map[])
      ensures MessagesOf(output) == MessageTexts(client.items)
    {
      hide Layout, Collected, MessagesOf, MessageTexts, Enumerates, ResponsesOutput.Reported, Apart, InOrder, SaidOn,
           Streamed;
      forall k | k in reasoningBlocks.Values ensures k in store {
        var key :| key in reasoningBlocks && reasoningBlocks[key] == k;
      }
      ghost var entries;
      output, entries := Response();
      EntriesApart(client.items, owners, State(), Current(), messageText);
      ReportedOnce(State(), entries);
      CollectedSays(client.items, owners, State(), Current(), messageText);
    }

    lemma RefsAreRecords()
      requires ReasoningOk(owners, store, reasoningBlocks) && Kinds(store, Books())
      ensures State().Refers()
    {
      ValuesIn(toolCalls, store);
      ValuesIn(mcpToolCalls, store);
      ValuesIn(toolSearchCalls, store);
    }

    predicate Shows(b: Block) {
      Strip(b.name) != "" || Strip(TextOf(b.item)) != ""
    }

    predicate HasVisibleOutput()
      requires toolCalls.Values <= store.Keys && mcpToolCalls.Values <= store.Keys
      requires toolSearchCalls.Values <= store.Keys
      reads this
    {
      || Strip(messageText) != ""
      || (exists k :: k in toolCalls.Values && Shows(store[k]))
      || (exists k :: k in mcpToolCalls.Values && Shows(store[k]))
      || (exists k :: k in toolSearchCalls.Values && Shows(store[k]))
    }

    predicate IsOpenIncomplete(k: nat)
      requires k in store
      reads `store
    {
      !store[k].closed && !ArgumentsComplete(table, store[k].name, TextOf(store[k].item))
    }

    predicate HasOpenIncompleteItems()
      requires reasoningBlocks.Values <= store.Keys
      requires toolCalls.Values <= store.Keys && mcpToolCalls.Values <= store.Keys
      requires toolSearchCalls.Values <= store.Keys
      reads this
    {
      || (messageOpened && !messageClosed)
      || (exists k :: k in reasoningBlocks.Values && !store[k].closed)
      || (exists k :: k in toolCalls.Values && IsOpenIncomplete(k))
      || (exists k :: k in mcpToolCalls.Values && IsOpenIncomplete(k))
      || (exists k :: k in toolSearchCalls.Values && IsOpenIncomplete(k))
    }

    /** A turn has neither visible output nor an open item exactly when its chunks carried no call and no
        visible text. */
    lemma {:induction false} SilentMeans()
      requires Records() && waitingSearches == map[] && messageClosed == messageOpened && State().Refers()
      requires forall key :: key in reasoningBlocks ==>
                 reasoningBlocks[key] in store && store[reasoningBlocks[key]].closed
      ensures !HasVisibleOutput() && !HasOpenIncompleteItems() <==> fragments == [] && Strip(text) == ""
    {
      hide Layout, NoneStrayed, Streamed, CallsOk, FiledAt, ArgumentsComplete, Kinds;
      if fragments != [] {
        var i := fragments[0].index;
        assert fragments[0] in fragments && i in Indices(fragments);
        assert FiledAt(table, fragments, i, store, Books());
        var k := SomeRecord(table, fragments, i, store, Books());
        assert store[k].item.Call? by { CallAt(i, k); }
        assert store[k].closed ==> Shows(store[k]);
        assert !store[k].closed ==> IsOpenIncomplete(k);
      } else {
        NothingRecorded();
      }
    }

    lemma CallAt(i: int, k: nat)
      requires Kinds(store, Books()) && InBooks(Books(), i, k)
      ensures k in store && store[k].item.Call?
    {
      KindOf(store, Books(), i);
    }

    /** Without calls the dictionaries are empty. */
    lemma NothingRecorded()
      requires Filed(table, fragments, store, Books()) && fragments == []
      ensures toolCalls == mcpToolCalls == toolSearchCalls == map[]
    {
      forall i ensures i !in toolCalls && i !in mcpToolCalls && i !in toolSearchCalls {
        assert FiledAt(table, fragments, i, store, Books());
      }
    }

    /** With the message and the reasoning closed, an item is left open exactly when some announced item is not done;
        while no call has strayed, exactly when some call's arguments never became complete. */
    lemma {:induction false} OpenMeans()
      requires Records() && messageClosed == messageOpened && State().Refers()
      requires forall key :: key in reasoningBlocks ==>
                 reasoningBlocks[key] in store && store[reasoningBlocks[key]].closed
      ensures HasOpenIncompleteItems() <==> !AllDone(client.items)
      ensures NoneStrayed(table, fragments) && waitingSearches == map[] ==>
                (AllDone(client.items) <==> AllComplete(table, fragments))
    {
      hide Layout, NoneStrayed, Streamed, CallsOk, Kinds, Filed, ArgumentsComplete, AllComplete, AllDone, ReasoningOk,
           Traced;
      DoneMeans(table, client.items, owners, State(), messageText);
      forall k | InSomeBook(Books(), k) ensures IsOpenIncomplete(k) <==> !store[k].closed {
        CallIn(k);
      }
      if NoneStrayed(table, fragments) && waitingSearches == map[] {
        CompleteMeans(table, owners, State(), fragments);
      }
    }

    lemma CallIn(k: nat)
      requires Kinds(store, Books()) && InSomeBook(Books(), k)
      ensures k in store && store[k].item.Call?
    {
      var i: int;
      if k in toolCalls.Values {
        i := KeyOf(toolCalls, k);
      } else if k in mcpToolCalls.Values {
        i := KeyOf(mcpToolCalls, k);
      } else {
        i := KeyOf(toolSearchCalls, k);
      }
      KindOf(store, Books(), i);
    }

    lemma NothingStreamed(table: ToolTable)
      ensures Decode([]) == Client([], Waiting) && DonesReadable(table, [])
      ensures Layout([], [], map[], map[], None, "") && forall channel :: Streamed(channel, []) == ""
    {
    }

    method Start()
      requires trace == [] && client == Client([], Waiting) && owners == [] && nextOutputIndex == 0
      requires messageIndex == None && messageText == "" && !messageOpened && !messageClosed
      requires store == map[] && Books() == CallBooks(map[], map[], map[], map[]) && reasoningBlocks == map[]
      requires finishedMessages == map[] && text == thinking == "" && fragments == []
      modifies `trace, `client
      ensures Framed() && client.items == []
      ensures Chatting()
    {
      hide Kinds, Filed, Owned, AllTold, CallsOk, NoneStrayed, ReasoningOk, Layout, Streamed, Decode, DonesReadable;
      NothingFiled(table);
      NothingStreamed(table);
      Emit(Created);
    }

    /** The turn is over: the last event but the end marker carries the verdict and an output list with all text and
        reasoning. The list lacks one announced item for each call that strayed; while none has strayed, it says what
        the chunks said. */
    ghost predicate Concluded(verdict: Verdict)
      reads `trace, `client, `text, `thinking, `fragments
    {
      && client == Decode(trace)
      && client.phase.Closed? && client.phase.verdict == verdict
      && (verdict.Completed? ==>
            AllDone(client.items) && forall i :: i in Indices(fragments) ==> EverReadable(table, fragments, i))
      && DoneWhenReadable(table, client.items)
      && SaidOn(OutputText, client.phase.output) == text
      && SaidOn(ReasoningSummary, client.phase.output) == thinking
      && |client.phase.output| + |StrayedCalls(table, fragments)| == |client.items|
      && (NoneStrayed(table, fragments) ==>
            && Agrees(client.items, client.phase.output)
            && CallsOf(client.phase.output) == SaidCalls(table, fragments, ShownOrder(table, fragments)))
    }

    /** How a turn is over after an ending. */
    ghost predicate Over(ending: Ending)
      reads `trace, `client, `text, `thinking, `fragments, `upstreamFinishReason, `upstreamNativeFinishReason
    {
      && Concluded(VerdictOf(AllDone(client.items), text, fragments, upstreamFinishReason, upstreamNativeFinishReason,
                             ending))
      && (NoneStrayed(table, fragments) ==>
            client.phase.verdict == VerdictOf(AllComplete(table, fragments), text, fragments, upstreamFinishReason,
                                              upstreamNativeFinishReason, ending))
    }

    /** A call's item is done exactly with arguments that can be read. */
    lemma ItemsRead()
      requires Records() && waitingSearches == map[]
      ensures DoneWhenReadable(table, client.items)
      ensures AllDone(client.items) ==> forall i :: i in Indices(fragments) ==> EverReadable(table, fragments, i)
    {
      hide Decode, DonesReadable, Layout, CallsOk, NoneStrayed, Filed, Kinds, ReasoningOk, AllDone, Owned, Streamed,
           AllTold, EverReadable, DoneWhenReadable, DonesRead;
      DoneByEvent(table, trace);
      RefsAreRecords();
      OpenUnreadable(table, client.items, owners, State(), Current(), messageText);
      if AllDone(client.items) {
        DoneReadable(table, client.items, owners, State(), Current(), messageText, fragments);
      }
    }

    /** The terminal event and the end marker. */
    method Conclude(verdict: Verdict)
      requires Records() && waitingSearches == map[]
      requires verdict.Completed? ==> AllDone(client.items)
      modifies `trace, `client
      ensures Concluded(verdict) && client.items == old(client.items)
    {
      hide Decode, DonesReadable, Layout, CallsOk, NoneStrayed, Filed, Kinds, ReasoningOk, Agrees, SaidOn, CallsOf,
           SaidCalls, ShownOrder, AllDone, StrayedCalls, Owned, Streamed, AllTold, EverReadable, DoneWhenReadable;
      ItemsRead();
      var output := ChatOutput();
      if verdict.Failed? {
        Emit(ErrorNotice(verdict.code, verdict.message));
      }
      Emit(Terminal(verdict, output));
      Emit(StreamEnd);
    }

    method Fail(message: string, code: string) returns (raised: bool)
      requires failed || terminalEmitted || Records()
      modifies `trace, `client, `store, `messageClosed, `finishedMessages, `failed, `terminalEmitted
      ensures old(failed || terminalEmitted) ==> !raised && trace == old(trace) && client == old(client)
      ensures old(!failed && !terminalEmitted) ==> (raised <==> waitingSearches != map[])
      ensures !raised ==> failed || terminalEmitted
      ensures !raised && old(!failed && !terminalEmitted) ==>
                Concluded(Failed(code, message)) && Over(Ending.Fail(message, code))
      ensures raised ==> !failed && !terminalEmitted && Records()
    {
      hide Records, Concluded;
      if failed || terminalEmitted { return false; }
      raised := CloseTurnItems();
      if raised { return; }
      Conclude(Failed(code, message));
      ConcludedVerdict(Failed(code, message));
      failed := true;
      terminalEmitted := true;
    }

    method Finish(upstreamSawDone: bool) returns (raised: bool)
      requires failed || terminalEmitted || Records()
      modifies `trace, `client, `store, `messageClosed, `finishedMessages, `failed, `terminalEmitted
      ensures old(failed || terminalEmitted) ==> !raised && trace == old(trace) && client == old(client)
      ensures old(!failed && !terminalEmitted) ==> (raised <==> waitingSearches != map[])
      ensures !raised ==> failed || terminalEmitted
      ensures !raised && old(!failed && !terminalEmitted) ==> Over(Ending.Finish(upstreamSawDone))
      ensures raised ==> !failed && !terminalEmitted && Records()
    {
      hide Records, Concluded, AllDone, AllComplete, NoneStrayed, HasVisibleOutput, HasOpenIncompleteItems, ErrorReason,
           Conclusive;
      if failed || terminalEmitted { return false; }
      raised := CloseTurnItems();
      if raised { return; }
      assert State().Refers() by { RecordsRefer(); }
      SilentMeans();
      OpenMeans();
      var errorReason := ErrorReason(upstreamFinishReason, upstreamNativeFinishReason);
      if errorReason.Some? || (!HasVisibleOutput() && !upstreamSawDone && !HasOpenIncompleteItems()) {
        var code := errorReason.GetOr("upstream_empty_stream");
        var message := if errorReason.Some? then "Upstream finished with " + errorReason.value
                       else "Upstream stream ended without content";
        raised := Fail(message, code);
        ConcludedVerdict(Failed(code, message));
        return;
      }
      var verdict := if !HasOpenIncompleteItems() && Conclusive(upstreamFinishReason, upstreamSawDone)
                        && upstreamFinishReason != Some("length")
                     then Completed else Incomplete(upstreamFinishReason == Some("length"));
      Conclude(verdict);
      ConcludedVerdict(verdict);
      terminalEmitted := true;
    }

    lemma RecordsRefer()
      requires Records()
      ensures State().Refers()
    {
      RefsAreRecords();
    }

    lemma ConcludedVerdict(verdict: Verdict)
      requires Concluded(verdict)
      ensures client.phase.Closed? && client.phase.verdict == verdict
    {
    }

    /** Any number of endings: the first one counts, unless they all raise. */
    method End(endings: seq<Ending>)
      requires Records() && !failed && !terminalEmitted && endings != []
      modifies `trace, `client, `store, `messageClosed, `finishedMessages, `failed, `terminalEmitted
      ensures if waitingSearches == map[] then Over(endings[0])
              else client == Decode(trace) && client.phase.Streaming?
    {
      hide Records, Over;
      for n := 0 to |endings|
        invariant n == 0 || waitingSearches != map[] ==> Records() && !failed && !terminalEmitted
        invariant n > 0 && waitingSearches == map[] ==> (failed || terminalEmitted) && Over(endings[0])
      {
        match endings[n]
        case Finish(sawDone) => var raised := Finish(sawDone);
        case Fail(message, code) => var raised := Fail(message, code);
      }
      if waitingSearches != map[] {
        StillStreaming();
      }
    }

    lemma NothingWaits()
      requires Records()
      ensures waitingSearches == map[] <==> !SomeStuck(table, fragments)
    {
      WaitingMeans(table, fragments, store, Books());
    }

    /** What an ended turn tells. */
    lemma OverMeans(chunks: seq<Chunk>, ending: Ending)
      requires text == SaidText(chunks) && thinking == SaidThinking(chunks) && fragments == AllFragments(chunks)
      requires upstreamFinishReason == SaidFinish(chunks) && upstreamNativeFinishReason == SaidNative(chunks)
      requires waitingSearches == map[] <==> !SomeStuck(table, fragments)
      requires if waitingSearches == map[] then Over(ending)
               else client == Decode(trace) && client.phase.Streaming?
      ensures TellsIfKept(table, chunks, ending, trace)
    {
      hide Decode, DonesReadable, VerdictOf, AllKept, SomeStuck, NoneStrayed, SaidOn, CallsOf, SaidCalls, ShownOrder,
           AllDone, SaidText, SaidThinking, AllFragments, SaidFinish, SaidNative, StrayedCalls, AllComplete,
           AllReadable, EverReadable, DoneWhenReadable;
      AllCompleteMeans(table, fragments);
      KeptMeans(table, fragments);
      StrayedNone(table, fragments);
    }

    lemma StillStreaming()
      requires Records()
      ensures client == Decode(trace) && client.phase.Streaming?
    {
    }
  }

  /** A whole chat turn: start, the chunks, then any number of endings, of which the first one counts.
      The client accepts every event, the verdict is the one the chunks call for and the final output has one
      entry for each announced item, saying exactly what the chunks said, if and only if every call is kept:
      its resolved name is not that of a tool search or of an MCP tool, and a tool search whose name came with
      spaces has had complete arguments. A turn never gets a terminal event exactly when some call is stuck; otherwise
      it ends with one verdict, which is `completed` only when every announced item is done, with all text and
      reasoning, and with one item less for each call that strayed. */
  method Translate(table: ToolTable, chunks: seq<Chunk>, endings: seq<Ending>) returns (events: seq<Event>)
    requires WholeNames(AllFragments(chunks)) && endings != []
    ensures TellsIfKept(table, chunks, endings[0], events)
  {
    hide Decode, WholeNames, VerdictOf, TellsIfKept, AllKept, SomeStuck, NoneStrayed;
    hide ResponsesStreamState.Records, ResponsesStreamState.Over, ResponsesStreamState.Framed;
    var state := new ResponsesStreamState(table);
    state.Start();
    for n := 0 to |chunks|
      invariant fresh(state) && state.table == table && state.Chatting() && !state.failed && !state.terminalEmitted
      invariant state.text == SaidText(chunks[..n]) && state.thinking == SaidThinking(chunks[..n])
      invariant state.fragments == AllFragments(chunks[..n])
      invariant state.upstreamFinishReason == SaidFinish(chunks[..n])
                && state.upstreamNativeFinishReason == SaidNative(chunks[..n])
    {
      assert chunks[..n + 1][..n] == chunks[..n];
      FragmentsPrefix(chunks, n + 1);
      state.WriteChatDelta(chunks[n]);
    }
    assert chunks[..|chunks|] == chunks;
    state.NothingWaits();
    state.End(endings);
    events := state.trace;
    state.OverMeans(chunks, endings[0]);
  }

  /** A chunk with one fragment that carries a name or nothing. */
  function Naming(name: string): Chunk {
    Chunk(None, None, "", "", "", [Fragment(0, "", name, "")], [])
  }

  lemma NamingSaid(name: string)
    ensures AllFragments([Naming(name)]) == [Fragment(0, "", name, "")]
    ensures AllFragments([Naming(name), Naming("")]) == [Fragment(0, "", name, ""), Fragment(0, "", "", "")]
  {
    assert [Naming(name)][..0] == [];
    assert AllFragments([]) == [];
    assert [Naming(name), Naming("")][..1] == [Naming(name)];
  }

  /** What a call with one or two fragments and no arguments comes to. */
  lemma FewFragments(t: ToolTable, name: string)
    requires !MustDefer(Strip(name))
    ensures var one, two := [Fragment(0, "", name, "")], [Fragment(0, "", name, ""), Fragment(0, "", "", "")];
            && WholeNames(one) && WholeNames(two)
            && First(one, 0) == First(two, 0) == Some(one[0]) && !Again(one, 0) && Again(two, 0)
            && !EverComplete(t, one, 0) && Indices(one) == {0}
            && forall i :: i != 0 ==> First(one, i).None?
  {
    hide KeptName, MustDefer, First, Again, EverComplete, Indices, WholeNames, Arguments, Strip;
    var f, g := Fragment(0, "", name, ""), Fragment(0, "", "", "");
    NoFragments(t);
    forall i ensures First([f], i) == if i == 0 then Some(f) else None {
      CallSnoc(t, [], f, i);
      assert [] + [f] == [f];
    }
    CallSnoc(t, [], f, 0);
    CallSnoc(t, [f], g, 0);
    IndicesSnoc([], f);
    assert [] + [f] == [f] && [f] + [g] == [f, g];
    FewNames(f, g);
  }

  lemma NoFragments(t: ToolTable)
    ensures forall i :: First([], i) == None && !Again([], i) && !EverComplete(t, [], i) && Arguments([], i) == ""
    ensures Indices([]) == {} && Strip("") == ""
  {
  }

  lemma FewNames(f: Fragment, g: Fragment)
    requires !MustDefer(Strip(f.name)) && g.name == "" && f.index == g.index
    ensures WholeNames([f]) && WholeNames([f, g])
  {
    hide MustDefer;
    assert forall n :: 0 <= n < 2 ==> [f, g][..n] == if n == 0 then [] else [f];
    assert [f][..0] == [];
  }

  lemma StripExamples()
    ensures Strip("a.tool_search") == "a.tool_search" && Strip(" tool_search ") == "tool_search"
  {
    ToolIds.StripFixed("a.tool_search");
    var s := " tool_search ";
    assert s[1..] == "tool_search ";
    assert LeftStrip(s) == "tool_search ";
    assert "tool_search "[..11] == "tool_search";
  }

  lemma StrayedKept(t: ToolTable, fs: seq<Fragment>, i: int)
    requires Strayed(t, fs, i)
    ensures KeptName(t, fs, i) == Resolve(t.toolResolve, Strip(First(fs, i).value.name)).1
  {
    hide McpReference, Resolve, First, IsSearch;
  }

  /** A tool search behind a namespace is not kept and, with a second fragment, stuck. */
  lemma SearchNamesFail(t: ToolTable)
    requires "a.tool_search" !in t.toolResolve
    ensures var said := AllFragments([Naming("a.tool_search")]);
            WholeNames(said) && !AllKept(t, said)
    ensures var said := AllFragments([Naming("a.tool_search"), Naming("")]);
            WholeNames(said) && SomeStuck(t, said)
  {
    hide WholeNames, Strays, McpReference, Resolve, Again, First, Indices, EverComplete, AllFragments, KeptName;
    assert "a" + ".tool_search" == "a.tool_search";
    DottedSearchStrays(t.toolResolve, "a");
    NamingSaid("a.tool_search");
    StripExamples();
    FewFragments(t, "a.tool_search");
    var f, g := Fragment(0, "", "a.tool_search", ""), Fragment(0, "", "", "");
    assert Strayed(t, [f], 0) && Strayed(t, [f, g], 0);
    assert !Kept(t, [f], 0);
    StrayedKept(t, [f, g], 0);
    assert Stuck(t, [f, g], 0);
  }

  /** With one fragment a dotted tool search is not stuck, but it is the one call that strayed. */
  lemma DottedIsNotStuck(t: ToolTable)
    requires "a.tool_search" !in t.toolResolve
    ensures var said := AllFragments([Naming("a.tool_search")]); !SomeStuck(t, said) && |StrayedCalls(t, said)| == 1
  {
    hide WholeNames, Strays, McpReference, Resolve, Again, First, Indices, EverComplete, AllFragments, KeptName,
         IsSearch;
    assert "a" + ".tool_search" == "a.tool_search";
    DottedSearchStrays(t.toolResolve, "a");
    NamingSaid("a.tool_search");
    StripExamples();
    FewFragments(t, "a.tool_search");
    var said := [Fragment(0, "", "a.tool_search", "")];
    forall i ensures !Stuck(t, said, i) {
      FirstSeen(said, i);
    }
    assert Strayed(t, said, 0);
    assert StrayedCalls(t, said) == {0};
  }

  lemma PaddedFails(t: ToolTable)
    ensures var said := AllFragments([Naming(" tool_search ")]);
            WholeNames(said) && SomeStuck(t, said)
  {
    hide WholeNames, McpReference, Resolve, Again, First, Indices, EverComplete, AllFragments, KeptName;
    NamingSaid(" tool_search ");
    StripExamples();
    FewFragments(t, " tool_search ");
    assert Stuck(t, [Fragment(0, "", " tool_search ", "")], 0);
  }

  /** The dotted tool search is missing from the output. */
  method DottedSearchExample(table: ToolTable, ending: Ending) returns (events: seq<Event>)
    requires "a.tool_search" !in table.toolResolve
    ensures !Tells(table, [Naming("a.tool_search")], ending, events)
    ensures var c := Decode(events); c.phase.Closed? && |c.phase.output| + 1 == |c.items|
  {
    hide Tells, Decode, WholeNames, AllKept, SomeStuck, AllFragments, Naming, VerdictOf, AllDone, StrayedCalls, SaidOn,
         SaidText, SaidThinking, SaidFinish, SaidNative;
    SearchNamesFail(table);
    DottedIsNotStuck(table);
    events := Translate(table, [Naming("a.tool_search")], [ending]);
  }

  /** With a second fragment of the dotted tool search there is no terminal event. */
  method DottedTwiceExample(table: ToolTable, ending: Ending) returns (events: seq<Event>)
    requires "a.tool_search" !in table.toolResolve
    ensures Decode(events).phase.Streaming?
  {
    hide Tells, Decode, WholeNames, AllKept, SomeStuck, AllFragments, Naming;
    SearchNamesFail(table);
    events := Translate(table, [Naming("a.tool_search"), Naming("")], [ending]);
  }

  /** Nor is there one when a tool search named with spaces around it gets no arguments. */
  method PaddedSearchExample(table: ToolTable, ending: Ending) returns (events: seq<Event>)
    ensures Decode(events).phase.Streaming?
  {
    hide Tells, Decode, WholeNames, AllKept, SomeStuck, AllFragments, Naming;
    PaddedFails(table);
    events := Translate(table, [Naming(" tool_search ")], [ending]);
  }

  /** The fragments of the first chunks have whole names when those of all chunks do. */
  lemma {:induction false} FragmentsPrefix(chunks: seq<Chunk>, n: nat)
    requires n <= |chunks| && WholeNames(AllFragments(chunks))
    ensures WholeNames(AllFragments(chunks[..n]))
    decreases |chunks| - n
  {
    if n == |chunks| {
      assert chunks[..n] == chunks;
    } else {
      FragmentsPrefix(chunks, n + 1);
      assert chunks[..n + 1][..n] == chunks[..n];
      var rest := chunks[n].toolCalls + chunks[n].messageToolCalls;
      assert AllFragments(chunks[..n + 1]) == AllFragments(chunks[..n]) + rest;
      WholeNamesStart(AllFragments(chunks[..n]), rest);
    }
  }
}
