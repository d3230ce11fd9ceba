/** Cursor turns, streamed and collected (codex_shim/cursor_passthrough.py, CursorStreamParser and
    CursorResponseCollector; codex_shim/server.py, _apply_cursor_stream_event). */
module CursorTurn {
  import opened Common
  import opened ResponsesClient
  import opened ResponsesLayout
  import opened ResponsesStream

  /** A normalized event of a cursor-agent run. */
  datatype CursorEvent =
    | TextPiece(delta: string)
    | SegmentBoundary
    | ToolStarted(callId: string, markdown: string)
    | ToolCompleted(callId: string, markdown: string)
    | ThinkingDelta(delta: string)
    | ThinkingCompleted
    | ConnectionInterrupted(message: string)
    | RunCompleted
    | OtherEvent

  predicate EndsSegment(e: CursorEvent) {
    e.SegmentBoundary? || e.ToolStarted?
  }

  // ---- What each side makes of the text ----

  /** The messages streamed so far, and whether the last one is still open. */
  datatype Shown = Shown(texts: seq<string>, open: bool)

  function ShowEvent(s: Shown, e: CursorEvent): Shown {
    if e.TextPiece? && e.delta != "" then
      if s.open && s.texts != [] then Shown(s.texts[..|s.texts| - 1] + [s.texts[|s.texts| - 1] + e.delta], true)
      else Shown(s.texts + [e.delta], true)
    else if EndsSegment(e) || e.RunCompleted? then s.(open := false)
    else s
  }

  function Show(events: seq<CursorEvent>): Shown {
    if events == [] then Shown([], false)
    else ShowEvent(Show(events[..|events| - 1]), events[|events| - 1])
  }

  /** The messages collected so far and the text of the one that is not finished. */
  datatype Gathered = Gathered(texts: seq<string>, current: string)
  {
    function All(): seq<string> {
      texts + (if current == "" then [] else [current])
    }
  }

  function GatherEvent(g: Gathered, e: CursorEvent): Gathered {
    if e.TextPiece? then g.(current := g.current + e.delta)
    else if EndsSegment(e) then Gathered(g.All(), "")
    else g
  }

  function Gather(events: seq<CursorEvent>): Gathered {
    if events == [] then Gathered([], "")
    else GatherEvent(Gather(events[..|events| - 1]), events[|events| - 1])
  }

  /** Since the last segment ended, the run was reported completed in the middle of a message. */
  predicate Cut(events: seq<CursorEvent>) {
    events != [] &&
    (var before, last := events[..|events| - 1], events[|events| - 1];
     if EndsSegment(last) then false
     else Cut(before) || (last.RunCompleted? && Gather(before).current != ""))
  }

  /** Some text went on after such a report. */
  predicate Splits(events: seq<CursorEvent>) {
    events != [] &&
    (var before, last := events[..|events| - 1], events[|events| - 1];
     Splits(before) || (last.TextPiece? && last.delta != "" && Cut(before)))
  }

  lemma StepOf(events: seq<CursorEvent>, e: CursorEvent)
    ensures Show(events + [e]) == ShowEvent(Show(events), e) && Gather(events + [e]) == GatherEvent(Gather(events), e)
  {
    assert (events + [e])[..|events|] == events;
  }

  /** The two lists of messages are the same exactly when no message was split; a split leaves the
      streamed list longer for good. */
  lemma {:induction false} SameUnlessSplit(events: seq<CursorEvent>)
    ensures var s, g := Show(events), Gather(events);
            && (if Splits(events) then |s.texts| > |g.All()| else s.texts == g.All())
            && (s.open ==> g.current != "" && s.texts != [])
            && (!Splits(events) && !Cut(events) && g.current != "" ==> s.open)
            && (Cut(events) ==> g.current != "" && (!s.open || Splits(events)))
  {
    if events == [] {
    } else {
      var before, last := events[..|events| - 1], events[|events| - 1];
      SameUnlessSplit(before);
      var s, g := Show(before), Gather(before);
      if last.TextPiece? && last.delta != "" {
        assert g.current == "" ==> g.current + last.delta == last.delta;
        assert g.All()[..|g.texts|] == g.texts;
      } else if last.TextPiece? {
        assert g.current + "" == g.current;
      } else if EndsSegment(last) {
        assert g.All() + [] == g.All();
      }
    }
  }

  /** A run that is reported completed only at its end, or never, splits no message. */
  lemma {:induction false} NoSplitBeforeTheEnd(events: seq<CursorEvent>)
    requires forall n :: 0 <= n < |events| ==> !events[n].RunCompleted?
    ensures !Cut(events) && !Splits(events) && !Splits(events + [RunCompleted])
  {
    assert (events + [RunCompleted])[..|events|] == events;
    if events != [] {
      NoSplitBeforeTheEnd(events[..|events| - 1]);
    }
  }

  /** Text, a completed report and more text: two messages streamed, one collected. */
  lemma SplitExample()
    ensures var events := [TextPiece("a"), RunCompleted, TextPiece("b")];
            Show(events).texts == ["a", "b"] && Gather(events).All() == ["ab"]
  {
    hide Show, Gather;
    var one, two := [TextPiece("a")], [TextPiece("a"), RunCompleted];
    NoEvents();
    StepOf([], TextPiece("a"));
    assert [] + [TextPiece("a")] == one;
    StepOf(one, RunCompleted);
    assert one + [RunCompleted] == two;
    StepOf(two, TextPiece("b"));
    assert two + [TextPiece("b")] == [TextPiece("a"), RunCompleted, TextPiece("b")];
    assert "" + "a" == "a" && "a" + "b" == "ab";
    assert [] + ["a"] == ["a"] && ["a"] + ["b"] == ["a", "b"] && [] + ["ab"] == ["ab"];
  }

  lemma NoEvents()
    ensures Show([]) == Shown([], false) && Gather([]) == Gathered([], "")
  {
  }

  // ---- Streaming ----

  ghost function Seen(state: ResponsesStreamState): Shown
    reads state
  {
    Shown(MessageTexts(state.client.items), state.Current().Some?)
  }

  ghost predicate Streaming(state: ResponsesStreamState)
    reads state
  {
    && state.Framed() && state.ReasoningRefs()
    && state.toolCalls == state.mcpToolCalls == state.toolSearchCalls == map[] && state.waitingSearches == map[]
  }

  /** Text: it closes the reasoning that is open. */
  method ApplyText(state: ResponsesStreamState, delta: string)
    requires Streaming(state)
    modifies state
    ensures Streaming(state) && Seen(state) == ShowEvent(old(Seen(state)), TextPiece(delta))
  {
    hide Layout, MessageTexts, Streamed, Decode;
    state.CloseCursorActivity(CursorThinking(state.cursorThinkingSeq));
    if delta != "" {
      state.CloseOpenReasoning();
      state.TextDelta(delta);
    }
  }

  /** The end of a segment: thinking and the message are closed. */
  method ApplySegmentEnd(state: ResponsesStreamState)
    requires Streaming(state)
    modifies state
    ensures Streaming(state) && Seen(state) == old(Seen(state)).(open := false)
  {
    hide Layout, MessageTexts, Streamed, Decode;
    state.CloseCursorActivity(CursorThinking(state.cursorThinkingSeq));
    state.CloseMessage();
  }

  /** `_apply_cursor_stream_event`. */
  method ApplyCursorStreamEvent(state: ResponsesStreamState, e: CursorEvent)
    requires Streaming(state)
    modifies state
    ensures Streaming(state) && Seen(state) == ShowEvent(old(Seen(state)), e)
  {
    hide Layout, MessageTexts, Streamed, Decode, Started, Continued, Interrupted, ResponsesStreamState.ToolRefs;
    match e {
      case TextPiece(delta) => ApplyText(state, delta);
      case SegmentBoundary => ApplySegmentEnd(state);
      case ToolStarted(callId, markdown) =>
        ApplySegmentEnd(state);
        state.OpenCursorToolActivity(callId, markdown);
      case ToolCompleted(callId, markdown) =>
        state.AppendCursorToolActivity(callId, markdown);
        state.CloseCursorActivity(CursorTool(callId));
      case ThinkingDelta(delta) => state.AppendCursorThinkingActivity(delta);
      case ThinkingCompleted => state.CloseCursorActivity(CursorThinking(state.cursorThinkingSeq));
      case ConnectionInterrupted(message) => state.InterruptCursorToolActivities(message);
      case RunCompleted => state.CloseMessage();
      case OtherEvent =>
    }
  }

  // ---- Collecting ----

  const INTERRUPTED := "\n> _(interrupted — connection reconnecting)_\n"

  function FormatThinking(text: string): string {
    var body := Strip(text);
    if body == "" then "" else "**cursor-agent · thinking**\n\n" + body + "\n"
  }

  lemma MessagesOfSnoc(output: seq<Output>, o: Output)
    ensures MessagesOf(output + [o]) == MessagesOf(output) + (if o.Message? then [o.text] else [])
  {
    assert (output + [o])[..|output|] == output;
  }

  /** Everything a collector holds. */
  datatype Collection = Collection(output: seq<Output>, currentMessage: string, toolReasoning: seq<(string, string)>,
      thinkingBuffer: string)

  function WithThinkingFlushed(c: Collection): Collection {
    c.(thinkingBuffer := "",
       output := if Strip(c.thinkingBuffer) == "" then c.output
                 else c.output + [Reasoning(FormatThinking(c.thinkingBuffer))])
  }

  function WithMessageFlushed(c: Collection): Collection {
    c.(currentMessage := "", output := if c.currentMessage == "" then c.output
                                       else c.output + [Message(c.currentMessage)])
  }

  /** The effect of one event on a collector. */
  function CollectEvent(c: Collection, e: CursorEvent): Collection {
    match e
    case TextPiece(delta) => WithThinkingFlushed(c).(currentMessage := c.currentMessage + delta)
    case SegmentBoundary => WithMessageFlushed(WithThinkingFlushed(c))
    case ToolStarted(callId, markdown) =>
      WithMessageFlushed(WithThinkingFlushed(c)).(toolReasoning := Entered(c.toolReasoning, callId, markdown))
    case ToolCompleted(callId, markdown) =>
      var text := Found(c.toolReasoning, callId) + markdown;
      c.(toolReasoning := Removed(c.toolReasoning, callId), output := if Strip(text) == "" then c.output
                                                                      else c.output + [Reasoning(text)])
    case ThinkingDelta(delta) => c.(thinkingBuffer := c.thinkingBuffer + delta)
    case ThinkingCompleted => WithThinkingFlushed(c)
    case ConnectionInterrupted(message) => c.(toolReasoning := Noted(c.toolReasoning, "\n" + message))
    case RunCompleted => c
    case OtherEvent => c
  }

  function Noted(d: seq<(string, string)>, note: string): seq<(string, string)> {
    seq(|d|, i requires 0 <= i < |d| => (d[i].0, d[i].1 + note))
  }

  /** A tool's activity, from its start through interruptions to its completion, becomes one reasoning text. */
  lemma ToolActivityIsOneText(c: Collection, callId: string, start: string, note: string, end: string)
    requires Found(c.toolReasoning, callId) == "" && Strip(start + "\n" + note + end) != ""
    ensures var done := CollectEvent(CollectEvent(CollectEvent(c, ToolStarted(callId, start)),
                                                  ConnectionInterrupted(note)), ToolCompleted(callId, end));
            done.output == WithMessageFlushed(WithThinkingFlushed(c)).output + [Reasoning(start + "\n" + note + end)]
  {
    EnteredFound(c.toolReasoning, callId, start);
    NotedFound(Entered(c.toolReasoning, callId, start), callId, "\n" + note);
    assert start + ("\n" + note) + end == start + "\n" + note + end;
  }

  lemma {:induction false} EnteredFound(d: seq<(string, string)>, key: string, value: string)
    ensures Found(Entered(d, key, value), key) == value
    ensures exists i :: 0 <= i < |Entered(d, key, value)| && Entered(d, key, value)[i].0 == key
  {
    if d != [] && d[0].0 != key {
      EnteredFound(d[1..], key, value);
      var rest := Entered(d[1..], key, value);
      var i :| 0 <= i < |rest| && rest[i].0 == key;
      assert ([d[0]] + rest)[i + 1] == rest[i];
    } else {
      assert Entered(d, key, value)[0] == (key, value);
    }
  }

  lemma {:induction false} NotedFound(d: seq<(string, string)>, key: string, note: string)
    requires exists i :: 0 <= i < |d| && d[i].0 == key
    ensures Found(Noted(d, note), key) == Found(d, key) + note
  {
    if d[0].0 != key {
      var i :| 0 <= i < |d| && d[i].0 == key;
      assert d[1..][i - 1] == d[i];
      NotedFound(d[1..], key, note);
      assert Noted(d, note)[1..] == Noted(d[1..], note);
    }
  }

  /** The reasoning items of the tools that have not completed. */
  function Unfinished(d: seq<(string, string)>): seq<Output> {
    if d == [] then []
    else (if Strip(d[0].1) == "" then [] else [Reasoning(d[0].1 + INTERRUPTED)]) + Unfinished(d[1..])
  }

  /** Each tool with a visible text is reported as interrupted after all its text, in order, and no other. */
  lemma {:induction false} UnfinishedMeans(d: seq<(string, string)>, texts: seq<string>)
    requires texts == seq(|d|, i requires 0 <= i < |d| => d[i].1)
    ensures forall text :: text in texts && Strip(text) != "" ==>
              Reasoning(text + "\n> _(interrupted — connection reconnecting)_\n") in Unfinished(d)
    ensures (forall text :: text in texts ==> Strip(text) != "") ==>
              && |Unfinished(d)| == |d|
              && forall i :: 0 <= i < |d| ==>
                   Unfinished(d)[i] == Reasoning(texts[i] + "\n> _(interrupted — connection reconnecting)_\n")
    ensures (forall text :: text in texts ==> Strip(text) == "") ==> Unfinished(d) == []
  {
    hide Strip;
    if d != [] {
      assert texts[1..] == seq(|d| - 1, i requires 0 <= i < |d| - 1 => d[1..][i].1);
      UnfinishedMeans(d[1..], texts[1..]);
      assert texts == [texts[0]] + texts[1..];
    }
  }

  class CursorResponseCollector {
    var output: seq<Output>
    var currentMessage: string
    /** The text of each tool activity that has not completed, oldest first. */
    var toolReasoning: seq<(string, string)>
    var thinkingBuffer: string

    ghost function Gathering(): Gathered
      reads this
    {
      Gathered(MessagesOf(output), currentMessage)
    }

    ghost function State(): Collection
      reads this
    {
      Collection(output, currentMessage, toolReasoning, thinkingBuffer)
    }

    constructor ()
      ensures Gathering() == Gathered([], "") && output == [] && toolReasoning == [] && thinkingBuffer == ""
    {
      output, currentMessage, toolReasoning, thinkingBuffer := [], "", [], "";
    }

    method AppendReasoning(text: string)
      modifies `output
      ensures output == old(output) + [Reasoning(text)]
      ensures MessagesOf(output) == old(MessagesOf(output))
    {
      MessagesOfSnoc(output, Reasoning(text));
      output := output + [Reasoning(text)];
    }

    method FlushThinking()
      modifies `output, `thinkingBuffer
      ensures thinkingBuffer == "" && MessagesOf(output) == old(MessagesOf(output))
      ensures output == if Strip(old(thinkingBuffer)) == "" then old(output)
                        else old(output) + [Reasoning(FormatThinking(old(thinkingBuffer)))]
    {
      if Strip(thinkingBuffer) == "" {
        thinkingBuffer := "";
        return;
      }
      AppendReasoning(FormatThinking(thinkingBuffer));
      thinkingBuffer := "";
    }

    method FlushMessage()
      modifies `output, `currentMessage
      ensures Gathering() == Gathered(old(Gathering()).All(), "")
      ensures output == if old(currentMessage) == "" then old(output) else old(output) + [Message(old(currentMessage))]
    {
      if currentMessage == "" { return; }
      MessagesOfSnoc(output, Message(currentMessage));
      output := output + [Message(currentMessage)];
      currentMessage := "";
    }

    method Consume(e: CursorEvent)
      modifies this
      ensures State() == CollectEvent(old(State()), e)
      ensures Gathering() == GatherEvent(old(Gathering()), e)
    {
      hide MessagesOf;
      match e {
        case TextPiece(delta) =>
          FlushThinking();
          currentMessage := currentMessage + delta;
        case SegmentBoundary =>
          FlushThinking();
          FlushMessage();
        case ToolStarted(callId, markdown) =>
          FlushThinking();
          FlushMessage();
          toolReasoning := Entered(toolReasoning, callId, markdown);
        case ToolCompleted(callId, markdown) =>
          var text := Found(toolReasoning, callId) + markdown;
          toolReasoning := Removed(toolReasoning, callId);
          if Strip(text) != "" {
            AppendReasoning(text);
          }
        case ThinkingDelta(delta) => thinkingBuffer := thinkingBuffer + delta;
        case ThinkingCompleted => FlushThinking();
        case ConnectionInterrupted(message) =>
          toolReasoning := Noted(toolReasoning, "\n" + message);
        case RunCompleted =>
        case OtherEvent =>
      }
    }

    /** `build_output`: the messages and the text of every tool that has not completed, or the fallback text when
        there is no output at all. */
    method BuildOutput(fallbackText: string) returns (r: seq<Output>)
      modifies this
      ensures r == output && toolReasoning == [] && currentMessage == ""
      ensures var said := WithMessageFlushed(old(State())).output + Unfinished(old(toolReasoning));
              r == if said == [] && fallbackText != "" then [Message(fallbackText)] else said
      ensures var all := old(Gathering()).All();
              MessagesOf(r) == all || (all == [] && fallbackText != "" && r == [Message(fallbackText)])
    {
      hide MessagesOf;
      FlushMessage();
      ghost var flushed := output;
      assert flushed + Unfinished(toolReasoning) == output + Unfinished(toolReasoning);
      while toolReasoning != []
        invariant Gathering() == Gathered(old(Gathering()).All(), "")
        invariant output + Unfinished(toolReasoning) == flushed + Unfinished(old(toolReasoning))
        decreases |toolReasoning|
      {
        var text := toolReasoning[0].1;
        assert output + Unfinished(toolReasoning) ==
               output + (if Strip(text) == "" then [] else [Reasoning(text + INTERRUPTED)])
               + Unfinished(toolReasoning[1..]);
        if Strip(text) != "" {
          AppendReasoning(text + INTERRUPTED);
        }
        toolReasoning := toolReasoning[1..];
      }
      if output == [] && fallbackText != "" {
        assert MessagesOf(output) == [] by { NoMessages(); }
        output := [Message(fallbackText)];
      }
      r := output;
    }
  }

  lemma NoMessages()
    ensures MessagesOf([]) == []
  {
  }

  /** A dictionary in insertion order: an entry that is overwritten keeps its place. */
  function Entered(d: seq<(string, string)>, key: string, value: string): seq<(string, string)> {
    if d == [] then [(key, value)]
    else if d[0].0 == key then [(key, value)] + d[1..]
    else [d[0]] + Entered(d[1..], key, value)
  }

  function Found(d: seq<(string, string)>, key: string): string {
    if d == [] then "" else if d[0].0 == key then d[0].1 else Found(d[1..], key)
  }

  function Removed(d: seq<(string, string)>, key: string): seq<(string, string)> {
    if d == [] then [] else if d[0].0 == key then d[1..] else [d[0]] + Removed(d[1..], key)
  }

  // ---- Parsing ----

  /** A line of a cursor-agent stream, decoded; a tool call comes with its two renderings. */
  datatype Line =
    | Assistant(hasModelCallId: bool, hasTimestamp: bool, text: string)
    | ToolLine(subtype: string, callId: string, started: string, completed: string)
    | ThinkingLine(subtype: string, text: string)
    | Reconnecting
    | OtherLine

  /** The text of a segment after one more assistant text: a text that continues the segment replaces
      it, any other is appended. */
  function Advance(segment: string, text: string): string {
    if segment != "" && segment <= text then text else segment + text
  }

  predicate StartsSegment(l: Line) {
    (l.Assistant? && (l.hasModelCallId || !l.hasTimestamp)) || (l.ToolLine? && l.subtype == "started")
  }

  /** The texts of the finished segments and of the current one. */
  function Segments(lines: seq<Line>): Gathered {
    if lines == [] then Gathered([], "")
    else
      var before, last := Segments(lines[..|lines| - 1]), lines[|lines| - 1];
      if StartsSegment(last) then Gathered(before.All(), "")
      else if last.Assistant? then before.(current := Advance(before.current, last.text))
      else before
  }

  class CursorStreamParser {
    var segmentText: string
    var openToolCalls: set<string>

    constructor ()
      ensures segmentText == "" && openToolCalls == {}
    {
      segmentText, openToolCalls := "", {};
    }

    /** `_delta_for_segment`. */
    method DeltaForSegment(text: string) returns (delta: Option<string>)
      modifies `segmentText
      ensures segmentText == (if text == "" then old(segmentText) else Advance(old(segmentText), text))
      ensures old(segmentText) + delta.GetOr("") == segmentText
      ensures delta.Some? ==> delta.value != ""
    {
      if text == "" {
        assert segmentText + "" == segmentText;
        return None;
      }
      if segmentText != "" && segmentText <= text {
        var rest := text[|segmentText|..];
        assert segmentText + rest == text;
        segmentText := text;
        return if rest == "" then None else Some(rest);
      }
      segmentText := segmentText + text;
      return Some(text);
    }

    method FeedEvents(line: Line) returns (events: seq<CursorEvent>)
      modifies this
      ensures forall e :: e in events ==> !e.RunCompleted?
      ensures segmentText == (if StartsSegment(line) then ""
                              else if line.Assistant? && line.text != "" then Advance(old(segmentText), line.text)
                              else old(segmentText))
      ensures |events| <= 2
      ensures line.ToolLine? && line.subtype == "started" ==>
                && openToolCalls == old(openToolCalls) + (if line.callId == "" then {} else {line.callId})
                && events == [SegmentBoundary, ToolStarted(OrElse(line.callId, "tool_" + NatText(|openToolCalls|)),
                                                           line.started)]
      ensures line.ToolLine? && line.subtype == "completed" ==>
                && openToolCalls == old(openToolCalls) - {line.callId}
                && events == [ToolCompleted(line.callId, line.completed)]
      ensures line.ThinkingLine? ==>
                events == if line.subtype == "completed" then [ThinkingCompleted]
                          else if line.text != "" then [ThinkingDelta(line.text)] else []
      ensures line.Reconnecting? ==> openToolCalls == {} && |events| == 1 && events[0].ConnectionInterrupted?
      ensures StartsSegment(line) ==>
                events != [] && EndsSegment(events[0]) && forall e :: e in events ==> EndsSegment(e)
      ensures !StartsSegment(line) ==>
                && (forall e :: e in events ==> !EndsSegment(e))
                && (if line.Assistant? then
                      && events == (if events == [] then [] else [events[0]])
                      && (events != [] ==> events[0].TextPiece?)
                      && old(segmentText) + (if events == [] then "" else events[0].delta) == segmentText
                    else forall e :: e in events ==> !e.TextPiece?)
    {
      match line {
        case Assistant(hasModelCallId, hasTimestamp, text) =>
          if hasModelCallId || !hasTimestamp {
            segmentText := "";
            return [SegmentBoundary];
          }
          assert segmentText + "" == segmentText;
          if text == "" { return []; }
          var delta := DeltaForSegment(text);
          events := if delta.Some? then [TextPiece(delta.value)] else [];
        case ToolLine(subtype, callId, started, completed) =>
          if subtype == "started" {
            segmentText := "";
            if callId != "" {
              openToolCalls := openToolCalls + {callId};
            }
            return [SegmentBoundary, ToolStarted(OrElse(callId, "tool_" + NatText(|openToolCalls|)), started)];
          }
          if subtype == "completed" {
            openToolCalls := openToolCalls - {callId};
            return [ToolCompleted(callId, completed)];
          }
          events := [];
        case ThinkingLine(subtype, text) =>
          if subtype == "completed" { return [ThinkingCompleted]; }
          events := if text != "" then [ThinkingDelta(text)] else [];
        case Reconnecting =>
          openToolCalls := {};
          events := [ConnectionInterrupted("> _(interrupted — connection reconnecting)_\n")];
        case OtherLine => events := [];
      }
    }
  }

  /** Parsing all lines: the deltas of every segment spell the segment's text, whether the agent sends
      pieces or ever longer versions, and no event reports the run completed. */
  method Parse(lines: seq<Line>) returns (events: seq<CursorEvent>)
    ensures Gather(events) == Segments(lines)
    ensures forall n :: 0 <= n < |events| ==> !events[n].RunCompleted?
  {
    var parser := new CursorStreamParser();
    events := [];
    for n := 0 to |lines|
      invariant fresh(parser) && parser.segmentText == Segments(lines[..n]).current
      invariant Gather(events) == Segments(lines[..n])
      invariant forall m :: 0 <= m < |events| ==> !events[m].RunCompleted?
    {
      hide Advance, Gather, Segments;
      ghost var before := parser.segmentText;
      AdvanceNothing(before);
      var more := parser.FeedEvents(lines[n]);
      GatherMore(events, more);
      SegmentsStep(lines, n);
      events := events + more;
    }
    assert lines[..|lines|] == lines;
  }

  lemma AdvanceNothing(segment: string)
    ensures Advance(segment, "") == segment && segment + "" == segment
  {
  }

  lemma SegmentsStep(lines: seq<Line>, n: nat)
    requires n < |lines|
    ensures var before, last := Segments(lines[..n]), lines[n];
            Segments(lines[..n + 1]) ==
            if StartsSegment(last) then Gathered(before.All(), "")
            else if last.Assistant? then before.(current := Advance(before.current, last.text))
            else before
  {
    assert lines[..n + 1][..n] == lines[..n];
  }

  lemma GatherMore(events: seq<CursorEvent>, more: seq<CursorEvent>)
    requires |more| <= 2
    ensures more == [] ==> events + more == events
    ensures var g := Gather(events);
            Gather(events + more) == if more == [] then g
                                     else if |more| == 1 then GatherEvent(g, more[0])
                                     else GatherEvent(GatherEvent(g, more[0]), more[1])
    ensures more != [] && (forall e :: e in more ==> EndsSegment(e)) ==>
              Gather(events + more) == Gathered(Gather(events).All(), "")
    ensures (forall e :: e in more ==> !EndsSegment(e) && !e.TextPiece?) ==> Gather(events + more) == Gather(events)
  {
    hide Gather;
    var all := Gather(events).All();
    assert all + [] == all;
    assert |more| >= 1 ==> more[0] in more;
    assert |more| == 2 ==> more[1] in more;
    if more == [] {
      assert events + more == events;
    } else if |more| == 1 {
      assert more == [more[0]];
      StepOf(events, more[0]);
    } else {
      StepOf(events, more[0]);
      StepOf(events + [more[0]], more[1]);
      assert events + more == events + [more[0]] + [more[1]];
    }
  }

  /** When each text of a segment continues the one before, the segment's text is the last of them. */
  lemma {:induction false} CumulativeTexts(texts: seq<string>)
    requires texts != [] && texts[0] != ""
    requires forall n :: 0 < n < |texts| ==> texts[n - 1] <= texts[n]
    ensures Segments(seq(|texts|, n requires 0 <= n < |texts| => Assistant(false, true, texts[n])))
            == Gathered([], texts[|texts| - 1])
    ensures texts[|texts| - 1] != ""
  {
    var lines := seq(|texts|, n requires 0 <= n < |texts| => Assistant(false, true, texts[n]));
    var before := texts[..|texts| - 1];
    var linesBefore := seq(|before|, n requires 0 <= n < |before| => Assistant(false, true, before[n]));
    assert lines[..|texts| - 1] == linesBefore;
    if before == [] {
      assert "" + texts[0] == texts[0];
    } else {
      CumulativeTexts(before);
    }
  }

  /** Two growing texts and the final line that repeats the last of them: one message. */
  lemma {:induction false} FinalTextExample()
    ensures var lines := [Assistant(false, true, "a"), Assistant(false, true, "ab"), Assistant(false, false, "ab")];
            Segments(lines).All() == ["ab"]
  {
    hide Segments;
    var lines := [Assistant(false, true, "a"), Assistant(false, true, "ab"), Assistant(false, false, "ab")];
    assert lines[..0] == [] && lines[..3] == lines;
    NoSegments();
    SegmentsStep(lines, 0);
    SegmentsStep(lines, 1);
    SegmentsStep(lines, 2);
    assert "" + "a" == "a" && "a" <= "ab";
    assert [] + ["ab"] == ["ab"] && ["ab"] + [] == ["ab"];
  }

  lemma NoSegments()
    ensures Segments([]) == Gathered([], "")
  {
  }

  /** When no text of a segment continues what has been said in it, the segment's text is all of them in a row. */
  lemma {:induction false} SeparateTexts(texts: seq<string>)
    requires forall n :: 0 < n < |texts| ==> Joined(texts[..n]) == "" || !(Joined(texts[..n]) <= texts[n])
    ensures Segments(seq(|texts|, n requires 0 <= n < |texts| => Assistant(false, true, texts[n])))
            == Gathered([], Joined(texts))
  {
    var lines := seq(|texts|, n requires 0 <= n < |texts| => Assistant(false, true, texts[n]));
    if texts != [] {
      var before := texts[..|texts| - 1];
      var linesBefore := seq(|before|, n requires 0 <= n < |before| => Assistant(false, true, before[n]));
      assert lines[..|texts| - 1] == linesBefore;
      assert forall n :: 0 < n < |before| ==> before[..n] == texts[..n];
      SeparateTexts(before);
      assert Joined([]) == "";
    }
  }

  // ---- A turn, streamed and collected ----

  /** Both accounts of the same events: what they say, and when they agree. */
  ghost predicate Compared(events: seq<CursorEvent>, trace: seq<Event>, streamed: seq<Output>, collected: seq<Output>) {
    && Decode(trace).phase.Streaming? && MessageTexts(Decode(trace).items) == MessagesOf(streamed)
    && MessagesOf(streamed) == Show(events).texts && MessagesOf(collected) == Gather(events).All()
    && (MessagesOf(streamed) == MessagesOf(collected) <==> !Splits(events))
  }

  /** The same events, once streamed and once collected: the strict client accepts the stream, and both
      outputs have the same messages exactly when the events split none. */
  method StreamAndCollect(table: ToolTable, events: seq<CursorEvent>) returns (trace: seq<Event>,
      streamed: seq<Output>, collected: seq<Output>)
    ensures Compared(events, trace, streamed, collected)
  {
    hide Decode, MessageTexts, MessagesOf, Layout, ShowEvent, GatherEvent, ResponsesStreamState.Chatting;
    var state := new ResponsesStreamState(table);
    state.Start();
    NoTexts();
    var collector := new CursorResponseCollector();
    assert events[..0] == [];
    for n := 0 to |events|
      invariant fresh(state) && fresh(collector) && Streaming(state)
      invariant Seen(state) == Show(events[..n]) && collector.Gathering() == Gather(events[..n])
    {
      assert events[..n + 1] == events[..n] + [events[n]];
      StepOf(events[..n], events[n]);
      ApplyCursorStreamEvent(state, events[n]);
      collector.Consume(events[n]);
    }
    assert events[..|events|] == events;
    streamed := state.OutputItems();
    trace := state.trace;
    collected := collector.BuildOutput("");
    SameUnlessSplit(events);
  }

  lemma NoTexts()
    ensures MessageTexts([]) == []
  {
  }

  /** A parsed run gives the same messages either way: the texts of its segments. */
  method ParseAndStream(table: ToolTable, lines: seq<Line>) returns (streamed: seq<Output>, collected: seq<Output>)
    ensures MessagesOf(streamed) == MessagesOf(collected) == Segments(lines).All()
  {
    hide MessagesOf, Segments, Show, Splits, MessageTexts, Decode;
    var events := Parse(lines);
    NoSplitBeforeTheEnd(events);
    var trace: seq<Event>;
    trace, streamed, collected := StreamAndCollect(table, events);
  }
}
