/** The receiving end of a Responses API event stream: a strict client that rebuilds the output items
    from the events and rejects any event that breaks the item protocol. */
module ResponsesClient {
  import opened Common

  datatype CallKind = Function | WebSearch | Mcp(server: string, tool: string) | Search

  /** An output item. */
  datatype Output =
    | Message(text: string)
    | Reasoning(text: string)
    | Call(kind: CallKind, callId: string, name: string, namespace: Option<string>, arguments: string)

  datatype Verdict = Completed | Incomplete(maxOutputTokens: bool) | Failed(code: string, message: string)

  datatype Channel = OutputText | ReasoningSummary | CallArguments

  datatype Event =
    | Created
    | ItemAdded(index: nat, item: Output)
    | PartAdded(index: nat)
    | Delta(index: nat, channel: Channel, text: string)
    | TextDone(index: nat, channel: Channel, text: string)
    | PartDone(index: nat, text: string)
    | ItemDone(index: nat, item: Output)
    | ErrorNotice(code: string, message: string)
    | Terminal(verdict: Verdict, output: seq<Output>)
    | StreamEnd

  /** An announced item: how it was added, the deltas that have arrived (`before` those up to its done
      event, `late` those after it), the text settled by its text-done event and its final form. */
  datatype Item = Item(added: Output, before: string, late: string, settled: Option<string>, done: Option<Output>)
  {
    function Deltas(): string { before + late }
  }

  datatype Phase =
    | Waiting
    | Streaming
    | Erring(code: string, message: string)
    | Ended(verdict: Verdict, output: seq<Output>)
    | Closed(verdict: Verdict, output: seq<Output>)
    | Rejected

  datatype Client = Client(items: seq<Item>, phase: Phase)

  function TextOf(o: Output): string {
    match o
    case Message(text) => text
    case Reasoning(text) => text
    case Call(_, _, _, _, arguments) => arguments
  }

  function WithText(o: Output, text: string): Output {
    match o
    case Message(_) => Message(text)
    case Reasoning(_) => Reasoning(text)
    case Call(_, _, _, _, _) => o.(arguments := text)
  }

  function ChannelOf(o: Output): Channel {
    match o
    case Message(_) => OutputText
    case Reasoning(_) => ReasoningSummary
    case Call(_, _, _, _, _) => CallArguments
  }

  /** A tool search sends its arguments only with its done event. */
  predicate Streams(o: Output) {
    !(o.Call? && o.kind.Search?)
  }

  /** Web and tool searches have no text-done event. */
  predicate Settles(o: Output) {
    !(o.Call? && (o.kind.Search? || o.kind.WebSearch?))
  }

  predicate AllDone(items: seq<Item>) {
    forall i :: 0 <= i < |items| ==> items[i].done.Some?
  }

  function Fresh(o: Output): Item {
    Item(o, "", "", None, None)
  }

  /** One event. Items are announced at consecutive indices and empty; an item is settled and done at
      most once, and then with exactly the text its deltas spelled; `completed` may only follow when
      every announced item is done; nothing follows the end of the stream. */
  function Feed(c: Client, e: Event): Client {
    var rejected := c.(phase := Rejected);
    if e.Created? then
      if c.phase.Waiting? then c.(phase := Streaming) else rejected
    else if e.StreamEnd? then
      if c.phase.Ended? then c.(phase := Closed(c.phase.verdict, c.phase.output)) else rejected
    else if e.Terminal? && e.verdict.Failed? then
      if c.phase == Erring(e.verdict.code, e.verdict.message) then c.(phase := Ended(e.verdict, e.output)) else rejected
    else if !c.phase.Streaming? then rejected
    else match e
      case ItemAdded(i, o) =>
        if i == |c.items| && TextOf(o) == "" then c.(items := c.items + [Fresh(o)]) else rejected
      case PartAdded(i) =>
        if i < |c.items| && c.items[i].added.Message? && c.items[i].before == "" then c else rejected
      case Delta(i, channel, text) =>
        if i < |c.items| && channel == ChannelOf(c.items[i].added) && Streams(c.items[i].added) then
          var item := c.items[i];
          c.(items := c.items[i := if item.done.None? then item.(before := item.before + text)
                                   else item.(late := item.late + text)])
        else rejected
      case TextDone(i, channel, text) =>
        if && i < |c.items| && channel == ChannelOf(c.items[i].added) && Settles(c.items[i].added)
           && c.items[i].settled.None? && c.items[i].done.None? && text == c.items[i].before
        then c.(items := c.items[i := c.items[i].(settled := Some(text))])
        else rejected
      case PartDone(i, text) =>
        if i < |c.items| && c.items[i].added.Message? && c.items[i].settled == Some(text) then c else rejected
      case ItemDone(i, o) =>
        if && i < |c.items| && c.items[i].done.None?
           && o == WithText(c.items[i].added, TextOf(o))
           && (Streams(o) ==> TextOf(o) == c.items[i].before)
           && (Settles(o) ==> c.items[i].settled == Some(TextOf(o)))
        then c.(items := c.items[i := c.items[i].(done := Some(o))])
        else rejected
      case ErrorNotice(code, message) => c.(phase := Erring(code, message))
      case Terminal(v, output) =>
        if v.Completed? && !AllDone(c.items) then rejected else c.(phase := Ended(v, output))
  }

  function Decode(trace: seq<Event>): Client {
    if trace == [] then Client([], Waiting)
    else Feed(Decode(trace[..|trace| - 1]), trace[|trace| - 1])
  }

  lemma DecodeSnoc(trace: seq<Event>, e: Event)
    ensures Decode(trace + [e]) == Feed(Decode(trace), e)
  {
    assert (trace + [e])[..|trace|] == trace;
  }

  // ---- What a final output list says ----

  /** The texts of the messages, in order. */
  function MessagesOf(output: seq<Output>): seq<string> {
    if output == [] then []
    else
      var last := output[|output| - 1];
      MessagesOf(output[..|output| - 1]) + (if last.Message? then [last.text] else [])
  }

  /** The text said on one channel, over all items in order. */
  function SaidOn(channel: Channel, output: seq<Output>): string {
    if output == [] then ""
    else
      var last := output[|output| - 1];
      SaidOn(channel, output[..|output| - 1]) + (if ChannelOf(last) == channel then TextOf(last) else "")
  }

  function CallsOf(output: seq<Output>): seq<Output> {
    if output == [] then []
    else
      var last := output[|output| - 1];
      CallsOf(output[..|output| - 1]) + (if last.Call? then [last] else [])
  }

  // ---- What the announced items say ----

  /** The deltas of one channel, over all items in order. */
  function Streamed(channel: Channel, items: seq<Item>): string {
    if items == [] then ""
    else
      var last := items[|items| - 1];
      Streamed(channel, items[..|items| - 1]) + (if ChannelOf(last.added) == channel then last.Deltas() else "")
  }

  function MessageTexts(items: seq<Item>): seq<string> {
    if items == [] then []
    else
      var last := items[|items| - 1];
      MessageTexts(items[..|items| - 1]) + (if last.added.Message? then [last.Deltas()] else [])
  }

  lemma StreamedSnoc(channel: Channel, items: seq<Item>, item: Item)
    ensures Streamed(channel, items + [item]) ==
            Streamed(channel, items) + (if ChannelOf(item.added) == channel then item.Deltas() else "")
    ensures MessageTexts(items + [item]) == MessageTexts(items) + (if item.added.Message? then [item.Deltas()] else [])
  {
    assert (items + [item])[..|items|] == items;
  }

  lemma {:induction false} StreamedSame(channel: Channel, a: seq<Item>, b: seq<Item>)
    requires |a| == |b|
    requires forall i :: 0 <= i < |a| ==> a[i].added == b[i].added
    requires forall i :: 0 <= i < |a| && ChannelOf(a[i].added) == channel ==> a[i].Deltas() == b[i].Deltas()
    ensures Streamed(channel, a) == Streamed(channel, b)
    ensures channel == OutputText ==> MessageTexts(a) == MessageTexts(b)
  {
    if a != [] {
      StreamedSame(channel, a[..|a| - 1], b[..|b| - 1]);
    }
  }

  /** Text sent on the last item of its channel is text said last. */
  lemma StreamedAppend(channel: Channel, items: seq<Item>, k: nat, item: Item, text: string)
    requires k < |items| && ChannelOf(items[k].added) == channel
    requires item.added == items[k].added && item.Deltas() == items[k].Deltas() + text
    requires forall j :: k < j < |items| ==> ChannelOf(items[j].added) != channel
    ensures Streamed(channel, items[k := item]) == Streamed(channel, items) + text
    ensures channel == OutputText ==>
              var before := MessageTexts(items);
              before != [] && before[|before| - 1] == items[k].Deltas() &&
              MessageTexts(items[k := item]) == before[..|before| - 1] + [item.Deltas()]
  {
    var n := |items| - 1;
    if k == n {
      assert items[k := item][..n] == items[..n];
    } else {
      StreamedAppend(channel, items[..n], k, item, text);
      assert items[k := item][..n] == items[..n][k := item];
    }
  }
}
