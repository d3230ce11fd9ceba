/** The receiving end of an Anthropic Messages event stream: a strict client that rebuilds the
    message from the events and rejects any event that breaks the block grammar. */
module AnthropicClient {

  datatype Kind = Text | Thinking | Tool(id: string, name: string)

  datatype DeltaKind = TextDelta | ThinkingDelta | InputJsonDelta

  datatype Event =
    | MessageStart(model: string)
    | BlockStart(index: nat, kind: Kind)
    | BlockDelta(index: nat, delta: DeltaKind, text: string)
    | BlockStop(index: nat)
    | MessageDelta(stopReason: string)
    | MessageStop
    | Error(code: string, message: string)

  datatype Block = Block(kind: Kind, body: string, open: bool)

  datatype Phase =
    | Waiting
    | Streaming
    | Stopping(stopReason: string)
    | Stopped(stopReason: string)
    | Failed(code: string, message: string)
    | Rejected

  datatype Client = Client(blocks: seq<Block>, phase: Phase)

  datatype ToolUse = ToolUse(id: string, name: string, arguments: string)

  predicate Accepts(kind: Kind, delta: DeltaKind) {
    match kind
    case Text => delta.TextDelta?
    case Thinking => delta.ThinkingDelta?
    case Tool(_, _) => delta.InputJsonDelta?
  }

  predicate AllClosed(blocks: seq<Block>) {
    forall i :: 0 <= i < |blocks| ==> !blocks[i].open
  }

  /** One event. A block must start at the next free index, a delta or a stop must name a block
      that is started and not stopped, the message may end only once every block is stopped,
      and nothing may follow the end. */
  function Feed(c: Client, e: Event): Client {
    var rejected := c.(phase := Rejected);
    match e
    case MessageStart(_) =>
      if c.phase.Waiting? then c.(phase := Streaming) else rejected
    case BlockStart(i, kind) =>
      if c.phase.Streaming? && i == |c.blocks| then c.(blocks := c.blocks + [Block(kind, "", true)]) else rejected
    case BlockDelta(i, delta, text) =>
      if c.phase.Streaming? && i < |c.blocks| && c.blocks[i].open && Accepts(c.blocks[i].kind, delta) then
        c.(blocks := c.blocks[i := c.blocks[i].(body := c.blocks[i].body + text)])
      else rejected
    case BlockStop(i) =>
      if c.phase.Streaming? && i < |c.blocks| && c.blocks[i].open then
        c.(blocks := c.blocks[i := c.blocks[i].(open := false)])
      else rejected
    case MessageDelta(reason) =>
      if c.phase.Streaming? && AllClosed(c.blocks) then c.(phase := Stopping(reason)) else rejected
    case MessageStop =>
      if c.phase.Stopping? then c.(phase := Stopped(c.phase.stopReason)) else rejected
    case Error(code, message) =>
      if c.phase.Streaming? && AllClosed(c.blocks) then c.(phase := Failed(code, message)) else rejected
  }

  function Decode(trace: seq<Event>): Client {
    if trace == [] then Client([], Waiting)
    else Feed(Decode(trace[..|trace| - 1]), trace[|trace| - 1])
  }

  lemma DecodeSnoc(trace: seq<Event>, e: Event)
    ensures Decode(trace + [e]) == Feed(Decode(trace), e)
  {
    assert (trace + [e])[..|trace|] == trace;
  }

  // ---- What the rebuilt message says ----

  /** The bodies of the blocks of one plain kind, concatenated in block order. */
  function BodyOf(blocks: seq<Block>, kind: Kind): string {
    if blocks == [] then ""
    else
      var last := blocks[|blocks| - 1];
      BodyOf(blocks[..|blocks| - 1], kind) + (if last.kind == kind then last.body else "")
  }

  /** The tool uses, in block order. */
  function ToolsOf(blocks: seq<Block>): seq<ToolUse> {
    if blocks == [] then []
    else
      var last := blocks[|blocks| - 1];
      ToolsOf(blocks[..|blocks| - 1]) +
      (if last.kind.Tool? then [ToolUse(last.kind.id, last.kind.name, last.body)] else [])
  }

  lemma BodyOfSnoc(blocks: seq<Block>, b: Block, kind: Kind)
    ensures BodyOf(blocks + [b], kind) == BodyOf(blocks, kind) + (if b.kind == kind then b.body else "")
  {
    assert (blocks + [b])[..|blocks|] == blocks;
  }

  lemma BodyOfSame(a: seq<Block>, b: seq<Block>, kind: Kind)
    requires |a| == |b|
    requires forall i :: 0 <= i < |a| ==> (a[i].kind == kind) == (b[i].kind == kind)
    requires forall i :: 0 <= i < |a| && a[i].kind == kind ==> a[i].body == b[i].body
    ensures BodyOf(a, kind) == BodyOf(b, kind)
  {
    if a != [] {
      BodyOfSame(a[..|a| - 1], b[..|b| - 1], kind);
    }
  }

  /** Text appended to the last block of its kind is text appended to the whole. */
  lemma BodyOfAppend(blocks: seq<Block>, i: nat, kind: Kind, text: string)
    requires i < |blocks| && blocks[i].kind == kind
    requires forall j :: i < j < |blocks| ==> blocks[j].kind != kind
    ensures BodyOf(blocks[i := blocks[i].(body := blocks[i].body + text)], kind) == BodyOf(blocks, kind) + text
  {
    var n := |blocks| - 1;
    var after := blocks[i := blocks[i].(body := blocks[i].body + text)];
    if i == n {
      assert after[..n] == blocks[..n];
    } else {
      BodyOfAppend(blocks[..n], i, kind, text);
      assert after[..n] == blocks[..n][i := blocks[i].(body := blocks[i].body + text)];
    }
  }
}
