/** The values behind the Responses stream state (codex_shim/server.py, ResponsesStreamState): how a chat
    stream reads as output items, and what ties the state's records to the items a client has seen. */
module ResponsesLayout {
  import opened Common
  import opened ChatUpstream
  import opened ResponsesClient
  import opened ToolNames
  import ToolIds

  /** What the state knows of the tools of a request, and the argument parser. */
  datatype ToolTable = ToolTable(
    toolResolve: map<string, (Option<string>, string)>,
    isWebSearch: string -> bool,
    parses: string -> bool)

  /** `_should_defer_tool_name`. */
  predicate MustDefer(name: string) {
    name == "" || (IsPlain(name) && "mcp" <= name)
  }

  predicate ArgumentsComplete(t: ToolTable, name: string, arguments: string) {
    name != "" && Strip(arguments) != "" && t.parses(arguments)
  }

  // ---- What a chat stream says ----

  /** The first fragment of a call. */
  function First(fs: seq<Fragment>, index: int): Option<Fragment> {
    if fs == [] then None
    else
      var before := First(fs[..|fs| - 1], index);
      if before.None? && fs[|fs| - 1].index == index then Some(fs[|fs| - 1]) else before
  }

  /** A call's first fragment carries its whole name and no later one carries any. */
  predicate NamesWhole(fs: seq<Fragment>, f: Fragment) {
    if First(fs, f.index).None? then !MustDefer(Strip(f.name)) else f.name == ""
  }

  predicate WholeNames(fs: seq<Fragment>) {
    forall n :: 0 <= n < |fs| ==> NamesWhole(fs[..n], fs[n])
  }

  function McpNamespace(server: string): string {
    if "mcp__" <= server then server else "mcp__" + server
  }

  function RawId(f: Fragment): string {
    OrElse(f.id, "call_" + IntText(f.index))
  }

  function SearchRecord(f: Fragment): Block {
    Block(f.name, Call(Search, RawId(f), "", None, ""), false)
  }

  /** The call id of an MCP call is made from its item id. */
  function McpRecord(f: Fragment, name: string): Block
    requires McpReference(name).Some?
  {
    var (server, tool) := McpReference(name).value;
    var itemId := ToolIds.FunctionCallIds(RawId(f)).0;
    Block(name, Call(Mcp(server, tool), ToolIds.CallId(itemId), tool, Some(McpNamespace(server)), ""), false)
  }

  lemma McpRecordIsCall(f: Fragment, name: string)
    requires McpReference(name).Some?
    ensures var b := McpRecord(f, name); b.item.Call? && b.item.arguments == "" && b.name == name && !b.closed
  {
    hide McpReference;
  }

  function PlainRecord(t: ToolTable, f: Fragment, name: string): Block {
    var (namespace, tool) := Resolve(t.toolResolve, name);
    var first := if t.isWebSearch(name) then RawId(f) else ToolIds.CallId(RawId(f));
    if t.isWebSearch(tool) then Block(tool, Call(WebSearch, first, tool, namespace, ""), false)
    else Block(tool, Call(Function, ToolIds.CallId(first), tool, namespace, ""), false)
  }

  /** The record that a call's first fragment makes, still without arguments. */
  function Opened(t: ToolTable, f: Fragment): Block {
    var name := Strip(f.name);
    if IsSearch(name) then SearchRecord(f)
    else if McpReference(name).Some? then McpRecord(f, name)
    else PlainRecord(t, f, name)
  }

  /** The name kept of a call. */
  function KeptName(t: ToolTable, fs: seq<Fragment>, index: int): string {
    match First(fs, index)
    case None => ""
    case Some(f) => Opened(t, f).name
  }

  /** Some fragment of the call completed its arguments. */
  predicate EverComplete(t: ToolTable, fs: seq<Fragment>, index: int) {
    fs != [] &&
    (EverComplete(t, fs[..|fs| - 1], index) ||
     (fs[|fs| - 1].index == index && ArgumentsComplete(t, KeptName(t, fs, index), Arguments(fs, index))))
  }

  /** The item a call's fragments describe. */
  function SaidCall(t: ToolTable, fs: seq<Fragment>, index: int): Output {
    match First(fs, index)
    case None => Message("")
    case Some(f) => WithText(Opened(t, f).item, Arguments(fs, index))
  }

  function SaidCalls(t: ToolTable, fs: seq<Fragment>, order: seq<int>): seq<Output> {
    seq(|order|, k requires 0 <= k < |order| => SaidCall(t, fs, order[k]))
  }

  /** What is said of a call: for a plain tool its id in canonical form, the name, with the namespace, that the table
      gives for it, or the bare name, and all its arguments; a tool that is a web search keeps its id, a tool search
      has no name, and an MCP call has its server's namespace. */
  lemma SaidCallMeans(t: ToolTable, fs: seq<Fragment>, i: int)
    requires First(fs, i).Some?
    ensures var f := First(fs, i).value;
            var name, id, arguments := Strip(f.name), if f.id == "" then "call_" + IntText(i) else f.id,
                                       Arguments(fs, i);
            && (IsSearch(name) ==> SaidCall(t, fs, i) == Call(Search, id, "", None, arguments))
            && (IsPlain(name) && (name in t.toolResolve || '.' !in name) ==>
                  var (namespace, tool) := if name in t.toolResolve then t.toolResolve[name] else (None, name);
                  SaidCall(t, fs, i) ==
                  if !t.isWebSearch(tool) then Call(Function, ToolIds.CallId(id), tool, namespace, arguments)
                  else Call(WebSearch, if t.isWebSearch(name) then id else ToolIds.CallId(id), tool, namespace,
                            arguments))
            && (!IsSearch(name) && McpReference(name).Some? ==>
                  var (server, tool) := McpReference(name).value;
                  SaidCall(t, fs, i) ==
                  Call(Mcp(server, tool), ToolIds.CallId("fc_" + ToolIds.Suffix(id)), tool,
                       Some(if "mcp__" <= server then server else "mcp__" + server), arguments))
  {
    hide McpReference, IsSearch, Resolve, Strip, First, ToolIds.CallId;
    var f := First(fs, i).value;
    FirstSeen(fs, i);
    ToolIds.CanonicalIsFixed(RawId(f));
    BareStays(t, Strip(f.name));
  }

  lemma BareStays(t: ToolTable, name: string)
    ensures name in t.toolResolve ==> Resolve(t.toolResolve, name) == t.toolResolve[name]
    ensures IsPlain(name) && name !in t.toolResolve && '.' !in name ==> Resolve(t.toolResolve, name) == (None, name)
  {
    hide McpReference;
    NoDot(name);
  }

  lemma {:induction false} NoDot(name: string)
    ensures '.' !in name ==> Find(name, ".").None?
  {
    if '.' !in name {
      if name != "" { NoDot(name[1..]); }
      assert name != "" ==> name[0] in name;
    }
  }

  /** A call is announced with its first fragment, except that a tool search whose name came with spaces
      around it waits for complete arguments. */
  predicate Shown(t: ToolTable, fs: seq<Fragment>, index: int) {
    First(fs, index).Some? && (Padded(First(fs, index).value.name) ==> EverComplete(t, fs, index))
  }

  /** The announced calls in the order of their announcements. */
  function ShownOrder(t: ToolTable, fs: seq<Fragment>): seq<int> {
    if fs == [] then []
    else
      var prefix, last := fs[..|fs| - 1], fs[|fs| - 1];
      ShownOrder(t, prefix)
      + (if Shown(t, fs, last.index) && !Shown(t, prefix, last.index) then [last.index] else [])
  }

  /** The call has more than one fragment. */
  predicate Again(fs: seq<Fragment>, index: int) {
    fs != [] &&
    (Again(fs[..|fs| - 1], index) || (fs[|fs| - 1].index == index && First(fs[..|fs| - 1], index).Some?))
  }

  /** The call's resolved name is that of a tool search or of an MCP tool. */
  predicate Strayed(t: ToolTable, fs: seq<Fragment>, index: int) {
    First(fs, index).Some? && Strays(t.toolResolve, Strip(First(fs, index).value.name))
  }

  /** The call is reported as the item that was announced for it. */
  predicate Kept(t: ToolTable, fs: seq<Fragment>, index: int) {
    !Strayed(t, fs, index) && Shown(t, fs, index)
  }

  /** The call is left with a tool search that was never announced. */
  predicate Stuck(t: ToolTable, fs: seq<Fragment>, index: int) {
    || (First(fs, index).Some? && !Shown(t, fs, index))
    || (Strayed(t, fs, index) && IsSearch(KeptName(t, fs, index)) && Again(fs, index))
  }

  function SaidFinish(chunks: seq<Chunk>): Option<string> {
    if chunks == [] then None
    else
      var last := chunks[|chunks| - 1].finishReason;
      if last.Some? then last else SaidFinish(chunks[..|chunks| - 1])
  }

  function SaidNative(chunks: seq<Chunk>): Option<string> {
    if chunks == [] then None
    else
      var last := chunks[|chunks| - 1].nativeFinishReason;
      if last.Some? then last else SaidNative(chunks[..|chunks| - 1])
  }

  /** Python's `lower()` as far as it can produce an ASCII letter. */
  function Lower(s: string): string {
    seq(|s|, i requires 0 <= i < |s| =>
      if 'A' <= s[i] <= 'Z' then (s[i] as int + 32) as char else if s[i] as int == 0x212A then 'k' else s[i])
  }

  const ERROR_REASONS := {"error", "network_error", "provider_error", "internal_error", "unknown_error"}

  /** `_upstream_error_finish_reason`. */
  function ErrorReason(finish: Option<string>, native: Option<string>): Option<string> {
    var n := Lower(Strip(native.GetOr("")));
    var f := Lower(Strip(finish.GetOr("")));
    if n in ERROR_REASONS then Some(n) else if f in ERROR_REASONS then Some(f) else None
  }

  predicate Conclusive(finish: Option<string>, sawDone: bool) {
    sawDone || finish == Some("stop") || finish == Some("tool_calls")
  }

  datatype Ending = Finish(sawDone: bool) | Fail(message: string, code: string)

  const EMPTY_STREAM := Failed("upstream_empty_stream", "Upstream stream ended without content")

  /** How a turn ends, from what its chunks said and from whether everything is done. */
  function VerdictOf(done: bool, text: string, fs: seq<Fragment>, finish: Option<string>, native: Option<string>,
                     ending: Ending): Verdict {
    match ending
    case Fail(message, code) => Failed(code, message)
    case Finish(sawDone) =>
      var reason := ErrorReason(finish, native);
      if reason.Some? then Failed(reason.value, "Upstream finished with " + reason.value)
      else if fs == [] && Strip(text) == "" && !sawDone then EMPTY_STREAM
      else if done && Conclusive(finish, sawDone) && finish != Some("length") then Completed
      else Incomplete(finish == Some("length"))
  }

  /** A reason is an error exactly if it is one of the list, in small letters or large ones, and that of the provider
      goes before the other one. */
  lemma ErrorReasonMeans(reason: string, written: string, other: Option<string>)
    requires reason != "" && forall i :: 0 <= i < |reason| ==> 'a' <= reason[i] <= 'z' || reason[i] == '_'
    requires |written| == |reason|
    requires forall i :: 0 <= i < |reason| ==>
               written[i] == reason[i] || ('A' <= written[i] <= 'Z' && written[i] as int + 32 == reason[i] as int)
    ensures ErrorReason(Some(written), None) == if reason in ERROR_REASONS then Some(reason) else None
    ensures reason in ERROR_REASONS ==> ErrorReason(other, Some(written)) == Some(reason)
    ensures ErrorReason(None, None) == None
  {
    ToolIds.StripFixed(written);
    assert Lower(Strip(written)) == reason;
    assert Strip("") == "" && Lower("") == "";
  }

  /** What a verdict means for a turn: `completed` needs every item done, an end marker or a finish reason `stop` or
      `tool_calls`, and no reason `length`, which makes it incomplete for lack of tokens; a turn that said nothing or
      named an error has failed, and so has one that was told to. */
  lemma VerdictMeans(done: bool, text: string, fs: seq<Fragment>, finish: Option<string>, native: Option<string>,
                     ending: Ending)
    ensures var verdict := VerdictOf(done, text, fs, finish, native, ending);
            var error := ErrorReason(finish, native).Some?;
            var sawDone := ending.Finish? && ending.sawDone;
            var silent := fs == [] && Strip(text) == "" && !sawDone;
            && (ending.Fail? ==> verdict == Failed(ending.code, ending.message))
            && (ending.Finish? ==> (verdict.Failed? <==> error || silent))
            && (ending.Finish? && verdict.Failed? && !error ==> verdict.code == "upstream_empty_stream")
            && (ending.Finish? && error ==> verdict.code == ErrorReason(finish, native).value)
            && (verdict.Completed? <==>
                  && ending.Finish? && !error && !silent && done && finish != Some("length")
                  && (sawDone || finish == Some("stop") || finish == Some("tool_calls")))
            && (verdict.Incomplete? ==> (verdict.maxOutputTokens <==> finish == Some("length")))
  {
  }

  /** The arguments of every call have been complete. */
  ghost predicate AllComplete(t: ToolTable, fs: seq<Fragment>) {
    forall i :: i in Indices(fs) ==> EverComplete(t, fs, i)
  }

  // ---- Arguments that can be read ----

  /** The arguments are not blank, and the parser takes them. */
  predicate Readable(t: ToolTable, arguments: string) {
    Strip(arguments) != "" && t.parses(arguments)
  }

  /** At some point of the stream, what had arrived of the call's arguments could be read. */
  ghost predicate EverReadable(t: ToolTable, fs: seq<Fragment>, index: int) {
    exists n :: 0 <= n <= |fs| && Readable(t, Arguments(fs[..n], index))
  }

  /** Every call has a name and arguments that could be read at some point. */
  ghost predicate AllReadable(t: ToolTable, fs: seq<Fragment>) {
    forall i :: i in Indices(fs) ==> KeptName(t, fs, i) != "" && EverReadable(t, fs, i)
  }

  lemma EverReadableSnoc(t: ToolTable, fs: seq<Fragment>, f: Fragment, i: int)
    ensures EverReadable(t, fs + [f], i) <==>
            EverReadable(t, fs, i) || (f.index == i && Readable(t, Arguments(fs + [f], i)))
  {
    hide Readable;
    FragmentsSnoc(fs, f, i);
    var all := fs + [f];
    assert all[..|all|] == all && fs[..|fs|] == fs && Arguments(fs, i) + "" == Arguments(fs, i);
    assert forall n :: 0 <= n <= |fs| ==> all[..n] == fs[..n];
    if EverReadable(t, all, i) {
      var n :| 0 <= n <= |all| && Readable(t, Arguments(all[..n], i));
      assert n <= |fs| ==> Readable(t, Arguments(fs[..n], i));
      assert f.index != i && n == |all| ==> Readable(t, Arguments(fs[..|fs|], i));
    }
    if EverReadable(t, fs, i) {
      var n :| 0 <= n <= |fs| && Readable(t, Arguments(fs[..n], i));
      assert Readable(t, Arguments(all[..n], i));
    }
    if f.index == i && Readable(t, Arguments(all, i)) {
      assert Readable(t, Arguments(all[..|all|], i));
    }
  }

  /** Some fragment completed a call's arguments exactly when its name is not empty and they could be read at some
      point. */
  lemma {:induction false} EverCompleteMeans(t: ToolTable, fs: seq<Fragment>, i: int)
    requires First(fs, i).Some?
    ensures EverComplete(t, fs, i) <==> KeptName(t, fs, i) != "" && EverReadable(t, fs, i)
  {
    hide EverReadable, Opened, First;
    if fs != [] {
      var n := |fs| - 1;
      assert fs == fs[..n] + [fs[n]];
      CallSnoc(t, fs[..n], fs[n], i);
      EverReadableSnoc(t, fs[..n], fs[n], i);
      if First(fs[..n], i).Some? {
        EverCompleteMeans(t, fs[..n], i);
      } else {
        NeverUnseen(t, fs[..n], i);
        NeverReadable(t, fs[..n], i);
      }
    } else {
      FirstSeen(fs, i);
    }
  }

  lemma {:induction false} NeverReadable(t: ToolTable, fs: seq<Fragment>, i: int)
    requires First(fs, i).None?
    ensures !EverReadable(t, fs, i)
  {
    forall n | 0 <= n <= |fs| ensures !Readable(t, Arguments(fs[..n], i)) {
      FirstEarlier(fs, n, i);
      FirstSeen(fs[..n], i);
      BlankHasNothing();
    }
  }

  lemma BlankHasNothing()
    ensures Strip("") == ""
  {
  }

  lemma {:induction false} FirstEarlier(fs: seq<Fragment>, n: nat, i: int)
    requires n <= |fs| && First(fs, i).None?
    ensures First(fs[..n], i).None?
  {
    if n == |fs| {
      assert fs[..n] == fs;
    } else {
      var m := |fs| - 1;
      FirstEarlier(fs[..m], n, i);
      assert fs[..m][..n] == fs[..n];
    }
  }

  lemma AllCompleteMeans(t: ToolTable, fs: seq<Fragment>)
    ensures AllComplete(t, fs) <==> AllReadable(t, fs)
  {
    hide EverComplete, EverReadable, KeptName, Indices, First;
    forall i | i in Indices(fs)
      ensures EverComplete(t, fs, i) <==> KeptName(t, fs, i) != "" && EverReadable(t, fs, i)
    {
      FirstSeen(fs, i);
      EverCompleteMeans(t, fs, i);
    }
  }

  /** Every call's done event carries arguments that can be read. */
  ghost predicate DonesReadable(t: ToolTable, trace: seq<Event>) {
    forall e :: e in trace && e.ItemDone? && e.item.Call? ==> Readable(t, TextOf(e.item))
  }

  /** A call's item that is done has arguments that can be read; what has been streamed for a named call whose item
      is not done cannot be. */
  ghost predicate DoneWhenReadable(t: ToolTable, items: seq<Item>) {
    forall k :: 0 <= k < |items| && items[k].added.Call? ==>
      if items[k].done.Some? then Readable(t, TextOf(items[k].done.value))
      else Streams(items[k].added) && items[k].added.name != "" ==> !Readable(t, items[k].Deltas())
  }

  ghost predicate DonesRead(t: ToolTable, items: seq<Item>) {
    forall k :: 0 <= k < |items| && items[k].added.Call? && items[k].done.Some? ==>
      Readable(t, TextOf(items[k].done.value))
  }

  /** The items that a client has been told are done have the arguments of their done events. */
  lemma {:induction false} DoneByEvent(t: ToolTable, trace: seq<Event>)
    requires DonesReadable(t, trace)
    ensures DonesRead(t, Decode(trace).items)
  {
    hide Readable, Feed, DonesRead;
    if trace == [] {
      NoneDone(t);
    } else {
      var n := |trace| - 1;
      DoneByEvent(t, trace[..n]);
      assert trace[n] in trace;
      FeedReadable(t, Decode(trace[..n]), trace[n]);
    }
  }

  lemma NoneDone(t: ToolTable)
    ensures DonesRead(t, [])
  {
  }

  lemma FeedReadable(t: ToolTable, c: Client, e: Event)
    requires DonesRead(t, c.items)
    requires e.ItemDone? && e.item.Call? ==> Readable(t, TextOf(e.item))
    ensures DonesRead(t, Feed(c, e).items)
  {
    hide Readable;
    var items := Feed(c, e).items;
    forall k | 0 <= k < |items| && items[k].added.Call? && items[k].done.Some?
      ensures Readable(t, TextOf(items[k].done.value))
    {
      if k < |c.items| && items[k].done == c.items[k].done {
        assert c.items[k].added.Call?;
      }
    }
  }

  lemma CallSnoc(t: ToolTable, fs: seq<Fragment>, f: Fragment, i: int)
    ensures First(fs + [f], i) == if First(fs, i).None? && f.index == i then Some(f) else First(fs, i)
    ensures Arguments(fs + [f], i) == Arguments(fs, i) + (if f.index == i then f.arguments else "")
    ensures EverComplete(t, fs + [f], i) <==>
            EverComplete(t, fs, i) ||
            (f.index == i && ArgumentsComplete(t, KeptName(t, fs + [f], i), Arguments(fs + [f], i)))
    ensures Again(fs + [f], i) <==> Again(fs, i) || (f.index == i && First(fs, i).Some?)
    ensures f.index != i ==> SaidCall(t, fs + [f], i) == SaidCall(t, fs, i)
  {
    hide Opened, ArgumentsComplete;
    FragmentsSnoc(fs, f, i);
    assert (fs + [f])[..|fs|] == fs;
  }

  lemma ShownSnoc(t: ToolTable, fs: seq<Fragment>, f: Fragment, i: int)
    ensures Shown(t, fs, i) ==> Shown(t, fs + [f], i)
    ensures f.index != i ==> (Shown(t, fs + [f], i) <==> Shown(t, fs, i))
    ensures ShownOrder(t, fs + [f]) ==
            ShownOrder(t, fs) + (if Shown(t, fs + [f], f.index) && !Shown(t, fs, f.index) then [f.index] else [])
  {
    hide EverComplete, Padded;
    CallSnoc(t, fs, f, i);
    assert (fs + [f])[..|fs|] == fs;
  }

  lemma FirstSeen(fs: seq<Fragment>, i: int)
    ensures First(fs, i).Some? <==> i in Indices(fs)
    ensures First(fs, i).Some? ==> First(fs, i).value.index == i && First(fs, i).value in fs
    ensures First(fs, i).None? ==> Arguments(fs, i) == "" && !Again(fs, i) && FirstName(fs, i) == ""
  {
    if fs != [] {
      var n := |fs| - 1;
      FirstSeen(fs[..n], i);
      assert fs == fs[..n] + [fs[n]];
      IndicesSnoc(fs[..n], fs[n]);
    }
  }

  /** With whole names a call's first fragment names it. */
  lemma {:induction false} WholeNamesFirst(fs: seq<Fragment>, i: int)
    requires WholeNames(fs)
    ensures First(fs, i).Some? ==> !MustDefer(Strip(First(fs, i).value.name))
    ensures First(fs, i).Some? ==> FirstName(fs, i) == First(fs, i).value.name != ""
    ensures First(fs, i).None? ==> FirstName(fs, i) == ""
  {
    hide MustDefer, Strip, NamesWhole, WholeNames;
    if fs != [] {
      var n := |fs| - 1;
      WholeNamesBefore(fs);
      WholeNamesFirst(fs[..n], i);
      FirstNamed(fs[..n], fs[n], i);
      assert fs == fs[..n] + [fs[n]];
    }
  }

  lemma WholeNamesBefore(fs: seq<Fragment>)
    requires WholeNames(fs) && fs != []
    ensures WholeNames(fs[..|fs| - 1]) && NamesWhole(fs[..|fs| - 1], fs[|fs| - 1])
  {
    hide NamesWhole;
    assert forall m :: 0 <= m < |fs| - 1 ==> fs[..|fs| - 1][..m] == fs[..m];
  }

  lemma FirstNamed(fs: seq<Fragment>, f: Fragment, i: int)
    requires NamesWhole(fs, f)
    ensures First(fs + [f], i) == if First(fs, i).None? && f.index == i then Some(f) else First(fs, i)
    ensures First(fs, i).None? && f.index == i ==> !MustDefer(Strip(f.name)) && f.name != ""
    ensures First(fs, i).Some? && f.index == i ==> f.name == ""
    ensures FirstName(fs + [f], i) == if FirstName(fs, i) == "" && f.index == i then f.name else FirstName(fs, i)
  {
    hide IsPlain;
    assert (fs + [f])[..|fs|] == fs && Strip("") == "";
  }

  lemma NamedWhenShown(t: ToolTable, fs: seq<Fragment>, f: Fragment)
    requires WholeNames(fs) && NamesWhole(fs, f)
    requires forall i :: First(fs + [f], i).Some? ==> !Padded(First(fs + [f], i).value.name)
    ensures Shown(t, fs + [f], f.index) && !Shown(t, fs, f.index) <==> f.name != "" && FirstName(fs, f.index) == ""
    ensures forall i :: First(fs, i).Some? ==> !Padded(First(fs, i).value.name)
  {
    hide Padded, EverComplete, IsPlain, WholeNames, First, FirstName;
    var i := f.index;
    CallSnoc(t, fs, f, i);
    WholeNamesFirst(fs, i);
    assert Strip("") == "";
    forall j | First(fs, j).Some? ensures !Padded(First(fs, j).value.name) {
      CallSnoc(t, fs, f, j);
    }
  }

  /** Without padded names the calls are announced in the order in which they are named. */
  lemma {:induction false} ShownAsNamed(t: ToolTable, fs: seq<Fragment>)
    requires WholeNames(fs)
    requires forall i :: First(fs, i).Some? ==> !Padded(First(fs, i).value.name)
    ensures ShownOrder(t, fs) == NamedOrder(fs)
  {
    hide Padded, FirstName, First, Shown, NamesWhole;
    if fs != [] {
      var n := |fs| - 1;
      assert forall m :: 0 <= m < n ==> fs[..n][..m] == fs[..m];
      assert fs == fs[..n] + [fs[n]];
      NamedWhenShown(t, fs[..n], fs[n]);
      ShownAsNamed(t, fs[..n]);
    }
  }

  // ---- The records and the items ----

  /** The record of a reasoning block or of a call: the name kept in its dictionary and its item. */
  datatype Block = Block(name: string, item: Output, closed: bool)

  datatype ReasoningKey = Chat | CursorTool(callId: string) | CursorThinking(number: nat)

  datatype Owner = OfMessage | OfReasoning | OfCall(index: int)

  /** An item after one more delta. */
  function Grow(item: Item, text: string): Item {
    if item.done.None? then item.(before := item.before + text) else item.(late := item.late + text)
  }

  lemma GrowDeltas(item: Item, text: string)
    requires item.done.None? ==> item.late == ""
    ensures Grow(item, text).Deltas() == item.Deltas() + text
  {
    if item.done.None? {
      assert item.before + "" == item.before && (item.before + text) + "" == item.before + text;
    } else {
      assert item.before + (item.late + text) == item.before + item.late + text;
    }
  }

  ghost predicate BlockShown(item: Item, b: Block) {
    && !b.item.Message?
    && item.added == WithText(b.item, "")
    && item.Deltas() == (if Streams(b.item) then TextOf(b.item) else "")
    && item.done.Some? == b.closed
    && (!b.closed ==> item.late == "" && item.settled.None?)
  }

  ghost predicate MessageShown(item: Item, text: string, closed: bool) {
    && item.added == Message("")
    && item.before == text && item.late == ""
    && item.done == (if closed then Some(Message(text)) else None)
    && (!closed ==> item.settled.None?)
  }

  /** Index by index: an announced item is the open message, a finished message or a record's item. */
  ghost predicate Slot(k: nat, item: Item, owner: Owner, store: map<nat, Block>, finished: map<nat, string>,
                       current: Option<nat>, text: string) {
    if owner.OfMessage? then
      && k !in store
      && (if current == Some(k) then k !in finished && MessageShown(item, text, false)
          else k in finished && MessageShown(item, finished[k], true))
    else
      && k in store && k !in finished && current != Some(k)
      && BlockShown(item, store[k]) && owner.OfReasoning? == store[k].item.Reasoning?
  }

  ghost predicate Layout(items: seq<Item>, owners: seq<Owner>, store: map<nat, Block>, finished: map<nat, string>,
                         current: Option<nat>, text: string) {
    && |owners| == |items|
    && (forall k :: 0 <= k < |items| ==> Slot(k, items[k], owners[k], store, finished, current, text))
    && (forall k :: k in store ==> k < |items|)
    && (forall k :: k in finished ==> k < |items|)
    && (current.Some? ==>
          && current.value < |items| && owners[current.value].OfMessage?
          && forall j :: current.value < j < |items| ==> !owners[j].OfMessage?)
  }

  lemma LayoutAddBlock(items: seq<Item>, owners: seq<Owner>, store: map<nat, Block>, finished: map<nat, string>,
                       current: Option<nat>, text: string, owner: Owner, b: Block)
    requires Layout(items, owners, store, finished, current, text)
    requires !owner.OfMessage? && !b.item.Message? && owner.OfReasoning? == b.item.Reasoning?
    requires TextOf(b.item) == "" && !b.closed
    ensures Layout(items + [Fresh(b.item)], owners + [owner], store[|items| := b], finished, current, text)
  {
    var after := items + [Fresh(b.item)];
    forall k | 0 <= k < |after|
      ensures Slot(k, after[k], (owners + [owner])[k], store[|items| := b], finished, current, text)
    {
      if k < |items| {
        assert Slot(k, items[k], owners[k], store, finished, current, text);
      }
    }
  }

  lemma LayoutAddMessage(items: seq<Item>, owners: seq<Owner>, store: map<nat, Block>, finished: map<nat, string>,
                         text: string)
    requires Layout(items, owners, store, finished, None, text)
    ensures Layout(items + [Fresh(Message(""))], owners + [OfMessage], store, finished, Some(|items|), "")
  {
    var after := items + [Fresh(Message(""))];
    forall k | 0 <= k < |after|
      ensures Slot(k, after[k], (owners + [OfMessage])[k], store, finished, Some(|items|), "")
    {
      if k < |items| {
        assert Slot(k, items[k], owners[k], store, finished, None, text);
      }
    }
  }

  lemma LayoutBlock(items: seq<Item>, owners: seq<Owner>, store: map<nat, Block>, finished: map<nat, string>,
                    current: Option<nat>, text: string, k: nat, item: Item, b: Block)
    requires Layout(items, owners, store, finished, current, text)
    requires k in store && k < |items| && BlockShown(item, b) && b.item.Reasoning? == store[k].item.Reasoning?
    ensures Layout(items[k := item], owners, store[k := b], finished, current, text)
  {
    hide BlockShown, MessageShown;
    var after := items[k := item];
    assert Slot(k, items[k], owners[k], store, finished, current, text);
    forall j | 0 <= j < |after| ensures Slot(j, after[j], owners[j], store[k := b], finished, current, text) {
      assert Slot(j, items[j], owners[j], store, finished, current, text);
    }
  }

  lemma LayoutText(items: seq<Item>, owners: seq<Owner>, store: map<nat, Block>, finished: map<nat, string>, k: nat,
                   text: string, item: Item, now: string)
    requires Layout(items, owners, store, finished, Some(k), text)
    requires k < |items| && MessageShown(item, now, false)
    ensures Layout(items[k := item], owners, store, finished, Some(k), now)
  {
    var after := items[k := item];
    forall j | 0 <= j < |after| ensures Slot(j, after[j], owners[j], store, finished, Some(k), now) {
      assert Slot(j, items[j], owners[j], store, finished, Some(k), text);
    }
  }

  lemma LayoutFinish(items: seq<Item>, owners: seq<Owner>, store: map<nat, Block>, finished: map<nat, string>, k: nat,
                     text: string, item: Item)
    requires Layout(items, owners, store, finished, Some(k), text)
    requires k < |items| && MessageShown(item, text, true)
    ensures Layout(items[k := item], owners, store, finished[k := text], None, text)
  {
    var after := items[k := item];
    forall j | 0 <= j < |after| ensures Slot(j, after[j], owners[j], store, finished[k := text], None, text) {
      assert Slot(j, items[j], owners[j], store, finished, Some(k), text);
    }
  }

  /** Without an open message the text is free. */
  lemma LayoutFree(items: seq<Item>, owners: seq<Owner>, store: map<nat, Block>, finished: map<nat, string>,
                   text: string, other: string)
    requires Layout(items, owners, store, finished, None, text)
    ensures Layout(items, owners, store, finished, None, other)
  {
    forall k | 0 <= k < |items| ensures Slot(k, items[k], owners[k], store, finished, None, other) {
      assert Slot(k, items[k], owners[k], store, finished, None, text);
    }
  }

  lemma LayoutAt(items: seq<Item>, owners: seq<Owner>, store: map<nat, Block>, finished: map<nat, string>,
                 current: Option<nat>, text: string, k: nat)
    requires Layout(items, owners, store, finished, current, text) && (k < |items| || current == Some(k))
    ensures k < |items| == |owners| && Slot(k, items[k], owners[k], store, finished, current, text)
    ensures current == Some(k) ==> owners[k].OfMessage? && forall j :: k < j < |items| ==> !items[j].added.Message?
  {
    forall j | k < j < |items| && current == Some(k) ensures !items[j].added.Message? {
      assert Slot(j, items[j], owners[j], store, finished, current, text);
    }
  }

  lemma GrowNothing(item: Item)
    ensures Grow(item, "") == item
  {
    assert item.before + "" == item.before && item.late + "" == item.late;
  }

  lemma GrowMore(item: Item, a: string, b: string)
    ensures Grow(Grow(item, a), b) == Grow(item, a + b)
  {
    assert item.before + a + b == item.before + (a + b) && item.late + a + b == item.late + (a + b);
  }

  lemma LayoutRecord(items: seq<Item>, owners: seq<Owner>, store: map<nat, Block>, finished: map<nat, string>,
                     current: Option<nat>, text: string, k: nat)
    requires Layout(items, owners, store, finished, current, text) && k in store
    ensures k < |items| && BlockShown(items[k], store[k])
  {
    assert Slot(k, items[k], owners[k], store, finished, current, text);
  }

  lemma LayoutChannel(items: seq<Item>, owners: seq<Owner>, store: map<nat, Block>, finished: map<nat, string>,
                      current: Option<nat>, text: string, k: nat)
    requires Layout(items, owners, store, finished, current, text) && k in store && store[k].item.Reasoning?
    requires forall j :: k < j < |owners| ==> owners[j] != OfReasoning
    ensures k < |items| && forall j :: k < j < |items| ==> !items[j].added.Reasoning?
  {
    forall j | k < j < |items| ensures !items[j].added.Reasoning? {
      assert Slot(j, items[j], owners[j], store, finished, current, text);
    }
  }

  /** The done events of a record: the client settles the item and marks it done. */
  lemma FeedDone(c: Client, k: nat, b: Block)
    requires c.phase.Streaming? && k < |c.items| && BlockShown(c.items[k], b) && !b.closed
    ensures var settled := if Settles(b.item) then Feed(c, TextDone(k, ChannelOf(b.item), TextOf(b.item))) else c;
            var settledText := if Settles(b.item) then Some(TextOf(b.item)) else None;
            var item := c.items[k].(settled := settledText, done := Some(b.item));
            && Feed(settled, ItemDone(k, b.item)) == c.(items := c.items[k := item])
            && item.added == c.items[k].added && item.Deltas() == c.items[k].Deltas()
            && BlockShown(item, b.(closed := true))
  {
    assert c.items[k].before + "" == c.items[k].before;
    assert c.items == c.items[k := c.items[k]];
  }

  // ---- The dictionaries of calls ----

  /** The dictionaries of calls; in `waiting` are tool searches that have no output index yet. */
  datatype CallBooks = CallBooks(plain: map<int, nat>, mcp: map<int, nat>, search: map<int, nat>,
                                 waiting: map<int, Block>)
  {
    function All(): map<int, nat> {
      plain + mcp + search
    }

    predicate Within(store: map<nat, Block>) {
      plain.Values <= store.Keys && mcp.Values <= store.Keys && search.Values <= store.Keys
    }
  }

  /** The record of call `i` says what the fragments said of it. */
  ghost predicate CallSays(t: ToolTable, i: int, k: nat, owners: seq<Owner>, store: map<nat, Block>,
                           fs: seq<Fragment>) {
    && k < |owners| && owners[k] == OfCall(i) && k in store
    && First(fs, i).Some?
    && store[k].name == Opened(t, First(fs, i).value).name
    && store[k].item == SaidCall(t, fs, i)
    && store[k].closed == EverComplete(t, fs, i)
  }

  /** The calls in the order of their items. */
  ghost function CallOrder(owners: seq<Owner>): seq<int> {
    if owners == [] then []
    else
      var last := owners[|owners| - 1];
      CallOrder(owners[..|owners| - 1]) + (if last.OfCall? then [last.index] else [])
  }

  lemma CallOrderSnoc(owners: seq<Owner>, o: Owner)
    ensures CallOrder(owners + [o]) == CallOrder(owners) + (if o.OfCall? then [o.index] else [])
  {
    assert (owners + [o])[..|owners|] == owners;
  }

  /** Every announced call has one item and one record, which says what its fragments said. */
  ghost predicate CallsOk(t: ToolTable, owners: seq<Owner>, store: map<nat, Block>, calls: map<int, nat>,
                          fs: seq<Fragment>) {
    && (forall i :: i in calls <==> Shown(t, fs, i))
    && CallOrder(owners) == ShownOrder(t, fs)
    && (forall i :: i in calls ==> CallSays(t, i, calls[i], owners, store, fs))
    && (forall k :: 0 <= k < |owners| && owners[k].OfCall? ==>
          owners[k].index in calls && calls[owners[k].index] == k)
  }

  predicate IsCallOf(b: Block, kinds: set<Home>) {
    b.item.Call? && HomeOfKind(b.item.kind) in kinds && (b.name == "" ==> b.item.name == "")
  }

  datatype Home = AsPlain | AsMcp | AsSearch

  function HomeOfKind(kind: CallKind): Home {
    match kind
    case Function => AsPlain
    case WebSearch => AsPlain
    case Mcp(_, _) => AsMcp
    case Search => AsSearch
  }

  /** Each dictionary refers to records of its kind. */
  ghost predicate Kinds(store: map<nat, Block>, books: CallBooks) {
    && (forall i :: i in books.plain ==> books.plain[i] in store && IsCallOf(store[books.plain[i]], {AsPlain}))
    && (forall i :: i in books.mcp ==> books.mcp[i] in store && IsCallOf(store[books.mcp[i]], {AsMcp}))
    && (forall i :: i in books.search ==> books.search[i] in store && IsCallOf(store[books.search[i]], {AsSearch}))
    && (forall i :: i in books.waiting ==> IsCallOf(books.waiting[i], {AsSearch}) && !books.waiting[i].closed)
  }

  ghost predicate Refer(owners: seq<Owner>, refs: map<int, nat>) {
    forall i :: i in refs ==> refs[i] < |owners| && owners[refs[i]] == OfCall(i)
  }

  ghost predicate Referring(owners: seq<Owner>, books: CallBooks) {
    Refer(owners, books.plain) && Refer(owners, books.mcp) && Refer(owners, books.search)
  }

  ghost predicate InBooks(books: CallBooks, i: int, k: nat) {
    || (i in books.plain && books.plain[i] == k) || (i in books.mcp && books.mcp[i] == k)
    || (i in books.search && books.search[i] == k)
  }

  /** A dictionary refers to records of its own calls only, every announced call is in one, and a record is closed
      once its arguments are complete: strayed or not. */
  ghost predicate Owned(t: ToolTable, owners: seq<Owner>, store: map<nat, Block>, books: CallBooks) {
    Traced(owners, books) && ClosedWhenComplete(t, store)
  }

  ghost predicate Traced(owners: seq<Owner>, books: CallBooks) {
    && Referring(owners, books)
    && (forall k :: 0 <= k < |owners| && owners[k].OfCall? ==> InBooks(books, owners[k].index, k))
  }

  ghost predicate ClosedWhenComplete(t: ToolTable, store: map<nat, Block>) {
    forall k :: k in store && store[k].item.Call? ==>
      if store[k].closed then Strip(TextOf(store[k].item)) != ""
      else !ArgumentsComplete(t, store[k].name, TextOf(store[k].item))
  }

  /** The dictionary in which a call's own record is. */
  function OwnRefs(fs: seq<Fragment>, i: int, books: CallBooks): map<int, nat> {
    var name := Strip(First(fs, i).GetOr(Fragment(0, "", "", "")).name);
    if IsSearch(name) then books.search else if McpReference(name).Some? then books.mcp else books.plain
  }

  /** A call's own record has the arguments of all its fragments, or of the first one if it strayed, and is closed
      only if they could be read at some point. */
  ghost predicate Told(t: ToolTable, fs: seq<Fragment>, i: int, store: map<nat, Block>, books: CallBooks) {
    var refs := OwnRefs(fs, i, books);
    First(fs, i).Some? && i in refs ==>
      && refs[i] in store
      && TextOf(store[refs[i]].item) == (if Strayed(t, fs, i) then First(fs, i).value.arguments else Arguments(fs, i))
      && (store[refs[i]].closed ==> EverReadable(t, fs, i))
  }

  ghost predicate AllTold(t: ToolTable, fs: seq<Fragment>, store: map<nat, Block>, books: CallBooks) {
    forall i :: Told(t, fs, i, store, books)
  }

  /** Where a call is kept. A call that strayed is also in the dictionary of its resolved name, once it has a
      second fragment. */
  ghost predicate FiledAt(t: ToolTable, fs: seq<Fragment>, i: int, store: map<nat, Block>, books: CallBooks) {
    if First(fs, i).None? then i !in books.plain && i !in books.mcp && i !in books.search && i !in books.waiting
    else
      var f := First(fs, i).value;
      var name := Strip(f.name);
      if IsSearch(name) then
        && i !in books.plain && i !in books.mcp
        && (i in books.search <==> Shown(t, fs, i))
        && (i in books.waiting <==> !Shown(t, fs, i))
        && (i in books.waiting ==> books.waiting[i] == Block(f.name, SaidCall(t, fs, i), false))
      else if McpReference(name).Some? then
        && i !in books.plain && i in books.mcp && i !in books.search && i !in books.waiting
        && books.mcp[i] in store && store[books.mcp[i]].name == name
      else
        var kept := Resolve(t.toolResolve, name).1;
        && i in books.plain && books.plain[i] in store && store[books.plain[i]].name == kept
        && i !in books.search
        && (i in books.mcp <==> Again(fs, i) && !IsSearch(kept) && McpReference(kept).Some?)
        && (i in books.waiting <==> Again(fs, i) && IsSearch(kept))
        && (i in books.waiting ==> books.waiting[i].name == "")
  }

  ghost predicate Filed(t: ToolTable, fs: seq<Fragment>, store: map<nat, Block>, books: CallBooks) {
    forall i :: FiledAt(t, fs, i, store, books)
  }

  ghost predicate NoneStrayed(t: ToolTable, fs: seq<Fragment>) {
    forall i :: !Strayed(t, fs, i)
  }

  /** The name a fragment's call goes by. */
  function CurrentName(t: ToolTable, fs: seq<Fragment>, f: Fragment): string {
    var name := Strip(First(fs, f.index).GetOr(f).name);
    if First(fs, f.index).Some? && IsPlain(name) then Resolve(t.toolResolve, name).1 else name
  }

  /** The dictionary that takes a fragment in. */
  function HomeOf(t: ToolTable, fs: seq<Fragment>, f: Fragment): Home {
    var name := CurrentName(t, fs, f);
    if IsSearch(name) then AsSearch else if McpReference(name).Some? then AsMcp else AsPlain
  }

  /** How taking in a fragment changes the records: the call's own record grows, and is closed once its
      arguments are complete; reasoning may be closed on the way; nothing else changes. */
  ghost predicate TakesIn(t: ToolTable, f: Fragment, k: nat, seen: bool, blank: Block, owners: seq<Owner>,
                          ownersAfter: seq<Owner>, store: map<nat, Block>, after: map<nat, Block>) {
    && k in after && (forall j :: j in after ==> j in store || j == k)
    && (if seen then ownersAfter == owners && k in store
        else k == |owners| && ownersAfter == owners + [OfCall(f.index)])
    && (var was := if seen then store[k] else blank;
        var arguments := TextOf(was.item) + f.arguments;
        after[k] == Block(was.name, WithText(was.item, arguments),
                          was.closed || ArgumentsComplete(t, was.name, arguments)))
    && (forall j :: j in store && j != k ==>
          j in after && (after[j] == store[j] || (store[j].item.Reasoning? && after[j] == store[j].(closed := true))))
  }

  /** A fragment is taken in by the call's record as it was found or has just been made. */
  lemma TakesInFrom(t: ToolTable, f: Fragment, k: nat, seen: bool, blank: Block, owners: seq<Owner>,
                    ownersAfter: seq<Owner>, store: map<nat, Block>, made: map<nat, Block>, after: map<nat, Block>)
    requires if seen then k in store && ownersAfter == owners
             else k == |owners| && ownersAfter == owners + [OfCall(f.index)]
    requires k in made
    requires forall j :: j in made ==> j in store || j == k
    requires forall j :: j in store && j != k ==>
               j in made && (made[j] == store[j] || (store[j].item.Reasoning? && made[j] == store[j].(closed := true)))
    requires var was := if seen then store[k] else blank;
             var arguments := TextOf(was.item) + f.arguments;
             after == made[k := Block(was.name, WithText(was.item, arguments),
                                      was.closed || ArgumentsComplete(t, was.name, arguments))]
    ensures TakesIn(t, f, k, seen, blank, owners, ownersAfter, store, after)
  {
    hide ArgumentsComplete;
  }

  /** A search record after a fragment that it keeps to itself. */
  function Longer(was: Block, f: Fragment): Block {
    Block(was.name, WithText(was.item, TextOf(was.item) + f.arguments), was.closed)
  }

  /** What a fragment of a tool search finds recorded. */
  function SearchWas(f: Fragment, books: CallBooks, store: map<nat, Block>): Block {
    if f.index in books.search && books.search[f.index] in store then store[books.search[f.index]]
    else if f.index in books.waiting then books.waiting[f.index]
    else SearchRecord(f)
  }

  /** A tool search is announced when it has its plain name or complete arguments, and waits until then. */
  ghost predicate TakenAsSearch(t: ToolTable, f: Fragment, k: Option<nat>, books: CallBooks, booksAfter: CallBooks,
                                owners: seq<Owner>, ownersAfter: seq<Owner>, store: map<nat, Block>,
                                after: map<nat, Block>) {
    var i, was := f.index, SearchWas(f, books, store);
    && (k.Some? <==> i in books.search || IsSearch(was.name)
                     || ArgumentsComplete(t, was.name, TextOf(was.item) + f.arguments))
    && (if k.Some? then
          && TakesIn(t, f, k.value, i in books.search, was, owners, ownersAfter, store, after)
          && booksAfter == books.(search := books.search[i := k.value], waiting := books.waiting - {i})
          && (i in books.search ==> books.search[i] == k.value)
        else
          && booksAfter == books.(waiting := books.waiting[i := Longer(was, f)])
          && ownersAfter == owners && after == store)
  }

  ghost predicate TakenAsMcp(t: ToolTable, f: Fragment, name: string, k: nat, books: CallBooks, booksAfter: CallBooks,
                             owners: seq<Owner>, ownersAfter: seq<Owner>, store: map<nat, Block>,
                             after: map<nat, Block>) {
    var i := f.index;
    && McpReference(name).Some?
    && TakesIn(t, f, k, i in books.mcp, McpRecord(f, name), owners, ownersAfter, store, after)
    && booksAfter == books.(mcp := books.mcp[i := k]) && (i in books.mcp ==> books.mcp[i] == k)
  }

  ghost predicate TakenAsPlain(t: ToolTable, f: Fragment, name: string, k: nat, books: CallBooks,
                               booksAfter: CallBooks, owners: seq<Owner>, ownersAfter: seq<Owner>,
                               store: map<nat, Block>, after: map<nat, Block>) {
    var i := f.index;
    && TakesIn(t, f, k, i in books.plain, PlainRecord(t, f, name), owners, ownersAfter, store, after)
    && booksAfter == books.(plain := books.plain[i := k]) && (i in books.plain ==> books.plain[i] == k)
  }

  /** A fragment goes to the dictionary of the name its call goes by. */
  ghost predicate Routed(t: ToolTable, fs: seq<Fragment>, f: Fragment, k: Option<nat>, books: CallBooks,
                         booksAfter: CallBooks, owners: seq<Owner>, ownersAfter: seq<Owner>, store: map<nat, Block>,
                         after: map<nat, Block>) {
    var name := CurrentName(t, fs, f);
    match HomeOf(t, fs, f)
    case AsSearch => TakenAsSearch(t, f, k, books, booksAfter, owners, ownersAfter, store, after)
    case AsMcp => k.Some? && TakenAsMcp(t, f, name, k.value, books, booksAfter, owners, ownersAfter, store, after)
    case AsPlain => k.Some? && TakenAsPlain(t, f, name, k.value, books, booksAfter, owners, ownersAfter, store, after)
  }

  /** What a step leaves of the records that are there: names and items, up to their texts. */
  ghost predicate SameRecords(store: map<nat, Block>, after: map<nat, Block>) {
    forall j :: j in store ==>
      j in after && after[j].name == store[j].name && after[j].item == WithText(store[j].item, TextOf(after[j].item))
  }

  lemma TakesInKeeps(t: ToolTable, f: Fragment, k: nat, seen: bool, blank: Block, owners: seq<Owner>,
                     ownersAfter: seq<Owner>, store: map<nat, Block>, after: map<nat, Block>)
    requires TakesIn(t, f, k, seen, blank, owners, ownersAfter, store, after)
    requires forall j :: j in store ==> j < |owners|
    ensures SameRecords(store, after)
    ensures !seen ==> k !in store && after[k].name == blank.name
                      && after[k].item == WithText(blank.item, TextOf(after[k].item))
  {
    hide ArgumentsComplete;
  }

  lemma KindsStay(store: map<nat, Block>, after: map<nat, Block>, books: CallBooks)
    requires Kinds(store, books) && SameRecords(store, after)
    ensures Kinds(after, books)
  {
  }

  lemma KindsPut(store: map<nat, Block>, books: CallBooks, i: int, k: nat)
    requires Kinds(store, books) && k in store
    ensures IsCallOf(store[k], {AsPlain}) ==> Kinds(store, books.(plain := books.plain[i := k]))
    ensures IsCallOf(store[k], {AsMcp}) ==> Kinds(store, books.(mcp := books.mcp[i := k]))
    ensures IsCallOf(store[k], {AsSearch}) ==>
              Kinds(store, books.(search := books.search[i := k], waiting := books.waiting - {i}))
  {
    hide IsCallOf;
  }

  lemma KindsWait(store: map<nat, Block>, books: CallBooks, i: int, b: Block)
    requires Kinds(store, books) && IsCallOf(b, {AsSearch}) && !b.closed
    ensures Kinds(store, books.(waiting := books.waiting[i := b]))
  {
    hide IsCallOf;
  }

  /** The kinds of the records that fragments make, and of their longer versions. */
  lemma MadeKinds(t: ToolTable, f: Fragment, name: string, b: Block, item: Output)
    requires item == WithText(b.item, TextOf(item))
    ensures IsCallOf(PlainRecord(t, f, name), {AsPlain}) && IsCallOf(SearchRecord(f), {AsSearch})
    ensures McpReference(name).Some? ==> IsCallOf(McpRecord(f, name), {AsMcp})
    ensures forall kinds :: IsCallOf(b, kinds) ==> IsCallOf(Block(b.name, item, b.closed), kinds)
  {
    hide McpReference, Resolve;
    McpNamed(name);
  }

  lemma McpNamed(name: string)
    ensures McpReference(name).Some? ==> name != ""
  {
  }

  /** Each dictionary still refers to records of its kind. */
  lemma {:induction false} KindsTake(t: ToolTable, fs: seq<Fragment>, f: Fragment, k: Option<nat>, books: CallBooks,
                                     booksAfter: CallBooks, owners: seq<Owner>, ownersAfter: seq<Owner>,
                                     store: map<nat, Block>, after: map<nat, Block>)
    requires Kinds(store, books) && Routed(t, fs, f, k, books, booksAfter, owners, ownersAfter, store, after)
    requires forall j :: j in store ==> j < |owners|
    ensures SameRecords(store, after) && Kinds(after, booksAfter)
  {
    hide TakesIn, ArgumentsComplete, HomeOf, CurrentName, IsSearch, McpReference, PlainRecord, McpRecord, SearchRecord,
         IsCallOf, Kinds, SameRecords;
    var i, name := f.index, CurrentName(t, fs, f);
    match HomeOf(t, fs, f) {
      case AsSearch =>
        SearchWasKind(f, books, store);
        var was := SearchWas(f, books, store);
        if k.Some? {
          RecordTaken(t, f, k.value, i in books.search, was, {AsSearch}, books, owners, ownersAfter, store, after);
          KindsPut(after, books, i, k.value);
        } else {
          MadeKinds(t, f, name, was, Longer(was, f).item);
          SameStays(store);
          KindsWait(store, books, i, Longer(was, f));
        }
      case AsMcp =>
        MadeKinds(t, f, name, SearchRecord(f), SearchRecord(f).item);
        assert i in books.mcp ==> IsCallOf(store[books.mcp[i]], {AsMcp}) by { KindOf(store, books, i); }
        RecordTaken(t, f, k.value, i in books.mcp, McpRecord(f, name), {AsMcp}, books, owners, ownersAfter, store,
                    after);
        KindsPut(after, books, i, k.value);
      case AsPlain =>
        MadeKinds(t, f, name, SearchRecord(f), SearchRecord(f).item);
        assert i in books.plain ==> IsCallOf(store[books.plain[i]], {AsPlain}) by { KindOf(store, books, i); }
        RecordTaken(t, f, k.value, i in books.plain, PlainRecord(t, f, name), {AsPlain}, books, owners, ownersAfter,
                    store, after);
        KindsPut(after, books, i, k.value);
    }
  }

  lemma SameStays(store: map<nat, Block>)
    ensures SameRecords(store, store)
  {
  }

  lemma KindOf(store: map<nat, Block>, books: CallBooks, i: int)
    requires Kinds(store, books)
    ensures i in books.plain ==> books.plain[i] in store && IsCallOf(store[books.plain[i]], {AsPlain})
    ensures i in books.mcp ==> books.mcp[i] in store && IsCallOf(store[books.mcp[i]], {AsMcp})
    ensures i in books.search ==> books.search[i] in store && IsCallOf(store[books.search[i]], {AsSearch})
    ensures i in books.waiting ==> IsCallOf(books.waiting[i], {AsSearch}) && !books.waiting[i].closed
  {
    hide IsCallOf;
  }

  lemma SearchWasKind(f: Fragment, books: CallBooks, store: map<nat, Block>)
    requires Kinds(store, books)
    ensures IsCallOf(SearchWas(f, books, store), {AsSearch})
    ensures f.index in books.search ==>
              books.search[f.index] in store && SearchWas(f, books, store) == store[books.search[f.index]]
    ensures f.index !in books.search ==> !SearchWas(f, books, store).closed
  {
    KindOf(store, books, f.index);
  }

  /** A record that has taken a fragment in is of the kind it was. */
  lemma RecordTaken(t: ToolTable, f: Fragment, k: nat, seen: bool, blank: Block, kinds: set<Home>, books: CallBooks,
                    owners: seq<Owner>, ownersAfter: seq<Owner>, store: map<nat, Block>, after: map<nat, Block>)
    requires Kinds(store, books) && TakesIn(t, f, k, seen, blank, owners, ownersAfter, store, after)
    requires forall j :: j in store ==> j < |owners|
    requires IsCallOf(if seen then store[k] else blank, kinds)
    ensures SameRecords(store, after) && Kinds(after, books) && k in after && IsCallOf(after[k], kinds)
  {
    hide ArgumentsComplete, Kinds;
    TakesInKeeps(t, f, k, seen, blank, owners, ownersAfter, store, after);
    KindsStay(store, after, books);
  }

  lemma TakesInOwned(t: ToolTable, f: Fragment, k: nat, seen: bool, blank: Block, owners: seq<Owner>,
                     ownersAfter: seq<Owner>, store: map<nat, Block>, after: map<nat, Block>)
    requires TakesIn(t, f, k, seen, blank, owners, ownersAfter, store, after) && ClosedWhenComplete(t, store)
    requires !seen ==> !blank.closed
    ensures ClosedWhenComplete(t, after)
    ensures if seen then ownersAfter == owners else k == |owners| && ownersAfter == owners + [OfCall(f.index)]
  {
    var was := if seen then store[k] else blank;
    if was.closed && after[k].item.Call? { StripGrows(TextOf(was.item), f.arguments); }
  }

  /** A new record goes into the dictionary in which its call has none yet. */
  ghost predicate Puts(owners: seq<Owner>, ownersAfter: seq<Owner>, refs: map<int, nat>, i: int, k: nat) {
    if i in refs then refs[i] == k && ownersAfter == owners else k == |owners| && ownersAfter == owners + [OfCall(i)]
  }

  lemma TracedPut(owners: seq<Owner>, ownersAfter: seq<Owner>, books: CallBooks, i: int, k: nat)
    requires Traced(owners, books)
    ensures Puts(owners, ownersAfter, books.plain, i, k) ==>
              Traced(ownersAfter, books.(plain := books.plain[i := k]))
    ensures Puts(owners, ownersAfter, books.mcp, i, k) ==> Traced(ownersAfter, books.(mcp := books.mcp[i := k]))
    ensures Puts(owners, ownersAfter, books.search, i, k) ==>
              Traced(ownersAfter, books.(search := books.search[i := k], waiting := books.waiting - {i}))
  {
    hide Refer;
    forall refs: map<int, nat> | refs in {books.plain, books.mcp, books.search} && Puts(owners, ownersAfter, refs, i, k)
      ensures Refer(ownersAfter, refs[i := k])
    {
      ReferPut(owners, ownersAfter, refs, i, k);
    }
    if ownersAfter == owners + [OfCall(i)] {
      ReferMore(owners, ownersAfter, books.plain);
      ReferMore(owners, ownersAfter, books.mcp);
      ReferMore(owners, ownersAfter, books.search);
    }
  }

  lemma ReferMore(owners: seq<Owner>, ownersAfter: seq<Owner>, refs: map<int, nat>)
    requires Refer(owners, refs) && owners <= ownersAfter
    ensures Refer(ownersAfter, refs)
  {
  }

  lemma ReferPut(owners: seq<Owner>, ownersAfter: seq<Owner>, refs: map<int, nat>, i: int, k: nat)
    requires Refer(owners, refs) && Puts(owners, ownersAfter, refs, i, k)
    ensures Refer(ownersAfter, refs[i := k])
  {
  }

  /** A record that takes a fragment in is its call's own, and closed once its arguments are complete. */
  lemma {:induction false} OwnedTake(t: ToolTable, fs: seq<Fragment>, f: Fragment, k: Option<nat>, books: CallBooks,
                                     booksAfter: CallBooks, owners: seq<Owner>, ownersAfter: seq<Owner>,
                                     store: map<nat, Block>, after: map<nat, Block>)
    requires Owned(t, owners, store, books) && Kinds(store, books)
    requires Routed(t, fs, f, k, books, booksAfter, owners, ownersAfter, store, after)
    ensures Owned(t, ownersAfter, after, booksAfter)
  {
    hide TakesIn, HomeOf, CurrentName, ArgumentsComplete, IsSearch, McpReference, PlainRecord, McpRecord, SearchWas,
         ClosedWhenComplete, Longer, Traced, Kinds;
    var i, name := f.index, CurrentName(t, fs, f);
    SearchWasKind(f, books, store);
    MadeOpen(t, f, name);
    if k.Some? { TracedPut(owners, ownersAfter, books, i, k.value); }
    match HomeOf(t, fs, f) {
      case AsSearch =>
        if k.Some? {
          TakesInOwned(t, f, k.value, i in books.search, SearchWas(f, books, store), owners, ownersAfter, store, after);
        } else {
          TracedWaits(owners, books, booksAfter);
        }
      case AsMcp =>
        TakesInOwned(t, f, k.value, i in books.mcp, McpRecord(f, name), owners, ownersAfter, store, after);
      case AsPlain =>
        TakesInOwned(t, f, k.value, i in books.plain, PlainRecord(t, f, name), owners, ownersAfter, store, after);
    }
  }

  lemma MadeOpen(t: ToolTable, f: Fragment, name: string)
    ensures !PlainRecord(t, f, name).closed && (McpReference(name).Some? ==> !McpRecord(f, name).closed)
  {
    hide McpReference, Resolve;
  }

  lemma TracedWaits(owners: seq<Owner>, books: CallBooks, booksAfter: CallBooks)
    requires Traced(owners, books) && booksAfter == books.(waiting := booksAfter.waiting)
    ensures Traced(owners, booksAfter)
  {
  }

  lemma OwnedTraced(t: ToolTable, owners: seq<Owner>, store: map<nat, Block>, books: CallBooks)
    requires Owned(t, owners, store, books)
    ensures Traced(owners, books)
  {
  }

  lemma OwnedKeep(t: ToolTable, owners: seq<Owner>, more: seq<Owner>, store: map<nat, Block>, after: map<nat, Block>,
                  books: CallBooks)
    requires Owned(t, owners, store, books) && forall j :: 0 <= j < |more| ==> !more[j].OfCall?
    requires forall k :: k in after && after[k].item.Call? ==> k in store && after[k] == store[k]
    ensures Owned(t, owners + more, after, books)
  {
    hide ArgumentsComplete;
  }

  /** Taking in a fragment keeps every call where it belongs. */
  lemma {:induction false} FiledTake(t: ToolTable, fs: seq<Fragment>, f: Fragment, k: Option<nat>, books: CallBooks,
                                     booksAfter: CallBooks, owners: seq<Owner>, ownersAfter: seq<Owner>,
                                     store: map<nat, Block>, after: map<nat, Block>)
    requires Kinds(store, books) && Filed(t, fs, store, books) && NamesWhole(fs, f)
    requires Routed(t, fs, f, k, books, booksAfter, owners, ownersAfter, store, after)
    requires forall j :: j in store ==> j < |owners|
    ensures Filed(t, fs + [f], after, booksAfter)
  {
    hide Routed, Kinds, FiledAt, SameRecords;
    KindsTake(t, fs, f, k, books, booksAfter, owners, ownersAfter, store, after);
    forall i ensures FiledAt(t, fs + [f], i, after, booksAfter) {
      assert FiledAt(t, fs, i, store, books);
      if i == f.index {
        FiledHere(t, fs, f, k, books, booksAfter, owners, ownersAfter, store, after);
      } else {
        BooksElsewhere(t, fs, f, k, books, booksAfter, owners, ownersAfter, store, after);
        FiledElsewhere(t, fs, f, i, books, booksAfter, store, after);
      }
    }
  }

  ghost predicate SameAt(books: CallBooks, booksAfter: CallBooks, i: int) {
    && (i in booksAfter.plain <==> i in books.plain) && (i in books.plain ==> booksAfter.plain[i] == books.plain[i])
    && (i in booksAfter.mcp <==> i in books.mcp) && (i in books.mcp ==> booksAfter.mcp[i] == books.mcp[i])
    && (i in booksAfter.search <==> i in books.search)
    && (i in books.search ==> booksAfter.search[i] == books.search[i])
    && (i in booksAfter.waiting <==> i in books.waiting)
    && (i in books.waiting ==> booksAfter.waiting[i] == books.waiting[i])
  }

  lemma BooksElsewhere(t: ToolTable, fs: seq<Fragment>, f: Fragment, k: Option<nat>, books: CallBooks,
                       booksAfter: CallBooks, owners: seq<Owner>, ownersAfter: seq<Owner>, store: map<nat, Block>,
                       after: map<nat, Block>)
    requires Routed(t, fs, f, k, books, booksAfter, owners, ownersAfter, store, after)
    ensures forall i :: i != f.index ==> SameAt(books, booksAfter, i)
  {
    hide TakesIn, HomeOf, CurrentName, ArgumentsComplete, McpReference, McpRecord, PlainRecord;
  }

  lemma FiledElsewhere(t: ToolTable, fs: seq<Fragment>, f: Fragment, i: int, books: CallBooks, booksAfter: CallBooks,
                       store: map<nat, Block>, after: map<nat, Block>)
    requires i != f.index && FiledAt(t, fs, i, store, books)
    requires SameAt(books, booksAfter, i) && SameRecords(store, after)
    ensures FiledAt(t, fs + [f], i, after, booksAfter)
  {
    hide ArgumentsComplete, IsSearch, EverComplete, Again, Shown, First, SaidCall, Resolve, McpReference;
    CallSnoc(t, fs, f, i);
    ShownSnoc(t, fs, f, i);
  }

  /** The name of a record that a fragment makes is the name it is made for. */
  lemma MadeFor(t: ToolTable, f: Fragment, name: string)
    ensures PlainRecord(t, f, name).name == Resolve(t.toolResolve, name).1
    ensures McpReference(name).Some? ==> McpRecord(f, name).name == name
    ensures SearchRecord(f).name == f.name
  {
  }

  lemma {:induction false} FiledHere(t: ToolTable, fs: seq<Fragment>, f: Fragment, k: Option<nat>, books: CallBooks,
                                     booksAfter: CallBooks, owners: seq<Owner>, ownersAfter: seq<Owner>,
                                     store: map<nat, Block>, after: map<nat, Block>)
    requires Kinds(store, books) && FiledAt(t, fs, f.index, store, books) && NamesWhole(fs, f)
    requires Routed(t, fs, f, k, books, booksAfter, owners, ownersAfter, store, after)
    requires forall j :: j in store ==> j < |owners|
    ensures FiledAt(t, fs + [f], f.index, after, booksAfter)
  {
    hide TakesIn, Again, Resolve, McpReference, PlainRecord, McpRecord;
    var i, name := f.index, CurrentName(t, fs, f);
    CallSnoc(t, fs, f, i);
    ShownSnoc(t, fs, f, i);
    MadeFor(t, f, name);
    FirstSeen(fs, i);
    KindsTake(t, fs, f, k, books, booksAfter, owners, ownersAfter, store, after);
    match HomeOf(t, fs, f) {
      case AsSearch =>
        if IsSearch(Strip(First(fs, i).GetOr(f).name)) {
          SearchFiled(t, fs, f, k, books, booksAfter, owners, ownersAfter, store, after);
        } else {
          StraySearchFiled(t, fs, f, k, books, booksAfter, owners, ownersAfter, store, after);
        }
      case AsMcp =>
        TakesInKeeps(t, f, k.value, i in books.mcp, McpRecord(f, name), owners, ownersAfter, store, after);
      case AsPlain =>
        TakesInKeeps(t, f, k.value, i in books.plain, PlainRecord(t, f, name), owners, ownersAfter, store, after);
    }
  }

  /** A tool search is announced exactly when the code opens its record. */
  lemma {:induction false} SearchShows(t: ToolTable, fs: seq<Fragment>, f: Fragment, store: map<nat, Block>,
                                       books: CallBooks)
    requires FiledAt(t, fs, f.index, store, books) && IsSearch(Strip(First(fs, f.index).GetOr(f).name))
    ensures var i, was := f.index, SearchWas(f, books, store);
            && (i !in books.search ==> was == Unannounced(t, fs, f) && Longer(was, f).item == SaidCall(t, fs + [f], i))
            && (i !in books.search ==> was.name == First(fs + [f], i).value.name)
            && (Shown(t, fs + [f], i) <==> i in books.search || IsSearch(was.name)
                                           || ArgumentsComplete(t, was.name, TextOf(was.item) + f.arguments))
  {
    hide Again, Resolve, McpReference, ArgumentsComplete, McpRecord, PlainRecord, IsSearch;
    var i := f.index;
    CallSnoc(t, fs, f, i);
    ShownSnoc(t, fs, f, i);
    NeverUnseenMaybe(t, fs, i);
    if First(fs, i).None? { assert "" + f.arguments == f.arguments; }
  }

  lemma NeverUnseenMaybe(t: ToolTable, fs: seq<Fragment>, i: int)
    ensures First(fs, i).None? ==> Arguments(fs, i) == "" && !EverComplete(t, fs, i)
  {
    if First(fs, i).None? { NeverUnseen(t, fs, i); }
  }

  lemma {:induction false} SearchFiled(t: ToolTable, fs: seq<Fragment>, f: Fragment, k: Option<nat>, books: CallBooks,
                                       booksAfter: CallBooks, owners: seq<Owner>, ownersAfter: seq<Owner>,
                                       store: map<nat, Block>, after: map<nat, Block>)
    requires FiledAt(t, fs, f.index, store, books) && IsSearch(Strip(First(fs, f.index).GetOr(f).name))
    requires TakenAsSearch(t, f, k, books, booksAfter, owners, ownersAfter, store, after)
    requires forall i :: i in books.waiting ==> !books.waiting[i].closed
    ensures FiledAt(t, fs + [f], f.index, after, booksAfter)
  {
    hide TakesIn, Again, Resolve, McpReference, ArgumentsComplete, SaidCall, EverComplete, First, Shown, IsSearch;
    SearchShows(t, fs, f, store, books);
    CallSnoc(t, fs, f, f.index);
  }

  /** The further fragments of a call that strayed to a tool search wait under no name. */
  lemma {:induction false} StraySearchFiled(t: ToolTable, fs: seq<Fragment>, f: Fragment, k: Option<nat>,
                                            books: CallBooks, booksAfter: CallBooks, owners: seq<Owner>,
                                            ownersAfter: seq<Owner>, store: map<nat, Block>, after: map<nat, Block>)
    requires FiledAt(t, fs, f.index, store, books) && NamesWhole(fs, f) && SameRecords(store, after)
    requires HomeOf(t, fs, f).AsSearch? && !IsSearch(Strip(First(fs, f.index).GetOr(f).name))
    requires TakenAsSearch(t, f, k, books, booksAfter, owners, ownersAfter, store, after)
    ensures FiledAt(t, fs + [f], f.index, after, booksAfter)
  {
    hide TakesIn, Again, Resolve, McpReference, SaidCall, EverComplete, First, Shown;
    CallSnoc(t, fs, f, f.index);
  }

  lemma NeverUnseen(t: ToolTable, fs: seq<Fragment>, i: int)
    requires First(fs, i).None?
    ensures Arguments(fs, i) == "" && !EverComplete(t, fs, i)
  {
    if fs != [] {
      var n := |fs| - 1;
      assert fs == fs[..n] + [fs[n]];
      CallSnoc(t, fs[..n], fs[n], i);
      NeverUnseen(t, fs[..n], i);
    }
  }

  /** The record of a call that has not been announced. */
  function Unannounced(t: ToolTable, fs: seq<Fragment>, f: Fragment): Block {
    if First(fs, f.index).None? then Opened(t, f)
    else Block(Opened(t, First(fs, f.index).value).name, SaidCall(t, fs, f.index), false)
  }

  /** Taking in a fragment keeps every call's own record in agreement with its fragments, whatever becomes of other
      calls. */
  lemma {:induction false} ToldTake(t: ToolTable, fs: seq<Fragment>, f: Fragment, k: Option<nat>, books: CallBooks,
                                    booksAfter: CallBooks, owners: seq<Owner>, ownersAfter: seq<Owner>,
                                    store: map<nat, Block>, after: map<nat, Block>)
    requires Kinds(store, books) && Filed(t, fs, store, books) && NamesWhole(fs, f) && Traced(owners, books)
    requires AllTold(t, fs, store, books)
    requires Routed(t, fs, f, k, books, booksAfter, owners, ownersAfter, store, after)
    requires forall j :: j in store ==> j < |owners|
    ensures AllTold(t, fs + [f], after, booksAfter)
  {
    hide Routed, Kinds, FiledAt, Told, Traced;
    forall i ensures Told(t, fs + [f], i, after, booksAfter) {
      assert Told(t, fs, i, store, books);
      if i == f.index {
        assert FiledAt(t, fs, i, store, books);
        ToldHere(t, fs, f, k, books, booksAfter, owners, ownersAfter, store, after);
      } else {
        ToldElsewhere(t, fs, f, i, k, books, booksAfter, owners, ownersAfter, store, after);
      }
    }
  }

  /** A fragment changes no record but one of its own call. */
  lemma TakenElsewhere(t: ToolTable, fs: seq<Fragment>, f: Fragment, j: nat, k: Option<nat>, books: CallBooks,
                       booksAfter: CallBooks, owners: seq<Owner>, ownersAfter: seq<Owner>, store: map<nat, Block>,
                       after: map<nat, Block>)
    requires Routed(t, fs, f, k, books, booksAfter, owners, ownersAfter, store, after)
    requires j in store && store[j].item.Call? && k != Some(j)
    ensures j in after && after[j] == store[j]
  {
    hide HomeOf, CurrentName, ArgumentsComplete, McpReference, McpRecord, PlainRecord, SearchWas;
  }

  lemma {:induction false} ToldElsewhere(t: ToolTable, fs: seq<Fragment>, f: Fragment, i: int, k: Option<nat>,
                                         books: CallBooks, booksAfter: CallBooks, owners: seq<Owner>,
                                         ownersAfter: seq<Owner>, store: map<nat, Block>, after: map<nat, Block>)
    requires i != f.index && Kinds(store, books) && Traced(owners, books) && Told(t, fs, i, store, books)
    requires Routed(t, fs, f, k, books, booksAfter, owners, ownersAfter, store, after)
    requires forall j :: j in store ==> j < |owners|
    ensures Told(t, fs + [f], i, after, booksAfter)
  {
    hide Routed, Kinds, EverReadable, McpReference, IsSearch, First, Strays;
    CallSnoc(t, fs, f, i);
    EverReadableSnoc(t, fs, f, i);
    BooksElsewhere(t, fs, f, k, books, booksAfter, owners, ownersAfter, store, after);
    assert SameAt(books, booksAfter, i) && Arguments(fs, i) + "" == Arguments(fs, i);
    var refs := OwnRefs(fs, i, books);
    if First(fs, i).Some? && i in refs {
      KindOf(store, books, i);
      TakesOwn(t, fs, f, k, books, booksAfter, owners, ownersAfter, store, after);
      assert owners[refs[i]] == OfCall(i);
      TakenElsewhere(t, fs, f, refs[i], k, books, booksAfter, owners, ownersAfter, store, after);
    }
  }

  /** The record that takes a fragment in is new or of the fragment's call. */
  lemma TakesOwn(t: ToolTable, fs: seq<Fragment>, f: Fragment, k: Option<nat>, books: CallBooks, booksAfter: CallBooks,
                 owners: seq<Owner>, ownersAfter: seq<Owner>, store: map<nat, Block>, after: map<nat, Block>)
    requires Traced(owners, books) && Routed(t, fs, f, k, books, booksAfter, owners, ownersAfter, store, after)
    ensures k.Some? && k.value < |owners| ==> owners[k.value] == OfCall(f.index)
  {
    hide HomeOf, CurrentName, ArgumentsComplete, McpReference, McpRecord, PlainRecord, SearchWas;
  }

  /** What a record is after it has taken a fragment in. */
  lemma TakesText(t: ToolTable, f: Fragment, k: nat, seen: bool, blank: Block, owners: seq<Owner>,
                  ownersAfter: seq<Owner>, store: map<nat, Block>, after: map<nat, Block>)
    requires TakesIn(t, f, k, seen, blank, owners, ownersAfter, store, after)
    ensures var was := if seen then store[k] else blank;
            && k in after && TextOf(after[k].item) == TextOf(was.item) + f.arguments
            && (after[k].closed ==> was.closed || Readable(t, TextOf(was.item) + f.arguments))
  {
  }

  lemma MadeBlank(t: ToolTable, f: Fragment, name: string)
    ensures TextOf(PlainRecord(t, f, name).item) == "" && !PlainRecord(t, f, name).closed
    ensures McpReference(name).Some? ==> TextOf(McpRecord(f, name).item) == "" && !McpRecord(f, name).closed
  {
    hide McpReference, Resolve;
  }

  lemma {:induction false} ToldHere(t: ToolTable, fs: seq<Fragment>, f: Fragment, k: Option<nat>, books: CallBooks,
                                    booksAfter: CallBooks, owners: seq<Owner>, ownersAfter: seq<Owner>,
                                    store: map<nat, Block>, after: map<nat, Block>)
    requires Kinds(store, books) && FiledAt(t, fs, f.index, store, books) && NamesWhole(fs, f)
    requires Told(t, fs, f.index, store, books)
    requires Routed(t, fs, f, k, books, booksAfter, owners, ownersAfter, store, after)
    requires forall j :: j in store ==> j < |owners|
    ensures Told(t, fs + [f], f.index, after, booksAfter)
  {
    hide TakesIn, FiledAt, Told, TakenAsSearch, TakenAsMcp, TakenAsPlain, Resolve, McpReference, IsSearch;
    var i := f.index;
    KindsTake(t, fs, f, k, books, booksAfter, owners, ownersAfter, store, after);
    if First(fs, i).Some? && Strayed(t, fs, i) {
      ToldStrayed(t, fs, f, k, books, booksAfter, owners, ownersAfter, store, after);
    } else {
      CurrentSame(t, fs, f);
      match HomeOf(t, fs, f) {
        case AsSearch => ToldSearch(t, fs, f, k, books, booksAfter, owners, ownersAfter, store, after);
        case AsMcp => ToldMcp(t, fs, f, k.value, books, booksAfter, owners, ownersAfter, store, after);
        case AsPlain => ToldPlain(t, fs, f, k.value, books, booksAfter, owners, ownersAfter, store, after);
      }
    }
  }

  lemma CurrentSame(t: ToolTable, fs: seq<Fragment>, f: Fragment)
    requires First(fs, f.index).None? || !Strayed(t, fs, f.index)
    ensures CurrentPlain(t, fs, f)
  {
    hide McpReference, Resolve, IsSearch;
  }

  /** The own record of a call that strayed does not change any more. */
  lemma {:induction false} ToldStrayed(t: ToolTable, fs: seq<Fragment>, f: Fragment, k: Option<nat>, books: CallBooks,
                                       booksAfter: CallBooks, owners: seq<Owner>, ownersAfter: seq<Owner>,
                                       store: map<nat, Block>, after: map<nat, Block>)
    requires Kinds(store, books) && FiledAt(t, fs, f.index, store, books) && Told(t, fs, f.index, store, books)
    requires Strayed(t, fs, f.index)
    requires Routed(t, fs, f, k, books, booksAfter, owners, ownersAfter, store, after)
    requires forall j :: j in store ==> j < |owners|
    ensures Told(t, fs + [f], f.index, after, booksAfter)
  {
    hide TakesIn, Again, Resolve, McpReference, McpRecord, EverReadable, Kinds, SearchWas, ArgumentsComplete, IsSearch,
         PlainRecord;
    var i := f.index;
    CallSnoc(t, fs, f, i);
    EverReadableSnoc(t, fs, f, i);
    KindOf(store, books, i);
    var own := books.plain[i];
    assert k != Some(own) by { NotStrayedInto(t, fs, f, k, books, booksAfter, owners, ownersAfter, store, after); }
    TakenElsewhere(t, fs, f, own, k, books, booksAfter, owners, ownersAfter, store, after);
  }

  /** The further fragments of a call that strayed are not taken in by its own record. */
  lemma NotStrayedInto(t: ToolTable, fs: seq<Fragment>, f: Fragment, k: Option<nat>, books: CallBooks,
                       booksAfter: CallBooks, owners: seq<Owner>, ownersAfter: seq<Owner>, store: map<nat, Block>,
                       after: map<nat, Block>)
    requires Kinds(store, books) && f.index in books.plain && Strayed(t, fs, f.index)
    requires Routed(t, fs, f, k, books, booksAfter, owners, ownersAfter, store, after)
    requires forall j :: j in store ==> j < |owners|
    ensures k != Some(books.plain[f.index])
  {
    hide Resolve, McpReference, McpRecord, SearchWas, ArgumentsComplete, IsSearch, PlainRecord, Kinds;
    KindOf(store, books, f.index);
  }

  /** The record that a fragment of a tool search finds has the arguments so far. */
  lemma SearchWasTold(t: ToolTable, fs: seq<Fragment>, f: Fragment, store: map<nat, Block>, books: CallBooks)
    requires Kinds(store, books) && FiledAt(t, fs, f.index, store, books) && Told(t, fs, f.index, store, books)
    requires IsSearch(Strip(First(fs, f.index).GetOr(f).name))
    ensures var was := SearchWas(f, books, store);
            TextOf(was.item) == Arguments(fs, f.index) && (was.closed ==> EverReadable(t, fs, f.index))
    ensures f.index in books.search ==> books.search[f.index] in store
                                        && SearchWas(f, books, store) == store[books.search[f.index]]
  {
    hide Again, Resolve, McpReference, EverReadable, Kinds, Shown, Opened;
    FirstSeen(fs, f.index);
    KindOf(store, books, f.index);
    CallIsCall(t, fs, f.index);
  }

  lemma {:induction false} ToldSearch(t: ToolTable, fs: seq<Fragment>, f: Fragment, k: Option<nat>, books: CallBooks,
                                      booksAfter: CallBooks, owners: seq<Owner>, ownersAfter: seq<Owner>,
                                      store: map<nat, Block>, after: map<nat, Block>)
    requires Kinds(store, books) && FiledAt(t, fs, f.index, store, books) && Told(t, fs, f.index, store, books)
    requires IsSearch(Strip(First(fs, f.index).GetOr(f).name))
    requires TakenAsSearch(t, f, k, books, booksAfter, owners, ownersAfter, store, after)
    ensures Told(t, fs + [f], f.index, after, booksAfter)
  {
    hide TakesIn, Resolve, McpReference, Readable, EverReadable, Kinds, ArgumentsComplete, IsSearch, Longer, FiledAt,
         SearchWas;
    var i := f.index;
    CallSnoc(t, fs, f, i);
    EverReadableSnoc(t, fs, f, i);
    SearchWasTold(t, fs, f, store, books);
    if k.Some? {
      TakesText(t, f, k.value, i in books.search, SearchWas(f, books, store), owners, ownersAfter, store, after);
    } else {
      FirstSeen(fs, i);
      assert i !in books.search;
    }
  }

  lemma {:induction false} ToldMcp(t: ToolTable, fs: seq<Fragment>, f: Fragment, k: nat, books: CallBooks,
                                   booksAfter: CallBooks, owners: seq<Owner>, ownersAfter: seq<Owner>,
                                   store: map<nat, Block>, after: map<nat, Block>)
    requires FiledAt(t, fs, f.index, store, books) && Told(t, fs, f.index, store, books)
    requires HomeOf(t, fs, f).AsMcp? && CurrentPlain(t, fs, f)
    requires First(fs, f.index).None? || !Strayed(t, fs, f.index)
    requires TakenAsMcp(t, f, CurrentName(t, fs, f), k, books, booksAfter, owners, ownersAfter, store, after)
    ensures Told(t, fs + [f], f.index, after, booksAfter)
  {
    hide TakesIn, Again, Resolve, McpReference, Readable, EverReadable, IsSearch, McpRecord, CurrentName, HomeOf;
    var i := f.index;
    CallSnoc(t, fs, f, i);
    EverReadableSnoc(t, fs, f, i);
    FirstSeen(fs, i);
    MadeBlank(t, f, CurrentName(t, fs, f));
    assert "" + f.arguments == f.arguments;
    TakesText(t, f, k, i in books.mcp, McpRecord(f, CurrentName(t, fs, f)), owners, ownersAfter, store, after);
  }

  lemma {:induction false} ToldPlain(t: ToolTable, fs: seq<Fragment>, f: Fragment, k: nat, books: CallBooks,
                                     booksAfter: CallBooks, owners: seq<Owner>, ownersAfter: seq<Owner>,
                                     store: map<nat, Block>, after: map<nat, Block>)
    requires FiledAt(t, fs, f.index, store, books) && Told(t, fs, f.index, store, books)
    requires HomeOf(t, fs, f).AsPlain? && CurrentPlain(t, fs, f)
    requires First(fs, f.index).None? || !Strayed(t, fs, f.index)
    requires TakenAsPlain(t, f, CurrentName(t, fs, f), k, books, booksAfter, owners, ownersAfter, store, after)
    ensures Told(t, fs + [f], f.index, after, booksAfter)
  {
    hide TakesIn, Again, Resolve, McpReference, Readable, EverReadable, IsSearch, PlainRecord, CurrentName, HomeOf;
    var i := f.index;
    CallSnoc(t, fs, f, i);
    EverReadableSnoc(t, fs, f, i);
    FirstSeen(fs, i);
    MadeBlank(t, f, CurrentName(t, fs, f));
    assert "" + f.arguments == f.arguments;
    TakesText(t, f, k, i in books.plain, PlainRecord(t, f, CurrentName(t, fs, f)), owners, ownersAfter, store, after);
  }

  /** What is not about calls leaves what is recorded of them true. */
  lemma {:induction false} CallsKeep(t: ToolTable, owners: seq<Owner>, more: seq<Owner>, store: map<nat, Block>,
                                     after: map<nat, Block>, calls: map<int, nat>, fs: seq<Fragment>)
    requires CallsOk(t, owners, store, calls, fs)
    requires more == [] || (|more| == 1 && !more[0].OfCall?)
    requires forall k :: k in store && store[k].item.Call? ==> k in after && after[k] == store[k]
    ensures CallsOk(t, owners + more, after, calls, fs)
  {
    hide Shown, ShownOrder, EverComplete, SaidCall, Opened;
    if more == [] {
      assert owners + more == owners;
    } else {
      CallOrderSnoc(owners, more[0]);
      assert more == [more[0]];
    }
    forall i | i in calls ensures CallSays(t, i, calls[i], owners + more, after, fs) {
      assert CallSays(t, i, calls[i], owners, store, fs);
      CallIsCall(t, fs, i);
    }
  }

  lemma CallIsCall(t: ToolTable, fs: seq<Fragment>, i: int)
    ensures First(fs, i).Some? ==> SaidCall(t, fs, i).Call?
  {
  }

  lemma {:induction false} CallsTake(t: ToolTable, f: Fragment, k: nat, owners: seq<Owner>, ownersAfter: seq<Owner>,
                                     store: map<nat, Block>, after: map<nat, Block>, calls: map<int, nat>,
                                     fs: seq<Fragment>)
    requires CallsOk(t, owners, store, calls, fs) && Shown(t, fs + [f], f.index)
    requires f.index in calls ==> calls[f.index] == k
    requires TakesIn(t, f, k, f.index in calls, Unannounced(t, fs, f), owners, ownersAfter, store, after)
    ensures CallsOk(t, ownersAfter, after, calls[f.index := k], fs + [f])
  {
    hide Opened, NamesWhole, ShownOrder, CallOrder, SaidCall, EverComplete, First, Arguments, Unannounced, Shown,
         ArgumentsComplete;
    var callsAfter := calls[f.index := k];
    ShownSnoc(t, fs, f, f.index);
    CallOrderSnoc(owners, OfCall(f.index));
    forall i ensures i in callsAfter <==> Shown(t, fs + [f], i) {
      ShownSnoc(t, fs, f, i);
    }
    forall i | i in callsAfter ensures CallSays(t, i, callsAfter[i], ownersAfter, after, fs + [f]) {
      CallSnoc(t, fs, f, i);
      if i == f.index {
        CallTakes(t, f, k, owners, ownersAfter, store, after, calls, fs);
      } else {
        assert CallSays(t, i, calls[i], owners, store, fs);
        CallIsCall(t, fs, i);
      }
    }
  }

  lemma CallTakes(t: ToolTable, f: Fragment, k: nat, owners: seq<Owner>, ownersAfter: seq<Owner>,
                  store: map<nat, Block>, after: map<nat, Block>, calls: map<int, nat>, fs: seq<Fragment>)
    requires CallsOk(t, owners, store, calls, fs) && Shown(t, fs + [f], f.index)
    requires f.index in calls ==> calls[f.index] == k
    requires TakesIn(t, f, k, f.index in calls, Unannounced(t, fs, f), owners, ownersAfter, store, after)
    ensures CallSays(t, f.index, k, ownersAfter, after, fs + [f])
  {
    hide CallOrder, ShownOrder, ArgumentsComplete, PlainRecord, McpRecord, IsSearch, Padded;
    var i := f.index;
    CallSnoc(t, fs, f, i);
    OpenedIsCall(t, f);
    if i in calls {
      assert CallSays(t, i, calls[i], owners, store, fs);
    } else if First(fs, i).None? {
      NeverUnseen(t, fs, i);
      assert "" + f.arguments == f.arguments;
    }
  }

  lemma OpenedIsCall(t: ToolTable, f: Fragment)
    ensures var b := Opened(t, f); b.item.Call? && b.item.arguments == "" && !b.closed
  {
  }

  /** A fragment that a tool search keeps to itself changes nothing for the announced calls. */
  lemma {:induction false} CallsWait(t: ToolTable, f: Fragment, owners: seq<Owner>, store: map<nat, Block>,
                                     calls: map<int, nat>, fs: seq<Fragment>)
    requires CallsOk(t, owners, store, calls, fs) && !Shown(t, fs + [f], f.index)
    ensures CallsOk(t, owners, store, calls, fs + [f])
  {
    hide Opened, ShownOrder, CallOrder, SaidCall, EverComplete, First, Shown;
    ShownSnoc(t, fs, f, f.index);
    forall i ensures i in calls <==> Shown(t, fs + [f], i) {
      ShownSnoc(t, fs, f, i);
    }
    forall i | i in calls ensures CallSays(t, i, calls[i], owners, store, fs + [f]) {
      ShownSnoc(t, fs, f, i);
      CallSnoc(t, fs, f, i);
      assert CallSays(t, i, calls[i], owners, store, fs);
    }
  }

  lemma {:induction false} WholeNamesSnoc(fs: seq<Fragment>, f: Fragment)
    requires WholeNames(fs) && NamesWhole(fs, f)
    ensures WholeNames(fs + [f])
  {
    forall n | 0 <= n < |fs + [f]| ensures NamesWhole((fs + [f])[..n], (fs + [f])[n]) {
      assert (fs + [f])[..n] == fs[..n];
    }
  }

  lemma WholeNamesStart(fs: seq<Fragment>, rest: seq<Fragment>)
    requires WholeNames(fs + rest)
    ensures WholeNames(fs)
  {
    forall n | 0 <= n < |fs| ensures NamesWhole(fs[..n], fs[n]) {
      assert (fs + rest)[..n] == fs[..n] && (fs + rest)[n] == fs[n];
    }
  }

  lemma WholeNamesPrefix(fs: seq<Fragment>, f: Fragment, rest: seq<Fragment>)
    requires WholeNames(fs + [f] + rest)
    ensures NamesWhole(fs, f)
  {
    var all := fs + [f] + rest;
    assert all[..|fs|] == fs && all[|fs|] == f;
  }

  /** While no call has strayed, a fragment that is taken in keeps the announced calls in agreement with the
      fragments. */
  lemma {:induction false} ChatTake(t: ToolTable, fs: seq<Fragment>, f: Fragment, k: Option<nat>, books: CallBooks,
                                    booksAfter: CallBooks, owners: seq<Owner>, ownersAfter: seq<Owner>,
                                    store: map<nat, Block>, after: map<nat, Block>)
    requires CallsOk(t, owners, store, books.All(), fs) && Kinds(store, books) && Filed(t, fs, store, books)
    requires NamesWhole(fs, f) && NoneStrayed(t, fs)
    requires Routed(t, fs, f, k, books, booksAfter, owners, ownersAfter, store, after)
    ensures CallsOk(t, ownersAfter, after, booksAfter.All(), fs + [f])
  {
    hide CallsOk, NoneStrayed, Routed, FiledAt, TakesIn, Shown, Unannounced;
    assert FiledAt(t, fs, f.index, store, books);
    StrayedNot(t, fs, f.index);
    HomeHere(t, fs, f, k, books, booksAfter, owners, ownersAfter, store, after);
    if k.Some? {
      CallsTake(t, f, k.value, owners, ownersAfter, store, after, books.All(), fs);
    } else {
      CallsWait(t, f, owners, store, books.All(), fs);
    }
  }

  /** What taking a fragment in means for a call that has not strayed: it is announced or it waits. */
  ghost predicate Landed(t: ToolTable, fs: seq<Fragment>, f: Fragment, k: Option<nat>, books: CallBooks,
                         booksAfter: CallBooks, owners: seq<Owner>, ownersAfter: seq<Owner>, store: map<nat, Block>,
                         after: map<nat, Block>) {
    var i, calls := f.index, books.All();
    if k.Some? then
      && Shown(t, fs + [f], i) && (i in calls ==> calls[i] == k.value)
      && TakesIn(t, f, k.value, i in calls, Unannounced(t, fs, f), owners, ownersAfter, store, after)
      && booksAfter.All() == calls[i := k.value]
    else
      !Shown(t, fs + [f], i) && booksAfter.All() == calls && after == store && ownersAfter == owners
  }

  lemma {:induction false} HomeHere(t: ToolTable, fs: seq<Fragment>, f: Fragment, k: Option<nat>, books: CallBooks,
                                    booksAfter: CallBooks, owners: seq<Owner>, ownersAfter: seq<Owner>,
                                    store: map<nat, Block>, after: map<nat, Block>)
    requires FiledAt(t, fs, f.index, store, books) && NamesWhole(fs, f) && !Strayed(t, fs, f.index)
    requires Routed(t, fs, f, k, books, booksAfter, owners, ownersAfter, store, after)
    ensures Landed(t, fs, f, k, books, booksAfter, owners, ownersAfter, store, after)
  {
    hide TakesIn, TakenAsSearch, TakenAsMcp, TakenAsPlain, Resolve, McpReference, Landed, FiledAt, IsSearch;
    assert CurrentPlain(t, fs, f) by { NameStays(t, fs, f); }
    match HomeOf(t, fs, f) {
      case AsSearch => SearchLanded(t, fs, f, k, books, booksAfter, owners, ownersAfter, store, after);
      case AsMcp => McpLanded(t, fs, f, k.value, books, booksAfter, owners, ownersAfter, store, after);
      case AsPlain => PlainLanded(t, fs, f, k.value, books, booksAfter, owners, ownersAfter, store, after);
    }
  }

  /** The name of a call that has not strayed keeps its kind. */
  ghost predicate CurrentPlain(t: ToolTable, fs: seq<Fragment>, f: Fragment) {
    var name := Strip(First(fs, f.index).GetOr(f).name);
    && (HomeOf(t, fs, f).AsSearch? <==> IsSearch(name))
    && (HomeOf(t, fs, f).AsMcp? <==> !IsSearch(name) && McpReference(name).Some?)
    && (First(fs, f.index).None? || !IsPlain(name) ==> CurrentName(t, fs, f) == name)
  }

  lemma NameStays(t: ToolTable, fs: seq<Fragment>, f: Fragment)
    requires !Strayed(t, fs, f.index)
    ensures CurrentPlain(t, fs, f)
  {
    hide McpReference, Resolve, IsSearch;
  }

  /** A seen call's own record is what grows. */
  lemma SeenGrows(t: ToolTable, f: Fragment, k: nat, blank: Block, other: Block, owners: seq<Owner>,
                  ownersAfter: seq<Owner>, store: map<nat, Block>, after: map<nat, Block>)
    ensures TakesIn(t, f, k, true, blank, owners, ownersAfter, store, after) ==>
              TakesIn(t, f, k, true, other, owners, ownersAfter, store, after)
  {
    hide ArgumentsComplete;
  }

  lemma SearchLanded(t: ToolTable, fs: seq<Fragment>, f: Fragment, k: Option<nat>, books: CallBooks,
                     booksAfter: CallBooks, owners: seq<Owner>, ownersAfter: seq<Owner>, store: map<nat, Block>,
                     after: map<nat, Block>)
    requires FiledAt(t, fs, f.index, store, books) && IsSearch(Strip(First(fs, f.index).GetOr(f).name))
    requires TakenAsSearch(t, f, k, books, booksAfter, owners, ownersAfter, store, after)
    ensures Landed(t, fs, f, k, books, booksAfter, owners, ownersAfter, store, after)
  {
    hide TakesIn, ArgumentsComplete, SearchWas, IsSearch, Shown, Unannounced, Longer, Resolve;
    SearchShows(t, fs, f, store, books);
    assert k.Some? ==> booksAfter.All() == books.All()[f.index := k.value];
    if k.Some? {
      SeenGrows(t, f, k.value, SearchWas(f, books, store), Unannounced(t, fs, f), owners, ownersAfter, store, after);
    }
  }

  lemma McpLanded(t: ToolTable, fs: seq<Fragment>, f: Fragment, k: nat, books: CallBooks, booksAfter: CallBooks,
                  owners: seq<Owner>, ownersAfter: seq<Owner>, store: map<nat, Block>, after: map<nat, Block>)
    requires FiledAt(t, fs, f.index, store, books) && NamesWhole(fs, f) && CurrentPlain(t, fs, f)
    requires HomeOf(t, fs, f).AsMcp?
    requires TakenAsMcp(t, f, CurrentName(t, fs, f), k, books, booksAfter, owners, ownersAfter, store, after)
    ensures Landed(t, fs, f, Some(k), books, booksAfter, owners, ownersAfter, store, after)
  {
    hide TakesIn, McpRecord, PlainRecord, McpReference, IsSearch, Resolve, Again, HomeOf, CurrentName, EverComplete;
    CallSnoc(t, fs, f, f.index);
    assert booksAfter.All() == books.All()[f.index := k];
    SeenGrows(t, f, k, McpRecord(f, CurrentName(t, fs, f)), Unannounced(t, fs, f), owners, ownersAfter, store, after);
  }

  lemma PlainLanded(t: ToolTable, fs: seq<Fragment>, f: Fragment, k: nat, books: CallBooks, booksAfter: CallBooks,
                    owners: seq<Owner>, ownersAfter: seq<Owner>, store: map<nat, Block>, after: map<nat, Block>)
    requires FiledAt(t, fs, f.index, store, books) && NamesWhole(fs, f) && CurrentPlain(t, fs, f)
    requires HomeOf(t, fs, f).AsPlain?
    requires TakenAsPlain(t, f, CurrentName(t, fs, f), k, books, booksAfter, owners, ownersAfter, store, after)
    requires !Strayed(t, fs, f.index)
    ensures Landed(t, fs, f, Some(k), books, booksAfter, owners, ownersAfter, store, after)
  {
    hide TakesIn, McpRecord, PlainRecord, McpReference, IsSearch, Resolve, Again, HomeOf, CurrentName, EverComplete;
    CallSnoc(t, fs, f, f.index);
    assert booksAfter.All() == books.All()[f.index := k];
    SeenGrows(t, f, k, PlainRecord(t, f, CurrentName(t, fs, f)), Unannounced(t, fs, f), owners, ownersAfter, store,
              after);
  }

  lemma NoneStrayedBefore(t: ToolTable, fs: seq<Fragment>, f: Fragment)
    requires NoneStrayed(t, fs + [f])
    ensures NoneStrayed(t, fs)
  {
    forall i ensures !Strayed(t, fs, i) {
      CallSnoc(t, fs, f, i);
      assert !Strayed(t, fs + [f], i);
    }
  }

  lemma StrayedOne(t: ToolTable, fs: seq<Fragment>) returns (i: int)
    requires !NoneStrayed(t, fs)
    ensures Strayed(t, fs, i)
  {
    i :| Strayed(t, fs, i);
  }

  /** The name found in the dictionaries leads a fragment where its call's current name points to. */
  lemma {:induction false} NameFound(t: ToolTable, fs: seq<Fragment>, f: Fragment, store: map<nat, Block>,
                                     books: CallBooks, name: string)
    requires FiledAt(t, fs, f.index, store, books) && NamesWhole(fs, f)
    requires var i := f.index;
             && (i !in books.plain && i in books.mcp ==> books.mcp[i] in store)
             && (i !in books.plain && i !in books.mcp && i in books.search ==> books.search[i] in store)
             && name == if i in books.plain then store[books.plain[i]].name
                        else if i in books.mcp then store[books.mcp[i]].name
                        else if i in books.search then store[books.search[i]].name
                        else if i in books.waiting then books.waiting[i].name
                        else Strip(f.name)
    ensures var i := f.index;
            var asSearch := IsSearch(name) || i in books.search || i in books.waiting;
            && (asSearch <==> HomeOf(t, fs, f).AsSearch?)
            && (!asSearch ==> name == CurrentName(t, fs, f))
            && (!asSearch ==> ((McpReference(name).Some? || i in books.mcp) <==> HomeOf(t, fs, f).AsMcp?))
            && (HomeOf(t, fs, f).AsMcp? ==> McpReference(name).Some?)
    ensures f.index in books.search ==> f.index !in books.waiting
  {
    hide McpReference, Resolve, Again, Shown, SaidCall;
  }

  /** Every call is reported as the item that was announced for it. */
  ghost predicate AllKept(t: ToolTable, fs: seq<Fragment>) {
    forall i :: i in Indices(fs) ==> Kept(t, fs, i)
  }

  ghost predicate SomeStuck(t: ToolTable, fs: seq<Fragment>) {
    exists i :: Stuck(t, fs, i)
  }

  /** Every call is kept when none has strayed and none is stuck. */
  lemma {:induction false} KeptMeans(t: ToolTable, fs: seq<Fragment>)
    ensures AllKept(t, fs) <==> NoneStrayed(t, fs) && !SomeStuck(t, fs)
  {
    hide Shown, Again, IsSearch, McpReference, Resolve, Indices, KeptName;
    forall i ensures i in Indices(fs) <==> First(fs, i).Some? { FirstSeen(fs, i); }
    if AllKept(t, fs) {
      forall i ensures !Strayed(t, fs, i) && !Stuck(t, fs, i) {
        assert i in Indices(fs) ==> Kept(t, fs, i);
      }
    } else {
      var i :| i in Indices(fs) && !Kept(t, fs, i);
      assert Strayed(t, fs, i) || Stuck(t, fs, i);
    }
  }

  lemma StrayedNot(t: ToolTable, fs: seq<Fragment>, i: int)
    requires NoneStrayed(t, fs)
    ensures !Strayed(t, fs, i)
  {
  }

  // ---- The reasoning dictionary of a chat stream ----

  /** The reasoning of a chat stream is one item. */
  ghost predicate ReasoningOk(owners: seq<Owner>, store: map<nat, Block>, blocks: map<ReasoningKey, nat>) {
    && blocks.Keys <= {Chat}
    && (Chat in blocks ==>
          && blocks[Chat] < |owners| && owners[blocks[Chat]] == OfReasoning
          && blocks[Chat] in store && store[blocks[Chat]].item.Reasoning?)
    && (forall j :: 0 <= j < |owners| && owners[j] == OfReasoning ==> Chat in blocks && blocks[Chat] == j)
  }

  lemma ReasoningStarts(owners: seq<Owner>, store: map<nat, Block>, blocks: map<ReasoningKey, nat>, text: string)
    requires ReasoningOk(owners, store, blocks) && Chat !in blocks
    ensures ReasoningOk(owners + [OfReasoning], store[|owners| := Block("", Reasoning(text), false)],
                        blocks[Chat := |owners|])
  {
  }

  lemma ReasoningAt(owners: seq<Owner>, store: map<nat, Block>, blocks: map<ReasoningKey, nat>)
    requires ReasoningOk(owners, store, blocks) && Chat in blocks
    ensures blocks[Chat] in store && store[blocks[Chat]].item.Reasoning?
    ensures forall j :: blocks[Chat] < j < |owners| ==> owners[j] != OfReasoning
  {
  }

  lemma ReasoningKeep(owners: seq<Owner>, more: seq<Owner>, store: map<nat, Block>, after: map<nat, Block>,
                      blocks: map<ReasoningKey, nat>)
    requires ReasoningOk(owners, store, blocks)
    requires forall j :: 0 <= j < |more| ==> more[j] != OfReasoning
    requires forall k :: k in store && store[k].item.Reasoning? ==> k in after && after[k].item.Reasoning?
    ensures ReasoningOk(owners + more, after, blocks)
  {
  }

  lemma TakesInReasoning(t: ToolTable, fs: seq<Fragment>, f: Fragment, k: Option<nat>, books: CallBooks,
                         booksAfter: CallBooks, owners: seq<Owner>, ownersAfter: seq<Owner>, store: map<nat, Block>,
                         after: map<nat, Block>, blocks: map<ReasoningKey, nat>)
    requires ReasoningOk(owners, store, blocks) && Kinds(store, books)
    requires Routed(t, fs, f, k, books, booksAfter, owners, ownersAfter, store, after)
    requires forall j :: j in store ==> j < |owners|
    ensures ReasoningOk(ownersAfter, after, blocks)
  {
    hide TakesIn, CurrentName, HomeOf, Kinds;
    KindsTake(t, fs, f, k, books, booksAfter, owners, ownersAfter, store, after);
    OwnersTake(t, fs, f, k, books, booksAfter, owners, ownersAfter, store, after);
    ghost var more := if ownersAfter == owners then [] else [OfCall(f.index)];
    assert ownersAfter == owners + more;
    ReasoningKeep(owners, more, store, after, blocks);
  }

  lemma OwnersTake(t: ToolTable, fs: seq<Fragment>, f: Fragment, k: Option<nat>, books: CallBooks,
                   booksAfter: CallBooks, owners: seq<Owner>, ownersAfter: seq<Owner>, store: map<nat, Block>,
                   after: map<nat, Block>)
    requires Routed(t, fs, f, k, books, booksAfter, owners, ownersAfter, store, after)
    ensures ownersAfter == owners || ownersAfter == owners + [OfCall(f.index)]
  {
    hide CurrentName, HomeOf, ArgumentsComplete, McpRecord, PlainRecord;
  }

  /** Before the first chunk. */
  lemma NothingFiled(t: ToolTable)
    ensures var books := CallBooks(map[], map[], map[], map[]);
            && Kinds(map[], books) && Filed(t, [], map[], books) && Owned(t, [], map[], books)
            && AllTold(t, [], map[], books) && CallsOk(t, [], map[], books.All(), []) && ReasoningOk([], map[], map[])
  {
  }

  lemma ToldKeep(t: ToolTable, store: map<nat, Block>, after: map<nat, Block>, books: CallBooks, fs: seq<Fragment>)
    requires Kinds(store, books) && AllTold(t, fs, store, books)
    requires forall k :: k in store && store[k].item.Call? ==> k in after && after[k] == store[k]
    ensures AllTold(t, fs, after, books)
  {
    hide Resolve, IsSearch, McpReference, EverReadable, Strays;
    forall i ensures Told(t, fs, i, after, books) {
      assert Told(t, fs, i, store, books);
      KindOf(store, books, i);
    }
  }

  /** Steps that concern messages or reasoning leave the calls where they are. */
  lemma ChatKeep(t: ToolTable, owners: seq<Owner>, more: seq<Owner>, store: map<nat, Block>, after: map<nat, Block>,
                 books: CallBooks, fs: seq<Fragment>)
    requires Kinds(store, books) && Filed(t, fs, store, books) && Owned(t, owners, store, books)
    requires AllTold(t, fs, store, books)
    requires NoneStrayed(t, fs) ==> CallsOk(t, owners, store, books.All(), fs)
    requires more == [] || (|more| == 1 && !more[0].OfCall?)
    requires forall k :: k in store && store[k].item.Call? ==> k in after && after[k] == store[k]
    requires forall k :: k in after && after[k].item.Call? ==> k in store && after[k] == store[k]
    ensures Kinds(after, books) && Filed(t, fs, after, books) && Owned(t, owners + more, after, books)
    ensures AllTold(t, fs, after, books)
    ensures NoneStrayed(t, fs) ==> CallsOk(t, owners + more, after, books.All(), fs)
  {
    hide NoneStrayed, CallsOk, Shown, Again, Resolve, IsSearch, Owned, AllTold;
    ToldKeep(t, store, after, books, fs);
    OwnedKeep(t, owners, more, store, after, books);
    if NoneStrayed(t, fs) {
      CallsKeep(t, owners, more, store, after, books.All(), fs);
    }
    forall i ensures FiledAt(t, fs, i, after, books) {
      assert FiledAt(t, fs, i, store, books);
    }
  }
}
