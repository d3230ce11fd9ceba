/** An OpenAI-compatible chat-completions stream as the shim receives it, and what it says when its
    chunks are simply folded: text, reasoning and, for each upstream index, a tool call. */
module ChatUpstream {
  import opened Common

  /** One element of a `tool_calls` list; an absent or falsy field is "". */
  datatype Fragment = Fragment(index: int, id: string, name: string, arguments: string)

  /** The parts of a chunk that the translators read; an absent or falsy string is "". */
  datatype Chunk = Chunk(finishReason: Option<string>, nativeFinishReason: Option<string>,
                         reasoningContent: string, reasoning: string, content: string,
                         toolCalls: seq<Fragment>, messageToolCalls: seq<Fragment>)

  function ReasoningOf(chunk: Chunk): string {
    OrElse(chunk.reasoningContent, chunk.reasoning)
  }

  function SaidText(chunks: seq<Chunk>): string {
    if chunks == [] then "" else SaidText(chunks[..|chunks| - 1]) + chunks[|chunks| - 1].content
  }

  function SaidThinking(chunks: seq<Chunk>): string {
    if chunks == [] then "" else SaidThinking(chunks[..|chunks| - 1]) + ReasoningOf(chunks[|chunks| - 1])
  }

  /** The fragments in `delta.tool_calls`. */
  function DeltaFragments(chunks: seq<Chunk>): seq<Fragment> {
    if chunks == [] then [] else DeltaFragments(chunks[..|chunks| - 1]) + chunks[|chunks| - 1].toolCalls
  }

  /** The fragments in `delta.tool_calls` and in `message.tool_calls`. */
  function AllFragments(chunks: seq<Chunk>): seq<Fragment> {
    if chunks == [] then []
    else
      var last := chunks[|chunks| - 1];
      AllFragments(chunks[..|chunks| - 1]) + last.toolCalls + last.messageToolCalls
  }

  function Arguments(fs: seq<Fragment>, index: int): string {
    if fs == [] then ""
    else
      var last := fs[|fs| - 1];
      Arguments(fs[..|fs| - 1], index) + (if last.index == index then last.arguments else "")
  }

  /** The first non-empty name fragment of a call. */
  function FirstName(fs: seq<Fragment>, index: int): string {
    if fs == [] then ""
    else
      var last := fs[|fs| - 1];
      var before := FirstName(fs[..|fs| - 1], index);
      if before == "" && last.index == index then last.name else before
  }

  function Indices(fs: seq<Fragment>): set<int> {
    set f | f in fs :: f.index
  }

  /** Call indices in the order in which they are first named. */
  function NamedOrder(fs: seq<Fragment>): seq<int> {
    if fs == [] then []
    else
      var prefix, last := fs[..|fs| - 1], fs[|fs| - 1];
      NamedOrder(prefix) + (if last.name != "" && FirstName(prefix, last.index) == "" then [last.index] else [])
  }

  /** What one more chunk says: its text, its reasoning from the field that has any, and its fragments. */
  lemma SaidSnoc(chunks: seq<Chunk>, chunk: Chunk)
    ensures var more := chunks + [chunk];
            && SaidText(more) == SaidText(chunks) + chunk.content
            && (chunk.reasoningContent != "" ==> SaidThinking(more) == SaidThinking(chunks) + chunk.reasoningContent)
            && (chunk.reasoningContent == "" ==> SaidThinking(more) == SaidThinking(chunks) + chunk.reasoning)
            && DeltaFragments(more) == DeltaFragments(chunks) + chunk.toolCalls
            && AllFragments(more) == AllFragments(chunks) + chunk.toolCalls + chunk.messageToolCalls
  {
    assert (chunks + [chunk])[..|chunks|] == chunks;
  }

  /** A call's name is that of the first of its fragments that has any. */
  lemma {:induction false} FirstNameMeans(fs: seq<Fragment>, n: nat)
    requires n < |fs| && fs[n].name != ""
    requires forall m :: 0 <= m < n && fs[m].index == fs[n].index ==> fs[m].name == ""
    ensures FirstName(fs, fs[n].index) == fs[n].name
    ensures FirstName(fs[..n], fs[n].index) == ""
  {
    var last := |fs| - 1;
    if n < last {
      FirstNameMeans(fs[..last], n);
      assert fs[..last][..n] == fs[..n];
    } else {
      NeverNamed(fs[..n], fs[n].index);
    }
  }

  lemma {:induction false} NeverNamed(fs: seq<Fragment>, i: int)
    requires forall m :: 0 <= m < |fs| && fs[m].index == i ==> fs[m].name == ""
    ensures FirstName(fs, i) == ""
  {
    if fs != [] {
      NeverNamed(fs[..|fs| - 1], i);
    }
  }

  /** The named calls, each once; what is named later comes after what has been named so far. */
  lemma {:induction false} NamedOrderMeans(fs: seq<Fragment>)
    ensures forall i :: i in NamedOrder(fs) <==> FirstName(fs, i) != ""
    ensures forall a, b :: 0 <= a < b < |NamedOrder(fs)| ==> NamedOrder(fs)[a] != NamedOrder(fs)[b]
    ensures forall n :: 0 <= n <= |fs| ==> NamedOrder(fs[..n]) <= NamedOrder(fs)
  {
    if fs == [] {
    } else {
      var last := |fs| - 1;
      var before := fs[..last];
      NamedOrderMeans(before);
      forall n | 0 <= n <= |fs| ensures NamedOrder(fs[..n]) <= NamedOrder(fs) {
        assert n <= last ==> before[..n] == fs[..n];
        assert n == |fs| ==> fs[..n] == fs;
      }
    }
  }

  lemma FragmentsSnoc(fs: seq<Fragment>, f: Fragment, i: int)
    ensures Arguments(fs + [f], i) == Arguments(fs, i) + (if f.index == i then f.arguments else "")
    ensures FirstName(fs + [f], i) == if FirstName(fs, i) == "" && f.index == i then f.name else FirstName(fs, i)
    ensures NamedOrder(fs + [f]) ==
            NamedOrder(fs) + (if f.name != "" && FirstName(fs, f.index) == "" then [f.index] else [])
  {
    assert (fs + [f])[..|fs|] == fs;
  }

  lemma IndicesSnoc(fs: seq<Fragment>, f: Fragment)
    ensures Indices(fs + [f]) == Indices(fs) + {f.index}
  {
    forall i ensures i in Indices(fs + [f]) <==> i in Indices(fs) + {f.index} {
      if i in Indices(fs) {
        var g :| g in fs && g.index == i;
        assert g in fs + [f];
      }
      assert f in fs + [f];
    }
  }

  lemma UnseenSaysNothing(fs: seq<Fragment>, i: int)
    requires i !in Indices(fs)
    ensures Arguments(fs, i) == "" && FirstName(fs, i) == ""
  {
    if fs != [] {
      var n := |fs| - 1;
      assert fs[n] in fs;
      assert forall f :: f in fs[..n] ==> f in fs;
      UnseenSaysNothing(fs[..n], i);
    }
  }
}
