/**
 * `process_stream`: incremental splitting of a completion stream into lines and events. Chunks of
 * bytes are decoded one by one; JSON parsing is an arbitrary total function.
 */
module Sse {
  import opened Prelude
  import opened Utf8
  import opened TextLines
  import opened Conversation
  import opened ToolAssembly
  import opened ChunkedLines

  datatype Delta = Delta(content: Option<string>, toolCalls: Option<seq<ToolDelta>>)

  datatype Choice = Choice(finish: Option<StopReason>, delta: Option<Delta>)

  datatype StreamEvent = StreamEvent(choices: seq<Choice>, usage: Option<Usage>)

  type Parser = string -> Option<StreamEvent>

  /** Everything the stream has produced so far; `texts` are the `on_text` callbacks in order. */
  datatype Acc = Acc(
    content: string,
    calls: seq<PartialCall>,
    finish: Option<StopReason>,
    usage: Option<Usage>,
    texts: seq<string>,
    emitted: bool)

  const NOTHING := Acc("", [], None, None, [], false)

  // ---------- One event ----------

  function AbsorbChoice(a: Acc, c: Choice): Acc
  {
    var a1 := if c.finish.Some? then a.(finish := c.finish) else a;
    var a2 :=
      if c.delta.Some? && c.delta.value.content.Some? then
        var text := c.delta.value.content.value;
        a1.(content := a1.content + text, texts := a1.texts + [text], emitted := true)
      else a1;
    if c.delta.Some? && c.delta.value.toolCalls.Some?
    then a2.(calls := Assemble(a2.calls, c.delta.value.toolCalls.value), emitted := true)
    else a2
  }

  function AbsorbChoices(a: Acc, cs: seq<Choice>): Acc
    decreases |cs|
  {
    if cs == [] then a else AbsorbChoices(AbsorbChoice(a, cs[0]), cs[1..])
  }

  function AbsorbEvent(a: Acc, e: StreamEvent): Acc
  {
    AbsorbChoices(if e.usage.Some? then a.(usage := e.usage) else a, e.choices)
  }

  // ---------- One line ----------

  datatype Kind = Ignored | Done | Data(payload: string)

  const DATA_PREFIX := "data: "
  const DONE_MARK := "[DONE]"

  function Classify(raw: string): Kind
  {
    var line := Trim(raw);
    if line == "" || line[0] == ':' || !(DATA_PREFIX <= line) then Ignored
    else
      var data := Trim(line[|DATA_PREFIX|..]);
      if data == DONE_MARK then Done else Data(data)
  }

  function AbsorbKind(a: Acc, k: Kind, parse: Parser): Acc
  {
    match k
    case Data(payload) => if parse(payload).Some? then AbsorbEvent(a, parse(payload).value) else a
    case _ => a
  }

  function AbsorbLine(a: Acc, line: string, parse: Parser): Acc
  {
    AbsorbKind(a, Classify(line), parse)
  }

  predicate IsDone(line: string)
  {
    Classify(line).Done?
  }

  /** How `process_stream` reads: lines are absorbed, and `[DONE]` breaks only the inner loop. */
  function EventReader(parse: Parser): Reader<Acc>
  {
    Reader(NOTHING, (a: Acc, line: string) => AbsorbLine(a, line, parse), IsDone)
  }

  lemma {:induction false} EventReaderProper(parse: Parser)
    ensures Proper(EventReader(parse))
  {
  }

  // ---------- When chunking does not matter ----------

  /** What the lines of a text mean, read one after the other. */
  function Meaning(text: string, parse: Parser): Acc
  {
    Fold(NOTHING, LinesOf(text), EventReader(parse))
  }

  /** What the client makes of a stream delivered in these chunks. */
  function Received(chunks: seq<string>, parse: Parser): Acc
  {
    Outcome(chunks, EventReader(parse))
  }

  /**
   * Content, callbacks, usage, finish reason and tool calls are the same for every way of cutting the
   * text into chunks if and only if nothing after a `[DONE]` line changes them.
   */
  lemma {:induction false} StreamChunkingInvisibleIff(text: string, parse: Parser)
    ensures (forall chunks | Concat(chunks) == text :: Received(chunks, parse) == Meaning(text, parse))
       <==> Settled(LinesOf(text), EventReader(parse))
  {
    EventReaderProper(parse);
    ChunkingInvisibleIff(text, EventReader(parse));
  }

  /** As providers send it: no data line after `[DONE]`. */
  predicate NoDataAfterDone(ls: seq<string>)
  {
    forall d, e | 0 <= d < e < |ls| && IsDone(ls[d]) :: !IsData(ls[e])
  }

  predicate IsData(line: string)
  {
    Classify(line).Data?
  }

  lemma {:induction false} ConventionalStreamsAreSettled(ls: seq<string>, parse: Parser)
    requires NoDataAfterDone(ls)
    ensures Settled(ls, EventReader(parse))
  {
    var rd := EventReader(parse);
    forall d, e | 0 <= d < e < |ls| && rd.isDone(ls[d]) ensures Inert(rd, ls[e]) {
      NonDataIsInert(ls[e], parse);
    }
    SettledIfInertAfterStop(ls, rd);
  }

  lemma {:induction false} NonDataIsInert(line: string, parse: Parser)
    requires !IsData(line)
    ensures Inert(EventReader(parse), line)
  {
  }

  /** For a conventional stream the chunking never shows. */
  lemma {:induction false} ConventionalStreams(chunks: seq<string>, parse: Parser)
    requires NoDataAfterDone(LinesOf(Concat(chunks)))
    ensures Received(chunks, parse) == Meaning(Concat(chunks), parse)
  {
    ConventionalStreamsAreSettled(LinesOf(Concat(chunks)), parse);
    StreamChunkingInvisibleIff(Concat(chunks), parse);
  }

  // ---------- Callbacks, content and tool calls ----------

  /** The callbacks add up to the content, and nothing is held that was not announced as emitted. */
  predicate Coherent(a: Acc)
  {
    a.content == Concat(a.texts) && (!a.emitted ==> a.texts == [] && a.calls == [])
  }

  lemma {:induction false} ChoiceKeepsCoherent(a: Acc, c: Choice)
    requires Coherent(a)
    ensures Coherent(AbsorbChoice(a, c))
  {
    if c.delta.Some? && c.delta.value.content.Some? {
      var text := c.delta.value.content.value;
      ConcatAppend(a.texts, [text]);
      assert [text][1..] == [];
      assert Concat([text]) == text + Concat([]) == text;
    }
  }

  lemma {:induction false} ChoicesKeepCoherent(a: Acc, cs: seq<Choice>)
    requires Coherent(a)
    ensures Coherent(AbsorbChoices(a, cs))
    decreases |cs|
  {
    if cs != [] {
      ChoiceKeepsCoherent(a, cs[0]);
      ChoicesKeepCoherent(AbsorbChoice(a, cs[0]), cs[1..]);
    }
  }

  lemma {:induction false} KindKeepsCoherent(a: Acc, k: Kind, parse: Parser)
    requires Coherent(a)
    ensures Coherent(AbsorbKind(a, k, parse))
  {
    if k.Data? && parse(k.payload).Some? {
      var e := parse(k.payload).value;
      ChoicesKeepCoherent(if e.usage.Some? then a.(usage := e.usage) else a, e.choices);
    }
  }

  lemma {:induction false} FoldKeepsCoherent(a: Acc, ls: seq<string>, parse: Parser)
    requires Coherent(a)
    ensures Coherent(Fold(a, ls, EventReader(parse)))
    decreases |ls|
  {
    if ls != [] {
      KindKeepsCoherent(a, Classify(ls[0]), parse);
      FoldKeepsCoherent(AbsorbLine(a, ls[0], parse), ls[1..], parse);
    }
  }

  /** For every stream and chunking, the `on_text` callbacks concatenate to the content. */
  lemma {:induction false} CallbacksMatchContent(chunks: seq<string>, parse: Parser)
    ensures Coherent(Received(chunks, parse))
  {
    EventReaderProper(parse);
    var m := OutcomeIsAPrefix(chunks, EventReader(parse));
    FoldKeepsCoherent(NOTHING, LinesOf(Concat(chunks))[..m], parse);
  }

  function ChoiceDeltas(cs: seq<Choice>): seq<ToolDelta>
  {
    if cs == [] then []
    else
      (if cs[0].delta.Some? && cs[0].delta.value.toolCalls.Some? then cs[0].delta.value.toolCalls.value else [])
      + ChoiceDeltas(cs[1..])
  }

  function KindDeltas(k: Kind, parse: Parser): seq<ToolDelta>
  {
    match k
    case Data(payload) => if parse(payload).Some? then ChoiceDeltas(parse(payload).value.choices) else []
    case _ => []
  }

  /** All tool-call deltas of a list of lines, in stream order. */
  function Deltas(ls: seq<string>, parse: Parser): seq<ToolDelta>
  {
    if ls == [] then [] else KindDeltas(Classify(ls[0]), parse) + Deltas(ls[1..], parse)
  }

  lemma {:induction false} ChoicesAssemble(a: Acc, cs: seq<Choice>)
    ensures AbsorbChoices(a, cs).calls == Assemble(a.calls, ChoiceDeltas(cs))
    decreases |cs|
  {
    if cs != [] {
      var ds := if cs[0].delta.Some? && cs[0].delta.value.toolCalls.Some? then cs[0].delta.value.toolCalls.value else [];
      ChoicesAssemble(AbsorbChoice(a, cs[0]), cs[1..]);
      AssembleAppend(a.calls, ds, ChoiceDeltas(cs[1..]));
    }
  }

  lemma {:induction false} KindAssembles(a: Acc, k: Kind, parse: Parser)
    ensures AbsorbKind(a, k, parse).calls == Assemble(a.calls, KindDeltas(k, parse))
  {
    if k.Data? && parse(k.payload).Some? {
      var e := parse(k.payload).value;
      ChoicesAssemble(if e.usage.Some? then a.(usage := e.usage) else a, e.choices);
    }
  }

  lemma {:induction false} FoldAssembles(a: Acc, ls: seq<string>, parse: Parser)
    ensures Fold(a, ls, EventReader(parse)).calls == Assemble(a.calls, Deltas(ls, parse))
    decreases |ls|
  {
    if ls != [] {
      KindAssembles(a, Classify(ls[0]), parse);
      FoldAssembles(AbsorbLine(a, ls[0], parse), ls[1..], parse);
      AssembleAppend(a.calls, KindDeltas(Classify(ls[0]), parse), Deltas(ls[1..], parse));
    }
  }

  /**
   * For a settled stream in any chunking, the i-th tool call's arguments are the concatenation of
   * the stream's fragments bearing index i, its id and name the last given for that index.
   */
  lemma {:induction false} ToolCallsOfStream(chunks: seq<string>, parse: Parser, i: nat)
    requires Settled(LinesOf(Concat(chunks)), EventReader(parse))
    ensures var calls := Received(chunks, parse).calls;
      var ds := Deltas(LinesOf(Concat(chunks)), parse);
      && |calls| == Extent(ds, 0)
      && At(calls, i) == PartialCall(LastId(ds, i, ""), LastName(ds, i, ""), Concat(Fragments(ds, i)))
  {
    var ls := LinesOf(Concat(chunks));
    StreamChunkingInvisibleIff(Concat(chunks), parse);
    CallsOfLines(ls, parse, i);
  }

  lemma {:induction false} CallsOfLines(ls: seq<string>, parse: Parser, i: nat)
    ensures var calls := Fold(NOTHING, ls, EventReader(parse)).calls;
      var ds := Deltas(ls, parse);
      && calls == Assemble([], ds) && |calls| == Extent(ds, 0)
      && At(calls, i) == PartialCall(LastId(ds, i, ""), LastName(ds, i, ""), Concat(Fragments(ds, i)))
  {
    FoldAssembles(NOTHING, ls, parse);
    AssembledFromNothing(Deltas(ls, parse), i);
  }

  // ---------- Bytes ----------

  /** What the client makes of a stream delivered in these chunks of bytes. */
  function ReceivedBytes(chunks: seq<seq<Byte>>, parse: Parser): Acc
  {
    Received(Decoded(chunks), parse)
  }

  /** Cut between characters and with no data line after `[DONE]`, a stream of bytes means the lines of
      its text, however it is cut. */
  lemma {:induction false} BytesOfStream(chunks: seq<seq<Byte>>, parse: Parser)
    requires CleanCuts(chunks) && NoDataAfterDone(LinesOf(Lossy(Concat(chunks))))
    ensures ReceivedBytes(chunks, parse) == Meaning(Lossy(Concat(chunks)), parse)
  {
    ChunkwiseDecodingIff(chunks);
    ConventionalStreams(Decoded(chunks), parse);
  }

  /** An ASCII stream with no data line after `[DONE]` means its lines, cut anywhere at all. */
  lemma {:induction false} AsciiStream(chunks: seq<seq<Byte>>, parse: Parser)
    requires forall c | c in chunks :: forall b | b in c :: b < 0x80
    requires NoDataAfterDone(LinesOf(Lossy(Concat(chunks))))
    ensures ReceivedBytes(chunks, parse) == Meaning(Lossy(Concat(chunks)), parse)
  {
    AsciiCutsAreClean(chunks);
    BytesOfStream(chunks, parse);
  }
}
