/** What the client makes of the streams providers send, said from their payloads: which lines count,
    what they contribute, and what `[DONE]` does. */
module OrdinaryStreams {
  import opened Prelude
  import opened Utf8
  import opened TextLines
  import opened Conversation
  import opened ToolAssembly
  import opened ChunkedLines
  import opened Sse
  import opened StreamCompletion

  // ---------- Lines ----------

  /** The lines of a stream: blank ones, ones of another kind (comments among them), payloads, and the
      stop mark; whitespace may surround any of them. */
  datatype Line =
    | Blank(space: string)
    | Remark(before: string, text: string)
    | Payload(before: string, gap: string, text: string, after: string)
    | Stop(before: string, gap: string, after: string)

  predicate Space(s: string)
  {
    forall c | c in s :: IsWhitespace(c) && c != '\n'
  }

  /** Text without whitespace around it. */
  predicate Bare(s: string)
  {
    s != "" && NewlineFree(s) && !IsWhitespace(s[0]) && !IsWhitespace(s[|s| - 1])
  }

  predicate Written(l: Line)
  {
    match l
    case Blank(space) => Space(space)
    case Remark(before, text) =>
      Space(before) && NewlineFree(text) && text != "" && !IsWhitespace(text[0]) && text[0] != 'd'
    case Payload(before, gap, text, after) =>
      Space(before) && Space(gap) && Space(after) && Bare(text) && text != "[DONE]"
    case Stop(before, gap, after) => Space(before) && Space(gap) && Space(after)
  }

  function Spelt(l: Line): string
  {
    match l
    case Blank(space) => space
    case Remark(before, text) => before + text
    case Payload(before, gap, text, after) => before + ("data: " + gap + text + after)
    case Stop(before, gap, after) => before + ("data: " + gap + "[DONE]" + after)
  }

  function SpeltAll(ls: seq<Line>): (r: seq<string>)
    ensures |r| == |ls| && forall i | 0 <= i < |ls| :: r[i] == Spelt(ls[i])
  {
    seq(|ls|, i requires 0 <= i < |ls| => Spelt(ls[i]))
  }

  /** A stream: its lines, each written as it may be, and what follows the last newline. */
  predicate Stream(text: string, ls: seq<Line>, end: string)
  {
    (forall l | l in ls :: Written(l)) && NewlineFree(end) && text == Unlines(SpeltAll(ls)) + end
  }

  // ---------- What the payloads say ----------

  function EventsOf(ls: seq<Line>, parse: Parser): seq<StreamEvent>
  {
    Collect(ls, (l: Line) => if l.Payload? && parse(l.text).Some? then [parse(l.text).value] else [])
  }

  function ChoicesOf(es: seq<StreamEvent>): seq<Choice>
  {
    Collect(es, (e: StreamEvent) => e.choices)
  }

  function TextsOf(cs: seq<Choice>): seq<string>
  {
    Collect(cs, (c: Choice) => if c.delta.Some? && c.delta.value.content.Some? then [c.delta.value.content.value] else [])
  }

  function ToolDeltasOf(cs: seq<Choice>): seq<ToolDelta>
  {
    Collect(cs, (c: Choice) => if c.delta.Some? && c.delta.value.toolCalls.Some? then c.delta.value.toolCalls.value else [])
  }

  function LastFinish(cs: seq<Choice>): Option<StopReason>
  {
    if cs == [] then None
    else if cs[|cs| - 1].finish.Some? then cs[|cs| - 1].finish
    else LastFinish(cs[..|cs| - 1])
  }

  function LastUsage(es: seq<StreamEvent>): Option<Usage>
  {
    if es == [] then None
    else if es[|es| - 1].usage.Some? then es[|es| - 1].usage
    else LastUsage(es[..|es| - 1])
  }

  predicate SaysAnything(cs: seq<Choice>)
  {
    exists c | c in cs :: c.delta.Some? && (c.delta.value.content.Some? || c.delta.value.toolCalls.Some?)
  }

  /** Callbacks and content are the content deltas in order, finish reason and usage the last given; the
      i-th call has the last id and name given for index i, and all its argument fragments in order. */
  ghost predicate Says(a: Acc, es: seq<StreamEvent>)
  {
    var cs := ChoicesOf(es);
    var ds := ToolDeltasOf(cs);
    && a.texts == TextsOf(cs) && a.content == Concat(TextsOf(cs))
    && a.finish == LastFinish(cs) && a.usage == LastUsage(es)
    && |a.calls| == Extent(ds, 0)
    && (forall i | 0 <= i < |a.calls| ::
          a.calls[i] == PartialCall(LastId(ds, i, ""), LastName(ds, i, ""), Concat(Fragments(ds, i))))
    && (a.emitted <==> SaysAnything(cs))
  }

  // ---------- Reading a line ----------

  lemma {:induction false} StartTrimmed(a: string, s: string)
    requires Space(a) && (s == "" || !IsWhitespace(s[0]))
    ensures TrimStart(a + s) == s
  {
    if a == "" {
      assert a + s == s;
    } else {
      assert (a + s)[1..] == a[1..] + s && a[0] in a;
      StartTrimmed(a[1..], s);
    }
  }

  lemma {:induction false} EndTrimmed(s: string, a: string)
    requires Space(a) && (s == "" || !IsWhitespace(s[|s| - 1]))
    ensures TrimEnd(s + a) == s
  {
    if a == "" {
      assert s + a == s;
    } else {
      var n := |a| - 1;
      assert (s + a)[..|s| + n] == s + a[..n] && a[n] in a;
      EndTrimmed(s, a[..n]);
    }
  }

  lemma {:induction false} Trimmed(a: string, s: string, b: string)
    requires Space(a) && Space(b) && (s == "" || (!IsWhitespace(s[0]) && !IsWhitespace(s[|s| - 1])))
    ensures Trim(a + (s + b)) == s
  {
    if s == "" {
      assert a + (s + b) == (a + b) + "" && "" + "" == "";
      StartTrimmed(a + b, "");
    } else {
      StartTrimmed(a, s + b);
      EndTrimmed(s, b);
    }
  }

  lemma {:induction false} DataTrimmed(before: string, prefix: string, gap: string, text: string, after: string)
    requires Space(before) && Space(gap) && Space(after) && Bare(text) && prefix != "" && !IsWhitespace(prefix[0])
    ensures var line := prefix + gap + text;
      && Trim(before + (prefix + gap + text + after)) == line
      && prefix <= line && line[0] == prefix[0] && Trim(line[|prefix|..]) == text
  {
    var body := gap + text;
    var line := prefix + body;
    assert prefix + gap + text == line && body[|body| - 1] == text[|text| - 1];
    FrontKept(prefix, body);
    assert prefix + gap + text + after == line + after;
    Trimmed(before, line, after);
    Trimmed(gap, text, "");
    assert text + "" == text;
  }

  lemma {:induction false} FrontKept(prefix: string, body: string)
    requires prefix != "" && body != ""
    ensures var line := prefix + body;
      && line != "" && line[0] == prefix[0] && line[|line| - 1] == body[|body| - 1] && line[|prefix|..] == body && prefix <= line
  {
  }

  lemma {:induction false} Classified(raw: string, line: string, text: string)
    requires Trim(raw) == line && line != "" && line[0] == 'd' && DATA_PREFIX <= line && Trim(line[|DATA_PREFIX|..]) == text
    ensures Classify(raw) == if text == DONE_MARK then Done else Data(text)
  {
  }

  /** What a data line carries, whatever whitespace surrounds its parts. */
  lemma {:induction false} DataRead(before: string, gap: string, text: string, after: string)
    requires Space(before) && Space(gap) && Space(after) && Bare(text)
    ensures Classify(before + ("data: " + gap + text + after)) == if text == "[DONE]" then Done else Data(text)
  {
    var prefix := "data: ";
    assert prefix[0] == 'd' && prefix == DATA_PREFIX;
    DataTrimmed(before, prefix, gap, text, after);
    Classified(before + (prefix + gap + text + after), prefix + gap + text, text);
  }

  /** Text without whitespace at its front that does not start like a data line. */
  lemma {:induction false} RemarkRead(before: string, text: string)
    requires Space(before) && text != "" && !IsWhitespace(text[0]) && text[0] != 'd'
    ensures Classify(before + text) == Ignored
  {
    StartTrimmed(before, text);
    assert TrimEnd(text) <= text;
    assert DATA_PREFIX[0] == 'd';
  }

  lemma {:induction false} BlankRead(space: string)
    requires Space(space)
    ensures Classify(space) == Ignored
  {
    Trimmed(space, "", "");
    assert space + ("" + "") == space;
  }

  lemma {:induction false} DataIsOneLine(before: string, gap: string, text: string, after: string)
    requires Space(before) && Space(gap) && Space(after) && NewlineFree(text)
    ensures NewlineFree(before + ("data: " + gap + text + after))
  {
  }

  lemma {:induction false} DoneIsBare()
    ensures Bare("[DONE]")
  {
    var mark := "[DONE]";
    assert mark[0] == '[' && mark[|mark| - 1] == ']';
  }

  lemma {:induction false} LineRead(l: Line)
    requires Written(l)
    ensures Classify(Spelt(l)) ==
      match l
      case Payload(_, _, text, _) => Data(text)
      case Stop(_, _, _) => Done
      case _ => Ignored
    ensures NewlineFree(Spelt(l))
  {
    match l
    case Blank(space) => BlankRead(space);
    case Remark(before, text) => RemarkRead(before, text);
    case Payload(before, gap, text, after) =>
      DataRead(before, gap, text, after);
      DataIsOneLine(before, gap, text, after);
    case Stop(before, gap, after) =>
      DoneIsBare();
      DataRead(before, gap, "[DONE]", after);
      DataIsOneLine(before, gap, "[DONE]", after);
  }

  /** A line stops the loop over the lines at hand if and only if it is `data: [DONE]`, give or take
      whitespace. */
  lemma {:induction false} StopsIff(l: Line, parse: Parser)
    requires Written(l)
    ensures EventReader(parse).isDone(Spelt(l)) <==> l.Stop?
  {
    LineRead(l);
  }

  // ---------- Adding up events ----------

  /** What has been received once these choices and this usage were. */
  function Summed(cs: seq<Choice>, usage: Option<Usage>): Acc
  {
    Acc(Concat(TextsOf(cs)), Assemble([], ToolDeltasOf(cs)), LastFinish(cs), usage, TextsOf(cs), SaysAnything(cs))
  }

  lemma {:induction false} TextsSnoc(cs: seq<Choice>, c: Choice)
    ensures TextsOf(cs + [c])
         == TextsOf(cs) + if c.delta.Some? && c.delta.value.content.Some? then [c.delta.value.content.value] else []
  {
    CollectSnoc(cs, c, (c: Choice) => if c.delta.Some? && c.delta.value.content.Some? then [c.delta.value.content.value] else []);
  }

  lemma {:induction false} ToolDeltasSnoc(cs: seq<Choice>, c: Choice)
    ensures ToolDeltasOf(cs + [c])
         == ToolDeltasOf(cs) + if c.delta.Some? && c.delta.value.toolCalls.Some? then c.delta.value.toolCalls.value else []
  {
    CollectSnoc(cs, c, (c: Choice) => if c.delta.Some? && c.delta.value.toolCalls.Some? then c.delta.value.toolCalls.value else []);
  }

  lemma {:induction false} FinishSnoc(cs: seq<Choice>, c: Choice)
    ensures LastFinish(cs + [c]) == if c.finish.Some? then c.finish else LastFinish(cs)
    ensures SaysAnything(cs + [c]) <==>
      SaysAnything(cs) || (c.delta.Some? && (c.delta.value.content.Some? || c.delta.value.toolCalls.Some?))
  {
    var all := cs + [c];
    assert all[..|all| - 1] == cs;
    assert forall x :: x in all <==> x in cs || x == c;
  }

  lemma {:induction false} ConcatSnocText(ts: seq<string>, t: string)
    ensures Concat(ts + [t]) == Concat(ts) + t
  {
    ConcatAppend(ts, [t]);
    assert [t][1..] == [] && Concat([t]) == t + Concat([]);
  }

  /** How one choice extends what is summed. */
  lemma {:induction false} SummedSnoc(cs: seq<Choice>, usage: Option<Usage>, c: Choice)
    ensures var b, a := Summed(cs, usage), Summed(cs + [c], usage);
      && a.finish == (if c.finish.Some? then c.finish else b.finish) && a.usage == b.usage
      && a.content == (if c.delta.Some? && c.delta.value.content.Some? then b.content + c.delta.value.content.value else b.content)
      && a.texts == (if c.delta.Some? && c.delta.value.content.Some? then b.texts + [c.delta.value.content.value] else b.texts)
      && a.calls == (if c.delta.Some? && c.delta.value.toolCalls.Some? then Assemble(b.calls, c.delta.value.toolCalls.value) else b.calls)
      && a.emitted == (b.emitted || (c.delta.Some? && (c.delta.value.content.Some? || c.delta.value.toolCalls.Some?)))
  {
    TextsSnoc(cs, c);
    ToolDeltasSnoc(cs, c);
    FinishSnoc(cs, c);
    if c.delta.Some? && c.delta.value.content.Some? {
      ConcatSnocText(TextsOf(cs), c.delta.value.content.value);
    } else {
      assert TextsOf(cs) + [] == TextsOf(cs);
    }
    if c.delta.Some? && c.delta.value.toolCalls.Some? {
      AssembleAppend([], ToolDeltasOf(cs), c.delta.value.toolCalls.value);
    } else {
      assert ToolDeltasOf(cs) + [] == ToolDeltasOf(cs);
    }
  }

  lemma {:induction false} ChoiceSummed(cs: seq<Choice>, usage: Option<Usage>, c: Choice)
    ensures AbsorbChoice(Summed(cs, usage), c) == Summed(cs + [c], usage)
  {
    SummedSnoc(cs, usage, c);
  }

  lemma {:induction false} ChoicesSummed(cs: seq<Choice>, usage: Option<Usage>, more: seq<Choice>)
    ensures AbsorbChoices(Summed(cs, usage), more) == Summed(cs + more, usage)
    decreases |more|
  {
    if more == [] {
      assert cs + more == cs;
    } else {
      ChoiceSummed(cs, usage, more[0]);
      ChoicesSummed(cs + [more[0]], usage, more[1..]);
      assert (cs + [more[0]]) + more[1..] == cs + more;
    }
  }

  lemma {:induction false} EventSummed(es: seq<StreamEvent>, e: StreamEvent)
    ensures AbsorbEvent(Summed(ChoicesOf(es), LastUsage(es)), e) == Summed(ChoicesOf(es + [e]), LastUsage(es + [e]))
  {
    var usage := if e.usage.Some? then e.usage else LastUsage(es);
    CollectSnoc(es, e, (e: StreamEvent) => e.choices);
    assert (es + [e])[..|es + [e]| - 1] == es;
    ChoicesSummed(ChoicesOf(es), usage, e.choices);
  }

  /** Absorbing the lines of a stream adds up the events of its payloads. */
  predicate AddsUp(ls: seq<Line>, parse: Parser)
  {
    var es := EventsOf(ls, parse);
    Fold(NOTHING, SpeltAll(ls), EventReader(parse)) == Summed(ChoicesOf(es), LastUsage(es))
  }

  lemma {:induction false} LinesSummed(ls: seq<Line>, parse: Parser)
    requires forall l | l in ls :: Written(l)
    ensures AddsUp(ls, parse)
  {
    if ls == [] {
      NothingAddsUp(parse);
    } else {
      var front, l := ls[..|ls| - 1], ls[|ls| - 1];
      assert l in ls;
      LinesSummed(front, parse);
      LineSummed(front, l, parse);
      assert ls == front + [l];
    }
  }

  lemma {:induction false} NothingAddsUp(parse: Parser)
    ensures AddsUp([], parse)
  {
    assert SpeltAll([]) == [];
  }

  lemma {:induction false} LineSummed(front: seq<Line>, l: Line, parse: Parser)
    requires Written(l) && AddsUp(front, parse)
    ensures AddsUp(front + [l], parse)
  {
    var a := Fold(NOTHING, SpeltAll(front), EventReader(parse));
    FoldedOn(front, l, parse);
    LineRead(l);
    EventsSnoc(front, l, parse);
    var es := EventsOf(front, parse);
    if l.Payload? && parse(l.text).Some? {
      EventSummed(es, parse(l.text).value);
    } else {
      assert es + [] == es;
      assert AbsorbKind(a, Classify(Spelt(l)), parse) == a;
    }
  }

  lemma {:induction false} FoldedOn(front: seq<Line>, l: Line, parse: Parser)
    ensures Fold(NOTHING, SpeltAll(front + [l]), EventReader(parse))
         == AbsorbKind(Fold(NOTHING, SpeltAll(front), EventReader(parse)), Classify(Spelt(l)), parse)
  {
    assert SpeltAll(front + [l]) == SpeltAll(front) + [Spelt(l)];
    FoldAppend(NOTHING, SpeltAll(front), [Spelt(l)], EventReader(parse));
    OneFolded(Fold(NOTHING, SpeltAll(front), EventReader(parse)), Spelt(l), parse);
  }

  lemma {:induction false} OneFolded(a: Acc, line: string, parse: Parser)
    ensures Fold(a, [line], EventReader(parse)) == AbsorbLine(a, line, parse)
  {
    assert [line][1..] == [];
  }

  lemma {:induction false} EventsSnoc(ls: seq<Line>, l: Line, parse: Parser)
    ensures EventsOf(ls + [l], parse)
         == EventsOf(ls, parse) + if l.Payload? && parse(l.text).Some? then [parse(l.text).value] else []
  {
    CollectSnoc(ls, l, (l: Line) => if l.Payload? && parse(l.text).Some? then [parse(l.text).value] else []);
  }

  lemma {:induction false} SummedSays(es: seq<StreamEvent>)
    ensures Says(Summed(ChoicesOf(es), LastUsage(es)), es)
  {
    var ds := ToolDeltasOf(ChoicesOf(es));
    var calls := Assemble([], ds);
    AssembledFromNothing(ds, 0);
    forall i | 0 <= i < |calls|
      ensures calls[i] == PartialCall(LastId(ds, i, ""), LastName(ds, i, ""), Concat(Fragments(ds, i)))
    {
      AssembledFromNothing(ds, i);
    }
  }

  lemma {:induction false} LinesSay(ls: seq<Line>, parse: Parser)
    requires forall l | l in ls :: Written(l)
    ensures Says(Fold(NOTHING, SpeltAll(ls), EventReader(parse)), EventsOf(ls, parse))
  {
    LinesSummed(ls, parse);
    SummedSays(EventsOf(ls, parse));
  }

  // ---------- Whole streams ----------

  lemma {:induction false} StreamLines(text: string, ls: seq<Line>, end: string)
    requires Stream(text, ls, end)
    ensures LinesOf(text) == SpeltAll(ls)
  {
    forall l | l in SpeltAll(ls)
      ensures NewlineFree(l)
    {
      var i :| 0 <= i < |ls| && l == SpeltAll(ls)[i];
      LineRead(ls[i]);
    }
    LinesOfUnlines(SpeltAll(ls), end);
  }

  predicate NoPayloadAfterStop(ls: seq<Line>)
  {
    forall d, e | 0 <= d < e < |ls| && ls[d].Stop? :: !ls[e].Payload?
  }

  /** However a stream is cut between its characters, if no payload follows a stop mark, what is received
      is what its payloads say; a stop mark, blank lines and comments add nothing. */
  lemma {:induction false} OrdinaryStream(chunks: seq<seq<Byte>>, ls: seq<Line>, end: string, parse: Parser)
    requires CleanCuts(chunks) && Stream(Lossy(Concat(chunks)), ls, end) && NoPayloadAfterStop(ls)
    ensures Says(ReceivedBytes(chunks, parse), EventsOf(ls, parse))
  {
    var lines := SpeltAll(ls);
    StreamLines(Lossy(Concat(chunks)), ls, end);
    forall d, e | 0 <= d < e < |lines| && IsDone(lines[d])
      ensures !IsData(lines[e])
    {
      LineRead(ls[d]);
      LineRead(ls[e]);
    }
    BytesOfStream(chunks, parse);
    LinesSay(ls, parse);
  }

  /** The same from the text that was sent, in whatever pieces, as UTF-8. */
  lemma {:induction false} SentAsText(pieces: seq<string>, ls: seq<Line>, end: string, parse: Parser)
    requires Stream(Concat(pieces), ls, end) && NoPayloadAfterStop(ls)
    ensures var chunks := seq(|pieces|, i requires 0 <= i < |pieces| => EncodedText(pieces[i]));
      Says(ReceivedBytes(chunks, parse), EventsOf(ls, parse))
  {
    var chunks := seq(|pieces|, i requires 0 <= i < |pieces| => EncodedText(pieces[i]));
    TextCutsAreClean(pieces);
    DecodingUndoesEncoding(Concat(pieces));
    OrdinaryStream(chunks, ls, end, parse);
  }

  /** The lines up to and including the first stop mark, or all of them. */
  function UpToStop(ls: seq<Line>): (k: nat)
    ensures k <= |ls|
  {
    if ls == [] then 0 else if ls[0].Stop? then 1 else 1 + UpToStop(ls[1..])
  }

  lemma {:induction false} ConsumedUpToStop(ls: seq<Line>, parse: Parser)
    requires forall l | l in ls :: Written(l)
    ensures Consumed(SpeltAll(ls), EventReader(parse)) == UpToStop(ls)
  {
    if ls != [] {
      StopsIff(ls[0], parse);
      ConsumedUpToStop(ls[1..], parse);
      assert SpeltAll(ls)[1..] == SpeltAll(ls[1..]);
    }
  }

  lemma {:induction false} AtOnce(text: string, rd: Reader<Acc>)
    ensures Outcome([text], rd) == Drain(rd.start, text, rd).0
  {
    assert "" + text == text;
    ProcessStep(rd.start, "", [text], rd);
    assert [text][1..] == [];
  }

  /** Delivered at once, a stream is read up to its first stop mark, and what follows is never looked at. */
  lemma {:induction false} StopEndsTheChunk(text: string, ls: seq<Line>, end: string, parse: Parser)
    requires Stream(text, ls, end)
    ensures Says(Received([text], parse), EventsOf(ls[..UpToStop(ls)], parse))
  {
    StreamLines(text, ls, end);
    ReadAtOnce(text, parse);
    ConsumedUpToStop(ls, parse);
    SpeltPrefix(ls, UpToStop(ls));
    LinesSay(ls[..UpToStop(ls)], parse);
  }

  lemma {:induction false} ReadAtOnce(text: string, parse: Parser)
    ensures var rd, lines := EventReader(parse), LinesOf(text);
      Received([text], parse) == Fold(NOTHING, lines[..Consumed(lines, rd)], rd)
  {
    EventReaderProper(parse);
    AtOnce(text, EventReader(parse));
    DrainMeaning(NOTHING, text, EventReader(parse));
  }

  lemma {:induction false} SpeltPrefix(ls: seq<Line>, k: nat)
    requires k <= |ls|
    ensures SpeltAll(ls)[..k] == SpeltAll(ls[..k]) && forall l | l in ls[..k] :: l in ls
  {
  }

  /** Delivered line by line, it is read through every stop mark. */
  lemma {:induction false} StopEndsNoMore(ls: seq<Line>, parse: Parser)
    requires forall l | l in ls :: Written(l)
    ensures Says(Received(LineChunks(SpeltAll(ls)), parse), EventsOf(ls, parse))
  {
    EventReaderProper(parse);
    forall l | l in SpeltAll(ls)
      ensures NewlineFree(l)
    {
      var i :| 0 <= i < |ls| && l == SpeltAll(ls)[i];
      LineRead(ls[i]);
    }
    LineByLine(NOTHING, SpeltAll(ls), EventReader(parse));
    LinesSay(ls, parse);
  }

  // ---------- The reply ----------

  /** The reply of an ordinary stream: the content deltas joined, if there is any text; one call per index
      up to the largest, if there is any; and the finish reason and usage last given. */
  lemma {:induction false} OrdinaryReply(chunks: seq<seq<Byte>>, ls: seq<Line>, end: string, parse: Parser)
    requires CleanCuts(chunks) && Stream(Lossy(Concat(chunks)), ls, end) && NoPayloadAfterStop(ls)
    ensures var es := EventsOf(ls, parse);
      var cs := ChoicesOf(es);
      var ds := ToolDeltasOf(cs);
      var text := Concat(TextsOf(cs));
      var reply := Finished(ReceivedBytes(chunks, parse));
      && reply.finish == LastFinish(cs) && reply.usage == LastUsage(es)
      && reply.message.role.Assistant? && reply.message.toolCallId.None?
      && reply.message.content == (if text == "" then None else Some(Text(text)))
      && (reply.message.toolCalls.None? <==> ds == [])
      && |CallsOf(reply.message)| == Extent(ds, 0)
      && forall i | 0 <= i < |CallsOf(reply.message)| ::
           CallsOf(reply.message)[i] == ToolCall(LastId(ds, i, ""), LastName(ds, i, ""), Concat(Fragments(ds, i)))
  {
    OrdinaryStream(chunks, ls, end, parse);
    ExtentGrows(ToolDeltasOf(ChoicesOf(EventsOf(ls, parse))), 0);
  }

  lemma {:induction false} ExtentGrows(ds: seq<ToolDelta>, least: nat)
    ensures Extent(ds, least) >= least && (Extent(ds, least) == 0 <==> ds == [] && least == 0)
  {
    if ds != [] {
      ExtentGrows(ds[1..], if ds[0].index < least then least else ds[0].index + 1);
    }
  }
}
