/** The supervisor's bridge between the tunnel and its child process: text frames become lines of
    the child's stdin, lines of the child's stdout become text frames. */
module Bridge {
  import opened Prelude
  import opened TextLines

  datatype WsItem = Text(text: string) | Close | Ping | Other | Failed

  datatype Exit = TunnelClosed | ProcessExited | WriteFailed | WsReadFailed | WsWriteFailed | StdoutReadFailed

  // ---- What the two directions mean ----

  /** A frame as it goes to the child: a newline is added unless the frame ends with one. */
  function Framed(t: string): (r: string)
    ensures t <= r && r != "" && r[|r| - 1] == '\n'
  {
    if t != "" && t[|t| - 1] == '\n' then t else t + "\n"
  }

  function Wire(texts: seq<string>): string
  {
    if texts == [] then "" else Framed(texts[0]) + Wire(texts[1..])
  }

  predicate Ends(m: WsItem)
  {
    m.Close? || m.Failed?
  }

  /** The text frames that precede the first close or error. */
  function TextsOf(items: seq<WsItem>): seq<string>
  {
    if items == [] || Ends(items[0]) then []
    else (if items[0].Text? then [items[0].text] else []) + TextsOf(items[1..])
  }

  function ExitOf(items: seq<WsItem>): Exit
  {
    if items == [] || items[0].Close? then TunnelClosed
    else if items[0].Failed? then WsReadFailed
    else ExitOf(items[1..])
  }

  function Trimmed(ls: seq<string>): (r: seq<string>)
    ensures |r| == |ls| && forall i | 0 <= i < |ls| :: r[i] == TrimEnd(ls[i])
  {
    seq(|ls|, i requires 0 <= i < |ls| => TrimEnd(ls[i]))
  }

  /** The frames for the given lines, then one for an unfinished last line unless reading it fails. */
  function Join(ls: seq<string>, tail: string, breaks: bool): seq<string>
  {
    Trimmed(ls) + if breaks || tail == "" then [] else [TrimEnd(tail)]
  }

  /** The frames that come out of a stdout that ends properly or breaks. */
  function FramesFrom(out: string, breaks: bool): seq<string>
  {
    Join(LinesOf(out), TailOf(out), breaks)
  }

  function FramesOf(out: string): seq<string>
  {
    FramesFrom(out, false)
  }

  // ---- The tunnel-to-child direction ----

  lemma {:induction false} FramedIsLine(t: string)
    requires NewlineFree(t)
    ensures Framed(t) == t + "\n"
  {
    if t != "" {
      assert t[|t| - 1] in t;
    }
  }

  lemma {:induction false} WireIsUnlines(texts: seq<string>)
    requires forall t | t in texts :: NewlineFree(t)
    ensures Wire(texts) == Unlines(texts)
  {
    if texts != [] {
      FramedIsLine(texts[0]);
      WireIsUnlines(texts[1..]);
    }
  }

  lemma {:induction false} FramedSplits(t: string)
    ensures TailOf(Framed(t)) == ""
  {
    var s := Framed(t);
    var a := s[..|s| - 1];
    assert s == a + "\n" && TailOf(a) + "\n" + "" == TailOf(a) + "\n";
    SplitAppend(a, "\n");
    LinesAreNewlineFree(a);
    SplitFirst(TailOf(a), "");
    NoNewline("");
  }

  function LinesOfEach(texts: seq<string>): seq<string>
  {
    if texts == [] then [] else LinesOf(Framed(texts[0])) + LinesOfEach(texts[1..])
  }

  /** Frames never run into each other: whatever the texts hold, the child reads the lines of the
      first, then those of the second, and so on, with nothing left over. */
  lemma {:induction false} ChildReadsFrameByFrame(texts: seq<string>)
    ensures LinesOf(Wire(texts)) == LinesOfEach(texts) && TailOf(Wire(texts)) == ""
  {
    if texts == [] {
      NoNewline("");
    } else {
      ChildReadsFrameByFrame(texts[1..]);
      FramedSplits(texts[0]);
      SplitAppend(Framed(texts[0]), Wire(texts[1..]));
      assert "" + Wire(texts[1..]) == Wire(texts[1..]);
    }
  }

  /** A frame that brings its own newline is written like the same frame without it, and no frame is
      given a second one. */
  lemma {:induction false} OwnNewlineMakesNoDifference(t: string, texts: seq<string>)
    requires NewlineFree(t)
    ensures Wire([t + "\n"] + texts) == Wire([t] + texts) == t + "\n" + Wire(texts)
    ensures LinesOf(Wire([t + "\n"])) == [t]
  {
    assert ([t + "\n"] + texts)[1..] == texts && ([t] + texts)[1..] == texts;
    assert [t + "\n"][1..] == [] && Wire([t + "\n"]) == (t + "\n") + "" == t + "\n" + "";
    SplitFirst(t, "");
    NoNewline("");
  }

  /** The bytes written split back into exactly the frames sent, precisely when no frame contains a
      newline. */
  lemma {:induction false} FramesSurviveIff(texts: seq<string>)
    ensures LinesOf(Wire(texts)) == texts <==> forall t | t in texts :: NewlineFree(t)
  {
    LinesAreNewlineFree(Wire(texts));
    if forall t | t in texts :: NewlineFree(t) {
      WireIsUnlines(texts);
      LinesOfUnlines(texts, "");
      assert Unlines(texts) + "" == Unlines(texts);
    }
  }

  lemma {:induction false} PrefixLines(s: string, t: string)
    ensures LinesOf(s) <= LinesOf(s + t)
  {
    SplitAppend(s, t);
  }

  lemma {:induction false} CutLines(w: string, n: nat)
    requires n <= |w|
    ensures LinesOf(w[..n]) <= LinesOf(w)
  {
    PrefixLines(w[..n], w[n..]);
    assert w[..n] + w[n..] == w;
  }

  /** A write cut short anywhere still leaves the child with complete lines only of the first
      frames, in order. */
  lemma {:induction false} CutWriteKeepsLeadingFrames(texts: seq<string>, n: nat)
    requires n <= |Wire(texts)| && forall t | t in texts :: NewlineFree(t)
    ensures LinesOf(Wire(texts)[..n]) <= texts
    ensures n == |Wire(texts)| ==> LinesOf(Wire(texts)[..n]) == texts
  {
    FramesSurviveIff(texts);
    CutLines(Wire(texts), n);
    if n == |Wire(texts)| {
      assert Wire(texts)[..n] == Wire(texts);
    }
  }

  /** Control and binary frames leave no trace. */
  lemma {:induction false} OnlyTextMatters(items: seq<WsItem>, texts: seq<string>)
    requires forall m | m in items :: !Ends(m)
    requires Filter(items, (m: WsItem) => m.Text?) == seq(|texts|, i requires 0 <= i < |texts| => Text(texts[i]))
    ensures TextsOf(items) == texts && ExitOf(items) == TunnelClosed
    decreases |items|
  {
    var p := (m: WsItem) => m.Text?;
    if items != [] {
      FilterCons(items, p);
      assert forall m | m in items[1..] :: m in items;
      assert !Ends(items[0]) by { assert items[0] in items; }
      if items[0].Text? {
        assert Filter(items, p)[0] == Text(texts[0]);
        assert Filter(items[1..], p) == Filter(items, p)[1..];
        OnlyTextMatters(items[1..], texts[1..]);
      } else {
        OnlyTextMatters(items[1..], texts);
      }
    }
  }

  /** As much of `s` as a sink that breaks after `limit` items holds. */
  function Clip<T>(s: seq<T>, limit: Option<nat>): seq<T>
  {
    if Within(s, limit) then s else s[..limit.value]
  }

  predicate Within<T>(s: seq<T>, limit: Option<nat>)
  {
    limit.Some? ==> |s| <= limit.value
  }

  lemma {:induction false} ClipAppend<T>(s: seq<T>, t: seq<T>, limit: Option<nat>)
    requires !Within(s, limit)
    ensures Clip(s + t, limit) == Clip(s, limit) && !Within(s + t, limit)
  {
  }

  /** The child's stdin: a sink that may break after `limit` characters. */
  class Stdin {
    var written: string
    const limit: Option<nat>

    predicate Valid()
      reads this
    {
      Within(written, limit)
    }

    constructor (limit: Option<nat>)
      ensures Valid() && written == "" && this.limit == limit
    {
      this.limit := limit;
      written := "";
    }

    /** A write that does not fit leaves as much as does, and fails. */
    method WriteAll(s: string) returns (ok: bool)
      requires Valid()
      modifies this
      ensures Valid() && written == Clip(old(written) + s, limit) && ok == Within(old(written) + s, limit)
    {
      ok := Within(written + s, limit);
      written := Clip(written + s, limit);
    }

    method WriteFrame(frame: string) returns (ok: bool)
      requires Valid()
      modifies this
      ensures Valid() && written == Clip(old(written) + Framed(frame), limit)
      ensures ok == Within(old(written) + Framed(frame), limit)
    {
      ghost var all := written + frame;
      ok := WriteAll(frame);
      if !ok {
        ClipAppend(all, "\n", limit);
      }
      assert old(written) + (frame + "\n") == all + "\n";
      if ok && !(frame != "" && frame[|frame| - 1] == '\n') {
        ok := WriteAll("\n");
      }
    }
  }

  /** What the sink holds, and how the run ends, item by item. */
  function Pumped(written: string, items: seq<WsItem>, limit: Option<nat>): (string, Exit)
    decreases |items|
  {
    if items == [] || items[0].Close? then (written, TunnelClosed)
    else if items[0].Failed? then (written, WsReadFailed)
    else if !items[0].Text? then Pumped(written, items[1..], limit)
    else
      var all := written + Framed(items[0].text);
      if Within(all, limit) then Pumped(all, items[1..], limit) else (Clip(all, limit), WriteFailed)
  }

  lemma {:induction false} PumpedMeans(written: string, items: seq<WsItem>, limit: Option<nat>)
    requires Within(written, limit)
    ensures var goal := written + Wire(TextsOf(items));
      Pumped(written, items, limit) == (Clip(goal, limit), if Within(goal, limit) then ExitOf(items) else WriteFailed)
    decreases |items|
  {
    if items == [] || Ends(items[0]) {
      assert written + "" == written;
    } else if items[0].Text? {
      var all, more := written + Framed(items[0].text), Wire(TextsOf(items[1..]));
      WireStep(items);
      Associate(written, Framed(items[0].text), more);
      if Within(all, limit) {
        PumpedMeans(all, items[1..], limit);
      } else {
        ClipAppend(all, more, limit);
      }
    } else {
      WireStep(items);
      PumpedMeans(written, items[1..], limit);
    }
  }

  /** Everything written is the framed texts in order, up to where the sink broke; the exit tells
      which of the two ended the run. */
  method WsToStdin(items: seq<WsItem>, stdin: Stdin) returns (exit: Exit)
    requires stdin.Valid()
    modifies stdin
    ensures stdin.Valid()
    ensures var goal := old(stdin.written) + Wire(TextsOf(items));
      && stdin.written == Clip(goal, stdin.limit)
      && exit == if Within(goal, stdin.limit) then ExitOf(items) else WriteFailed
  {
    exit := Pump(items, stdin);
    PumpedMeans(old(stdin.written), items, stdin.limit);
  }

  /** The read loop. */
  method Pump(items: seq<WsItem>, stdin: Stdin) returns (exit: Exit)
    requires stdin.Valid()
    modifies stdin
    ensures stdin.Valid() && (stdin.written, exit) == Pumped(old(stdin.written), items, stdin.limit)
  {
    var i := 0;
    assert items[0..] == items;
    while i < |items|
      invariant 0 <= i <= |items| && stdin.Valid()
      invariant Pumped(stdin.written, items[i..], stdin.limit) == Pumped(old(stdin.written), items, stdin.limit)
    {
      assert items[i..][0] == items[i] && items[i..][1..] == items[i + 1..];
      match items[i] {
      case Text(text) =>
        var ok := stdin.WriteFrame(text);
        if !ok {
          return WriteFailed;
        }
      case Close => return TunnelClosed;
      case Ping =>
      case Other =>
      case Failed => return WsReadFailed;
      }
      i := i + 1;
    }
    return TunnelClosed;
  }

  lemma {:induction false} WireStep(items: seq<WsItem>)
    requires items != []
    ensures Wire(TextsOf(items)) ==
      if Ends(items[0]) then ""
      else if items[0].Text? then Framed(items[0].text) + Wire(TextsOf(items[1..]))
      else Wire(TextsOf(items[1..]))
  {
    if items[0].Text? {
      assert TextsOf(items)[1..] == TextsOf(items[1..]);
    } else if !Ends(items[0]) {
      assert TextsOf(items) == TextsOf(items[1..]);
    }
  }

  // ---- The child-to-tunnel direction ----

  lemma {:induction false} TrimEndTerminator(l: string)
    ensures TrimEnd(l + "\n") == TrimEnd(l)
  {
    assert (l + "\n")[..|l|] == l;
  }

  lemma {:induction false} JoinIsTrimmed(ls: seq<string>, tail: string)
    ensures Join(ls, tail, false) == Trimmed(if tail == "" then ls else ls + [tail])
  {
  }

  /** A last line without its terminator is forwarded like the others. */
  lemma {:induction false} UnterminatedLineIsForwarded(ls: seq<string>, tail: string)
    requires NewlineFree(tail) && forall l | l in ls :: NewlineFree(l)
    ensures FramesOf(Unlines(ls) + tail) == Trimmed(if tail == "" then ls else ls + [tail])
  {
    LinesOfUnlines(ls, tail);
    JoinIsTrimmed(ls, tail);
  }

  /** The child's lines arrive as exactly those frames, precisely when none ends with whitespace. */
  lemma {:induction false} LinesArriveIff(ls: seq<string>)
    requires forall l | l in ls :: NewlineFree(l)
    ensures FramesOf(Unlines(ls)) == ls <==> forall l | l in ls :: TrimEnd(l) == l
  {
    assert Unlines(ls) + "" == Unlines(ls);
    UnterminatedLineIsForwarded(ls, "");
    if forall l | l in ls :: TrimEnd(l) == l {
      assert Trimmed(ls) == ls;
    }
  }

  /** Frames never contain a newline nor end in whitespace, whatever the child prints. */
  lemma {:induction false} FramesAreClean(out: string)
    ensures forall f | f in FramesOf(out) :: NewlineFree(f) && TrimEnd(f) == f
  {
    LinesAreNewlineFree(out);
    JoinIsTrimmed(LinesOf(out), TailOf(out));
    TrimmedAreClean(if TailOf(out) == "" then LinesOf(out) else LinesOf(out) + [TailOf(out)]);
  }

  lemma {:induction false} TrimmedAreClean(ls: seq<string>)
    requires forall l | l in ls :: NewlineFree(l)
    ensures forall f | f in Trimmed(ls) :: NewlineFree(f) && TrimEnd(f) == f
  {
    forall f | f in Trimmed(ls)
      ensures NewlineFree(f) && TrimEnd(f) == f
    {
      var i :| 0 <= i < |ls| && f == Trimmed(ls)[i];
      assert ls[i] in ls;
      TrimEndIsClean(ls[i]);
    }
  }

  lemma {:induction false} TrimEndIsClean(l: string)
    requires NewlineFree(l)
    ensures NewlineFree(TrimEnd(l)) && TrimEnd(TrimEnd(l)) == TrimEnd(l)
  {
  }

  /** A child that echoes its input returns every frame unchanged, precisely when no frame contains
      a newline or ends in whitespace. */
  lemma {:induction false} EchoRoundTripIff(texts: seq<string>)
    ensures FramesOf(Wire(texts)) == texts <==> forall t | t in texts :: NewlineFree(t) && TrimEnd(t) == t
  {
    FramesAreClean(Wire(texts));
    if forall t | t in texts :: NewlineFree(t) && TrimEnd(t) == t {
      WireIsUnlines(texts);
      LinesArriveIff(texts);
    }
  }

  /** The child's stdout: what it holds, and whether it ends properly or in a read error (an I/O
      failure or a line that is not UTF-8). */
  class Stdout {
    var pending: string
    const breaks: bool

    constructor (text: string, breaks: bool)
      ensures pending == text && this.breaks == breaks
    {
      pending := text;
      this.breaks := breaks;
    }

    /** Reads through the next newline or to the end; `None` is a read error. */
    method ReadLine() returns (line: Option<string>)
      modifies this
      ensures old(FindNewline(pending) < |pending|) ==>
                line == Some(old(pending[..FindNewline(pending) + 1])) && pending == old(pending[FindNewline(pending) + 1..])
      ensures old(FindNewline(pending) == |pending|) ==>
                line == (if breaks then None else Some(old(pending))) && pending == ""
    {
      var i := FindNewline(pending);
      if i < |pending| {
        line := Some(pending[..i + 1]);
        pending := pending[i + 1..];
      } else {
        line := if breaks then None else Some(pending);
        pending := "";
      }
    }
  }

  /** The frames of a text, from those of what follows its first line. */
  lemma {:induction false} FramesCons(out: string, breaks: bool)
    ensures var i := FindNewline(out);
            if i < |out| then FramesFrom(out, breaks) == [TrimEnd(out[..i + 1])] + FramesFrom(out[i + 1..], breaks)
            else FramesFrom(out, breaks) == if breaks || out == "" then [] else [TrimEnd(out)]
  {
    var i := FindNewline(out);
    FindNewlineMeans(out);
    if i < |out| {
      TrimLine(out, i);
      var rest := out[i + 1..];
      assert LinesOf(out) == [out[..i]] + LinesOf(rest) && TailOf(out) == TailOf(rest) by { SplitCons(out); }
      JoinCons(out[..i], LinesOf(rest), TailOf(rest), breaks);
    } else {
      assert out[..i] == out;
      NoNewline(out);
    }
  }

  lemma {:induction false} JoinCons(l: string, ls: seq<string>, tail: string, breaks: bool)
    ensures Join([l] + ls, tail, breaks) == [TrimEnd(l)] + Join(ls, tail, breaks)
  {
    assert Trimmed([l] + ls) == [TrimEnd(l)] + Trimmed(ls);
  }

  lemma {:induction false} SplitCons(out: string)
    requires FindNewline(out) < |out|
    ensures var i := FindNewline(out);
      LinesOf(out) == [out[..i]] + LinesOf(out[i + 1..]) && TailOf(out) == TailOf(out[i + 1..])
  {
  }

  lemma {:induction false} TrimLine(out: string, i: nat)
    requires i < |out| && out[i] == '\n'
    ensures TrimEnd(out[..i + 1]) == TrimEnd(out[..i])
  {
    TrimEndTerminator(out[..i]);
    assert out[..i] + "\n" == out[..i + 1];
  }

  datatype Reading = Eof | Broken | Line(text: string)

  /** One read, in terms of the frames still to come. */
  method NextLine(stdout: Stdout) returns (r: Reading)
    modifies stdout
    ensures r.Line? ==>
      && old(FramesFrom(stdout.pending, stdout.breaks)) == [TrimEnd(r.text)] + FramesFrom(stdout.pending, stdout.breaks)
      && |stdout.pending| < |old(stdout.pending)|
    ensures !r.Line? ==> old(FramesFrom(stdout.pending, stdout.breaks)) == [] && r.Broken? == stdout.breaks
  {
    FramesCons(stdout.pending, stdout.breaks);
    var line := stdout.ReadLine();
    if line.None? {
      return Broken;
    }
    if line.value == "" {
      return Eof;
    }
    assert NewlineFree("");
    FramesCons("", stdout.breaks);
    return Line(line.value);
  }

  /** The tunnel's sending half, which may start refusing after `limit` frames. */
  class FrameSink {
    var sent: seq<string>
    const limit: Option<nat>

    predicate Valid()
      reads this
    {
      Within(sent, limit)
    }

    constructor (limit: Option<nat>)
      ensures Valid() && sent == [] && this.limit == limit
    {
      this.limit := limit;
      sent := [];
    }

    method Send(f: string) returns (ok: bool)
      requires Valid()
      modifies this
      ensures Valid() && sent == Clip(old(sent) + [f], limit) && ok == Within(old(sent) + [f], limit)
    {
      ok := Within(sent + [f], limit);
      if ok {
        sent := sent + [f];
      } else {
        assert (sent + [f])[..|sent|] == sent;
      }
    }
  }

  /** All of stdout's frames are sent in order, or as many as the sink accepts. */
  method StdoutToWs(stdout: Stdout, sink: FrameSink) returns (exit: Exit)
    requires sink.Valid()
    modifies stdout, sink
    ensures sink.Valid()
    ensures var goal := old(sink.sent) + old(FramesFrom(stdout.pending, stdout.breaks));
      && sink.sent == Clip(goal, sink.limit)
      && exit == if !Within(goal, sink.limit) then WsWriteFailed
                 else if stdout.breaks then StdoutReadFailed
                 else ProcessExited
  {
    ghost var left := FramesFrom(stdout.pending, stdout.breaks);
    ghost var goal := sink.sent + left;
    while true
      invariant sink.Valid() && sink.sent + left == goal
      invariant left == FramesFrom(stdout.pending, stdout.breaks)
      decreases |stdout.pending|
    {
      var r := NextLine(stdout);
      match r
      case Eof => return ProcessExited;
      case Broken => return StdoutReadFailed;
      case Line(text) =>
        ghost var all := sink.sent + [TrimEnd(text)];
        left := left[1..];
        assert goal == all + left;
        var ok := sink.Send(TrimEnd(text));
        if !ok {
          ClipAppend(all, left, sink.limit);
          return WsWriteFailed;
        }
    }
  }
}
