/**
 * Reading a text that arrives in chunks, line by line, with a stop line that breaks only the loop over
 * the lines at hand. Generic in what a line means.
 */
module ChunkedLines {
  import opened Prelude
  import opened TextLines

  /** Where to start, what each line contributes, and which lines break the inner loop. */
  datatype Reader<!A> = Reader(start: A, absorb: (A, string) -> A, isDone: string -> bool)

  /** A stop line contributes nothing itself. */
  ghost predicate Proper<A(!new)>(rd: Reader<A>)
  {
    forall a, l | rd.isDone(l) :: rd.absorb(a, l) == a
  }

  /** The reference meaning of a list of lines: absorb each in turn. */
  function Fold<A>(a: A, ls: seq<string>, rd: Reader<A>): A
    decreases |ls|
  {
    if ls == [] then a else Fold(rd.absorb(a, ls[0]), ls[1..], rd)
  }

  lemma {:induction false} FoldAppend<A>(a: A, x: seq<string>, y: seq<string>, rd: Reader<A>)
    ensures Fold(a, x + y, rd) == Fold(Fold(a, x, rd), y, rd)
    decreases |x|
  {
    if x == [] {
      assert x + y == y;
    } else {
      assert (x + y)[1..] == x[1..] + y && (x + y)[0] == x[0];
      FoldAppend(rd.absorb(a, x[0]), x[1..], y, rd);
    }
  }

  // ---------- The chunk loop ----------

  /** The inner loop: take lines off the buffer until none is complete or a stop line breaks it. */
  function Drain<A>(a: A, buffer: string, rd: Reader<A>): (r: (A, string))
    ensures |r.1| <= |buffer|
    decreases |buffer|
  {
    var i := FindNewline(buffer);
    if i == |buffer| then (a, buffer)
    else
      var line, rest := buffer[..i], buffer[i + 1..];
      if rd.isDone(line) then (a, rest) else Drain(rd.absorb(a, line), rest, rd)
  }

  lemma {:induction false} DrainStep<A>(a: A, buffer: string, i: nat, rd: Reader<A>)
    requires i == FindNewline(buffer) < |buffer|
    ensures var line, rest := buffer[..i], buffer[i + 1..];
      Drain(a, buffer, rd) == if rd.isDone(line) then (a, rest) else Drain(rd.absorb(a, line), rest, rd)
  {
  }

  /** The outer loop: the buffer keeps what a stop line left behind until another chunk arrives. */
  function Process<A>(a: A, buffer: string, chunks: seq<string>, rd: Reader<A>): (r: (A, string))
    decreases |chunks|
  {
    if chunks == [] then (a, buffer)
    else
      var (a1, b1) := Drain(a, buffer + chunks[0], rd);
      Process(a1, b1, chunks[1..], rd)
  }

  /** What the client makes of a stream delivered in these chunks. */
  function Outcome<A>(chunks: seq<string>, rd: Reader<A>): A
  {
    Process(rd.start, "", chunks, rd).0
  }

  /** How many leading lines one run of the inner loop consumes. */
  function Consumed<A>(ls: seq<string>, rd: Reader<A>): (k: nat)
    ensures k <= |ls|
    ensures k < |ls| ==> k > 0 && rd.isDone(ls[k - 1])
    ensures ls != [] ==> k > 0
    ensures forall i | 0 <= i < k - 1 :: !rd.isDone(ls[i])
  {
    if ls == [] then 0 else if rd.isDone(ls[0]) then 1 else 1 + Consumed(ls[1..], rd)
  }

  /** What one line in front adds to what the inner loop consumes and absorbs. */
  lemma {:induction false} ConsumedCons<A(!new)>(a: A, line: string, ls: seq<string>, rd: Reader<A>)
    requires Proper(rd)
    ensures var all := [line] + ls;
      var k := Consumed(all, rd);
      if rd.isDone(line) then k == 1 && Fold(a, all[..1], rd) == a && all[1..] == ls
      else
        var n := Consumed(ls, rd);
        k == n + 1 && Fold(a, all[..k], rd) == Fold(rd.absorb(a, line), ls[..n], rd) && all[k..] == ls[n..]
  {
    var all := [line] + ls;
    assert all[1..] == ls;
    if rd.isDone(line) {
      assert all[..1] == [line] && [line][1..] == [];
    } else {
      var n := Consumed(ls, rd);
      assert all[..n + 1] == [line] + ls[..n];
      assert ([line] + ls[..n])[1..] == ls[..n];
    }
  }

  lemma {:induction false} SplitAtNewline(buffer: string, i: nat)
    requires i == FindNewline(buffer) < |buffer|
    ensures LinesOf(buffer) == [buffer[..i]] + LinesOf(buffer[i + 1..]) && TailOf(buffer) == TailOf(buffer[i + 1..])
  {
  }

  lemma {:induction false} DrainMeaning<A(!new)>(a: A, buffer: string, rd: Reader<A>)
    requires Proper(rd)
    ensures Drained(a, LinesOf(buffer), TailOf(buffer), Drain(a, buffer, rd), rd)
    decreases |buffer|
  {
    var i := FindNewline(buffer);
    if i < |buffer| {
      var line, rest := buffer[..i], buffer[i + 1..];
      DrainStep(a, buffer, i, rd);
      SplitAtNewline(buffer, i);
      ConsumedCons(a, line, LinesOf(rest), rd);
      if !rd.isDone(line) {
        DrainMeaning(rd.absorb(a, line), rest, rd);
      }
    } else {
      FindNewlineMeans(buffer);
      assert buffer[..i] == buffer;
      NoNewline(buffer);
    }
  }

  /** One run of the inner loop over a buffer with these lines and this tail ends in `r`. */
  ghost predicate Drained<A>(a: A, ls: seq<string>, tail: string, r: (A, string), rd: Reader<A>)
  {
    var k := Consumed(ls, rd);
    r.0 == Fold(a, ls[..k], rd) && LinesOf(r.1) == ls[k..] && TailOf(r.1) == tail
  }

  /** A prefix of the lines is absorbed, all of them or up to a stop line, and the rest is left. */
  ghost predicate AbsorbedLines<A>(ls: seq<string>, m: nat, a: A, left: seq<string>, rd: Reader<A>)
  {
    && m <= |ls| && a == Fold(rd.start, ls[..m], rd) && left == ls[m..]
    && (m < |ls| ==> m > 0 && rd.isDone(ls[m - 1]))
  }

  /** After any chunks: what was absorbed, and what the buffer keeps. */
  ghost predicate Absorbed<A>(text: string, m: nat, a: A, buffer: string, rd: Reader<A>)
  {
    AbsorbedLines(LinesOf(text), m, a, LinesOf(buffer), rd) && TailOf(buffer) == TailOf(text)
  }

  /** Absorbing more lines, when the absorbed ones are still the first. */
  lemma {:induction false} LinesStep<A(!new)>(
      ls: seq<string>, ls': seq<string>, m: nat, a: A, left: seq<string>, left': seq<string>, tail: string, r: (A, string), rd: Reader<A>)
    requires AbsorbedLines(ls, m, a, left, rd) && m <= |ls'| && ls'[..m] == ls[..m] && left' == ls'[m..]
    requires Drained(a, left', tail, r, rd)
    ensures AbsorbedLines(ls', m + Consumed(left', rd), r.0, LinesOf(r.1), rd)
  {
    var k := Consumed(left', rd);
    assert ls'[..m + k] == ls[..m] + left'[..k];
    FoldAppend(rd.start, ls[..m], left'[..k], rd);
    assert left'[k..] == ls'[m + k..];
    assert m + k < |ls'| ==> left'[k - 1] == ls'[m + k - 1];
  }

  lemma {:induction false} ChunkStep<A(!new)>(text: string, m: nat, a: A, buffer: string, chunk: string, rd: Reader<A>)
    returns (m': nat)
    requires Proper(rd)
    requires Absorbed(text, m, a, buffer, rd)
    ensures var r := Drain(a, buffer + chunk, rd); Absorbed(text + chunk, m', r.0, r.1, rd)
  {
    var r := Drain(a, buffer + chunk, rd);
    var left' := LinesOf(buffer + chunk);
    LinesExtend(text, m, buffer, chunk);
    DrainMeaning(a, buffer + chunk, rd);
    LinesStep(LinesOf(text), LinesOf(text + chunk), m, a, LinesOf(buffer), left', TailOf(buffer + chunk), r, rd);
    m' := m + Consumed(left', rd);
  }

  /** A buffer that holds the unabsorbed lines of a text still does when both are extended. */
  lemma {:induction false} LinesExtend(text: string, m: nat, buffer: string, chunk: string)
    requires m <= |LinesOf(text)| && LinesOf(buffer) == LinesOf(text)[m..] && TailOf(buffer) == TailOf(text)
    ensures m <= |LinesOf(text + chunk)| && LinesOf(text + chunk)[..m] == LinesOf(text)[..m]
    ensures LinesOf(buffer + chunk) == LinesOf(text + chunk)[m..] && TailOf(buffer + chunk) == TailOf(text + chunk)
  {
    SplitAppend(text, chunk);
    SplitAppend(buffer, chunk);
    DropAppend(LinesOf(text), LinesOf(TailOf(text) + chunk), m);
  }

  lemma {:induction false} DropAppend(x: seq<string>, y: seq<string>, m: nat)
    requires m <= |x|
    ensures (x + y)[m..] == x[m..] + y && (x + y)[..m] == x[..m]
  {
  }

  lemma {:induction false} ProcessStep<A>(a: A, buffer: string, chunks: seq<string>, rd: Reader<A>)
    requires chunks != []
    ensures var r := Drain(a, buffer + chunks[0], rd);
      Process(a, buffer, chunks, rd) == Process(r.0, r.1, chunks[1..], rd)
  {
  }

  lemma {:induction false} JoinChunk(text: string, chunks: seq<string>)
    requires chunks != []
    ensures (text + chunks[0]) + Concat(chunks[1..]) == text + Concat(chunks)
  {
  }

  lemma {:induction false} ProcessMeaning<A(!new)>(text: string, m: nat, a: A, buffer: string, chunks: seq<string>, rd: Reader<A>)
    returns (m': nat)
    requires Proper(rd)
    requires Absorbed(text, m, a, buffer, rd)
    ensures var r := Process(a, buffer, chunks, rd); Absorbed(text + Concat(chunks), m', r.0, r.1, rd)
    decreases |chunks|
  {
    if chunks == [] {
      m' := m;
      assert text + Concat(chunks) == text;
    } else {
      var r := Drain(a, buffer + chunks[0], rd);
      var m1 := ChunkStep(text, m, a, buffer, chunks[0], rd);
      m' := ProcessMeaning(text + chunks[0], m1, r.0, r.1, chunks[1..], rd);
      ProcessStep(a, buffer, chunks, rd);
      JoinChunk(text, chunks);
    }
  }

  /** Every chunking absorbs the lines of the text up to some stop line, or all of them. */
  lemma {:induction false} OutcomeIsAPrefix<A(!new)>(chunks: seq<string>, rd: Reader<A>) returns (m: nat)
    requires Proper(rd)
    ensures var ls := LinesOf(Concat(chunks));
      && m <= |ls| && Outcome(chunks, rd) == Fold(rd.start, ls[..m], rd)
      && (m < |ls| ==> m > 0 && rd.isDone(ls[m - 1]))
  {
    assert Absorbed("", 0, rd.start, "", rd);
    m := ProcessMeaning("", 0, rd.start, "", chunks, rd);
    assert "" + Concat(chunks) == Concat(chunks);
  }

  // ---------- When chunking does not matter ----------

  /** Nothing after a stop line changes the result. */
  ghost predicate Settled<A>(ls: seq<string>, rd: Reader<A>)
  {
    forall d | 0 <= d < |ls| && rd.isDone(ls[d]) ::
      Fold(rd.start, ls[..d + 1], rd) == Fold(rd.start, ls, rd)
  }

  /** Content, callbacks, usage, finish reason and tool calls depend only on the text. */
  ghost predicate ChunkIndependent<A>(text: string, rd: Reader<A>)
  {
    forall chunks | Concat(chunks) == text :: Outcome(chunks, rd) == Fold(rd.start, LinesOf(text), rd)
  }

  function LineChunks(ls: seq<string>): (r: seq<string>)
  {
    if ls == [] then [] else [ls[0] + "\n"] + LineChunks(ls[1..])
  }

  lemma {:induction false} ConcatLineChunks(ls: seq<string>)
    ensures Concat(LineChunks(ls)) == Unlines(ls)
  {
    if ls != [] {
      ConcatLineChunks(ls[1..]);
      assert ([ls[0] + "\n"] + LineChunks(ls[1..]))[1..] == LineChunks(ls[1..]);
    }
  }

  lemma {:induction false} ProcessAppend<A>(a: A, buffer: string, x: seq<string>, y: seq<string>, rd: Reader<A>)
    ensures Process(a, buffer, x + y, rd)
         == var (a1, b1) := Process(a, buffer, x, rd); Process(a1, b1, y, rd)
    decreases |x|
  {
    if x == [] {
      assert x + y == y;
    } else {
      assert (x + y)[1..] == x[1..] + y && (x + y)[0] == x[0];
      var (a1, b1) := Drain(a, buffer + x[0], rd);
      ProcessAppend(a1, b1, x[1..], y, rd);
    }
  }

  /** Fed line by line, the client absorbs every line, stop lines included. */
  lemma {:induction false} LineByLine<A(!new)>(a: A, ls: seq<string>, rd: Reader<A>)
    requires Proper(rd)
    requires forall l | l in ls :: NewlineFree(l)
    ensures Process(a, "", LineChunks(ls), rd) == (Fold(a, ls, rd), "")
    decreases |ls|
  {
    if ls != [] {
      var first := ls[0] + "\n";
      OneLine(a, ls[0], rd);
      assert "" + first == first;
      assert ([first] + LineChunks(ls[1..]))[1..] == LineChunks(ls[1..]);
      LineByLine(rd.absorb(a, ls[0]), ls[1..], rd);
    }
  }

  lemma {:induction false} OneLine<A(!new)>(a: A, l: string, rd: Reader<A>)
    requires Proper(rd)
    requires NewlineFree(l)
    ensures Drain(a, l + "\n", rd) == (rd.absorb(a, l), "")
  {
    assert l + "\n" == l + "\n" + "";
    FindNewlineAt(l, "");
    assert (l + "\n")[..|l|] == l && (l + "\n")[|l| + 1..] == "";
    assert FindNewline("") == 0;
  }

  /** A chunking that stops at the stop line on line `d`: the lines before it singly, the rest at once. */
  lemma {:induction false} StopAtDone<A(!new)>(text: string, d: nat, rd: Reader<A>) returns (chunks: seq<string>)
    requires Proper(rd)
    requires d < |LinesOf(text)| && rd.isDone(LinesOf(text)[d])
    ensures Concat(chunks) == text
    ensures Outcome(chunks, rd) == Fold(rd.start, LinesOf(text)[..d + 1], rd)
  {
    var ls, tail := LinesOf(text), TailOf(text);
    LinesAreNewlineFree(text);
    var rest := Unlines(ls[d..]) + tail;
    chunks := LineChunks(ls[..d]) + [rest];
    SplitChunks(text, d);
    LinesOfUnlines(ls[d..], tail);
    assert LinesOf(rest)[0] == ls[d];
    StopOutcome(ls[..d], rest, rd);
    FoldStop(ls, d, rd);
  }

  lemma {:induction false} StopOutcome<A(!new)>(before: seq<string>, rest: string, rd: Reader<A>)
    requires Proper(rd)
    requires (forall l | l in before :: NewlineFree(l)) && LinesOf(rest) != [] && rd.isDone(LinesOf(rest)[0])
    ensures Outcome(LineChunks(before) + [rest], rd) == Fold(rd.start, before, rd)
  {
    ProcessAppend(rd.start, "", LineChunks(before), [rest], rd);
    LineByLine(rd.start, before, rd);
    LastChunk(Fold(rd.start, before, rd), rest, rd);
  }

  lemma {:induction false} FoldStop<A(!new)>(ls: seq<string>, d: nat, rd: Reader<A>)
    requires Proper(rd)
    requires d < |ls| && rd.isDone(ls[d])
    ensures Fold(rd.start, ls[..d + 1], rd) == Fold(rd.start, ls[..d], rd)
  {
    assert ls[..d + 1] == ls[..d] + [ls[d]];
    FoldAppend(rd.start, ls[..d], [ls[d]], rd);
    assert [ls[d]][1..] == [];
  }

  lemma {:induction false} LastChunk<A(!new)>(a: A, rest: string, rd: Reader<A>)
    requires Proper(rd)
    requires LinesOf(rest) != [] && rd.isDone(LinesOf(rest)[0])
    ensures Process(a, "", [rest], rd).0 == a
  {
    assert "" + rest == rest;
    assert [rest][1..] == [];
    var i := FindNewline(rest);
    assert LinesOf(rest)[0] == rest[..i];
  }

  lemma {:induction false} SplitChunks(text: string, d: nat)
    requires d <= |LinesOf(text)|
    ensures Concat(LineChunks(LinesOf(text)[..d]) + [Unlines(LinesOf(text)[d..]) + TailOf(text)]) == text
  {
    var ls, tail := LinesOf(text), TailOf(text);
    var rest := Unlines(ls[d..]) + tail;
    ConcatSnoc(LineChunks(ls[..d]), rest);
    ConcatLineChunks(ls[..d]);
    RebuildAt(text, d);
  }

  lemma {:induction false} ConcatSnoc(parts: seq<string>, last: string)
    ensures Concat(parts + [last]) == Concat(parts) + last
  {
    ConcatAppend(parts, [last]);
    assert [last][1..] == [];
    assert last + [] == last;
  }

  lemma {:induction false} RebuildAt(text: string, d: nat)
    requires d <= |LinesOf(text)|
    ensures Unlines(LinesOf(text)[..d]) + (Unlines(LinesOf(text)[d..]) + TailOf(text)) == text
  {
    Rebuild(text);
    UnlinesSplit(LinesOf(text), d, TailOf(text));
  }

  lemma {:induction false} UnlinesSplit(ls: seq<string>, d: nat, tail: string)
    requires d <= |ls|
    ensures Unlines(ls[..d]) + (Unlines(ls[d..]) + tail) == Unlines(ls) + tail
  {
    var front, back := ls[..d], ls[d..];
    assert front + back == ls;
    UnlinesAppend(front, back);
    Associate(Unlines(front), Unlines(back), tail);
  }

  /** How a stream is cut into chunks is invisible if and only if nothing after a stop line matters. */
  lemma {:induction false} ChunkingInvisibleIff<A(!new)>(text: string, rd: Reader<A>)
    requires Proper(rd)
    ensures ChunkIndependent(text, rd) <==> Settled(LinesOf(text), rd)
  {
    var ls := LinesOf(text);
    if Settled(ls, rd) {
      forall chunks | Concat(chunks) == text ensures Outcome(chunks, rd) == Fold(rd.start, ls, rd) {
        var m := OutcomeIsAPrefix(chunks, rd);
        if m == |ls| {
          assert ls[..m] == ls;
        }
      }
    }
    if ChunkIndependent(text, rd) {
      forall d | 0 <= d < |ls| && rd.isDone(ls[d])
        ensures Fold(rd.start, ls[..d + 1], rd) == Fold(rd.start, ls, rd)
      {
        var chunks := StopAtDone(text, d, rd);
      }
    }
  }

  /** Chunking does show whenever a line that matters follows a stop line: the text has two outcomes. */
  lemma {:induction false} LineAfterStopShows<A(!new)>(stop: string, line: string, rd: Reader<A>) returns (chunks: seq<string>)
    requires Proper(rd)
    requires NewlineFree(stop) && NewlineFree(line) && rd.isDone(stop) && rd.absorb(rd.start, line) != rd.start
    ensures Concat(chunks) == Unlines([stop, line])
    ensures Outcome(chunks, rd) != Fold(rd.start, LinesOf(Unlines([stop, line])), rd)
  {
    var ls := [stop, line];
    var text := Unlines(ls);
    LinesOfUnlines(ls, "");
    assert text + "" == text;
    chunks := StopAtDone(text, 0, rd);
    FoldPair(stop, line, rd);
    assert ls[..1] == [stop];
  }

  lemma {:induction false} FoldPair<A>(x: string, y: string, rd: Reader<A>)
    ensures Fold(rd.start, [x], rd) == rd.absorb(rd.start, x)
    ensures Fold(rd.start, [x, y], rd) == rd.absorb(rd.absorb(rd.start, x), y)
  {
    assert [x][1..] == [] && [x, y][1..] == [y] && [y][1..] == [];
    var a := rd.absorb(rd.start, x);
    assert Fold(a, [y], rd) == Fold(rd.absorb(a, y), [], rd);
  }

  /** A line that contributes nothing. */
  ghost predicate Inert<A(!new)>(rd: Reader<A>, l: string)
  {
    forall a :: rd.absorb(a, l) == a
  }

  lemma {:induction false} SettledIfInertAfterStop<A(!new)>(ls: seq<string>, rd: Reader<A>)
    requires forall d, e | 0 <= d < e < |ls| && rd.isDone(ls[d]) :: Inert(rd, ls[e])
    ensures Settled(ls, rd)
  {
    forall d | 0 <= d < |ls| && rd.isDone(ls[d])
      ensures Fold(rd.start, ls[..d + 1], rd) == Fold(rd.start, ls, rd)
    {
      var rest := ls[d + 1..];
      assert ls == ls[..d + 1] + rest;
      FoldAppend(rd.start, ls[..d + 1], rest, rd);
      forall i | 0 <= i < |rest| ensures Inert(rd, rest[i]) {
        assert rest[i] == ls[d + 1 + i];
      }
      InertFold(Fold(rd.start, ls[..d + 1], rd), rest, rd);
    }
  }

  lemma {:induction false} InertFold<A(!new)>(a: A, ls: seq<string>, rd: Reader<A>)
    requires forall i | 0 <= i < |ls| :: Inert(rd, ls[i])
    ensures Fold(a, ls, rd) == a
    decreases |ls|
  {
    if ls != [] {
      assert Inert(rd, ls[0]);
      InertFold(a, ls[1..], rd);
    }
  }
}
