/** Whitespace trimming and line splitting as the line-based protocols here use them. */
module TextLines {
  /** The Unicode White_Space property. */
  predicate IsWhitespace(c: char)
  {
    var v := c as int;
    || 0x09 <= v <= 0x0D || v == 0x20 || v == 0x85 || v == 0xA0 || v == 0x1680
    || 0x2000 <= v <= 0x200A || v == 0x2028 || v == 0x2029 || v == 0x202F || v == 0x205F || v == 0x3000
  }

  /** All 25 of them. */
  const WHITESPACE: string := "\t\n\U{B}\U{C}\r \U{85}\U{A0}\U{1680}\U{2000}\U{2001}\U{2002}\U{2003}\U{2004}"
    + "\U{2005}\U{2006}\U{2007}\U{2008}\U{2009}\U{200A}\U{2028}\U{2029}\U{202F}\U{205F}\U{3000}"

  lemma {:induction false} WhitespaceIs(c: char)
    ensures IsWhitespace(c) <==> c in WHITESPACE
  {
  }

  function TrimEnd(s: string): (r: string)
    ensures r <= s && (r != "" ==> !IsWhitespace(r[|r| - 1]))
    ensures r == s <==> s == "" || !IsWhitespace(s[|s| - 1])
  {
    if s != "" && IsWhitespace(s[|s| - 1]) then TrimEnd(s[..|s| - 1]) else s
  }

  function TrimStart(s: string): (r: string)
    ensures |r| <= |s| && r == s[|s| - |r|..] && (r != "" ==> !IsWhitespace(r[0]))
  {
    if s != "" && IsWhitespace(s[0]) then TrimStart(s[1..]) else s
  }

  function Trim(s: string): string
  {
    TrimEnd(TrimStart(s))
  }

  predicate NewlineFree(s: string)
  {
    '\n' !in s
  }

  /** Position of the first newline, or the length if there is none. */
  function FindNewline(s: string): (i: nat)
    ensures i <= |s|
  {
    if s == "" || s[0] == '\n' then 0 else 1 + FindNewline(s[1..])
  }

  lemma {:induction false} FindNewlineMeans(s: string)
    ensures var i := FindNewline(s); NewlineFree(s[..i]) && (i < |s| ==> s[i] == '\n')
  {
    if s != "" && s[0] != '\n' {
      FindNewlineMeans(s[1..]);
      var i := FindNewline(s);
      assert s[..i] == [s[0]] + s[1..][..i - 1];
    }
  }

  /** The newline-terminated lines of `s`, without their terminators. */
  function LinesOf(s: string): (ls: seq<string>)
    decreases |s|
  {
    var i := FindNewline(s);
    if i == |s| then [] else [s[..i]] + LinesOf(s[i + 1..])
  }

  /** What follows the last newline. */
  function TailOf(s: string): (t: string)
    decreases |s|
  {
    var i := FindNewline(s);
    if i == |s| then s else TailOf(s[i + 1..])
  }

  /** The text consisting of the given lines, each terminated. */
  function Unlines(ls: seq<string>): string
  {
    if ls == [] then "" else ls[0] + "\n" + Unlines(ls[1..])
  }

  lemma {:induction false} FindNewlineAt(a: string, b: string)
    requires NewlineFree(a)
    ensures FindNewline(a + "\n" + b) == |a|
  {
    var s := a + "\n" + b;
    if a != "" {
      assert s[1..] == a[1..] + "\n" + b && s[0] == a[0] && a[0] in a;
      FindNewlineAt(a[1..], b);
    }
  }

  lemma {:induction false} NoNewline(s: string)
    requires NewlineFree(s)
    ensures FindNewline(s) == |s| && LinesOf(s) == [] && TailOf(s) == s
  {
    if s != "" {
      assert s[0] in s;
      NoNewline(s[1..]);
    }
  }

  lemma {:induction false} SplitFirst(a: string, b: string)
    requires NewlineFree(a)
    ensures LinesOf(a + "\n" + b) == [a] + LinesOf(b) && TailOf(a + "\n" + b) == TailOf(b)
  {
    FindNewlineAt(a, b);
    assert (a + "\n" + b)[..|a|] == a;
    assert (a + "\n" + b)[|a| + 1..] == b;
  }

  /** Lines never contain a newline, nor does the tail. */
  lemma {:induction false} LinesAreNewlineFree(s: string)
    ensures forall l | l in LinesOf(s) :: NewlineFree(l)
    ensures NewlineFree(TailOf(s))
    decreases |s|
  {
    var i := FindNewline(s);
    FindNewlineMeans(s);
    if i < |s| {
      LinesAreNewlineFree(s[i + 1..]);
    } else {
      assert s[..i] == s;
    }
  }

  /** Appending text only affects what comes after the last newline. */
  lemma {:induction false} SplitAppend(s: string, t: string)
    ensures LinesOf(s + t) == LinesOf(s) + LinesOf(TailOf(s) + t)
    ensures TailOf(s + t) == TailOf(TailOf(s) + t)
    decreases |s|
  {
    var i := FindNewline(s);
    FindNewlineMeans(s);
    if i < |s| {
      SplitAppend(s[i + 1..], t);
      SplitAppendFirst(s[..i], s[i + 1..], t);
      CutAt(s, i);
    }
  }

  lemma {:induction false} SplitAppendFirst(a: string, b: string, t: string)
    requires NewlineFree(a)
    requires LinesOf(b + t) == LinesOf(b) + LinesOf(TailOf(b) + t) && TailOf(b + t) == TailOf(TailOf(b) + t)
    ensures var s := a + "\n" + b;
      LinesOf(s + t) == LinesOf(s) + LinesOf(TailOf(s) + t) && TailOf(s + t) == TailOf(TailOf(s) + t)
  {
    var s, st := a + "\n" + b, a + "\n" + (b + t);
    assert LinesOf(s) == [a] + LinesOf(b) && TailOf(s) == TailOf(b) by { SplitFirst(a, b); }
    assert LinesOf(st) == [a] + LinesOf(b + t) && TailOf(st) == TailOf(b + t) by { SplitFirst(a, b + t); }
    JoinAppend(a, b, t);
    Reassociate(a, LinesOf(b), LinesOf(TailOf(b) + t));
  }

  lemma {:induction false} CutAt(s: string, i: nat)
    requires i < |s| && s[i] == '\n'
    ensures s == s[..i] + "\n" + s[i + 1..]
  {
  }

  lemma {:induction false} JoinAppend(a: string, b: string, t: string)
    ensures (a + "\n" + b) + t == a + "\n" + (b + t)
  {
  }

  lemma {:induction false} Reassociate(a: string, x: seq<string>, y: seq<string>)
    ensures [a] + (x + y) == ([a] + x) + y
  {
  }

  /** Splitting a text made of terminated newline-free lines gives those lines back. */
  lemma {:induction false} LinesOfUnlines(ls: seq<string>, tail: string)
    requires NewlineFree(tail) && forall l | l in ls :: NewlineFree(l)
    ensures LinesOf(Unlines(ls) + tail) == ls && TailOf(Unlines(ls) + tail) == tail
  {
    if ls == [] {
      assert Unlines(ls) + tail == tail;
      NoNewline(tail);
    } else {
      LinesOfUnlines(ls[1..], tail);
      assert Unlines(ls) + tail == ls[0] + "\n" + (Unlines(ls[1..]) + tail);
      SplitFirst(ls[0], Unlines(ls[1..]) + tail);
    }
  }

  /** A text is its lines, terminated, followed by its tail. */
  lemma {:induction false} Rebuild(s: string)
    ensures s == Unlines(LinesOf(s)) + TailOf(s)
    decreases |s|
  {
    var i := FindNewline(s);
    FindNewlineMeans(s);
    if i < |s| {
      CutAt(s, i);
      Rebuild(s[i + 1..]);
      RebuildFirst(s[..i], LinesOf(s[i + 1..]), TailOf(s[i + 1..]));
    }
  }

  lemma {:induction false} RebuildFirst(a: string, ls: seq<string>, t: string)
    ensures Unlines([a] + ls) + t == a + "\n" + (Unlines(ls) + t)
  {
    assert ([a] + ls)[1..] == ls;
    JoinAppend(a, Unlines(ls), t);
  }

  lemma {:induction false} UnlinesAppend(a: seq<string>, b: seq<string>)
    ensures Unlines(a + b) == Unlines(a) + Unlines(b)
  {
    if a == [] {
      assert a + b == b;
    } else {
      assert (a + b)[1..] == a[1..] + b && (a + b)[0] == a[0];
      UnlinesAppend(a[1..], b);
    }
  }
}
