/** Lossy UTF-8 decoding, as a stream decoded chunk by chunk undergoes it: every maximal piece that
    cannot be part of a character becomes one replacement character. */
module Utf8 {
  import opened Prelude

  const REPLACEMENT: char := '\U{FFFD}'

  predicate Continuation(b: Byte)
  {
    0x80 <= b <= 0xBF
  }

  /** How many bytes a character that starts with `b` has; zero if none does. */
  function Width(b: Byte): nat
  {
    if b < 0x80 then 1
    else if 0xC2 <= b <= 0xDF then 2
    else if 0xE0 <= b <= 0xEF then 3
    else if 0xF0 <= b <= 0xF4 then 4
    else 0
  }

  /** The second bytes allowed after `b`: no overlong forms, no surrogates, nothing past U+10FFFF. */
  predicate SecondOk(b: Byte, c: Byte)
  {
    && Continuation(c)
    && (b == 0xE0 ==> c >= 0xA0) && (b == 0xED ==> c <= 0x9F)
    && (b == 0xF0 ==> c >= 0x90) && (b == 0xF4 ==> c <= 0x8F)
  }

  /** The `i`-th byte, counting from zero, fits a character that starts with `s[0]`. */
  predicate Fits(s: seq<Byte>, i: nat)
    requires s != [] && i > 0
  {
    i < |s| && if i == 1 then SecondOk(s[0], s[1]) else Continuation(s[i])
  }

  /** How many of the first bytes belong together: a whole character, or as much of one as there is. */
  function TokenLength(s: seq<Byte>): (n: nat)
    requires s != []
    ensures 1 <= n <= |s| && n <= 4
    ensures Width(s[0]) <= 1 ==> n == 1
    ensures Width(s[0]) > 1 ==> n <= Width(s[0])
    ensures forall i | 1 <= i < n :: Fits(s, i)
    ensures n < Width(s[0]) ==> !Fits(s, n)
  {
    var w := Width(s[0]);
    if w <= 1 || !Fits(s, 1) then 1
    else if w == 2 || !Fits(s, 2) then 2
    else if w == 3 || !Fits(s, 3) then 3
    else 4
  }

  /** The character the first bytes spell, or the replacement character if they spell none. */
  function TokenChar(s: seq<Byte>): char
    requires s != []
  {
    var n := TokenLength(s);
    if n < Width(s[0]) || Width(s[0]) == 0 then REPLACEMENT
    else if n == 1 then s[0] as char
    else if n == 2 then ((s[0] - 0xC0) * 0x40 + Low(s, 1)) as char
    else if n == 3 then
      assert Fits(s, 1) && Fits(s, 2);
      ((s[0] - 0xE0) * 0x1000 + Low(s, 1) * 0x40 + Low(s, 2)) as char
    else
      assert Fits(s, 1) && Fits(s, 2) && Fits(s, 3);
      ((s[0] - 0xF0) * 0x4_0000 + Low(s, 1) * 0x1000 + Low(s, 2) * 0x40 + Low(s, 3)) as char
  }

  /** The payload of a continuation byte. */
  function Low(s: seq<Byte>, i: nat): (r: int)
    requires s != [] && i > 0 && Fits(s, i)
    ensures 0 <= r < 0x40
  {
    s[i] - 0x80
  }

  function Lossy(s: seq<Byte>): string
    decreases |s|
  {
    if s == [] then "" else [TokenChar(s)] + Lossy(s[TokenLength(s)..])
  }

  /** Position `p` lies between two characters or invalid pieces of `s`. */
  predicate Boundary(s: seq<Byte>, p: nat)
    decreases |s|
  {
    p == 0 || (s != [] && TokenLength(s) <= p && Boundary(s[TokenLength(s)..], p - TokenLength(s)))
  }

  // ---- One cut ----

  /** What belongs together and lies before a cut is read alike on both sides of it. */
  lemma {:induction false} TokenBeforeCut(x: seq<Byte>, y: seq<Byte>)
    requires x != [] && TokenLength(x + y) <= |x|
    ensures TokenLength(x) == TokenLength(x + y) && TokenChar(x) == TokenChar(x + y)
  {
    var s, n := x + y, TokenLength(x + y);
    assert s[0] == x[0];
    assert forall i | 0 < i < |x| :: s[i] == x[i] && Fits(s, i) == Fits(x, i);
  }

  /** A cut in the middle leaves an incomplete piece before it and stray continuation bytes after. */
  lemma {:induction false} TokenAcrossCut(x: seq<Byte>, y: seq<Byte>)
    requires x != [] && TokenLength(x + y) > |x|
    ensures TokenLength(x) == |x| && TokenLength(x + y) - |x| <= |y|
    ensures forall i | 0 <= i < TokenLength(x + y) - |x| :: Continuation(y[i])
  {
    var s, n := x + y, TokenLength(x + y);
    assert s[0] == x[0];
    assert forall i | 0 < i < |x| :: s[i] == x[i] && Fits(s, i) && Fits(x, i);
    assert !Fits(x, |x|);
    forall i | 0 <= i < n - |x|
      ensures Continuation(y[i])
    {
      assert Fits(s, |x| + i) && s[|x| + i] == y[i];
    }
  }

  lemma {:induction false} StrayBytes(y: seq<Byte>, k: nat)
    requires k <= |y| && forall i | 0 <= i < k :: Continuation(y[i])
    ensures |Lossy(y)| == k + |Lossy(y[k..])|
    decreases k
  {
    if k == 0 {
      assert y[0..] == y;
    } else {
      assert Width(y[0]) == 0 && TokenLength(y) == 1;
      StrayBytes(y[1..], k - 1);
      assert y[1..][k - 1..] == y[k..];
    }
  }

  /** Decoding the two sides of a cut separately gives the same text if the cut is a boundary, and a
      longer one if it is not. */
  ghost predicate CutShows(x: seq<Byte>, y: seq<Byte>)
  {
    if Boundary(x + y, |x|) then Lossy(x) + Lossy(y) == Lossy(x + y) else |Lossy(x)| + |Lossy(y)| > |Lossy(x + y)|
  }

  lemma {:induction false} CutText(x: seq<Byte>, y: seq<Byte>)
    ensures CutShows(x, y)
    decreases |x|
  {
    if x == [] {
      assert x + y == y && Lossy(x) + Lossy(y) == Lossy(y);
    } else if TokenLength(x + y) <= |x| {
      CutText(x[TokenLength(x + y)..], y);
      CutBehind(x, y);
    } else {
      CutInside(x, y);
    }
  }

  lemma {:induction false} CutBehind(x: seq<Byte>, y: seq<Byte>)
    requires x != [] && TokenLength(x + y) <= |x| && CutShows(x[TokenLength(x + y)..], y)
    ensures CutShows(x, y)
  {
    var n, c := TokenLength(x + y), TokenChar(x + y);
    var rest := x[n..];
    TokenBeforeCut(x, y);
    assert (x + y)[n..] == rest + y;
    assert Lossy(x) == [c] + Lossy(rest) && Lossy(x + y) == [c] + Lossy(rest + y);
    Associate([c], Lossy(rest), Lossy(y));
  }

  lemma {:induction false} CutInside(x: seq<Byte>, y: seq<Byte>)
    requires x != [] && TokenLength(x + y) > |x|
    ensures CutShows(x, y)
  {
    var s, n := x + y, TokenLength(x + y);
    var k := n - |x|;
    TokenAcrossCut(x, y);
    assert |Lossy(y)| == k + |Lossy(y[k..])| by { StrayBytes(y, k); }
    assert |Lossy(s)| == 1 + |Lossy(y[k..])| by {
      LossyLength(s);
      assert s[n..] == y[k..];
    }
    assert |Lossy(x)| == 1 by {
      LossyLength(x);
      assert x[|x|..] == [];
    }
    assert !Boundary(s, |x|) by { InsideIsNoBoundary(s, |x|); }
  }

  lemma {:induction false} LossyLength(s: seq<Byte>)
    requires s != []
    ensures |Lossy(s)| == 1 + |Lossy(s[TokenLength(s)..])|
  {
  }

  lemma {:induction false} InsideIsNoBoundary(s: seq<Byte>, p: nat)
    requires s != [] && 0 < p < TokenLength(s)
    ensures !Boundary(s, p)
  {
  }

  // ---- Many cuts ----

  function Decoded(chunks: seq<seq<Byte>>): (r: seq<string>)
    ensures |r| == |chunks| && forall i | 0 <= i < |chunks| :: r[i] == Lossy(chunks[i])
  {
    seq(|chunks|, i requires 0 <= i < |chunks| => Lossy(chunks[i]))
  }

  /** No chunk ends inside a character or invalid piece of what is left of the stream. */
  predicate CleanCuts(chunks: seq<seq<Byte>>)
  {
    chunks == [] || (Boundary(Concat(chunks), |chunks[0]|) && CleanCuts(chunks[1..]))
  }

  /** Decoding chunk by chunk gives the text of the whole stream, precisely when no character is cut;
      otherwise it gives a longer one. */
  lemma {:induction false} ChunkwiseDecodingIff(chunks: seq<seq<Byte>>)
    ensures Concat(Decoded(chunks)) == Lossy(Concat(chunks)) <==> CleanCuts(chunks)
    ensures |Concat(Decoded(chunks))| >= |Lossy(Concat(chunks))|
    ensures !CleanCuts(chunks) ==> |Concat(Decoded(chunks))| > |Lossy(Concat(chunks))|
  {
    if chunks != [] {
      var x, rest := chunks[0], chunks[1..];
      ChunkwiseDecodingIff(rest);
      CutText(x, Concat(rest));
      assert Decoded(chunks)[1..] == Decoded(rest);
    }
  }

  /** ASCII can be cut anywhere. */
  lemma {:induction false} AsciiCutsAreClean(chunks: seq<seq<Byte>>)
    requires forall c | c in chunks :: forall b | b in c :: b < 0x80
    ensures CleanCuts(chunks)
  {
    if chunks != [] {
      assert chunks[0] in chunks && forall c | c in chunks[1..] :: c in chunks;
      AsciiCutsAreClean(chunks[1..]);
      AsciiPrefixIsBoundary(chunks[0], Concat(chunks[1..]));
    }
  }

  lemma {:induction false} AsciiPrefixIsBoundary(x: seq<Byte>, y: seq<Byte>)
    requires forall b | b in x :: b < 0x80
    ensures Boundary(x + y, |x|)
    decreases |x|
  {
    if x != [] {
      assert (x + y)[0] == x[0] && x[0] in x;
      assert (x + y)[1..] == x[1..] + y && forall b | b in x[1..] :: b in x;
      AsciiPrefixIsBoundary(x[1..], y);
    }
  }

  // ---- Encoding ----

  /** The UTF-8 form of a character. */
  function Encoded(c: char): (r: seq<Byte>)
    ensures 1 <= |r| <= 4
  {
    var v := c as int;
    if v < 0x80 then [v]
    else if v < 0x800 then [0xC0 + v / 0x40, 0x80 + v % 0x40]
    else if v < 0x1_0000 then [0xE0 + v / 0x1000, 0x80 + v / 0x40 % 0x40, 0x80 + v % 0x40]
    else [0xF0 + v / 0x4_0000, 0x80 + v / 0x1000 % 0x40, 0x80 + v / 0x40 % 0x40, 0x80 + v % 0x40]
  }

  function EncodedText(s: string): seq<Byte>
  {
    if s == "" then [] else Encoded(s[0]) + EncodedText(s[1..])
  }

  lemma {:induction false} TwoBytes(c: char, rest: seq<Byte>)
    requires 0x80 <= c as int < 0x800
    ensures var s := Encoded(c) + rest; TokenLength(s) == 2 && TokenChar(s) == c
  {
    var v := c as int;
    var h, l := v / 0x40, v % 0x40;
    var s := Encoded(c) + rest;
    assert s[0] == 0xC0 + h && s[1] == 0x80 + l && 2 <= h < 0x20 && v == h * 0x40 + l;
    assert Fits(s, 1);
  }

  lemma {:induction false} ThreeBytes(c: char, rest: seq<Byte>)
    requires 0x800 <= c as int < 0x1_0000
    ensures var s := Encoded(c) + rest; TokenLength(s) == 3 && TokenChar(s) == c
  {
    var v := c as int;
    var h, m, l := v / 0x1000, v / 0x40 % 0x40, v % 0x40;
    var s := Encoded(c) + rest;
    assert s[0] == 0xE0 + h && s[1] == 0x80 + m && s[2] == 0x80 + l && h < 0x10;
    assert v == h * 0x1000 + m * 0x40 + l && (v < 0xD800 || 0xE000 <= v);
    assert Fits(s, 1) && Fits(s, 2);
  }

  /** The digits to base 64 of a code point of the upper planes. */
  lemma {:induction false} UpperDigits(v: int) returns (t: int, h: int, m: int, l: int)
    requires 0x1_0000 <= v <= 0x10_FFFF
    ensures t == v / 0x4_0000 && h == v / 0x1000 % 0x40 && m == v / 0x40 % 0x40 && l == v % 0x40
    ensures v == t * 0x4_0000 + h * 0x1000 + m * 0x40 + l
    ensures 0 <= t <= 4 && 0 <= h < 0x40 && 0 <= m < 0x40 && 0 <= l < 0x40
    ensures (t == 0 ==> h >= 0x10) && (t == 4 ==> h < 0x10)
  {
    t, h, m, l := v / 0x4_0000, v / 0x1000 % 0x40, v / 0x40 % 0x40, v % 0x40;
  }

  lemma {:induction false} FourBytes(c: char, rest: seq<Byte>)
    requires 0x1_0000 <= c as int
    ensures var s := Encoded(c) + rest; TokenLength(s) == 4 && TokenChar(s) == c
  {
    var t, h, m, l := UpperDigits(c as int);
    var s := Encoded(c) + rest;
    FourDigits(s, t, h, m, l);
  }

  lemma {:induction false} FourDigits(s: seq<Byte>, t: int, h: int, m: int, l: int)
    requires 0 <= t <= 4 && 0 <= h < 0x40 && 0 <= m < 0x40 && 0 <= l < 0x40 && (t == 0 ==> h >= 0x10) && (t == 4 ==> h < 0x10)
    requires |s| >= 4 && s[0] == 0xF0 + t && s[1] == 0x80 + h && s[2] == 0x80 + m && s[3] == 0x80 + l
    ensures TokenLength(s) == 4 && TokenChar(s) as int == t * 0x4_0000 + h * 0x1000 + m * 0x40 + l
  {
    assert Fits(s, 1) && Fits(s, 2) && Fits(s, 3);
  }

  lemma {:induction false} EncodedToken(c: char, rest: seq<Byte>)
    ensures var s := Encoded(c) + rest;
      TokenLength(s) == |Encoded(c)| && TokenChar(s) == c && s[TokenLength(s)..] == rest
  {
    var v := c as int;
    if v < 0x80 {
      assert (Encoded(c) + rest)[0] == v;
    } else if v < 0x800 {
      TwoBytes(c, rest);
    } else if v < 0x1_0000 {
      ThreeBytes(c, rest);
    } else {
      FourBytes(c, rest);
    }
  }

  /** Decoding undoes encoding, whatever the text. */
  lemma {:induction false} DecodingUndoesEncoding(s: string)
    ensures Lossy(EncodedText(s)) == s
  {
    if s != "" {
      EncodedToken(s[0], EncodedText(s[1..]));
      DecodingUndoesEncoding(s[1..]);
    }
  }

  /** A stream of encoded text is cut cleanly by cutting the text anywhere. */
  lemma {:induction false} TextCutsAreClean(texts: seq<string>)
    ensures var chunks := seq(|texts|, i requires 0 <= i < |texts| => EncodedText(texts[i]));
      CleanCuts(chunks) && Concat(chunks) == EncodedText(Concat(texts))
  {
    var chunks := seq(|texts|, i requires 0 <= i < |texts| => EncodedText(texts[i]));
    if texts != [] {
      var rest := seq(|texts[1..]|, i requires 0 <= i < |texts[1..]| => EncodedText(texts[1..][i]));
      assert chunks[1..] == rest && chunks[0] == EncodedText(texts[0]);
      TextCutsAreClean(texts[1..]);
      EncodedIsBoundary(texts[0], EncodedText(Concat(texts[1..])));
      EncodedAppend(texts[0], Concat(texts[1..]));
    }
  }

  lemma {:induction false} EncodedAppend(a: string, b: string)
    ensures EncodedText(a + b) == EncodedText(a) + EncodedText(b)
  {
    if a == "" {
      assert a + b == b;
    } else {
      EncodedAppend(a[1..], b);
      assert (a + b)[1..] == a[1..] + b;
    }
  }

  lemma {:induction false} EncodedIsBoundary(a: string, y: seq<Byte>)
    ensures Boundary(EncodedText(a) + y, |EncodedText(a)|)
  {
    if a != "" {
      var rest := EncodedText(a[1..]) + y;
      assert EncodedText(a) + y == Encoded(a[0]) + rest;
      EncodedToken(a[0], rest);
      EncodedIsBoundary(a[1..], y);
    }
  }
}
