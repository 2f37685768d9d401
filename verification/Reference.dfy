/** Secret references in configuration values: the `${scheme:path[:key]}` parser, its printer, and
    the resolver. Text is UTF-8, as the parser sees it: bytes. */
module Reference {
  import opened Prelude
  import opened Utf8

  type Text = seq<Byte>

  const DOLLAR: Byte := 36
  const COLON: Byte := 58
  const OPEN: Byte := 123
  const CLOSE: Byte := 125

  datatype Segment = Literal(text: Text) | Ref(scheme: Text, path: Text, key: Option<Text>)

  datatype Error = BadReference(value: Text) | UnknownProvider(scheme: Text) | LookupFailed(reason: Text)

  type Parsed = Result<seq<Segment>, Error>

  predicate Ascii(s: Text)
  {
    forall i | 0 <= i < |s| :: s[i] < 128
  }

  /** A byte taken for a character and encoded again: beyond ASCII this is two bytes. */
  function AsChar(b: Byte): (r: Text)
    ensures r == [b] <==> b < 128
    ensures 1 <= |r| <= 2 && (|r| == 1 <==> b < 128)
  {
    if b < 128 then [b] else [192 + b / 64, 128 + b % 64]
  }

  /** The position of the first `c`, or the length. */
  function Find(s: Text, c: Byte): (i: nat)
    ensures i <= |s| && c !in s[..i] && (i < |s| ==> s[i] == c)
  {
    if s == [] || s[0] == c then 0
    else
      var i := 1 + Find(s[1..], c);
      assert s[..i] == [s[0]] + s[1..][..i - 1];
      i
  }

  lemma {:induction false} FindAt(a: Text, c: Byte, b: Text)
    requires c !in a
    ensures Find(a + [c] + b, c) == |a|
  {
    if a != [] {
      assert (a + [c] + b)[1..] == a[1..] + [c] + b && a[0] in a;
      FindAt(a[1..], c, b);
    }
  }

  // ---- Parsing ----

  /** The text before and after the first `c`. */
  function SplitOnce(s: Text, c: Byte): (r: Option<(Text, Text)>)
    ensures r.Some? ==> c !in r.value.0 && s == r.value.0 + [c] + r.value.1
    ensures r.None? <==> c !in s
  {
    var i := Find(s, c);
    if i == |s| then
      assert s[..i] == s;
      None
    else
      Some((s[..i], s[i + 1..]))
  }

  lemma {:induction false} SplitOnceAt(a: Text, c: Byte, b: Text)
    requires c !in a
    ensures SplitOnce(a + [c] + b, c) == Some((a, b))
  {
    FindAt(a, c, b);
    assert (a + [c] + b)[..|a|] == a && (a + [c] + b)[|a| + 1..] == b;
  }

  /** The inside of `${...}`. */
  function ParseRefBody(body: Text, full: Text): (r: Result<Segment, Error>)
    ensures r.Ok? ==> r.value.Ref? && (CLOSE !in body ==> WellFormed(r.value))
    ensures r.Err? ==> r.error == BadReference(full)
  {
    match SplitOnce(body, COLON)
    case None => Err(BadReference(full))
    case Some((scheme, rest)) =>
      if scheme == [] then Err(BadReference(full))
      else
        var (path, key) := match SplitOnce(rest, COLON)
          case Some((p, k)) => (p, Some(k))
          case None => (rest, None);
        if path == [] then Err(BadReference(full)) else Ok(Ref(scheme, path, key))
  }

  function Flush(buf: Text): seq<Segment>
  {
    if buf == [] then [] else [Literal(buf)]
  }

  function Prepend(pre: seq<Segment>, r: Parsed): Parsed
  {
    if r.Ok? then Ok(pre + r.value) else r
  }

  predicate Marks(s: Text, second: Byte)
  {
    |s| > 1 && s[0] == DOLLAR && s[1] == second
  }

  /** The reference a text starts with, and what follows it. */
  function TakeRef(s: Text, full: Text): (r: Result<(Segment, Text), Error>)
    requires Marks(s, OPEN)
    ensures r.Ok? ==> r.value.0.Ref? && WellFormed(r.value.0)
    ensures r.Ok? ==> exists n | 2 < n <= |s| :: r.value.1 == s[n..]
    ensures r.Err? ==> r.error == BadReference(full)
  {
    var tail := s[2..];
    var end := Find(tail, CLOSE);
    if end == |tail| then Err(BadReference(full))
    else
      var seg := ParseRefBody(tail[..end], full);
      assert tail[end + 1..] == s[end + 3..];
      if seg.Err? then Err(seg.error) else Ok((seg.value, tail[end + 1..]))
  }

  /** The rest of a value, given the literal collected so far. */
  function ParseFrom(s: Text, buf: Text, full: Text): (r: Parsed)
    decreases |s|
  {
    if s == [] then Ok(Flush(buf))
    else if Marks(s, DOLLAR) then ParseFrom(s[2..], buf + [DOLLAR], full)
    else if Marks(s, OPEN) then
      var ref := TakeRef(s, full);
      if ref.Err? then Err(ref.error)
      else Prepend(Flush(buf) + [ref.value.0], ParseFrom(ref.value.1, [], full))
    else ParseFrom(s[1..], buf + AsChar(s[0]), full)
  }

  function Parse(input: Text): Parsed
  {
    ParseFrom(input, [], input)
  }

  lemma {:induction false} PrependPrepend(a: seq<Segment>, b: seq<Segment>, r: Parsed)
    ensures Prepend(a, Prepend(b, r)) == Prepend(a + b, r) && Prepend([], r) == r
  {
    if r.Ok? {
      assert a + (b + r.value) == (a + b) + r.value && [] + r.value == r.value;
    }
  }

  /** The reference at position `i`, and the position after it. */
  method ReadRef(input: Text, i: nat) returns (r: Result<(Segment, nat), Error>)
    requires i < |input| && Marks(input[i..], OPEN)
    ensures r.Err? ==> TakeRef(input[i..], input) == Err(r.error)
    ensures r.Ok? ==> i < r.value.1 <= |input| && TakeRef(input[i..], input) == Ok((r.value.0, input[r.value.1..]))
  {
    var start := i + 2;
    assert input[i..][2..] == input[start..];
    var end := Find(input[start..], CLOSE);
    if end == |input| - start {
      return Err(BadReference(input));
    }
    var seg := ParseRefBody(input[start..][..end], input);
    if seg.Err? {
      return Err(seg.error);
    }
    assert input[start..][end + 1..] == input[start + end + 1..];
    return Ok((seg.value, start + end + 1));
  }

  lemma {:induction false} StepEscape(s: Text, buf: Text, full: Text)
    requires Marks(s, DOLLAR)
    ensures ParseFrom(s, buf, full) == ParseFrom(s[2..], buf + [DOLLAR], full)
  {
  }

  lemma {:induction false} StepRef(s: Text, buf: Text, full: Text)
    requires Marks(s, OPEN)
    ensures var ref := TakeRef(s, full);
      ParseFrom(s, buf, full) ==
        if ref.Err? then Err(ref.error) else Prepend(Flush(buf) + [ref.value.0], ParseFrom(ref.value.1, [], full))
  {
  }

  lemma {:induction false} StepByte(s: Text, buf: Text, full: Text)
    requires s != [] && !Marks(s, DOLLAR) && !Marks(s, OPEN)
    ensures ParseFrom(s, buf, full) == ParseFrom(s[1..], buf + AsChar(s[0]), full)
  {
  }

  /** What one turn of the index loop does to the rest of the value. */
  lemma {:induction false} Turn(input: Text, i: nat, buf: Text)
    requires i < |input|
    ensures var rest := ParseFrom(input[i..], buf, input);
      if i + 1 < |input| && input[i] == DOLLAR && input[i + 1] == DOLLAR then
        rest == ParseFrom(input[i + 2..], buf + [DOLLAR], input)
      else if i + 1 < |input| && input[i] == DOLLAR && input[i + 1] == OPEN then
        && Marks(input[i..], OPEN)
        && var ref := TakeRef(input[i..], input);
        rest == if ref.Err? then Err(ref.error) else Prepend(Flush(buf) + [ref.value.0], ParseFrom(ref.value.1, [], input))
      else
        rest == ParseFrom(input[i + 1..], buf + AsChar(input[i]), input)
  {
    var s := input[i..];
    assert s[0] == input[i] && s[1..] == input[i + 1..];
    if i + 1 < |input| {
      assert s[1] == input[i + 1] && s[2..] == input[i + 2..];
    }
    if Marks(s, DOLLAR) {
      StepEscape(s, buf, input);
    } else if Marks(s, OPEN) {
      StepRef(s, buf, input);
    } else {
      StepByte(s, buf, input);
    }
  }

  lemma {:induction false} AddRef(out: seq<Segment>, buf: Text, seg: Segment, r: Parsed)
    ensures Prepend(out, Prepend(Flush(buf) + [seg], r)) == Prepend((out + Flush(buf)) + [seg], r)
  {
    PrependPrepend(out, Flush(buf) + [seg], r);
    assert out + (Flush(buf) + [seg]) == (out + Flush(buf)) + [seg];
  }

  /** The index loop over the value. */
  method ParseInput(input: Text) returns (r: Parsed)
    ensures r == Parse(input)
  {
    var out: seq<Segment> := [];
    var buf: Text := [];
    var i := 0;
    PrependPrepend([], [], Parse(input));
    assert input[0..] == input;
    while i < |input|
      invariant 0 <= i <= |input|
      invariant Prepend(out, ParseFrom(input[i..], buf, input)) == Parse(input)
    {
      Turn(input, i, buf);
      var b := input[i];
      if b == DOLLAR && i + 1 < |input| && input[i + 1] == DOLLAR {
        buf := buf + [DOLLAR];
        i := i + 2;
        continue;
      }
      if b == DOLLAR && i + 1 < |input| && input[i + 1] == OPEN {
        var ref := ReadRef(input, i);
        if ref.Err? {
          return Err(ref.error);
        }
        AddRef(out, buf, ref.value.0, ParseFrom(input[ref.value.1..], [], input));
        if buf != [] {
          out := out + [Literal(buf)];
          buf := [];
        } else {
          assert out + Flush(buf) == out;
        }
        out := out + [ref.value.0];
        i := ref.value.1;
        continue;
      }
      buf := buf + AsChar(b);
      i := i + 1;
    }
    assert input[i..] == [];
    assert Parse(input) == Ok(out + Flush(buf)) && out + [] == out;
    if buf != [] {
      out := out + [Literal(buf)];
    }
    return Ok(out);
  }

  // ---- Printing ----

  /** References that can be written down. */
  predicate WellFormed(seg: Segment)
  {
    seg.Ref? ==>
      && seg.scheme != [] && COLON !in seg.scheme && CLOSE !in seg.scheme
      && seg.path != [] && COLON !in seg.path && CLOSE !in seg.path
      && (seg.key.Some? ==> CLOSE !in seg.key.value)
  }

  /** Well-formed references, no empty literal and no two literals in a row. */
  predicate Canonical(segs: seq<Segment>)
  {
    && (forall seg | seg in segs :: WellFormed(seg) && (seg.Literal? ==> seg.text != []))
    && (forall i | 0 < i < |segs| :: segs[i - 1].Ref? || segs[i].Ref?)
  }

  predicate AsciiLiterals(segs: seq<Segment>)
  {
    forall seg | seg in segs && seg.Literal? :: Ascii(seg.text)
  }

  function Escape(t: Text): Text
  {
    if t == [] then [] else (if t[0] == DOLLAR then [DOLLAR, DOLLAR] else [t[0]]) + Escape(t[1..])
  }

  function PrintBody(seg: Segment): Text
    requires seg.Ref?
  {
    seg.scheme + [COLON] + PrintRest(seg)
  }

  function PrintRest(seg: Segment): Text
    requires seg.Ref?
  {
    if seg.key.Some? then seg.path + [COLON] + seg.key.value else seg.path
  }

  function PrintSegment(seg: Segment): Text
  {
    if seg.Literal? then Escape(seg.text) else [DOLLAR, OPEN] + (PrintBody(seg) + [CLOSE])
  }

  function Print(segs: seq<Segment>): Text
  {
    if segs == [] then [] else PrintSegment(segs[0]) + Print(segs[1..])
  }

  /** A text after one trip through the literal buffer. */
  function Widen(t: Text): (r: Text)
    ensures |r| >= |t|
  {
    if t == [] then [] else AsChar(t[0]) + Widen(t[1..])
  }

  function WidenSegments(segs: seq<Segment>): (r: seq<Segment>)
    ensures |r| == |segs|
    ensures forall i | 0 <= i < |segs| :: r[i] == if segs[i].Literal? then Literal(Widen(segs[i].text)) else segs[i]
  {
    seq(|segs|, i requires 0 <= i < |segs| => if segs[i].Literal? then Literal(Widen(segs[i].text)) else segs[i])
  }

  /** That trip takes every byte for the character of its number and encodes that character. */
  lemma {:induction false} WidenEncodesBytes(t: Text)
    ensures Widen(t) == EncodedText(seq(|t|, i requires 0 <= i < |t| => t[i] as char))
  {
    if t != [] {
      var cs := seq(|t|, i requires 0 <= i < |t| => t[i] as char);
      WidenEncodesBytes(t[1..]);
      assert cs[1..] == seq(|t[1..]|, i requires 0 <= i < |t[1..]| => t[1..][i] as char);
      assert AsChar(t[0]) == Encoded(cs[0]);
    }
  }

  lemma {:induction false} WidenIff(t: Text)
    ensures Ascii(t) ==> Widen(t) == t
    ensures |Widen(t)| == |t| ==> Ascii(t)
  {
    if t != [] {
      WidenIff(t[1..]);
      assert t == [t[0]] + t[1..];
    }
  }

  lemma {:induction false} ParseEscaped(t: Text, rest: Text, buf: Text, full: Text)
    ensures ParseFrom(Escape(t) + rest, buf, full) == ParseFrom(rest, buf + Widen(t), full)
    decreases |t|
  {
    if t == [] {
      assert Escape(t) + rest == rest && buf + Widen(t) == buf;
    } else {
      var more := Escape(t[1..]) + rest;
      assert Escape(t) + rest == (if t[0] == DOLLAR then [DOLLAR, DOLLAR] else [t[0]]) + more;
      StepPrinted(t[0], more, buf, full);
      ParseEscaped(t[1..], rest, buf + AsChar(t[0]), full);
      assert (buf + AsChar(t[0])) + Widen(t[1..]) == buf + Widen(t);
    }
  }

  lemma {:induction false} StepPrinted(b: Byte, more: Text, buf: Text, full: Text)
    ensures ParseFrom((if b == DOLLAR then [DOLLAR, DOLLAR] else [b]) + more, buf, full) == ParseFrom(more, buf + AsChar(b), full)
  {
    if b == DOLLAR {
      var s := [DOLLAR, DOLLAR] + more;
      assert s[2..] == more;
      StepEscape(s, buf, full);
    } else {
      var s := [b] + more;
      assert s[1..] == more;
      StepByte(s, buf, full);
    }
  }

  lemma {:induction false} ParsePrintedBody(seg: Segment, full: Text)
    requires seg.Ref? && WellFormed(seg)
    ensures ParseRefBody(PrintBody(seg), full) == Ok(seg) && CLOSE !in PrintBody(seg)
  {
    SplitOnceAt(seg.scheme, COLON, PrintRest(seg));
    if seg.key.Some? {
      SplitOnceAt(seg.path, COLON, seg.key.value);
    }
  }

  lemma {:induction false} TakeRefAt(body: Text, rest: Text, full: Text)
    requires CLOSE !in body
    ensures var s := [DOLLAR, OPEN] + (body + [CLOSE] + rest);
      && Marks(s, OPEN)
      && TakeRef(s, full) == var seg := ParseRefBody(body, full); if seg.Err? then Err(seg.error) else Ok((seg.value, rest))
  {
    var tail := body + [CLOSE] + rest;
    var s := [DOLLAR, OPEN] + tail;
    assert s[2..] == tail;
    FindAt(body, CLOSE, rest);
    assert tail[..|body|] == body && tail[|body| + 1..] == rest;
  }

  lemma {:induction false} TakePrintedRef(seg: Segment, rest: Text, full: Text)
    requires seg.Ref? && WellFormed(seg)
    ensures var s := PrintSegment(seg) + rest; Marks(s, OPEN) && TakeRef(s, full) == Ok((seg, rest))
  {
    var body := PrintBody(seg);
    ParsePrintedBody(seg, full);
    TakeRefAt(body, rest, full);
    Reassociate([DOLLAR, OPEN], body, [CLOSE], rest);
  }

  lemma {:induction false} Reassociate(a: Text, b: Text, c: Text, d: Text)
    ensures (a + (b + c)) + d == a + (b + c + d)
  {
  }

  lemma {:induction false} CanonicalTail(segs: seq<Segment>)
    requires segs != [] && Canonical(segs)
    ensures Canonical(segs[1..]) && WellFormed(segs[0])
    ensures segs[0].Literal? ==> segs[0].text != [] && (segs[1..] == [] || segs[1..][0].Ref?)
  {
    assert segs[0] in segs;
    forall i | 0 < i < |segs[1..]|
      ensures segs[1..][i - 1].Ref? || segs[1..][i].Ref?
    {
      assert segs[1..][i - 1] == segs[i] && segs[1..][i] == segs[i + 1];
    }
  }

  lemma {:induction false} ParsePrinted(segs: seq<Segment>, buf: Text, full: Text)
    requires Canonical(segs) && (buf == [] || segs == [] || segs[0].Ref?)
    ensures ParseFrom(Print(segs), buf, full) == Ok(Flush(buf) + WidenSegments(segs))
  {
    if segs == [] {
      assert Print(segs) == [] && Flush(buf) + WidenSegments(segs) == Flush(buf);
    } else {
      var seg, rest := segs[0], segs[1..];
      CanonicalTail(segs);
      WidenCons(segs);
      if seg.Literal? {
        ParseEscaped(seg.text, Print(rest), buf, full);
        assert buf + Widen(seg.text) == Widen(seg.text);
        ParsePrinted(rest, Widen(seg.text), full);
        assert Flush(buf) + WidenSegments(segs) == Flush(Widen(seg.text)) + WidenSegments(rest);
      } else {
        TakePrintedRef(seg, Print(rest), full);
        StepRef(Print(segs), buf, full);
        ParsePrinted(rest, [], full);
        JoinRef(buf, seg, WidenSegments(rest));
      }
    }
  }

  lemma {:induction false} JoinRef(buf: Text, seg: Segment, rest: seq<Segment>)
    ensures Prepend(Flush(buf) + [seg], Ok(Flush([]) + rest)) == Ok(Flush(buf) + ([seg] + rest))
  {
    assert Flush(buf) + [seg] + (Flush([]) + rest) == Flush(buf) + ([seg] + rest);
  }

  lemma {:induction false} WidenCons(segs: seq<Segment>)
    requires segs != []
    ensures segs[0].Literal? ==> WidenSegments(segs) == [Literal(Widen(segs[0].text))] + WidenSegments(segs[1..])
    ensures segs[0].Ref? ==> WidenSegments(segs) == [segs[0]] + WidenSegments(segs[1..])
  {
  }

  /** Parsing undoes printing on canonical lists, precisely when their literals are ASCII; in general
      each literal byte beyond ASCII comes back as two. */
  lemma {:induction false} ParseUndoesPrintIff(segs: seq<Segment>)
    requires Canonical(segs)
    ensures Parse(Print(segs)) == Ok(WidenSegments(segs))
    ensures Parse(Print(segs)) == Ok(segs) <==> AsciiLiterals(segs)
  {
    ParsePrinted(segs, [], Print(segs));
    assert Flush([]) + WidenSegments(segs) == WidenSegments(segs);
    var wide := WidenSegments(segs);
    if AsciiLiterals(segs) {
      forall i | 0 <= i < |segs|
        ensures wide[i] == segs[i]
      {
        assert segs[i] in segs;
        if segs[i].Literal? {
          WidenIff(segs[i].text);
        }
      }
      assert wide == segs;
    } else {
      var seg :| seg in segs && seg.Literal? && !Ascii(seg.text);
      var i :| 0 <= i < |segs| && segs[i] == seg;
      WidenIff(seg.text);
      assert wide[i] != segs[i];
    }
  }

  // ---- What parsing yields ----

  lemma {:induction false} CanonicalJoin(buf: Text, seg: Segment, rest: seq<Segment>)
    requires seg.Ref? && WellFormed(seg) && Canonical(rest)
    ensures Canonical(Flush(buf) + [seg] + rest)
  {
    var all := Flush(buf) + [seg] + rest;
    forall i | 0 < i < |all|
      ensures all[i - 1].Ref? || all[i].Ref?
    {
      var k := |Flush(buf)|;
      if i > k + 1 {
        assert all[i] == rest[i - k - 1] && all[i - 1] == rest[i - k - 2];
      }
    }
  }

  /** Every successful parse is canonical; every failure blames the whole value. */
  lemma {:induction false} ParseIsCanonical(s: Text, buf: Text, full: Text)
    ensures ParseFrom(s, buf, full).Ok? ==> Canonical(ParseFrom(s, buf, full).value)
    ensures ParseFrom(s, buf, full).Err? ==> ParseFrom(s, buf, full).error == BadReference(full)
    decreases |s|
  {
    if s == [] {
    } else if Marks(s, DOLLAR) {
      ParseIsCanonical(s[2..], buf + [DOLLAR], full);
    } else if Marks(s, OPEN) {
      var ref := TakeRef(s, full);
      if ref.Ok? {
        var rest := ParseFrom(ref.value.1, [], full);
        ParseIsCanonical(ref.value.1, [], full);
        if rest.Ok? {
          CanonicalJoin(buf, ref.value.0, rest.value);
        }
      }
    } else {
      ParseIsCanonical(s[1..], buf + AsChar(s[0]), full);
    }
  }

  lemma {:induction false} AsciiIn(s: Text, buf: Text, full: Text)
    requires Ascii(s) && Ascii(buf) && ParseFrom(s, buf, full).Ok?
    ensures AsciiLiterals(ParseFrom(s, buf, full).value)
    decreases |s|
  {
    if s == [] {
    } else if Marks(s, DOLLAR) {
      AsciiIn(s[2..], buf + [DOLLAR], full);
    } else if Marks(s, OPEN) {
      AsciiIn(TakeRef(s, full).value.1, [], full);
    } else {
      AsciiIn(s[1..], buf + AsChar(s[0]), full);
    }
  }

  /** What a value parses to prints to a value that parses to the same, precisely when its literals
      came out ASCII; for an ASCII value they always do. */
  lemma {:induction false} ReparsesToItselfIff(s: Text)
    requires Parse(s).Ok?
    ensures Canonical(Parse(s).value)
    ensures Parse(Print(Parse(s).value)) == Parse(s) <==> AsciiLiterals(Parse(s).value)
    ensures Ascii(s) ==> AsciiLiterals(Parse(s).value)
  {
    ParseIsCanonical(s, [], s);
    if Ascii(s) {
      AsciiIn(s, [], s);
    }
    ParseUndoesPrintIff(Parse(s).value);
  }

  // ---- Resolving ----

  type Provider = (Text, Option<Text>) -> Result<Text, Error>

  /** The value of a segment list: literals as they are, references as their providers answer, and
      the first failure if there is one. Answers are never parsed. */
  function Eval(segs: seq<Segment>, providers: map<Text, Provider>): (r: Result<Text, Error>)
  {
    if segs == [] then Ok([])
    else
      var first := EvalSegment(segs[0], providers);
      if first.Err? then first
      else
        var rest := Eval(segs[1..], providers);
        if rest.Err? then rest else Ok(first.value + rest.value)
  }

  function EvalSegment(seg: Segment, providers: map<Text, Provider>): Result<Text, Error>
  {
    match seg
    case Literal(text) => Ok(text)
    case Ref(scheme, path, key) =>
      if scheme in providers then providers[scheme](path, key) else Err(UnknownProvider(scheme))
  }

  function ResolveText(value: Text, providers: map<Text, Provider>): Result<Text, Error>
  {
    var segs := Parse(value);
    if segs.Err? then Err(segs.error) else Eval(segs.value, providers)
  }

  /** A value written out from canonical ASCII-literal segments resolves to what they stand for. */
  lemma {:induction false} ResolvesToMeaning(segs: seq<Segment>, providers: map<Text, Provider>)
    requires Canonical(segs) && AsciiLiterals(segs)
    ensures ResolveText(Print(segs), providers) == Eval(segs, providers)
  {
    ParseUndoesPrintIff(segs);
  }

  /** What a segment stands for: a literal for itself, a reference for what the provider of its scheme
      answers for its path and key, if there is such a provider and it answers. */
  predicate StandsFor(seg: Segment, providers: map<Text, Provider>, part: Text)
  {
    match seg
    case Literal(text) => part == text
    case Ref(scheme, path, key) => scheme in providers && providers[scheme](path, key) == Ok(part)
  }

  /** The error a reference causes: there is no provider for its scheme, or the provider's own. */
  predicate Breaks(seg: Segment, providers: map<Text, Provider>, e: Error)
  {
    && seg.Ref?
    && if seg.scheme !in providers then e == UnknownProvider(seg.scheme) else providers[seg.scheme](seg.path, seg.key) == Err(e)
  }

  ghost predicate StandForAll(segs: seq<Segment>, providers: map<Text, Provider>, parts: seq<Text>)
  {
    |parts| == |segs| && forall i | 0 <= i < |segs| :: StandsFor(segs[i], providers, parts[i])
  }

  ghost predicate Stands(seg: Segment, providers: map<Text, Provider>)
  {
    exists part :: StandsFor(seg, providers, part)
  }

  /** The first segment that stands for nothing, and why. */
  ghost predicate FirstBreak(segs: seq<Segment>, providers: map<Text, Provider>, i: nat, e: Error)
  {
    && i < |segs| && Breaks(segs[i], providers, e)
    && forall j | 0 <= j < i :: Stands(segs[j], providers)
  }

  /** Segments evaluate to their parts put together, or fail as the first that breaks. */
  lemma {:induction false} EvalMeans(segs: seq<Segment>, providers: map<Text, Provider>) returns (parts: seq<Text>, broken: nat)
    ensures match Eval(segs, providers)
      case Ok(v) => StandForAll(segs, providers, parts) && v == Concat(parts)
      case Err(e) => FirstBreak(segs, providers, broken, e)
  {
    parts, broken := [], 0;
    if segs != [] {
      var first := EvalSegment(segs[0], providers);
      if first.Ok? {
        parts, broken := EvalMeans(segs[1..], providers);
        assert StandsFor(segs[0], providers, first.value);
        var rest := Eval(segs[1..], providers);
        if rest.Ok? {
          parts := [first.value] + parts;
        } else {
          BreakLater(segs, providers, broken, rest.error);
          broken := broken + 1;
        }
      }
    }
  }

  lemma {:induction false} BreakLater(segs: seq<Segment>, providers: map<Text, Provider>, i: nat, e: Error)
    requires segs != [] && FirstBreak(segs[1..], providers, i, e) && Stands(segs[0], providers)
    ensures FirstBreak(segs, providers, i + 1, e)
  {
    forall j | 0 <= j < i + 1
      ensures Stands(segs[j], providers)
    {
      assert j > 0 ==> segs[j] == segs[1..][j - 1];
    }
  }

  /** A value written out from canonical segments with ASCII literals resolves to the literals and the
      answers to its references put together, or fails as its first unanswered reference. */
  lemma {:induction false} PrintedResolves(segs: seq<Segment>, providers: map<Text, Provider>) returns (parts: seq<Text>, broken: nat)
    requires Canonical(segs) && AsciiLiterals(segs)
    ensures match ResolveText(Print(segs), providers)
      case Ok(v) => StandForAll(segs, providers, parts) && v == Concat(parts)
      case Err(e) => FirstBreak(segs, providers, broken, e)
  {
    ResolvesToMeaning(segs, providers);
    parts, broken := EvalMeans(segs, providers);
  }

  /** `${scheme:path}` or `${scheme:path:key}`, byte by byte, resolves to what the provider of the scheme
      answers for the path and the key. */
  lemma {:induction false} ReferenceResolves(seg: Segment, providers: map<Text, Provider>)
    requires seg.Ref? && WellFormed(seg)
    ensures ResolveText([36, 123] + (seg.scheme + [58] + (if seg.key.Some? then seg.path + [58] + seg.key.value else seg.path) + [125]), providers)
         == if seg.scheme in providers then
              match providers[seg.scheme](seg.path, seg.key) case Ok(v) => Ok(v) case Err(e) => Err(e)
            else Err(UnknownProvider(seg.scheme))
  {
    var text := [DOLLAR, OPEN] + (PrintBody(seg) + [CLOSE]);
    assert Print([seg]) == text by {
      assert [seg][1..] == [] && text + [] == text;
    }
    ResolvesToMeaning([seg], providers);
    assert [seg][1..] == [] && Eval([], providers) == Ok([]);
    var first := EvalSegment(seg, providers);
    if first.Ok? {
      assert first.value + [] == first.value;
    }
  }

  /** Normalising a value whose literals are ASCII does not change what it resolves to. */
  lemma {:induction false} NormalFormSameMeaning(s: Text, providers: map<Text, Provider>)
    requires Parse(s).Ok? && AsciiLiterals(Parse(s).value)
    ensures ResolveText(Print(Parse(s).value), providers) == ResolveText(s, providers)
  {
    ReparsesToItselfIff(s);
  }

  /** An escaped text resolves to itself whatever the providers, precisely when it is ASCII. */
  lemma {:induction false} EscapedResolvesToItselfIff(s: Text, providers: map<Text, Provider>)
    ensures ResolveText(Escape(s), providers) == Ok(Widen(s))
    ensures ResolveText(Escape(s), providers) == Ok(s) <==> Ascii(s)
  {
    ParseEscaped(s, [], [], Escape(s));
    assert Escape(s) + [] == Escape(s) && [] + Widen(s) == Widen(s);
    WidenIff(s);
    assert Parse(Escape(s)) == Ok(Flush(Widen(s)));
    assert Eval(Flush(Widen(s)), providers) == Ok(Widen(s)) by {
      if s != [] {
        assert Flush(Widen(s))[1..] == [] && Widen(s) + [] == Widen(s);
      }
    }
  }

  function After(out: Text, r: Result<Text, Error>): Result<Text, Error>
  {
    if r.Err? then r else Ok(out + r.value)
  }

  lemma {:induction false} AfterNothing(r: Result<Text, Error>)
    ensures After([], r) == r
  {
    if r.Ok? {
      assert [] + r.value == r.value;
    }
  }

  lemma {:induction false} EvalStep(segs: seq<Segment>, i: nat, out: Text, providers: map<Text, Provider>)
    requires i < |segs|
    ensures var first := EvalSegment(segs[i], providers);
      After(out, Eval(segs[i..], providers)) ==
        if first.Err? then first else After(out + first.value, Eval(segs[i + 1..], providers))
  {
    assert segs[i..][1..] == segs[i + 1..];
    var first, rest := EvalSegment(segs[i], providers), Eval(segs[i + 1..], providers);
    if first.Ok? && rest.Ok? {
      assert out + (first.value + rest.value) == (out + first.value) + rest.value;
    }
  }

  method ResolveValue(value: Text, providers: map<Text, Provider>) returns (r: Result<Text, Error>)
    ensures r == ResolveText(value, providers)
  {
    var segments := ParseInput(value);
    if segments.Err? {
      return Err(segments.error);
    }
    var segs := segments.value;
    var out: Text := [];
    var i := 0;
    AfterNothing(Eval(segs, providers));
    assert segs[0..] == segs;
    while i < |segs|
      invariant 0 <= i <= |segs|
      invariant After(out, Eval(segs[i..], providers)) == Eval(segs, providers)
    {
      EvalStep(segs, i, out, providers);
      match segs[i] {
        case Literal(text) => out := out + text;
        case Ref(scheme, path, key) =>
          if scheme !in providers {
            return Err(UnknownProvider(scheme));
          }
          var v := providers[scheme](path, key);
          if v.Err? {
            return v;
          }
          out := out + v.value;
      }
      i := i + 1;
    }
    assert segs[i..] == [] && out + [] == out;
    return Ok(out);
  }

  /** The whole configuration, in key order: every value resolved, or the first failure. */
  method Resolve(raw: map<Text, Text>, order: seq<Text>, providers: map<Text, Provider>)
    returns (r: Result<map<Text, Text>, Error>)
    requires NoDup(order) && forall k :: k in order <==> k in raw
    ensures r.Ok? ==>
      && r.value.Keys == raw.Keys
      && forall k | k in raw :: ResolveText(raw[k], providers) == Ok(r.value[k])
    ensures r.Err? ==>
      exists i | 0 <= i < |order| ::
        && ResolveText(raw[order[i]], providers) == Err(r.error)
        && forall j | 0 <= j < i :: ResolveText(raw[order[j]], providers).Ok?
  {
    var resolved: map<Text, Text> := map[];
    var i := 0;
    while i < |order|
      invariant 0 <= i <= |order|
      invariant resolved.Keys <= raw.Keys
      invariant forall j | 0 <= j < i :: order[j] in resolved && ResolveText(raw[order[j]], providers) == Ok(resolved[order[j]])
    {
      var v := ResolveValue(raw[order[i]], providers);
      if v.Err? {
        return Err(v.error);
      }
      resolved := resolved[order[i] := v.value];
      i := i + 1;
    }
    forall k | k in raw
      ensures k in resolved && ResolveText(raw[k], providers) == Ok(resolved[k])
    {
      assert k in order;
    }
    return Ok(resolved);
  }
}
