/** Failure-carrying wrappers and the few sequence notions shared by all modules. */
module Prelude {

  type Byte = b: int | 0 <= b < 256

  datatype Option<+T> = None | Some(value: T)

  datatype Result<+T, +E> = Ok(value: T) | Err(error: E)

  /** Concatenation of a sequence of sequences, in order. */
  function Concat<T>(parts: seq<seq<T>>): (r: seq<T>)
  {
    if parts == [] then [] else parts[0] + Concat(parts[1..])
  }

  lemma {:induction false} ConcatAppend<T>(a: seq<seq<T>>, b: seq<seq<T>>)
    ensures Concat(a + b) == Concat(a) + Concat(b)
  {
    if a == [] {
      assert a + b == b;
    } else {
      assert (a + b)[1..] == a[1..] + b && (a + b)[0] == a[0];
      ConcatAppend(a[1..], b);
      assert a[0] + (Concat(a[1..]) + Concat(b)) == (a[0] + Concat(a[1..])) + Concat(b);
    }
  }

  /** No element occurs twice. */
  predicate NoDup<T(==)>(s: seq<T>)
  {
    forall i, j | 0 <= i < j < |s| :: s[i] != s[j]
  }

  /** The elements that satisfy `p`, in order. */
  function Filter<T>(s: seq<T>, p: T -> bool): (r: seq<T>)
  {
    if s == [] then [] else (if p(s[0]) then [s[0]] else []) + Filter(s[1..], p)
  }

  lemma {:induction false} FilterAppend<T>(a: seq<T>, b: seq<T>, p: T -> bool)
    ensures Filter(a + b, p) == Filter(a, p) + Filter(b, p)
  {
    if a == [] {
      assert a + b == b;
    } else {
      var head := if p(a[0]) then [a[0]] else [];
      assert (a + b)[1..] == a[1..] + b && (a + b)[0] == a[0];
      FilterAppend(a[1..], b, p);
      assert head + (Filter(a[1..], p) + Filter(b, p)) == (head + Filter(a[1..], p)) + Filter(b, p);
    }
  }

  lemma {:induction false} FilterSnoc<T>(a: seq<T>, x: T, p: T -> bool)
    ensures Filter(a + [x], p) == if p(x) then Filter(a, p) + [x] else Filter(a, p)
  {
    FilterAppend(a, [x], p);
    assert [x][1..] == [];
  }

  lemma {:induction false} FilterCons<T>(s: seq<T>, p: T -> bool)
    requires s != []
    ensures Filter(s, p) == if p(s[0]) then [s[0]] + Filter(s[1..], p) else Filter(s[1..], p)
  {
  }

  lemma {:induction false} FilterEmpty<T>(s: seq<T>, p: T -> bool)
    requires Filter(s, p) == []
    ensures forall x | x in s :: !p(x)
  {
    if s != [] {
      FilterEmpty(s[1..], p);
      assert s == [s[0]] + s[1..];
    }
  }

  /** What `f` makes of the first `n` elements, concatenated in order. */
  function CollectFirst<S, T>(s: seq<S>, n: nat, f: S -> seq<T>): seq<T>
    requires n <= |s|
  {
    if n == 0 then [] else CollectFirst(s, n - 1, f) + f(s[n - 1])
  }

  /** What `f` makes of each element, concatenated in order. */
  function Collect<S, T>(s: seq<S>, f: S -> seq<T>): seq<T>
  {
    CollectFirst(s, |s|, f)
  }

  lemma {:induction false} CollectFirstAgrees<S, T>(s: seq<S>, t: seq<S>, n: nat, f: S -> seq<T>)
    requires n <= |s| && n <= |t| && forall i | 0 <= i < n :: s[i] == t[i]
    ensures CollectFirst(s, n, f) == CollectFirst(t, n, f)
  {
    if n > 0 {
      CollectFirstAgrees(s, t, n - 1, f);
    }
  }

  lemma {:induction false} CollectSnoc<S, T>(s: seq<S>, x: S, f: S -> seq<T>)
    ensures Collect(s + [x], f) == Collect(s, f) + f(x)
  {
    CollectFirstAgrees(s + [x], s, |s|, f);
  }

  lemma {:induction false} CollectOne<S, T>(x: S, f: S -> seq<T>)
    ensures Collect([x], f) == f(x)
  {
    assert CollectFirst([x], 0, f) == [];
    assert [] + f(x) == f(x);
  }

  /** Nothing is collected where `f` has nothing to say. */
  lemma {:induction false} CollectNothing<S, T>(s: seq<S>, f: S -> seq<T>)
    requires forall x | x in s :: f(x) == []
    ensures Collect(s, f) == []
  {
    CollectFirstNothing(s, |s|, f);
  }

  lemma {:induction false} CollectFirstNothing<S, T>(s: seq<S>, n: nat, f: S -> seq<T>)
    requires n <= |s| && forall x | x in s :: f(x) == []
    ensures CollectFirst(s, n, f) == []
  {
    if n > 0 {
      CollectFirstNothing(s, n - 1, f);
    }
  }

  lemma {:induction false} CollectAppend<S, T>(a: seq<S>, b: seq<S>, f: S -> seq<T>)
    ensures Collect(a + b, f) == Collect(a, f) + Collect(b, f)
    decreases |b|
  {
    if b == [] {
      assert a + b == a;
    } else {
      var front, x := b[..|b| - 1], b[|b| - 1];
      assert a + b == (a + front) + [x] && b == front + [x];
      CollectAppend(a, front, f);
      CollectSnoc(front, x, f);
      CollectSnoc(a + front, x, f);
      Associate(Collect(a, f), Collect(front, f), f(x));
    }
  }

  lemma {:induction false} Associate<T>(a: seq<T>, b: seq<T>, c: seq<T>)
    ensures a + (b + c) == (a + b) + c
  {
  }
}
