/** The retry budget for model requests: attempt cap, backoff, and one-way escalation. */
module Retry {
  import opened Prelude

  datatype StreamError =
    | Retryable(message: string, body: Option<string>)
    | Fatal(message: string, body: Option<string>)

  /** Text inspected for capacity keywords: the response body if there is one, else the message. */
  function KeywordHaystack(e: StreamError): string
  {
    if e.body.Some? then e.body.value else e.message
  }

  /** Used once output has been streamed: a retryable error becomes fatal and loses its body. */
  function IntoFatal(e: StreamError, prefix: string): (r: StreamError)
    ensures r.Fatal? && (e.Fatal? ==> r == e)
  {
    if e.Fatal? then e else Fatal(prefix + ": " + e.message, None)
  }

  const TRANSIENT_KEYWORDS: seq<string> :=
    ["overload", "unavailable", "limit", "quota", "capacity", "throttle", "congestion"]

  function LowerChar(c: char): char
  {
    if 'A' <= c <= 'Z' then ((c as int) + 32) as char else c
  }

  function Lower(s: string): string
  {
    seq(|s|, i requires 0 <= i < |s| => LowerChar(s[i]))
  }

  predicate Contains(s: string, sub: string)
  {
    exists i | 0 <= i <= |s| :: sub <= s[i..]
  }

  predicate ContainsTransientKeyword(s: string)
  {
    exists k | 0 <= k < |TRANSIENT_KEYWORDS| :: Contains(Lower(s), TRANSIENT_KEYWORDS[k])
  }

  predicate IsTransient(e: StreamError)
  {
    ContainsTransientKeyword(KeywordHaystack(e))
  }

  // ---------- Budget and state ----------

  datatype Budget = Budget(maxAttempts: nat, baseDelayMs: nat, escalated: bool)

  const DEFAULT_BUDGET := Budget(3, 500, false)
  const ESCALATED_BUDGET := Budget(5, 2000, true)

  function Pow2(n: nat): (r: nat)
    ensures r >= 1
  {
    if n == 0 then 1 else 2 * Pow2(n - 1)
  }

  function DelayFor(b: Budget, retryIndex: nat): nat
  {
    b.baseDelayMs * Pow2(retryIndex)
  }

  function EscalateIfTransient(b: Budget, e: StreamError): Budget
  {
    if !b.escalated && IsTransient(e) then ESCALATED_BUDGET else b
  }

  datatype RetryState = RetryState(budget: Budget, attemptNum: nat, exponentIdx: nat)

  const FRESH := RetryState(DEFAULT_BUDGET, 1, 0)

  /** `next_delay`: the new state, and how long to sleep unless the error is final. */
  function NextDelay(s: RetryState, e: StreamError): (r: (RetryState, Option<nat>))
  {
    Decide(s, EscalateIfTransient(s.budget, e), e.Retryable?)
  }

  /** The decision, once the budget has been upgraded or kept. */
  function Decide(s: RetryState, upgraded: Budget, retryable: bool): (r: (RetryState, Option<nat>))
  {
    var escalatedNow := upgraded.escalated && !s.budget.escalated;
    if !retryable || s.attemptNum >= upgraded.maxAttempts then (s.(budget := upgraded), None)
    else
      var exponent := if escalatedNow then 0 else s.exponentIdx;
      (RetryState(upgraded, s.attemptNum, exponent), Some(DelayFor(upgraded, exponent)))
  }

  function Advance(s: RetryState): RetryState
  {
    s.(attemptNum := s.attemptNum + 1, exponentIdx := s.exponentIdx + 1)
  }

  class RetryPolicy {
    var budget: Budget
    var attemptNum: nat
    var exponentIdx: nat

    constructor ()
      ensures State() == FRESH
    {
      budget, attemptNum, exponentIdx := DEFAULT_BUDGET, 1, 0;
    }

    function State(): RetryState
      reads this
    {
      RetryState(budget, attemptNum, exponentIdx)
    }

    method Next(e: StreamError) returns (delay: Option<nat>)
      modifies this`budget, this`exponentIdx
      ensures (State(), delay) == NextDelay(old(State()), e)
    {
      var upgraded := EscalateIfTransient(budget, e);
      var escalatedNow := upgraded.escalated && !budget.escalated;
      budget := upgraded;
      if e.Fatal? || attemptNum >= budget.maxAttempts {
        return None;
      }
      if escalatedNow {
        exponentIdx := 0;
      }
      return Some(DelayFor(budget, exponentIdx));
    }

    method Bump()
      modifies this`attemptNum, this`exponentIdx
      ensures State() == Advance(old(State()))
    {
      attemptNum := attemptNum + 1;
      exponentIdx := exponentIdx + 1;
    }
  }

  // ---------- All sequences of failures ----------

  /** The sleeps caused by a sequence of failing attempts, until one is final or the list ends. */
  function Sleeps(s: RetryState, es: seq<StreamError>): seq<nat>
    decreases |es|
  {
    if es == [] then []
    else
      var (s1, delay) := NextDelay(s, es[0]);
      if delay.None? then [] else [delay.value] + Sleeps(Advance(s1), es[1..])
  }

  /** The state after failures that were all slept off. */
  function After(s: RetryState, es: seq<StreamError>): RetryState
    decreases |es|
  {
    if es == [] then s else After(Advance(NextDelay(s, es[0]).0), es[1..])
  }

  /** One more failure after a number that were all slept off. */
  lemma {:induction false} SleepsSnoc(s: RetryState, es: seq<StreamError>, e: StreamError)
    requires |Sleeps(s, es)| == |es|
    ensures var (s1, delay) := NextDelay(After(s, es), e);
      && Sleeps(s, es + [e]) == Sleeps(s, es) + (if delay.Some? then [delay.value] else [])
      && After(s, es + [e]) == Advance(s1)
    decreases |es|
  {
    if es == [] {
      assert es + [e] == [e] && [e][1..] == [];
    } else {
      assert (es + [e])[1..] == es[1..] + [e] && (es + [e])[0] == es[0];
      SleepsSnoc(Advance(NextDelay(s, es[0]).0), es[1..], e);
    }
  }

  function Sum(xs: seq<nat>): nat
  {
    if xs == [] then 0 else xs[0] + Sum(xs[1..])
  }

  /**
   * Reachable states: before escalation the exponent counts all retries; after it, the retries since.
   * `spent` is the time slept so far and `last` the latest sleep (0 before the first).
   */
  predicate Reachable(s: RetryState, spent: nat, last: nat)
  {
    if !s.budget.escalated then
      && s.budget == DEFAULT_BUDGET && 1 <= s.attemptNum <= 3 && s.exponentIdx == s.attemptNum - 1
      && spent == 500 * (Pow2(s.exponentIdx) - 1)
      && last == (if s.exponentIdx == 0 then 0 else 500 * Pow2(s.exponentIdx - 1))
    else
      && s.budget == ESCALATED_BUDGET && 1 <= s.attemptNum <= 5 && 1 <= s.exponentIdx < s.attemptNum
      && s.attemptNum - s.exponentIdx <= 3
      && spent == 500 * (Pow2(s.attemptNum - s.exponentIdx - 1) - 1) + 2000 * (Pow2(s.exponentIdx) - 1)
      && last == 2000 * Pow2(s.exponentIdx - 1)
  }

  lemma {:induction false} PowersOfTwo()
    ensures Pow2(0) == 1 && Pow2(1) == 2 && Pow2(2) == 4 && Pow2(3) == 8 && Pow2(4) == 16
  {
  }

  /** An upgrade happens at most once and is never undone. */
  predicate Upgrade(before: Budget, after: Budget)
  {
    after == before || (!before.escalated && after == ESCALATED_BUDGET)
  }

  lemma {:induction false} DecideStaysReachable(s: RetryState, spent: nat, last: nat, upgraded: Budget)
    requires Reachable(s, spent, last) && Upgrade(s.budget, upgraded) && s.attemptNum < upgraded.maxAttempts
    ensures var (s1, delay) := Decide(s, upgraded, true);
      && delay.Some? && s1.budget == upgraded
      && Reachable(Advance(s1), spent + delay.value, delay.value)
      && delay.value >= 2 * last && delay.value >= 500
      && s1.exponentIdx <= 3 && spent + delay.value <= 30_000
      && Advance(s1).attemptNum == s.attemptNum + 1 <= (if upgraded.escalated then 5 else 3)
  {
    PowersOfTwo();
    assert s.exponentIdx in {0, 1, 2, 3, 4} && s.attemptNum in {1, 2, 3, 4};
  }

  lemma {:induction false} StepStaysReachable(s: RetryState, spent: nat, last: nat, e: StreamError)
    requires Reachable(s, spent, last) && NextDelay(s, e).1.Some?
    ensures var (s1, delay) := NextDelay(s, e);
      && Reachable(Advance(s1), spent + delay.value, delay.value)
      && delay.value >= 2 * last && delay.value >= 500
      && s1.exponentIdx <= 3 && spent + delay.value <= 30_000
      && Advance(s1).attemptNum == s.attemptNum + 1 <= (if s1.budget.escalated then 5 else 3)
      && Upgrade(s.budget, s1.budget)
      && (s1.budget.escalated ==> s.budget.escalated || IsTransient(e))
  {
    DecideStaysReachable(s, spent, last, EscalateIfTransient(s.budget, e));
  }

  /** Each sleep is at least double the one before. */
  predicate Doubling(last: nat, ds: seq<nat>)
    decreases |ds|
  {
    ds == [] || (ds[0] >= 2 * last && Doubling(ds[0], ds[1..]))
  }

  lemma {:induction false} SleepBounds(s: RetryState, spent: nat, last: nat, es: seq<StreamError>)
    requires Reachable(s, spent, last)
    ensures Doubling(last, Sleeps(s, es))
    ensures spent + Sum(Sleeps(s, es)) <= 30_000
    ensures s.attemptNum + |Sleeps(s, es)| <= 5
    ensures !s.budget.escalated && (forall e | e in es :: !IsTransient(e)) ==> s.attemptNum + |Sleeps(s, es)| <= 3
    decreases |es|
  {
    PowersOfTwo();
    if es != [] && NextDelay(s, es[0]).1.Some? {
      var (s1, delay) := NextDelay(s, es[0]);
      StepStaysReachable(s, spent, last, es[0]);
      SleepBounds(Advance(s1), spent + delay.value, delay.value, es[1..]);
      var rest := Sleeps(Advance(s1), es[1..]);
      assert ([delay.value] + rest)[1..] == rest;
      if forall e | e in es :: !IsTransient(e) {
        assert es[0] in es && forall e | e in es[1..] :: e in es;
      }
    } else {
      SpentBound(s, spent, last);
    }
  }

  lemma {:induction false} SpentBound(s: RetryState, spent: nat, last: nat)
    requires Reachable(s, spent, last)
    ensures spent <= 30_000 && s.attemptNum <= (if s.budget.escalated then 5 else 3)
  {
    PowersOfTwo();
    assert s.exponentIdx in {0, 1, 2, 3, 4} && s.attemptNum in {1, 2, 3, 4, 5};
  }

  /**
   * For every sequence of failures: at most 5 attempts, 3 if no capacity keyword ever appears; each
   * sleep at least doubles; and no more than 30 seconds are slept in all.
   */
  lemma {:induction false} RetriesAreBounded(es: seq<StreamError>)
    ensures 1 + |Sleeps(FRESH, es)| <= 5
    ensures (forall e | e in es :: !IsTransient(e)) ==> 1 + |Sleeps(FRESH, es)| <= 3
    ensures Doubling(0, Sleeps(FRESH, es))
    ensures Sum(Sleeps(FRESH, es)) <= 30_000
  {
    PowersOfTwo();
    SleepBounds(FRESH, 0, 0, es);
  }

  /** The bound is met: five overload answers in a row sleep for exactly 30 seconds. */
  lemma {:induction false} BoundIsTight(e: StreamError)
    requires e.Retryable? && IsTransient(e)
    ensures Sleeps(FRESH, [e, e, e, e, e]) == [2000, 4000, 8000, 16000]
    ensures Sum(Sleeps(FRESH, [e, e, e, e, e])) == 30_000
  {
    PowersOfTwo();
    var s1 := RetryState(ESCALATED_BUDGET, 2, 1);
    var s2, s3, s4 := Advance(s1), Advance(Advance(s1)), Advance(Advance(Advance(s1)));
    assert [e, e, e, e, e][1..] == [e, e, e, e] && [e, e, e, e][1..] == [e, e, e];
    assert [e, e, e][1..] == [e, e] && [e, e][1..] == [e];
    assert Sleeps(s4, [e]) == [];
    assert Sleeps(s3, [e, e]) == [16000] + Sleeps(s4, [e]);
    assert Sleeps(s2, [e, e, e]) == [8000] + Sleeps(s3, [e, e]);
    assert Sleeps(s1, [e, e, e, e]) == [4000] + Sleeps(s2, [e, e, e]);
    SumOfFour(2000, 4000, 8000, 16000);
  }

  lemma {:induction false} SumOfFour(a: nat, b: nat, c: nat, d: nat)
    ensures Sum([a, b, c, d]) == a + b + c + d
  {
    assert [a, b, c, d][1..] == [b, c, d] && [b, c, d][1..] == [c, d] && [c, d][1..] == [d] && [d][1..] == [];
    assert Sum([d]) == d;
    assert Sum([c, d]) == c + Sum([d]);
    assert Sum([b, c, d]) == b + Sum([c, d]);
  }

  // ---------- Which failures are retried, and after how long ----------

  /** `c` is the lower-case letter `l`, in either case. */
  predicate SameLetter(c: char, l: char)
  {
    c == l || ('a' <= l <= 'z' && c as int == l as int - 32)
  }

  /** `text` holds `word` at position `p`, in any mix of cases. */
  predicate WordAt(text: string, p: nat, word: string)
  {
    p + |word| <= |text| && forall i | 0 <= i < |word| :: SameLetter(text[p + i], word[i])
  }

  ghost predicate Mentions(text: string, word: string)
  {
    exists p: nat :: WordAt(text, p, word)
  }

  /** The failure speaks of capacity: in the body of the response if there is one, else in the message. */
  ghost predicate SpeaksOfCapacity(e: StreamError)
  {
    var text := match e.body case Some(body) => body case None => e.message;
    || Mentions(text, "overload") || Mentions(text, "unavailable") || Mentions(text, "limit") || Mentions(text, "quota")
    || Mentions(text, "capacity") || Mentions(text, "throttle") || Mentions(text, "congestion")
  }

  predicate LowerCase(word: string)
  {
    forall i | 0 <= i < |word| :: 'a' <= word[i] <= 'z'
  }

  lemma {:induction false} ContainsIffMentions(text: string, word: string)
    requires LowerCase(word)
    ensures Contains(Lower(text), word) <==> Mentions(text, word)
  {
    var low := Lower(text);
    if i :| 0 <= i <= |low| && word <= low[i..] {
      forall j | 0 <= j < |word|
        ensures SameLetter(text[i + j], word[j])
      {
        assert low[i..][j] == word[j] && low[i + j] == LowerChar(text[i + j]);
      }
      assert WordAt(text, i, word);
    }
    if p: nat :| WordAt(text, p, word) {
      forall j | 0 <= j < |word|
        ensures low[p..][j] == word[j]
      {
        assert SameLetter(text[p + j], word[j]) && low[p + j] == LowerChar(text[p + j]);
      }
      assert word <= low[p..];
    }
  }

  lemma {:induction false} KeywordsAre()
    ensures forall k | 0 <= k < |TRANSIENT_KEYWORDS| :: LowerCase(TRANSIENT_KEYWORDS[k])
    ensures TRANSIENT_KEYWORDS == ["overload", "unavailable", "limit", "quota", "capacity", "throttle", "congestion"]
  {
  }

  lemma {:induction false} TransientIffCapacity(e: StreamError)
    ensures IsTransient(e) <==> SpeaksOfCapacity(e)
  {
    KeywordsAre();
    var text := KeywordHaystack(e);
    forall k | 0 <= k < |TRANSIENT_KEYWORDS|
      ensures Contains(Lower(text), TRANSIENT_KEYWORDS[k]) <==> Mentions(text, TRANSIENT_KEYWORDS[k])
    {
      ContainsIffMentions(text, TRANSIENT_KEYWORDS[k]);
    }
    var ks := TRANSIENT_KEYWORDS;
    assert IsTransient(e) <==> exists k | 0 <= k < |ks| :: Mentions(text, ks[k]);
    SevenWords(text, ks);
  }

  lemma {:induction false} SevenWords(text: string, ks: seq<string>)
    requires |ks| == 7
    ensures (exists k | 0 <= k < |ks| :: Mentions(text, ks[k])) <==>
      || Mentions(text, ks[0]) || Mentions(text, ks[1]) || Mentions(text, ks[2]) || Mentions(text, ks[3])
      || Mentions(text, ks[4]) || Mentions(text, ks[5]) || Mentions(text, ks[6])
  {
  }

  /** Failure `t` is the first of `es` that speaks of capacity, or `t` is their number. */
  ghost predicate FirstCapacity(es: seq<StreamError>, t: nat)
  {
    && t <= |es| && (t < |es| ==> SpeaksOfCapacity(es[t]))
    && forall j | 0 <= j < t :: !SpeaksOfCapacity(es[j])
  }

  /** Failure `i` is slept off: it and all before it are retryable, and it is among the first two, or among
      the first four with one of the first three up to it speaking of capacity. */
  ghost predicate SleptOff(es: seq<StreamError>, t: nat, i: nat)
  {
    && i < |es| && (forall j | 0 <= j <= i :: es[j].Retryable?)
    && (i < 2 || (i < 4 && t <= 2 && t <= i))
  }

  /** Half a second, doubling; from the first failure that speaks of capacity, two seconds, doubling. */
  function PauseAfter(t: nat, i: nat): nat
  {
    if i < t then 500 * Pow2(i) else 2000 * Pow2(i - t)
  }

  ghost predicate PausesAre(es: seq<StreamError>, t: nat, ds: seq<nat>)
  {
    && (forall i: nat :: i < |ds| <==> SleptOff(es, t, i))
    && (forall i | 0 <= i < |ds| :: ds[i] == PauseAfter(t, i))
  }

  /** The state after `n` failures that were slept off, with the first to speak of capacity at `t`. */
  function StateAfter(t: nat, n: nat): RetryState
  {
    if n <= t then RetryState(Budget(3, 500, false), n + 1, n) else RetryState(Budget(5, 2000, true), n + 1, n - t)
  }

  lemma {:induction false} DelayAt(es: seq<StreamError>, t: nat, n: nat)
    requires FirstCapacity(es, t) && n < |es| && (forall j | 0 <= j < n :: SleptOff(es, t, j))
    ensures var (s1, delay) := NextDelay(StateAfter(t, n), es[n]);
      && (delay.Some? <==> SleptOff(es, t, n))
      && (delay.Some? ==> delay.value == PauseAfter(t, n) && Advance(s1) == StateAfter(t, n + 1))
  {
    TransientIffCapacity(es[n]);
    if n > 0 {
      assert SleptOff(es, t, n - 1);
    }
  }

  /** From the `n`-th failure on, the sleeps are those of the failures slept off. */
  ghost predicate PausesFrom(es: seq<StreamError>, t: nat, n: nat, ds: seq<nat>)
  {
    && (forall m: nat | n <= m :: SleptOff(es, t, m) <==> m - n < |ds|)
    && (forall m: nat | n <= m < n + |ds| :: ds[m - n] == PauseAfter(t, m))
  }

  lemma {:induction false} PausesCons(es: seq<StreamError>, t: nat, n: nat, rest: seq<nat>)
    requires SleptOff(es, t, n) && PausesFrom(es, t, n + 1, rest)
    ensures PausesFrom(es, t, n, [PauseAfter(t, n)] + rest)
  {
  }

  lemma {:induction false} NoPauseAfter(es: seq<StreamError>, t: nat, n: nat)
    requires !SleptOff(es, t, n) && forall j | 0 <= j < n :: SleptOff(es, t, j)
    ensures PausesFrom(es, t, n, [])
  {
    forall m: nat | n <= m
      ensures !SleptOff(es, t, m)
    {
    }
  }

  lemma {:induction false} SleepsFrom(es: seq<StreamError>, t: nat, n: nat)
    requires FirstCapacity(es, t) && n <= |es| && (forall j | 0 <= j < n :: SleptOff(es, t, j))
    ensures PausesFrom(es, t, n, Sleeps(StateAfter(t, n), es[n..]))
    decreases |es| - n
  {
    if n < |es| {
      DelayAt(es, t, n);
      assert es[n..][0] == es[n] && es[n..][1..] == es[n + 1..];
      if SleptOff(es, t, n) {
        SleepsFrom(es, t, n + 1);
        PausesCons(es, t, n, Sleeps(StateAfter(t, n + 1), es[n + 1..]));
      } else {
        NoPauseAfter(es, t, n);
      }
    } else {
      NoPauseAfter(es, t, n);
    }
  }

  /**
   * For every sequence of failures: which are slept off and for how long, exactly. Without a word of
   * capacity that is the first two, after 500 and 1000 ms; with one in the first three, the first four,
   * and from it on the pauses are 2, 4, 8, 16 s; nothing is slept off from the first fatal failure on.
   */
  lemma {:induction false} PausesAreExactly(es: seq<StreamError>, t: nat)
    requires FirstCapacity(es, t)
    ensures PausesAre(es, t, Sleeps(FRESH, es))
  {
    SleepsFrom(es, t, 0);
    assert es[0..] == es && StateAfter(t, 0) == FRESH;
    assert forall i | 0 <= i < |Sleeps(FRESH, es)| :: Sleeps(FRESH, es)[i] == Sleeps(FRESH, es)[i - 0] == PauseAfter(t, i);
  }

  /** Retryable failures without a word of capacity are retried exactly twice, after 500 and 1000 ms. */
  lemma {:induction false} OrdinaryPauses(es: seq<StreamError>)
    requires |es| >= 2 && forall e | e in es :: e.Retryable? && !SpeaksOfCapacity(e)
    ensures Sleeps(FRESH, es) == [500, 1000]
  {
    PausesAreExactly(es, |es|);
    var ds := Sleeps(FRESH, es);
    assert SleptOff(es, |es|, 0) && SleptOff(es, |es|, 1) && !SleptOff(es, |es|, 2);
    assert Pow2(0) == 1 && Pow2(1) == 2;
  }

  lemma {:induction false} SomeFirstCapacity(es: seq<StreamError>) returns (t: nat)
    ensures FirstCapacity(es, t)
  {
    t := 0;
    while t < |es| && !SpeaksOfCapacity(es[t])
      invariant t <= |es| && forall j | 0 <= j < t :: !SpeaksOfCapacity(es[j])
    {
      t := t + 1;
    }
  }
}
