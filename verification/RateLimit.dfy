/** The per-fingerprint rate limiter, which forgets old fingerprints on every call, against the
    limiter that never forgets and against the rule both are meant to implement. */
module RateLimit {

  const WINDOW: nat := 60
  const PRUNE_AFTER: nat := 600

  datatype Event<K> = Event(key: K, at: nat)

  /** Elapsed time, zero when `last` lies in the future. */
  function Since(now: nat, last: nat): nat
  {
    if now > last then now - last else 0
  }

  function Retain<K>(m: map<K, nat>, now: nat, prune: nat): map<K, nat>
  {
    map k | k in m && Since(now, m[k]) < prune :: m[k]
  }

  predicate Admits<K>(m: map<K, nat>, e: Event<K>, window: nat)
  {
    !(e.key in m && Since(e.at, m[e.key]) < window)
  }

  function Record<K>(m: map<K, nat>, e: Event<K>, window: nat): map<K, nat>
  {
    if Admits(m, e, window) then m[e.key := e.at] else m
  }

  // ---- Whole call sequences ----

  /** The map after the first `n` calls. */
  ghost function Pruned<K(!new)>(es: seq<Event<K>>, n: nat, window: nat, prune: nat): map<K, nat>
    requires n <= |es|
  {
    if n == 0 then map[]
    else Record(Retain(Pruned(es, n - 1, window, prune), es[n - 1].at, prune), es[n - 1], window)
  }

  /** The same for a limiter that never prunes. */
  ghost function Full<K(!new)>(es: seq<Event<K>>, n: nat, window: nat): map<K, nat>
    requires n <= |es|
  {
    if n == 0 then map[] else Record(Full(es, n - 1, window), es[n - 1], window)
  }

  /** Whether call `i` is told to send. */
  ghost predicate Sends<K(!new)>(es: seq<Event<K>>, i: nat, window: nat, prune: nat)
    requires i < |es|
  {
    Admits(Retain(Pruned(es, i, window, prune), es[i].at, prune), es[i], window)
  }

  ghost predicate FullSends<K(!new)>(es: seq<Event<K>>, i: nat, window: nat)
    requires i < |es|
  {
    Admits(Full(es, i, window), es[i], window)
  }

  /** The rule: an event goes out unless an earlier one with its key went out less than a window
      before it. */
  ghost predicate Allowed<K(!new)>(es: seq<Event<K>>, i: nat, window: nat)
    requires i < |es|
    decreases i
  {
    forall j: nat | j < i && es[j].key == es[i].key && Allowed(es, j, window) :: Since(es[i].at, es[j].at) >= window
  }

  /** No timestamp is more than `d` behind an earlier one. */
  ghost predicate LagsAtMost<K(!new)>(es: seq<Event<K>>, d: nat)
  {
    forall i, j | 0 <= i < j < |es| :: es[i].at <= es[j].at + d
  }

  ghost predicate PruningInvisible<K(!new)>(es: seq<Event<K>>, window: nat, prune: nat)
  {
    forall i: nat | i < |es| :: Sends(es, i, window, prune) == FullSends(es, i, window)
  }

  // ---- The unpruned limiter implements the rule ----

  /** The recorded time for a key is that of the latest event sent for it. */
  ghost predicate Tracks<K(!new)>(m: map<K, nat>, es: seq<Event<K>>, n: nat, window: nat)
    requires n <= |es|
  {
    && (forall k | k in m :: exists j: nat | j < n :: es[j] == Event(k, m[k]) && Allowed(es, j, window))
    && (forall j: nat | j < n && Allowed(es, j, window) :: es[j].key in m && es[j].at <= m[es[j].key])
  }

  lemma {:induction false} AdmitsIffAllowed<K(!new)>(m: map<K, nat>, es: seq<Event<K>>, n: nat, window: nat)
    requires n < |es| && Tracks(m, es, n, window)
    ensures Admits(m, es[n], window) <==> Allowed(es, n, window)
  {
    var e := es[n];
    if e.key in m && Since(e.at, m[e.key]) < window {
      var j: nat :| j < n && es[j] == Event(e.key, m[e.key]) && Allowed(es, j, window);
    } else {
      forall j: nat | j < n && es[j].key == e.key && Allowed(es, j, window)
        ensures Since(e.at, es[j].at) >= window
      {
      }
    }
  }

  lemma {:induction false} RecordTracks<K(!new)>(m: map<K, nat>, es: seq<Event<K>>, n: nat, window: nat)
    requires n < |es| && 0 < window && Tracks(m, es, n, window)
    ensures Tracks(Record(m, es[n], window), es, n + 1, window)
  {
    AdmitsIffAllowed(m, es, n, window);
    var m' := Record(m, es[n], window);
    forall k | k in m'
      ensures exists j: nat | j < n + 1 :: es[j] == Event(k, m'[k]) && Allowed(es, j, window)
    {
      RecordedWasSent(m, es, n, window, k);
    }
    forall j: nat | j < n + 1 && Allowed(es, j, window)
      ensures es[j].key in m' && es[j].at <= m'[es[j].key]
    {
      SentIsRecorded(m, es, n, window, j);
    }
  }

  lemma {:induction false} SentIsRecorded<K(!new)>(m: map<K, nat>, es: seq<Event<K>>, n: nat, window: nat, j: nat)
    requires j <= n < |es| && 0 < window && Allowed(es, j, window)
    requires Tracks(m, es, n, window) && (Admits(m, es[n], window) <==> Allowed(es, n, window))
    ensures var m' := Record(m, es[n], window); es[j].key in m' && es[j].at <= m'[es[j].key]
  {
    if j < n {
      assert es[j].key in m && es[j].at <= m[es[j].key];
    }
  }

  lemma {:induction false} RecordedWasSent<K(!new)>(m: map<K, nat>, es: seq<Event<K>>, n: nat, window: nat, k: K)
    requires n < |es| && Tracks(m, es, n, window) && (Admits(m, es[n], window) <==> Allowed(es, n, window))
    requires k in Record(m, es[n], window)
    ensures exists j: nat | j < n + 1 :: es[j] == Event(k, Record(m, es[n], window)[k]) && Allowed(es, j, window)
  {
    var e, m' := es[n], Record(m, es[n], window);
    if Admits(m, e, window) && k == e.key {
      assert es[n] == Event(k, m'[k]);
    } else {
      var j: nat :| j < n && es[j] == Event(k, m[k]) && Allowed(es, j, window);
      assert j < n + 1;
    }
  }

  lemma {:induction false} TracksNext<K(!new)>(m: map<K, nat>, es: seq<Event<K>>, n: nat, window: nat)
    requires 0 < n <= |es| && 0 < window && Tracks(m, es, n - 1, window)
    ensures Tracks(Record(m, es[n - 1], window), es, n, window)
  {
    RecordTracks(m, es, n - 1, window);
  }

  lemma {:induction false} FullTracks<K(!new)>(es: seq<Event<K>>, n: nat, window: nat)
    requires n <= |es| && 0 < window
    ensures Tracks(Full(es, n, window), es, n, window)
  {
    if n > 0 {
      FullTracks(es, n - 1, window);
      TracksNext(Full(es, n - 1, window), es, n, window);
    }
  }

  /** For every call sequence whatsoever, the limiter that never prunes sends exactly the events the
      rule allows. */
  lemma {:induction false} FullIsTheRule<K(!new)>(es: seq<Event<K>>, i: nat, window: nat)
    requires i < |es|
    ensures FullSends(es, i, window) <==> Allowed(es, i, window)
  {
    if window > 0 {
      FullTracks(es, i, window);
      AdmitsIffAllowed(Full(es, i, window), es, i, window);
    } else {
      assert Allowed(es, i, window);
    }
  }

  // ---- Pruning ----

  /** The latest time among the first `n` calls. */
  function Peak<K>(es: seq<Event<K>>, n: nat): nat
    requires n <= |es|
  {
    if n == 0 then 0 else if es[n - 1].at > Peak(es, n - 1) then es[n - 1].at else Peak(es, n - 1)
  }

  lemma {:induction false} PeakIsReached<K(!new)>(es: seq<Event<K>>, n: nat) returns (i: nat)
    requires n <= |es| && Peak(es, n) > 0
    ensures i < n && es[i].at == Peak(es, n)
  {
    if es[n - 1].at == Peak(es, n) {
      i := n - 1;
    } else {
      i := PeakIsReached(es, n - 1);
    }
  }

  lemma {:induction false} PeakLag<K(!new)>(es: seq<Event<K>>, n: nat, d: nat)
    requires n < |es| && LagsAtMost(es, d)
    ensures Peak(es, n) <= es[n].at + d
  {
    if Peak(es, n) > 0 {
      var i := PeakIsReached(es, n);
    }
  }

  /** The pruned map is part of the full one, and what it lacks is at least `prune` older than `peak`. */
  ghost predicate Covers<K(!new)>(p: map<K, nat>, m: map<K, nat>, peak: nat, prune: nat)
  {
    && (forall k | k in p :: k in m && p[k] == m[k])
    && (forall k | k in m && k !in p :: m[k] + prune <= peak)
  }

  /** One call with both limiters: the same answer, and the pruned map still covers the full one. */
  lemma {:induction false} CallCovers<K(!new)>(p: map<K, nat>, m: map<K, nat>, e: Event<K>, peak: nat, window: nat, prune: nat, d: nat)
    requires Covers(p, m, peak, prune) && peak <= e.at + d && d + window <= prune && 0 < window
    ensures var q := Retain(p, e.at, prune);
      && Admits(q, e, window) == Admits(m, e, window)
      && Covers(Record(q, e, window), Record(m, e, window), if e.at > peak then e.at else peak, prune)
  {
    var q := Retain(p, e.at, prune);
    assert Covers(q, m, if e.at > peak then e.at else peak, prune);
  }

  lemma {:induction false} PrunedCovers<K(!new)>(es: seq<Event<K>>, n: nat, window: nat, prune: nat, d: nat)
    requires n <= |es| && LagsAtMost(es, d) && d + window <= prune && 0 < window
    ensures Covers(Pruned(es, n, window, prune), Full(es, n, window), Peak(es, n), prune)
  {
    if n > 0 {
      PrunedCovers(es, n - 1, window, prune, d);
      PeakLag(es, n - 1, d);
      CallCovers(Pruned(es, n - 1, window, prune), Full(es, n - 1, window), es[n - 1], Peak(es, n - 1), window, prune, d);
    }
  }

  lemma {:induction false} SmallLagHidesPruning<K(!new)>(es: seq<Event<K>>, window: nat, prune: nat, d: nat)
    requires LagsAtMost(es, d) && (window == 0 || d + window <= prune)
    ensures PruningInvisible(es, window, prune)
  {
    if window > 0 {
      forall i: nat | i < |es|
        ensures Sends(es, i, window, prune) == FullSends(es, i, window)
      {
        PrunedCovers(es, i, window, prune, d);
        PeakLag(es, i, d);
        CallCovers(Pruned(es, i, window, prune), Full(es, i, window), es[i], Peak(es, i), window, prune, d);
      }
    }
  }

  /** One event of `a`, one of `b` that prunes it, and `a` again just inside its window. */
  ghost function Straggler<K(!new)>(a: K, b: K, window: nat, prune: nat): seq<Event<K>>
    requires window > 0
  {
    [Event(a, 0), Event(b, prune), Event(a, if window - 1 <= prune then window - 1 else prune)]
  }

  lemma {:induction false} StragglerShows<K(!new)>(a: K, b: K, window: nat, prune: nat, d: nat)
    requires a != b && window > 0 && d + window > prune
    ensures LagsAtMost(Straggler(a, b, window, prune), d)
    ensures !PruningInvisible(Straggler(a, b, window, prune), window, prune)
  {
    var es := Straggler(a, b, window, prune);
    var m1 := map[a := 0];
    assert Pruned(es, 0, window, prune) == map[] && Full(es, 0, window) == map[];
    assert Full(es, 1, window) == m1;
    assert Retain(Pruned(es, 0, window, prune), es[0].at, prune) == map[];
    assert Pruned(es, 1, window, prune) == m1;
    assert Retain(m1, es[1].at, prune) == map[];
    assert a !in Pruned(es, 2, window, prune);
    assert Full(es, 2, window)[a] == 0;
    assert Sends(es, 2, window, prune) && !FullSends(es, 2, window);
  }

  /** Pruning is invisible to every call sequence whose timestamps lag by at most `d`, precisely
      when the lag and the window together fit into the pruning age. */
  lemma {:induction false} PruningInvisibleIff<K(!new)>(a: K, b: K, window: nat, prune: nat, d: nat)
    requires a != b
    ensures (forall es: seq<Event<K>> | LagsAtMost(es, d) :: PruningInvisible(es, window, prune))
            <==> window == 0 || d + window <= prune
  {
    if window == 0 || d + window <= prune {
      forall es: seq<Event<K>> | LagsAtMost(es, d)
        ensures PruningInvisible(es, window, prune)
      {
        SmallLagHidesPruning(es, window, prune, d);
      }
    } else {
      StragglerShows(a, b, window, prune, d);
    }
  }

  /** Events sent for one key are at least a window apart: in call order with any timestamps when
      nothing is pruned, and for the real limiter within the lag it tolerates. */
  lemma {:induction false} SentEventsAreAWindowApart<K(!new)>(es: seq<Event<K>>, window: nat, prune: nat, d: nat, i: nat, j: nat)
    requires i < j < |es| && es[i].key == es[j].key
    ensures window > 0 && FullSends(es, i, window) && FullSends(es, j, window) ==> es[i].at + window <= es[j].at
    ensures window > 0 && LagsAtMost(es, d) && d + window <= prune
            && Sends(es, i, window, prune) && Sends(es, j, window, prune)
            ==> es[i].at + window <= es[j].at
  {
    FullIsTheRule(es, i, window);
    FullIsTheRule(es, j, window);
    if LagsAtMost(es, d) && d + window <= prune {
      SmallLagHidesPruning(es, window, prune, d);
    }
  }

  lemma {:induction false} PrunedPrefix<K(!new)>(es: seq<Event<K>>, e: Event<K>, n: nat, window: nat, prune: nat)
    requires n <= |es|
    ensures Pruned(es + [e], n, window, prune) == Pruned(es, n, window, prune)
  {
    if n > 0 {
      PrunedPrefix(es, e, n - 1, window, prune);
    }
  }

  /** The limiter as the Sentry hook uses it; the lock is held for the whole call. */
  class Limiter<K(==, !new)> {
    var last: map<K, nat>
    ghost var calls: seq<Event<K>>

    ghost predicate Valid()
      reads this
    {
      last == Pruned(calls, |calls|, WINDOW, PRUNE_AFTER)
    }

    constructor ()
      ensures Valid() && calls == []
    {
      last := map[];
      calls := [];
    }

    method ShouldSendInner(key: K, now: nat, window: nat, prune: nat) returns (send: bool)
      modifies this`last
      ensures send == Admits(old(Retain(last, now, prune)), Event(key, now), window)
      ensures last == Record(old(Retain(last, now, prune)), Event(key, now), window)
    {
      last := map k | k in last && Since(now, last[k]) < prune :: last[k];
      if key in last && Since(now, last[key]) < window {
        send := false;
      } else {
        last := last[key := now];
        send := true;
      }
    }

    /** As long as no clock reading lags an earlier one by more than nine minutes, every answer over
        the limiter's whole life is the rule's. */
    method ShouldSend(key: K, now: nat) returns (send: bool)
      requires Valid()
      modifies this
      ensures Valid() && calls == old(calls) + [Event(key, now)]
      ensures LagsAtMost(calls, 540) ==> send == Allowed(calls, |old(calls)|, 60)
    {
      ghost var n, all := |calls|, calls + [Event(key, now)];
      PrunedPrefix(calls, Event(key, now), n, WINDOW, PRUNE_AFTER);
      send := ShouldSendInner(key, now, WINDOW, PRUNE_AFTER);
      calls := all;
      assert send == Sends(all, n, WINDOW, PRUNE_AFTER);
      if LagsAtMost(all, PRUNE_AFTER - WINDOW) {
        SmallLagHidesPruning(all, WINDOW, PRUNE_AFTER, PRUNE_AFTER - WINDOW);
        FullIsTheRule(all, n, WINDOW);
      }
    }
  }
}
