/**
 * Ownership of one agent's tunnel in the Redis backend: the owner key with its expiry, and the
 * leases (tunnels) that set, renew and delete it. The keys of different agents never interact,
 * so one agent is modelled. Each Lua script and each SET is one atomic step; time is explicit.
 */
module RedisLease {
  import opened Prelude

  type InstanceId = string
  type LeaseId = nat

  const LEASE_TTL_MS: nat := 30_000

  datatype OwnerKey = OwnerKey(instance: InstanceId, expires: nat)

  /** Held, then either dropped (release script still to run) and released, or crashed. */
  datatype Stage = Held | Dropped | Released | Crashed

  datatype Lease = Lease(instance: InstanceId, beating: bool, stage: Stage)

  datatype State = State(now: nat, key: Option<OwnerKey>, leases: map<LeaseId, Lease>, latest: Option<LeaseId>)

  predicate Initial(s: State)
  {
    s.key.None? && s.leases == map[] && s.latest.None?
  }

  /** What `GET owner` answers now. */
  function Owner(s: State): (r: Option<InstanceId>)
    ensures r.Some? <==> s.key.Some? && s.now < s.key.value.expires
  {
    if s.key.Some? && s.now < s.key.value.expires then Some(s.key.value.instance) else None
  }

  datatype DeliveryOutcome = Live | NoTunnel

  /** DELIVER_SCRIPT: the frame goes to the inbox exactly when the owner key exists. */
  function Deliver(s: State): (r: DeliveryOutcome)
  {
    if Owner(s).Some? then Live else NoTunnel
  }

  datatype Event =
    | Advance(ms: nat)
    | Acquire(l: LeaseId, instance: InstanceId)
    | Heartbeat(l: LeaseId)
    | HeartbeatError(l: LeaseId, applied: bool)
    | Drop(l: LeaseId)
    | Release(l: LeaseId)
    | Crash(l: LeaseId)

  predicate Enabled(s: State, e: Event)
  {
    match e
    case Advance(_) => true
    case Acquire(l, _) => l !in s.leases
    case Heartbeat(l) => l in s.leases && s.leases[l].beating
    case HeartbeatError(l, _) => l in s.leases && s.leases[l].beating
    case Drop(l) => l in s.leases && s.leases[l].stage.Held?
    case Release(l) => l in s.leases && s.leases[l].stage.Dropped?
    case Crash(l) => l in s.leases && (s.leases[l].stage.Held? || s.leases[l].stage.Dropped?)
  }

  /** HEARTBEAT_SCRIPT: extend the key only if it still carries this instance id. */
  function CasExpire(s: State, i: InstanceId): (r: (State, bool))
  {
    if Owner(s) == Some(i) then (s.(key := Some(OwnerKey(i, s.now + LEASE_TTL_MS))), true) else (s, false)
  }

  /** RELEASE_SCRIPT: delete the key only if it still carries this instance id. */
  function CasDel(s: State, i: InstanceId): (r: (State, bool))
  {
    if Owner(s) == Some(i) then (s.(key := None), true) else (s, false)
  }

  function WithLease(s: State, l: LeaseId, lease: Lease): State
  {
    s.(leases := s.leases[l := lease])
  }

  function Apply(s: State, e: Event): State
    requires Enabled(s, e)
  {
    match e
    case Advance(ms) => s.(now := s.now + ms)
    case Acquire(l, i) =>
      State(s.now, Some(OwnerKey(i, s.now + LEASE_TTL_MS)), s.leases[l := Lease(i, true, Held)], Some(l))
    case Heartbeat(l) =>
      var (s1, renewed) := CasExpire(s, s.leases[l].instance);
      if renewed then s1 else WithLease(s1, l, s.leases[l].(beating := false))
    case HeartbeatError(l, applied) =>
      var s1 := if applied then CasExpire(s, s.leases[l].instance).0 else s;
      WithLease(s1, l, s.leases[l].(beating := false))
    case Drop(l) => WithLease(s, l, s.leases[l].(beating := false, stage := Dropped))
    case Release(l) =>
      WithLease(CasDel(s, s.leases[l].instance).0, l, s.leases[l].(stage := Released))
    case Crash(l) => WithLease(s, l, s.leases[l].(beating := false, stage := Crashed))
  }

  predicate Valid(s: State, es: seq<Event>)
    decreases |es|
  {
    es == [] || (Enabled(s, es[0]) && Valid(Apply(s, es[0]), es[1..]))
  }

  function Final(s: State, es: seq<Event>): State
    requires Valid(s, es)
    decreases |es|
  {
    if es == [] then s else Final(Apply(s, es[0]), es[1..])
  }

  /** A holder may leave or crash at any time, also between leaving and its release, and any heartbeat may
      fail, whether it took effect or not. */
  lemma {:induction false} FaultsStrikeAnytime(s: State, l: LeaseId, applied: bool)
    requires l in s.leases
    ensures s.leases[l].stage.Held? ==> Enabled(s, Drop(l)) && Enabled(s, Crash(l))
    ensures s.leases[l].stage.Dropped? ==> Enabled(s, Release(l)) && Enabled(s, Crash(l))
    ensures s.leases[l].beating ==> Enabled(s, Heartbeat(l)) && Enabled(s, HeartbeatError(l, applied))
  {
  }

  // ---------- Invariant of all runs ----------

  /**
   * Whoever the key names is the instance of the latest acquirer: a superseded holder never gets
   * the key back. Only held leases beat, and no expiry lies more than a TTL ahead.
   */
  predicate Inv(s: State)
  {
    && (s.latest.Some? ==> s.latest.value in s.leases)
    && (s.key.Some? ==>
          && s.latest.Some?
          && s.key.value.instance == s.leases[s.latest.value].instance
          && s.key.value.expires <= s.now + LEASE_TTL_MS)
    && (forall l | l in s.leases && s.leases[l].beating :: s.leases[l].stage.Held?)
  }

  lemma {:induction false} OwnerIsLatestAcquirer(s: State, es: seq<Event>)
    requires Inv(s) && Valid(s, es)
    ensures Inv(Final(s, es))
    decreases |es|
  {
    if es != [] {
      OwnerIsLatestAcquirer(Apply(s, es[0]), es[1..]);
    }
  }

  /** In every reachable state a non-empty owner key names the instance that acquired last. */
  lemma {:induction false} OwnerIsAlwaysLatest(s0: State, es: seq<Event>)
    requires Initial(s0) && Valid(s0, es)
    ensures var s := Final(s0, es);
      Owner(s).Some? ==>
        s.latest.Some? && s.latest.value in s.leases && Owner(s).value == s.leases[s.latest.value].instance
  {
    OwnerIsLatestAcquirer(s0, es);
  }

  // ---------- When `deliver` answers Live throughout ----------

  /** `deliver` would answer Live at every moment of the run. */
  predicate AlwaysLive(s: State, es: seq<Event>)
    requires Valid(s, es)
    decreases |es|
  {
    Deliver(s).Live? && (es == [] || AlwaysLive(Apply(s, es[0]), es[1..]))
  }

  /** Which instance a lease belongs to, as far as leases are known. */
  predicate BelongsTo(who: map<LeaseId, InstanceId>, l: LeaseId, i: InstanceId)
  {
    l in who && who[l] == i
  }

  /**
   * With the key in the name of instance `i` and `since` ms gone since it was last written: no TTL ever
   * passes between two writes, where acquisitions write in the name of the acquirer and heartbeats of
   * any lease of the instance in whose name it is renew it; and no lease of that instance is released.
   */
  predicate Sustained(who: map<LeaseId, InstanceId>, i: InstanceId, since: nat, es: seq<Event>)
    decreases |es|
  {
    es == [] ||
    match es[0]
    case Advance(ms) => since + ms < 30_000 && Sustained(who, i, since + ms, es[1..])
    case Acquire(l, j) => Sustained(who[l := j], j, 0, es[1..])
    case Heartbeat(l) => Sustained(who, i, if BelongsTo(who, l, i) then 0 else since, es[1..])
    case HeartbeatError(l, applied) => Sustained(who, i, if applied && BelongsTo(who, l, i) then 0 else since, es[1..])
    case Release(l) => !BelongsTo(who, l, i) && Sustained(who, i, since, es[1..])
    case _ => Sustained(who, i, since, es[1..])
  }

  function Instances(s: State): map<LeaseId, InstanceId>
  {
    map l | l in s.leases :: s.leases[l].instance
  }

  /** The key is in the name of `i`, last written `since` ms ago. */
  predicate WrittenFor(s: State, i: InstanceId, since: nat)
  {
    since < 30_000 && s.key == Some(OwnerKey(i, s.now + 30_000 - since))
  }

  /** For every run from any state in which the key is live, whoever acquires, renews, leaves or crashes
      in it: `deliver` answers Live at every moment if and only if the key is sustained. */
  lemma {:induction false} AlwaysLiveIff(s: State, i: InstanceId, since: nat, es: seq<Event>)
    requires Valid(s, es) && WrittenFor(s, i, since)
    ensures AlwaysLive(s, es) <==> Sustained(Instances(s), i, since, es)
    decreases |es|
  {
    if es != [] {
      var e, s', rest := es[0], Apply(s, es[0]), es[1..];
      match e
      case Advance(ms) =>
        assert Instances(s') == Instances(s);
        if since + ms < LEASE_TTL_MS {
          AlwaysLiveIff(s', i, since + ms, rest);
        } else {
          assert Deliver(s').NoTunnel?;
        }
      case Acquire(l, j) =>
        assert Instances(s') == Instances(s)[l := j];
        AlwaysLiveIff(s', j, 0, rest);
      case Release(l) =>
        assert Instances(s') == Instances(s);
        if s.leases[l].instance == i {
          assert Deliver(s').NoTunnel?;
        } else {
          AlwaysLiveIff(s', i, since, rest);
        }
      case Heartbeat(l) =>
        assert Instances(s') == Instances(s);
        AlwaysLiveIff(s', i, if s.leases[l].instance == i then 0 else since, rest);
      case HeartbeatError(l, applied) =>
        assert Instances(s') == Instances(s);
        AlwaysLiveIff(s', i, if applied && s.leases[l].instance == i then 0 else since, rest);
      case Drop(l) =>
        assert Instances(s') == Instances(s);
        AlwaysLiveIff(s', i, since, rest);
      case Crash(l) =>
        assert Instances(s') == Instances(s);
        AlwaysLiveIff(s', i, since, rest);
    }
  }

  // ---------- A punctual latest holder ----------

  /** `l` acquired last, and no other lease that could still act shares its instance id. */
  predicate Undisputed(s: State, l: LeaseId)
  {
    && Inv(s) && s.latest == Some(l)
    && forall m | m in s.leases && m != l && s.leases[m].instance == s.leases[l].instance ::
         s.leases[m].stage.Released? || s.leases[m].stage.Crashed?
  }

  /** Nobody acquires anew, and `l` is not released. It may lose heartbeat calls, be dropped or crash. */
  predicate KeepsHolding(l: LeaseId, es: seq<Event>)
  {
    forall e | e in es :: !e.Acquire? && e != Release(l)
  }

  /** The heartbeat script runs for `l`, whether or not its caller hears of it. */
  predicate Renews(e: Event, l: LeaseId)
  {
    e == Heartbeat(l) || e == HeartbeatError(l, true)
  }

  /** With `since` ms gone since the last renewal, the gaps between renewals stay under the TTL. */
  predicate Punctual(l: LeaseId, since: nat, es: seq<Event>)
    decreases |es|
  {
    es == [] ||
    match es[0]
    case Advance(ms) => since + ms < 30_000 && Punctual(l, since + ms, es[1..])
    case _ => Punctual(l, if Renews(es[0], l) then 0 else since, es[1..])
  }

  /** Every heartbeat of another lease fails its comparison and ends that heartbeat task. */
  predicate SupersededHeartbeatsStop(s: State, l: LeaseId, es: seq<Event>)
    requires Valid(s, es)
    decreases |es|
  {
    es == [] ||
    (&& (es[0].Heartbeat? && es[0].l != l ==> !Apply(s, es[0]).leases[es[0].l].beating)
     && SupersededHeartbeatsStop(Apply(s, es[0]), l, es[1..]))
  }

  /** No step but a renewal by `l` writes the owner key. */
  predicate OnlyHolderTouchesKey(s: State, l: LeaseId, es: seq<Event>)
    requires Valid(s, es)
    decreases |es|
  {
    es == [] ||
    (&& (!Renews(es[0], l) ==> Apply(s, es[0]).key == s.key)
     && OnlyHolderTouchesKey(Apply(s, es[0]), l, es[1..]))
  }

  lemma {:induction false} UndisputedStep(s: State, l: LeaseId, since: nat, e: Event)
    requires Undisputed(s, l) && Enabled(s, e) && KeepsHolding(l, [e])
    requires since < LEASE_TTL_MS
    requires s.key == Some(OwnerKey(s.leases[l].instance, s.now + LEASE_TTL_MS - since))
    ensures var s' := Apply(s, e);
      && (e.Advance? && since + e.ms >= LEASE_TTL_MS ==> Deliver(s').NoTunnel?)
      && (e.Advance? && since + e.ms < LEASE_TTL_MS ==>
            && Undisputed(s', l) && s'.leases[l].instance == s.leases[l].instance
            && s'.key == Some(OwnerKey(s.leases[l].instance, s'.now + LEASE_TTL_MS - (since + e.ms))))
      && (Renews(e, l) ==>
            && Undisputed(s', l) && s'.leases[l].instance == s.leases[l].instance
            && s'.key == Some(OwnerKey(s.leases[l].instance, s'.now + LEASE_TTL_MS)))
      && (!e.Advance? && !Renews(e, l) ==>
            Undisputed(s', l) && s'.leases[l].instance == s.leases[l].instance && s'.key == s.key && s'.now == s.now)
      && (e.Heartbeat? && e.l != l ==> !s'.leases[e.l].beating)
  {
    assert e in [e];
  }

  /**
   * For a latest acquirer whose instance id no still-active lease shares, as long as it is not
   * released: `deliver` answers Live at every moment if and only if its renewals come with gaps under
   * the TTL, failed calls that took effect included. While they do, no late heartbeat
   * or release of a superseded holder touches its key, and every superseded heartbeat stops.
   */
  lemma {:induction false} LiveExactlyWhilePunctual(s: State, l: LeaseId, since: nat, es: seq<Event>)
    requires Undisputed(s, l) && Valid(s, es) && KeepsHolding(l, es)
    requires since < LEASE_TTL_MS
    requires s.key == Some(OwnerKey(s.leases[l].instance, s.now + LEASE_TTL_MS - since))
    ensures AlwaysLive(s, es) <==> Punctual(l, since, es)
    ensures Punctual(l, since, es) ==>
      && Owner(Final(s, es)) == Some(s.leases[l].instance)
      && OnlyHolderTouchesKey(s, l, es)
      && SupersededHeartbeatsStop(s, l, es)
    decreases |es|
  {
    if es != [] {
      var e, s' := es[0], Apply(s, es[0]);
      assert forall x | x in [e] :: x in es;
      assert forall x | x in es[1..] :: x in es;
      UndisputedStep(s, l, since, e);
      if e.Advance? {
        if since + e.ms < LEASE_TTL_MS {
          LiveExactlyWhilePunctual(s', l, since + e.ms, es[1..]);
        } else {
          assert !AlwaysLive(s', es[1..]);
        }
      } else {
        LiveExactlyWhilePunctual(s', l, if Renews(e, l) then 0 else since, es[1..]);
      }
    }
  }

  /** The same from the moment of acquisition, in any reachable state. */
  lemma {:induction false} AcquireThenLive(s: State, l: LeaseId, i: InstanceId, es: seq<Event>)
    requires Inv(s) && Enabled(s, Acquire(l, i))
    requires forall m | m in s.leases && s.leases[m].instance == i ::
      s.leases[m].stage.Released? || s.leases[m].stage.Crashed?
    requires Valid(Apply(s, Acquire(l, i)), es) && KeepsHolding(l, es)
    ensures var s1 := Apply(s, Acquire(l, i));
      && (AlwaysLive(s1, es) <==> Punctual(l, 0, es))
      && (Punctual(l, 0, es) ==>
            && Owner(Final(s1, es)) == Some(i)
            && OnlyHolderTouchesKey(s1, l, es)
            && SupersededHeartbeatsStop(s1, l, es))
  {
    LiveExactlyWhilePunctual(Apply(s, Acquire(l, i)), l, 0, es);
  }

  // ---------- Losing the key ----------

  /** Once the key has lapsed or been deleted, only a new acquisition brings it back. */
  lemma {:induction false} LapsedStaysLapsed(s: State, es: seq<Event>)
    requires Valid(s, es) && Owner(s).None?
    requires forall e | e in es :: !e.Acquire?
    ensures Owner(Final(s, es)).None?
    decreases |es|
  {
    if es != [] {
      assert es[0] in es;
      assert forall e | e in es[1..] :: e in es;
      LapsedStaysLapsed(Apply(s, es[0]), es[1..]);
    }
  }

  /**
   * The comparison is by instance, not by lease: a late release spares the current owner exactly
   * when it comes from a different instance.
   */
  lemma {:induction false} ReleaseSparesOwnerIff(s: State, m: LeaseId)
    requires Enabled(s, Release(m)) && Owner(s).Some?
    ensures Owner(Apply(s, Release(m))) == Owner(s) <==> s.leases[m].instance != Owner(s).value
  {
  }

  /** A reconnect on the same instance followed by the old tunnel's release leaves no owner. */
  lemma {:induction false} SameInstanceReleaseEvictsNewer()
    ensures var s0 := State(0, None, map[], None);
      var run := [Acquire(0, "i"), Drop(0), Acquire(1, "i"), Release(0)];
      && Valid(s0, run)
      && Final(s0, run).leases[1] == Lease("i", true, Held)
      && Deliver(Final(s0, run)).NoTunnel?
  {
    var s0 := State(0, None, map[], None);
    var s1 := Apply(s0, Acquire(0, "i"));
    var s2 := Apply(s1, Drop(0));
    var s3 := Apply(s2, Acquire(1, "i"));
    var s4 := Apply(s3, Release(0));
    var r4 := [Release(0)];
    var r3 := [Acquire(1, "i")] + r4;
    var r2 := [Drop(0)] + r3;
    assert r4[1..] == [] && Valid(s4, []);
    assert Valid(s3, r4) && Final(s3, r4) == s4;
    assert r3[1..] == r4 && Valid(s2, r3) && Final(s2, r3) == s4;
    assert r2[1..] == r3 && Valid(s1, r2) && Final(s1, r2) == s4;
    assert [Acquire(0, "i"), Drop(0), Acquire(1, "i"), Release(0)][1..] == r2;
  }

  // ---------- The code that issues these steps ----------

  class LeaseServer {
    var s: State

    constructor ()
      ensures Initial(s) && Inv(s)
    {
      s := State(0, None, map[], None);
    }

    /** GET, PUBLISH takeover if somebody else owned the key then, and SET EX without NX, whatever the
        others do between the two commands. */
    method AcquireLease(l: LeaseId, i: InstanceId, between: seq<Event>) returns (takeover: bool)
      requires Inv(s) && Valid(s, between) && l !in Final(s, between).leases
      modifies this
      ensures Inv(s) && s == Apply(Final(old(s), between), Acquire(l, i))
      ensures Owner(s) == Some(i) && Deliver(s).Live?
      ensures takeover <==> old(Owner(s)).Some? && old(Owner(s)).value != i
    {
      var existing := Owner(s);
      takeover := false;
      if existing.Some? {
        if existing.value != i {
          takeover := true;
        }
      }
      OwnerIsLatestAcquirer(s, between);
      s := Final(s, between);
      s := Apply(s, Acquire(l, i));
    }

    /**
     * The heartbeat task with the given pauses between its ticks, nobody else acting: started on a
     * freshly set key it survives them all exactly when each is shorter than the TTL.
     */
    method HeartbeatTask(l: LeaseId, pauses: seq<nat>) returns (ticks: nat)
      requires Inv(s) && l in s.leases && s.leases[l].beating
      requires s.key == Some(OwnerKey(s.leases[l].instance, s.now + LEASE_TTL_MS))
      modifies this
      ensures Inv(s) && ticks <= |pauses| && l in s.leases
      ensures s.leases[l].beating <==> forall k | 0 <= k < |pauses| :: pauses[k] < 30_000
      ensures s.leases[l].beating ==>
        ticks == |pauses| && s.key == Some(OwnerKey(s.leases[l].instance, s.now + LEASE_TTL_MS))
      ensures !s.leases[l].beating ==> ticks > 0 && pauses[ticks - 1] >= 30_000 && Deliver(s).NoTunnel?
      ensures s.leases == old(s.leases)[l := old(s.leases[l]).(beating := s.leases[l].beating)]
    {
      ticks := 0;
      while ticks < |pauses| && s.leases[l].beating
        invariant 0 <= ticks <= |pauses|
        invariant Inv(s) && l in s.leases
        invariant s.leases[l].beating ==>
          && s.key == Some(OwnerKey(s.leases[l].instance, s.now + LEASE_TTL_MS))
          && forall k | 0 <= k < ticks :: pauses[k] < LEASE_TTL_MS
        invariant !s.leases[l].beating ==>
          ticks > 0 && pauses[ticks - 1] >= LEASE_TTL_MS && Deliver(s).NoTunnel?
        invariant s.leases == old(s.leases)[l := old(s.leases[l]).(beating := s.leases[l].beating)]
      {
        s := Apply(s, Advance(pauses[ticks]));
        s := Apply(s, Heartbeat(l));
        ticks := ticks + 1;
      }
    }
  }
}
