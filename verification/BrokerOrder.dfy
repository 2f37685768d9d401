/** When a live frame gets ahead of buffered ones: exactly which hand-overs do it, in every run. */
module BrokerOrder {
  import opened Prelude
  import opened Broker

  // ---- States along a run ----

  function StateAt(s: State, es: seq<Event>, n: nat): State
    requires Valid(s, es) && n <= |es|
    decreases n
  {
    if n == 0 then s else StateAt(Apply(s, es[0]), es[1..], n - 1)
  }

  lemma {:induction false} StateAtStep(s: State, es: seq<Event>, n: nat)
    requires Valid(s, es) && n < |es|
    ensures Enabled(StateAt(s, es, n), es[n]) && StateAt(s, es, n + 1) == Apply(StateAt(s, es, n), es[n])
    decreases n
  {
    var s1 := Apply(s, es[0]);
    if n == 0 {
      assert StateAt(s1, es[1..], 0) == s1;
    } else {
      StateAtStep(s1, es[1..], n - 1);
    }
  }

  lemma {:induction false} StateAtEnd(s: State, es: seq<Event>)
    requires Valid(s, es)
    ensures StateAt(s, es, |es|) == Run(s, es)
    decreases |es|
  {
    if es != [] {
      StateAtEnd(Apply(s, es[0]), es[1..]);
    }
  }

  lemma {:induction false} StateAtKeepsInv(s: State, es: seq<Event>, n: nat)
    requires Valid(s, es) && n <= |es| && Inv(s)
    ensures Inv(StateAt(s, es, n))
    decreases n
  {
    if n > 0 {
      StepKeepsInv(s, es[0]);
      StateAtKeepsInv(Apply(s, es[0]), es[1..], n - 1);
    }
  }

  // ---- The property and its condition ----

  function Replays(fs: seq<FrameId>): (r: seq<Item>)
    ensures |r| == |fs| && forall i | 0 <= i < |fs| :: r[i] == Replayed(fs[i])
  {
    seq(|fs|, i requires 0 <= i < |fs| => Replayed(fs[i]))
  }

  /** What the tunnel's channel comes to once it has replayed all it drained. */
  function Eventual(v: Tunnel): seq<Item>
  {
    v.channel + Replays(Left(v))
  }

  /** Some live frame stands before a buffered one. */
  predicate Overtaken(ch: seq<Item>)
  {
    exists i, j :: 0 <= i < j < |ch| && ch[i].Straight? && ch[j].Replayed?
  }

  /** A post hands its frame to tunnel `t`, whose channel accepts it. */
  predicate HandsTo(s: State, e: Event, t: TunnelId)
  {
    && e.Hand? && e.frame in s.posts && s.posts[e.frame].phase == HasEntry(t)
    && t in s.tunnels && s.tunnels[t].open
  }

  /** ... before the tunnel has drained the buffer. */
  predicate HandsEarly(s: State, e: Event, t: TunnelId)
  {
    HandsTo(s, e, t) && s.tunnels[t].phase.Registered?
  }

  /** ... while the tunnel still has drained frames to replay. */
  predicate HandsAmid(s: State, e: Event, t: TunnelId)
  {
    HandsTo(s, e, t) && Left(s.tunnels[t]) != []
  }

  ghost predicate AnyEarly(s: State, es: seq<Event>, n: nat, t: TunnelId)
    requires Valid(s, es) && n <= |es|
  {
    exists k: nat :: k < n && HandsEarly(StateAt(s, es, k), es[k], t)
  }

  ghost predicate AnyAmid(s: State, es: seq<Event>, n: nat, t: TunnelId)
    requires Valid(s, es) && n <= |es|
  {
    exists k: nat :: k < n && HandsAmid(StateAt(s, es, k), es[k], t)
  }

  // ---- One step ----

  /** What the hand-overs so far say about a tunnel. */
  predicate Tracks(v: Tunnel, batch: seq<FrameId>, early: bool, amid: bool)
  {
    if v.phase.Registered? then !amid && (early <==> v.channel != []) && AllStraight(v.channel)
    else Overtaken(Eventual(v)) <==> amid || (early && batch != [])
  }

  predicate AllStraight(ch: seq<Item>)
  {
    forall i | 0 <= i < |ch| :: ch[i].Straight?
  }

  lemma {:induction false} NotOvertakenByReplays(ch: seq<Item>, fs: seq<FrameId>)
    requires AllStraight(ch)
    ensures Overtaken(ch + Replays(fs)) <==> ch != [] && fs != []
  {
    var all := ch + Replays(fs);
    if ch != [] && fs != [] {
      assert all[0].Straight? && all[|ch|].Replayed?;
    }
  }

  lemma {:induction false} StraightIntoChannel(ch: seq<Item>, f: FrameId, fs: seq<FrameId>)
    ensures Overtaken((ch + [Straight(f)]) + Replays(fs)) <==> Overtaken(ch + Replays(fs)) || fs != []
  {
    var was, all := ch + Replays(fs), (ch + [Straight(f)]) + Replays(fs);
    if fs != [] {
      assert all[|ch|].Straight? && all[|ch| + 1].Replayed?;
    } else {
      SnocStraight(ch, f);
      assert was == ch && all == ch + [Straight(f)];
    }
  }

  lemma {:induction false} SnocStraight(ch: seq<Item>, f: FrameId)
    ensures Overtaken(ch + [Straight(f)]) <==> Overtaken(ch)
  {
    var all := ch + [Straight(f)];
    if Overtaken(ch) {
      var i, j :| 0 <= i < j < |ch| && ch[i].Straight? && ch[j].Replayed?;
      assert all[i] == ch[i] && all[j] == ch[j];
    }
    if Overtaken(all) {
      var i, j :| 0 <= i < j < |all| && all[i].Straight? && all[j].Replayed?;
      assert j < |ch| && ch[i] == all[i] && ch[j] == all[j];
    }
  }

  lemma {:induction false} ReplayKeepsEventual(v: Tunnel)
    requires v.phase.Sending? && v.phase.left != []
    ensures var f := v.phase.left[0];
      Eventual(v.(phase := Sending(v.phase.left[1..]), channel := v.channel + [Replayed(f)])) == Eventual(v)
  {
    ReplaysCons(v.phase.left);
    Associate(v.channel, [Replayed(v.phase.left[0])], Replays(v.phase.left[1..]));
  }

  lemma {:induction false} ReplaysCons(fs: seq<FrameId>)
    requires fs != []
    ensures Replays(fs) == [Replayed(fs[0])] + Replays(fs[1..])
  {
  }

  /** What one step does to the channel and the batch of tunnel `t`. */
  lemma {:induction false} TunnelAfter(s: State, e: Event, t: TunnelId)
    requires Enabled(s, e) && t in s.tunnels
    ensures var s' := Apply(s, e);
      && t in s'.tunnels
      && var v, w, b, b' := s.tunnels[t], s'.tunnels[t], At(s.past.batch, t), At(s'.past.batch, t);
      if HandsTo(s, e, t) then w == v.(channel := v.channel + [Straight(e.frame)]) && b' == b
      else if e == Drain(t) then v.phase.Registered? && w == v.(phase := Sending(b'))
      else if e == Replay(t) then
        && v.phase.Sending? && v.phase.left != [] && b' == b
        && w == v.(phase := Sending(v.phase.left[1..]), channel := v.channel + [Replayed(v.phase.left[0])])
      else
        && w.channel == v.channel && Left(w) == Left(v) && b' == b
        && w.phase.Registered? == v.phase.Registered?
  {
  }

  lemma {:induction false} HandTracks(v: Tunnel, f: FrameId, batch: seq<FrameId>, early: bool, amid: bool)
    requires Tracks(v, batch, early, amid) && BatchOk(batch, v)
    ensures Tracks(v.(channel := v.channel + [Straight(f)]), batch, early || v.phase.Registered?, amid || Left(v) != [])
  {
    if !v.phase.Registered? {
      StraightIntoChannel(v.channel, f, Left(v));
    }
  }

  lemma {:induction false} DrainTracks(v: Tunnel, q: seq<FrameId>, batch: seq<FrameId>, early: bool, amid: bool)
    requires Tracks(v, batch, early, amid) && v.phase.Registered?
    ensures Tracks(v.(phase := Sending(q)), q, early, amid)
  {
    NotOvertakenByReplays(v.channel, q);
  }

  /** Tunnel `t` across one step. */
  lemma {:induction false} TracksStep(s: State, e: Event, t: TunnelId, early: bool, amid: bool)
    requires Enabled(s, e) && t in s.tunnels && BatchOk(At(s.past.batch, t), s.tunnels[t])
    requires Tracks(s.tunnels[t], At(s.past.batch, t), early, amid)
    ensures var s' := Apply(s, e);
      t in s'.tunnels && Tracks(s'.tunnels[t], At(s'.past.batch, t), early || HandsEarly(s, e, t), amid || HandsAmid(s, e, t))
  {
    var s', v := Apply(s, e), s.tunnels[t];
    TunnelAfter(s, e, t);
    if HandsTo(s, e, t) {
      HandTracks(v, e.frame, At(s.past.batch, t), early, amid);
    } else if e == Drain(t) {
      DrainTracks(v, At(s'.past.batch, t), At(s.past.batch, t), early, amid);
    } else if e == Replay(t) {
      ReplayKeepsEventual(v);
    }
  }

  /** A tunnel no run has seen yet was never handed anything; one just connected neither. */
  lemma {:induction false} UnknownIsNotHanded(s: State, e: Event, t: TunnelId)
    requires Enabled(s, e) && t !in s.tunnels
    ensures !HandsTo(s, e, t)
    ensures var s' := Apply(s, e); t in s'.tunnels ==> s'.tunnels[t].phase.Registered? && s'.tunnels[t].channel == []
  {
  }

  lemma {:induction false} AnySnoc(s: State, es: seq<Event>, n: nat, t: TunnelId)
    requires Valid(s, es) && n < |es|
    ensures AnyEarly(s, es, n + 1, t) <==> AnyEarly(s, es, n, t) || HandsEarly(StateAt(s, es, n), es[n], t)
    ensures AnyAmid(s, es, n + 1, t) <==> AnyAmid(s, es, n, t) || HandsAmid(StateAt(s, es, n), es[n], t)
  {
  }

  lemma {:induction false} BatchAt(capacity: nat, es: seq<Event>, n: nat, t: TunnelId)
    requires Valid(Init(capacity), es) && n <= |es| && t in StateAt(Init(capacity), es, n).tunnels
    ensures var s := StateAt(Init(capacity), es, n); BatchOk(At(s.past.batch, t), s.tunnels[t])
  {
    InitHasInv(capacity);
    StateAtKeepsInv(Init(capacity), es, n);
  }

  /** The same, also for a tunnel not there yet. */
  predicate TracksNow(s: State, t: TunnelId, early: bool, amid: bool)
  {
    if t in s.tunnels then Tracks(s.tunnels[t], At(s.past.batch, t), early, amid) else !early && !amid
  }

  lemma {:induction false} TracksNowStep(s: State, e: Event, t: TunnelId, early: bool, amid: bool)
    requires Enabled(s, e) && TracksNow(s, t, early, amid)
    requires t in s.tunnels ==> BatchOk(At(s.past.batch, t), s.tunnels[t])
    ensures TracksNow(Apply(s, e), t, early || HandsEarly(s, e, t), amid || HandsAmid(s, e, t))
  {
    if t in s.tunnels {
      TracksStep(s, e, t, early, amid);
    } else {
      UnknownIsNotHanded(s, e, t);
    }
  }

  lemma {:induction false} RunTracks(capacity: nat, es: seq<Event>, n: nat, t: TunnelId)
    requires Valid(Init(capacity), es) && n <= |es|
    ensures var s0 := Init(capacity); TracksNow(StateAt(s0, es, n), t, AnyEarly(s0, es, n, t), AnyAmid(s0, es, n, t))
  {
    if n > 0 {
      var s0 := Init(capacity);
      var before := StateAt(s0, es, n - 1);
      RunTracks(capacity, es, n - 1, t);
      StateAtStep(s0, es, n - 1);
      if t in before.tunnels {
        BatchAt(capacity, es, n - 1, t);
      }
      TracksNowStep(before, es[n - 1], t, AnyEarly(s0, es, n - 1, t), AnyAmid(s0, es, n - 1, t));
      AnySnoc(s0, es, n - 1, t);
    }
  }

  /**
   * In every run, a live frame stands before a buffered one in what a tunnel's channel comes to, if
   * and only if a post handed its frame over while the tunnel was registered and had not yet drained
   * a buffer that turned out not to be empty, or while it still had drained frames to replay.
   */
  lemma {:induction false} OvertakenIff(capacity: nat, es: seq<Event>, t: TunnelId)
    requires Valid(Init(capacity), es) && t in Run(Init(capacity), es).tunnels
    ensures var s0, s := Init(capacity), Run(Init(capacity), es);
      Overtaken(Eventual(s.tunnels[t])) <==>
        AnyAmid(s0, es, |es|, t) || (AnyEarly(s0, es, |es|, t) && At(s.past.batch, t) != [])
  {
    var s0, s := Init(capacity), Run(Init(capacity), es);
    StateAtEnd(s0, es);
    RunTracks(capacity, es, |es|, t);
    BatchAt(capacity, es, |es|, t);
    if s.tunnels[t].phase.Registered? {
      NotOvertakenByReplays(s.tunnels[t].channel, []);
    }
  }

  lemma {:induction false} ServingChannelIsFinal(v: Tunnel)
    requires v.phase.Serving? || v.phase.Gone?
    ensures Eventual(v) == v.channel
  {
    assert Replays([]) == [];
  }

  /** In the channel of a tunnel that serves, or has, buffered frames come first if and only if no post
      handed its frame over at one of those moments. */
  lemma {:induction false} BufferedFirstIff(capacity: nat, es: seq<Event>, t: TunnelId)
    requires Valid(Init(capacity), es) && t in Run(Init(capacity), es).tunnels
    requires var v := Run(Init(capacity), es).tunnels[t]; v.phase.Serving? || v.phase.Gone?
    ensures var s0, s := Init(capacity), Run(Init(capacity), es);
      !Overtaken(s.tunnels[t].channel) <==>
        !AnyAmid(s0, es, |es|, t) && (AnyEarly(s0, es, |es|, t) ==> At(s.past.batch, t) == [])
  {
    OvertakenIff(capacity, es, t);
    ServingChannelIsFinal(Run(Init(capacity), es).tunnels[t]);
  }

  // ---- Runs in which it happens ----

  /** `es` can be run from `s` and ends in `s'`. */
  predicate Leads(s: State, es: seq<Event>, s': State)
  {
    Valid(s, es) && Run(s, es) == s'
  }

  lemma {:induction false} LeadsOne(s: State, e: Event)
    requires Enabled(s, e)
    ensures Leads(s, [e], Apply(s, e))
  {
    assert [e][1..] == [];
  }

  lemma {:induction false} LeadsOn(s: State, x: seq<Event>, s1: State, y: seq<Event>, s2: State)
    requires Leads(s, x, s1) && Leads(s1, y, s2)
    ensures Leads(s, x + y, s2)
    decreases |x|
  {
    if x == [] {
      assert x + y == y;
    } else {
      assert (x + y)[1..] == x[1..] + y && (x + y)[0] == x[0];
      LeadsOn(Apply(s, x[0]), x[1..], s1, y, s2);
    }
  }

  lemma {:induction false} LeadsThree(s: State, a: Event, b: Event, c: Event)
    requires Enabled(s, a) && Enabled(Apply(s, a), b) && Enabled(Apply(Apply(s, a), b), c)
    ensures Leads(s, [a] + [b] + [c], Apply(Apply(Apply(s, a), b), c))
  {
    var s1 := Apply(s, a);
    var s2 := Apply(s1, b);
    LeadsOne(s, a);
    LeadsOne(s1, b);
    LeadsOne(s2, c);
    LeadsOn(s, [a], s1, [b], s2);
    LeadsOn(s, [a] + [b], s2, [c], Apply(s2, c));
  }

  /** A post to an agent without a tunnel ends up last in its buffer. */
  lemma {:induction false} PostIsQueued(s: State, f: FrameId, a: AgentId) returns (es: seq<Event>, s': State)
    requires f !in s.posts && a !in s.routes && |At(s.queue, a)| < s.capacity
    ensures Leads(s, es, s') && At(s'.queue, a) == At(s.queue, a) + [f]
    ensures s'.routes == s.routes && s'.tunnels == s.tunnels && s'.capacity == s.capacity
    ensures s'.posts.Keys == s.posts.Keys + {f}
  {
    var s1 := Apply(s, Begin(f, a));
    var s2 := Apply(s1, Lookup(f));
    assert s2.posts[f] == Post(a, NoTunnel) && s2.queue == s.queue;
    LeadsThree(s, Begin(f, a), Lookup(f), Enqueue(f));
    es, s' := [Begin(f, a)] + [Lookup(f)] + [Enqueue(f)], Apply(s2, Enqueue(f));
  }

  /** A post to an agent whose routed tunnel listens ends up last in the channel. */
  lemma {:induction false} PostIsHanded(s: State, f: FrameId, a: AgentId, t: TunnelId) returns (es: seq<Event>, s': State)
    requires f !in s.posts && a in s.routes && s.routes[a] == t && t in s.tunnels && s.tunnels[t].open
    ensures Leads(s, es, s') && t in s'.tunnels
    ensures s'.tunnels[t] == s.tunnels[t].(channel := s.tunnels[t].channel + [Straight(f)])
    ensures s'.routes == s.routes && s'.queue == s.queue
  {
    var s1 := Apply(s, Begin(f, a));
    var s2 := Apply(s1, Lookup(f));
    assert s2.posts[f] == Post(a, HasEntry(t)) && s2.tunnels == s.tunnels;
    LeadsThree(s, Begin(f, a), Lookup(f), Hand(f));
    es, s' := [Begin(f, a)] + [Lookup(f)] + [Hand(f)], Apply(s2, Hand(f));
  }

  /** Connecting routes the agent to the new tunnel and leaves the buffer alone. */
  lemma {:induction false} Connected(s: State, t: TunnelId, a: AgentId) returns (s': State)
    requires t !in s.tunnels
    ensures Leads(s, [Connect(t, a)], s') && s'.queue == s.queue && s'.posts == s.posts
    ensures a in s'.routes && s'.routes[a] == t && t in s'.tunnels && s'.tunnels[t] == Tunnel(a, Registered, [], true)
  {
    LeadsOne(s, Connect(t, a));
    s' := Apply(s, Connect(t, a));
  }

  lemma {:induction false} DrainedNow(s: State, t: TunnelId) returns (s': State)
    requires t in s.tunnels && s.tunnels[t].phase.Registered?
    ensures Leads(s, [Drain(t)], s') && s'.posts == s.posts && s'.routes == s.routes && t in s'.tunnels
    ensures s'.tunnels[t] == s.tunnels[t].(phase := Sending(At(s.queue, s.tunnels[t].agent)))
  {
    LeadsOne(s, Drain(t));
    s' := Apply(s, Drain(t));
  }

  lemma {:induction false} ReplayedNext(s: State, t: TunnelId) returns (s': State)
    requires Enabled(s, Replay(t))
    ensures Leads(s, [Replay(t)], s') && s'.posts == s.posts && s'.routes == s.routes && t in s'.tunnels
    ensures var v := s.tunnels[t];
      s'.tunnels[t] == v.(phase := Sending(v.phase.left[1..]), channel := v.channel + [Replayed(v.phase.left[0])])
  {
    LeadsOne(s, Replay(t));
    s' := Apply(s, Replay(t));
  }

  /** From the initial state: a frame posted between the registration and the drain comes first. */
  lemma {:induction false} OvertakenBeforeDrain(capacity: nat, a: AgentId) returns (es: seq<Event>)
    requires capacity > 0
    ensures Valid(Init(capacity), es) && 0 in Run(Init(capacity), es).tunnels
    ensures Run(Init(capacity), es).tunnels[0].channel == [Straight(1), Replayed(0)]
  {
    var s0 := Init(capacity);
    var e1, s1 := PostIsQueued(s0, 0, a);
    var s2 := Connected(s1, 0, a);
    var e3, s3 := PostIsHanded(s2, 1, a, 0);
    var s4 := DrainedNow(s3, 0);
    var s5 := ReplayedNext(s4, 0);
    LeadsOn(s0, e1, s1, [Connect(0, a)], s2);
    LeadsOn(s0, e1 + [Connect(0, a)], s2, e3, s3);
    LeadsOn(s0, e1 + [Connect(0, a)] + e3, s3, [Drain(0)], s4);
    LeadsOn(s0, e1 + [Connect(0, a)] + e3 + [Drain(0)], s4, [Replay(0)], s5);
    es := e1 + [Connect(0, a)] + e3 + [Drain(0)] + [Replay(0)];
  }

  /** From the initial state: two frames wait, and a tunnel drains them and replays the first. */
  lemma {:induction false} FirstReplayed(capacity: nat, a: AgentId) returns (es: seq<Event>, s: State)
    requires capacity > 1
    ensures Leads(Init(capacity), es, s) && s.posts.Keys == {0, 1} && a in s.routes && s.routes[a] == 0
    ensures 0 in s.tunnels && s.tunnels[0] == Tunnel(a, Sending([1]), [Replayed(0)], true)
  {
    var s0 := Init(capacity);
    var e1, s1 := PostIsQueued(s0, 0, a);
    var e2, s2 := PostIsQueued(s1, 1, a);
    var s3 := Connected(s2, 0, a);
    var s4 := DrainedNow(s3, 0);
    s := ReplayedNext(s4, 0);
    LeadsOn(s0, e1, s1, e2, s2);
    LeadsOn(s0, e1 + e2, s2, [Connect(0, a)], s3);
    LeadsOn(s0, e1 + e2 + [Connect(0, a)], s3, [Drain(0)], s4);
    LeadsOn(s0, e1 + e2 + [Connect(0, a)] + [Drain(0)], s4, [Replay(0)], s);
    es := e1 + e2 + [Connect(0, a)] + [Drain(0)] + [Replay(0)];
  }

  /** From the initial state: a frame posted between two replays comes before the second. */
  lemma {:induction false} OvertakenBetweenReplays(capacity: nat, a: AgentId) returns (es: seq<Event>)
    requires capacity > 1
    ensures Valid(Init(capacity), es) && 0 in Run(Init(capacity), es).tunnels
    ensures Run(Init(capacity), es).tunnels[0].channel == [Replayed(0), Straight(2), Replayed(1)]
  {
    var s0 := Init(capacity);
    var e5, s5 := FirstReplayed(capacity, a);
    var e6, s6 := PostIsHanded(s5, 2, a, 0);
    var s7 := ReplayedNext(s6, 0);
    LeadsOn(s0, e5, s5, e6, s6);
    LeadsOn(s0, e5 + e6, s6, [Replay(0)], s7);
    es := e5 + e6 + [Replay(0)];
  }
}
