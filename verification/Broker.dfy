/** The in-memory broker: posting a frame to an agent against tunnels that connect, drain the
    agent's offline buffer, serve and go away, in every interleaving of their atomic steps. */
module Broker {
  import opened Prelude

  type AgentId = string
  type FrameId = nat
  type TunnelId = nat

  datatype Outcome = Live | Queued | Rejected

  /** How far a `POST /agents/{id}/messages` has come. */
  datatype PostPhase = Started | HasEntry(tunnel: TunnelId) | NoTunnel | Done(outcome: Outcome)

  datatype Post = Post(agent: AgentId, phase: PostPhase)

  /** A frame in a tunnel's channel, delivered straight away or replayed from the buffer. */
  datatype Item = Straight(frame: FrameId) | Replayed(frame: FrameId)

  datatype TunnelPhase = Registered | Sending(left: seq<FrameId>) | Serving | Gone

  datatype Tunnel = Tunnel(agent: AgentId, phase: TunnelPhase, channel: seq<Item>, open: bool)

  datatype Place = InFlight | Waiting | Buffered(tunnel: TunnelId) | Handed(tunnel: TunnelId) | Refused

  /** What has happened so far: where each frame is, which frames each agent's buffer accepted and
      gave up, and what each tunnel drained. */
  datatype History = History(
    place: map<FrameId, Place>,
    pushed: map<AgentId, seq<FrameId>>,
    taken: map<AgentId, seq<FrameId>>,
    batch: map<TunnelId, seq<FrameId>>)

  datatype State = State(
    capacity: nat,
    routes: map<AgentId, TunnelId>,
    queue: map<AgentId, seq<FrameId>>,
    posts: map<FrameId, Post>,
    tunnels: map<TunnelId, Tunnel>,
    past: History)

  function At<K, V>(m: map<K, seq<V>>, k: K): seq<V>
  {
    if k in m then m[k] else []
  }

  function Left(t: Tunnel): seq<FrameId>
  {
    if t.phase.Sending? then t.phase.left else []
  }

  function FramesIn(ch: seq<Item>): (fs: seq<FrameId>)
    ensures |fs| == |ch| && forall i | 0 <= i < |ch| :: fs[i] == ch[i].frame
  {
    seq(|ch|, i requires 0 <= i < |ch| => ch[i].frame)
  }

  /** The replayed frames in a channel, in order. */
  function ReplaysIn(ch: seq<Item>): seq<FrameId>
  {
    if ch == [] then []
    else
      var last := ch[|ch| - 1];
      ReplaysIn(ch[..|ch| - 1]) + if last.Replayed? then [last.frame] else []
  }

  // ---- Steps ----

  datatype Event =
    | Begin(frame: FrameId, agent: AgentId)
    | Lookup(frame: FrameId)
    | Hand(frame: FrameId)
    | Enqueue(frame: FrameId)
    | Connect(tunnel: TunnelId, agent: AgentId)
    | Drain(tunnel: TunnelId)
    | Replay(tunnel: TunnelId)
    | Serve(tunnel: TunnelId)
    | CloseChannel(tunnel: TunnelId)
    | DropLease(tunnel: TunnelId)
    | Disconnect(agent: AgentId)

  /** A channel cannot close before its tunnel serves: its receiver is still with the task. */
  predicate Enabled(s: State, e: Event)
  {
    match e
    case Begin(f, _) => f !in s.posts
    case Lookup(f) => f in s.posts && s.posts[f].phase.Started?
    case Hand(f) => f in s.posts && s.posts[f].phase.HasEntry? && s.posts[f].phase.tunnel in s.tunnels
    case Enqueue(f) => f in s.posts && s.posts[f].phase.NoTunnel?
    case Connect(t, _) => t !in s.tunnels
    case Drain(t) => t in s.tunnels && s.tunnels[t].phase.Registered?
    case Replay(t) => t in s.tunnels && s.tunnels[t].phase.Sending? && s.tunnels[t].phase.left != []
    case Serve(t) => t in s.tunnels && s.tunnels[t].phase == Sending([])
    case CloseChannel(t) => t in s.tunnels && (s.tunnels[t].phase.Serving? || s.tunnels[t].phase.Gone?)
    case DropLease(t) => t in s.tunnels && s.tunnels[t].phase.Serving?
    case Disconnect(_) => true
  }

  function SetPhase(s: State, f: FrameId, p: PostPhase): State
    requires f in s.posts
  {
    s.(posts := s.posts[f := s.posts[f].(phase := p)])
  }

  function SetPlace(s: State, f: FrameId, p: Place): State
  {
    s.(past := s.past.(place := s.past.place[f := p]))
  }

  function SetTunnel(s: State, t: TunnelId, v: Tunnel): State
  {
    s.(tunnels := s.tunnels[t := v])
  }

  /** A channel accepts a frame as long as its receiver exists. */
  function HandTo(s: State, f: FrameId, t: TunnelId): State
    requires f in s.posts && t in s.tunnels
  {
    var v := s.tunnels[t];
    if !v.open then SetPhase(s, f, NoTunnel)
    else
      SetPlace(SetPhase(SetTunnel(s, t, v.(channel := v.channel + [Straight(f)])), f, Done(Live)), f, Handed(t))
  }

  /** The fallback: the agent's bounded buffer, or a 503. */
  function EnqueueFor(s: State, f: FrameId, a: AgentId): State
    requires f in s.posts
  {
    var q := At(s.queue, a);
    if |q| < s.capacity then
      var s1 := SetPlace(SetPhase(s, f, Done(Queued)), f, Waiting);
      s1.(queue := s1.queue[a := q + [f]], past := s1.past.(pushed := s1.past.pushed[a := At(s1.past.pushed, a) + [f]]))
    else
      SetPlace(SetPhase(s, f, Done(Rejected)), f, Refused)
  }

  /** The drain removes the agent's whole slot; its frames are now the tunnel task's to replay. */
  function DrainFor(s: State, t: TunnelId): State
    requires t in s.tunnels
  {
    var v := s.tunnels[t];
    var q := At(s.queue, v.agent);
    var s1 := SetTunnel(s, t, v.(phase := Sending(q)));
    s1.(queue := s1.queue - {v.agent},
        past := s1.past.(
          place := map f | f in s1.past.place :: if f in q then Buffered(t) else s1.past.place[f],
          taken := s1.past.taken[v.agent := At(s1.past.taken, v.agent) + q],
          batch := s1.past.batch[t := q]))
  }

  function ReplayOn(s: State, t: TunnelId): State
    requires Enabled(s, Replay(t))
  {
    var v := s.tunnels[t];
    var f := v.phase.left[0];
    SetPlace(SetTunnel(s, t, v.(phase := Sending(v.phase.left[1..]), channel := v.channel + [Replayed(f)])), f, Handed(t))
  }

  function Apply(s: State, e: Event): State
    requires Enabled(s, e)
  {
    match e
    case Begin(f, a) => SetPlace(s.(posts := s.posts[f := Post(a, Started)]), f, InFlight)
    case Lookup(f) =>
      var a := s.posts[f].agent;
      SetPhase(s, f, if a in s.routes then HasEntry(s.routes[a]) else NoTunnel)
    case Hand(f) => HandTo(s, f, s.posts[f].phase.tunnel)
    case Enqueue(f) => EnqueueFor(s, f, s.posts[f].agent)
    case Connect(t, a) => SetTunnel(s, t, Tunnel(a, Registered, [], true)).(routes := s.routes[a := t])
    case Drain(t) => DrainFor(s, t)
    case Replay(t) => ReplayOn(s, t)
    case Serve(t) => SetTunnel(s, t, s.tunnels[t].(phase := Serving))
    case CloseChannel(t) => SetTunnel(s, t, s.tunnels[t].(open := false))
    case DropLease(t) =>
      SetTunnel(s, t, s.tunnels[t].(phase := Gone)).(routes := s.routes - {s.tunnels[t].agent})
    case Disconnect(a) => s.(routes := s.routes - {a})
  }

  predicate Valid(s: State, es: seq<Event>)
    decreases |es|
  {
    es == [] || (Enabled(s, es[0]) && Valid(Apply(s, es[0]), es[1..]))
  }

  function Run(s: State, es: seq<Event>): State
    requires Valid(s, es)
    decreases |es|
  {
    if es == [] then s else Run(Apply(s, es[0]), es[1..])
  }

  function Init(capacity: nat): State
  {
    State(capacity, map[], map[], map[], map[], History(map[], map[], map[], map[]))
  }

  /** A tunnel that serves may lose its receiver or its lease at any time, one that is gone its receiver, and
      an agent may be disconnected whenever anyone likes. */
  lemma {:induction false} FaultsStrikeAnytime(s: State, t: TunnelId, a: AgentId)
    ensures Enabled(s, Disconnect(a))
    ensures t in s.tunnels && s.tunnels[t].phase.Serving? ==> Enabled(s, CloseChannel(t)) && Enabled(s, DropLease(t))
    ensures t in s.tunnels && s.tunnels[t].phase.Gone? ==> Enabled(s, CloseChannel(t))
  {
  }

  // ---- The invariant ----

  /** A post is in flight until it has an outcome, and the outcome says where its frame went. */
  ghost predicate PostsInv(s: State)
  {
    && s.posts.Keys == s.past.place.Keys
    && forall f | f in s.posts :: Agrees(s.posts[f].phase, s.past.place[f])
  }

  predicate Agrees(p: PostPhase, at: Place)
  {
    match p
    case Done(Live) => at.Handed?
    case Done(Queued) => at.Waiting? || at.Buffered? || at.Handed?
    case Done(Rejected) => at.Refused?
    case _ => at.InFlight?
  }

  type Places = map<FrameId, Place>

  predicate Is(at: Places, f: FrameId, p: Place)
  {
    f in at && at[f] == p
  }

  /** An agent's buffer holds exactly its waiting frames, once each. */
  ghost predicate QueueInv(s: State)
  {
    forall a :: HoldsWaiting(s, a, At(s.queue, a))
  }

  ghost predicate HoldsWaiting(s: State, a: AgentId, q: seq<FrameId>)
  {
    && NoDup(q) && |q| <= s.capacity
    && forall f :: f in q <==> WaitsFor(s, f, a)
  }

  predicate WaitsFor(s: State, f: FrameId, a: AgentId)
  {
    Is(s.past.place, f, Waiting) && f in s.posts && s.posts[f].agent == a
  }

  /** Tunnel `t` holds exactly the frames buffered for it and handed to it, once each. */
  ghost predicate TunnelInv(at: Places, t: TunnelId, v: Tunnel)
  {
    && Lists(at, Left(v), Buffered(t))
    && Lists(at, FramesIn(v.channel), Handed(t))
    && (v.phase.Registered? || v.phase.Sending? ==> v.open)
  }

  /** `fs` is exactly the frames in place `p`, once each. */
  ghost predicate Lists(at: Places, fs: seq<FrameId>, p: Place)
  {
    NoDup(fs) && forall f :: f in fs <==> Is(at, f, p)
  }

  ghost predicate TunnelsInv(s: State)
  {
    forall t | t in s.tunnels :: TunnelInv(s.past.place, t, s.tunnels[t])
  }

  /** No frame reaches a tunnel of another agent. */
  ghost predicate IsolationInv(s: State)
  {
    && (forall a | a in s.routes :: s.routes[a] in s.tunnels && s.tunnels[s.routes[a]].agent == a)
    && (forall f | f in s.posts && s.posts[f].phase.HasEntry? ::
          s.posts[f].phase.tunnel in s.tunnels && s.tunnels[s.posts[f].phase.tunnel].agent == s.posts[f].agent)
    && (forall f | f in s.posts && f in s.past.place && (s.past.place[f].Buffered? || s.past.place[f].Handed?) ::
          s.past.place[f].tunnel in s.tunnels && s.tunnels[s.past.place[f].tunnel].agent == s.posts[f].agent)
  }

  /** What a buffer accepted is what it gave up followed by what it holds. */
  ghost predicate FifoInv(s: State)
  {
    forall a :: At(s.past.pushed, a) == At(s.past.taken, a) + At(s.queue, a)
  }

  /** What a tunnel drained is what it has replayed followed by what it has left to replay. */
  ghost predicate BatchInv(s: State)
  {
    forall t | t in s.tunnels :: BatchOk(At(s.past.batch, t), s.tunnels[t])
  }

  predicate BatchOk(batch: seq<FrameId>, v: Tunnel)
  {
    batch == ReplaysIn(v.channel) + Left(v) && (v.phase.Registered? ==> batch == [])
  }

  ghost predicate KnownBatches(s: State)
  {
    forall t | t in s.past.batch :: t in s.tunnels
  }

  ghost predicate Inv(s: State)
  {
    && PostsInv(s) && QueueInv(s) && TunnelsInv(s) && IsolationInv(s)
    && FifoInv(s) && BatchInv(s) && KnownBatches(s)
  }

  // ---- Preservation ----

  lemma {:induction false} FramesSnoc(ch: seq<Item>, x: Item)
    ensures FramesIn(ch + [x]) == FramesIn(ch) + [x.frame]
    ensures ReplaysIn(ch + [x]) == if x.Replayed? then ReplaysIn(ch) + [x.frame] else ReplaysIn(ch)
  {
    assert (ch + [x])[..|ch|] == ch;
  }

  lemma {:induction false} NoDupSnoc(s: seq<FrameId>, f: FrameId)
    requires NoDup(s) && f !in s
    ensures NoDup(s + [f])
  {
  }

  lemma {:induction false} NoDupTail(s: seq<FrameId>)
    requires NoDup(s) && s != []
    ensures NoDup(s[1..]) && s[0] !in s[1..] && s == [s[0]] + s[1..]
  {
  }

  /** A list of the frames in one place is untouched by moves between other places. */
  lemma {:induction false} ListsFrame(at: Places, at': Places, fs: seq<FrameId>, p: Place, moved: set<FrameId>)
    requires Lists(at, fs, p) && at'.Keys == at.Keys + moved
    requires forall f | f in at && f !in moved :: at'[f] == at[f]
    requires forall f | f in moved :: !Is(at, f, p) && at'[f] != p
    ensures Lists(at', fs, p)
  {
    forall f
      ensures f in fs <==> Is(at', f, p)
    {
      assert f in fs <==> Is(at, f, p);
    }
  }

  lemma {:induction false} ListsEnter(at: Places, fs: seq<FrameId>, p: Place, f: FrameId)
    requires Lists(at, fs, p) && !Is(at, f, p)
    ensures Lists(at[f := p], fs + [f], p)
  {
    assert f !in fs;
    NoDupSnoc(fs, f);
    forall g
      ensures g in fs + [f] <==> Is(at[f := p], g, p)
    {
      assert g in fs <==> Is(at, g, p);
    }
  }

  lemma {:induction false} ListsLeave(at: Places, fs: seq<FrameId>, p: Place, q: Place)
    requires Lists(at, fs, p) && fs != [] && q != p
    ensures Lists(at[fs[0] := q], fs[1..], p)
  {
    NoDupTail(fs);
    forall g
      ensures g in fs[1..] <==> Is(at[fs[0] := q], g, p)
    {
      assert g in fs <==> Is(at, g, p);
    }
  }

  lemma {:induction false} QueueFrame(s: State, s': State)
    requires QueueInv(s) && s'.queue == s.queue && s'.capacity == s.capacity
    requires forall f, a :: WaitsFor(s', f, a) == WaitsFor(s, f, a)
    ensures QueueInv(s')
  {
    forall a
      ensures HoldsWaiting(s', a, At(s'.queue, a))
    {
      assert HoldsWaiting(s, a, At(s.queue, a));
    }
  }

  /** Two versions of a tunnel that hold the same frames. */
  predicate SameLoad(v: Tunnel, w: Tunnel)
  {
    && Left(v) == Left(w) && v.channel == w.channel
    && (w.phase.Registered? || w.phase.Sending? ==> w.open)
  }

  ghost predicate NothingElseMoves(s: State, s': State)
  {
    && s'.past == s.past && s'.queue == s.queue && s'.capacity == s.capacity
    && s'.posts.Keys == s.posts.Keys && (forall f | f in s.posts :: s'.posts[f].agent == s.posts[f].agent)
  }

  lemma {:induction false} TunnelsFrame(s: State, s': State)
    requires TunnelsInv(s) && BatchInv(s) && s'.past == s.past
    requires s.tunnels.Keys == s'.tunnels.Keys && forall t | t in s.tunnels :: SameLoad(s.tunnels[t], s'.tunnels[t])
    requires forall t | t in s.tunnels && s'.tunnels[t].phase.Registered? :: s.tunnels[t].phase.Registered?
    ensures TunnelsInv(s') && BatchInv(s')
  {
    forall t | t in s'.tunnels
      ensures TunnelInv(s'.past.place, t, s'.tunnels[t])
      ensures BatchOk(At(s'.past.batch, t), s'.tunnels[t])
    {
      assert TunnelInv(s.past.place, t, s.tunnels[t]) && BatchOk(At(s.past.batch, t), s.tunnels[t]);
      assert SameLoad(s.tunnels[t], s'.tunnels[t]);
    }
  }

  /** A step that moves no frame between places keeps all that is said about places and order. */
  lemma {:induction false} NothingMoves(s: State, s': State)
    requires QueueInv(s) && TunnelsInv(s) && FifoInv(s) && BatchInv(s) && KnownBatches(s)
    requires NothingElseMoves(s, s')
    requires s.tunnels.Keys == s'.tunnels.Keys && forall t | t in s.tunnels :: SameLoad(s.tunnels[t], s'.tunnels[t])
    requires forall t | t in s.tunnels && s'.tunnels[t].phase.Registered? :: s.tunnels[t].phase.Registered?
    ensures QueueInv(s') && TunnelsInv(s') && FifoInv(s') && BatchInv(s') && KnownBatches(s')
  {
    assert forall f, a :: WaitsFor(s', f, a) == WaitsFor(s, f, a);
    QueueFrame(s, s');
    TunnelsFrame(s, s');
  }

  lemma {:induction false} RephaseKeepsInv(s: State, f: FrameId, p: PostPhase)
    requires Inv(s) && f in s.posts && !s.posts[f].phase.Done? && !p.Done?
    requires p.HasEntry? ==> p.tunnel in s.tunnels && s.tunnels[p.tunnel].agent == s.posts[f].agent
    ensures Inv(SetPhase(s, f, p))
  {
    var s' := SetPhase(s, f, p);
    assert s'.posts.Keys == s.posts.Keys;
    NothingMoves(s, s');
  }

  lemma {:induction false} IsolationFrame(s: State, s': State)
    requires IsolationInv(s) && s'.past.place == s.past.place && s'.posts == s.posts
    requires s.tunnels.Keys <= s'.tunnels.Keys && forall t | t in s.tunnels :: s'.tunnels[t].agent == s.tunnels[t].agent
    requires forall a | a in s'.routes :: a in s.routes && s'.routes[a] == s.routes[a]
    ensures IsolationInv(s')
  {
  }

  lemma {:induction false} SelfLoad(s: State, t: TunnelId)
    requires TunnelsInv(s) && t in s.tunnels
    ensures SameLoad(s.tunnels[t], s.tunnels[t])
  {
    assert TunnelInv(s.past.place, t, s.tunnels[t]);
  }

  /** The tunnel table, but for one tunnel that holds the same frames as before. */
  lemma {:induction false} SameLoads(s: State, s': State, t: TunnelId)
    requires TunnelsInv(s) && t in s.tunnels && t in s'.tunnels && SameLoad(s.tunnels[t], s'.tunnels[t])
    requires s'.tunnels == s.tunnels[t := s'.tunnels[t]]
    ensures s.tunnels.Keys == s'.tunnels.Keys && forall x | x in s.tunnels :: SameLoad(s.tunnels[x], s'.tunnels[x])
  {
    forall x | x in s.tunnels
      ensures SameLoad(s.tunnels[x], s'.tunnels[x])
    {
      SelfLoad(s, x);
    }
  }

  /** A tunnel that changes phase without touching its frames, while routes may go. */
  lemma {:induction false} RephaseTunnelKeepsInv(s: State, s': State, t: TunnelId)
    requires Inv(s) && t in s.tunnels && t in s'.tunnels && SameLoad(s.tunnels[t], s'.tunnels[t])
    requires !s'.tunnels[t].phase.Registered? && s'.tunnels[t].agent == s.tunnels[t].agent
    requires s'.tunnels == s.tunnels[t := s'.tunnels[t]]
    requires s'.past == s.past && s'.queue == s.queue && s'.capacity == s.capacity && s'.posts == s.posts
    requires forall a | a in s'.routes :: a in s.routes && s'.routes[a] == s.routes[a]
    ensures Inv(s')
  {
    SameLoads(s, s', t);
    NothingMoves(s, s');
    IsolationFrame(s, s');
  }

  lemma {:induction false} DisconnectKeepsInv(s: State, a: AgentId)
    requires Inv(s)
    ensures Inv(Apply(s, Disconnect(a)))
  {
    var s' := Apply(s, Disconnect(a));
    forall x | x in s.tunnels
      ensures SameLoad(s.tunnels[x], s'.tunnels[x])
    {
      SelfLoad(s, x);
    }
    NothingMoves(s, s');
    IsolationFrame(s, s');
  }

  lemma {:induction false} UnknownTunnelHoldsNothing(s: State, t: TunnelId)
    requires PostsInv(s) && IsolationInv(s) && t !in s.tunnels
    ensures forall f :: !Is(s.past.place, f, Buffered(t)) && !Is(s.past.place, f, Handed(t))
  {
  }

  lemma {:induction false} ConnectKeepsTunnels(s: State, s': State, t: TunnelId)
    requires TunnelsInv(s) && BatchInv(s) && s'.past == s.past && t !in s.tunnels && t !in s.past.batch
    requires t in s'.tunnels && s'.tunnels == s.tunnels[t := s'.tunnels[t]]
    requires s'.tunnels[t].phase.Registered? && s'.tunnels[t].channel == [] && s'.tunnels[t].open
    requires forall f :: !Is(s.past.place, f, Buffered(t)) && !Is(s.past.place, f, Handed(t))
    ensures TunnelsInv(s') && BatchInv(s')
  {
    assert TunnelInv(s.past.place, t, s'.tunnels[t]);
    forall x | x in s'.tunnels
      ensures TunnelInv(s'.past.place, x, s'.tunnels[x])
      ensures BatchOk(At(s'.past.batch, x), s'.tunnels[x])
    {
      if x != t {
        assert TunnelInv(s.past.place, x, s.tunnels[x]) && BatchOk(At(s.past.batch, x), s.tunnels[x]);
      }
    }
  }

  lemma {:induction false} ConnectKeepsIsolation(s: State, t: TunnelId, a: AgentId)
    requires IsolationInv(s) && Enabled(s, Connect(t, a))
    ensures IsolationInv(Apply(s, Connect(t, a)))
  {
  }

  lemma {:induction false} ConnectKeepsInv(s: State, t: TunnelId, a: AgentId)
    requires Inv(s) && Enabled(s, Connect(t, a))
    ensures Inv(Apply(s, Connect(t, a)))
  {
    var s' := Apply(s, Connect(t, a));
    QueueFrame(s, s');
    UnknownTunnelHoldsNothing(s, t);
    ConnectKeepsTunnels(s, s', t);
    ConnectKeepsIsolation(s, t, a);
  }

  /** The frames in `moved` change places, and none of the places is in tunnel `x`. */
  ghost predicate MovesOutside(at: Places, at': Places, moved: set<FrameId>, x: TunnelId)
  {
    && at'.Keys == at.Keys + moved
    && (forall f | f in at && f !in moved :: at'[f] == at[f])
    && (forall f | f in moved ::
          && !Is(at, f, Buffered(x)) && !Is(at, f, Handed(x))
          && at'[f] != Buffered(x) && at'[f] != Handed(x))
  }

  lemma {:induction false} TunnelFrame(at: Places, at': Places, moved: set<FrameId>, x: TunnelId, v: Tunnel)
    requires TunnelInv(at, x, v) && MovesOutside(at, at', moved, x)
    ensures TunnelInv(at', x, v)
  {
    ListsFrame(at, at', Left(v), Buffered(x), moved);
    ListsFrame(at, at', FramesIn(v.channel), Handed(x), moved);
  }

  /** The tunnels other than `t` when frames move outside them. */
  lemma {:induction false} OtherTunnels(s: State, s': State, moved: set<FrameId>, t: Option<TunnelId>)
    requires TunnelsInv(s) && BatchInv(s)
    requires s'.tunnels.Keys == s.tunnels.Keys
    requires forall x | x in s.tunnels && t != Some(x) ::
      && s'.tunnels[x] == s.tunnels[x] && At(s'.past.batch, x) == At(s.past.batch, x)
      && MovesOutside(s.past.place, s'.past.place, moved, x)
    ensures forall x | x in s'.tunnels && t != Some(x) ::
      TunnelInv(s'.past.place, x, s'.tunnels[x]) && BatchOk(At(s'.past.batch, x), s'.tunnels[x])
  {
    forall x | x in s'.tunnels && t != Some(x)
      ensures TunnelInv(s'.past.place, x, s'.tunnels[x]) && BatchOk(At(s'.past.batch, x), s'.tunnels[x])
    {
      var v := s.tunnels[x];
      assert TunnelInv(s.past.place, x, v) && BatchOk(At(s.past.batch, x), v);
      TunnelFrame(s.past.place, s'.past.place, moved, x, v);
    }
  }

  /** All tunnels, when tunnel `t` alone is handed a frame that was in flight or that it had buffered. */
  lemma {:induction false} OneTunnelTakes(s: State, s': State, f: FrameId, t: TunnelId)
    requires TunnelsInv(s) && BatchInv(s) && s'.past.batch == s.past.batch
    requires t in s.tunnels && t in s'.tunnels && s'.tunnels == s.tunnels[t := s'.tunnels[t]]
    requires s'.past.place == s.past.place[f := Handed(t)]
    requires Is(s.past.place, f, InFlight) || Is(s.past.place, f, Buffered(t))
    requires TunnelInv(s'.past.place, t, s'.tunnels[t]) && BatchOk(At(s.past.batch, t), s'.tunnels[t])
    ensures TunnelsInv(s') && BatchInv(s')
  {
    forall x | x in s.tunnels && Some(t) != Some(x)
      ensures s'.tunnels[x] == s.tunnels[x] && At(s'.past.batch, x) == At(s.past.batch, x)
      ensures MovesOutside(s.past.place, s'.past.place, {f}, x)
    {
      HandingMovesOutside(s.past.place, f, t, x);
    }
    OtherTunnels(s, s', {f}, Some(t));
  }

  lemma {:induction false} HandingMovesOutside(at: Places, f: FrameId, t: TunnelId, x: TunnelId)
    requires (Is(at, f, InFlight) || Is(at, f, Buffered(t))) && x != t
    ensures MovesOutside(at, at[f := Handed(t)], {f}, x)
  {
  }

  /** All tunnels, when frame `f` moves outside every one of them. */
  lemma {:induction false} AllTunnels(s: State, s': State, f: FrameId)
    requires TunnelsInv(s) && BatchInv(s) && s'.tunnels == s.tunnels && s'.past.batch == s.past.batch
    requires f in s'.past.place && s'.past.place == s.past.place[f := s'.past.place[f]]
    requires f in s.past.place ==> s.past.place[f].InFlight?
    requires var p := s'.past.place[f]; p.InFlight? || p.Waiting? || p.Refused?
    ensures TunnelsInv(s') && BatchInv(s')
  {
    OtherTunnels(s, s', {f}, None);
  }

  lemma {:induction false} BeginKeepsInv(s: State, f: FrameId, a: AgentId)
    requires Inv(s) && Enabled(s, Begin(f, a))
    ensures Inv(Apply(s, Begin(f, a)))
  {
    var s' := Apply(s, Begin(f, a));
    assert f !in s.past.place;
    assert forall g, b :: WaitsFor(s', g, b) == WaitsFor(s, g, b);
    QueueFrame(s, s');
    AllTunnels(s, s', f);
  }

  /** A tunnel whose channel accepts a frame that was in flight. */
  lemma {:induction false} HandedStraight(at: Places, f: FrameId, t: TunnelId, v: Tunnel, w: Tunnel, batch: seq<FrameId>)
    requires TunnelInv(at, t, v) && BatchOk(batch, v) && Is(at, f, InFlight)
    requires w == v.(channel := v.channel + [Straight(f)])
    ensures TunnelInv(at[f := Handed(t)], t, w) && BatchOk(batch, w)
  {
    FramesSnoc(v.channel, Straight(f));
    ListsEnter(at, FramesIn(v.channel), Handed(t), f);
    ListsFrame(at, at[f := Handed(t)], Left(v), Buffered(t), {f});
  }

  /** A tunnel that replays the next frame it drained. */
  lemma {:induction false} HandedReplay(at: Places, t: TunnelId, v: Tunnel, w: Tunnel, batch: seq<FrameId>)
    requires TunnelInv(at, t, v) && BatchOk(batch, v) && v.phase.Sending? && v.phase.left != []
    requires w == v.(phase := Sending(v.phase.left[1..]), channel := v.channel + [Replayed(v.phase.left[0])])
    ensures Is(at, v.phase.left[0], Buffered(t))
    ensures TunnelInv(at[v.phase.left[0] := Handed(t)], t, w) && BatchOk(batch, w)
  {
    var f := v.phase.left[0];
    assert f in Left(v);
    assert FramesIn(w.channel) == FramesIn(v.channel) + [f] && ReplaysIn(w.channel) == ReplaysIn(v.channel) + [f] by {
      FramesSnoc(v.channel, Replayed(f));
    }
    assert Lists(at[f := Handed(t)], FramesIn(w.channel), Handed(t)) by { ListsEnter(at, FramesIn(v.channel), Handed(t), f); }
    assert Lists(at[f := Handed(t)], Left(w), Buffered(t)) by { ListsLeave(at, Left(v), Buffered(t), Handed(t)); }
    Shift(ReplaysIn(v.channel), v.phase.left);
  }

  lemma {:induction false} Shift(a: seq<FrameId>, b: seq<FrameId>)
    requires b != []
    ensures (a + [b[0]]) + b[1..] == a + b
  {
  }

  lemma {:induction false} HandKeepsTunnels(s: State, s': State, f: FrameId, t: TunnelId)
    requires TunnelsInv(s) && BatchInv(s) && Is(s.past.place, f, InFlight) && t in s.tunnels && s.tunnels[t].open && f in s.posts
    requires s' == HandTo(s, f, t)
    ensures TunnelsInv(s') && BatchInv(s')
  {
    HandedStraight(s.past.place, f, t, s.tunnels[t], s'.tunnels[t], At(s.past.batch, t));
    OneTunnelTakes(s, s', f, t);
  }

  lemma {:induction false} HandKeepsIsolation(s: State, s': State, f: FrameId, t: TunnelId)
    requires PostsInv(s) && IsolationInv(s) && f in s.posts && s.posts[f].phase == HasEntry(t)
    requires t in s.tunnels && s.tunnels[t].open && s' == HandTo(s, f, t)
    ensures PostsInv(s') && IsolationInv(s')
  {
  }

  lemma {:induction false} HandKeepsQueue(s: State, s': State, f: FrameId, t: TunnelId)
    requires QueueInv(s) && Is(s.past.place, f, InFlight) && t in s.tunnels && s.tunnels[t].open && f in s.posts
    requires s' == HandTo(s, f, t)
    ensures QueueInv(s')
  {
    QueueUnmoved(s, s', f);
  }

  lemma {:induction false} HandKeepsInv(s: State, f: FrameId)
    requires Inv(s) && Enabled(s, Hand(f))
    ensures Inv(Apply(s, Hand(f)))
  {
    var s' := Apply(s, Hand(f));
    var t := s.posts[f].phase.tunnel;
    if s.tunnels[t].open {
      assert Is(s.past.place, f, InFlight);
      HandKeepsTunnels(s, s', f, t);
      HandKeepsIsolation(s, s', f, t);
      HandKeepsQueue(s, s', f, t);
    } else {
      RephaseKeepsInv(s, f, NoTunnel);
    }
  }

  /** The buffers, when frame `f` moves between places other than a buffer. */
  lemma {:induction false} QueueUnmoved(s: State, s': State, f: FrameId)
    requires QueueInv(s) && s'.queue == s.queue && s'.capacity == s.capacity && f in s.posts
    requires s'.posts.Keys == s.posts.Keys && forall g | g in s.posts :: s'.posts[g].agent == s.posts[g].agent
    requires f in s'.past.place && s'.past.place == s.past.place[f := s'.past.place[f]]
    requires !Is(s.past.place, f, Waiting) && !s'.past.place[f].Waiting?
    ensures QueueInv(s')
  {
    assert forall g, b :: WaitsFor(s', g, b) == WaitsFor(s, g, b);
    QueueFrame(s, s');
  }

  lemma {:induction false} EnqueueKeepsQueue(s: State, s': State, f: FrameId, a: AgentId)
    requires QueueInv(s) && FifoInv(s) && f in s.posts && s.posts[f].agent == a && Is(s.past.place, f, InFlight)
    requires |At(s.queue, a)| < s.capacity && s' == EnqueueFor(s, f, a)
    ensures QueueInv(s') && FifoInv(s')
  {
    forall g, b
      ensures WaitsFor(s', g, b) <==> WaitsFor(s, g, b) || (g == f && b == a)
    {
    }
    forall b
      ensures HoldsWaiting(s', b, At(s'.queue, b))
      ensures At(s'.past.pushed, b) == At(s'.past.taken, b) + At(s'.queue, b)
    {
      var q := At(s.queue, b);
      assert HoldsWaiting(s, b, q);
      assert At(s.past.pushed, b) == At(s.past.taken, b) + q;
      if b == a {
        assert !WaitsFor(s, f, a);
        NoDupSnoc(q, f);
      }
    }
  }

  lemma {:induction false} EnqueueKeepsInv(s: State, f: FrameId)
    requires Inv(s) && Enabled(s, Enqueue(f))
    ensures Inv(Apply(s, Enqueue(f)))
  {
    var s' := Apply(s, Enqueue(f));
    var a := s.posts[f].agent;
    assert Is(s.past.place, f, InFlight);
    AllTunnels(s, s', f);
    SettleKeepsIsolation(s, s', f);
    if |At(s.queue, a)| < s.capacity {
      EnqueueKeepsQueue(s, s', f, a);
    } else {
      QueueUnmoved(s, s', f);
    }
  }

  /** What concerns single posts, when a post ends with its frame outside every tunnel. */
  lemma {:induction false} SettleKeepsIsolation(s: State, s': State, f: FrameId)
    requires PostsInv(s) && IsolationInv(s) && f in s.posts && f in s'.posts && f in s'.past.place
    requires s'.tunnels == s.tunnels && s'.routes == s.routes
    requires s'.posts == s.posts[f := s'.posts[f]] && s'.past.place == s.past.place[f := s'.past.place[f]]
    requires s'.posts[f].phase.Done? && Agrees(s'.posts[f].phase, s'.past.place[f])
    requires !s'.past.place[f].Buffered? && !s'.past.place[f].Handed?
    ensures PostsInv(s') && IsolationInv(s')
  {
  }

  lemma {:induction false} DrainKeepsQueue(s: State, s': State, t: TunnelId)
    requires QueueInv(s) && FifoInv(s) && Enabled(s, Drain(t)) && s' == DrainFor(s, t)
    ensures QueueInv(s') && FifoInv(s')
  {
    var a := s.tunnels[t].agent;
    forall b
      ensures HoldsWaiting(s', b, At(s'.queue, b))
      ensures At(s'.past.pushed, b) == At(s'.past.taken, b) + At(s'.queue, b)
    {
      assert HoldsWaiting(s, a, At(s.queue, a));
      assert HoldsWaiting(s, b, At(s.queue, b));
      assert At(s.past.pushed, b) == At(s.past.taken, b) + At(s.queue, b);
      forall g
        ensures WaitsFor(s', g, b) <==> WaitsFor(s, g, b) && b != a
      {
        assert g in At(s.queue, a) <==> WaitsFor(s, g, a);
      }
    }
  }

  /** The drained frames are exactly those now buffered for the tunnel. */
  lemma {:induction false} Drained(at: Places, at': Places, t: TunnelId, v: Tunnel, q: seq<FrameId>)
    requires TunnelInv(at, t, v) && v.phase.Registered? && NoDup(q)
    requires forall g | g in q :: Is(at, g, Waiting)
    requires at'.Keys == at.Keys && forall g | g in at :: at'[g] == if g in q then Buffered(t) else at[g]
    ensures TunnelInv(at', t, v.(phase := Sending(q)))
  {
    ListsFrame(at, at', FramesIn(v.channel), Handed(t), set g | g in q);
    forall g
      ensures g in q <==> Is(at', g, Buffered(t))
    {
      assert g in Left(v) <==> Is(at, g, Buffered(t));
    }
  }

  lemma {:induction false} DrainMovesOutside(at: Places, at': Places, t: TunnelId, q: seq<FrameId>)
    requires forall g | g in q :: Is(at, g, Waiting)
    requires at'.Keys == at.Keys && forall g | g in at :: at'[g] == if g in q then Buffered(t) else at[g]
    ensures var moved := set g | g in q; forall x | x != t :: MovesOutside(at, at', moved, x)
  {
  }

  lemma {:induction false} DrainKeepsOthers(s: State, s': State, t: TunnelId, q: seq<FrameId>)
    requires TunnelsInv(s) && BatchInv(s) && Enabled(s, Drain(t)) && s' == DrainFor(s, t)
    requires q == At(s.queue, s.tunnels[t].agent) && forall g | g in q :: Is(s.past.place, g, Waiting)
    ensures forall x | x in s'.tunnels && x != t ::
      TunnelInv(s'.past.place, x, s'.tunnels[x]) && BatchOk(At(s'.past.batch, x), s'.tunnels[x])
  {
    var moved := set g | g in q;
    DrainMovesOutside(s.past.place, s'.past.place, t, q);
    forall x | x in s.tunnels && Some(t) != Some(x)
      ensures s'.tunnels[x] == s.tunnels[x] && At(s'.past.batch, x) == At(s.past.batch, x)
      ensures MovesOutside(s.past.place, s'.past.place, moved, x)
    {
    }
    OtherTunnels(s, s', moved, Some(t));
  }

  lemma {:induction false} DrainKeepsTunnels(s: State, s': State, t: TunnelId)
    requires TunnelsInv(s) && BatchInv(s) && Enabled(s, Drain(t)) && s' == DrainFor(s, t)
    requires HoldsWaiting(s, s.tunnels[t].agent, At(s.queue, s.tunnels[t].agent))
    ensures TunnelsInv(s') && BatchInv(s')
  {
    var v := s.tunnels[t];
    var q := At(s.queue, v.agent);
    assert forall g | g in q :: WaitsFor(s, g, v.agent);
    assert BatchOk(At(s.past.batch, t), v);
    DrainKeepsOthers(s, s', t, q);
    Drained(s.past.place, s'.past.place, t, v, q);
  }

  lemma {:induction false} DrainKeepsIsolation(s: State, s': State, t: TunnelId)
    requires QueueInv(s) && IsolationInv(s) && PostsInv(s) && Enabled(s, Drain(t)) && s' == DrainFor(s, t)
    ensures IsolationInv(s') && PostsInv(s')
  {
    var a := s.tunnels[t].agent;
    assert HoldsWaiting(s, a, At(s.queue, a));
    assert forall g | g in At(s.queue, a) :: WaitsFor(s, g, a);
  }

  lemma {:induction false} DrainKeepsInv(s: State, t: TunnelId)
    requires Inv(s) && Enabled(s, Drain(t))
    ensures Inv(Apply(s, Drain(t)))
  {
    var s' := Apply(s, Drain(t));
    DrainKeepsQueue(s, s', t);
    DrainKeepsTunnels(s, s', t);
    DrainKeepsIsolation(s, s', t);
  }

  lemma {:induction false} ReplayKeepsTunnels(s: State, s': State, t: TunnelId)
    requires TunnelsInv(s) && BatchInv(s) && Enabled(s, Replay(t)) && s' == ReplayOn(s, t)
    ensures TunnelsInv(s') && BatchInv(s') && Is(s.past.place, s.tunnels[t].phase.left[0], Buffered(t))
  {
    HandedReplay(s.past.place, t, s.tunnels[t], s'.tunnels[t], At(s.past.batch, t));
    OneTunnelTakes(s, s', s.tunnels[t].phase.left[0], t);
  }

  lemma {:induction false} ReplayKeepsIsolation(s: State, s': State, t: TunnelId)
    requires PostsInv(s) && IsolationInv(s) && Enabled(s, Replay(t)) && s' == ReplayOn(s, t)
    requires Is(s.past.place, s.tunnels[t].phase.left[0], Buffered(t))
    ensures PostsInv(s') && IsolationInv(s')
  {
  }

  lemma {:induction false} ReplayKeepsInv(s: State, t: TunnelId)
    requires Inv(s) && Enabled(s, Replay(t))
    ensures Inv(Apply(s, Replay(t)))
  {
    var s' := Apply(s, Replay(t));
    var f := s.tunnels[t].phase.left[0];
    ReplayKeepsTunnels(s, s', t);
    ReplayKeepsIsolation(s, s', t);
    QueueUnmoved(s, s', f);
  }

  /** Every step keeps the invariant. */
  lemma {:induction false} StepKeepsInv(s: State, e: Event)
    requires Inv(s) && Enabled(s, e)
    ensures Inv(Apply(s, e))
  {
    match e
    case Begin(f, a) => BeginKeepsInv(s, f, a);
    case Lookup(f) =>
      var a := s.posts[f].agent;
      RephaseKeepsInv(s, f, if a in s.routes then HasEntry(s.routes[a]) else NoTunnel);
    case Hand(f) => HandKeepsInv(s, f);
    case Enqueue(f) => EnqueueKeepsInv(s, f);
    case Connect(t, a) => ConnectKeepsInv(s, t, a);
    case Drain(t) => DrainKeepsInv(s, t);
    case Replay(t) => ReplayKeepsInv(s, t);
    case Serve(t) => RephaseTunnelKeepsInv(s, Apply(s, e), t);
    case CloseChannel(t) => RephaseTunnelKeepsInv(s, Apply(s, e), t);
    case DropLease(t) => RephaseTunnelKeepsInv(s, Apply(s, e), t);
    case Disconnect(a) => DisconnectKeepsInv(s, a);
  }

  // ---- Whole runs ----

  lemma {:induction false} RunKeepsInv(s: State, es: seq<Event>)
    requires Inv(s) && Valid(s, es)
    ensures Inv(Run(s, es))
    decreases |es|
  {
    if es != [] {
      StepKeepsInv(s, es[0]);
      RunKeepsInv(Apply(s, es[0]), es[1..]);
    }
  }

  lemma {:induction false} InitHasInv(capacity: nat)
    ensures Inv(Init(capacity))
  {
  }

  /** Where a frame is, read off the buffers, channels and posts themselves. */
  ghost predicate Occurs(s: State, f: FrameId, p: Place)
  {
    match p
    case InFlight => f in s.posts && !s.posts[f].phase.Done?
    case Refused => f in s.posts && s.posts[f].phase == Done(Rejected)
    case Waiting => exists a | a in s.queue :: f in s.queue[a]
    case Buffered(t) => t in s.tunnels && f in Left(s.tunnels[t])
    case Handed(t) => t in s.tunnels && f in FramesIn(s.tunnels[t].channel)
  }

  lemma {:induction false} WaitingOccurs(s: State, f: FrameId)
    requires QueueInv(s) && PostsInv(s)
    ensures Occurs(s, f, Waiting) <==> Is(s.past.place, f, Waiting)
  {
    if a :| a in s.queue && f in s.queue[a] {
      assert HoldsWaiting(s, a, At(s.queue, a));
      assert WaitsFor(s, f, a);
    }
    if Is(s.past.place, f, Waiting) {
      var a := s.posts[f].agent;
      assert HoldsWaiting(s, a, At(s.queue, a)) && WaitsFor(s, f, a);
      assert f in At(s.queue, a);
    }
  }

  lemma {:induction false} TunnelOccurs(s: State, f: FrameId, p: Place)
    requires PostsInv(s) && TunnelsInv(s) && IsolationInv(s) && (p.Buffered? || p.Handed?)
    ensures Occurs(s, f, p) <==> Is(s.past.place, f, p)
  {
    var t := p.tunnel;
    if t in s.tunnels {
      assert TunnelInv(s.past.place, t, s.tunnels[t]);
    } else {
      UnknownTunnelHoldsNothing(s, t);
    }
  }

  lemma {:induction false} PostOccurs(s: State, f: FrameId, p: Place)
    requires PostsInv(s) && (p.InFlight? || p.Refused?)
    ensures Occurs(s, f, p) <==> Is(s.past.place, f, p)
  {
  }

  /** In every interleaving, a posted frame is in flight, refused, waiting, about to be replayed by
      one tunnel or handed to one tunnel: exactly one of these, and once there; and a frame never
      posted is nowhere. */
  lemma {:induction false} ExactlyOnePlace(capacity: nat, es: seq<Event>, f: FrameId)
    requires Valid(Init(capacity), es)
    ensures var s := Run(Init(capacity), es);
      && (f in s.posts <==> f in s.past.place)
      && (forall p :: Occurs(s, f, p) <==> Is(s.past.place, f, p))
      && (forall a | f in At(s.queue, a) :: f in s.posts && a == s.posts[f].agent)
      && (forall a :: NoDup(At(s.queue, a)) && |At(s.queue, a)| <= capacity)
      && (forall t | t in s.tunnels :: NoDup(Left(s.tunnels[t])) && NoDup(FramesIn(s.tunnels[t].channel)))
  {
    var s := Run(Init(capacity), es);
    InitHasInv(capacity);
    RunKeepsInv(Init(capacity), es);
    CapacityKept(Init(capacity), es);
    forall p
      ensures Occurs(s, f, p) <==> Is(s.past.place, f, p)
    {
      match p
      case Waiting => WaitingOccurs(s, f);
      case Buffered(_) => TunnelOccurs(s, f, p);
      case Handed(_) => TunnelOccurs(s, f, p);
      case _ => PostOccurs(s, f, p);
    }
    forall a | f in At(s.queue, a)
      ensures f in s.posts && a == s.posts[f].agent
    {
      assert HoldsWaiting(s, a, At(s.queue, a));
      assert WaitsFor(s, f, a);
    }
    assert forall a :: HoldsWaiting(s, a, At(s.queue, a));
    assert forall t | t in s.tunnels :: TunnelInv(s.past.place, t, s.tunnels[t]);
  }

  lemma {:induction false} CapacityKept(s: State, es: seq<Event>)
    requires Valid(s, es)
    ensures Run(s, es).capacity == s.capacity
    decreases |es|
  {
    if es != [] {
      CapacityKept(Apply(s, es[0]), es[1..]);
    }
  }

  /** What the poster was told is true: live frames are in a channel of the agent they were sent to,
      queued ones in its buffer or on their way to or in such a channel, rejected ones nowhere. */
  lemma {:induction false} ReportsAreTrue(capacity: nat, es: seq<Event>, f: FrameId)
    requires Valid(Init(capacity), es)
    requires var s := Run(Init(capacity), es); f in s.posts && s.posts[f].phase.Done?
    ensures var s := Run(Init(capacity), es);
      var a := s.posts[f].agent;
      match s.posts[f].phase.outcome
      case Live => exists t | t in s.tunnels :: s.tunnels[t].agent == a && f in FramesIn(s.tunnels[t].channel)
      case Queued =>
        || f in At(s.queue, a)
        || exists t | t in s.tunnels ::
             s.tunnels[t].agent == a && (f in Left(s.tunnels[t]) || f in FramesIn(s.tunnels[t].channel))
      case Rejected => forall p | Occurs(s, f, p) :: p == Refused
  {
    var s := Run(Init(capacity), es);
    ExactlyOnePlace(capacity, es, f);
    var p := s.past.place[f];
    InitHasInv(capacity);
    RunKeepsInv(Init(capacity), es);
    assert Agrees(s.posts[f].phase, p) && Occurs(s, f, p);
    if p.Waiting? {
      var a := s.posts[f].agent;
      assert HoldsWaiting(s, a, At(s.queue, a)) && WaitsFor(s, f, a);
    } else if p.Buffered? || p.Handed? {
      assert p.tunnel in s.tunnels && s.tunnels[p.tunnel].agent == s.posts[f].agent;
    }
  }

  // ---- Order ----

  /** `x` occurs in `y` as one contiguous piece. */
  ghost predicate Segment(x: seq<FrameId>, y: seq<FrameId>)
  {
    exists i | 0 <= i <= |y| :: x <= y[i..]
  }

  lemma {:induction false} SegmentGrows(x: seq<FrameId>, y: seq<FrameId>, z: seq<FrameId>)
    requires Segment(x, y)
    ensures Segment(x, y + z)
  {
    var i :| 0 <= i <= |y| && x <= y[i..];
    assert (y + z)[i..] == y[i..] + z;
  }

  lemma {:induction false} SuffixIsSegment(x: seq<FrameId>, y: seq<FrameId>)
    ensures Segment(y, x + y)
  {
    assert (x + y)[|x|..] == y;
  }

  ghost predicate SegmentInv(s: State)
  {
    forall t | t in s.past.batch :: t in s.tunnels && Segment(s.past.batch[t], At(s.past.pushed, s.tunnels[t].agent))
  }

  /** Pushes only ever extend the push order, and tunnels keep their agents and batches. */
  lemma {:induction false} SegmentFrame(s: State, s': State)
    requires SegmentInv(s) && s'.past.batch == s.past.batch
    requires forall t | t in s.tunnels :: t in s'.tunnels && s'.tunnels[t].agent == s.tunnels[t].agent
    requires forall a :: At(s.past.pushed, a) <= At(s'.past.pushed, a)
    ensures SegmentInv(s')
  {
    forall t | t in s'.past.batch
      ensures t in s'.tunnels && Segment(s'.past.batch[t], At(s'.past.pushed, s'.tunnels[t].agent))
    {
      var before, after := At(s.past.pushed, s.tunnels[t].agent), At(s'.past.pushed, s.tunnels[t].agent);
      SegmentGrows(s.past.batch[t], before, after[|before|..]);
      assert after == before + after[|before|..];
    }
  }

  lemma {:induction false} DrainKeepsSegments(s: State, t: TunnelId)
    requires SegmentInv(s) && FifoInv(s) && Enabled(s, Drain(t))
    ensures SegmentInv(Apply(s, Drain(t)))
  {
    var s' := Apply(s, Drain(t));
    var a := s.tunnels[t].agent;
    SuffixIsSegment(At(s.past.taken, a), At(s.queue, a));
    assert At(s.past.pushed, a) == At(s.past.taken, a) + At(s.queue, a);
    forall x | x in s'.past.batch
      ensures x in s'.tunnels && Segment(s'.past.batch[x], At(s'.past.pushed, s'.tunnels[x].agent))
    {
      assert x != t ==> x in s.past.batch;
    }
  }

  lemma {:induction false} PushedOnlyGrows(s: State, e: Event)
    requires Enabled(s, e) && !e.Drain?
    ensures var s' := Apply(s, e);
      && s'.past.batch == s.past.batch
      && (forall t | t in s.tunnels :: t in s'.tunnels && s'.tunnels[t].agent == s.tunnels[t].agent)
      && (forall a :: At(s.past.pushed, a) <= At(s'.past.pushed, a))
  {
    if e.Enqueue? {
      EnqueueGrows(s, e.frame);
    } else {
      assert Apply(s, e).past.pushed == s.past.pushed;
    }
  }

  lemma {:induction false} EnqueueGrows(s: State, f: FrameId)
    requires Enabled(s, Enqueue(f))
    ensures var s' := Apply(s, Enqueue(f));
      s'.past.batch == s.past.batch && s'.tunnels == s.tunnels && forall a :: At(s.past.pushed, a) <= At(s'.past.pushed, a)
  {
  }

  lemma {:induction false} StepKeepsSegments(s: State, e: Event)
    requires SegmentInv(s) && FifoInv(s) && Enabled(s, e)
    ensures SegmentInv(Apply(s, e))
  {
    var s' := Apply(s, e);
    if e.Drain? {
      DrainKeepsSegments(s, e.tunnel);
    } else {
      PushedOnlyGrows(s, e);
      SegmentFrame(s, s');
    }
  }

  lemma {:induction false} RunKeepsSegments(s: State, es: seq<Event>)
    requires Inv(s) && SegmentInv(s) && Valid(s, es)
    ensures SegmentInv(Run(s, es))
    decreases |es|
  {
    if es != [] {
      StepKeepsInv(s, es[0]);
      StepKeepsSegments(s, es[0]);
      RunKeepsSegments(Apply(s, es[0]), es[1..]);
    }
  }

  /** What a connection has replayed and will still replay is a contiguous piece of its agent's push
      order; and everything ever pushed has been drained in push order or is still waiting. */
  lemma {:induction false} ReplayedInPushOrder(capacity: nat, es: seq<Event>)
    requires Valid(Init(capacity), es)
    ensures var s := Run(Init(capacity), es);
      && (forall t | t in s.tunnels ::
            Segment(ReplaysIn(s.tunnels[t].channel) + Left(s.tunnels[t]), At(s.past.pushed, s.tunnels[t].agent)))
      && (forall a :: At(s.past.pushed, a) == At(s.past.taken, a) + At(s.queue, a))
  {
    var s := Run(Init(capacity), es);
    InitHasInv(capacity);
    RunKeepsInv(Init(capacity), es);
    RunKeepsSegments(Init(capacity), es);
    forall t | t in s.tunnels
      ensures Segment(ReplaysIn(s.tunnels[t].channel) + Left(s.tunnels[t]), At(s.past.pushed, s.tunnels[t].agent))
    {
      assert BatchOk(At(s.past.batch, t), s.tunnels[t]);
      var y := At(s.past.pushed, s.tunnels[t].agent);
      if t !in s.past.batch {
        assert y[0..] == y && [] <= y[0..];
      }
    }
  }

  // ---- Routes ----

  /** The registry entry of `a` goes away, whoever's tunnel it is for. */
  predicate Unregisters(s: State, e: Event, a: AgentId)
  {
    || e == Disconnect(a)
    || (e.DropLease? && e.tunnel in s.tunnels && s.tunnels[e.tunnel].agent == a)
  }

  lemma {:induction false} UnroutedStays(s: State, es: seq<Event>, a: AgentId)
    requires Valid(s, es) && a !in s.routes && forall e | e in es :: !(e.Connect? && e.agent == a)
    ensures a !in Run(s, es).routes
    decreases |es|
  {
    if es != [] {
      assert es[0] in es;
      UnroutedStays(Apply(s, es[0]), es[1..], a);
    }
  }

  lemma {:induction false} UnregistersLater(s: State, e: Event, later: Event, a: AgentId)
    requires Enabled(s, e) && !(e.Connect? && e.agent == a)
    ensures Unregisters(Apply(s, e), later, a) == Unregisters(s, later, a)
  {
  }

  /** The newest registration of an agent stays the one frames are routed to, precisely as long as
      no disconnect of the agent and no drop of any lease of it occurs, older ones included. */
  lemma {:induction false} RoutedIffNothingUnregisters(s: State, es: seq<Event>, a: AgentId)
    requires Valid(s, es) && a in s.routes && forall e | e in es :: !(e.Connect? && e.agent == a)
    ensures (a in Run(s, es).routes && Run(s, es).routes[a] == s.routes[a])
            <==> forall e | e in es :: !Unregisters(s, e, a)
    decreases |es|
  {
    if es != [] {
      var e, rest := es[0], es[1..];
      var s' := Apply(s, e);
      assert es == [e] + rest;
      assert e in es;
      if Unregisters(s, e, a) {
        UnroutedStays(s', rest, a);
      } else {
        RoutedIffNothingUnregisters(s', rest, a);
        forall x
          ensures Unregisters(s', x, a) == Unregisters(s, x, a)
        {
          UnregistersLater(s, e, x, a);
        }
      }
    }
  }

  lemma {:induction false} RunCons(s: State, e: Event, es: seq<Event>)
    requires Enabled(s, e) && Valid(Apply(s, e), es)
    ensures Valid(s, [e] + es) && Run(s, [e] + es) == Run(Apply(s, e), es)
  {
    assert ([e] + es)[1..] == es;
  }

  /** When the lease of a superseded tunnel is dropped late, the newer tunnel keeps serving, yet the
      next frame for the agent is queued or rejected instead of delivered. */
  lemma {:induction false} LateDropCutsOffNewerTunnel(s: State, stale: TunnelId, newer: TunnelId, f: FrameId)
    requires stale in s.tunnels && newer in s.tunnels && stale != newer && f !in s.posts
    requires s.tunnels[stale].phase.Serving? && s.tunnels[newer].phase.Serving? && s.tunnels[newer].open
    requires var a := s.tunnels[newer].agent; s.tunnels[stale].agent == a && a in s.routes && s.routes[a] == newer
    ensures var a := s.tunnels[newer].agent;
      var es := [DropLease(stale)] + ([Begin(f, a)] + ([Lookup(f)] + ([Enqueue(f)] + [])));
      && Valid(s, es)
      && newer in Run(s, es).tunnels && Run(s, es).tunnels[newer] == s.tunnels[newer]
      && f in Run(s, es).posts
      && Run(s, es).posts[f].phase == Done(if |At(s.queue, a)| < s.capacity then Queued else Rejected)
  {
    var a := s.tunnels[newer].agent;
    var s1 := Apply(s, DropLease(stale));
    var s2 := Apply(s1, Begin(f, a));
    var s3 := Apply(s2, Lookup(f));
    assert s3.posts[f] == Post(a, NoTunnel);
    assert s3.queue == s.queue && s3.capacity == s.capacity && s3.tunnels[newer] == s.tunnels[newer];
    RunCons(s3, Enqueue(f), []);
    RunCons(s2, Lookup(f), [Enqueue(f)] + []);
    RunCons(s1, Begin(f, a), [Lookup(f)] + ([Enqueue(f)] + []));
    RunCons(s, DropLease(stale), [Begin(f, a)] + ([Lookup(f)] + ([Enqueue(f)] + [])));
  }
}
