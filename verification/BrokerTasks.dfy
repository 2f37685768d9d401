/** The request handler and the tunnel task of the in-memory broker as the imperative code they are,
    each a path through the step system of `Broker`. */
module BrokerTasks {
  import opened Prelude
  import opened Broker

  datatype PostError = RoleEmpty | QueueFull(capacity: nat)

  /** The broker, with the run that led here. */
  class World {
    var s: State
    ghost const capacity: nat
    ghost var log: seq<Event>

    ghost predicate Consistent()
      reads this
    {
      Valid(Init(capacity), log) && Run(Init(capacity), log) == s
    }

    constructor (capacity: nat)
      ensures Consistent() && this.capacity == capacity && log == []
    {
      s, this.capacity, log := Init(capacity), capacity, [];
    }

    method Issue(e: Event)
      requires Consistent() && Enabled(s, e)
      modifies this
      ensures Consistent() && s == Apply(old(s), e) && log == old(log) + [e]
    {
      RunSnoc(Init(capacity), log, e);
      s := Apply(s, e);
      log := log + [e];
    }
  }

  lemma {:induction false} RoutesExist(capacity: nat, es: seq<Event>, a: AgentId)
    requires Valid(Init(capacity), es) && a in Run(Init(capacity), es).routes
    ensures Run(Init(capacity), es).routes[a] in Run(Init(capacity), es).tunnels
  {
    InitHasInv(capacity);
    RunKeepsInv(Init(capacity), es);
  }

  lemma {:induction false} RunSnoc(s: State, es: seq<Event>, e: Event)
    requires Valid(s, es) && Enabled(Run(s, es), e)
    ensures Valid(s, es + [e]) && Run(s, es + [e]) == Apply(Run(s, es), e)
    decreases |es|
  {
    if es == [] {
      assert es + [e] == [e];
      RunCons(s, e, []);
      assert [e] + [] == [e];
    } else {
      var s' := Apply(s, es[0]);
      RunSnoc(s', es[1..], e);
      RunCons(s, es[0], es[1..] + [e]);
      assert es + [e] == [es[0]] + (es[1..] + [e]);
    }
  }

  /** The tunnel a frame for `a` is handed to right now. */
  function Receiver(s: State, a: AgentId): Option<TunnelId>
  {
    if a in s.routes && s.routes[a] in s.tunnels && s.tunnels[s.routes[a]].open then Some(s.routes[a]) else None
  }

  /** `deliver`: `Live`, or the frame back for the caller to buffer. */
  method Deliver(w: World, f: FrameId, a: AgentId) returns (live: bool)
    requires w.Consistent() && f in w.s.posts && w.s.posts[f] == Post(a, Started)
    modifies w
    ensures w.Consistent() && live == Receiver(old(w.s), a).Some?
    ensures f in w.s.posts && w.s.posts[f] == Post(a, if live then Done(Live) else NoTunnel)
    ensures w.s.queue == old(w.s.queue) && w.s.capacity == old(w.s.capacity) && w.s.routes == old(w.s.routes)
    ensures live ==> Is(w.s.past.place, f, Handed(Receiver(old(w.s), a).value))
    ensures !live ==> w.s.tunnels == old(w.s.tunnels) && w.s.past == old(w.s.past)
  {
    if a in w.s.routes {
      RoutesExist(w.capacity, w.log, a);
    }
    w.Issue(Lookup(f));
    if w.s.posts[f].phase.HasEntry? {
      w.Issue(Hand(f));
    }
    live := w.s.posts[f].phase.Done?;
  }

  /** Undisturbed, a post is delivered live exactly if the agent's routed tunnel still listens, is
      queued last if not and there is room, and is refused otherwise; a missing role changes nothing. */
  method SendMessage(w: World, f: FrameId, a: AgentId, role: string) returns (r: Result<Outcome, PostError>)
    requires w.Consistent() && f !in w.s.posts
    modifies w
    ensures w.Consistent()
    ensures r == if role == "" then Err(RoleEmpty)
                 else if Receiver(old(w.s), a).Some? then Ok(Live)
                 else if |At(old(w.s.queue), a)| < old(w.s.capacity) then Ok(Queued)
                 else Err(QueueFull(old(w.s.capacity)))
    ensures role == "" ==> w.s == old(w.s)
    ensures r == Ok(Live) ==> Is(w.s.past.place, f, Handed(Receiver(old(w.s), a).value))
    ensures At(w.s.queue, a) == At(old(w.s.queue), a) + if r == Ok(Queued) then [f] else []
    ensures r.Err? && r.error.QueueFull? ==> Is(w.s.past.place, f, Refused) && w.s.tunnels == old(w.s.tunnels)
  {
    if role == "" {
      return Err(RoleEmpty);
    }
    w.Issue(Begin(f, a));
    var live := Deliver(w, f, a);
    if live {
      return Ok(Live);
    }
    w.Issue(Enqueue(f));
    if w.s.posts[f].phase == Done(Queued) {
      return Ok(Queued);
    }
    return Err(QueueFull(w.s.capacity));
  }

  lemma {:induction false} Opening(s: State, t: TunnelId, a: AgentId)
    requires t !in s.tunnels
    ensures var s1 := Apply(s, Connect(t, a));
      && Enabled(s1, Drain(t))
      && var s2 := Apply(s1, Drain(t));
      && t in s2.tunnels && s2.tunnels[t] == Tunnel(a, Sending(At(s.queue, a)), [], true)
      && s2.routes == s.routes[a := t] && s2.queue == s.queue - {a} && s2.posts == s.posts
  {
  }

  /** Undisturbed, opening a tunnel routes the agent to it and puts the whole buffer, in order, at
      the front of its channel. */
  method OpenTunnel(w: World, t: TunnelId, a: AgentId)
    requires w.Consistent() && t !in w.s.tunnels
    modifies w
    ensures w.Consistent()
    ensures a in w.s.routes && w.s.routes[a] == t && t in w.s.tunnels
    ensures w.s.tunnels[t].phase.Serving? && w.s.tunnels[t].agent == a
    ensures ReplaysIn(w.s.tunnels[t].channel) == At(old(w.s.queue), a) == FramesIn(w.s.tunnels[t].channel)
    ensures At(w.s.queue, a) == [] && forall b | b != a :: At(w.s.queue, b) == At(old(w.s.queue), b)
    ensures w.s.posts == old(w.s.posts)
  {
    Opening(w.s, t, a);
    w.Issue(Connect(t, a));
    w.Issue(Drain(t));
    ReplayAll(w, t);
    w.Issue(Serve(t));
  }

  /** A tunnel while it replays what it drained, its channel holding replays only. */
  predicate Replaying(v: Tunnel, a: AgentId, q: seq<FrameId>)
  {
    && v.agent == a && v.phase.Sending?
    && ReplaysIn(v.channel) + v.phase.left == q
    && FramesIn(v.channel) == ReplaysIn(v.channel)
  }

  lemma {:induction false} ReplayStep(v: Tunnel, w: Tunnel, a: AgentId, q: seq<FrameId>)
    requires Replaying(v, a, q) && v.phase.left != []
    requires w == v.(phase := Sending(v.phase.left[1..]), channel := v.channel + [Replayed(v.phase.left[0])])
    ensures Replaying(w, a, q)
  {
    var f := v.phase.left[0];
    assert ReplaysIn(w.channel) == ReplaysIn(v.channel) + [f] && FramesIn(w.channel) == FramesIn(v.channel) + [f] by {
      FramesSnoc(v.channel, Replayed(f));
    }
    Shift(ReplaysIn(v.channel), v.phase.left);
  }

  method ReplayAll(w: World, t: TunnelId)
    requires w.Consistent() && t in w.s.tunnels && w.s.tunnels[t].phase.Sending? && w.s.tunnels[t].channel == []
    modifies w
    ensures w.Consistent() && w.s.posts == old(w.s.posts) && w.s.queue == old(w.s.queue) && w.s.routes == old(w.s.routes)
    ensures t in w.s.tunnels && Replaying(w.s.tunnels[t], old(w.s.tunnels[t].agent), old(w.s.tunnels[t].phase.left))
    ensures w.s.tunnels[t].phase.left == []
  {
    ghost var a, q := w.s.tunnels[t].agent, w.s.tunnels[t].phase.left;
    while w.s.tunnels[t].phase.left != []
      invariant w.Consistent() && t in w.s.tunnels && Replaying(w.s.tunnels[t], a, q)
      invariant w.s.posts == old(w.s.posts) && w.s.queue == old(w.s.queue) && w.s.routes == old(w.s.routes)
      decreases |w.s.tunnels[t].phase.left|
    {
      ghost var v := w.s.tunnels[t];
      w.Issue(Replay(t));
      ReplayStep(v, w.s.tunnels[t], a, q);
    }
  }
}
