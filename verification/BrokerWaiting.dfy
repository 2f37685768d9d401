/** When a frame reported queued waits although its agent is connected: exactly which pushes come too
    late for the drain, in every run. */
module BrokerWaiting {
  import opened Prelude
  import opened Broker
  import opened BrokerOrder

  /** The fallback of a post finds room in the agent's buffer. */
  predicate Queues(s: State, e: Event, f: FrameId)
  {
    e == Enqueue(f) && f in s.posts && |At(s.queue, s.posts[f].agent)| < s.capacity
  }

  /** Some tunnel of agent `a` drains its buffer. */
  predicate DrainsFor(s: State, e: Event, a: AgentId)
  {
    e.Drain? && e.tunnel in s.tunnels && s.tunnels[e.tunnel].agent == a
  }

  predicate NeverDrained(s: State, es: seq<Event>, a: AgentId)
    requires Valid(s, es)
    decreases |es|
  {
    es == [] || (!DrainsFor(s, es[0], a) && NeverDrained(Apply(s, es[0]), es[1..], a))
  }

  /** One of these steps queues `f`, and no tunnel of its agent drains afterwards. */
  predicate QueuedForGood(s: State, es: seq<Event>, f: FrameId, a: AgentId)
    requires Valid(s, es)
    decreases |es|
  {
    && es != []
    && var s' := Apply(s, es[0]);
    QueuedForGood(s', es[1..], f, a) || (Queues(s, es[0], f) && NeverDrained(s', es[1..], a))
  }

  /** The same, at a moment when tunnel `t` has already drained. */
  predicate QueuedTooLate(s: State, es: seq<Event>, f: FrameId, a: AgentId, t: TunnelId)
    requires Valid(s, es)
    decreases |es|
  {
    && es != []
    && var s' := Apply(s, es[0]);
    || QueuedTooLate(s', es[1..], f, a, t)
    || (Queues(s, es[0], f) && HasDrained(s, t, a) && NeverDrained(s', es[1..], a))
  }

  predicate HasDrained(s: State, t: TunnelId, a: AgentId)
  {
    t in s.tunnels && s.tunnels[t].agent == a && !s.tunnels[t].phase.Registered?
  }

  /** As far as `f` has been posted, it was to agent `a`. */
  predicate PostedTo(s: State, f: FrameId, a: AgentId)
  {
    f in s.posts ==> s.posts[f].agent == a
  }

  lemma {:induction false} PostedToAllAlong(s: State, es: seq<Event>, f: FrameId, a: AgentId)
    requires Valid(s, es) && PostedTo(Run(s, es), f, a)
    ensures f in s.posts ==> f in Run(s, es).posts && s.posts[f].agent == a
    decreases |es|
  {
    if es != [] {
      PostedToAllAlong(Apply(s, es[0]), es[1..], f, a);
    }
  }

  /** Whether a frame waits, across one step. */
  lemma {:induction false} WaitingStep(s: State, e: Event, f: FrameId, a: AgentId)
    requires PostsInv(s) && QueueInv(s) && TunnelsInv(s) && Enabled(s, e) && PostedTo(s, f, a)
    ensures Is(Apply(s, e).past.place, f, Waiting) <==>
      Queues(s, e, f) || (Is(s.past.place, f, Waiting) && !DrainsFor(s, e, a))
  {
    if e.Drain? {
      DrainWaiting(s, e.tunnel, f, a);
    } else if e.Replay? {
      assert TunnelInv(s.past.place, e.tunnel, s.tunnels[e.tunnel]);
      assert s.tunnels[e.tunnel].phase.left[0] in Left(s.tunnels[e.tunnel]);
    } else if IsPostStep(e) {
      PostStepWaiting(s, e, f);
    } else {
      assert Apply(s, e).past.place == s.past.place;
    }
  }

  predicate IsPostStep(e: Event)
  {
    e.Begin? || e.Lookup? || e.Hand? || e.Enqueue?
  }

  lemma {:induction false} PostStepWaiting(s: State, e: Event, f: FrameId)
    requires PostsInv(s) && Enabled(s, e) && IsPostStep(e)
    ensures Is(Apply(s, e).past.place, f, Waiting) <==> Queues(s, e, f) || Is(s.past.place, f, Waiting)
  {
    assert e.frame in s.posts ==> Agrees(s.posts[e.frame].phase, s.past.place[e.frame]);
  }

  lemma {:induction false} DrainWaiting(s: State, t: TunnelId, f: FrameId, a: AgentId)
    requires PostsInv(s) && QueueInv(s) && Enabled(s, Drain(t)) && PostedTo(s, f, a)
    ensures Is(Apply(s, Drain(t)).past.place, f, Waiting) <==> Is(s.past.place, f, Waiting) && s.tunnels[t].agent != a
  {
    var b := s.tunnels[t].agent;
    assert HoldsWaiting(s, b, At(s.queue, b));
    assert f in At(s.queue, b) <==> WaitsFor(s, f, b);
  }

  /** A frame waits at the end, precisely if it was queued and its agent's buffer not drained since. */
  lemma {:induction false} WaitsIff(s: State, es: seq<Event>, f: FrameId, a: AgentId)
    requires Inv(s) && Valid(s, es) && PostedTo(Run(s, es), f, a)
    ensures Is(Run(s, es).past.place, f, Waiting) <==>
      QueuedForGood(s, es, f, a) || (Is(s.past.place, f, Waiting) && NeverDrained(s, es, a))
    decreases |es|
  {
    if es != [] {
      var s', rest := Apply(s, es[0]), es[1..];
      PostedToAllAlong(s, es, f, a);
      WaitingStep(s, es[0], f, a);
      StepKeepsInv(s, es[0]);
      WaitsIff(s', rest, f, a);
    }
  }

  /** A tunnel that has drained at the end, with no drain for its agent on the way, had drained before. */
  lemma {:induction false} DrainedBefore(s: State, es: seq<Event>, a: AgentId, t: TunnelId)
    requires Valid(s, es) && NeverDrained(s, es, a) && HasDrained(Run(s, es), t, a)
    ensures HasDrained(s, t, a)
    decreases |es|
  {
    if es != [] {
      DrainedBefore(Apply(s, es[0]), es[1..], a, t);
    }
  }

  lemma {:induction false} ForGoodIsTooLate(s: State, es: seq<Event>, f: FrameId, a: AgentId, t: TunnelId)
    requires Valid(s, es) && HasDrained(Run(s, es), t, a)
    ensures QueuedForGood(s, es, f, a) <==> QueuedTooLate(s, es, f, a, t)
    decreases |es|
  {
    if es != [] {
      var s', rest := Apply(s, es[0]), es[1..];
      ForGoodIsTooLate(s', rest, f, a, t);
      if Queues(s, es[0], f) && NeverDrained(s', rest, a) {
        DrainedBefore(s', rest, a, t);
      }
    }
  }

  /**
   * In every run that ends with an agent routed to a tunnel that serves it: a frame posted to the agent
   * still waits in its buffer, if and only if it was queued after that tunnel had drained and no tunnel
   * of the agent has drained since. Nobody will hand it over until the next connection.
   */
  lemma {:induction false} WaitsWhileServedIff(capacity: nat, es: seq<Event>, f: FrameId, t: TunnelId)
    requires Valid(Init(capacity), es)
    requires var s := Run(Init(capacity), es);
      f in s.posts && s.posts[f].agent in s.routes && s.routes[s.posts[f].agent] == t && t in s.tunnels && s.tunnels[t].phase.Serving?
    ensures var s := Run(Init(capacity), es);
      Is(s.past.place, f, Waiting) <==> QueuedTooLate(Init(capacity), es, f, s.posts[f].agent, t)
  {
    var s := Run(Init(capacity), es);
    var a := s.posts[f].agent;
    InitHasInv(capacity);
    assert s.tunnels[t].agent == a by { RunKeepsInv(Init(capacity), es); }
    WaitsIff(Init(capacity), es, f, a);
    ForGoodIsTooLate(Init(capacity), es, f, a, t);
  }

  /** From the initial state: a post finds no tunnel, a tunnel connects, drains and serves, and only then
      the post queues its frame. */
  lemma {:induction false} LatePushWaits(capacity: nat, a: AgentId) returns (es: seq<Event>)
    requires capacity > 0
    ensures Valid(Init(capacity), es)
    ensures var s := Run(Init(capacity), es);
      && 0 in s.posts && s.posts[0] == Post(a, Done(Queued)) && At(s.queue, a) == [0]
      && a in s.routes && s.routes[a] == 0 && 0 in s.tunnels && s.tunnels[0] == Tunnel(a, Serving, [], true)
  {
    var s0 := Init(capacity);
    var s1 := Apply(s0, Begin(0, a));
    var s2 := Apply(s1, Lookup(0));
    var s3 := Apply(s2, Connect(0, a));
    assert s2.posts[0] == Post(a, NoTunnel) && s3.queue == map[] && s3.posts == s2.posts;
    LeadsThree(s0, Begin(0, a), Lookup(0), Connect(0, a));
    var s6 := DrainServeEnqueue(s3, a);
    var x, y := [Begin(0, a)] + [Lookup(0)] + [Connect(0, a)], [Drain(0)] + [Serve(0)] + [Enqueue(0)];
    LeadsOn(s0, x, s3, y, s6);
    es := x + y;
  }

  lemma {:induction false} DrainServeEnqueue(s: State, a: AgentId) returns (s': State)
    requires s.capacity > 0 && s.queue == map[] && 0 in s.posts && s.posts[0] == Post(a, NoTunnel)
    requires 0 in s.tunnels && s.tunnels[0] == Tunnel(a, Registered, [], true)
    ensures Leads(s, [Drain(0)] + [Serve(0)] + [Enqueue(0)], s')
    ensures 0 in s'.posts && s'.posts[0] == Post(a, Done(Queued)) && At(s'.queue, a) == [0]
    ensures s'.routes == s.routes && 0 in s'.tunnels && s'.tunnels[0] == Tunnel(a, Serving, [], true)
  {
    var s1 := Apply(s, Drain(0));
    assert s1.tunnels[0] == Tunnel(a, Sending([]), [], true) && s1.posts == s.posts && At(s1.queue, a) == [];
    var s2 := Apply(s1, Serve(0));
    LeadsThree(s, Drain(0), Serve(0), Enqueue(0));
    s' := Apply(s2, Enqueue(0));
  }
}
