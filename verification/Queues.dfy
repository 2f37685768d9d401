/** The offline buffers: one in memory, one in Redis streams. Both are held against one per-agent
    bounded FIFO over whole histories of pushes and drains. */
module Queues {
  import opened Prelude

  type AgentId = string
  type Frame = string

  /** A call together with the capacity configured at the instance that makes it. */
  datatype Op =
    | Push(agent: AgentId, frame: Frame, cap: nat)
    | Drain(agent: AgentId, cap: nat)

  datatype Answer = Accepted | Full | Frames(frames: seq<Frame>)

  datatype Backend = InMemory | RedisStream

  // ---- One agent's buffer ----

  /** What a drain hands over: everything in memory, at most `cap` entries from a stream. */
  function Taken(b: Backend, q: seq<Frame>, cap: nat): seq<Frame>
  {
    if b.RedisStream? && cap < |q| then q[..cap] else q
  }

  function AnswerTo(b: Backend, q: seq<Frame>, op: Op): Answer
  {
    match op
    case Push(_, _, cap) => if |q| < cap then Accepted else Full
    case Drain(_, cap) => Frames(Taken(b, q, cap))
  }

  /** The buffer afterwards; a stream is deleted only when something was read from it. */
  function Next(b: Backend, q: seq<Frame>, op: Op): seq<Frame>
  {
    match op
    case Push(_, frame, cap) => if |q| < cap then q + [frame] else q
    case Drain(_, cap) => if b.RedisStream? && Taken(b, q, cap) == [] then q else []
  }

  // ---- Histories ----

  /** The buffer of `a` after the calls in `h`. */
  function Queue(b: Backend, h: seq<Op>, a: AgentId): seq<Frame>
  {
    if h == [] then []
    else
      var q, op := Queue(b, h[..|h| - 1], a), h[|h| - 1];
      if op.agent == a then Next(b, q, op) else q
  }

  function AnswerAt(b: Backend, h: seq<Op>, i: nat): Answer
    requires i < |h|
  {
    AnswerTo(b, Queue(b, h[..i], h[i].agent), h[i])
  }

  /** The frames whose push was accepted, in push order. */
  function AcceptedOf(b: Backend, h: seq<Op>, a: AgentId): seq<Frame>
  {
    if h == [] then []
    else
      var i := |h| - 1;
      AcceptedOf(b, h[..i], a)
      + if h[i].agent == a && h[i].Push? && AnswerAt(b, h, i).Accepted? then [h[i].frame] else []
  }

  /** Everything drains returned, in drain order. */
  function DrainedOf(b: Backend, h: seq<Op>, a: AgentId): seq<Frame>
  {
    if h == [] then []
    else
      var i := |h| - 1;
      DrainedOf(b, h[..i], a) + if h[i].agent == a && h[i].Drain? then AnswerAt(b, h, i).frames else []
  }

  /** No drain of `a` read fewer frames than it deleted. */
  predicate NoneDiscarded(b: Backend, h: seq<Op>, a: AgentId)
  {
    if h == [] then true
    else
      var i := |h| - 1;
      && NoneDiscarded(b, h[..i], a)
      && !(b.RedisStream? && h[i].agent == a && h[i].Drain? && 0 < h[i].cap < |Queue(b, h[..i], a)|)
  }

  lemma {:induction false} QueueSnoc(b: Backend, h: seq<Op>, op: Op, a: AgentId)
    ensures Queue(b, h + [op], a) == if op.agent == a then Next(b, Queue(b, h, a), op) else Queue(b, h, a)
    ensures AnswerAt(b, h + [op], |h|) == AnswerTo(b, Queue(b, h, op.agent), op)
  {
    assert (h + [op])[..|h|] == h;
  }

  /** Frames come out in the order they went in, each at most once, and what has not come out is
      still there, precisely when no drain deleted more than it read. */
  lemma {:induction false} FifoIffNoneDiscarded(b: Backend, h: seq<Op>, a: AgentId)
    ensures NoneDiscarded(b, h, a) <==> AcceptedOf(b, h, a) == DrainedOf(b, h, a) + Queue(b, h, a)
    ensures |AcceptedOf(b, h, a)| >= |DrainedOf(b, h, a)| + |Queue(b, h, a)|
    ensures !NoneDiscarded(b, h, a) ==> |AcceptedOf(b, h, a)| > |DrainedOf(b, h, a)| + |Queue(b, h, a)|
  {
    if h != [] {
      var i := |h| - 1;
      FifoIffNoneDiscarded(b, h[..i], a);
      var q, acc, dr := Queue(b, h[..i], a), AcceptedOf(b, h[..i], a), DrainedOf(b, h[..i], a);
      var none := NoneDiscarded(b, h[..i], a);
      if h[i].agent == a {
        match h[i]
        case Push(_, frame, cap) => PushBalances(acc, dr, q, none, frame);
        case Drain(_, cap) => DrainBalances(acc, dr, q, none, Taken(b, q, cap));
      }
    }
  }

  predicate Balanced(acc: seq<Frame>, dr: seq<Frame>, q: seq<Frame>, none: bool)
  {
    && (none <==> acc == dr + q) && |acc| >= |dr| + |q| && (!none ==> |acc| > |dr| + |q|)
  }

  lemma {:induction false} PushBalances(acc: seq<Frame>, dr: seq<Frame>, q: seq<Frame>, none: bool, frame: Frame)
    requires Balanced(acc, dr, q, none)
    ensures Balanced(acc + [frame], dr, q + [frame], none) && acc + [] == acc && dr + [] == dr
  {
    Associate(dr, q, [frame]);
  }

  lemma {:induction false} DrainBalances(acc: seq<Frame>, dr: seq<Frame>, q: seq<Frame>, none: bool, taken: seq<Frame>)
    requires Balanced(acc, dr, q, none) && taken <= q
    ensures Balanced(acc, dr + taken, [], none && taken == q)
    ensures taken == [] ==> Balanced(acc, dr + taken, q, none)
    ensures acc + [] == acc
  {
    assert (dr + taken) + [] == dr + taken;
  }

  /** Nothing in memory is ever discarded. */
  lemma {:induction false} InMemoryDiscardsNothing(h: seq<Op>, a: AgentId)
    ensures NoneDiscarded(InMemory, h, a)
  {
    if h != [] {
      InMemoryDiscardsNothing(h[..|h| - 1], a);
    }
  }

  /** Only an agent's own calls matter to its buffer. */
  lemma {:induction false} AgentsAreIsolated(b: Backend, h: seq<Op>, g: seq<Op>, a: AgentId)
    requires OwnCalls(h, a) == OwnCalls(g, a)
    ensures Queue(b, h, a) == Queue(b, g, a) == Queue(b, OwnCalls(h, a), a)
  {
    QueueOfOwn(b, h, a);
    QueueOfOwn(b, g, a);
  }

  function OwnCalls(h: seq<Op>, a: AgentId): seq<Op>
  {
    if h == [] then []
    else OwnCalls(h[..|h| - 1], a) + if h[|h| - 1].agent == a then [h[|h| - 1]] else []
  }

  lemma {:induction false} QueueOfOwn(b: Backend, h: seq<Op>, a: AgentId)
    ensures Queue(b, h, a) == Queue(b, OwnCalls(h, a), a)
  {
    if h != [] {
      var i := |h| - 1;
      QueueOfOwn(b, h[..i], a);
      QueueSnoc(b, OwnCalls(h[..i], a), h[i], a);
      assert OwnCalls(h, a) == if h[i].agent == a then OwnCalls(h[..i], a) + [h[i]] else OwnCalls(h[..i], a);
    }
  }

  // ---- Capacities ----

  predicate Capped(h: seq<Op>, push: nat, drain: nat)
  {
    forall op | op in h :: op.cap == if op.Push? then push else drain
  }

  lemma {:induction false} QueueIsBounded(b: Backend, h: seq<Op>, a: AgentId, push: nat, drain: nat)
    requires Capped(h, push, drain)
    ensures |Queue(b, h, a)| <= push
  {
    if h != [] {
      var i := |h| - 1;
      assert forall op | op in h[..i] :: op in h;
      assert h[i] in h;
      QueueIsBounded(b, h[..i], a, push, drain);
    }
  }

  lemma {:induction false} WiderDrainsDiscardNothing(h: seq<Op>, a: AgentId, push: nat, drain: nat)
    requires Capped(h, push, drain) && (drain == 0 || push <= drain)
    ensures NoneDiscarded(RedisStream, h, a)
  {
    if h != [] {
      var i := |h| - 1;
      assert forall op | op in h[..i] :: op in h;
      assert h[i] in h;
      WiderDrainsDiscardNothing(h[..i], a, push, drain);
      QueueIsBounded(RedisStream, h[..i], a, push, drain);
    }
  }

  function Pushes(a: AgentId, n: nat, cap: nat): (h: seq<Op>)
    ensures forall op | op in h :: op.Push? && op.cap == cap
  {
    if n == 0 then [] else Pushes(a, n - 1, cap) + [Push(a, "", cap)]
  }

  lemma {:induction false} PushesFill(a: AgentId, n: nat, cap: nat)
    requires n <= cap
    ensures |Queue(RedisStream, Pushes(a, n, cap), a)| == n
  {
    if n > 0 {
      PushesFill(a, n - 1, cap);
      QueueSnoc(RedisStream, Pushes(a, n - 1, cap), Push(a, "", cap), a);
    }
  }

  /** Instances that push with one capacity and instances that drain with another share a stream
      without ever losing a frame, precisely when the drainers read nothing or at least as much as
      the pushers allow. */
  lemma {:induction false} StreamIsLosslessIff(a: AgentId, push: nat, drain: nat)
    ensures (forall h | Capped(h, push, drain) :: NoneDiscarded(RedisStream, h, a)) <==> drain == 0 || push <= drain
  {
    if drain == 0 || push <= drain {
      forall h | Capped(h, push, drain)
        ensures NoneDiscarded(RedisStream, h, a)
      {
        WiderDrainsDiscardNothing(h, a, push, drain);
      }
    } else {
      var filled := Pushes(a, drain + 1, push);
      var h := filled + [Drain(a, drain)];
      PushesFill(a, drain + 1, push);
      assert h[..|h| - 1] == filled;
      assert Capped(h, push, drain) && !NoneDiscarded(RedisStream, h, a);
    }
  }

  lemma {:induction false} SameBuffer(h: seq<Op>, a: AgentId, cap: nat)
    requires Capped(h, cap, cap)
    ensures Queue(InMemory, h, a) == Queue(RedisStream, h, a)
  {
    if h != [] {
      var i := |h| - 1;
      assert forall op | op in h[..i] :: op in h;
      assert h[i] in h;
      SameBuffer(h[..i], a, cap);
      QueueIsBounded(RedisStream, h[..i], a, cap, cap);
    }
  }

  /** With one capacity throughout, the two backends answer every call of every history alike, and
      both are the FIFO. */
  lemma {:induction false} BackendsAgree(h: seq<Op>, cap: nat)
    requires Capped(h, cap, cap)
    ensures forall i: nat | i < |h| :: AnswerAt(InMemory, h, i) == AnswerAt(RedisStream, h, i)
    ensures forall b: Backend, a :: AcceptedOf(b, h, a) == DrainedOf(b, h, a) + Queue(b, h, a)
  {
    forall i: nat | i < |h|
      ensures AnswerAt(InMemory, h, i) == AnswerAt(RedisStream, h, i)
    {
      assert forall op | op in h[..i] :: op in h;
      assert h[i] in h;
      SameBuffer(h[..i], h[i].agent, cap);
      QueueIsBounded(RedisStream, h[..i], h[i].agent, cap, cap);
    }
    forall b: Backend, a
      ensures AcceptedOf(b, h, a) == DrainedOf(b, h, a) + Queue(b, h, a)
    {
      OneCapacityIsFifo(b, h, a, cap);
    }
  }

  lemma {:induction false} OneCapacityIsFifo(b: Backend, h: seq<Op>, a: AgentId, cap: nat)
    requires Capped(h, cap, cap)
    ensures AcceptedOf(b, h, a) == DrainedOf(b, h, a) + Queue(b, h, a)
  {
    FifoIffNoneDiscarded(b, h, a);
    if b.InMemory? {
      InMemoryDiscardsNothing(h, a);
    } else {
      WiderDrainsDiscardNothing(h, a, cap, cap);
    }
  }

  // ---- The in-memory implementation ----

  class InMemoryQueue {
    var slots: map<AgentId, seq<Frame>>
    const capacity: nat
    ghost var history: seq<Op>

    function Contents(a: AgentId): seq<Frame>
      reads this
    {
      if a in slots then slots[a] else []
    }

    /** Every agent's slot, missing or not, is its FIFO after the calls so far. */
    ghost predicate Valid()
      reads this
    {
      && (forall a :: Contents(a) == Queue(InMemory, history, a))
      && Capped(history, capacity, capacity)
    }

    constructor (capacity: nat)
      ensures Valid() && this.capacity == capacity && history == []
    {
      slots := map[];
      this.capacity := capacity;
      history := [];
    }

    /** Extends the history by a call whose effect on the slots is in place. */
    ghost method Log(op: Op)
      requires op.cap == capacity && Capped(history, capacity, capacity)
      requires forall a | a != op.agent :: Contents(a) == Queue(InMemory, history, a)
      requires Contents(op.agent) == Next(InMemory, Queue(InMemory, history, op.agent), op)
      modifies this`history
      ensures Valid() && history == old(history) + [op]
    {
      forall a
        ensures Contents(a) == Queue(InMemory, history + [op], a)
      {
        QueueSnoc(InMemory, history, op, a);
      }
      history := history + [op];
    }

    /** A refused push leaves every buffer as it was, although the slot now exists. */
    method Push(a: AgentId, frame: Frame) returns (ok: bool)
      requires Valid()
      modifies this
      ensures Valid() && history == old(history) + [Op.Push(a, frame, capacity)]
      ensures ok <==> AnswerTo(InMemory, old(Contents(a)), Op.Push(a, frame, capacity)) == Accepted
      ensures Contents(a) == if ok then old(Contents(a)) + [frame] else old(Contents(a))
      ensures forall x | x != a :: Contents(x) == old(Contents(x))
    {
      if a !in slots {
        slots := slots[a := []];
      }
      ok := |slots[a]| < capacity;
      if ok {
        slots := slots[a := slots[a] + [frame]];
      }
      Log(Op.Push(a, frame, capacity));
    }

    method Drain(a: AgentId) returns (out: seq<Frame>)
      requires Valid()
      modifies this
      ensures Valid() && history == old(history) + [Op.Drain(a, capacity)]
      ensures AnswerTo(InMemory, old(Contents(a)), Op.Drain(a, capacity)) == Frames(out)
      ensures out == old(Contents(a)) && a !in slots
      ensures forall x | x != a :: Contents(x) == old(Contents(x))
    {
      var slot := Contents(a);
      slots := slots - {a};
      out := [];
      while slot != []
        invariant out + slot == old(Contents(a))
        decreases |slot|
      {
        out, slot := out + [slot[0]], slot[1..];
      }
      Log(Op.Drain(a, capacity));
    }

    method Len(a: AgentId) returns (n: nat)
      requires Valid()
      ensures n == |Queue(InMemory, history, a)| <= capacity
    {
      n := |Contents(a)|;
      QueueIsBounded(InMemory, history, a, capacity, capacity);
    }
  }

  // ---- The Redis implementation ----

  datatype Entry = Entry(id: nat, frame: Frame)

  function FramesIn(es: seq<Entry>): (fs: seq<Frame>)
    ensures |fs| == |es| && forall i | 0 <= i < |es| :: fs[i] == es[i].frame
  {
    seq(|es|, i requires 0 <= i < |es| => es[i].frame)
  }

  /** The buffer streams, shared by all instances; each script is one atomic step. */
  class BufferStreams {
    var streams: map<AgentId, seq<Entry>>
    var lastId: nat
    ghost var history: seq<Op>

    function Stream(a: AgentId): seq<Entry>
      reads this
    {
      if a in streams then streams[a] else []
    }

    ghost predicate Valid()
      reads this
    {
      forall a :: FramesIn(Stream(a)) == Queue(RedisStream, history, a)
    }

    constructor ()
      ensures Valid() && history == []
    {
      streams := map[];
      lastId := 0;
      history := [];
    }

    ghost method Log(op: Op)
      requires forall a | a != op.agent :: FramesIn(Stream(a)) == Queue(RedisStream, history, a)
      requires FramesIn(Stream(op.agent)) == Next(RedisStream, Queue(RedisStream, history, op.agent), op)
      modifies this`history
      ensures Valid() && history == old(history) + [op]
    {
      forall a
        ensures FramesIn(Stream(a)) == Queue(RedisStream, history + [op], a)
      {
        QueueSnoc(RedisStream, history, op, a);
      }
      history := history + [op];
    }

    method PushScript(a: AgentId, cap: nat, frame: Frame) returns (added: nat)
      requires Valid()
      modifies this
      ensures Valid() && history == old(history) + [Op.Push(a, frame, cap)]
      ensures AnswerTo(RedisStream, old(FramesIn(Stream(a))), Op.Push(a, frame, cap)) == if added == 0 then Full else Accepted
      ensures added == 0 ==> streams == old(streams)
      ensures forall x | x != a :: Stream(x) == old(Stream(x))
    {
      var len := |Stream(a)|;
      if len >= cap {
        Log(Op.Push(a, frame, cap));
        return 0;
      }
      ghost var before := Stream(a);
      lastId := lastId + 1;
      streams := streams[a := Stream(a) + [Entry(lastId, frame)]];
      assert FramesIn(Stream(a)) == FramesIn(before) + [frame];
      Log(Op.Push(a, frame, cap));
      return 1;
    }

    method DrainScript(a: AgentId, cap: nat) returns (entries: seq<Entry>)
      requires Valid()
      modifies this
      ensures Valid() && history == old(history) + [Op.Drain(a, cap)]
      ensures AnswerTo(RedisStream, old(FramesIn(Stream(a))), Op.Drain(a, cap)) == Frames(FramesIn(entries))
      ensures forall x | x != a :: Stream(x) == old(Stream(x))
    {
      var stream := Stream(a);
      entries := if cap < |stream| then stream[..cap] else stream;
      assert FramesIn(entries) == Taken(RedisStream, FramesIn(stream), cap);
      if |entries| > 0 {
        streams := streams - {a};
      }
      Log(Op.Drain(a, cap));
    }
  }

  /** One instance's handle on the shared buffers. */
  class RedisQueue {
    const conn: BufferStreams
    const capacity: nat

    constructor (conn: BufferStreams, capacity: nat)
      ensures this.conn == conn && this.capacity == capacity
    {
      this.conn := conn;
      this.capacity := capacity;
    }

    method Push(a: AgentId, frame: Frame) returns (ok: bool)
      requires conn.Valid()
      modifies conn
      ensures conn.Valid() && conn.history == old(conn.history) + [Op.Push(a, frame, capacity)]
      ensures (if ok then Accepted else Full) == AnswerAt(RedisStream, conn.history, |old(conn.history)|)
    {
      QueueSnoc(RedisStream, conn.history, Op.Push(a, frame, capacity), a);
      var added := conn.PushScript(a, capacity, frame);
      ok := added != 0;
    }

    /** What the script read, without the entry ids; all of it if every instance is configured alike. */
    method Drain(a: AgentId) returns (out: seq<Frame>)
      requires conn.Valid()
      modifies conn
      ensures conn.Valid() && conn.history == old(conn.history) + [Op.Drain(a, capacity)]
      ensures Frames(out) == AnswerAt(RedisStream, conn.history, |old(conn.history)|)
      ensures Capped(old(conn.history), capacity, capacity) ==>
        out == old(FramesIn(conn.Stream(a))) && conn.Stream(a) == []
    {
      QueueSnoc(RedisStream, conn.history, Op.Drain(a, capacity), a);
      if Capped(conn.history, capacity, capacity) {
        QueueIsBounded(RedisStream, conn.history, a, capacity, capacity);
      }
      var entries := conn.DrainScript(a, capacity);
      out := FramesIn(entries);
    }
  }
}
