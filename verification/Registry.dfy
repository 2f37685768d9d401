/** The in-memory agent registry: the table of connected agents and the bounded log of recently
    disconnected ones, whose updates are two separate steps each. */
module Registry {
  import opened Prelude

  type AgentId = string
  type TaskId = nat

  const RECENT_CAPACITY: nat := 64

  /** Times are whole seconds. */
  datatype Entry = Entry(user: Option<string>, connectedAt: nat, lastActivity: nat)

  datatype Recent = Recent(agent: AgentId, user: Option<string>, disconnectedAt: nat)

  datatype Description =
    Description(agent: AgentId, connected: bool, uptime: Option<nat>, idle: Option<nat>, user: Option<string>)

  // ---- The log of recent disconnects ----

  datatype LogOp = Put(entry: Recent) | Forget(agent: AgentId)
  {
    function Subject(): AgentId
    {
      if Put? then entry.agent else agent
    }
  }

  function Without(s: seq<Recent>, a: AgentId): (r: seq<Recent>)
    ensures |r| <= |s| && forall x :: x in r <==> x in s && x.agent != a
  {
    if s == [] then [] else (if s[0].agent == a then [] else [s[0]]) + Without(s[1..], a)
  }

  /** The log that keeps everything: one entry per agent, latest last. */
  function Keep(log: seq<Recent>, op: LogOp): seq<Recent>
  {
    match op
    case Forget(a) => Without(log, a)
    case Put(r) => Without(log, r.agent) + [r]
  }

  /** The log as kept: the oldest entry gives way once the capacity is reached. */
  function KeepBounded(log: seq<Recent>, op: LogOp): seq<Recent>
  {
    match op
    case Forget(a) => Without(log, a)
    case Put(r) =>
      var rest := Without(log, r.agent);
      (if |rest| == RECENT_CAPACITY then rest[1..] else rest) + [r]
  }

  function Unbounded(ops: seq<LogOp>): seq<Recent>
  {
    if ops == [] then [] else Keep(Unbounded(ops[..|ops| - 1]), ops[|ops| - 1])
  }

  function Bounded(ops: seq<LogOp>): seq<Recent>
  {
    if ops == [] then [] else KeepBounded(Bounded(ops[..|ops| - 1]), ops[|ops| - 1])
  }

  predicate OnePerAgent(s: seq<Recent>)
  {
    forall i, j | 0 <= i < j < |s| :: s[i].agent != s[j].agent
  }

  predicate IsSuffix(s: seq<Recent>, t: seq<Recent>)
  {
    |s| <= |t| && s == t[|t| - |s|..]
  }

  lemma {:induction false} WithoutAppend(s: seq<Recent>, t: seq<Recent>, a: AgentId)
    ensures Without(s + t, a) == Without(s, a) + Without(t, a)
  {
    if s == [] {
      assert s + t == t;
    } else {
      assert (s + t)[1..] == s[1..] + t && (s + t)[0] == s[0];
      WithoutAppend(s[1..], t, a);
    }
  }

  lemma {:induction false} WithoutKeepsOnePerAgent(s: seq<Recent>, a: AgentId)
    requires OnePerAgent(s)
    ensures OnePerAgent(Without(s, a))
  {
    if s != [] {
      WithoutKeepsOnePerAgent(s[1..], a);
      var w := Without(s[1..], a);
      forall i | 0 <= i < |w|
        ensures w[i].agent != s[0].agent
      {
        assert w[i] in s[1..];
      }
    }
  }

  lemma {:induction false} WithoutKeepsSuffix(s: seq<Recent>, t: seq<Recent>, a: AgentId)
    requires IsSuffix(s, t)
    ensures IsSuffix(Without(s, a), Without(t, a))
  {
    var front := t[..|t| - |s|];
    assert t == front + s;
    WithoutAppend(front, s, a);
  }

  lemma {:induction false} PutKeepsOnePerAgent(s: seq<Recent>, r: Recent)
    requires OnePerAgent(s) && forall x | x in s :: x.agent != r.agent
    ensures OnePerAgent(s + [r])
  {
    forall i, j | 0 <= i < j < |s + [r]|
      ensures (s + [r])[i].agent != (s + [r])[j].agent
    {
      assert s[i] in s;
    }
  }

  lemma {:induction false} UnboundedStep(u: seq<Recent>, op: LogOp)
    requires OnePerAgent(u)
    ensures OnePerAgent(Keep(u, op))
  {
    WithoutKeepsOnePerAgent(u, op.Subject());
    if op.Put? {
      PutKeepsOnePerAgent(Without(u, op.Subject()), op.entry);
    }
  }

  lemma {:induction false} BoundedStep(b: seq<Recent>, u: seq<Recent>, op: LogOp)
    requires IsSuffix(b, u) && |b| <= RECENT_CAPACITY
    ensures IsSuffix(KeepBounded(b, op), Keep(u, op)) && |KeepBounded(b, op)| <= RECENT_CAPACITY
    ensures b == u && |Keep(u, op)| <= RECENT_CAPACITY ==> KeepBounded(b, op) == Keep(u, op)
  {
    WithoutKeepsSuffix(b, u, op.Subject());
    if op.Put? {
      PutKeepsSuffix(Without(b, op.Subject()), Without(u, op.Subject()), op.entry);
    }
  }

  lemma {:induction false} PutKeepsSuffix(b: seq<Recent>, u: seq<Recent>, r: Recent)
    requires IsSuffix(b, u)
    ensures IsSuffix(b + [r], u + [r])
    ensures b != [] ==> IsSuffix(b[1..] + [r], u + [r])
  {
  }

  /** Whatever happens, the log kept is a duplicate-free suffix, at most the capacity long, of the
      log that keeps everything. */
  lemma {:induction false} RecentIsSuffix(ops: seq<LogOp>)
    ensures IsSuffix(Bounded(ops), Unbounded(ops))
    ensures |Bounded(ops)| <= 64
    ensures OnePerAgent(Unbounded(ops)) && OnePerAgent(Bounded(ops))
  {
    if ops != [] {
      var i := |ops| - 1;
      RecentIsSuffix(ops[..i]);
      UnboundedStep(Unbounded(ops[..i]), ops[i]);
      BoundedStep(Bounded(ops[..i]), Unbounded(ops[..i]), ops[i]);
    }
  }

  /** Nothing has been evicted, precisely when the log that keeps everything never outgrew the
      capacity. */
  lemma {:induction false} CompleteIffNeverOutgrown(ops: seq<LogOp>)
    ensures (forall n | 0 <= n <= |ops| :: Bounded(ops[..n]) == Unbounded(ops[..n]))
            <==> (forall n | 0 <= n <= |ops| :: |Unbounded(ops[..n])| <= 64)
  {
    if forall n | 0 <= n <= |ops| :: |Unbounded(ops[..n])| <= RECENT_CAPACITY {
      forall n | 0 <= n <= |ops|
        ensures Bounded(ops[..n]) == Unbounded(ops[..n])
      {
        SmallIsComplete(ops, n);
      }
    } else {
      var n :| 0 <= n <= |ops| && |Unbounded(ops[..n])| > RECENT_CAPACITY;
      RecentIsSuffix(ops[..n]);
    }
  }

  lemma {:induction false} SmallIsComplete(ops: seq<LogOp>, n: nat)
    requires n <= |ops| && forall k | 0 <= k <= |ops| :: |Unbounded(ops[..k])| <= RECENT_CAPACITY
    ensures Bounded(ops[..n]) == Unbounded(ops[..n])
  {
    if n > 0 {
      SmallIsComplete(ops, n - 1);
      assert ops[..n][..n - 1] == ops[..n - 1];
      assert IsSuffix(Bounded(ops[..n - 1]), Unbounded(ops[..n - 1]));
      BoundedStep(Bounded(ops[..n - 1]), Unbounded(ops[..n - 1]), ops[n - 1]);
    }
  }

  /** The last operation on an agent, if it recorded `r`. */
  ghost predicate LastWord(ops: seq<LogOp>, i: nat, r: Recent)
  {
    && i < |ops| && ops[i] == Put(r)
    && forall j | i < j < |ops| :: ops[j].Subject() != r.agent
  }

  /** The log that keeps everything holds exactly the disconnects not followed by another operation
      on the same agent. */
  lemma {:induction false} LoggedIffLastWord(ops: seq<LogOp>, r: Recent)
    ensures r in Unbounded(ops) <==> exists i: nat :: LastWord(ops, i, r)
  {
    if ops != [] {
      var n := |ops| - 1;
      LoggedIffLastWord(ops[..n], r);
      InKeep(Unbounded(ops[..n]), ops[n], r);
      if ops[n].Subject() == r.agent {
        LastWordAtEnd(ops, r);
      } else {
        forall i: nat
          ensures LastWord(ops, i, r) <==> LastWord(ops[..n], i, r)
        {
          LastWordOfFront(ops, i, r);
        }
      }
    }
  }

  lemma {:induction false} InKeep(log: seq<Recent>, op: LogOp, r: Recent)
    ensures r in Keep(log, op) <==> op == Put(r) || (r in log && op.Subject() != r.agent)
  {
  }

  lemma {:induction false} LastWordAtEnd(ops: seq<LogOp>, r: Recent)
    requires ops != [] && ops[|ops| - 1].Subject() == r.agent
    ensures (exists i: nat :: LastWord(ops, i, r)) <==> ops[|ops| - 1] == Put(r)
  {
    if ops[|ops| - 1] == Put(r) {
      assert LastWord(ops, |ops| - 1, r);
    }
  }

  lemma {:induction false} LastWordOfFront(ops: seq<LogOp>, i: nat, r: Recent)
    requires ops != [] && ops[|ops| - 1].Subject() != r.agent
    ensures LastWord(ops, i, r) <==> LastWord(ops[..|ops| - 1], i, r)
  {
    var front := ops[..|ops| - 1];
    assert forall j | 0 <= j < |front| :: front[j] == ops[j];
  }

  // ---- Descriptions ----

  function Since(now: nat, earlier: nat): nat
  {
    if now > earlier then now - earlier else 0
  }

  function FromConnected(a: AgentId, e: Entry, now: nat): Description
  {
    Description(a, true, Some(Since(now, e.connectedAt)), Some(Since(now, e.lastActivity)), e.user)
  }

  function FromRecent(r: Recent, now: nat): Description
  {
    Description(r.agent, false, None, Some(Since(now, r.disconnectedAt)), r.user)
  }

  function FindRecent(recent: seq<Recent>, a: AgentId): Option<Recent>
  {
    if recent == [] then None else if recent[0].agent == a then Some(recent[0]) else FindRecent(recent[1..], a)
  }

  function Describe(connected: map<AgentId, Entry>, recent: seq<Recent>, a: AgentId, now: nat): Option<Description>
  {
    if a in connected then Some(FromConnected(a, connected[a], now))
    else
      match FindRecent(recent, a)
      case Some(r) => Some(FromRecent(r, now))
      case None => None
  }

  /** `n` seconds have passed since `earlier`; none if that is still to come. */
  predicate Elapsed(now: nat, earlier: nat, n: nat)
  {
    if earlier <= now then earlier + n == now else n == 0
  }

  /** What a description tells: of a connected agent its user and how long it has been connected and idle;
      of another, the user it had and how long it has been gone. */
  predicate Tells(d: Description, connected: map<AgentId, Entry>, recent: seq<Recent>, now: nat)
  {
    if d.agent in connected then
      var e := connected[d.agent];
      && d.connected && d.user == e.user && d.uptime.Some? && d.idle.Some?
      && Elapsed(now, e.connectedAt, d.uptime.value) && Elapsed(now, e.lastActivity, d.idle.value)
    else
      && !d.connected && d.uptime.None? && d.idle.Some?
      && exists r | r in recent ::
           r.agent == d.agent && d.user == r.user && Elapsed(now, r.disconnectedAt, d.idle.value)
  }

  lemma {:induction false} DescriptionTells(connected: map<AgentId, Entry>, recent: seq<Recent>, a: AgentId, now: nat)
    ensures var d := Describe(connected, recent, a, now); d.Some? ==> d.value.agent == a && Tells(d.value, connected, recent, now)
  {
    FindRecentMeans(recent, a);
  }

  /** `order` is a walk over the table's keys. */
  ghost predicate Walk(order: seq<AgentId>, connected: map<AgentId, Entry>)
  {
    NoDup(order) && forall a :: a in order <==> a in connected
  }

  function OnlineOf(order: seq<AgentId>, connected: map<AgentId, Entry>, now: nat): (ds: seq<Description>)
    requires forall a | a in order :: a in connected
    ensures |ds| == |order|
    ensures forall i | 0 <= i < |ds| :: ds[i] == FromConnected(order[i], connected[order[i]], now)
  {
    seq(|order|, i requires 0 <= i < |order| => FromConnected(order[i], connected[order[i]], now))
  }

  function OfflineOf(recent: seq<Recent>, connected: map<AgentId, Entry>, now: nat): (ds: seq<Description>)
  {
    if recent == [] then []
    else (if recent[0].agent in connected then [] else [FromRecent(recent[0], now)]) + OfflineOf(recent[1..], connected, now)
  }

  /** A listing: it walks the table as it is at first and the log as it is afterwards. */
  function ListOf(order: seq<AgentId>, first: map<AgentId, Entry>, after: map<AgentId, Entry>, recent: seq<Recent>, now: nat): seq<Description>
    requires forall a | a in order :: a in first
  {
    OnlineOf(order, first, now) + OfflineOf(recent, after, now)
  }

  predicate NamedOnce(ds: seq<Description>)
  {
    forall i, j | 0 <= i < j < |ds| :: ds[i].agent != ds[j].agent
  }

  predicate Logged(recent: seq<Recent>, a: AgentId)
  {
    exists r | r in recent :: r.agent == a
  }

  lemma {:induction false} OfflineMeans(recent: seq<Recent>, connected: map<AgentId, Entry>, now: nat)
    ensures forall d :: d in OfflineOf(recent, connected, now)
                        <==> exists r | r in recent :: r.agent !in connected && d == FromRecent(r, now)
    ensures OnePerAgent(recent) ==> NamedOnce(OfflineOf(recent, connected, now))
  {
    if recent != [] {
      OfflineMeans(recent[1..], connected, now);
      var head := if recent[0].agent in connected then [] else [FromRecent(recent[0], now)];
      var tail := OfflineOf(recent[1..], connected, now);
      assert recent == [recent[0]] + recent[1..];
      if OnePerAgent(recent) {
        OnePerAgentTail(recent);
        forall i | 0 <= i < |tail|
          ensures tail[i].agent != recent[0].agent
        {
          assert tail[i] in tail;
          var r :| r in recent[1..] && r.agent !in connected && tail[i] == FromRecent(r, now);
        }
      }
    }
  }

  lemma {:induction false} OnePerAgentTail(recent: seq<Recent>)
    requires recent != [] && OnePerAgent(recent)
    ensures OnePerAgent(recent[1..]) && forall r | r in recent[1..] :: r.agent != recent[0].agent
  {
  }

  lemma {:induction false} FindRecentMeans(recent: seq<Recent>, a: AgentId)
    ensures FindRecent(recent, a).None? <==> !Logged(recent, a)
    ensures OnePerAgent(recent) ==> forall r | r in recent && r.agent == a :: FindRecent(recent, a) == Some(r)
    ensures FindRecent(recent, a).Some? ==> FindRecent(recent, a).value in recent && FindRecent(recent, a).value.agent == a
  {
    if recent != [] {
      FindRecentMeans(recent[1..], a);
      assert recent == [recent[0]] + recent[1..];
      if recent[0].agent == a {
        assert Logged(recent, a) by { assert recent[0] in recent; }
      }
      if OnePerAgent(recent) {
        OnePerAgentTail(recent);
      }
    }
  }

  /** The walk of the table and the look at the log are two reads: a listing names every agent at
      most once, precisely when no agent walked as connected had left the table for the log by the
      second read. */
  lemma {:induction false} NamedOnceIff(order: seq<AgentId>, first: map<AgentId, Entry>, after: map<AgentId, Entry>, recent: seq<Recent>, now: nat)
    requires Walk(order, first) && OnePerAgent(recent)
    ensures NamedOnce(ListOf(order, first, after, recent, now))
            <==> !exists a | a in first :: a !in after && Logged(recent, a)
  {
    if a :| a in first && a !in after && Logged(recent, a) {
      NamedTwice(order, first, after, recent, now, a);
    } else {
      NamesApart(order, first, after, recent, now);
    }
  }

  lemma {:induction false} NamedTwice(order: seq<AgentId>, first: map<AgentId, Entry>, after: map<AgentId, Entry>, recent: seq<Recent>, now: nat, a: AgentId)
    requires Walk(order, first) && a in first && a !in after && Logged(recent, a)
    ensures !NamedOnce(ListOf(order, first, after, recent, now))
  {
    var online, offline := OnlineOf(order, first, now), OfflineOf(recent, after, now);
    var ds := online + offline;
    OfflineMeans(recent, after, now);
    assert a in order;
    var i :| 0 <= i < |order| && order[i] == a;
    var r :| r in recent && r.agent == a;
    assert FromRecent(r, now) in offline;
    var j :| 0 <= j < |offline| && offline[j] == FromRecent(r, now);
    assert ds[i].agent == ds[|online| + j].agent;
  }

  lemma {:induction false} NamesApart(order: seq<AgentId>, first: map<AgentId, Entry>, after: map<AgentId, Entry>, recent: seq<Recent>, now: nat)
    requires Walk(order, first) && OnePerAgent(recent) && forall a | a in first :: a in after || !Logged(recent, a)
    ensures NamedOnce(ListOf(order, first, after, recent, now))
  {
    var online, offline := OnlineOf(order, first, now), OfflineOf(recent, after, now);
    OfflineMeans(recent, after, now);
    forall i, j | 0 <= i < |online| && 0 <= j < |offline|
      ensures online[i].agent != offline[j].agent
    {
      assert order[i] in order && offline[j] in offline;
      var r :| r in recent && r.agent !in after && offline[j] == FromRecent(r, now);
      assert Logged(recent, r.agent);
    }
    JoinApart(online, offline);
  }

  lemma {:induction false} JoinApart(x: seq<Description>, y: seq<Description>)
    requires NamedOnce(x) && NamedOnce(y)
    requires forall i, j | 0 <= i < |x| && 0 <= j < |y| :: x[i].agent != y[j].agent
    ensures NamedOnce(x + y)
  {
    var ds := x + y;
    forall i, j | 0 <= i < j < |ds|
      ensures ds[i].agent != ds[j].agent
    {
      assert i < |x| ==> ds[i] == x[i];
      assert i >= |x| ==> ds[i] == y[i - |x|];
      assert j < |x| ==> ds[j] == x[j];
      assert j >= |x| ==> ds[j] == y[j - |x|];
    }
  }

  /** Names every agent at most once, connected ones first, and says of each what a description of
      it says. */
  ghost predicate Faithful(ds: seq<Description>, connected: map<AgentId, Entry>, recent: seq<Recent>, now: nat)
  {
    && NamedOnce(ds)
    && (forall i | 0 <= i < |ds| :: ds[i].connected == (i < |connected.Keys|) && ds[i].connected == (ds[i].agent in connected))
    && (forall d :: d in ds <==> Describe(connected, recent, d.agent, now) == Some(d))
    && (forall d | d in ds :: Tells(d, connected, recent, now))
  }

  /** In one snapshot, a listing names every agent at most once, connected ones first, and says of
      each what a description of it says. */
  lemma {:induction false} SnapshotListing(order: seq<AgentId>, connected: map<AgentId, Entry>, recent: seq<Recent>, now: nat)
    requires Walk(order, connected) && OnePerAgent(recent)
    ensures Faithful(ListOf(order, connected, connected, recent, now), connected, recent, now)
  {
    NamedOnceIff(order, connected, connected, recent, now);
    OfflineMeans(recent, connected, now);
    WalkLength(order, connected.Keys);
    var online, offline := OnlineOf(order, connected, now), OfflineOf(recent, connected, now);
    var ds := online + offline;
    forall i | 0 <= i < |ds|
      ensures ds[i].connected == (i < |order|) == (ds[i].agent in connected)
    {
      if i < |order| {
        assert order[i] in order;
      } else {
        assert offline[i - |order|] in offline;
      }
    }
    forall d
      ensures d in ds <==> Describe(connected, recent, d.agent, now) == Some(d)
    {
      DescribedIffListed(order, connected, recent, now, d);
    }
    forall d | d in ds
      ensures Tells(d, connected, recent, now)
    {
      DescriptionTells(connected, recent, d.agent, now);
    }
  }

  lemma {:induction false} DescribedIffListed(order: seq<AgentId>, connected: map<AgentId, Entry>, recent: seq<Recent>, now: nat, d: Description)
    requires Walk(order, connected) && OnePerAgent(recent)
    ensures d in OnlineOf(order, connected, now) || d in OfflineOf(recent, connected, now)
            <==> Describe(connected, recent, d.agent, now) == Some(d)
  {
    OfflineMeans(recent, connected, now);
    FindRecentMeans(recent, d.agent);
    var online := OnlineOf(order, connected, now);
    if d.agent in connected {
      assert d.agent in order;
      var i :| 0 <= i < |order| && order[i] == d.agent;
      assert online[i] == FromConnected(d.agent, connected[d.agent], now) && online[i] in online;
    } else {
      assert forall i | 0 <= i < |online| :: order[i] in order && online[i].agent in connected;
    }
  }

  lemma {:induction false} WalkLength(order: seq<AgentId>, keys: set<AgentId>)
    requires NoDup(order) && forall a :: a in order <==> a in keys
    ensures |order| == |keys|
  {
    if order == [] {
      assert forall k :: k in keys ==> k in order;
      assert keys == {};
    } else {
      var a := order[0];
      assert order == [a] + order[1..];
      assert a in keys;
      WalkLength(order[1..], keys - {a});
    }
  }

  // ---- Interleaved registrations ----

  /** The second half of an operation whose first half has happened. */
  datatype Task = Purging(agent: AgentId) | Recording(entry: Recent)

  datatype State = State(
    connected: map<AgentId, Entry>,
    recent: seq<Recent>,
    tasks: map<TaskId, Task>,
    log: seq<LogOp>)

  datatype Event =
    | Insert(task: TaskId, agent: AgentId, entry: Entry)
    | Purge(task: TaskId)
    | Remove(task: TaskId, agent: AgentId, at: nat)
    | Record(task: TaskId)

  const Init := State(map[], [], map[], [])

  predicate Enabled(s: State, e: Event)
  {
    match e
    case Insert(t, _, _) => t !in s.tasks
    case Purge(t) => t in s.tasks && s.tasks[t].Purging?
    case Remove(t, _, _) => t !in s.tasks
    case Record(t) => t in s.tasks && s.tasks[t].Recording?
  }

  function Apply(s: State, e: Event): State
    requires Enabled(s, e)
  {
    match e
    case Insert(t, a, entry) => s.(connected := s.connected[a := entry], tasks := s.tasks[t := Purging(a)])
    case Purge(t) => Logging(s, t, Forget(s.tasks[t].agent))
    case Remove(t, a, at) =>
      if a !in s.connected then s
      else s.(connected := s.connected - {a}, tasks := s.tasks[t := Recording(Recent(a, s.connected[a].user, at))])
    case Record(t) => Logging(s, t, Put(s.tasks[t].entry))
  }

  function Logging(s: State, t: TaskId, op: LogOp): State
  {
    s.(recent := KeepBounded(s.recent, op), tasks := s.tasks - {t}, log := s.log + [op])
  }

  predicate Valid(s: State, es: seq<Event>)
    decreases |es|
  {
    es == [] || (Enabled(s, es[0]) && Valid(Apply(s, es[0]), es[1..]))
  }

  function Run(s: State, es: seq<Event>): State
    requires Valid(s, es)
    decreases |es|
  {
    if es == [] then s else Run(Apply(s, es[0]), es[1..])
  }

  lemma {:induction false} RunTracksLog(s: State, es: seq<Event>)
    requires Valid(s, es) && s.recent == Bounded(s.log)
    ensures Run(s, es).recent == Bounded(Run(s, es).log)
    decreases |es|
  {
    if es != [] {
      var s' := Apply(s, es[0]);
      if es[0].Purge? || es[0].Record? {
        assert s'.log[..|s'.log| - 1] == s.log;
      }
      RunTracksLog(s', es[1..]);
    }
  }

  /** Every snapshot of every interleaving of registrations and unregistrations has a well-formed
      log and a listing that names agents once, connected first, in agreement with descriptions. */
  lemma {:induction false} EverySnapshotIsConsistent(es: seq<Event>, order: seq<AgentId>, now: nat)
    requires Valid(Init, es) && Walk(order, Run(Init, es).connected)
    ensures var s := Run(Init, es);
      && IsSuffix(s.recent, Unbounded(s.log)) && OnePerAgent(s.recent) && |s.recent| <= RECENT_CAPACITY
      && Faithful(ListOf(order, s.connected, s.connected, s.recent, now), s.connected, s.recent, now)
  {
    var s := Run(Init, es);
    RunTracksLog(Init, es);
    RecentIsSuffix(s.log);
    SnapshotListing(order, s.connected, s.recent, now);
  }

  // ---- Who is visible ----

  predicate Visible(s: State, a: AgentId)
  {
    a in s.connected || Logged(s.recent, a)
  }

  /** The three ways an agent can drop out of both structures: between the halves of its own
      unregistration, by a purge that comes after its removal, and by eviction. */
  predicate Hides(s: State, e: Event, a: AgentId)
    requires Enabled(s, e)
  {
    match e
    case Insert(_, _, _) => false
    case Remove(_, b, _) => b == a && a in s.connected && !Logged(s.recent, a)
    case Purge(t) => s.tasks[t].agent == a && a !in s.connected
    case Record(t) =>
      var rest := Without(s.recent, s.tasks[t].entry.agent);
      a !in s.connected && |rest| == 64 && rest[0].agent == a
  }

  lemma {:induction false} LoggedWithout(recent: seq<Recent>, b: AgentId, a: AgentId)
    ensures Logged(Without(recent, b), a) <==> a != b && Logged(recent, a)
  {
    if a != b && Logged(recent, a) {
      var r :| r in recent && r.agent == a;
      assert r in Without(recent, b);
    }
  }

  lemma {:induction false} LoggedAfterPut(recent: seq<Recent>, r: Recent, a: AgentId)
    requires OnePerAgent(recent)
    ensures var rest := Without(recent, r.agent);
      Logged(KeepBounded(recent, Put(r)), a) <==>
        a == r.agent || (Logged(recent, a) && !(|rest| == RECENT_CAPACITY && rest[0].agent == a))
  {
    var rest := Without(recent, r.agent);
    WithoutKeepsOnePerAgent(recent, r.agent);
    LoggedWithout(recent, r.agent, a);
    var kept := KeepBounded(recent, Put(r));
    assert kept[|kept| - 1] == r;
    if |rest| == RECENT_CAPACITY {
      OnePerAgentTail(rest);
      assert rest == [rest[0]] + rest[1..];
      if Logged(rest, a) && rest[0].agent != a {
        var x :| x in rest && x.agent == a;
        assert x in kept;
      }
    } else if Logged(rest, a) {
      var x :| x in rest && x.agent == a;
      assert x in kept;
    }
  }

  /** A visible agent stays visible across a step, precisely unless the step is one of those three. */
  lemma {:induction false} StaysVisibleIff(s: State, e: Event, a: AgentId)
    requires Enabled(s, e) && OnePerAgent(s.recent) && Visible(s, a)
    ensures Visible(Apply(s, e), a) <==> !Hides(s, e, a)
  {
    match e
    case Insert(_, _, _) =>
    case Remove(_, _, _) =>
    case Purge(t) => LoggedWithout(s.recent, s.tasks[t].agent, a);
    case Record(t) => LoggedAfterPut(s.recent, s.tasks[t].entry, a);
  }

  /** From the moment its registration starts, an agent is visible for as long as no unregistration
      of it begins, whatever else interleaves. */
  lemma {:induction false} RegisteredStaysVisible(s: State, es: seq<Event>, a: AgentId)
    requires Valid(s, es) && a in s.connected
    requires forall e | e in es :: !(e.Remove? && e.agent == a)
    ensures a in Run(s, es).connected && Visible(Run(s, es), a)
    decreases |es|
  {
    if es != [] {
      assert es[0] in es;
      RegisteredStaysVisible(Apply(s, es[0]), es[1..], a);
    }
  }

  lemma {:induction false} RunCons(s: State, e: Event, es: seq<Event>)
    requires Enabled(s, e) && Valid(Apply(s, e), es)
    ensures Valid(s, [e] + es) && Run(s, [e] + es) == Run(Apply(s, e), es)
  {
    assert ([e] + es)[1..] == es;
  }

  /** A registration whose purge is late erases the record of a disconnect that came after it. */
  lemma {:induction false} LatePurgeForgetsDisconnect(a: AgentId, entry: Entry)
    ensures var es := [Insert(1, a, entry)] + ([Remove(2, a, 0)] + ([Record(2)] + ([Purge(1)] + [])));
      && Valid(Init, es) && Run(Init, es).tasks == map[]
      && Run(Init, es).log == [Put(Recent(a, entry.user, 0)), Forget(a)] && !Visible(Run(Init, es), a)
  {
    var s1 := Apply(Init, Insert(1, a, entry));
    var s2 := Apply(s1, Remove(2, a, 0));
    var s3 := Apply(s2, Record(2));
    var s4 := Apply(s3, Purge(1));
    assert s2.connected == map[] && s2.recent == [] && s3.recent == [Recent(a, entry.user, 0)];
    assert s4.recent == [] && s4.tasks == map[];
    RunCons(s3, Purge(1), []);
    RunCons(s2, Record(2), [Purge(1)] + []);
    RunCons(s1, Remove(2, a, 0), [Record(2)] + ([Purge(1)] + []));
    RunCons(Init, Insert(1, a, entry), [Remove(2, a, 0)] + ([Record(2)] + ([Purge(1)] + [])));
  }

  /** A record that is late leaves a connected agent in the log too, which is why a listing skips
      logged agents that are connected. */
  lemma {:induction false} LateRecordLeavesStaleEntry(s: State, a: AgentId, entry: Entry, gone: Recent)
    requires s.tasks == map[2 := Recording(gone)] && gone.agent == a && OnePerAgent(s.recent)
    ensures var es := [Insert(3, a, entry)] + ([Purge(3)] + ([Record(2)] + []));
      && Valid(s, es) && Run(s, es).tasks == map[]
      && a in Run(s, es).connected && Logged(Run(s, es).recent, a)
  {
    var s1 := Apply(s, Insert(3, a, entry));
    var s2 := Apply(s1, Purge(3));
    assert s2.tasks == map[2 := Recording(gone)];
    WithoutKeepsOnePerAgent(s1.recent, a);
    LoggedAfterPut(s2.recent, gone, a);
    RunCons(s2, Record(2), []);
    RunCons(s1, Purge(3), [Record(2)] + []);
    RunCons(s, Insert(3, a, entry), [Purge(3)] + ([Record(2)] + []));
  }

  // ---- Racing reads ----

  predicate Named(ds: seq<Description>, a: AgentId)
  {
    exists d | d in ds :: d.agent == a
  }

  /** A listing walks the table first and looks at the log, checking the table again, later. It misses
      an agent precisely when the walk did not find it and then either the log did not or the second
      look at the table did. */
  lemma {:induction false} ListMissesIff(order: seq<AgentId>, first: map<AgentId, Entry>, after: map<AgentId, Entry>, recent: seq<Recent>, now: nat, a: AgentId)
    requires Walk(order, first)
    ensures !Named(ListOf(order, first, after, recent, now), a) <==> a !in first && (a in after || !Logged(recent, a))
  {
    var online, offline := OnlineOf(order, first, now), OfflineOf(recent, after, now);
    var ds := online + offline;
    OfflineMeans(recent, after, now);
    assert forall i | 0 <= i < |online| :: order[i] in order && online[i].agent in first;
    if a in first {
      assert a in order;
      var i :| 0 <= i < |order| && order[i] == a;
      assert ds[i] in ds && ds[i].agent == a;
    } else if a !in after && Logged(recent, a) {
      var r :| r in recent && r.agent == a;
      assert FromRecent(r, now) in offline && FromRecent(r, now) in ds;
    }
  }

  /** A description reads the table, and the log only later, without a second look at the table. */
  lemma {:induction false} DescribeMissesIff(first: map<AgentId, Entry>, recent: seq<Recent>, now: nat, a: AgentId)
    ensures Describe(first, recent, a, now).None? <==> a !in first && !Logged(recent, a)
  {
    FindRecentMeans(recent, a);
  }

  predicate VisibleThroughout(s: State, es: seq<Event>, a: AgentId)
    requires Valid(s, es)
    decreases |es|
  {
    Visible(s, a) && (es == [] || VisibleThroughout(Apply(s, es[0]), es[1..], a))
  }

  lemma {:induction false} VisibleAtEnd(s: State, es: seq<Event>, a: AgentId)
    requires Valid(s, es) && VisibleThroughout(s, es, a)
    ensures Visible(s, a) && Visible(Run(s, es), a)
    decreases |es|
  {
    if es != [] {
      VisibleAtEnd(Apply(s, es[0]), es[1..], a);
    }
  }

  predicate Inserts(e: Event, a: AgentId)
  {
    e.Insert? && e.agent == a
  }

  predicate Removes(e: Event, a: AgentId)
  {
    e.Remove? && e.agent == a
  }

  /** A registration of `a` begins among these steps, and no unregistration of it follows. */
  predicate RegistrationStands(es: seq<Event>, a: AgentId)
  {
    exists k | 0 <= k < |es| :: Inserts(es[k], a) && forall j | k < j < |es| :: !Removes(es[j], a)
  }

  /** Whether an agent is connected after some steps is settled by the last one about it. */
  lemma {:induction false} ConnectedAtEndIff(s: State, es: seq<Event>, a: AgentId)
    requires Valid(s, es)
    ensures a in Run(s, es).connected <==>
      RegistrationStands(es, a) || (a in s.connected && forall j | 0 <= j < |es| :: !Removes(es[j], a))
    decreases |es|
  {
    if es != [] {
      var s1, rest := Apply(s, es[0]), es[1..];
      ConnectedAtEndIff(s1, rest, a);
      StandsTail(es, a);
      assert forall j | 0 <= j < |rest| :: rest[j] == es[j + 1];
      assert (forall j | 0 <= j < |es| :: !Removes(es[j], a)) <==> !Removes(es[0], a) && forall j | 0 <= j < |rest| :: !Removes(rest[j], a) by {
        assert forall j | 0 < j < |es| :: es[j] == rest[j - 1];
      }
    }
  }

  lemma {:induction false} StandsTail(es: seq<Event>, a: AgentId)
    requires es != []
    ensures RegistrationStands(es, a) <==>
      RegistrationStands(es[1..], a) || (Inserts(es[0], a) && forall j | 0 <= j < |es[1..]| :: !Removes(es[1..][j], a))
  {
    var rest := es[1..];
    assert forall j | 0 <= j < |rest| :: rest[j] == es[j + 1];
    assert forall j | 0 < j < |es| :: es[j] == rest[j - 1];
    if RegistrationStands(rest, a) {
      var k :| 0 <= k < |rest| && Inserts(rest[k], a) && forall j | k < j < |rest| :: !Removes(rest[j], a);
      assert Inserts(es[k + 1], a);
    }
    if RegistrationStands(es, a) {
      var k :| 0 <= k < |es| && Inserts(es[k], a) && forall j | k < j < |es| :: !Removes(es[j], a);
      if k > 0 {
        assert Inserts(rest[k - 1], a);
      }
    }
  }

  /** A listing that races with any steps misses an agent visible at every moment, precisely when the
      agent was not connected at the walk and a registration of it begun meanwhile stands. */
  lemma {:induction false} RacingListMissesIff(s: State, es: seq<Event>, order: seq<AgentId>, now: nat, a: AgentId)
    requires Valid(s, es) && Walk(order, s.connected) && VisibleThroughout(s, es, a)
    ensures var s' := Run(s, es);
      !Named(ListOf(order, s.connected, s'.connected, s'.recent, now), a) <==> a !in s.connected && RegistrationStands(es, a)
  {
    var s' := Run(s, es);
    VisibleAtEnd(s, es, a);
    ConnectedAtEndIff(s, es, a);
    ListMissesIff(order, s.connected, s'.connected, s'.recent, now, a);
  }

  /** A step that takes `a` off the log: a purge of it, or the record of another agent that evicts it. */
  predicate DropsFromLog(s: State, e: Event, a: AgentId)
    requires Enabled(s, e)
  {
    match e
    case Purge(t) => s.tasks[t].agent == a
    case Record(t) =>
      var rest := Without(s.recent, s.tasks[t].entry.agent);
      s.tasks[t].entry.agent != a && |rest| == 64 && rest[0].agent == a
    case _ => false
  }

  predicate RecordsInLog(s: State, e: Event, a: AgentId)
    requires Enabled(s, e)
  {
    e.Record? && s.tasks[e.task].entry.agent == a
  }

  predicate NeverRecorded(s: State, es: seq<Event>, a: AgentId)
    requires Valid(s, es)
    decreases |es|
  {
    es == [] || (!RecordsInLog(s, es[0], a) && NeverRecorded(Apply(s, es[0]), es[1..], a))
  }

  /** One of these steps takes `a` off the log, and no later one records it again. */
  predicate DropStands(s: State, es: seq<Event>, a: AgentId)
    requires Valid(s, es)
    decreases |es|
  {
    && es != []
    && var s' := Apply(s, es[0]);
    DropStands(s', es[1..], a) || (DropsFromLog(s, es[0], a) && NeverRecorded(s', es[1..], a))
  }

  lemma {:induction false} LogStep(s: State, e: Event, a: AgentId)
    requires Enabled(s, e) && OnePerAgent(s.recent)
    ensures var s' := Apply(s, e);
      && OnePerAgent(s'.recent)
      && (Logged(s'.recent, a) <==> RecordsInLog(s, e, a) || (Logged(s.recent, a) && !DropsFromLog(s, e, a)))
  {
    match e
    case Insert(_, _, _) =>
    case Remove(_, _, _) =>
    case Purge(t) =>
      LoggedWithout(s.recent, s.tasks[t].agent, a);
      WithoutKeepsOnePerAgent(s.recent, s.tasks[t].agent);
    case Record(t) =>
      LoggedAfterPut(s.recent, s.tasks[t].entry, a);
      BoundedPutKeepsOnePerAgent(s.recent, s.tasks[t].entry);
  }

  lemma {:induction false} BoundedPutKeepsOnePerAgent(recent: seq<Recent>, r: Recent)
    requires OnePerAgent(recent)
    ensures OnePerAgent(KeepBounded(recent, Put(r)))
  {
    var rest := Without(recent, r.agent);
    WithoutKeepsOnePerAgent(recent, r.agent);
    PutKeepsOnePerAgent(rest, r);
    if |rest| == RECENT_CAPACITY {
      OnePerAgentTail(rest);
      PutKeepsOnePerAgent(rest[1..], r);
    }
  }

  /** Whether an agent is logged after some steps is settled by the last of them about its entry. */
  lemma {:induction false} LoggedAtEndIff(s: State, es: seq<Event>, a: AgentId)
    requires Valid(s, es) && OnePerAgent(s.recent)
    ensures !Logged(Run(s, es).recent, a) <==> DropStands(s, es, a) || (!Logged(s.recent, a) && NeverRecorded(s, es, a))
    decreases |es|
  {
    if es != [] {
      LogStep(s, es[0], a);
      LoggedAtEndIff(Apply(s, es[0]), es[1..], a);
    }
  }

  /** A description that races likewise misses the agent, precisely when, besides, one of the steps took
      it off the log, by a purge or by evicting it, and none recorded it again. */
  lemma {:induction false} RacingDescribeMissesIff(s: State, es: seq<Event>, now: nat, a: AgentId)
    requires Valid(s, es) && VisibleThroughout(s, es, a) && OnePerAgent(s.recent)
    ensures Describe(s.connected, Run(s, es).recent, a, now).None? <==>
      a !in s.connected && RegistrationStands(es, a) && DropStands(s, es, a)
  {
    VisibleAtEnd(s, es, a);
    ConnectedAtEndIff(s, es, a);
    LoggedAtEndIff(s, es, a);
    DescribeMissesIff(s.connected, Run(s, es).recent, now, a);
  }

  /** A listing that races names an agent twice, precisely when the walk found it connected and by the
      second look it had been unregistered and recorded. */
  lemma {:induction false} RacingListRepeatsIff(s: State, es: seq<Event>, order: seq<AgentId>, now: nat)
    requires Valid(s, es) && Walk(order, s.connected) && OnePerAgent(Run(s, es).recent)
    ensures var s' := Run(s, es);
      !NamedOnce(ListOf(order, s.connected, s'.connected, s'.recent, now)) <==>
        exists a :: a in s.connected && Logged(s'.recent, a) && UnregistrationStands(es, a)
  {
    var s' := Run(s, es);
    NamedOnceIff(order, s.connected, s'.connected, s'.recent, now);
    forall a | a in s.connected
      ensures a !in s'.connected <==> UnregistrationStands(es, a)
    {
      ConnectedAtEndIff(s, es, a);
      StandsOrNot(es, a);
    }
  }

  /** An unregistration of `a` begins among these steps, and no registration of it follows. */
  predicate UnregistrationStands(es: seq<Event>, a: AgentId)
  {
    exists k | 0 <= k < |es| :: Removes(es[k], a) && forall j | k < j < |es| :: !Inserts(es[j], a)
  }

  lemma {:induction false} StandsOrNot(es: seq<Event>, a: AgentId)
    ensures RegistrationStands(es, a) || (forall j | 0 <= j < |es| :: !Removes(es[j], a)) <==> !UnregistrationStands(es, a)
    decreases |es|
  {
    if es != [] {
      var n := |es| - 1;
      var front := es[..n];
      StandsOrNot(front, a);
      assert forall j | 0 <= j < n :: front[j] == es[j];
      if Inserts(es[n], a) {
        assert RegistrationStands(es, a);
      } else if Removes(es[n], a) {
        assert UnregistrationStands(es, a);
      } else {
        StandsFront(es, a);
      }
    }
  }

  lemma {:induction false} StandsFront(es: seq<Event>, a: AgentId)
    requires es != [] && !Inserts(es[|es| - 1], a) && !Removes(es[|es| - 1], a)
    ensures RegistrationStands(es, a) <==> RegistrationStands(es[..|es| - 1], a)
    ensures UnregistrationStands(es, a) <==> UnregistrationStands(es[..|es| - 1], a)
  {
    RegistrationFront(es, a);
    UnregistrationFront(es, a);
  }

  lemma {:induction false} RegistrationFront(es: seq<Event>, a: AgentId)
    requires es != [] && !Inserts(es[|es| - 1], a) && !Removes(es[|es| - 1], a)
    ensures RegistrationStands(es, a) <==> RegistrationStands(es[..|es| - 1], a)
  {
    var front := es[..|es| - 1];
    assert forall j | 0 <= j < |front| :: front[j] == es[j];
    if RegistrationStands(es, a) {
      var k :| 0 <= k < |es| && Inserts(es[k], a) && forall j | k < j < |es| :: !Removes(es[j], a);
      assert Inserts(front[k], a);
    }
    if RegistrationStands(front, a) {
      var k :| 0 <= k < |front| && Inserts(front[k], a) && forall j | k < j < |front| :: !Removes(front[j], a);
      assert Inserts(es[k], a);
    }
  }

  lemma {:induction false} UnregistrationFront(es: seq<Event>, a: AgentId)
    requires es != [] && !Inserts(es[|es| - 1], a) && !Removes(es[|es| - 1], a)
    ensures UnregistrationStands(es, a) <==> UnregistrationStands(es[..|es| - 1], a)
  {
    var front := es[..|es| - 1];
    assert forall j | 0 <= j < |front| :: front[j] == es[j];
    if UnregistrationStands(es, a) {
      var k :| 0 <= k < |es| && Removes(es[k], a) && forall j | k < j < |es| :: !Inserts(es[j], a);
      assert Removes(front[k], a);
    }
    if UnregistrationStands(front, a) {
      var k :| 0 <= k < |front| && Removes(front[k], a) && forall j | k < j < |front| :: !Inserts(front[j], a);
      assert Removes(es[k], a);
    }
  }

  /** From the initial state: an agent that has come and gone, and that comes back between the two
      reads, is missed by the listing although it is visible throughout; and once its log entry is
      purged too, by the description. */
  lemma {:induction false} ReturningAgentIsMissed(a: AgentId, entry: Entry, now: nat)
    ensures var es := [Insert(1, a, entry)] + ([Purge(1)] + ([Remove(2, a, 0)] + ([Record(2)] + [])));
      var back := [Insert(3, a, entry)] + ([Purge(3)] + []);
      && Valid(Init, es)
      && var s := Run(Init, es);
      && Valid(s, back) && VisibleThroughout(s, back, a) && Walk([], s.connected)
      && var s' := Run(s, back);
      && ListOf([], s.connected, s'.connected, s'.recent, now) == []
      && Describe(s.connected, s'.recent, a, now) == None
  {
    var s := ComeAndGone(a, entry);
    var s1 := Apply(s, Insert(3, a, entry));
    var s2 := Apply(s1, Purge(3));
    assert s2.recent == [];
    RunCons(s1, Purge(3), []);
    RunCons(s, Insert(3, a, entry), [Purge(3)] + []);
    var back := [Insert(3, a, entry)] + ([Purge(3)] + []);
    assert back[1..] == [Purge(3)] + [] && back[1..][1..] == [];
    assert Logged(s.recent, a) by { assert s.recent[0] in s.recent; }
    assert VisibleThroughout(s2, [], a) && VisibleThroughout(s1, [Purge(3)] + [], a);
  }

  lemma {:induction false} ComeAndGone(a: AgentId, entry: Entry) returns (s: State)
    ensures var es := [Insert(1, a, entry)] + ([Purge(1)] + ([Remove(2, a, 0)] + ([Record(2)] + [])));
      Valid(Init, es) && s == Run(Init, es)
    ensures s.connected == map[] && s.recent == [Recent(a, entry.user, 0)] && s.tasks == map[]
  {
    var s1 := Apply(Init, Insert(1, a, entry));
    var s2 := Apply(s1, Purge(1));
    var s3 := Apply(s2, Remove(2, a, 0));
    s := Apply(s3, Record(2));
    assert s2.recent == [] && s2.tasks == map[] && s2.connected == map[a := entry];
    assert s3.connected == map[] && s3.tasks == map[2 := Recording(Recent(a, entry.user, 0))];
    assert s.tasks == map[];
    RunCons(s3, Record(2), []);
    RunCons(s2, Remove(2, a, 0), [Record(2)] + []);
    RunCons(s1, Purge(1), [Remove(2, a, 0)] + ([Record(2)] + []));
    RunCons(Init, Insert(1, a, entry), [Purge(1)] + ([Remove(2, a, 0)] + ([Record(2)] + [])));
  }

  /** From the initial state: an agent unregistered between the two reads is named twice. */
  lemma {:induction false} LeavingAgentIsNamedTwice(a: AgentId, entry: Entry, now: nat)
    ensures var es := [Insert(1, a, entry)] + ([Purge(1)] + []);
      var gone := [Remove(2, a, 0)] + ([Record(2)] + []);
      && Valid(Init, es)
      && var s := Run(Init, es);
      && Valid(s, gone) && Walk([a], s.connected)
      && var s' := Run(s, gone);
      && var ds := ListOf([a], s.connected, s'.connected, s'.recent, now);
      && |ds| == 2 && ds[0].agent == a == ds[1].agent && ds[0].connected && !ds[1].connected
  {
    var s1 := Apply(Init, Insert(1, a, entry));
    var s2 := Apply(s1, Purge(1));
    var s3 := Apply(s2, Remove(2, a, 0));
    var s4 := Apply(s3, Record(2));
    assert s2.recent == [] && s2.connected == map[a := entry] && s2.tasks == map[];
    assert s3.connected == map[] && s4.recent == [Recent(a, entry.user, 0)];
    RunCons(s1, Purge(1), []);
    RunCons(Init, Insert(1, a, entry), [Purge(1)] + []);
    RunCons(s3, Record(2), []);
    RunCons(s2, Remove(2, a, 0), [Record(2)] + []);
    assert s4.recent[1..] == [];
    assert OfflineOf(s4.recent, s4.connected, now) == [FromRecent(s4.recent[0], now)] + OfflineOf([], s4.connected, now);
  }

  /** The list so far, extended by the log entry by entry. */
  function Extended(out: seq<Description>, recent: seq<Recent>, connected: map<AgentId, Entry>, now: nat): seq<Description>
    decreases |recent|
  {
    if recent == [] then out
    else Extended(if recent[0].agent in connected then out else out + [FromRecent(recent[0], now)], recent[1..], connected, now)
  }

  lemma {:induction false} ExtendedMeans(out: seq<Description>, recent: seq<Recent>, connected: map<AgentId, Entry>, now: nat)
    ensures Extended(out, recent, connected, now) == out + OfflineOf(recent, connected, now)
    decreases |recent|
  {
    if recent == [] {
      assert out + [] == out;
    } else if recent[0].agent in connected {
      ExtendedMeans(out, recent[1..], connected, now);
      assert [] + OfflineOf(recent[1..], connected, now) == OfflineOf(recent[1..], connected, now);
    } else {
      ExtendedMeans(out + [FromRecent(recent[0], now)], recent[1..], connected, now);
      Associate(out, [FromRecent(recent[0], now)], OfflineOf(recent[1..], connected, now));
    }
  }

  method ListAll(order: seq<AgentId>, connected: map<AgentId, Entry>, recent: seq<Recent>, now: nat)
    returns (out: seq<Description>)
    requires forall a | a in order :: a in connected
    ensures out == ListOf(order, connected, connected, recent, now)
  {
    out := OnlineOf(order, connected, now);
    ExtendedMeans(out, recent, connected, now);
    out := ExtendByLog(out, connected, recent, now);
  }

  method ExtendByLog(online: seq<Description>, connected: map<AgentId, Entry>, recent: seq<Recent>, now: nat)
    returns (out: seq<Description>)
    ensures out == Extended(online, recent, connected, now)
  {
    out := online;
    assert recent[0..] == recent;
    var i := 0;
    while i < |recent|
      invariant 0 <= i <= |recent|
      invariant Extended(out, recent[i..], connected, now) == Extended(online, recent, connected, now)
    {
      var r := recent[i];
      assert recent[i..][0] == r && recent[i..][1..] == recent[i + 1..];
      if r.agent !in connected {
        out := out + [FromRecent(r, now)];
      }
      i := i + 1;
    }
  }

  lemma {:induction false} LoggedHasLastWord(log: seq<LogOp>, r: Recent)
    requires r in Bounded(log)
    ensures exists i: nat :: LastWord(log, i, r)
  {
    RecentIsSuffix(log);
    assert r in Unbounded(log);
    LoggedIffLastWord(log, r);
  }

  method FindInLog(recent: seq<Recent>, a: AgentId) returns (r: Option<Recent>)
    ensures r == FindRecent(recent, a)
  {
    var i := 0;
    assert recent[0..] == recent;
    while i < |recent|
      invariant 0 <= i <= |recent|
      invariant FindRecent(recent[i..], a) == FindRecent(recent, a)
    {
      assert recent[i..][1..] == recent[i + 1..];
      if recent[i].agent == a {
        return Some(recent[i]);
      }
      i := i + 1;
    }
    return None;
  }

  // ---- The registry object ----

  class InMemoryAgentRegistry {
    var connected: map<AgentId, Entry>
    var recent: seq<Recent>
    ghost var log: seq<LogOp>

    ghost predicate Valid()
      reads this
    {
      recent == Bounded(log)
    }

    constructor ()
      ensures Valid() && connected == map[] && recent == []
    {
      connected, recent, log := map[], [], [];
    }

    method PushRecent(r: Recent)
      requires Valid()
      modifies this`recent, this`log
      ensures Valid() && log == old(log) + [Put(r)] && recent == KeepBounded(old(recent), Put(r))
    {
      assert (log + [Put(r)])[..|log|] == log;
      recent := Without(recent, r.agent);
      if |recent| == RECENT_CAPACITY {
        recent := recent[1..];
      }
      recent := recent + [r];
      log := log + [Put(r)];
    }

    method PurgeRecent(a: AgentId)
      requires Valid()
      modifies this`recent, this`log
      ensures Valid() && log == old(log) + [Forget(a)] && recent == Without(old(recent), a)
    {
      assert (log + [Forget(a)])[..|log|] == log;
      recent := Without(recent, a);
      log := log + [Forget(a)];
    }

    /** Undisturbed, a registration leaves the agent in the table only. */
    method Register(a: AgentId, e: Entry) returns (previous: Option<Entry>)
      requires Valid()
      modifies this
      ensures Valid() && log == old(log) + [Forget(a)]
      ensures connected == old(connected)[a := e] && !Logged(recent, a)
      ensures forall b | b != a :: Logged(recent, b) == Logged(old(recent), b)
      ensures previous == if a in old(connected) then Some(old(connected)[a]) else None
    {
      previous := if a in connected then Some(connected[a]) else None;
      connected := connected[a := e];
      PurgeRecent(a);
      forall b
        ensures Logged(recent, b) == (b != a && Logged(old(recent), b))
      {
        LoggedWithout(old(recent), a, b);
      }
    }

    /** Undisturbed, an unregistration moves the agent to the end of the log; unknown agents change
        nothing. */
    method Unregister(a: AgentId, at: nat)
      requires Valid()
      modifies this
      ensures Valid() && connected == old(connected) - {a}
      ensures a in old(connected) ==>
        && log == old(log) + [Put(Recent(a, old(connected)[a].user, at))]
        && recent != [] && recent[|recent| - 1] == Recent(a, old(connected)[a].user, at)
      ensures a !in old(connected) ==> recent == old(recent) && log == old(log)
    {
      if a in connected {
        var entry := connected[a];
        connected := connected - {a};
        PushRecent(Recent(a, entry.user, at));
      }
    }

    method List(order: seq<AgentId>, now: nat) returns (out: seq<Description>)
      requires Valid() && Walk(order, connected)
      ensures out == ListOf(order, connected, connected, recent, now)
      ensures Faithful(out, connected, recent, now)
    {
      RecentIsSuffix(log);
      SnapshotListing(order, connected, recent, now);
      out := ListAll(order, connected, recent, now);
    }

    /** The table comes first, then the disconnect last recorded. */
    method DescribeAgent(a: AgentId, now: nat) returns (d: Option<Description>)
      requires Valid()
      ensures d == Describe(connected, recent, a, now)
      ensures d.None? <==> a !in connected && !Logged(recent, a)
      ensures d.Some? ==> d.value.agent == a && Tells(d.value, connected, recent, now)
      ensures d.Some? && !d.value.connected ==>
        exists i: nat, r: Recent :: LastWord(log, i, r) && d.value == FromRecent(r, now) && r.agent == a
    {
      DescriptionTells(connected, recent, a, now);
      if a in connected {
        return Some(FromConnected(a, connected[a], now));
      }
      FindRecentMeans(recent, a);
      var r := FindInLog(recent, a);
      if r.None? {
        return None;
      }
      LoggedHasLastWord(log, r.value);
      return Some(FromRecent(r.value, now));
    }
  }
}
