/**
 * The per-agent inbox stream of the Redis backend, as a step system.
 *
 * One event is one Redis command or Lua script (atomic), one hand-over to the
 * tunnel's in-process channel, or one thing the environment does: time passing,
 * a task being aborted, a tunnel closing. Stream IDs are positions in the stream:
 * entries are appended and never trimmed, so position order is XADD order.
 */
module RedisInbox {
  import opened Prelude

  type ConsumerId = string
  type Frame = string
  type TaskId = nat

  const AUTOCLAIM_COUNT: nat := 10
  const AUTOCLAIM_MIN_IDLE_MS: nat := 300_000
  const MAX_DELIVERIES: nat := 3
  const MAX_RECLAIM_AGE_MS: nat := 14_400_000

  // ---------- State ----------

  /** `frame` is None when the stored field is missing or is not UTF-8. */
  datatype Entry = Entry(stamp: nat, frame: Option<Frame>)

  /** A pending-list record: owner, last delivery time, delivery counter. */
  datatype Pending = Pending(consumer: ConsumerId, since: nat, deliveries: nat)

  datatype DeadLetter = DeadLetter(originalId: nat, frame: Option<Frame>, deliveries: nat)

  datatype Redis = Redis(
    now: nat,
    ownerLive: bool,
    stream: seq<Entry>,
    cursor: nat,
    pending: map<nat, Pending>,
    dlq: seq<DeadLetter>)

  /** `read_id`: "0" replays the consumer's own backlog, ">" asks for new entries. */
  datatype Mode = Backlog | Fresh

  datatype Phase =
    | Polling
    | Holding(id: nat)
    | Forwarded(id: nat)
    | Sweeping(todo: seq<nat>)
    | Judged(id: nat, deliveries: nat, todo: seq<nat>)
    | Copied(id: nat, todo: seq<nat>)

  /** A running consumer task; `open` says whether its tunnel still receives. */
  datatype Task = Task(consumer: ConsumerId, open: bool, mode: Mode, phase: Phase)

  datatype Acceptance = Acceptance(task: TaskId, id: nat, frame: Frame)

  /** A `deliver` call answered Live: the entry it created and the frame it carried. */
  datatype LiveReply = LiveReply(id: nat, frame: Frame)

  /** What has happened so far; no step consults it except to name tasks freshly. */
  datatype History = History(
    live: seq<LiveReply>,
    firstReads: seq<nat>,
    accepted: seq<Acceptance>,
    acked: set<nat>,
    nextTask: TaskId)

  datatype State = State(redis: Redis, tasks: map<TaskId, Task>, past: History)

  predicate Initial(s: State)
  {
    && s.redis.stream == [] && s.redis.cursor == 0 && s.redis.pending == map[] && s.redis.dlq == []
    && s.tasks == map[]
    && s.past == History([], [], [], {}, 0)
  }

  // ---------- Events ----------

  datatype Event =
    | Advance(ms: nat)
    | SetOwner(live: bool)
    | Deliver(frame: Frame)
    | AddUndecodable
    | Spawn(consumer: ConsumerId)
    | CloseChannel(t: TaskId)
    | Abort(t: TaskId)
    | Read(t: TaskId)
    | Skip(t: TaskId)
    | Send(t: TaskId)
    | Ack(t: TaskId)
    | Autoclaim(t: TaskId, ids: seq<nat>)
    | Inspect(t: TaskId)
    | CopyToDlq(t: TaskId)
    | AckDead(t: TaskId)
    | EndSweep(t: TaskId)

  /** The lowest id at or above `from` that is pending for `c`. */
  function LowestOwned(pending: map<nat, Pending>, c: ConsumerId, from: nat, limit: nat): (r: Option<nat>)
    ensures r.Some? ==>
      && from <= r.value < limit && r.value in pending && pending[r.value].consumer == c
      && (forall i | from <= i < r.value :: i in pending ==> pending[i].consumer != c)
    ensures r.None? ==> forall i | from <= i < limit :: i in pending ==> pending[i].consumer != c
    decreases limit - from
  {
    if from >= limit then None
    else if from in pending && pending[from].consumer == c then Some(from)
    else LowestOwned(pending, c, from + 1, limit)
  }

  /** What XAUTOCLAIM may hand over: distinct pending entries idle long enough. */
  predicate Claimable(r: Redis, ids: seq<nat>)
  {
    && |ids| <= AUTOCLAIM_COUNT
    && NoDup(ids)
    && forall id | id in ids :: id in r.pending && r.now >= r.pending[id].since + AUTOCLAIM_MIN_IDLE_MS
  }

  function Claim(r: Redis, c: ConsumerId, ids: seq<nat>): Redis
    requires Claimable(r, ids)
  {
    r.(pending := map id | id in r.pending ::
      if id in ids then Pending(c, r.now, r.pending[id].deliveries + 1) else r.pending[id])
  }

  /** XPENDING for one id; an entry that is no longer pending counts as delivered once. */
  function DeliveryCount(r: Redis, id: nat): nat
  {
    if id in r.pending then r.pending[id].deliveries else 1
  }

  predicate ShouldDeadLetter(r: Redis, id: nat)
    requires id < |r.stream|
  {
    DeliveryCount(r, id) >= MAX_DELIVERIES || r.now > r.stream[id].stamp + MAX_RECLAIM_AGE_MS
  }

  predicate Enabled(s: State, e: Event)
  {
    match e
    case Advance(_) => true
    case SetOwner(_) => true
    case Deliver(_) => true
    case AddUndecodable => true
    case Spawn(_) => true
    case CloseChannel(t) => t in s.tasks
    case Abort(t) => t in s.tasks
    case Read(t) => t in s.tasks && s.tasks[t].phase.Polling?
    case Skip(t) =>
      && t in s.tasks && s.tasks[t].phase.Holding?
      && s.tasks[t].phase.id < |s.redis.stream| && s.redis.stream[s.tasks[t].phase.id].frame.None?
    case Send(t) =>
      && t in s.tasks && s.tasks[t].phase.Holding?
      && s.tasks[t].phase.id < |s.redis.stream| && s.redis.stream[s.tasks[t].phase.id].frame.Some?
    case Ack(t) => t in s.tasks && s.tasks[t].phase.Forwarded?
    case Autoclaim(t, ids) => t in s.tasks && s.tasks[t].phase.Polling? && Claimable(s.redis, ids)
    case Inspect(t) =>
      && t in s.tasks && s.tasks[t].phase.Sweeping? && s.tasks[t].phase.todo != []
      && s.tasks[t].phase.todo[0] < |s.redis.stream|
    case CopyToDlq(t) =>
      t in s.tasks && s.tasks[t].phase.Judged? && s.tasks[t].phase.id < |s.redis.stream|
    case AckDead(t) => t in s.tasks && s.tasks[t].phase.Copied?
    case EndSweep(t) => t in s.tasks && s.tasks[t].phase.Sweeping? && s.tasks[t].phase.todo == []
  }

  function WithPhase(s: State, t: TaskId, p: Phase): State
    requires t in s.tasks
  {
    s.(tasks := s.tasks[t := s.tasks[t].(phase := p)])
  }

  function AppendEntry(r: Redis, frame: Option<Frame>): Redis
  {
    r.(stream := r.stream + [Entry(r.now, frame)])
  }

  /** XACK: removes the id from the group's pending list, whoever owns it. */
  function Xack(s: State, id: nat): State
  {
    s.(redis := s.redis.(pending := s.redis.pending - {id}), past := s.past.(acked := s.past.acked + {id}))
  }

  /** XREADGROUP COUNT 1 in the task's current mode. */
  function ReadStep(s: State, t: TaskId): State
    requires Enabled(s, Read(t))
  {
    var task := s.tasks[t];
    var r := s.redis;
    match task.mode
    case Fresh =>
      if r.cursor < |r.stream| then
        var id := r.cursor;
        WithPhase(
          s.(redis := r.(cursor := id + 1, pending := r.pending[id := Pending(task.consumer, r.now, 1)]),
             past := s.past.(firstReads := s.past.firstReads + [id])),
          t, Holding(id))
      else s
    case Backlog =>
      match LowestOwned(r.pending, task.consumer, 0, r.cursor)
      case Some(id) =>
        WithPhase(
          s.(redis := r.(pending := r.pending[id := Pending(task.consumer, r.now, r.pending[id].deliveries + 1)])),
          t, Holding(id))
      case None => s.(tasks := s.tasks[t := task.(mode := Fresh)])
  }

  function Apply(s: State, e: Event): State
    requires Enabled(s, e)
  {
    match e
    case Advance(ms) => s.(redis := s.redis.(now := s.redis.now + ms))
    case SetOwner(live) => s.(redis := s.redis.(ownerLive := live))
    case Deliver(frame) =>
      if s.redis.ownerLive then
        s.(redis := AppendEntry(s.redis, Some(frame)), past := s.past.(live := s.past.live + [LiveReply(|s.redis.stream|, frame)]))
      else s
    case AddUndecodable => s.(redis := AppendEntry(s.redis, None))
    case Spawn(c) =>
      s.(tasks := s.tasks[s.past.nextTask := Task(c, true, Backlog, Polling)],
         past := s.past.(nextTask := s.past.nextTask + 1))
    case CloseChannel(t) => s.(tasks := s.tasks[t := s.tasks[t].(open := false)])
    case Abort(t) => s.(tasks := s.tasks - {t})
    case Read(t) => ReadStep(s, t)
    case Skip(t) => WithPhase(s, t, Polling)
    case Send(t) =>
      var id := s.tasks[t].phase.id;
      if s.tasks[t].open then
        WithPhase(
          s.(past := s.past.(accepted := s.past.accepted + [Acceptance(t, id, s.redis.stream[id].frame.value)])),
          t, Forwarded(id))
      else s.(tasks := s.tasks - {t})
    case Ack(t) => WithPhase(Xack(s, s.tasks[t].phase.id), t, Polling)
    case Autoclaim(t, ids) => WithPhase(s.(redis := Claim(s.redis, s.tasks[t].consumer, ids)), t, Sweeping(ids))
    case Inspect(t) =>
      var id, rest := s.tasks[t].phase.todo[0], s.tasks[t].phase.todo[1..];
      if ShouldDeadLetter(s.redis, id)
      then WithPhase(s, t, Judged(id, DeliveryCount(s.redis, id), rest))
      else WithPhase(s, t, Sweeping(rest))
    case CopyToDlq(t) =>
      var p := s.tasks[t].phase;
      WithPhase(
        s.(redis := s.redis.(dlq := s.redis.dlq + [DeadLetter(p.id, s.redis.stream[p.id].frame, p.deliveries)])),
        t, Copied(p.id, p.todo))
    case AckDead(t) => WithPhase(Xack(s, s.tasks[t].phase.id), t, Sweeping(s.tasks[t].phase.todo))
    case EndSweep(t) => WithPhase(s, t, Polling)
  }

  // ---------- Runs ----------

  predicate Valid(s: State, es: seq<Event>)
    decreases |es|
  {
    es == [] || (Enabled(s, es[0]) && Valid(Apply(s, es[0]), es[1..]))
  }

  function Final(s: State, es: seq<Event>): State
    requires Valid(s, es)
    decreases |es|
  {
    if es == [] then s else Final(Apply(s, es[0]), es[1..])
  }

  /** At any moment, whatever a task is at: it may be aborted and its tunnel closed, a task may start, time
      may pass, the owner may change, and frames may arrive, also ones nobody can decode. */
  lemma {:induction false} FaultsStrikeAnytime(s: State, t: TaskId, c: ConsumerId, ms: nat, live: bool, frame: Frame)
    ensures t in s.tasks ==> Enabled(s, Abort(t)) && Enabled(s, CloseChannel(t))
    ensures Enabled(s, Spawn(c)) && Enabled(s, Advance(ms)) && Enabled(s, SetOwner(live))
    ensures Enabled(s, Deliver(frame)) && Enabled(s, AddUndecodable)
    ensures t in s.tasks ==>
      Apply(s, CloseChannel(t)) == s.(tasks := s.tasks[t := s.tasks[t].(open := false)])
  {
  }

  /** A task that holds an entry sends it if it decodes and skips it if not. */
  lemma {:induction false} HeldIsSentOrSkipped(s: State, t: TaskId)
    requires t in s.tasks && s.tasks[t].phase.Holding? && s.tasks[t].phase.id < |s.redis.stream|
    ensures Enabled(s, Send(t)) <==> s.redis.stream[s.tasks[t].phase.id].frame.Some?
    ensures Enabled(s, Skip(t)) <==> s.redis.stream[s.tasks[t].phase.id].frame.None?
  {
  }

  /** Looking at a claimed entry condemns it if it is pending with three deliveries or more, or over four
      hours old, even if it was acknowledged meanwhile; nothing else changes. */
  lemma {:induction false} InspectCondemnsIff(s: State, t: TaskId)
    requires Enabled(s, Inspect(t))
    ensures var s' := Apply(s, Inspect(t));
      var id := s.tasks[t].phase.todo[0];
      && s'.redis == s.redis && s'.past == s.past && t in s'.tasks
      && (s'.tasks[t].phase.Judged? <==>
            (id in s.redis.pending && s.redis.pending[id].deliveries >= 3) || s.redis.now > s.redis.stream[id].stamp + 14_400_000)
      && (s'.tasks[t].phase.Judged? && id !in s.redis.pending ==> s'.tasks[t].phase.deliveries == 1)
  {
  }

  // ---------- Invariant ----------

  predicate Accepted(s: State, id: nat)
  {
    exists k :: 0 <= k < |s.past.accepted| && s.past.accepted[k].id == id
  }

  predicate AcceptedBy(s: State, t: TaskId, id: nat)
  {
    exists k :: 0 <= k < |s.past.accepted| && s.past.accepted[k].id == id && s.past.accepted[k].task == t
  }

  predicate DeadLettered(s: State, id: nat)
  {
    exists k :: 0 <= k < |s.redis.dlq| && s.redis.dlq[k].originalId == id
  }

  /** Ids below the group cursor are pending or acknowledged, never both. */
  predicate Partitioned(s: State)
  {
    && s.redis.cursor <= |s.redis.stream|
    && (forall id :: id in s.redis.pending ==> id < s.redis.cursor && id !in s.past.acked)
    && (forall id :: id in s.past.acked ==> id < s.redis.cursor)
    && (forall id | 0 <= id < s.redis.cursor :: id in s.redis.pending || id in s.past.acked)
  }

  predicate Justified(s: State)
  {
    forall id | id in s.past.acked :: Accepted(s, id) || DeadLettered(s, id)
  }

  predicate PhaseOk(s: State, t: TaskId, p: Phase)
  {
    match p
    case Polling => true
    case Holding(id) => id < s.redis.cursor && !AcceptedBy(s, t, id)
    case Forwarded(id) => id < s.redis.cursor && AcceptedBy(s, t, id)
    case Sweeping(todo) => forall id | id in todo :: id < s.redis.cursor
    case Judged(id, _, todo) => id < s.redis.cursor && forall i | i in todo :: i < s.redis.cursor
    case Copied(id, todo) =>
      id < s.redis.cursor && DeadLettered(s, id) && forall i | i in todo :: i < s.redis.cursor
  }

  predicate TasksOk(s: State)
  {
    && (forall t | t in s.tasks :: t < s.past.nextTask)
    && (forall t | t in s.tasks :: PhaseOk(s, t, s.tasks[t].phase))
  }

  /** Every hand-over carried the stored frame, and no task received one entry twice. */
  predicate HandoversOk(s: State)
  {
    && (forall a | a in s.past.accepted ::
          && a.task < s.past.nextTask && a.id < s.redis.cursor && a.id < |s.redis.stream|
          && s.redis.stream[a.id].frame == Some(a.frame)
          && (a.task in s.tasks ==> s.tasks[a.task].phase == Forwarded(a.id) || a.id in s.past.acked))
    && (forall i, j | 0 <= i < j < |s.past.accepted| ::
          s.past.accepted[i].task != s.past.accepted[j].task || s.past.accepted[i].id != s.past.accepted[j].id)
  }

  predicate ReadsOk(s: State)
  {
    && |s.past.firstReads| == s.redis.cursor
    && (forall k | 0 <= k < |s.past.firstReads| :: s.past.firstReads[k] == k)
  }

  /** The DLQ holds copies of the entries it names. */
  predicate DlqOk(s: State)
  {
    forall d | d in s.redis.dlq ::
      && d.originalId < s.redis.cursor && d.originalId < |s.redis.stream|
      && d.frame == s.redis.stream[d.originalId].frame
  }

  predicate LiveOk(s: State)
  {
    && (forall k | 0 <= k < |s.past.live| ::
          && s.past.live[k].id < |s.redis.stream|
          && s.redis.stream[s.past.live[k].id].frame == Some(s.past.live[k].frame))
    && (forall k, l | 0 <= k < l < |s.past.live| :: s.past.live[k].id < s.past.live[l].id)
  }

  predicate Inv(s: State)
  {
    Partitioned(s) && Justified(s) && TasksOk(s) && HandoversOk(s) && ReadsOk(s) && LiveOk(s) && DlqOk(s)
  }

  /** One event keeps the invariant. */
  lemma {:induction false} StepKeepsInv(s: State, e: Event)
    requires Inv(s) && Enabled(s, e)
    ensures Inv(Apply(s, e))
  {
    StepKeepsPartition(s, e);
    StepKeepsJustified(s, e);
    StepKeepsTasks(s, e);
    StepKeepsHandovers(s, e);
    StepKeepsDlq(s, e);
  }

  lemma {:induction false} StepKeepsDlq(s: State, e: Event)
    requires Inv(s) && Enabled(s, e)
    ensures DlqOk(Apply(s, e))
  {
    assert s.redis.cursor <= Apply(s, e).redis.cursor;
    if e.CopyToDlq? {
      assert PhaseOk(s, e.t, s.tasks[e.t].phase);
    }
  }

  lemma {:induction false} StepKeepsPartition(s: State, e: Event)
    requires Inv(s) && Enabled(s, e)
    ensures Partitioned(Apply(s, e)) && ReadsOk(Apply(s, e)) && LiveOk(Apply(s, e))
  {
    if e.Read? {
      ReadKeepsPartition(s, e.t);
    }
  }

  lemma {:induction false} ReadKeepsPartition(s: State, t: TaskId)
    requires Inv(s) && Enabled(s, Read(t))
    ensures Partitioned(ReadStep(s, t)) && ReadsOk(ReadStep(s, t)) && LiveOk(ReadStep(s, t))
  {
  }

  /** The append-only logs only ever grow, so what they witnessed stays witnessed. */
  lemma {:induction false} LogsGrow(s: State, e: Event)
    requires Enabled(s, e)
    ensures s.past.accepted <= Apply(s, e).past.accepted
    ensures s.redis.dlq <= Apply(s, e).redis.dlq
    ensures s.redis.stream <= Apply(s, e).redis.stream
    ensures forall id | Accepted(s, id) :: Accepted(Apply(s, e), id)
    ensures forall id | DeadLettered(s, id) :: DeadLettered(Apply(s, e), id)
  {
    var s' := Apply(s, e);
    forall id | Accepted(s, id) ensures Accepted(s', id) {
      var k :| 0 <= k < |s.past.accepted| && s.past.accepted[k].id == id;
      assert s'.past.accepted[k].id == id;
    }
    forall id | DeadLettered(s, id) ensures DeadLettered(s', id) {
      var k :| 0 <= k < |s.redis.dlq| && s.redis.dlq[k].originalId == id;
      assert s'.redis.dlq[k].originalId == id;
    }
  }

  lemma {:induction false} StepKeepsJustified(s: State, e: Event)
    requires Inv(s) && Enabled(s, e)
    ensures Justified(Apply(s, e))
  {
    LogsGrow(s, e);
  }

  lemma {:induction false} StepKeepsTasks(s: State, e: Event)
    requires Inv(s) && Enabled(s, e)
    ensures TasksOk(Apply(s, e))
  {
    var s' := Apply(s, e);
    forall t | t in s'.tasks ensures PhaseOk(s', t, s'.tasks[t].phase) {
      if t in s.tasks {
        StepKeepsPhase(s, e, t);
      }
    }
  }

  lemma {:induction false} StepKeepsPhase(s: State, e: Event, t: TaskId)
    requires Partitioned(s) && TasksOk(s) && HandoversOk(s)
    requires Enabled(s, e) && t in s.tasks && t in Apply(s, e).tasks
    ensures PhaseOk(Apply(s, e), t, Apply(s, e).tasks[t].phase)
  {
    if Apply(s, e).tasks[t].phase == s.tasks[t].phase {
      BystanderKeepsPhase(s, e, t);
    } else {
      ActorKeepsPhase(s, e, t);
    }
  }

  lemma {:induction false} BystanderKeepsPhase(s: State, e: Event, t: TaskId)
    requires Partitioned(s) && TasksOk(s) && HandoversOk(s)
    requires Enabled(s, e) && t in s.tasks && t in Apply(s, e).tasks
    requires Apply(s, e).tasks[t].phase == s.tasks[t].phase
    ensures PhaseOk(Apply(s, e), t, s.tasks[t].phase)
  {
    AcceptanceFrame(s, e, t);
    assert s.redis.cursor <= Apply(s, e).redis.cursor;
    if s.tasks[t].phase.Copied? {
      LogsGrow(s, e);
    }
  }

  lemma {:induction false} ActorKeepsPhase(s: State, e: Event, t: TaskId)
    requires Partitioned(s) && TasksOk(s) && HandoversOk(s)
    requires Enabled(s, e) && t in s.tasks && t in Apply(s, e).tasks
    requires Apply(s, e).tasks[t].phase != s.tasks[t].phase
    ensures PhaseOk(Apply(s, e), t, Apply(s, e).tasks[t].phase)
  {
    if e.Read? {
      ReadKeepsPhase(s, t);
    } else if e.Send? {
      AcceptanceFrame(s, e, t);
    } else if e.CopyToDlq? {
      assert Apply(s, e).redis.dlq[|s.redis.dlq|].originalId == s.tasks[t].phase.id;
    } else if e.Inspect? {
      var todo := s.tasks[t].phase.todo;
      assert todo[0] in todo && forall i | i in todo[1..] :: i in todo;
    }
  }

  lemma {:induction false} ReadKeepsPhase(s: State, t: TaskId)
    requires Partitioned(s) && TasksOk(s) && HandoversOk(s) && Enabled(s, Read(t))
    ensures PhaseOk(ReadStep(s, t), t, ReadStep(s, t).tasks[t].phase)
  {
    AcceptedImpliesAcked(s, t);
    AcceptedInPast(s, t);
    assert forall id | AcceptedBy(ReadStep(s, t), t, id) :: AcceptedBy(s, t, id);
  }

  lemma {:induction false} AcceptedInPast(s: State, t: TaskId)
    requires HandoversOk(s)
    ensures forall id: nat | AcceptedBy(s, t, id) :: id < s.redis.cursor
  {
    forall id: nat | AcceptedBy(s, t, id) ensures id < s.redis.cursor {
      var k :| 0 <= k < |s.past.accepted| && s.past.accepted[k].id == id && s.past.accepted[k].task == t;
      assert s.past.accepted[k] in s.past.accepted;
    }
  }

  /** Only its own successful Send adds to what a task has accepted. */
  lemma {:induction false} AcceptanceFrame(s: State, e: Event, t: TaskId)
    requires Enabled(s, e)
    ensures forall id :: AcceptedBy(s, t, id) ==> AcceptedBy(Apply(s, e), t, id)
    ensures forall id :: AcceptedBy(Apply(s, e), t, id) ==>
      AcceptedBy(s, t, id) || (e == Send(t) && s.tasks[t].open && s.tasks[t].phase.id == id)
    ensures e == Send(t) && s.tasks[t].open ==> AcceptedBy(Apply(s, e), t, s.tasks[t].phase.id)
  {
    var s' := Apply(s, e);
    forall id | AcceptedBy(s, t, id) ensures AcceptedBy(s', t, id) {
      var k :| 0 <= k < |s.past.accepted| && s.past.accepted[k].id == id && s.past.accepted[k].task == t;
      assert s'.past.accepted[k].id == id;
    }
    if e == Send(t) && s.tasks[t].open {
      assert s'.past.accepted[|s.past.accepted|].id == s.tasks[t].phase.id;
    }
  }

  /** A task between polls has acknowledged everything it handed over. */
  lemma {:induction false} AcceptedImpliesAcked(s: State, t: TaskId)
    requires HandoversOk(s)
    ensures t in s.tasks && !s.tasks[t].phase.Forwarded? ==>
      forall id | AcceptedBy(s, t, id) :: id in s.past.acked
  {
    if t in s.tasks && !s.tasks[t].phase.Forwarded? {
      forall id | AcceptedBy(s, t, id) ensures id in s.past.acked {
        var k :| 0 <= k < |s.past.accepted| && s.past.accepted[k].id == id && s.past.accepted[k].task == t;
        assert s.past.accepted[k] in s.past.accepted;
      }
    }
  }

  lemma {:induction false} StepKeepsHandovers(s: State, e: Event)
    requires Partitioned(s) && TasksOk(s) && HandoversOk(s) && Enabled(s, e)
    ensures HandoversOk(Apply(s, e))
  {
    if e.Send? {
      SendKeepsHandovers(s, e.t);
    } else if e.Read? {
      ReadKeepsHandovers(s, e.t);
    }
  }

  lemma {:induction false} ReadKeepsHandovers(s: State, t: TaskId)
    requires Partitioned(s) && TasksOk(s) && HandoversOk(s) && Enabled(s, Read(t))
    ensures HandoversOk(ReadStep(s, t))
  {
  }

  lemma {:induction false} SendKeepsHandovers(s: State, t: TaskId)
    requires Partitioned(s) && TasksOk(s) && HandoversOk(s) && Enabled(s, Send(t))
    ensures HandoversOk(Apply(s, Send(t)))
  {
    var s' := Apply(s, Send(t));
    assert PhaseOk(s, t, s.tasks[t].phase);
    forall a | a in s'.past.accepted
      ensures a in s.past.accepted || a == Acceptance(t, s.tasks[t].phase.id, s.redis.stream[s.tasks[t].phase.id].frame.value)
    {
    }
  }

  // ---------- Safety of every run ----------

  lemma {:induction false} RunKeepsInv(s: State, es: seq<Event>)
    requires Inv(s) && Valid(s, es)
    ensures Inv(Final(s, es))
    decreases |es|
  {
    if es != [] {
      StepKeepsInv(s, es[0]);
      RunKeepsInv(Apply(s, es[0]), es[1..]);
    }
  }

  predicate Unread(s: State, id: nat) { s.redis.cursor <= id < |s.redis.stream| }

  predicate IsPending(s: State, id: nat) { id in s.redis.pending }

  predicate Acknowledged(s: State, id: nat) { id in s.past.acked }

  /** The frame of entry `id` was handed to a tunnel channel, or copied to the DLQ, unaltered. */
  predicate SafelyGone(s: State, id: nat, frame: Frame)
  {
    || (exists a :: a in s.past.accepted && a.id == id && a.frame == frame)
    || (exists d :: d in s.redis.dlq && d.originalId == id && d.frame == Some(frame))
  }

  /**
   * No frame reported Live is ever lost: in every reachable state it is in exactly one of
   * unread, pending, acknowledged; it is only acknowledged once a channel or the DLQ has it;
   * entries are first read in XADD order; and no tunnel is handed the same entry twice.
   */
  lemma {:induction false} NoLiveFrameIsLost(s0: State, es: seq<Event>)
    requires Initial(s0) && Valid(s0, es)
    ensures var s := Final(s0, es);
      && (forall v | v in s.past.live ::
            && v.id < |s.redis.stream| && s.redis.stream[v.id].frame == Some(v.frame)
            && (Unread(s, v.id) || IsPending(s, v.id) || Acknowledged(s, v.id))
            && !(Unread(s, v.id) && IsPending(s, v.id))
            && !(Unread(s, v.id) && Acknowledged(s, v.id))
            && !(IsPending(s, v.id) && Acknowledged(s, v.id))
            && (Acknowledged(s, v.id) ==> SafelyGone(s, v.id, v.frame)))
      && s.past.firstReads == seq(s.redis.cursor, i => i)
      && (forall i, j | 0 <= i < j < |s.past.accepted| ::
            s.past.accepted[i].task == s.past.accepted[j].task ==> s.past.accepted[i].id != s.past.accepted[j].id)
  {
    RunKeepsInv(s0, es);
    var s := Final(s0, es);
    forall v | v in s.past.live && Acknowledged(s, v.id)
      ensures SafelyGone(s, v.id, v.frame)
    {
      AckedIsSafelyGone(s, v);
    }
  }

  lemma {:induction false} AckedIsSafelyGone(s: State, v: LiveReply)
    requires Inv(s) && v in s.past.live && Acknowledged(s, v.id)
    ensures SafelyGone(s, v.id, v.frame)
  {
    if Accepted(s, v.id) {
      var k :| 0 <= k < |s.past.accepted| && s.past.accepted[k].id == v.id;
      assert s.past.accepted[k] in s.past.accepted;
    } else {
      assert DeadLettered(s, v.id);
      var k :| 0 <= k < |s.redis.dlq| && s.redis.dlq[k].originalId == v.id;
      assert s.redis.dlq[k] in s.redis.dlq;
    }
  }

  // ---------- Who can still hand an entry over ----------

  /** Nobody holds `id` and nobody is replaying a backlog. */
  predicate Stranded(s: State, id: nat)
  {
    && id < s.redis.cursor
    && forall t | t in s.tasks :: s.tasks[t].mode.Fresh? && s.tasks[t].phase != Holding(id)
  }

  /**
   * Autoclaiming an entry does not get it delivered: while no new consumer task starts, an
   * already-read entry that no task holds is never handed over again, however often it is claimed.
   */
  lemma {:induction false} ClaimAloneNeverRedelivers(s: State, es: seq<Event>, id: nat)
    requires Valid(s, es) && Stranded(s, id)
    requires forall e | e in es :: !e.Spawn?
    ensures s.past.accepted <= Final(s, es).past.accepted
    ensures forall k | |s.past.accepted| <= k < |Final(s, es).past.accepted| ::
      Final(s, es).past.accepted[k].id != id
    decreases |es|
  {
    if es != [] {
      var s1 := Apply(s, es[0]);
      StrandedStep(s, es[0], id);
      assert forall e | e in es[1..] :: e in es;
      ClaimAloneNeverRedelivers(s1, es[1..], id);
    }
  }

  lemma {:induction false} StrandedStep(s: State, e: Event, id: nat)
    requires Enabled(s, e) && Stranded(s, id) && !e.Spawn?
    ensures Stranded(Apply(s, e), id)
    ensures s.past.accepted <= Apply(s, e).past.accepted
    ensures forall k | |s.past.accepted| <= k < |Apply(s, e).past.accepted| ::
      Apply(s, e).past.accepted[k].id != id
  {
  }

  // ---------- Composing runs ----------

  lemma {:induction false} RunCons(s: State, e: Event, s1: State, rest: seq<Event>)
    requires Enabled(s, e) && s1 == Apply(s, e) && Valid(s1, rest)
    ensures Valid(s, [e] + rest) && Final(s, [e] + rest) == Final(s1, rest)
  {
    assert ([e] + rest)[1..] == rest;
  }

  /** `es` can be run from `s` and ends in `s'`. */
  predicate Leads(s: State, es: seq<Event>, s': State)
  {
    Valid(s, es) && Final(s, es) == s'
  }

  lemma {:induction false} LeadsThrough(s: State, e1: Event, s1: State, e2: Event, s2: State, e3: Event, s3: State, rest: seq<Event>, s': State)
    requires Enabled(s, e1) && s1 == Apply(s, e1)
    requires Enabled(s1, e2) && s2 == Apply(s1, e2)
    requires Enabled(s2, e3) && s3 == Apply(s2, e3)
    requires Leads(s3, rest, s')
    ensures Leads(s, [e1, e2, e3] + rest, s')
  {
    RunCons(s2, e3, s3, rest);
    RunCons(s1, e2, s2, [e3] + rest);
    RunCons(s, e1, s1, [e2] + ([e3] + rest));
    assert [e1, e2, e3] + rest == [e1] + ([e2] + ([e3] + rest));
  }

  lemma {:induction false} RunSnoc(s: State, es: seq<Event>, s1: State, e: Event)
    requires Leads(s, es, s1) && Enabled(s1, e)
    ensures Leads(s, es + [e], Apply(s1, e))
    decreases |es|
  {
    if es == [] {
      assert es + [e] == [e];
      RunCons(s, e, Apply(s, e), []);
    } else {
      var s0 := Apply(s, es[0]);
      RunSnoc(s0, es[1..], s1, e);
      RunCons(s, es[0], s0, es[1..] + [e]);
      assert es + [e] == [es[0]] + (es[1..] + [e]);
    }
  }
}
