/**
 * The inbox consumer task and its autoclaim sweep as the imperative code they are.
 * Every Redis command goes through `World.Issue`, so each method is, by construction of its
 * contract, one path through the step system of `RedisInbox`.
 */
module InboxConsumer {
  import opened Prelude
  import opened RedisInbox

  const AUTOCLAIM_INTERVAL: nat := 1500
  const AUTOCLAIM_SCAN: nat := 100

  /** Redis plus the tasks, with the run that led here. */
  class World {
    var s: State
    ghost const start: State
    ghost var log: seq<Event>

    ghost predicate Consistent()
      reads this
    {
      Initial(start) && Leads(start, log, s)
    }

    constructor (initial: State)
      requires Initial(initial)
      ensures Consistent() && s == initial && log == []
    {
      s, start, log := initial, initial, [];
    }

    method Issue(e: Event)
      requires Consistent() && Enabled(s, e)
      modifies this
      ensures Consistent() && s == Apply(old(s), e) && log == old(log) + [e]
    {
      RunSnoc(start, log, s, e);
      s := Apply(s, e);
      log := log + [e];
    }

    /** What the invariant of the step system says about one task. */
    lemma {:induction false} Sound(t: TaskId)
      requires Consistent() && t in s.tasks
      ensures PhaseOk(s, t, s.tasks[t].phase) && s.redis.cursor <= |s.redis.stream|
      ensures forall id | id in s.redis.pending :: id < s.redis.cursor
    {
      InitialInv(start);
      RunKeepsInv(start, log);
    }
  }

  lemma {:induction false} InitialInv(s: State)
    requires Initial(s)
    ensures Inv(s)
  {
  }

  /** XAUTOCLAIM from 0-0: scan the pending list in id order, claim the idle ones. */
  function ClaimScan(r: Redis, id: nat, scan: nat, count: nat): (ids: seq<nat>)
    requires count <= AUTOCLAIM_COUNT
    ensures |ids| <= count && NoDup(ids)
    ensures forall i | i in ids ::
      && id <= i < r.cursor && i in r.pending
      && r.now >= r.pending[i].since + AUTOCLAIM_MIN_IDLE_MS
    decreases r.cursor - id
  {
    if id >= r.cursor || scan == 0 || count == 0 then []
    else if id !in r.pending then ClaimScan(r, id + 1, scan, count)
    else if r.now < r.pending[id].since + AUTOCLAIM_MIN_IDLE_MS then ClaimScan(r, id + 1, scan - 1, count)
    else
      var rest := ClaimScan(r, id + 1, scan - 1, count - 1);
      assert id !in rest;
      [id] + rest
  }

  predicate InStream(r: Redis, ids: seq<nat>)
  {
    forall id | id in ids :: id < |r.stream|
  }

  function Letter(r: Redis, id: nat): (l: DeadLetter)
    requires id < |r.stream|
  {
    DeadLetter(id, r.stream[id].frame, DeliveryCount(r, id))
  }

  /** The DLQ entries written for the first `k` ids, judged against the state right after the claim. */
  function Letters(r: Redis, ids: seq<nat>, k: nat): (ls: seq<DeadLetter>)
    requires k <= |ids| && InStream(r, ids)
  {
    if k == 0 then []
    else
      assert ids[k - 1] in ids;
      Letters(r, ids, k - 1) + if ShouldDeadLetter(r, ids[k - 1]) then [Letter(r, ids[k - 1])] else []
  }

  /** The ids among the first `k` that the sweep removes from the pending list. */
  function Buried(r: Redis, ids: seq<nat>, k: nat): (dead: set<nat>)
    requires k <= |ids| && InStream(r, ids)
    ensures dead == set i | 0 <= i < k && (assert ids[i] in ids; ShouldDeadLetter(r, ids[i])) :: ids[i]
  {
    if k == 0 then {}
    else
      assert ids[k - 1] in ids;
      Buried(r, ids, k - 1) + if ShouldDeadLetter(r, ids[k - 1]) then {ids[k - 1]} else {}
  }

  /** Redis after the first `k` claimed ids have been dealt with. */
  function Swept(r: Redis, ids: seq<nat>, k: nat): (r': Redis)
    requires k <= |ids| && InStream(r, ids)
  {
    r.(dlq := r.dlq + Letters(r, ids, k), pending := r.pending - Buried(r, ids, k))
  }

  // ---------- What a sweep does, entry by entry ----------

  ghost predicate IdleFor(r: Redis, id: nat, ms: nat)
  {
    id in r.pending && r.now >= r.pending[id].since + ms
  }

  ghost function PendingIn(r: Redis, from: nat, to: nat): set<nat>
  {
    set j: nat | from <= j < to && j in r.pending
  }

  ghost function IdleIn(r: Redis, from: nat, to: nat): set<nat>
  {
    set j: nat | from <= j < to && IdleFor(r, j, 300_000)
  }

  /** The entries a sweep claims: idle for five minutes, among the first hundred pending ones and the
      first ten such. */
  ghost predicate Claimed(r: Redis, id: nat)
  {
    IdleFor(r, id, 300_000) && |PendingIn(r, 0, id)| < 100 && |IdleIn(r, 0, id)| < 10
  }

  lemma {:induction false} ScanMeans(r: Redis, from: nat, scan: nat, count: nat, id: nat)
    requires count <= AUTOCLAIM_COUNT && forall j | j in r.pending :: j < r.cursor
    ensures id in ClaimScan(r, from, scan, count) <==>
      from <= id && IdleFor(r, id, 300_000) && |PendingIn(r, from, id)| < scan && |IdleIn(r, from, id)| < count
    decreases r.cursor - from
  {
    if from < r.cursor && scan > 0 && count > 0 {
      if from < id {
        SetsFrom(r, from, id);
      }
      if from !in r.pending {
        ScanMeans(r, from + 1, scan, count, id);
      } else if !IdleFor(r, from, 300_000) {
        ScanMeans(r, from + 1, scan - 1, count, id);
      } else {
        ScanMeans(r, from + 1, scan - 1, count - 1, id);
      }
    }
    if id <= from {
      assert PendingIn(r, from, id) == {} && IdleIn(r, from, id) == {};
    }
  }

  lemma {:induction false} SetsFrom(r: Redis, from: nat, to: nat)
    requires from < to
    ensures |PendingIn(r, from, to)| == |PendingIn(r, from + 1, to)| + if from in r.pending then 1 else 0
    ensures |IdleIn(r, from, to)| == |IdleIn(r, from + 1, to)| + if IdleFor(r, from, 300_000) then 1 else 0
  {
    PendingFrom(r, from, to);
    IdleFromHere(r, from, to);
  }

  lemma {:induction false} PendingFrom(r: Redis, from: nat, to: nat)
    requires from < to
    ensures |PendingIn(r, from, to)| == |PendingIn(r, from + 1, to)| + if from in r.pending then 1 else 0
  {
    var p := PendingIn(r, from + 1, to);
    assert PendingIn(r, from, to) == if from in r.pending then p + {from} else p;
  }

  lemma {:induction false} IdleFromHere(r: Redis, from: nat, to: nat)
    requires from < to
    ensures |IdleIn(r, from, to)| == |IdleIn(r, from + 1, to)| + if IdleFor(r, from, 300_000) then 1 else 0
  {
    var q := IdleIn(r, from + 1, to);
    assert IdleIn(r, from, to) == if IdleFor(r, from, 300_000) then q + {from} else q;
  }

  /** An entry beyond saving: delivered twice before the claim made it three times, or over four hours old. */
  ghost predicate Doomed(r: Redis, id: nat)
    requires id in r.pending && id < |r.stream|
  {
    r.pending[id].deliveries >= 2 || r.now > r.stream[id].stamp + 14_400_000
  }

  /** What becomes of a pending entry in a sweep by `c`: left alone unless claimed; if claimed and beyond
      saving, dead-lettered with its frame and no longer pending; else pending for `c`, delivered once more. */
  ghost predicate Settled(r: Redis, c: ConsumerId, id: nat, pending': map<nat, Pending>, letters: seq<DeadLetter>)
    requires id in r.pending && id < |r.stream|
  {
    if !Claimed(r, id) then id in pending' && pending'[id] == r.pending[id] && NoLetterFor(letters, id)
    else if Doomed(r, id) then
      id !in pending' && LetterOnce(letters, DeadLetter(id, r.stream[id].frame, r.pending[id].deliveries + 1))
    else
      id in pending' && pending'[id] == Pending(c, r.now, r.pending[id].deliveries + 1) && NoLetterFor(letters, id)
  }

  predicate NoLetterFor(letters: seq<DeadLetter>, id: nat)
  {
    forall l | l in letters :: l.originalId != id
  }

  ghost predicate LetterOnce(letters: seq<DeadLetter>, l: DeadLetter)
  {
    exists i | 0 <= i < |letters| :: letters[i] == l && NoLetterFor(letters[..i] + letters[i + 1..], l.originalId)
  }

  /** A sweep by `c`, said entry by entry; it touches nothing else. */
  ghost predicate SettledAll(r: Redis, c: ConsumerId, r': Redis)
  {
    && r.dlq <= r'.dlq && r' == r.(pending := r'.pending, dlq := r'.dlq)
    && (forall id | id in r'.pending :: id in r.pending)
    && (forall l | l in r'.dlq[|r.dlq|..] :: l.originalId in r.pending)
    && (forall id | id in r.pending && id < |r.stream| :: Settled(r, c, id, r'.pending, r'.dlq[|r.dlq|..]))
  }

  lemma {:induction false} LettersFor(r: Redis, ids: seq<nat>, k: nat, id: nat)
    requires k <= |ids| && InStream(r, ids) && NoDup(ids)
    ensures id !in ids[..k] ==> NoLetterFor(Letters(r, ids, k), id)
    ensures id in ids[..k] && id < |r.stream| ==>
      if ShouldDeadLetter(r, id) then LetterOnce(Letters(r, ids, k), Letter(r, id)) else NoLetterFor(Letters(r, ids, k), id)
  {
    if k > 0 {
      LettersFor(r, ids, k - 1, id);
      assert ids[..k] == ids[..k - 1] + [ids[k - 1]] && ids[k - 1] in ids;
      var before, last := Letters(r, ids, k - 1), ids[k - 1];
      if ShouldDeadLetter(r, last) {
        if id == last {
          LastLetter(before, Letter(r, id));
        } else if id in ids[..k - 1] && id < |r.stream| && ShouldDeadLetter(r, id) {
          OtherLetter(before, Letter(r, id), Letter(r, last));
        }
      } else {
        assert before + [] == before;
      }
    }
  }

  lemma {:induction false} LastLetter(ls: seq<DeadLetter>, l: DeadLetter)
    requires NoLetterFor(ls, l.originalId)
    ensures LetterOnce(ls + [l], l)
  {
    var all, i := ls + [l], |ls|;
    assert all[..i] + all[i + 1..] == ls && all[i] == l;
  }

  lemma {:induction false} OtherLetter(ls: seq<DeadLetter>, l: DeadLetter, m: DeadLetter)
    requires LetterOnce(ls, l) && m.originalId != l.originalId
    ensures LetterOnce(ls + [m], l)
  {
    var i :| 0 <= i < |ls| && ls[i] == l && NoLetterFor(ls[..i] + ls[i + 1..], l.originalId);
    var all := ls + [m];
    assert all[..i] + all[i + 1..] == (ls[..i] + ls[i + 1..]) + [m] && all[i] == l;
  }

  /** What the commands of a sweep come to, entry by entry. */
  lemma {:induction false} SweepSettles(r: Redis, c: ConsumerId, ids: seq<nat>)
    requires r.cursor <= |r.stream| && (forall id | id in r.pending :: id < r.cursor)
    requires ids == ClaimScan(r, 0, AUTOCLAIM_SCAN, AUTOCLAIM_COUNT) && Claimable(r, ids) && InStream(Claim(r, c, ids), ids)
    ensures SettledAll(r, c, Swept(Claim(r, c, ids), ids, |ids|))
  {
    var claimed := Claim(r, c, ids);
    var r' := Swept(claimed, ids, |ids|);
    assert ids[..|ids|] == ids && r'.dlq[|r.dlq|..] == Letters(claimed, ids, |ids|);
    forall id | id in r.pending
      ensures Settled(r, c, id, r'.pending, r'.dlq[|r.dlq|..])
    {
      SettledOne(r, c, ids, id);
    }
    forall l | l in r'.dlq[|r.dlq|..]
      ensures l.originalId in r.pending
    {
      LettersFor(claimed, ids, |ids|, l.originalId);
      assert l.originalId in ids;
    }
  }

  lemma {:induction false} SettledOne(r: Redis, c: ConsumerId, ids: seq<nat>, id: nat)
    requires r.cursor <= |r.stream| && (forall id | id in r.pending :: id < r.cursor) && id in r.pending
    requires ids == ClaimScan(r, 0, AUTOCLAIM_SCAN, AUTOCLAIM_COUNT) && Claimable(r, ids) && InStream(Claim(r, c, ids), ids)
    ensures var claimed := Claim(r, c, ids);
      Settled(r, c, id, Swept(claimed, ids, |ids|).pending, Letters(claimed, ids, |ids|))
  {
    var claimed := Claim(r, c, ids);
    assert ids[..|ids|] == ids;
    ScanMeans(r, 0, AUTOCLAIM_SCAN, AUTOCLAIM_COUNT, id);
    LettersFor(claimed, ids, |ids|, id);
    if id in ids {
      var i :| 0 <= i < |ids| && ids[i] == id;
      assert DeliveryCount(claimed, id) == r.pending[id].deliveries + 1;
    }
  }

  predicate Between(s: State, t: TaskId)
  {
    t in s.tasks && s.tasks[t].phase.Polling?
  }

  /** The sweep of `t` over `ids` has dealt with the first `k` of them. */
  predicate SweepAt(s: State, t: TaskId, task: Task, past: History, r: Redis, ids: seq<nat>, k: nat)
    requires k <= |ids| && InStream(r, ids)
  {
    && t in s.tasks && s.tasks[t] == task.(phase := Sweeping(ids[k..]))
    && s.redis == Swept(r, ids, k)
    && s.past == past.(acked := past.acked + Buried(r, ids, k))
  }

  lemma {:induction false} SweepBegins(s: State, t: TaskId, ids: seq<nat>)
    requires Enabled(s, Autoclaim(t, ids)) && s.redis.cursor <= |s.redis.stream|
    requires forall id | id in s.redis.pending :: id < s.redis.cursor
    ensures var r := Claim(s.redis, s.tasks[t].consumer, ids);
      InStream(r, ids) && SweepAt(Apply(s, Autoclaim(t, ids)), t, s.tasks[t], s.past, r, ids, 0)
  {
    var r := Claim(s.redis, s.tasks[t].consumer, ids);
    assert r.pending - {} == r.pending && r.dlq + [] == r.dlq && s.past.acked + {} == s.past.acked;
    assert ids[0..] == ids;
  }

  /**
   * One sweep: of the first entries that are idle long enough, exactly those that are too old or were
   * delivered too often move to the DLQ and leave the pending list; the others stay pending for this
   * consumer, delivered once more.
   */
  method AutoclaimOrphaned(w: World, t: TaskId) returns (ids: seq<nat>)
    requires w.Consistent() && Between(w.s, t)
    modifies w
    ensures w.Consistent() && Between(w.s, t) && w.s.tasks[t] == old(w.s.tasks[t])
    ensures ids == ClaimScan(old(w.s.redis), 0, AUTOCLAIM_SCAN, AUTOCLAIM_COUNT)
    ensures Claimable(old(w.s.redis), ids)
    ensures var r := Claim(old(w.s.redis), old(w.s.tasks[t].consumer), ids);
      && InStream(r, ids) && w.s.redis == Swept(r, ids, |ids|)
      && w.s.past == old(w.s.past).(acked := old(w.s.past.acked) + Buried(r, ids, |ids|))
    ensures SettledAll(old(w.s.redis), old(w.s.tasks[t].consumer), w.s.redis)
  {
    w.Sound(t);
    ghost var task, past := w.s.tasks[t], w.s.past;
    ids := ClaimScan(w.s.redis, 0, AUTOCLAIM_SCAN, AUTOCLAIM_COUNT);
    ghost var r := Claim(w.s.redis, w.s.tasks[t].consumer, ids);
    SweepBegins(w.s, t, ids);
    SweepSettles(w.s.redis, w.s.tasks[t].consumer, ids);
    w.Issue(Autoclaim(t, ids));
    JudgeAll(w, t, task, past, r, ids);
    w.Issue(EndSweep(t));
  }

  /** The loop over the claimed entries. */
  method JudgeAll(w: World, t: TaskId, ghost task: Task, ghost past: History, ghost r: Redis, ids: seq<nat>)
    requires NoDup(ids) && InStream(r, ids)
    requires w.Consistent() && SweepAt(w.s, t, task, past, r, ids, 0)
    modifies w
    ensures w.Consistent() && SweepAt(w.s, t, task, past, r, ids, |ids|)
  {
    var k := 0;
    while k < |ids|
      invariant 0 <= k <= |ids|
      invariant w.Consistent() && SweepAt(w.s, t, task, past, r, ids, k)
    {
      Judge(w, t, task, past, r, ids, k);
      k := k + 1;
    }
  }

  /** Earlier burials leave the verdict on a later id alone, and one more burial is one more step. */
  lemma {:induction false} SweptStep(r: Redis, ids: seq<nat>, k: nat)
    requires k < |ids| && InStream(r, ids) && NoDup(ids)
    ensures ids[k] in ids
    ensures var r1, id := Swept(r, ids, k), ids[k];
      && id < |r1.stream|
      && (if ShouldDeadLetter(r1, id)
          then && Swept(r, ids, k + 1) == r1.(dlq := r1.dlq + [Letter(r1, id)], pending := r1.pending - {id})
               && Buried(r, ids, k + 1) == Buried(r, ids, k) + {id}
          else Swept(r, ids, k + 1) == r1 && Buried(r, ids, k + 1) == Buried(r, ids, k))
  {
    assert ids[k] in ids;
    assert ids[k] !in Buried(r, ids, k);
    assert r.pending - Buried(r, ids, k) - {ids[k]} == r.pending - (Buried(r, ids, k) + {ids[k]});
  }

  /** The body of the sweep: look at one claimed entry and bury it if it is beyond saving. */
  method Judge(w: World, t: TaskId, ghost task: Task, ghost past: History, ghost r: Redis, ids: seq<nat>, k: nat)
    requires k < |ids| && NoDup(ids) && InStream(r, ids)
    requires w.Consistent() && SweepAt(w.s, t, task, past, r, ids, k)
    modifies w
    ensures w.Consistent() && SweepAt(w.s, t, task, past, r, ids, k + 1)
  {
    SweptStep(r, ids, k);
    assert ids[k..][1..] == ids[k + 1..];
    ghost var acked := past.acked + Buried(r, ids, k);
    assert past.acked + (Buried(r, ids, k) + {ids[k]}) == acked + {ids[k]};
    Look(w, t);
    if w.s.tasks[t].phase.Judged? {
      Bury(w, t);
    }
  }

  /** XPENDING and the age test on the next claimed id. */
  method Look(w: World, t: TaskId)
    requires w.Consistent() && t in w.s.tasks && w.s.tasks[t].phase.Sweeping? && w.s.tasks[t].phase.todo != []
    modifies w
    ensures w.Consistent() && t in w.s.tasks && w.s.redis == old(w.s.redis) && w.s.past == old(w.s.past)
    ensures var id, rest := old(w.s.tasks[t].phase.todo)[0], old(w.s.tasks[t].phase.todo)[1..];
      && id < |w.s.redis.stream|
      && w.s.tasks[t].phase
         == (if ShouldDeadLetter(w.s.redis, id) then Judged(id, DeliveryCount(w.s.redis, id), rest) else Sweeping(rest))
      && (w.s.tasks[t].phase.Judged? <==>
            (id in w.s.redis.pending && w.s.redis.pending[id].deliveries >= 3)
            || w.s.redis.now > w.s.redis.stream[id].stamp + 14_400_000)
    ensures w.s.tasks[t] == old(w.s.tasks[t]).(phase := w.s.tasks[t].phase)
  {
    w.Sound(t);
    assert w.s.tasks[t].phase.todo[0] in w.s.tasks[t].phase.todo;
    InspectCondemnsIff(w.s, t);
    w.Issue(Inspect(t));
  }

  /** Copy the judged entry to the DLQ, then acknowledge it; never the other way round. */
  method Bury(w: World, t: TaskId)
    requires w.Consistent() && t in w.s.tasks && w.s.tasks[t].phase.Judged?
    modifies w
    ensures w.Consistent() && t in w.s.tasks
    ensures w.s.tasks[t] == old(w.s.tasks[t]).(phase := Sweeping(old(w.s.tasks[t].phase.todo)))
    ensures old(w.s.tasks[t].phase.id) < |old(w.s.redis.stream)|
    ensures var p := old(w.s.tasks[t].phase);
      && w.s.redis == old(w.s.redis).(
           dlq := old(w.s.redis.dlq) + [DeadLetter(p.id, old(w.s.redis.stream)[p.id].frame, p.deliveries)],
           pending := old(w.s.redis.pending) - {p.id})
      && w.s.past == old(w.s.past).(acked := old(w.s.past.acked) + {p.id})
  {
    w.Sound(t);
    w.Issue(CopyToDlq(t));
    w.Issue(AckDead(t));
  }

  /** Hand the held entry to the tunnel and acknowledge it; an undecodable one stays pending. */
  method Forward(w: World, t: TaskId) returns (running: bool)
    requires w.Consistent() && t in w.s.tasks && w.s.tasks[t].phase.Holding?
    modifies w
    ensures w.Consistent()
    ensures old(w.s.tasks[t].phase.id) < |old(w.s.redis.stream)|
    ensures var id := old(w.s.tasks[t].phase.id);
      var frame := old(w.s.redis.stream)[id].frame;
      && running == (frame.None? || old(w.s.tasks[t].open))
      && (running ==> t in w.s.tasks && w.s.tasks[t] == old(w.s.tasks[t]).(phase := Polling))
      && (!running ==> t !in w.s.tasks)
      && (!running || frame.None? ==> w.s.redis == old(w.s.redis) && w.s.past == old(w.s.past))
      && (running && frame.Some? ==>
            && w.s.redis == old(w.s.redis).(pending := old(w.s.redis.pending) - {id})
            && w.s.past == old(w.s.past).(
                 accepted := old(w.s.past.accepted) + [Acceptance(t, id, frame.value)],
                 acked := old(w.s.past.acked) + {id}))
  {
    running := true;
    w.Sound(t);
    HeldIsSentOrSkipped(w.s, t);
    if w.s.redis.stream[w.s.tasks[t].phase.id].frame.Some? {
      var open := w.s.tasks[t].open;
      w.Issue(Send(t));
      if !open {
        return false;
      }
      w.Issue(Ack(t));
    } else {
      w.Issue(Skip(t));
    }
  }

  /** The entry the next XREADGROUP returns: the next unread one, or the lowest one pending for us. */
  function NextId(s: State, t: TaskId): (r: Option<nat>)
    requires t in s.tasks
    ensures r.Some? && Partitioned(s) ==> r.value < |s.redis.stream|
  {
    if s.tasks[t].mode.Fresh? then (if s.redis.cursor < |s.redis.stream| then Some(s.redis.cursor) else None)
    else LowestOwned(s.redis.pending, s.tasks[t].consumer, 0, s.redis.cursor)
  }

  /** What reading and forwarding does to Redis and to the history. */
  predicate Forwarded(s: State, t: TaskId, mid: State)
    requires t in s.tasks
  {
    match NextId(s, t)
    case None => mid.redis == s.redis && mid.past == s.past
    case Some(id) =>
      && id < |s.redis.stream|
      && var task := s.tasks[t];
      && var cursor := if task.mode.Fresh? then s.redis.cursor + 1 else s.redis.cursor;
      && var read := if task.mode.Fresh? then s.past.firstReads + [id] else s.past.firstReads;
      && match s.redis.stream[id].frame
         case Some(frame) =>
           && mid.redis == s.redis.(cursor := cursor, pending := s.redis.pending - {id})
           && mid.past == s.past.(firstReads := read,
                                  accepted := s.past.accepted + [Acceptance(t, id, frame)],
                                  acked := s.past.acked + {id})
         case None =>
           && mid.redis == s.redis.(cursor := cursor, pending := s.redis.pending[id := Redelivered(s.redis, task.consumer, id)])
           && mid.past == s.past.(firstReads := read)
  }

  /** The pending record of an entry that was just read, for the first time or again. */
  function Redelivered(r: Redis, c: ConsumerId, id: nat): Pending
  {
    Pending(c, r.now, if id in r.pending then r.pending[id].deliveries + 1 else 1)
  }

  /** What one XREADGROUP does: the next entry is pending for the reader and held, or an empty backlog is
      left behind. */
  lemma {:induction false} ReadTakes(s: State, t: TaskId)
    requires Enabled(s, Read(t)) && s.redis.cursor <= |s.redis.stream| && forall id | id in s.redis.pending :: id < s.redis.cursor
    ensures var s', task := Apply(s, Read(t)), s.tasks[t];
      match NextId(s, t)
      case None =>
        s' == s.(tasks := s.tasks[t := task.(mode := Fresh)])
      case Some(id) =>
        && id < |s.redis.stream|
        && s'.tasks == s.tasks[t := task.(phase := Holding(id))]
        && s'.redis == s.redis.(
             cursor := if task.mode.Fresh? then s.redis.cursor + 1 else s.redis.cursor,
             pending := s.redis.pending[id := Redelivered(s.redis, task.consumer, id)])
        && s'.past == s.past.(firstReads := if task.mode.Fresh? then s.past.firstReads + [id] else s.past.firstReads)
  {
    if s.tasks[t].mode.Fresh? && NextId(s, t).None? {
      assert s.tasks == s.tasks[t := s.tasks[t].(mode := Fresh)];
    }
  }

  /** Whether the task ends instead: its tunnel is gone and there is a frame for it. */
  predicate Stops(s: State, t: TaskId)
    requires t in s.tasks
  {
    && !s.tasks[t].open && NextId(s, t).Some?
    && NextId(s, t).value < |s.redis.stream| && s.redis.stream[NextId(s, t).value].frame.Some?
  }

  /** Read one entry and forward it. */
  method ReadAndForward(w: World, t: TaskId) returns (running: bool)
    requires w.Consistent() && Between(w.s, t)
    modifies w
    ensures w.Consistent()
    ensures running == !Stops(old(w.s), t)
    ensures !running ==> t !in w.s.tasks && w.s.past.acked == old(w.s.past.acked) && w.s.past.accepted == old(w.s.past.accepted)
    ensures running ==>
      && Between(w.s, t) && Forwarded(old(w.s), t, w.s)
      && w.s.tasks[t] == old(w.s.tasks[t]).(mode := if NextId(old(w.s), t).None? then Fresh else old(w.s.tasks[t].mode))
  {
    running := true;
    w.Sound(t);
    ReadTakes(w.s, t);
    w.Issue(Read(t));
    if w.s.tasks[t].phase.Holding? {
      running := Forward(w, t);
    }
  }

  /**
   * One iteration of the consumer loop. The next entry of its mode is handed over with its frame and
   * acknowledged; with the tunnel gone the task ends and acknowledges nothing; an empty backlog
   * switches it to new entries; and every so many polls it sweeps.
   */
  method Poll(w: World, t: TaskId, pollCount: nat) returns (running: bool, ghost mid: State)
    requires w.Consistent() && Between(w.s, t)
    modifies w
    ensures w.Consistent()
    ensures running == !Stops(old(w.s), t)
    ensures !running ==> t !in w.s.tasks && w.s.past.acked == old(w.s.past.acked) && w.s.past.accepted == old(w.s.past.accepted)
    ensures running ==>
      && Between(w.s, t) && Forwarded(old(w.s), t, mid)
      && w.s.tasks[t] == old(w.s.tasks[t]).(mode := if NextId(old(w.s), t).None? then Fresh else old(w.s.tasks[t].mode))
      && if pollCount % 1500 == 0 then SettledAll(mid.redis, old(w.s.tasks[t].consumer), w.s.redis) else w.s == mid
  {
    running := ReadAndForward(w, t);
    mid := w.s;
    if running && pollCount % AUTOCLAIM_INTERVAL == 0 {
      var _ := AutoclaimOrphaned(w, t);
    }
  }
}
