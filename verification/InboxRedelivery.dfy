/**
 * Who hands a pending inbox entry over: what a consumer task does to its backlog when left to its own
 * reads, what becomes of claimed entries, and where an undecodable entry blocks the rest.
 */
module InboxRedelivery {
  import opened Prelude
  import opened RedisInbox

  /** The ids pending for `c`, ascending. */
  function OwnedIds(pending: map<nat, Pending>, c: ConsumerId, from: nat, limit: nat): (r: seq<nat>)
    ensures forall id :: id in r <==> from <= id < limit && id in pending && pending[id].consumer == c
    decreases limit - from
  {
    if from >= limit then []
    else if from in pending && pending[from].consumer == c then [from] + OwnedIds(pending, c, from + 1, limit)
    else OwnedIds(pending, c, from + 1, limit)
  }

  lemma {:induction false} OwnedHead(pending: map<nat, Pending>, c: ConsumerId, from: nat, limit: nat)
    ensures var ids := OwnedIds(pending, c, from, limit);
      LowestOwned(pending, c, from, limit) == if ids == [] then None else Some(ids[0])
    decreases limit - from
  {
    if from < limit && !(from in pending && pending[from].consumer == c) {
      OwnedHead(pending, c, from + 1, limit);
    }
  }

  lemma {:induction false} OwnedAgree(p: map<nat, Pending>, q: map<nat, Pending>, c: ConsumerId, from: nat, limit: nat)
    requires forall id | from <= id < limit ::
      (id in p && p[id].consumer == c) == (id in q && q[id].consumer == c)
    ensures OwnedIds(p, c, from, limit) == OwnedIds(q, c, from, limit)
    decreases limit - from
  {
    if from < limit {
      OwnedAgree(p, q, c, from + 1, limit);
    }
  }

  /** Acknowledging the lowest owned id drops exactly the head of the list. */
  lemma {:induction false} OwnedTail(p: map<nat, Pending>, q: map<nat, Pending>, c: ConsumerId, from: nat, limit: nat)
    requires OwnedIds(p, c, from, limit) != []
    requires var head := OwnedIds(p, c, from, limit)[0];
      && (head !in q || q[head].consumer != c)
      && forall id | from <= id < limit && id != head ::
           (id in p && p[id].consumer == c) == (id in q && q[id].consumer == c)
    ensures OwnedIds(q, c, from, limit) == OwnedIds(p, c, from, limit)[1..]
    decreases limit - from
  {
    if from in p && p[from].consumer == c {
      OwnedAgree(p, q, c, from + 1, limit);
    } else {
      OwnedTail(p, q, c, from + 1, limit);
    }
  }

  // ---------- A task's own steps ----------

  /** The steps of the read loop of task `t`, between two sweeps. */
  predicate OwnStep(e: Event, t: TaskId)
  {
    e == Read(t) || e == Skip(t) || e == Send(t) || e == Ack(t)
  }

  predicate OwnRun(es: seq<Event>, t: TaskId)
  {
    forall e | e in es :: OwnStep(e, t)
  }

  predicate Decodable(s: State, id: nat)
  {
    id < |s.redis.stream| && s.redis.stream[id].frame.Some?
  }

  predicate Owns(s: State, c: ConsumerId, id: nat)
  {
    id in s.redis.pending && s.redis.pending[id].consumer == c
  }

  /** Every entry pending for `c` up to `id` can be decoded. */
  ghost predicate ClearUpTo(s: State, c: ConsumerId, id: nat)
  {
    forall j: nat | j <= id && Owns(s, c, j) :: Decodable(s, j)
  }

  /** The entries task `t` may still hand over: the one it holds, and while it replays its backlog
      those of its own with nothing undecodable before them. */
  ghost predicate Within(s: State, t: TaskId, id: nat)
    requires t in s.tasks
  {
    && s.tasks[t].open
    && (|| (s.tasks[t].phase == Holding(id) && Decodable(s, id))
        || (s.tasks[t].mode.Backlog? && Owns(s, s.tasks[t].consumer, id) && ClearUpTo(s, s.tasks[t].consumer, id)))
  }

  ghost predicate NewlyAccepted(s: State, s': State, id: nat)
  {
    exists k :: |s.past.accepted| <= k < |s'.past.accepted| && s'.past.accepted[k].id == id
  }

  /** What the task has forwarded can be decoded. */
  predicate Healthy(s: State, t: TaskId)
  {
    t in s.tasks && s.tasks[t].phase.Forwarded? ==> Decodable(s, s.tasks[t].phase.id)
  }

  lemma {:induction false} InvIsHealthy(s: State, t: TaskId)
    requires Inv(s)
    ensures Healthy(s, t)
  {
    if t in s.tasks && s.tasks[t].phase.Forwarded? {
      var id := s.tasks[t].phase.id;
      assert PhaseOk(s, t, s.tasks[t].phase);
      var k :| 0 <= k < |s.past.accepted| && s.past.accepted[k].id == id && s.past.accepted[k].task == t;
      assert s.past.accepted[k] in s.past.accepted;
    }
  }

  /** A step of its own hands over only what the task may, and never widens that, except by entries
      not read before. */
  lemma {:induction false} OwnStepStaysWithin(s: State, e: Event, t: TaskId, id: nat)
    requires t in s.tasks && Enabled(s, e) && OwnStep(e, t) && Healthy(s, t) && id < s.redis.cursor
    ensures var s' := Apply(s, e);
      && Healthy(s', t) && id < s'.redis.cursor
      && (NewlyAccepted(s, s', id) ==> Within(s, t, id))
      && (t in s'.tasks && Within(s', t, id) ==> Within(s, t, id))
  {
    match e
    case Read(_) => ReadStaysWithin(s, t, id);
    case Skip(_) => ClearSame(s, Apply(s, e), s.tasks[t].consumer, id);
    case Send(_) => ClearSame(s, Apply(s, e), s.tasks[t].consumer, id);
    case Ack(_) => AckStaysWithin(s, t, id);
  }

  lemma {:induction false} ClearSame(s: State, s': State, c: ConsumerId, id: nat)
    requires s'.redis == s.redis
    ensures ClearUpTo(s', c, id) <==> ClearUpTo(s, c, id)
  {
    assert forall j: nat :: Owns(s', c, j) == Owns(s, c, j) && Decodable(s', j) == Decodable(s, j);
  }

  /** A task that has ended takes no more steps. */
  lemma {:induction false} NoTaskNoSteps(s: State, es: seq<Event>, t: TaskId)
    requires t !in s.tasks && Valid(s, es) && OwnRun(es, t)
    ensures es == []
  {
    assert es != [] ==> OwnStep(es[0], t);
  }

  lemma {:induction false} ReadStaysWithin(s: State, t: TaskId, id: nat)
    requires Enabled(s, Read(t)) && id < s.redis.cursor
    ensures var s' := Apply(s, Read(t));
      && Healthy(s', t) && id < s'.redis.cursor && s'.past.accepted == s.past.accepted
      && t in s'.tasks && (Within(s', t, id) ==> Within(s, t, id))
  {
    var s', c := Apply(s, Read(t)), s.tasks[t].consumer;
    if s.tasks[t].mode.Backlog? {
      assert forall j: nat :: Owns(s', c, j) == Owns(s, c, j);
    }
  }

  lemma {:induction false} AckStaysWithin(s: State, t: TaskId, id: nat)
    requires Enabled(s, Ack(t)) && Healthy(s, t)
    ensures var s' := Apply(s, Ack(t));
      && s'.past.accepted == s.past.accepted && s'.redis.cursor == s.redis.cursor
      && t in s'.tasks && (Within(s', t, id) ==> Within(s, t, id))
  {
    var s', c, h := Apply(s, Ack(t)), s.tasks[t].consumer, s.tasks[t].phase.id;
    assert forall j: nat :: Owns(s', c, j) == (Owns(s, c, j) && j != h);
    if Within(s', t, id) {
      forall j: nat | j <= id && Owns(s, c, j)
        ensures Decodable(s, j)
      {
        assert j != h ==> Owns(s', c, j);
      }
    }
  }

  lemma {:induction false} OwnRunStaysWithin(s: State, es: seq<Event>, t: TaskId, id: nat)
    requires t in s.tasks && Valid(s, es) && OwnRun(es, t) && Healthy(s, t) && id < s.redis.cursor
    requires !Within(s, t, id)
    ensures s.past.accepted <= Final(s, es).past.accepted && !NewlyAccepted(s, Final(s, es), id)
    decreases |es|
  {
    if es != [] {
      var s1, rest := Apply(s, es[0]), es[1..];
      assert es[0] in es && forall e | e in rest :: e in es;
      OwnStepStaysWithin(s, es[0], t, id);
      assert s.past.accepted <= s1.past.accepted;
      if t in s1.tasks {
        OwnRunStaysWithin(s1, rest, t, id);
        AcceptedLater(s, s1, Final(s1, rest), id);
      } else {
        NoTaskNoSteps(s1, rest, t);
      }
    }
  }

  lemma {:induction false} AcceptedLater(s: State, s1: State, s2: State, id: nat)
    requires s.past.accepted <= s1.past.accepted <= s2.past.accepted
    requires !NewlyAccepted(s, s1, id) && !NewlyAccepted(s1, s2, id)
    ensures !NewlyAccepted(s, s2, id)
  {
    forall k | |s.past.accepted| <= k < |s2.past.accepted|
      ensures s2.past.accepted[k].id != id
    {
      assert k < |s1.past.accepted| ==> s2.past.accepted[k] == s1.past.accepted[k];
    }
  }

  // ---------- The backlog, round by round ----------

  /** A consumer between polls that replays its backlog to a tunnel that listens. */
  predicate Replaying(s: State, t: TaskId)
  {
    && t in s.tasks && s.tasks[t].open && s.tasks[t].mode.Backlog? && s.tasks[t].phase.Polling?
    && s.redis.cursor <= |s.redis.stream|
    && forall id | id in s.redis.pending :: id < s.redis.cursor
  }

  function Backlogged(s: State, t: TaskId): seq<nat>
    requires t in s.tasks
  {
    OwnedIds(s.redis.pending, s.tasks[t].consumer, 0, s.redis.cursor)
  }

  /** The ids before the first undecodable one. */
  function Readable(stream: seq<Entry>, ids: seq<nat>): (r: seq<nat>)
    ensures r <= ids
    ensures forall id | id in r :: id < |stream| && stream[id].frame.Some?
    ensures |r| < |ids| ==> !(ids[|r|] < |stream| && stream[ids[|r|]].frame.Some?)
  {
    if ids == [] || !(ids[0] < |stream| && stream[ids[0]].frame.Some?) then []
    else [ids[0]] + Readable(stream, ids[1..])
  }

  function Handovers(stream: seq<Entry>, t: TaskId, ids: seq<nat>): (r: seq<Acceptance>)
    requires forall id | id in ids :: id < |stream| && stream[id].frame.Some?
  {
    seq(|ids|, i requires 0 <= i < |ids| => assert ids[i] in ids; Acceptance(t, ids[i], stream[ids[i]].frame.value))
  }

  function Rounds(t: TaskId, n: nat): (es: seq<Event>)
    ensures OwnRun(es, t)
  {
    if n == 0 then [] else [Read(t), Send(t), Ack(t)] + Rounds(t, n - 1)
  }

  /** One Read-Send-Ack round hands over and acknowledges the lowest backlog entry, if decodable. */
  lemma {:induction false} ReplayRound(s: State, t: TaskId) returns (s1: State, s2: State, s3: State)
    requires Replaying(s, t) && Backlogged(s, t) != [] && Decodable(s, Backlogged(s, t)[0])
    ensures Enabled(s, Read(t)) && s1 == Apply(s, Read(t))
    ensures Enabled(s1, Send(t)) && s2 == Apply(s1, Send(t))
    ensures Enabled(s2, Ack(t)) && s3 == Apply(s2, Ack(t))
    ensures Replaying(s3, t) && Backlogged(s3, t) == Backlogged(s, t)[1..]
    ensures s3.redis.stream == s.redis.stream && s3.tasks[t].consumer == s.tasks[t].consumer
    ensures s3.past.accepted
         == s.past.accepted + [Acceptance(t, Backlogged(s, t)[0], s.redis.stream[Backlogged(s, t)[0]].frame.value)]
    ensures s3.past.acked == s.past.acked + {Backlogged(s, t)[0]}
  {
    var c := s.tasks[t].consumer;
    OwnedHead(s.redis.pending, c, 0, s.redis.cursor);
    var id := Backlogged(s, t)[0];
    assert id in Backlogged(s, t);
    s1 := Apply(s, Read(t));
    s2 := Apply(s1, Send(t));
    s3 := Apply(s2, Ack(t));
    OwnedTail(s.redis.pending, s3.redis.pending, c, 0, s.redis.cursor);
  }

  /** What replaying the readable part of the backlog of `t` from `s` amounts to. */
  predicate Replayed(s: State, t: TaskId, s': State)
    requires t in s.tasks
  {
    var ids := Readable(s.redis.stream, Backlogged(s, t));
    && s'.past.accepted == s.past.accepted + Handovers(s.redis.stream, t, ids)
    && s'.past.acked == s.past.acked + (set id | id in ids)
    && s'.redis.stream == s.redis.stream
    && Replaying(s', t) && Backlogged(s', t) == Backlogged(s, t)[|ids|..]
  }

  /** Left to its own reads, a consumer hands over exactly the entries pending under its name before
      the first undecodable one, lowest id first, and acknowledges each. */
  lemma {:induction false} BacklogIsReplayed(s: State, t: TaskId) returns (s': State)
    requires Replaying(s, t)
    ensures Leads(s, Rounds(t, |Readable(s.redis.stream, Backlogged(s, t))|), s') && Replayed(s, t, s')
    decreases |Backlogged(s, t)|
  {
    var ids := Backlogged(s, t);
    if Readable(s.redis.stream, ids) == [] {
      s' := s;
      NothingReadable(s, t);
    } else {
      var s1, s2, s3 := ReplayRound(s, t);
      s' := BacklogIsReplayed(s3, t);
      ReadableCons(s.redis.stream, ids);
      LeadsThrough(s, Read(t), s1, Send(t), s2, Ack(t), s3, Rounds(t, |Readable(s.redis.stream, ids[1..])|), s');
      ReplayedOneMore(s, t, s3, s');
    }
  }

  lemma {:induction false} NothingReadable(s: State, t: TaskId)
    requires Replaying(s, t) && Readable(s.redis.stream, Backlogged(s, t)) == []
    ensures Leads(s, Rounds(t, 0), s) && Replayed(s, t, s)
  {
    assert Backlogged(s, t)[0..] == Backlogged(s, t);
    assert Handovers(s.redis.stream, t, []) == [] && s.past.accepted + [] == s.past.accepted;
  }

  lemma {:induction false} ReadableCons(stream: seq<Entry>, ids: seq<nat>)
    requires Readable(stream, ids) != []
    ensures Readable(stream, ids) == [ids[0]] + Readable(stream, ids[1..])
  {
  }

  lemma {:induction false} ReplayedOneMore(s: State, t: TaskId, s3: State, s': State)
    requires t in s.tasks && t in s3.tasks && Backlogged(s, t) != [] && Decodable(s, Backlogged(s, t)[0])
    requires Backlogged(s3, t) == Backlogged(s, t)[1..] && s3.redis.stream == s.redis.stream
    requires s3.past.accepted
          == s.past.accepted + [Acceptance(t, Backlogged(s, t)[0], s.redis.stream[Backlogged(s, t)[0]].frame.value)]
    requires s3.past.acked == s.past.acked + {Backlogged(s, t)[0]}
    requires Replayed(s3, t, s')
    ensures Replayed(s, t, s')
  {
    var ids, rest := Backlogged(s, t), Readable(s.redis.stream, Backlogged(s, t)[1..]);
    assert Readable(s.redis.stream, ids) == [ids[0]] + rest;
    HandoversCons(s.redis.stream, t, ids[0], rest);
    Associate(s.past.accepted, [Acceptance(t, ids[0], s.redis.stream[ids[0]].frame.value)], Handovers(s.redis.stream, t, rest));
    assert ids[1..][|rest|..] == ids[1 + |rest|..];
  }

  lemma {:induction false} HandoversCons(stream: seq<Entry>, t: TaskId, id: nat, rest: seq<nat>)
    requires forall x | x in [id] + rest :: x < |stream| && stream[x].frame.Some?
    ensures id in [id] + rest && forall x | x in rest :: x in [id] + rest
    ensures Handovers(stream, t, [id] + rest) == [Acceptance(t, id, stream[id].frame.value)] + Handovers(stream, t, rest)
  {
  }

  // ---------- Reaching new entries ----------

  /** An undecodable entry of its own keeps a task replaying. */
  predicate Poisoned(s: State, t: TaskId, id: nat)
  {
    && t in s.tasks && s.tasks[t].mode.Backlog? && Owns(s, s.tasks[t].consumer, id) && !Decodable(s, id)
    && id < s.redis.cursor
  }

  lemma {:induction false} PoisonStays(s: State, es: seq<Event>, t: TaskId, id: nat)
    requires Valid(s, es) && OwnRun(es, t) && Healthy(s, t) && Poisoned(s, t, id)
    ensures t in Final(s, es).tasks ==> Poisoned(Final(s, es), t, id)
    decreases |es|
  {
    if es != [] {
      var s1, rest := Apply(s, es[0]), es[1..];
      assert es[0] in es && forall e | e in rest :: e in es;
      PoisonStaysStep(s, es[0], t, id);
      if t in s1.tasks {
        PoisonStays(s1, rest, t, id);
      } else {
        NoTaskNoSteps(s1, rest, t);
      }
    }
  }

  lemma {:induction false} PoisonStaysStep(s: State, e: Event, t: TaskId, id: nat)
    requires Enabled(s, e) && OwnStep(e, t) && Healthy(s, t) && Poisoned(s, t, id)
    ensures var s' := Apply(s, e); Healthy(s', t) && (t in s'.tasks ==> Poisoned(s', t, id))
  {
  }

  /** With nothing left to replay, the next read switches to new entries. */
  lemma {:induction false} ReplayEnd(s: State, t: TaskId)
    requires Replaying(s, t) && Backlogged(s, t) == []
    ensures Leads(s, [Read(t)], s.(tasks := s.tasks[t := s.tasks[t].(mode := Fresh)]))
  {
    OwnedHead(s.redis.pending, s.tasks[t].consumer, 0, s.redis.cursor);
    RunCons(s, Read(t), Apply(s, Read(t)), []);
    assert [Read(t)] + [] == [Read(t)];
  }

  ghost predicate TurnsToNew(s: State, t: TaskId)
  {
    exists es :: OwnRun(es, t) && Valid(s, es) && t in Final(s, es).tasks && Final(s, es).tasks[t].mode.Fresh?
  }

  /** Left to its own reads, a replaying consumer ever turns to new entries, precisely when everything
      pending under its name can be decoded. */
  lemma {:induction false} TurnsToNewIff(s: State, t: TaskId)
    requires Replaying(s, t)
    ensures TurnsToNew(s, t) <==> Readable(s.redis.stream, Backlogged(s, t)) == Backlogged(s, t)
  {
    var ids := Backlogged(s, t);
    var good := Readable(s.redis.stream, ids);
    if good == ids {
      var s1 := BacklogIsReplayed(s, t);
      ReplayEnd(s1, t);
      LeadsOn(s, Rounds(t, |good|), s1, [Read(t)]);
      assert OwnRun(Rounds(t, |good|) + [Read(t)], t);
    } else {
      var id := ids[|good|];
      assert id in ids;
      forall es | OwnRun(es, t) && Valid(s, es) && t in Final(s, es).tasks
        ensures !Final(s, es).tasks[t].mode.Fresh?
      {
        PoisonStays(s, es, t, id);
      }
    }
  }

  lemma {:induction false} LeadsOn(s: State, x: seq<Event>, s1: State, y: seq<Event>)
    requires Leads(s, x, s1) && Valid(s1, y)
    ensures Leads(s, x + y, Final(s1, y))
    decreases |x|
  {
    if x == [] {
      assert x + y == y;
    } else {
      assert (x + y)[1..] == x[1..] + y && (x + y)[0] == x[0];
      LeadsOn(Apply(s, x[0]), x[1..], s1, y);
    }
  }

  /** At an undecodable entry, a read and the skip after it lead back to the same tasks and history,
      with the entry's idle time reset: the task's own sweep cannot claim it until polling has paused
      for the whole idle limit. */
  lemma {:induction false} PoisonIsReadAgain(s: State, t: TaskId)
    requires Replaying(s, t) && Backlogged(s, t) != [] && !Decodable(s, Backlogged(s, t)[0])
    ensures Valid(s, [Read(t)] + [Skip(t)])
    ensures var s', id := Final(s, [Read(t)] + [Skip(t)]), Backlogged(s, t)[0];
      && s'.tasks == s.tasks && s'.past == s.past && Replaying(s', t) && Backlogged(s', t) == Backlogged(s, t)
      && id in s'.redis.pending && s'.redis.pending[id].since == s'.redis.now == s.redis.now
      && forall ids | id in ids :: !Claimable(s'.redis, ids)
  {
    var c, id := s.tasks[t].consumer, Backlogged(s, t)[0];
    OwnedHead(s.redis.pending, c, 0, s.redis.cursor);
    assert id in Backlogged(s, t);
    var s1 := Apply(s, Read(t));
    var s2 := Apply(s1, Skip(t));
    RunCons(s1, Skip(t), s2, []);
    assert [Skip(t)] + [] == [Skip(t)];
    RunCons(s, Read(t), s1, [Skip(t)]);
    OwnedAgree(s.redis.pending, s2.redis.pending, c, 0, s.redis.cursor);
    assert s2.tasks == s.tasks;
  }

  // ---------- Who hands an entry over ----------

  ghost predicate HandedOverByOwnSteps(s: State, t: TaskId, id: nat)
  {
    exists es :: OwnRun(es, t) && Valid(s, es) && NewlyAccepted(s, Final(s, es), id)
  }

  /** The task is in its read loop, not in a sweep. */
  predicate InReadLoop(p: Phase)
  {
    p.Polling? || p.Holding? || p.Forwarded?
  }

  /**
   * Claimed or not, an entry that was read before is handed over by the own reads of a task, if and
   * only if the task is in its read loop and has not just forwarded the entry, its tunnel listens, and
   * either it holds the entry and the entry can be decoded, or it still replays its backlog, owns the
   * entry, and everything it owns up to it can be decoded.
   */
  lemma {:induction false} HandedOverIff(s: State, t: TaskId, id: nat)
    requires Inv(s) && t in s.tasks && id < s.redis.cursor
    ensures HandedOverByOwnSteps(s, t, id) <==>
      InReadLoop(s.tasks[t].phase) && s.tasks[t].phase != Forwarded(id) && Within(s, t, id)
  {
    var p := s.tasks[t].phase;
    InvIsHealthy(s, t);
    if InReadLoop(p) && p != Forwarded(id) && Within(s, t, id) {
      IsHandedOver(s, t, id);
    } else {
      forall es | OwnRun(es, t) && Valid(s, es)
        ensures !NewlyAccepted(s, Final(s, es), id)
      {
        IsNotHandedOver(s, es, t, id);
      }
    }
  }

  lemma {:induction false} IsNotHandedOver(s: State, es: seq<Event>, t: TaskId, id: nat)
    requires t in s.tasks && Valid(s, es) && OwnRun(es, t) && Healthy(s, t) && id < s.redis.cursor
    requires !(InReadLoop(s.tasks[t].phase) && s.tasks[t].phase != Forwarded(id) && Within(s, t, id))
    ensures !NewlyAccepted(s, Final(s, es), id)
  {
    var p := s.tasks[t].phase;
    if !Within(s, t, id) {
      OwnRunStaysWithin(s, es, t, id);
    } else if es != [] {
      assert OwnStep(es[0], t);
      assert forall e | e in es[1..] :: e in es;
      if p == Forwarded(id) {
        var s1 := Apply(s, es[0]);
        assert es[0] == Ack(t) && !Within(s1, t, id);
        OwnRunStaysWithin(s1, es[1..], t, id);
        assert s1.past.accepted == s.past.accepted;
      }
    }
  }

  /** One own step of a task in its read loop that holds or has forwarded another entry keeps an entry
      within reach. */
  lemma {:induction false} OwnStepOn(s: State, e: Event, t: TaskId, id: nat)
    requires t in s.tasks && Enabled(s, e) && OwnStep(e, t) && !e.Read? && Healthy(s, t) && Within(s, t, id)
    requires s.tasks[t].phase != Holding(id) && s.tasks[t].phase != Forwarded(id)
    ensures var s' := Apply(s, e);
      && t in s'.tasks && Within(s', t, id) && s'.redis.cursor == s.redis.cursor
      && s.past.accepted <= s'.past.accepted
      && (e.Send? ==> s'.tasks[t].phase.Forwarded? && s'.tasks[t].phase != Forwarded(id))
      && (!e.Send? ==> s'.tasks[t].phase.Polling?)
  {
    var s', c := Apply(s, e), s.tasks[t].consumer;
    if e.Ack? {
      var h := s.tasks[t].phase.id;
      assert forall j: nat :: Owns(s', c, j) == (Owns(s, c, j) && j != h);
    } else {
      ClearSame(s, s', c, id);
    }
  }

  /** What a later state's own steps hand over, an earlier one's do too. */
  lemma {:induction false} HandedOverAfter(s: State, e: Event, t: TaskId, id: nat)
    requires Enabled(s, e) && OwnStep(e, t) && s.past.accepted <= Apply(s, e).past.accepted
    requires HandedOverByOwnSteps(Apply(s, e), t, id)
    ensures HandedOverByOwnSteps(s, t, id)
  {
    var s1 := Apply(s, e);
    var es :| OwnRun(es, t) && Valid(s1, es) && NewlyAccepted(s1, Final(s1, es), id);
    RunCons(s, e, s1, es);
    assert OwnRun([e] + es, t) && NewlyAccepted(s, Final(s, [e] + es), id);
  }

  lemma {:induction false} IsHandedOver(s: State, t: TaskId, id: nat)
    requires Inv(s) && t in s.tasks && id < s.redis.cursor && Within(s, t, id)
    requires InReadLoop(s.tasks[t].phase) && s.tasks[t].phase != Forwarded(id)
    ensures HandedOverByOwnSteps(s, t, id)
    decreases if s.tasks[t].phase.Polling? then 0 else if s.tasks[t].phase.Forwarded? then 1 else 2
  {
    var p := s.tasks[t].phase;
    if p.Polling? {
      BacklogReaches(s, t, id);
    } else if p == Holding(id) && Decodable(s, id) {
      HeldIsHandedOver(s, t, id);
    } else {
      var e := NextStep(s, t, id);
      InvIsHealthy(s, t);
      OwnStepOn(s, e, t, id);
      StepKeepsInv(s, e);
      IsHandedOver(Apply(s, e), t, id);
      HandedOverAfter(s, e, t, id);
    }
  }

  /** The step such a task takes next. */
  lemma {:induction false} NextStep(s: State, t: TaskId, id: nat) returns (e: Event)
    requires Inv(s) && t in s.tasks && Within(s, t, id)
    requires s.tasks[t].phase.Forwarded? || (s.tasks[t].phase.Holding? && !(s.tasks[t].phase == Holding(id) && Decodable(s, id)))
    ensures Enabled(s, e) && OwnStep(e, t) && !e.Read? && s.tasks[t].phase != Holding(id)
    ensures s.tasks[t].phase.Forwarded? ==> e == Ack(t)
  {
    var p := s.tasks[t].phase;
    assert PhaseOk(s, t, p);
    if p.Forwarded? {
      e := Ack(t);
    } else {
      e := if s.redis.stream[p.id].frame.Some? then Send(t) else Skip(t);
    }
  }

  lemma {:induction false} HeldIsHandedOver(s: State, t: TaskId, id: nat)
    requires t in s.tasks && s.tasks[t].open && s.tasks[t].phase == Holding(id) && Decodable(s, id)
    ensures HandedOverByOwnSteps(s, t, id)
  {
    var s1 := Apply(s, Send(t));
    RunCons(s, Send(t), s1, []);
    assert [Send(t)] + [] == [Send(t)];
    assert s1.past.accepted[|s.past.accepted|].id == id;
    assert OwnRun([Send(t)], t) && NewlyAccepted(s, Final(s, [Send(t)]), id);
  }

  lemma {:induction false} BacklogReaches(s: State, t: TaskId, id: nat)
    requires Inv(s) && t in s.tasks && s.tasks[t].phase.Polling? && id < s.redis.cursor
    requires s.tasks[t].open && s.tasks[t].mode.Backlog?
    requires Owns(s, s.tasks[t].consumer, id) && ClearUpTo(s, s.tasks[t].consumer, id)
    ensures HandedOverByOwnSteps(s, t, id)
  {
    var ids := Backlogged(s, t);
    var good := Readable(s.redis.stream, ids);
    assert Replaying(s, t);
    var s' := BacklogIsReplayed(s, t);
    assert id in ids;
    var i :| 0 <= i < |ids| && ids[i] == id;
    ReadableReaches(s, t, i);
    var k := |s.past.accepted| + i;
    assert s'.past.accepted[k] == Handovers(s.redis.stream, t, good)[i];
    assert OwnRun(Rounds(t, |good|), t) && NewlyAccepted(s, s', id);
  }

  /** Everything up to a clear entry is readable. */
  lemma {:induction false} ReadableReaches(s: State, t: TaskId, i: nat)
    requires t in s.tasks && i < |Backlogged(s, t)| && ClearUpTo(s, s.tasks[t].consumer, Backlogged(s, t)[i])
    ensures i < |Readable(s.redis.stream, Backlogged(s, t))|
  {
    var ids := Backlogged(s, t);
    forall k | 0 <= k <= i
      ensures Decodable(s, ids[k])
    {
      OwnedAscending(s.redis.pending, s.tasks[t].consumer, 0, s.redis.cursor, k, i);
      assert ids[k] in ids;
    }
    ReadableLength(s, ids, i);
  }

  lemma {:induction false} ReadableLength(s: State, ids: seq<nat>, i: nat)
    requires i < |ids| && forall k | 0 <= k <= i :: Decodable(s, ids[k])
    ensures i < |Readable(s.redis.stream, ids)|
    decreases i
  {
    assert Decodable(s, ids[0]);
    if i > 0 {
      forall k | 0 <= k <= i - 1
        ensures Decodable(s, ids[1..][k])
      {
        assert ids[1..][k] == ids[k + 1];
      }
      ReadableLength(s, ids[1..], i - 1);
    }
  }

  lemma {:induction false} OwnedAscending(pending: map<nat, Pending>, c: ConsumerId, from: nat, limit: nat, i: nat, j: nat)
    requires i <= j < |OwnedIds(pending, c, from, limit)|
    ensures from <= OwnedIds(pending, c, from, limit)[i] <= OwnedIds(pending, c, from, limit)[j]
    decreases limit - from
  {
    var ids := OwnedIds(pending, c, from, limit);
    assert ids[i] in ids && ids[j] in ids;
    if from in pending && pending[from].consumer == c {
      if i > 0 {
        OwnedAscending(pending, c, from + 1, limit, i - 1, j - 1);
      }
    } else {
      OwnedAscending(pending, c, from + 1, limit, i, j);
    }
  }

  // ---------- A stranded entry ----------

  /** From any initial state: a delivered frame is read by a consumer that dies, claimed by the next
      one, which has already turned to new entries, and from then on handed over by nobody until
      another consumer starts. */
  lemma {:induction false} ClaimedEntryIsStranded(s0: State, frame: Frame, c: ConsumerId, d: ConsumerId) returns (es: seq<Event>)
    requires Initial(s0) && c != d
    ensures Valid(s0, es)
    ensures var s := Final(s0, es);
      && LiveReply(0, frame) in s.past.live && Owns(s, d, 0) && Stranded(s, 0)
      && 1 in s.tasks && s.tasks[1].consumer == d && s.tasks[1].open && s.tasks[1].phase.Polling?
      && s.past.accepted == [] && s.redis.dlq == []
  {
    var s2 := Delivered(s0, frame);
    var s5 := ReadAndAborted(s2, c);
    var s7 := StartedFresh(s5, d);
    var s11 := ClaimedAndKept(s7, d);
    var e2 := [SetOwner(true)] + [Deliver(frame)];
    var e5 := e2 + ([Spawn(c)] + [Read(0)] + [Read(0)] + [Abort(0)]);
    var e7 := e5 + ([Spawn(d)] + [Read(1)]);
    LeadsOn(s0, e2, s2, [Spawn(c)] + [Read(0)] + [Read(0)] + [Abort(0)]);
    LeadsOn(s0, e5, s5, [Spawn(d)] + [Read(1)]);
    var e11 := [Advance(AUTOCLAIM_MIN_IDLE_MS)] + [Autoclaim(1, [0])] + [Inspect(1)] + [EndSweep(1)];
    LeadsOn(s0, e7, s7, e11);
    es := e7 + e11;
  }

  lemma {:induction false} ClaimedAndKept(s: State, d: ConsumerId) returns (s': State)
    requires s.tasks == map[1 := Task(d, true, Fresh, Polling)] && |s.redis.stream| == 1 && s.redis.stream[0].stamp == s.redis.now
    requires 0 in s.redis.pending && s.redis.pending[0].since == s.redis.now && s.redis.pending[0].deliveries == 1
    ensures Leads(s, [Advance(AUTOCLAIM_MIN_IDLE_MS)] + [Autoclaim(1, [0])] + [Inspect(1)] + [EndSweep(1)], s')
    ensures Owns(s', d, 0) && s'.tasks == s.tasks && s'.past == s.past
    ensures s'.redis.cursor == s.redis.cursor && s'.redis.dlq == s.redis.dlq
  {
    var s1 := Apply(s, Advance(AUTOCLAIM_MIN_IDLE_MS));
    var s2 := Apply(s1, Autoclaim(1, [0]));
    var s3 := Apply(s2, Inspect(1));
    s' := Apply(s3, EndSweep(1));
    RunSnoc(s, [], s, Advance(AUTOCLAIM_MIN_IDLE_MS));
    assert [] + [Advance(AUTOCLAIM_MIN_IDLE_MS)] == [Advance(AUTOCLAIM_MIN_IDLE_MS)];
    RunSnoc(s, [Advance(AUTOCLAIM_MIN_IDLE_MS)], s1, Autoclaim(1, [0]));
    RunSnoc(s, [Advance(AUTOCLAIM_MIN_IDLE_MS)] + [Autoclaim(1, [0])], s2, Inspect(1));
    RunSnoc(s, [Advance(AUTOCLAIM_MIN_IDLE_MS)] + [Autoclaim(1, [0])] + [Inspect(1)], s3, EndSweep(1));
    assert s'.tasks == s.tasks;
  }

  lemma {:induction false} Delivered(s: State, frame: Frame) returns (s': State)
    requires Initial(s)
    ensures Leads(s, [SetOwner(true)] + [Deliver(frame)], s')
    ensures s'.redis.stream == [Entry(s.redis.now, Some(frame))] && s'.redis.cursor == 0 && s'.redis.pending == map[]
    ensures s'.redis.now == s.redis.now && s'.redis.dlq == [] && s'.tasks == map[]
    ensures s'.past == History([LiveReply(0, frame)], [], [], {}, 0)
  {
    var s1 := Apply(s, SetOwner(true));
    RunSnoc(s, [], s, SetOwner(true));
    assert [] + [SetOwner(true)] == [SetOwner(true)];
    RunSnoc(s, [SetOwner(true)], s1, Deliver(frame));
    s' := Apply(s1, Deliver(frame));
  }

  lemma {:induction false} ReadAndAborted(s: State, c: ConsumerId) returns (s': State)
    requires |s.redis.stream| == 1 && s.redis.cursor == 0 && s.redis.pending == map[] && s.tasks == map[] && s.past.nextTask == 0
    ensures Leads(s, [Spawn(c)] + [Read(0)] + [Read(0)] + [Abort(0)], s')
    ensures s'.redis == s.redis.(cursor := 1, pending := map[0 := Pending(c, s.redis.now, 1)]) && s'.tasks == map[]
    ensures s'.past == s.past.(nextTask := 1, firstReads := s.past.firstReads + [0])
  {
    var s1 := Apply(s, Spawn(c));
    assert s1.tasks == map[0 := Task(c, true, Backlog, Polling)];
    var s2 := Apply(s1, Read(0));
    assert s2.tasks == map[0 := Task(c, true, Fresh, Polling)];
    var s3 := Apply(s2, Read(0));
    s' := Apply(s3, Abort(0));
    RunSnoc(s, [], s, Spawn(c));
    assert [] + [Spawn(c)] == [Spawn(c)];
    RunSnoc(s, [Spawn(c)], s1, Read(0));
    RunSnoc(s, [Spawn(c)] + [Read(0)], s2, Read(0));
    RunSnoc(s, [Spawn(c)] + [Read(0)] + [Read(0)], s3, Abort(0));
    assert s'.tasks == map[];
  }

  lemma {:induction false} StartedFresh(s: State, d: ConsumerId) returns (s': State)
    requires s.tasks == map[] && s.past.nextTask == 1 && s.redis.cursor == 1
    requires 0 in s.redis.pending ==> s.redis.pending[0].consumer != d
    ensures Leads(s, [Spawn(d)] + [Read(1)], s')
    ensures s'.redis == s.redis && s'.tasks == map[1 := Task(d, true, Fresh, Polling)]
    ensures s'.past == s.past.(nextTask := 2)
  {
    var s1 := Apply(s, Spawn(d));
    assert s1.tasks == map[1 := Task(d, true, Backlog, Polling)];
    s' := Apply(s1, Read(1));
    RunSnoc(s, [], s, Spawn(d));
    assert [] + [Spawn(d)] == [Spawn(d)];
    RunSnoc(s, [Spawn(d)], s1, Read(1));
    assert s'.tasks == map[1 := Task(d, true, Fresh, Polling)];
  }
}
