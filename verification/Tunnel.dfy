/**
 * One agent and its broker, joined by two FIFO channels. The broker answers requests and pushes
 * notifications onto the same downward channel, interleaved in any way; the client tells them apart
 * by shape alone and never looks at a response's id.
 */
module Tunnel {
  import opened Prelude
  import opened JsonRpc
  import opened AcpClient

  datatype Phase = Idle | Waiting(id: nat)

  /** A request as answered by the broker, and the hooks it asked. */
  datatype Exchange = Exchange(request: Json, response: Json, hooks: Hooks)

  datatype Reply = Reply(id: nat, frame: Json)

  /** Channels and client state, then the logs of what has happened. */
  datatype State = State(
    up: seq<Json>,
    down: seq<Json>,
    pending: seq<Json>,
    phase: Phase,
    nextId: nat,
    asked: seq<Json>,
    served: seq<Exchange>,
    replies: seq<Reply>,
    pushed: seq<Json>,
    surfaced: seq<Json>)

  const INITIAL := State([], [], [], Idle, 1, [], [], [], [], [])

  datatype Event =
    | SendRequest(m: string, params: Option<Json>)
    | SendNotification(m: string, body: Json)
    | Serve(hooks: Hooks)
    | Push(frame: Json)
    | ReadLine
    | Recv

  /** What the broker pushes: a notification with a string method and no id. */
  predicate IsPush(j: Json)
  {
    HasStringMethod(j) && Get(j, ID).None?
  }

  predicate Enabled(s: State, e: Event)
  {
    match e
    case SendRequest(m, _) => s.phase.Idle? && IsRequestMethod(m) && s.nextId <= U64_MAX
    case SendNotification(_, _) => s.phase.Idle?
    case Serve(_) => s.up != []
    case Push(frame) => IsPush(frame)
    case ReadLine => s.phase.Waiting? && s.down != []
    case Recv => s.phase.Idle? && (s.pending != [] || s.down != [])
  }

  function Apply(s: State, e: Event): State
    requires Enabled(s, e)
  {
    match e
    case SendRequest(m, params) =>
      var frame := RequestFrame(s.nextId, m, params);
      s.(up := s.up + [frame], phase := Waiting(s.nextId), nextId := s.nextId + 1, asked := s.asked + [frame])
    case SendNotification(m, body) => s.(up := s.up + [NotificationFrame(m, body)])
    case Serve(hooks) =>
      var frame := s.up[0];
      match HandleMessage(Some(frame), hooks) {
        case None => s.(up := s.up[1..])
        case Some(response) =>
          s.(up := s.up[1..], down := s.down + [response], served := s.served + [Exchange(frame, response, hooks)])
      }
    case Push(frame) => s.(down := s.down + [frame], pushed := s.pushed + [frame])
    case ReadLine =>
      var line := s.down[0];
      if LooksLikeNotification(line)
      then s.(down := s.down[1..], pending := s.pending + [line])
      else s.(down := s.down[1..], phase := Idle, replies := s.replies + [Reply(s.phase.id, line)])
    case Recv =>
      if s.pending != []
      then s.(pending := s.pending[1..], surfaced := s.surfaced + [s.pending[0]])
      else s.(down := s.down[1..], surfaced := s.surfaced + [s.down[0]])
  }

  predicate Valid(s: State, es: seq<Event>)
    decreases |es|
  {
    es == [] || (Enabled(s, es[0]) && Valid(Apply(s, es[0]), es[1..]))
  }

  function Final(s: State, es: seq<Event>): State
    requires Valid(s, es)
    decreases |es|
  {
    if es == [] then s else Final(Apply(s, es[0]), es[1..])
  }

  // ---------- Invariant ----------

  predicate HasId(j: Json)
  {
    Get(j, ID).Some?
  }

  /** The frames that carry an id, in order. */
  function WithId(frames: seq<Json>): seq<Json>
  {
    Filter(frames, HasId)
  }

  /** The pushes among `frames`, in order. */
  function Pushes(frames: seq<Json>): seq<Json>
  {
    Filter(frames, IsPush)
  }

  /** A frame of the upward channel: a notification, or a request of one of the five methods. */
  predicate UpOk(j: Json)
  {
    HasStringMethod(j) &&
    (Get(j, ID).None? || IsRequestMethod(Get(j, METHOD).value.s))
  }

  /** A frame of the downward channel: a push, or a response. */
  predicate DownOk(j: Json)
  {
    IsPush(j) || (Get(j, ID).Some? && Get(j, METHOD).None?)
  }

  predicate ChannelsOk(s: State)
  {
    && (forall j | j in s.up :: UpOk(j))
    && (forall j | j in s.down :: DownOk(j))
    && (forall j | j in s.pending :: IsPush(j))
  }

  /** The outstanding request is upstream unanswered, or its response is downstream; never both. */
  predicate Outstanding(s: State)
  {
    match s.phase
    case Idle => WithId(s.up) == [] && WithId(s.down) == [] && |s.replies| == |s.served| == |s.asked|
    case Waiting(id) =>
      && |s.asked| == |s.replies| + 1 && id == |s.asked|
      && (|| (WithId(s.up) == [s.asked[|s.asked| - 1]] && WithId(s.down) == [] && |s.served| == |s.replies|)
          || (&& WithId(s.up) == [] && |s.served| == |s.asked|
              && WithId(s.down) == [s.served[|s.served| - 1].response]))
  }

  /** The k-th request carries id k+1; the k-th exchange answers it; the k-th reply is that answer. */
  predicate LogsOk(s: State)
  {
    && s.nextId == |s.asked| + 1
    && |s.served| <= |s.asked| && |s.replies| <= |s.served|
    && (forall k | 0 <= k < |s.asked| :: Get(s.asked[k], ID) == Some(Num(k + 1)))
    && (forall k | 0 <= k < |s.served| ::
          s.served[k].request == s.asked[k] && WellFormedResponse(s.served[k].response, Num(k + 1)))
    && (forall k | 0 <= k < |s.replies| :: s.replies[k] == Reply(k + 1, s.served[k].response))
  }

  predicate Conserved(s: State)
  {
    s.surfaced + s.pending + Pushes(s.down) == s.pushed
  }

  predicate Inv(s: State)
  {
    ChannelsOk(s) && Outstanding(s) && LogsOk(s) && Conserved(s)
  }

  lemma {:induction false} RequestFrameShape(id: nat, m: string, params: Option<Json>)
    ensures var f := RequestFrame(id, m, params);
      Get(f, JSONRPC) == Some(Str("2.0")) && Get(f, ID) == Some(Num(id)) && Get(f, METHOD) == Some(Str(m)) && Get(f, PARAMS) == params
  {
  }

  lemma {:induction false} NotificationFrameShape(m: string, params: Json)
    ensures var f := NotificationFrame(m, params);
      IsPush(f) && Get(f, JSONRPC) == Some(Str("2.0")) && Get(f, METHOD) == Some(Str(m)) && Get(f, PARAMS) == Some(params)
  {
  }

  lemma {:induction false} RequestKeepsInv(s: State, m: string, params: Option<Json>)
    requires Inv(s) && Enabled(s, SendRequest(m, params))
    ensures Inv(Apply(s, SendRequest(m, params)))
  {
    var f := RequestFrame(s.nextId, m, params);
    RequestFrameShape(s.nextId, m, params);
    assert UpOk(f) && HasId(f);
    AskKeepsInv(s, f);
  }

  lemma {:induction false} AskKeepsInv(s: State, f: Json)
    requires Inv(s) && s.phase.Idle? && UpOk(f) && HasId(f) && Get(f, ID) == Some(Num(s.nextId))
    ensures Inv(s.(up := s.up + [f], phase := Waiting(s.nextId), nextId := s.nextId + 1, asked := s.asked + [f]))
  {
    assert WithId(s.up + [f]) == [f] by { FilterSnoc(s.up, f, HasId); }
    assert forall j | j in s.up + [f] :: UpOk(j) by { Enqueued(s.up, f, UpOk); }
  }

  lemma {:induction false} NotificationKeepsInv(s: State, m: string, body: Json)
    requires Inv(s) && Enabled(s, SendNotification(m, body))
    ensures Inv(Apply(s, SendNotification(m, body)))
  {
    var f := NotificationFrame(m, body);
    NotificationFrameShape(m, body);
    FilterSnoc(s.up, f, HasId);
    assert !HasId(f) && UpOk(f);
    Enqueued(s.up, f, UpOk);
  }

  lemma {:induction false} Enqueued(q: seq<Json>, f: Json, ok: Json -> bool)
    requires (forall j | j in q :: ok(j)) && ok(f)
    ensures forall j | j in q + [f] :: ok(j)
  {
  }

  lemma {:induction false} PushKeepsInv(s: State, frame: Json)
    requires Inv(s) && IsPush(frame)
    ensures Inv(Apply(s, Push(frame)))
  {
    PushKeepsChannels(s, frame);
    PushKeepsOutstanding(s, frame);
    PushKeepsConserved(s, frame);
  }

  lemma {:induction false} PushKeepsChannels(s: State, frame: Json)
    requires ChannelsOk(s) && IsPush(frame)
    ensures ChannelsOk(Apply(s, Push(frame)))
  {
    Enqueued(s.down, frame, DownOk);
  }

  lemma {:induction false} PushKeepsOutstanding(s: State, frame: Json)
    requires Outstanding(s) && IsPush(frame)
    ensures Outstanding(Apply(s, Push(frame)))
  {
    FilterSnoc(s.down, frame, HasId);
  }

  lemma {:induction false} PushKeepsConserved(s: State, frame: Json)
    requires Conserved(s) && IsPush(frame)
    ensures Conserved(Apply(s, Push(frame)))
  {
    FilterSnoc(s.down, frame, IsPush);
    assert s.surfaced + s.pending + (Pushes(s.down) + [frame]) == s.pushed + [frame];
  }

  /** A frame without an id gets no answer; one with an id gets exactly one, with the same id. */
  lemma {:induction false} ServeShape(frame: Json, hooks: Hooks)
    requires UpOk(frame)
    ensures HandleMessage(Some(frame), hooks).Some? <==> HasId(frame)
    ensures HasId(frame) ==>
      var r := HandleMessage(Some(frame), hooks).value;
      WellFormedResponse(r, Get(frame, ID).value) && HasId(r) && !IsPush(r) && DownOk(r)
  {
    DispatchAnswers(Some(frame), hooks);
    MethodsDisjoint(Get(frame, METHOD).value.s);
  }

  lemma {:induction false} ServeKeepsInv(s: State, hooks: Hooks)
    requires Inv(s) && s.up != []
    ensures Inv(Apply(s, Serve(hooks)))
  {
    var frame := s.up[0];
    assert UpOk(frame) by { assert frame in s.up; }
    ServeShape(frame, hooks);
    if HasId(frame) {
      AnswerKeepsInv(s, HandleMessage(Some(frame), hooks).value, hooks);
    } else {
      SilenceKeepsInv(s);
    }
  }

  /** A frame that gets no answer just goes. */
  lemma {:induction false} SilenceKeepsInv(s: State)
    requires Inv(s) && s.up != [] && !HasId(s.up[0])
    ensures Inv(s.(up := s.up[1..]))
  {
    assert forall j | j in s.up[1..] :: j in s.up;
    FilterCons(s.up, HasId);
  }

  lemma {:induction false} AnswerKeepsInv(s: State, r: Json, hooks: Hooks)
    requires Inv(s) && s.up != [] && HasId(s.up[0])
    requires WellFormedResponse(r, Get(s.up[0], ID).value) && HasId(r) && !IsPush(r) && DownOk(r)
    ensures Inv(s.(up := s.up[1..], down := s.down + [r], served := s.served + [Exchange(s.up[0], r, hooks)]))
  {
    var s' := s.(up := s.up[1..], down := s.down + [r], served := s.served + [Exchange(s.up[0], r, hooks)]);
    AnswerIsOutstanding(s);
    assert ChannelsOk(s') by {
      Enqueued(s.down, r, DownOk);
      assert forall j | j in s.up[1..] :: j in s.up;
    }
    assert Outstanding(s') by { FilterSnoc(s.down, r, HasId); }
    assert LogsOk(s') by { AnswerKeepsLogs(s, r, hooks); }
    assert Conserved(s') by { FilterSnoc(s.down, r, IsPush); }
  }

  lemma {:induction false} AnswerKeepsLogs(s: State, r: Json, hooks: Hooks)
    requires LogsOk(s) && s.up != [] && Outstanding(s) && HasId(s.up[0])
    requires WellFormedResponse(r, Get(s.up[0], ID).value)
    ensures LogsOk(s.(up := s.up[1..], down := s.down + [r], served := s.served + [Exchange(s.up[0], r, hooks)]))
  {
    AnswerIsOutstanding(s);
    assert Get(s.asked[|s.asked| - 1], ID) == Some(Num(|s.asked|));
  }

  /** A served frame with an id is the outstanding request, and the only one upstream. */
  lemma {:induction false} AnswerIsOutstanding(s: State)
    requires Outstanding(s) && s.up != [] && HasId(s.up[0])
    ensures s.phase.Waiting? && s.up[0] == s.asked[|s.asked| - 1] && |s.served| == |s.replies|
    ensures WithId(s.up[1..]) == [] && WithId(s.down) == []
  {
    FilterCons(s.up, HasId);
    assert ([s.up[0]] + WithId(s.up[1..]))[0] == s.up[0];
  }

  lemma {:induction false} ReadLineKeepsInv(s: State)
    requires Inv(s) && Enabled(s, ReadLine)
    ensures Inv(Apply(s, ReadLine))
  {
    var line := s.down[0];
    assert line in s.down && forall j | j in s.down[1..] :: j in s.down;
    if LooksLikeNotification(line) {
      SetAsideKeepsInv(s);
    } else {
      ReplyKeepsInv(s);
    }
  }

  /** A response at the front of the downward channel answers the outstanding request. */
  lemma {:induction false} ReplyIsOutstanding(s: State)
    requires Outstanding(s) && s.down != [] && HasId(s.down[0])
    ensures s.phase.Waiting? && |s.served| == |s.asked| && s.down[0] == s.served[|s.served| - 1].response
    ensures WithId(s.up) == [] && WithId(s.down[1..]) == []
  {
    FilterCons(s.down, HasId);
    assert ([s.down[0]] + WithId(s.down[1..]))[0] == s.down[0];
  }

  lemma {:induction false} SetAsideKeepsInv(s: State)
    requires Inv(s) && s.phase.Waiting? && s.down != [] && IsPush(s.down[0])
    ensures Inv(s.(down := s.down[1..], pending := s.pending + [s.down[0]]))
  {
    Enqueued(s.pending, s.down[0], IsPush);
    assert forall j | j in s.down[1..] :: j in s.down;
    PushAtFront(s.down);
    assert s.surfaced + (s.pending + [s.down[0]]) + Pushes(s.down[1..])
        == s.surfaced + s.pending + ([s.down[0]] + Pushes(s.down[1..]));
  }

  lemma {:induction false} PushAtFront(down: seq<Json>)
    requires down != [] && IsPush(down[0])
    ensures WithId(down) == WithId(down[1..]) && Pushes(down) == [down[0]] + Pushes(down[1..])
  {
    FilterCons(down, HasId);
    FilterCons(down, IsPush);
  }

  lemma {:induction false} ReplyKeepsInv(s: State)
    requires Inv(s) && s.phase.Waiting? && s.down != [] && HasId(s.down[0]) && !IsPush(s.down[0])
    ensures Inv(s.(down := s.down[1..], phase := Idle, replies := s.replies + [Reply(s.phase.id, s.down[0])]))
  {
    var line, rest := s.down[0], s.down[1..];
    ReplyIsOutstanding(s);
    assert Pushes(s.down) == Pushes(rest) by { FilterCons(s.down, IsPush); }
    assert forall j | j in rest :: j in s.down;
  }

  lemma {:induction false} RecvKeepsInv(s: State)
    requires Inv(s) && Enabled(s, Recv)
    ensures Inv(Apply(s, Recv))
  {
    if s.pending != [] {
      assert s.pending == [s.pending[0]] + s.pending[1..];
      assert s.surfaced + [s.pending[0]] + s.pending[1..] == s.surfaced + s.pending;
    } else {
      assert s.down[0] in s.down && forall j | j in s.down[1..] :: j in s.down;
      IdleHeadIsPush(s);
      assert s.surfaced + [s.down[0]] + [] + Pushes(s.down[1..]) == s.surfaced + [] + Pushes(s.down);
    }
  }

  lemma {:induction false} IdleHeadIsPush(s: State)
    requires Outstanding(s) && ChannelsOk(s) && s.phase.Idle? && s.down != []
    ensures IsPush(s.down[0]) && WithId(s.down[1..]) == [] && Pushes(s.down) == [s.down[0]] + Pushes(s.down[1..])
  {
    FilterCons(s.down, HasId);
    FilterCons(s.down, IsPush);
    assert s.down[0] in s.down;
  }

  lemma {:induction false} RunKeepsInv(s: State, es: seq<Event>)
    requires Inv(s) && Valid(s, es)
    ensures Inv(Final(s, es))
    decreases |es|
  {
    if es != [] {
      match es[0] {
        case SendRequest(m, params) => RequestKeepsInv(s, m, params);
        case SendNotification(m, body) => NotificationKeepsInv(s, m, body);
        case Serve(hooks) => ServeKeepsInv(s, hooks);
        case Push(frame) => PushKeepsInv(s, frame);
        case ReadLine => ReadLineKeepsInv(s);
        case Recv => RecvKeepsInv(s);
      }
      RunKeepsInv(Apply(s, es[0]), es[1..]);
    }
  }

  /** The replies and pushes of a state that satisfies the invariant. */
  predicate Matched(s: State)
  {
    && |s.replies| <= |s.served| <= |s.asked|
    && (forall k | 0 <= k < |s.replies| ::
          && Get(s.asked[k], ID) == Some(Num(s.replies[k].id))
          && Get(s.replies[k].frame, ID) == Some(Num(s.replies[k].id))
          && s.served[k].request == s.asked[k] && s.served[k].response == s.replies[k].frame)
    && s.surfaced + s.pending + Pushes(s.down) == s.pushed
  }

  lemma {:induction false} InvMeansMatched(s: State)
    requires Inv(s)
    ensures Matched(s)
    ensures s.phase.Waiting? ==> s.up != [] || s.down != []
    ensures s.phase.Idle? ==> forall j | j in s.pending + s.down :: IsPush(j)
  {
    if s.phase.Idle? {
      FilterEmpty(s.down, HasId);
    }
  }

  lemma {:induction false} InitialInv()
    ensures Inv(INITIAL)
  {
  }

  /**
   * In every interleaving: the k-th request is answered by the broker's response to exactly that
   * request, carrying its id; and the notifications surfaced, set aside and unread make up, in
   * order, exactly what was pushed. A waiting client is never stuck (its request is still to be
   * served or there is a line to read); an idle client's reader never meets a response, and it may
   * always ask, notify, or take what is there.
   */
  lemma {:induction false} RepliesMatchAndPushesSurviveInOrder(
      s0: State, es: seq<Event>, hooks: Hooks, m: string, params: Option<Json>, body: Json)
    requires s0 == INITIAL && Valid(s0, es)
    ensures var s := Final(s0, es);
      && Matched(s)
      && (s.phase.Waiting? ==> Enabled(s, Serve(hooks)) || Enabled(s, ReadLine))
      && (s.phase.Idle? ==>
            && (forall j | j in s.pending + s.down :: IsPush(j))
            && (s.pending + s.down != [] ==> Enabled(s, Recv)) && Enabled(s, SendNotification(m, body))
            && (IsRequestMethod(m) && s.nextId <= 0xFFFF_FFFF_FFFF_FFFF ==> Enabled(s, SendRequest(m, params))))
  {
    InitialInv();
    RunKeepsInv(s0, es);
    InvMeansMatched(Final(s0, es));
  }

  // ---------- What the replies say ----------

  function MethodOf(f: Json): string
  {
    if HasStringMethod(f) then Get(f, METHOD).value.s else ""
  }

  /** A request as the client builds it, for a method that is answered. */
  predicate Built(f: Json, id: nat)
  {
    id <= 0xFFFF_FFFF_FFFF_FFFF && !FireAndForget(MethodOf(f)) && f == RequestFrame(id, MethodOf(f), Get(f, PARAMS))
  }

  /** Every request was built for its number, and every response is what dispatch made of the request. */
  predicate Explained(s: State)
  {
    && s.nextId == |s.asked| + 1
    && (forall k | 0 <= k < |s.asked| :: Built(s.asked[k], k + 1))
    && (forall k | 0 <= k < |s.served| ::
          HandleMessage(Some(s.served[k].request), s.served[k].hooks) == Some(s.served[k].response))
  }

  lemma {:induction false} RequestIsBuilt(id: nat, m: string, params: Option<Json>)
    requires id <= U64_MAX && IsRequestMethod(m)
    ensures Built(RequestFrame(id, m, params), id)
  {
    RequestFrameShape(id, m, params);
    MethodsDisjoint(m);
  }

  lemma {:induction false} StepKeepsExplained(s: State, e: Event)
    requires Explained(s) && Enabled(s, e)
    ensures Explained(Apply(s, e))
  {
    match e
    case SendRequest(m, params) => RequestIsBuilt(s.nextId, m, params);
    case Serve(hooks) => ServingExplains(s, hooks);
    case _ =>
  }

  lemma {:induction false} ServingExplains(s: State, hooks: Hooks)
    requires Explained(s) && s.up != []
    ensures Explained(Apply(s, Serve(hooks)))
  {
  }

  lemma {:induction false} RunKeepsExplained(s: State, es: seq<Event>)
    requires Explained(s) && Valid(s, es)
    ensures Explained(Final(s, es))
    decreases |es|
  {
    if es != [] {
      StepKeepsExplained(s, es[0]);
      RunKeepsExplained(Apply(s, es[0]), es[1..]);
    }
  }

  /**
   * In every interleaving, what the client makes of the line it takes for the answer to its k-th request
   * is what the hook of that request's method returned when it was served, or the hook's message.
   */
  lemma {:induction false} EveryCallerGetsItsAnswer(s0: State, es: seq<Event>, k: nat)
    requires s0 == INITIAL && Valid(s0, es) && k < |Final(s0, es).replies|
    ensures var s := Final(s0, es);
      && k < |s.asked| && k < |s.served|
      && Interpret(Some(s.replies[k].frame))
         == ComesTo(MethodOf(s.asked[k]),
                    if Get(s.asked[k], PARAMS).Some? then Get(s.asked[k], PARAMS).value else Null,
                    s.served[k].hooks)
  {
    InitialInv();
    RunKeepsInv(s0, es);
    RunKeepsExplained(s0, es);
    AnswerIsExplained(Final(s0, es), k);
  }

  lemma {:induction false} AnswerIsExplained(s: State, k: nat)
    requires LogsOk(s) && Explained(s) && k < |s.replies|
    ensures k < |s.asked| && k < |s.served|
    ensures Interpret(Some(s.replies[k].frame))
         == ComesTo(MethodOf(s.asked[k]),
                    if Get(s.asked[k], PARAMS).Some? then Get(s.asked[k], PARAMS).value else Null,
                    s.served[k].hooks)
  {
    var x := s.served[k];
    assert x.request == s.asked[k] && x.response == s.replies[k].frame;
    RequestComesTo(k + 1, MethodOf(s.asked[k]), Get(s.asked[k], PARAMS), x.hooks);
  }

  // ---------- The read loop of the client class ----------

  function Lines(frames: seq<Json>): (r: seq<Line>)
    ensures |r| == |frames| && forall i | 0 <= i < |frames| :: r[i] == Some(frames[i])
  {
    seq(|frames|, i requires 0 <= i < |frames| => Some(frames[i]))
  }

  function Reads(n: nat): seq<Event>
  {
    seq(n, _ => ReadLine)
  }

  /**
   * The wait loop of `Client.SendRequest` is a run of this system: reading up to the first line that
   * is not a notification sets the notifications aside in order and returns that line.
   */
  lemma {:induction false} WaitLoopIsARun(s: State, k: nat)
    requires s.phase.Waiting? && k == LeadingNotifications(Lines(s.down)) && k < |s.down|
    ensures Valid(s, Reads(k + 1))
    ensures Final(s, Reads(k + 1))
         == s.(down := s.down[k + 1..], pending := s.pending + s.down[..k], phase := Idle,
               replies := s.replies + [Reply(s.phase.id, s.down[k])])
    decreases k
  {
    ReadsCons(k);
    if k == 0 {
      assert s.pending + s.down[..0] == s.pending;
    } else {
      LinesTail(s.down);
      WaitLoopIsARun(Apply(s, ReadLine), k - 1);
      OneSetAside(s.down, s.pending, k);
    }
  }

  lemma {:induction false} ReadsCons(k: nat)
    ensures Reads(k + 1)[0] == ReadLine && Reads(k + 1)[1..] == Reads(k)
  {
  }

  lemma {:induction false} LinesTail(down: seq<Json>)
    requires down != []
    ensures Lines(down)[1..] == Lines(down[1..])
  {
  }

  lemma {:induction false} OneSetAside(down: seq<Json>, pending: seq<Json>, k: nat)
    requires 0 < k < |down|
    ensures down[1..][k..] == down[k + 1..] && down[1..][k - 1] == down[k]
    ensures (pending + [down[0]]) + down[1..][..k - 1] == pending + down[..k]
  {
  }
}
