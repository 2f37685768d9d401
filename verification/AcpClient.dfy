/** The agent's JSON-RPC client: it demultiplexes responses and pushes arriving on one line stream. */
module AcpClient {
  import opened Prelude
  import opened JsonRpc

  const U64_MAX: int := 0xFFFF_FFFF_FFFF_FFFF

  /** A line read from the supervisor; None when it is not JSON. */
  type Line = Option<Json>

  function RequestFrame(id: nat, m: string, params: Option<Json>): (r: Json)
    ensures r.Obj?
  {
    var base := map[JSONRPC := Str("2.0"), ID := Num(id), METHOD := Str(m)];
    Obj(if params.Some? then base[PARAMS := params.value] else base)
  }

  function NotificationFrame(m: string, params: Json): Json
  {
    Obj(map[JSONRPC := Str("2.0"), METHOD := Str(m), PARAMS := params])
  }

  /** The client's test for "not a response": a method and no id. */
  predicate LooksLikeNotification(j: Json)
  {
    Get(j, METHOD).Some? && Get(j, ID).None?
  }

  datatype Outcome =
    | Returned(value: Json)
    | Refused(message: string)
    | MissingResult
    | BadFrame
    | Closed

  predicate BadId(j: Json)
  {
    Get(j, ID).Some? && !Get(j, ID).value.Null? &&
    !(Get(j, ID).value.Num? && 0 <= Get(j, ID).value.n <= U64_MAX)
  }

  /** Decoding a response. A null field counts as absent; the id is parsed but never compared. */
  function Interpret(line: Line): Outcome
  {
    if line.None? || !line.value.Obj? || BadId(line.value) then BadFrame
    else
      var error := Get(line.value, ERROR);
      var result := Get(line.value, RESULT);
      if error.Some? && !error.value.Null? then
        if Get(error.value, CODE).Some? && Get(error.value, CODE).value.Num?
           && Get(error.value, MESSAGE).Some? && Get(error.value, MESSAGE).value.Str?
        then Refused(Get(error.value, MESSAGE).value.s)
        else BadFrame
      else if result.Some? && !result.value.Null? then Returned(result.value)
      else MissingResult
  }

  // ---------- What a request comes to at its caller ----------

  /** A hook's answer as the caller sees it: a null result is as good as none. */
  function Given(r: Result<Json, HookFailure>): Outcome
  {
    match r
    case Ok(Null) => MissingResult
    case Ok(v) => Returned(v)
    case Err(f) => Refused(f.message)
  }

  /** What the caller of a method gets, as the hooks have it. */
  function ComesTo(m: string, params: Json, hooks: Hooks): Outcome
  {
    if m == "initialize" then Given(hooks.initialize)
    else if m == "tools/list" then Given(hooks.toolsList)
    else if m == "tools/call" then Given(hooks.toolsCall(params))
    else if m == "quota/check" then
      if hooks.quotaCheck.Ok? then Returned(Obj(map[ALLOWED := Bool(hooks.quotaCheck.value)]))
      else Refused(hooks.quotaCheck.error.message)
    else if m == "quota/update" then
      var record := hooks.quotaRecord(params);
      if record.Ok? then Returned(Obj(map[])) else Refused(record.error.message)
    else Refused("method not found: " + m)
  }

  /** Decoding undoes the making of a response, up to a null result. */
  lemma {:induction false} ResponsesDecode(id: nat, r: Result<Json, RpcError>)
    requires id <= 0xFFFF_FFFF_FFFF_FFFF
    ensures Interpret(Some(Response(Num(id), r))) ==
      match r
      case Ok(Null) => MissingResult
      case Ok(v) => Returned(v)
      case Err(e) => Refused(e.message)
  {
    var j := Response(Num(id), r);
    assert !BadId(j);
    if r.Err? {
      var e := Get(j, ERROR).value;
      assert Get(e, CODE) == Some(Num(r.error.code)) && Get(e, MESSAGE) == Some(Str(r.error.message));
    } else {
      assert Get(j, ERROR).None? && Get(j, RESULT) == Some(r.value);
    }
  }

  /** A field that is null counts as absent; an error outweighs a result; ids may be null or missing. */
  lemma {:induction false} NullsCountAsAbsent(v: Json, message: string, code: int)
    requires !v.Null?
    ensures var refusal := Obj(map[CODE := Num(code), MESSAGE := Str(message)]);
      && Interpret(Some(Obj(map[ID := Null, RESULT := v, ERROR := Null]))) == Returned(v)
      && Interpret(Some(Obj(map[RESULT := v]))) == Returned(v)
      && Interpret(Some(Obj(map[RESULT := v, ERROR := refusal]))) == Refused(message)
      && Interpret(Some(Obj(map[RESULT := Null, ERROR := Null]))) == MissingResult
      && Interpret(Some(Obj(map[ID := Str(message), RESULT := v]))) == BadFrame
      && Interpret(Some(Obj(map[ERROR := Obj(map[MESSAGE := Str(message)])]))) == BadFrame
  {
    var refusal := Obj(map[CODE := Num(code), MESSAGE := Str(message)]);
    var broken := Obj(map[MESSAGE := Str(message)]);
    assert Get(refusal, CODE) == Some(Num(code)) && Get(refusal, MESSAGE) == Some(Str(message));
    assert Get(broken, CODE).None?;
  }

  /**
   * From the caller's frame through dispatch, hook and decoding: a request is always answered, and its
   * caller gets what the hook of its method returned, or the hook's message.
   */
  lemma {:induction false} RequestComesTo(id: nat, m: string, params: Option<Json>, hooks: Hooks)
    requires id <= 0xFFFF_FFFF_FFFF_FFFF && !FireAndForget(m)
    ensures var answer := HandleMessage(Some(RequestFrame(id, m, params)), hooks);
      && answer.Some?
      && Interpret(answer) == ComesTo(m, if params.Some? then params.value else Null, hooks)
  {
    var frame := RequestFrame(id, m, params);
    assert Get(frame, METHOD) == Some(Str(m)) && Get(frame, ID) == Some(Num(id)) && Get(frame, PARAMS) == params;
    var p := if params.Some? then params.value else Null;
    MethodsDisjoint(m);
    if IsRequestMethod(m) {
      ResponsesDecode(id, CallHook(m, p, hooks));
    } else {
      ResponsesDecode(id, Err(RpcError(METHOD_NOT_FOUND, "method not found: " + m)));
    }
  }

  /** How many notifications stand at the front of the line stream. */
  function LeadingNotifications(lines: seq<Line>): (k: nat)
    ensures k <= |lines|
    ensures forall i | 0 <= i < k ::
      lines[i].Some? && Get(lines[i].value, METHOD).Some? && Get(lines[i].value, ID).None?
    ensures k < |lines| ==> !(lines[k].Some? && Get(lines[k].value, METHOD).Some? && Get(lines[k].value, ID).None?)
  {
    if lines != [] && lines[0].Some? && LooksLikeNotification(lines[0].value)
    then 1 + LeadingNotifications(lines[1..]) else 0
  }

  /** The frames of lines that are all JSON. */
  function Frames(lines: seq<Line>): (r: seq<Json>)
    requires forall i | 0 <= i < |lines| :: lines[i].Some?
    ensures |r| == |lines| && forall i | 0 <= i < |lines| :: r[i] == lines[i].value
  {
    seq(|lines|, i requires 0 <= i < |lines| => lines[i].value)
  }

  /** Waiting for a response, line by line: the answer, what is set aside, what is left unread. */
  function Await(pending: seq<Json>, lines: seq<Line>): (Outcome, seq<Json>, seq<Line>)
    decreases |lines|
  {
    if lines == [] then (Closed, pending, [])
    else if lines[0].Some? && LooksLikeNotification(lines[0].value) then Await(pending + [lines[0].value], lines[1..])
    else (Interpret(lines[0]), pending, lines[1..])
  }

  /** Every notification met is set aside in arrival order, and the first other line is the answer. */
  lemma {:induction false} AwaitMeans(pending: seq<Json>, lines: seq<Line>)
    ensures var k := LeadingNotifications(lines);
      Await(pending, lines) ==
        (if k < |lines| then (Interpret(lines[k]), pending + Frames(lines[..k]), lines[k + 1..])
         else (Closed, pending + Frames(lines[..k]), []))
    decreases |lines|
  {
    if lines != [] && lines[0].Some? && LooksLikeNotification(lines[0].value) {
      var k := LeadingNotifications(lines[1..]);
      AwaitMeans(pending + [lines[0].value], lines[1..]);
      FramesCons(pending, lines, k);
      assert lines[1..][k..] == lines[k + 1..];
      if k < |lines[1..]| {
        assert lines[1..][k + 1..] == lines[k + 2..];
      }
    } else {
      assert lines[..0] == [] && pending + Frames([]) == pending;
    }
  }

  lemma {:induction false} FramesCons(pending: seq<Json>, lines: seq<Line>, k: nat)
    requires k < |lines| && forall i | 0 <= i < k + 1 :: lines[i].Some?
    ensures (pending + [lines[0].value]) + Frames(lines[1..][..k]) == pending + Frames(lines[..k + 1])
  {
    assert Frames(lines[..k + 1]) == [lines[0].value] + Frames(lines[1..][..k]);
  }

  datatype Push = Message(params: Json) | Cancel

  /** A notification the caller of `next_push` waits for. */
  function Wanted(j: Json): Option<Push>
  {
    if Get(j, METHOD) == Some(Str("session/message"))
    then Some(Message(if Get(j, PARAMS).Some? then Get(j, PARAMS).value else Null))
    else if Get(j, METHOD) == Some(Str("session/cancel")) then Some(Cancel)
    else None
  }

  predicate HasStringMethod(j: Json)
  {
    Get(j, METHOD).Some? && Get(j, METHOD).value.Str?
  }

  /** A line `next_push` passes over: a notification of any other method. */
  predicate PassedOver(line: Line)
  {
    line.Some? && HasStringMethod(line.value)
    && Get(line.value, METHOD).value.s != "session/message" && Get(line.value, METHOD).value.s != "session/cancel"
  }

  /** Waiting for a push on these lines ends with `r` after `n` of them. */
  predicate Ends(lines: seq<Line>, n: nat, r: Result<Push, Outcome>)
    requires n <= |lines|
  {
    if r == Err(Closed) then n == |lines| && forall i | 0 <= i < n :: PassedOver(lines[i])
    else
      && n > 0 && (forall i | 0 <= i < n - 1 :: PassedOver(lines[i]))
      && var last := lines[n - 1];
      if last.None? || !HasStringMethod(last.value) then r == Err(BadFrame)
      else if Get(last.value, METHOD) == Some(Str("session/cancel")) then r == Ok(Cancel)
      else
        && Get(last.value, METHOD) == Some(Str("session/message"))
        && r == Ok(Message(if Get(last.value, PARAMS).Some? then Get(last.value, PARAMS).value else Null))
  }

  /** Reading one notification line. */
  function Parsed(line: Line): Result<Json, Outcome>
  {
    if line.Some? && HasStringMethod(line.value) then Ok(line.value) else Err(BadFrame)
  }

  /** Waiting for a push, line by line: the answer and what is left. */
  function AwaitPush(lines: seq<Line>): (Result<Push, Outcome>, seq<Line>)
    decreases |lines|
  {
    if lines == [] then (Err(Closed), [])
    else
      var j := Parsed(lines[0]);
      if j.Err? then (Err(j.error), lines[1..])
      else if Wanted(j.value).Some? then (Ok(Wanted(j.value).value), lines[1..])
      else AwaitPush(lines[1..])
  }

  lemma {:induction false} AwaitPushMeans(lines: seq<Line>) returns (n: nat)
    ensures n <= |lines| && AwaitPush(lines).1 == lines[n..] && Ends(lines, n, AwaitPush(lines).0)
    decreases |lines|
  {
    if lines == [] {
      n := 0;
    } else if PassedOver(lines[0]) {
      var m := AwaitPushMeans(lines[1..]);
      n := m + 1;
      assert lines[1..][m..] == lines[n..];
      EndsCons(lines, m, AwaitPush(lines).0);
    } else {
      n := 1;
    }
  }

  lemma {:induction false} EndsCons(lines: seq<Line>, m: nat, r: Result<Push, Outcome>)
    requires lines != [] && PassedOver(lines[0]) && m <= |lines[1..]| && Ends(lines[1..], m, r)
    ensures Ends(lines, m + 1, r)
  {
    assert forall i | 0 <= i < |lines[1..]| :: lines[1..][i] == lines[i + 1];
    assert forall i | 0 < i < |lines| :: lines[i] == lines[1..][i - 1];
  }

  class Client {
    var reader: seq<Line>
    var writer: seq<Json>
    var pending: seq<Json>
    var nextId: nat

    constructor (lines: seq<Line>)
      ensures reader == lines && writer == [] && pending == [] && nextId == 1
    {
      reader, writer, pending, nextId := lines, [], [], 1;
    }

    /**
     * Writes a request and waits. Every notification met on the way is set aside in arrival order,
     * behind those set aside before, and nothing beyond the first other line is consumed.
     */
    method SendRequest(m: string, params: Option<Json>) returns (r: Outcome)
      modifies this
      ensures writer == old(writer) + [RequestFrame(old(nextId), m, params)] && nextId == old(nextId) + 1
      ensures var k := LeadingNotifications(old(reader));
        && pending == old(pending) + Frames(old(reader)[..k])
        && (k < |old(reader)| ==> reader == old(reader)[k + 1..] && r == Interpret(old(reader)[k]))
        && (k == |old(reader)| ==> reader == [] && r.Closed?)
    {
      writer := writer + [RequestFrame(nextId, m, params)];
      nextId := nextId + 1;
      r := Wait();
      AwaitMeans(old(pending), old(reader));
    }

    /** The wait loop. */
    method Wait() returns (r: Outcome)
      modifies this`reader, this`pending
      ensures (r, pending, reader) == Await(old(pending), old(reader))
    {
      while true
        invariant Await(pending, reader) == Await(old(pending), old(reader))
        decreases |reader|
      {
        if reader == [] {
          return Closed;
        }
        var line := reader[0];
        reader := reader[1..];
        if line.None? {
          return BadFrame;
        }
        if !LooksLikeNotification(line.value) {
          return Interpret(line);
        }
        pending := pending + [line.value];
      }
    }

    /** The set-aside notifications first, then the stream. */
    method RecvNotification() returns (r: Result<Json, Outcome>)
      modifies this`reader, this`pending
      ensures old(pending) != [] ==> pending == old(pending)[1..] && reader == old(reader)
      ensures old(pending) == [] ==> pending == [] && reader == if old(reader) == [] then [] else old(reader)[1..]
      ensures if old(Inbound()) == [] then r == Err(Closed) && Inbound() == []
              else r == Parsed(old(Inbound())[0]) && Inbound() == old(Inbound())[1..]
    {
      if pending != [] {
        var front := pending[0];
        pending := pending[1..];
        return if HasStringMethod(front) then Ok(front) else Err(BadFrame);
      }
      if reader == [] {
        return Err(Closed);
      }
      var line := reader[0];
      reader := reader[1..];
      return if line.Some? && HasStringMethod(line.value) then Ok(line.value) else Err(BadFrame);
    }

    /** Set-aside notifications followed by what is still unread. */
    ghost function Inbound(): seq<Line>
      reads this
    {
      seq(|pending|, i requires 0 <= i < |pending| reads this => Some(pending[i])) + reader
    }

    /**
     * Consumes notifications up to and including the first `session/message` or `session/cancel`;
     * every one passed over is some other notification, and the rest of the stream is left alone. It
     * fails exactly at the first line that is no notification, or at the end of the stream.
     */
    method NextPush() returns (r: Result<Push, Outcome>)
      modifies this`reader, this`pending
      ensures exists n: nat :: n <= |old(Inbound())| && Inbound() == old(Inbound())[n..] && Ends(old(Inbound()), n, r)
    {
      r := WaitForPush();
      ghost var n := AwaitPushMeans(old(Inbound()));
    }

    /** The loop over notifications. */
    method WaitForPush() returns (r: Result<Push, Outcome>)
      modifies this`reader, this`pending
      ensures (r, Inbound()) == AwaitPush(old(Inbound()))
    {
      while true
        invariant AwaitPush(Inbound()) == AwaitPush(old(Inbound()))
        decreases |pending| + |reader|
      {
        var got := RecvNotification();
        if got.Err? {
          return Err(got.error);
        }
        var wanted := Wanted(got.value);
        if wanted.Some? {
          return Ok(wanted.value);
        }
      }
    }
  }
}
