/** `stream_completion`: attempts, the suppression of retries after partial output, and the result. */
module StreamCompletion {
  import opened Prelude
  import opened Utf8
  import opened TextLines
  import opened Conversation
  import opened ChunkedLines
  import opened ToolAssembly
  import opened Sse
  import opened Retry

  // ---------- process_stream as loops ----------

  /** The loop over the choices of one event. */
  method Ingest(start: Acc, e: StreamEvent) returns (a: Acc)
    ensures a == AbsorbEvent(start, e)
  {
    a := start;
    if e.usage.Some? {
      a := a.(usage := e.usage);
    }
    ghost var goal := AbsorbChoices(a, e.choices);
    for i := 0 to |e.choices|
      invariant AbsorbChoices(a, e.choices[i..]) == goal
    {
      assert e.choices[i..][0] == e.choices[i] && e.choices[i..][1..] == e.choices[i + 1..];
      a := IngestChoice(a, e.choices[i]);
    }
  }

  method IngestChoice(start: Acc, c: Choice) returns (a: Acc)
    ensures a == AbsorbChoice(start, c)
  {
    a := start;
    if c.finish.Some? {
      a := a.(finish := c.finish);
    }
    if c.delta.Some? && c.delta.value.content.Some? {
      var text := c.delta.value.content.value;
      a := a.(content := a.content + text, texts := a.texts + [text], emitted := true);
    }
    if c.delta.Some? && c.delta.value.toolCalls.Some? {
      var ds := c.delta.value.toolCalls.value;
      var calls := a.calls;
      for i := 0 to |ds|
        invariant Assemble(calls, ds[i..]) == Assemble(a.calls, ds)
      {
        assert ds[i..][0] == ds[i] && ds[i..][1..] == ds[i + 1..];
        calls := AccumulateToolCall(calls, ds[i]);
      }
      a := a.(calls := calls, emitted := true);
    }
  }

  /** One complete line: skip it, stop at `[DONE]`, or take in its event. */
  method TakeLine(start: Acc, line: string, parse: Parser) returns (a: Acc, done: bool)
    ensures a == AbsorbLine(start, line, parse) && done == IsDone(line)
  {
    a, done := TakeKind(start, Classify(line), parse);
  }

  method TakeKind(start: Acc, kind: Kind, parse: Parser) returns (a: Acc, done: bool)
    ensures a == AbsorbKind(start, kind, parse) && done == kind.Done?
  {
    a, done := start, false;
    match kind {
      case Ignored =>
      case Done => done := true;
      case Data(payload) =>
        var event := parse(payload);
        if event.Some? {
          a := Ingest(a, event.value);
        }
    }
  }

  /** The loop over the complete lines in the buffer; `[DONE]` leaves it early. */
  method DrainBuffer(start: Acc, text: string, parse: Parser, ghost rd: Reader<Acc>)
    returns (a: Acc, buffer: string)
    requires rd == EventReader(parse) && Proper(rd)
    ensures (a, buffer) == Drain(start, text, rd)
  {
    a, buffer := start, text;
    var lineEnd := FindNewline(buffer);
    while lineEnd < |buffer|
      invariant lineEnd == FindNewline(buffer)
      invariant Drain(a, buffer, rd) == Drain(start, text, rd)
      decreases |buffer|
    {
      DrainStep(a, buffer, lineEnd, rd);
      var line := buffer[..lineEnd];
      buffer := buffer[lineEnd + 1..];
      var done;
      a, done := TakeLine(a, line, parse);
      if done {
        return;
      }
      lineEnd := FindNewline(buffer);
    }
  }

  /** What the transport delivers: chunks, then the end or an error. */
  datatype Delivery = Delivery(chunks: seq<seq<Byte>>, failure: Option<StreamError>)

  method ProcessStream(d: Delivery, parse: Parser) returns (a: Acc)
    ensures a == ReceivedBytes(d.chunks, parse) && Coherent(a)
  {
    a := NOTHING;
    var buffer := "";
    ghost var rd, texts := EventReader(parse), Decoded(d.chunks);
    EventReaderProper(parse);
    for i := 0 to |d.chunks|
      invariant Process(a, buffer, texts[i..], rd) == Process(NOTHING, "", texts, rd)
    {
      assert texts[i..][0] == texts[i] && texts[i..][1..] == texts[i + 1..];
      ProcessStep(a, buffer, texts[i..], rd);
      a, buffer := DrainBuffer(a, buffer + Lossy(d.chunks[i]), parse, rd);
    }
    CallbacksMatchContent(texts, parse);
  }

  // ---------- Attempts ----------

  /** One request: refused outright, or answered with a stream. */
  datatype Attempt = PostFailed(error: StreamError) | Answered(delivery: Delivery)

  /** Why an attempt fails, if it does. */
  function FailureOf(at: Attempt): Option<StreamError>
  {
    match at
    case PostFailed(error) => Some(error)
    case Answered(delivery) => delivery.failure
  }

  function Completed(calls: seq<PartialCall>): (r: seq<ToolCall>)
    ensures |r| == |calls|
    ensures forall i | 0 <= i < |calls| :: r[i] == ToolCall(calls[i].id, calls[i].name, calls[i].arguments)
  {
    seq(|calls|, i requires 0 <= i < |calls| => ToolCall(calls[i].id, calls[i].name, calls[i].arguments))
  }

  function Finished(a: Acc): (r: Streamed)
  {
    Streamed(
      Message(
        Assistant,
        if a.content == "" then None else Some(Text(a.content)),
        if a.calls == [] then None else Some(Completed(a.calls)),
        None),
      a.finish, a.usage)
  }

  /** A decoded reply fits the block grammar, precisely when the stream's deltas end up giving every
      two indices different ids. */
  lemma {:induction false} ReplyOkIff(chunks: seq<string>, parse: Parser)
    requires Settled(LinesOf(Concat(chunks)), EventReader(parse))
    ensures ReplyOk(Finished(Received(chunks, parse))) <==> DistinctLastIds(Deltas(LinesOf(Concat(chunks)), parse))
  {
    var ls := LinesOf(Concat(chunks));
    var a := Received(chunks, parse);
    assert a == Fold(NOTHING, ls, EventReader(parse)) by { StreamChunkingInvisibleIff(Concat(chunks), parse); }
    assert a.calls == Assemble([], Deltas(ls, parse)) by { CallsOfLines(ls, parse, 0); }
    DistinctIdsIff(Deltas(ls, parse));
    CompletedIds(a.calls);
  }

  lemma {:induction false} CompletedIds(calls: seq<PartialCall>)
    ensures DistinctIds(Completed(calls)) <==> DistinctCallIds(calls)
  {
    var done := Completed(calls);
    if DistinctIds(done) {
      forall i, j | 0 <= i < j < |calls|
        ensures calls[i].id != calls[j].id
      {
        assert done[i].id != done[j].id;
      }
    }
  }

  const MID_STREAM := "mid-stream error after partial output emitted; cannot retry safely"

  /** What one attempt let the caller see. */
  datatype Log = Log(texts: seq<string>, calls: seq<PartialCall>, emitted: bool)

  /** What an attempt lets through: nothing if it is refused, else what its stream amounts to. */
  function LogOf(at: Attempt, parse: Parser): Log
  {
    match at
    case PostFailed(_) => Log([], [], false)
    case Answered(delivery) =>
      var a := ReceivedBytes(delivery.chunks, parse);
      Log(a.texts, a.calls, a.emitted)
  }

  predicate Silent(l: Log)
  {
    !l.emitted && l.texts == [] && l.calls == []
  }

  function ContentOf(s: Streamed): string
  {
    if s.message.content.Some? && s.message.content.value.Text? then s.message.content.value.text else ""
  }

  /** All text callbacks over all attempts, in order. */
  function AllText(logs: seq<Log>): string
  {
    if logs == [] then "" else Concat(logs[0].texts) + AllText(logs[1..])
  }

  lemma {:induction false} SilentPrefix(logs: seq<Log>)
    requires logs != [] && forall i | 0 <= i < |logs| - 1 :: Silent(logs[i])
    ensures AllText(logs) == Concat(logs[|logs| - 1].texts)
  {
    var rest := logs[1..];
    if |logs| == 1 {
      assert rest == [] && Concat(logs[0].texts) + "" == Concat(logs[0].texts);
    } else {
      assert Silent(logs[0]) && Concat(logs[0].texts) == "";
      forall i | 0 <= i < |rest| - 1 ensures Silent(rest[i]) {
        assert rest[i] == logs[i + 1];
      }
      SilentPrefix(rest);
      assert "" + AllText(rest) == AllText(rest);
      assert rest[|rest| - 1] == logs[|logs| - 1];
    }
  }

  /** One attempt: what it let through, and how it ended. */
  method TryOnce(at: Attempt, parse: Parser) returns (log: Log, r: Result<Streamed, StreamError>)
    ensures log == LogOf(at, parse)
    ensures r.Ok? ==> Concat(log.texts) == ContentOf(r.value)
    ensures r.Ok? ==> Completed(log.calls) == (if r.value.message.toolCalls.Some? then r.value.message.toolCalls.value else [])
    ensures !log.emitted ==> Silent(log)
    ensures r.Ok? <==> FailureOf(at).None?
    ensures r.Err? ==> r.error == FailureOf(at).value
    ensures r.Ok? ==> at.Answered? && r.value == Finished(ReceivedBytes(at.delivery.chunks, parse))
  {
    match at {
      case PostFailed(error) => return Log([], [], false), Err(error);
      case Answered(delivery) =>
        var a := ProcessStream(delivery, parse);
        log := Log(a.texts, a.calls, a.emitted);
        if delivery.failure.Some? {
          r := Err(delivery.failure.value);
        } else {
          r := Ok(Finished(a));
        }
    }
  }

  /** The first `n` attempts each failed in a retryable way without letting anything through. */
  predicate AllRetried(attempts: nat -> Attempt, logs: seq<Log>, n: nat)
  {
    && n <= |logs|
    && forall i | 0 <= i < n ::
         Silent(logs[i]) && FailureOf(attempts(i)).Some? && FailureOf(attempts(i)).value.Retryable?
  }

  /** Entry by entry, `logs` is what the first attempts let through. */
  predicate Logged(attempts: nat -> Attempt, parse: Parser, logs: seq<Log>)
  {
    forall i | 0 <= i < |logs| :: logs[i] == LogOf(attempts(i), parse)
  }

  lemma {:induction false} LoggedSnoc(attempts: nat -> Attempt, parse: Parser, logs: seq<Log>, log: Log)
    requires Logged(attempts, parse, logs) && log == LogOf(attempts(|logs|), parse)
    ensures Logged(attempts, parse, logs + [log])
  {
  }

  lemma {:induction false} RetriedSoFar(attempts: nat -> Attempt, logs: seq<Log>, log: Log)
    requires AllRetried(attempts, logs, |logs|)
    ensures AllRetried(attempts, logs + [log], |logs|)
    ensures var at := FailureOf(attempts(|logs|));
      Silent(log) && at.Some? && at.value.Retryable? ==> AllRetried(attempts, logs + [log], |logs| + 1)
  {
  }

  /** After partial output an error may no longer be retried. */
  function Harden(e: StreamError, emitted: bool): (r: StreamError)
    ensures emitted ==> r.Fatal?
    ensures r.Retryable? ==> e.Retryable? && !emitted
  {
    if emitted && e.Retryable? then IntoFatal(e, MID_STREAM) else e
  }

  /** `errors` are the failures of the first attempts, as the policy saw them. */
  predicate Seen(attempts: nat -> Attempt, logs: seq<Log>, errors: seq<StreamError>)
  {
    && |errors| <= |logs|
    && forall i | 0 <= i < |errors| ::
         FailureOf(attempts(i)).Some? && errors[i] == Harden(FailureOf(attempts(i)).value, logs[i].emitted)
  }

  /** Every error was slept off, which took the policy to state `s`. */
  predicate Slept(errors: seq<StreamError>, sleeps: seq<nat>, s: RetryState)
  {
    |errors| == |sleeps| && PolicyRun(errors, sleeps) && After(FRESH, errors) == s
  }

  lemma {:induction false} SleptStep(errors: seq<StreamError>, sleeps: seq<nat>, s: RetryState, e: StreamError)
    requires Slept(errors, sleeps, s)
    ensures |sleeps| <= 4
    ensures var (s1, delay) := NextDelay(s, e);
      if delay.Some? then Slept(errors + [e], sleeps + [delay.value], Advance(s1)) else Sleeps(FRESH, errors + [e]) == sleeps
  {
    SleepsSnoc(FRESH, errors, e);
    RetriesAreBounded(errors);
  }

  /** Decide about a failure; sleep and count the retry, or hand the error back. */
  method HandleFailure(policy: RetryPolicy, e: StreamError, ghost errors: seq<StreamError>, ghost sleeps: seq<nat>)
    returns (delay: Option<nat>)
    requires Slept(errors, sleeps, policy.State())
    modifies policy
    ensures |sleeps| <= 4
    ensures delay.Some? ==> e.Retryable? && Slept(errors + [e], sleeps + [delay.value], policy.State())
    ensures delay.None? ==> PolicyRun(errors + [e], sleeps)
  {
    SleptStep(errors, sleeps, policy.State(), e);
    delay := policy.Next(e);
    if delay.Some? {
      policy.Bump();
    }
  }

  /** Those errors make the policy sleep exactly this. */
  predicate PolicyRun(errors: seq<StreamError>, sleeps: seq<nat>)
  {
    Sleeps(FRESH, errors) == sleeps
  }

  lemma {:induction false} PolicyRunBounds(errors: seq<StreamError>, sleeps: seq<nat>)
    requires PolicyRun(errors, sleeps)
    ensures |sleeps| <= 4 && Doubling(0, sleeps) && Sum(sleeps) <= 30_000
    ensures (forall e | e in errors :: !IsTransient(e)) ==> |sleeps| <= 2
  {
    RetriesAreBounded(errors);
  }

  /** Between attempts: all so far failed silently and were slept off. */
  predicate Retrying(attempts: nat -> Attempt, logs: seq<Log>, sleeps: seq<nat>, errors: seq<StreamError>, s: RetryState)
  {
    && |logs| == |errors| && AllRetried(attempts, logs, |logs|)
    && Seen(attempts, logs, errors) && Slept(errors, sleeps, s)
  }

  /** What a run of attempts and sleeps looks like when it is over. */
  ghost predicate Over(attempts: nat -> Attempt, logs: seq<Log>, sleeps: seq<nat>, errors: seq<StreamError>)
  {
    && 1 <= |logs| <= 5 && |sleeps| == |logs| - 1
    && AllRetried(attempts, logs, |logs| - 1)
    && Seen(attempts, logs, errors) && Paused(errors, sleeps)
    && Doubling(0, sleeps) && Sum(sleeps) <= 30_000
  }

  /** The pauses are those due after these failures. */
  ghost predicate Paused(errors: seq<StreamError>, sleeps: seq<nat>)
  {
    exists t: nat :: FirstCapacity(errors, t) && PausesAre(errors, t, sleeps)
  }

  lemma {:induction false} PolicyPauses(errors: seq<StreamError>, sleeps: seq<nat>)
    requires PolicyRun(errors, sleeps)
    ensures Paused(errors, sleeps)
  {
    var t := SomeFirstCapacity(errors);
    PausesAreExactly(errors, t);
  }

  /** The last attempt succeeded with `v`, and all text anyone saw is its content. */
  predicate Success(attempts: nat -> Attempt, parse: Parser, logs: seq<Log>, v: Streamed)
    requires logs != []
  {
    var at := attempts(|logs| - 1);
    && at.Answered? && FailureOf(at).None?
    && Renders(v, ReceivedBytes(at.delivery.chunks, parse))
    && AllText(logs) == ContentOf(v)
  }

  /** An assistant message with the text received, if any, and the calls received, if any; and the finish
      reason and usage received. */
  predicate Renders(v: Streamed, a: Acc)
  {
    && v.finish == a.finish && v.usage == a.usage
    && v.message.role.Assistant? && v.message.toolCallId.None?
    && v.message.content == (if a.content != "" then Some(Text(a.content)) else None)
    && (v.message.toolCalls.Some? <==> |a.calls| > 0)
    && |CallsOf(v.message)| == |a.calls|
    && forall i | 0 <= i < |a.calls| ::
         CallsOf(v.message)[i] == ToolCall(a.calls[i].id, a.calls[i].name, a.calls[i].arguments)
  }

  /** The last attempt failed, the policy had no retry left for its error, and that error is `e`. */
  predicate Failure(attempts: nat -> Attempt, logs: seq<Log>, errors: seq<StreamError>, e: StreamError)
    requires logs != []
  {
    && FailureOf(attempts(|logs| - 1)).Some?
    && |errors| == |logs| && errors[|logs| - 1] == e
    && Hardened(FailureOf(attempts(|logs| - 1)).value, logs[|logs| - 1].emitted, e)
  }

  /** After partial output a retryable failure is reported as a fatal one without a body; any other as it is. */
  predicate Hardened(f: StreamError, emitted: bool, e: StreamError)
  {
    if emitted && f.Retryable?
    then e == Fatal("mid-stream error after partial output emitted; cannot retry safely" + ": " + f.message, None)
    else e == f
  }

  lemma {:induction false} Succeeds(attempts: nat -> Attempt, parse: Parser, logs: seq<Log>, sleeps: seq<nat>, errors: seq<StreamError>,
                 s: RetryState, log: Log, v: Streamed)
    requires Retrying(attempts, logs, sleeps, errors, s)
    requires var at := attempts(|logs|);
      at.Answered? && FailureOf(at).None? && v == Finished(ReceivedBytes(at.delivery.chunks, parse))
    requires Concat(log.texts) == ContentOf(v)
    ensures Over(attempts, logs + [log], sleeps, errors) && Success(attempts, parse, logs + [log], v)
  {
    RetriedSoFar(attempts, logs, log);
    PolicyRunBounds(errors, sleeps);
    PolicyPauses(errors, sleeps);
    SilentPrefix(logs + [log]);
  }

  lemma {:induction false} GoesOn(attempts: nat -> Attempt, logs: seq<Log>, sleeps: seq<nat>, errors: seq<StreamError>, s: RetryState,
               log: Log, e: StreamError, delay: nat, s': RetryState)
    requires Retrying(attempts, logs, sleeps, errors, s) && (!log.emitted ==> Silent(log))
    requires FailureOf(attempts(|logs|)).Some? && e == Harden(FailureOf(attempts(|logs|)).value, log.emitted)
    requires e.Retryable? && Slept(errors + [e], sleeps + [delay], s')
    ensures Retrying(attempts, logs + [log], sleeps + [delay], errors + [e], s')
  {
    RetriedSoFar(attempts, logs, log);
  }

  lemma {:induction false} GivesUp(attempts: nat -> Attempt, logs: seq<Log>, sleeps: seq<nat>, errors: seq<StreamError>, s: RetryState,
                log: Log, e: StreamError)
    requires Retrying(attempts, logs, sleeps, errors, s)
    requires FailureOf(attempts(|logs|)).Some? && e == Harden(FailureOf(attempts(|logs|)).value, log.emitted)
    requires PolicyRun(errors + [e], sleeps)
    ensures Over(attempts, logs + [log], sleeps, errors + [e]) && Failure(attempts, logs + [log], errors + [e], e)
  {
    GivesUpInTime(attempts, logs, sleeps, errors, s, log, e);
    FailsWith(attempts, logs, errors, log, e);
  }

  lemma {:induction false} GivesUpInTime(attempts: nat -> Attempt, logs: seq<Log>, sleeps: seq<nat>, errors: seq<StreamError>, s: RetryState,
                log: Log, e: StreamError)
    requires Retrying(attempts, logs, sleeps, errors, s)
    requires FailureOf(attempts(|logs|)).Some? && e == Harden(FailureOf(attempts(|logs|)).value, log.emitted)
    requires PolicyRun(errors + [e], sleeps)
    ensures Over(attempts, logs + [log], sleeps, errors + [e])
  {
    RetriedSoFar(attempts, logs, log);
    PolicyRunBounds(errors + [e], sleeps);
    PolicyPauses(errors + [e], sleeps);
    SeenSnoc(attempts, logs, errors, log, e);
  }

  lemma {:induction false} SeenSnoc(attempts: nat -> Attempt, logs: seq<Log>, errors: seq<StreamError>, log: Log, e: StreamError)
    requires Seen(attempts, logs, errors) && |errors| == |logs|
    requires FailureOf(attempts(|logs|)).Some? && e == Harden(FailureOf(attempts(|logs|)).value, log.emitted)
    ensures Seen(attempts, logs + [log], errors + [e])
  {
  }

  lemma {:induction false} FailsWith(attempts: nat -> Attempt, logs: seq<Log>, errors: seq<StreamError>, log: Log, e: StreamError)
    requires |errors| == |logs|
    requires FailureOf(attempts(|logs|)).Some? && e == Harden(FailureOf(attempts(|logs|)).value, log.emitted)
    ensures Failure(attempts, logs + [log], errors + [e], e)
  {
    HardenMeans(FailureOf(attempts(|logs|)).value, log.emitted);
  }

  lemma {:induction false} HardenMeans(f: StreamError, emitted: bool)
    ensures Hardened(f, emitted, Harden(f, emitted))
  {
  }

  /**
   * The retry loop. `logs` is what each attempt let through. Whatever the attempts do, all but the last are
   * silent, so no text or tool delta is ever followed by another attempt; on success the text callbacks
   * over all attempts add up to the returned content; there are at most five attempts, and the pauses
   * between them are exactly those due after these failures, 30 seconds in all at most.
   */
  method Complete(attempts: nat -> Attempt, parse: Parser)
    returns (r: Result<Streamed, StreamError>, logs: seq<Log>, sleeps: seq<nat>, errors: seq<StreamError>)
    ensures Logged(attempts, parse, logs)
    ensures Over(attempts, logs, sleeps, errors)
    ensures match r
      case Ok(v) => Success(attempts, parse, logs, v)
      case Err(e) => Failure(attempts, logs, errors, e)
  {
    var policy := new RetryPolicy();
    logs, sleeps, errors := [], [], [];
    while true
      invariant fresh(policy) && Retrying(attempts, logs, sleeps, errors, policy.State())
      invariant Logged(attempts, parse, logs)
      decreases 5 - |sleeps|
    {
      ghost var s := policy.State();
      var log, outcome := TryOnce(attempts(|logs|), parse);
      LoggedSnoc(attempts, parse, logs, log);
      if outcome.Ok? {
        Succeeds(attempts, parse, logs, sleeps, errors, s, log, outcome.value);
        return outcome, logs + [log], sleeps, errors;
      }
      var e := Harden(outcome.error, log.emitted);
      var delay := HandleFailure(policy, e, errors, sleeps);
      if delay.None? {
        GivesUp(attempts, logs, sleeps, errors, s, log, e);
        return Err(e), logs + [log], sleeps, errors + [e];
      }
      GoesOn(attempts, logs, sleeps, errors, s, log, e, delay.value, policy.State());
      logs, sleeps, errors := logs + [log], sleeps + [delay.value], errors + [e];
    }
  }
}
