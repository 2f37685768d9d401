/** `agentic_loop::run`: the loop between the model, the tools and the ACP tunnel as the imperative code it
    is, and all that is promised of a turn. */
module AgenticLoop {
  import opened Prelude
  import opened Conversation
  import opened Compaction
  import opened Turns
  import opened TurnJournal
  import opened TurnEnvironment

  class Turn {
    var messages: seq<Message>
    var journal: seq<Event>
    var usedInput: nat
    var usedOutput: nat
    var silentTurns: nat
    var compactions: nat

    function Now(): Vars
      reads this
    {
      Vars(messages, silentTurns, compactions, usedInput, usedOutput)
    }

    constructor (initial: seq<Message>)
      ensures Now() == Vars(initial, 0, 0, 0, 0) && journal == []
    {
      messages, journal, usedInput, usedOutput, silentTurns, compactions := initial, [], 0, 0, 0, 0;
    }

    method Emit(e: Event)
      modifies this`journal
      ensures journal == old(journal) + [e]
    {
      journal := journal + [e];
    }

    method Push(m: Message)
      modifies this`journal, this`messages
      ensures messages == old(messages) + [m] && journal == old(journal) + [Pushed(m)]
    {
      messages := messages + [m];
      Emit(Pushed(m));
    }

    /** A final notice to the user; the one kind of ACP call whose failure aborts the turn. */
    method Notice(text: string, fails: bool) returns (flow: Flow)
      modifies this`journal
      ensures flow == NoticeFlow(fails) && journal == old(journal) + [TextDelta(text)]
    {
      Emit(TextDelta(text));
      flow := if fails then Fail("write") else Break;
    }

    /** Timeout, heartbeat and quota: whether the iteration goes on. */
    method Gate(env: Env) returns (flow: Flow)
      modifies this`journal
      ensures flow == if Stopped(env) then NoticeFlow(env.noticeFails) else Continue
      ensures journal == old(journal) + GateEvents(env)
    {
      if env.timedOut {
        flow := Notice(TIMED_OUT, env.noticeFails);
        return;
      }
      if env.heartbeatDue {
        Emit(Heartbeat);
      }
      Emit(QuotaCheck);
      flow := Continue;
      if env.quota == Some(false) {
        flow := Notice(QUOTA_EXHAUSTED, env.noticeFails);
      }
    }

    /**
     * The compaction check: tried only over the threshold and below the limit; the history becomes the
     * working list; only a non-empty summary is announced and counted; a failing summary call ends the
     * turn and changes nothing.
     */
    method CompactIfNeeded(config: Config, env: Env) returns (flow: Flow, ghost r: Result<CompactionResult, string>)
      requires !Stopped(env)
      modifies this`journal, this`messages, this`compactions
      ensures CompactedAs(config, env, old(Now()), r)
      ensures match r
        case Err(e) => flow == Fail(e) && Now() == old(Now()) && journal == old(journal)
        case Ok(c) =>
          && flow.Continue? && messages == c.working
          && compactions == old(compactions) + (if c.summary != "" then 1 else 0)
          && journal == old(journal) + AnnouncementOf(c, usedInput, usedOutput)
    {
      flow, r := Continue, Ok(CompactionResult(messages, messages, ""));
      if env.overThreshold && compactions < config.maxCompactions {
        var done := CompactMessages(messages, config.keepRecent, env.summary);
        r := done;
        if done.Err? {
          return Fail(done.error), done;
        }
        if done.value.summary != "" {
          Emit(ContextCompacted(done.value.summary, done.value.canonical, usedInput, usedOutput));
          compactions := compactions + 1;
        }
        messages := done.value.working;
      }
    }

    /** The wind-down warning and the silence nudge, when due. */
    method RemindIfDue(config: Config, iteration: nat)
      requires iteration < config.maxIterations
      modifies this`journal, this`messages, this`silentTurns
      ensures messages == old(messages) + Reminders(config, iteration, old(silentTurns))
      ensures journal == old(journal) + Pushes(Reminders(config, iteration, old(silentTurns)))
      ensures silentTurns == if old(silentTurns) >= SILENCE_LIMIT then 0 else old(silentTurns)
    {
      PushesOfReminders(config, iteration, silentTurns);
      if config.maxIterations - iteration == WIND_DOWN_ITERS {
        Push(SystemMessage(WIND_DOWN));
      }
      if silentTurns >= SILENCE_LIMIT {
        Push(SystemMessage(SILENCE_NUDGE));
        silentTurns := 0;
      }
    }

    /** The collected text, without the empty deltas. */
    method StreamDeltas(deltas: seq<string>)
      modifies this`journal
      ensures journal == old(journal) + DeltaEvents(deltas)
    {
      for i := 0 to |deltas|
        invariant journal == old(journal) + DeltaEvents(deltas[..i])
      {
        DeltaEventsSnoc(old(journal), deltas, i);
        if deltas[i] != "" {
          Emit(TextDelta(deltas[i]));
        }
      }
      assert deltas[..|deltas|] == deltas;
    }

    /** Usage goes into the totals and out as one quota update. */
    method Account(u: Option<Usage>)
      modifies this`journal, this`usedInput, this`usedOutput
      ensures journal == old(journal) + UsageEvents(u)
      ensures usedInput == old(usedInput) + if u.Some? then u.value.promptTokens else 0
      ensures usedOutput == old(usedOutput) + if u.Some? then u.value.completionTokens else 0
    {
      if u.Some? {
        usedInput := usedInput + u.value.promptTokens;
        usedOutput := usedOutput + u.value.completionTokens;
        Emit(QuotaUpdate(u.value.promptTokens, u.value.completionTokens));
      }
    }

    /** One tool call: announced, answered, and recorded, whether or not its arguments parse. */
    method ServeCall(c: ToolCall, outcome: ToolOutcome)
      modifies this`journal, this`messages
      ensures messages == old(messages) + [ReplyTo(c, outcome)] && journal == old(journal) + CallEvents(c, outcome)
    {
      match outcome {
        case BadArguments(error) =>
          Bracket(c, "Invalid tool arguments: " + c.name, false, Text(error), true);
        case Ran(viaTunnel, Ok(content)) =>
          Bracket(c, "Running tool: " + c.name, viaTunnel, content, false);
        case Ran(viaTunnel, Err(error)) =>
          Bracket(c, "Running tool: " + c.name, viaTunnel, Text("Error: " + error), true);
      }
    }

    method Bracket(c: ToolCall, activity: string, viaTunnel: bool, content: Content, isError: bool)
      modifies this`journal, this`messages
      ensures messages == old(messages) + [ToolReply(c.id, content)]
      ensures journal == old(journal)
        + ([Activity(activity), ToolCallSent(c.id, c.name)] + (if viaTunnel then [ToolsCall(c.name)] else [])
           + [ToolResultSent(c.id, content, isError), Pushed(ToolReply(c.id, content))])
    {
      Emit(Activity(activity));
      Emit(ToolCallSent(c.id, c.name));
      if viaTunnel {
        Emit(ToolsCall(c.name));
      }
      Emit(ToolResultSent(c.id, content, isError));
      Push(ToolReply(c.id, content));
    }

    /** Every call in order, one reply each. */
    method ServeCalls(calls: seq<ToolCall>, tools: nat -> ToolOutcome)
      modifies this`journal, this`messages
      ensures journal == old(journal) + CallsEvents(calls, tools)
      ensures messages == old(messages) + Replies(calls, tools)
    {
      for k := 0 to |calls|
        invariant journal == old(journal) + CallsEvents(calls[..k], tools)
        invariant messages == old(messages) + Replies(calls[..k], tools)
      {
        CallsStep(old(journal), old(messages), calls, tools, k);
        ServeCall(calls[k], tools(k));
      }
      assert calls[..|calls|] == calls;
    }

    /** Take in a model reply: usage, the message and its calls, then the stop reason. */
    method Digest(s: Streamed, env: Env) returns (flow: Flow)
      modifies this`journal, this`messages, this`usedInput, this`usedOutput, this`silentTurns
      ensures flow == FlowAfter(s, env.noticeFails)
      ensures Now() == Digested(old(Now()), s, env.tools) && journal == old(journal) + DigestEvents(s, env.tools)
    {
      Account(s.usage);
      silentTurns := if s.message.content.Some? || s.message.toolCalls.Some? then 0 else silentTurns + 1;
      Push(s.message);
      if s.message.toolCalls.Some? {
        ServeCalls(s.message.toolCalls.value, env.tools);
      }
      flow := Conclude(s, env.noticeFails);
      DigestedJournal(old(journal), s, env.tools);
      Associate(old(messages), [s.message], Replies(CallsOf(s.message), env.tools));
    }

    /** Tool calls go back to the model; otherwise the stop reason decides. */
    method Conclude(s: Streamed, fails: bool) returns (flow: Flow)
      modifies this`journal
      ensures flow == FlowAfter(s, fails) && journal == old(journal) + NoticeEvents(s)
    {
      if s.message.toolCalls.Some? {
        return Continue;
      }
      match s.finish {
        case None => flow := Break;
        case Some(Stop) => flow := Break;
        case Some(Length) => flow := Notice(TRUNCATED, fails);
        case Some(ContentFilter) => flow := Notice(FILTERED, fails);
        case Some(ToolCalls) => flow := Continue;
      }
    }

    /** Asking the model and taking in what it says. */
    method Ask(env: Env) returns (flow: Flow)
      modifies this`journal, this`messages, this`usedInput, this`usedOutput, this`silentTurns
      ensures flow == if env.reply.Ok? then FlowAfter(env.reply.value, env.noticeFails) else NoticeFlow(env.noticeFails)
      ensures Now() == if env.reply.Ok? then Digested(old(Now()), env.reply.value, env.tools) else old(Now())
      ensures journal == old(journal) + [Asked(old(messages))] + DeltaEvents(env.deltas) + ReplyEvents(env)
    {
      Emit(Asked(messages));
      StreamDeltas(env.deltas);
      match env.reply {
        case Err(e) => flow := Notice(LlmError(e), env.noticeFails);
        case Ok(s) => flow := Digest(s, env);
      }
    }

    /** Everything before the model is asked. */
    method Prepare(config: Config, env: Env, k: nat) returns (flow: Flow, ghost r: Result<CompactionResult, string>)
      requires k < config.maxIterations
      modifies this`journal, this`messages, this`compactions, this`silentTurns
      ensures CompactedAs(config, env, old(Now()), r)
      ensures if Asks(env, r) then
          && flow.Continue? && Now() == Prepared(config, k, old(Now()), r.value)
          && journal == old(journal) + GateEvents(env) + AnnouncementOf(r.value, usedInput, usedOutput)
                        + Pushes(Reminders(config, k, old(silentTurns)))
        else flow == IterFlow(env, r) && Now() == old(Now()) && journal == old(journal) + GateEvents(env)
    {
      r := Ok(CompactionResult(messages, messages, ""));
      flow := Gate(env);
      if !flow.Continue? {
        return;
      }
      flow, r := CompactIfNeeded(config, env);
      if !flow.Continue? {
        return;
      }
      RemindIfDue(config, k);
    }

    /** One iteration: gate, compaction, reminders, and the model. */
    method Iterate(config: Config, env: Env, k: nat) returns (flow: Flow, ghost r: Result<CompactionResult, string>)
      requires k < config.maxIterations
      modifies this
      ensures CompactedAs(config, env, old(Now()), r) && flow == IterFlow(env, r)
      ensures Now() == IterVars(config, env, k, old(Now()), r)
      ensures journal == old(journal) + IterEvents(config, env, k, old(Now()), r)
    {
      flow, r := Prepare(config, env, k);
      IterJournal(old(journal), config, env, k, old(Now()), r);
      if flow.Continue? {
        flow := Ask(env);
      }
    }

    /** The iterations, and the error that cut them off, if one did. */
    method Loop(config: Config, env: nat -> Env) returns (failed: Option<string>, ghost rs: Checks)
      modifies this
      ensures Happened(config, env, old(Now()), rs) && Ended(config, env, rs) && failed == FailureOf(env, rs)
      ensures Now() == TurnVars(config, env, old(Now()), rs)
      ensures journal == old(journal) + TurnEvents(config, env, old(Now()), rs)
    {
      ghost var v := Now();
      rs := [];
      for k := 0 to config.maxIterations
        invariant |rs| == k && Happened(config, env, v, rs) && Now() == TurnVars(config, env, v, rs)
        invariant journal == old(journal) + TurnEvents(config, env, v, rs)
        invariant k > 0 ==> IterFlow(env(k - 1), rs[k - 1]).Continue?
      {
        ghost var r;
        var flow;
        flow, r := Iterate(config, env(k), k);
        TurnSnoc(old(journal), config, env, v, rs, r);
        rs := rs + [r];
        if flow.Fail? {
          return Some(flow.error), rs;
        }
        if flow.Break? {
          return None, rs;
        }
      }
      return None, rs;
    }

    /**
     * A whole turn, from the counters `run` starts with. The journal is exactly that of the iterations
     * that happened, in order, and on success one `turn/end` with the final counters. Read for
     * messages, it holds for every iteration that asked the model the reminders due, the reply and one
     * answer per call; read for tool calls, it holds for every call of every reply its announcement,
     * its result and its reply message; and the counters are the sums over all quota updates. Where it
     * ends, what it asks and says and how it fails is as the environment dictates.
     */
    method Run(config: Config, env: nat -> Env) returns (r: Result<(), string>, ghost rs: Checks)
      requires journal == [] && silentTurns == compactions == usedInput == usedOutput == 0
      modifies this
      ensures Happened(config, env, old(Now()), rs) && Ended(config, env, rs)
      ensures Now() == TurnVars(config, env, old(Now()), rs)
      ensures journal == JournalOf(config, env, old(Now()), rs, r.Ok?)
      ensures r == match FailsWith(env, rs) case Some(e) => Err(e) case None => Ok(())
      ensures AsPromised(config, env, old(Now()), rs, journal, Now(), r.Ok?)
    {
      ghost var v := Now();
      var failed;
      failed, rs := Loop(config, env);
      JournalSoFar(config, env, v, rs);
      TurnComesTo(config, env, v, rs, failed.None?);
      if failed.Some? {
        return Err(failed.value), rs;
      }
      Emit(TurnEnd(usedInput, usedOutput));
      return Ok(()), rs;
    }
  }

  lemma {:induction false} JournalSoFar(config: Config, env: nat -> Env, v: Vars, rs: Checks)
    ensures var es, w := TurnEvents(config, env, v, rs), TurnVars(config, env, v, rs);
      && [] + es == JournalOf(config, env, v, rs, false)
      && [] + es + [TurnEnd(w.input, w.output)] == JournalOf(config, env, v, rs, true)
  {
  }

  /**
   * All that is promised of the journal of a turn and of what it leaves. Whatever happens: `turn/end` comes
   * once, last and with the final counters, if the turn succeeds, and else not at all; and the turn is as
   * the environment dictates. If no reply is itself a tool message, the journal is faithful to the
   * iterations. From a grouped history and replies with distinct ids, everything asked, announced and left
   * is grouped; from one with scaffolding only in front, nothing announced is scaffolding.
   */
  ghost predicate AsPromised(config: Config, env: nat -> Env, v: Vars, rs: Checks, journal: seq<Event>, w: Vars, ok: bool)
  {
    && EndsOnce(journal, ok) && (ok ==> EndsWith(journal, w.input, w.output))
    && AsDictated(config, env, v, rs, journal, w)
    && (NoToolReplies(env, |rs|) ==> Faithful(config, env, v, rs, journal, w))
    && (RepliesOk(env, |rs|) && Grouped(v.messages) ==> Grouped(w.messages) && AllGrouped(journal))
    && (RepliesClean(env, |rs|) && ScaffoldInFront(v.messages) ==> ScaffoldInFront(w.messages) && AllClean(journal))
  }

  /** Every turn that can happen keeps all of it, and fails as its last iteration does. */
  lemma {:induction false} TurnComesTo(config: Config, env: nat -> Env, v: Vars, rs: Checks, ok: bool)
    requires Happened(config, env, v, rs) && Ended(config, env, rs) && v.silentTurns == 0
    ensures AsPromised(config, env, v, rs, JournalOf(config, env, v, rs, ok), TurnVars(config, env, v, rs), ok)
    ensures FailureOf(env, rs) == FailsWith(env, rs)
  {
    var es, w := TurnEvents(config, env, v, rs), TurnVars(config, env, v, rs);
    NoTurnEndInside(config, env, v, rs);
    EndAdded(es, TurnEnd(w.input, w.output), ok);
    JournalIsDictated(config, env, v, rs, ok);
    if NoToolReplies(env, |rs|) {
      TurnIsFaithful(config, env, v, rs);
      EndIsQuiet(config, env, v, rs, es, w);
    }
    if RepliesOk(env, |rs|) && Grouped(v.messages) {
      TurnKeepsGrouped(config, env, v, rs);
    }
    if RepliesClean(env, |rs|) && ScaffoldInFront(v.messages) {
      TurnKeepsClean(config, env, v, rs);
    }
  }

  lemma {:induction false} EndAdded(es: seq<Event>, e: Event, ok: bool)
    requires e.TurnEnd? && forall x | x in es :: !x.TurnEnd?
    ensures var j := es + if ok then [e] else [];
      && EndsOnce(j, ok) && (ok ==> j == es + [e]) && (!ok ==> j == es)
      && (AllGrouped(es) ==> AllGrouped(j)) && (AllClean(es) ==> AllClean(j))
  {
    var j := es + if ok then [e] else [];
    if ok {
      assert j[..|j| - 1] == es;
    } else {
      assert j == es;
    }
  }

  /** The journal ends with its only `turn/end`, or has none. */
  predicate EndsOnce(journal: seq<Event>, ok: bool)
  {
    if ok then
      && journal != [] && journal[|journal| - 1].TurnEnd?
      && forall e | e in journal[..|journal| - 1] :: !e.TurnEnd?
    else forall e | e in journal :: !e.TurnEnd?
  }

  /** What a journal says of the iterations `rs`, whichever way it is read, and what is left at the end. */
  ghost predicate Faithful(config: Config, env: nat -> Env, v: Vars, rs: Checks, journal: seq<Event>, w: Vars)
  {
    && Collect(journal, PushedBy) == TurnPushed(config, env, v, rs)
    && Collect(journal, MarksOf) == TurnMarks(env, rs)
    && Collect(journal, ReportedIn) == TurnUsage(env, rs)
    && w.input == v.input + InputSum(Collect(journal, ReportedIn))
    && w.output == v.output + OutputSum(Collect(journal, ReportedIn))
    && (v.compactions <= config.maxCompactions ==> v.compactions + |Collect(journal, AnnouncedBy)| <= config.maxCompactions)
    && exists front: nat, from: nat :: KeepsTail(w.messages, v.messages + Collect(journal, PushedBy), front, from)
  }

  lemma {:induction false} TurnIsFaithful(config: Config, env: nat -> Env, v: Vars, rs: Checks)
    requires Happened(config, env, v, rs) && NoToolReplies(env, |rs|)
    ensures Faithful(config, env, v, rs, TurnEvents(config, env, v, rs), TurnVars(config, env, v, rs))
  {
    TurnLeaves(config, env, v, rs);
    TurnCounts(config, env, v, rs);
    if v.compactions <= config.maxCompactions {
      TurnAnnounces(config, env, v, rs);
    }
    var front, from := TurnKeepsTail(config, env, v, rs);
  }

  lemma {:induction false} EndIsQuiet(config: Config, env: nat -> Env, v: Vars, rs: Checks, es: seq<Event>, w: Vars)
    requires Faithful(config, env, v, rs, es, w)
    ensures Faithful(config, env, v, rs, es + [TurnEnd(w.input, w.output)], w)
  {
    var e := TurnEnd(w.input, w.output);
    CollectSnoc(es, e, PushedBy);
    CollectSnoc(es, e, MarksOf);
    CollectSnoc(es, e, ReportedIn);
    CollectSnoc(es, e, AnnouncedBy);
  }

  lemma {:induction false} PushesOfReminders(config: Config, k: nat, silentTurns: nat)
    ensures Pushes(Reminders(config, k, silentTurns)) ==
      (if config.maxIterations == k + WIND_DOWN_ITERS then [Pushed(SystemMessage(WIND_DOWN))] else [])
      + (if silentTurns >= SILENCE_LIMIT then [Pushed(SystemMessage(SILENCE_NUDGE))] else [])
  {
    var w := if config.maxIterations == k + WIND_DOWN_ITERS then [SystemMessage(WIND_DOWN)] else [];
    PushesOfOne(SystemMessage(WIND_DOWN));
    if silentTurns >= SILENCE_LIMIT {
      assert (w + [SystemMessage(SILENCE_NUDGE)])[..|w|] == w;
    } else {
      assert w + [] == w;
    }
  }

  lemma {:induction false} PushesOfOne(m: Message)
    ensures Pushes([m]) == [Pushed(m)]
  {
    assert [m][..0] == [];
  }

  lemma {:induction false} CallsStep(j: seq<Event>, h: seq<Message>, calls: seq<ToolCall>, tools: nat -> ToolOutcome, k: nat)
    requires k < |calls|
    ensures j + CallsEvents(calls[..k + 1], tools) == (j + CallsEvents(calls[..k], tools)) + CallEvents(calls[k], tools(k))
    ensures h + Replies(calls[..k + 1], tools) == (h + Replies(calls[..k], tools)) + [ReplyTo(calls[k], tools(k))]
  {
    var cs := calls[..k + 1];
    assert cs[..k] == calls[..k];
    Associate(j, CallsEvents(calls[..k], tools), CallEvents(calls[k], tools(k)));
    RepliesSnoc(cs, tools);
    Associate(h, Replies(calls[..k], tools), [ReplyTo(calls[k], tools(k))]);
  }

  lemma {:induction false} DeltaEventsSnoc(j: seq<Event>, deltas: seq<string>, k: nat)
    requires k < |deltas|
    ensures j + DeltaEvents(deltas[..k + 1])
         == if deltas[k] != "" then (j + DeltaEvents(deltas[..k])) + [TextDelta(deltas[k])] else j + DeltaEvents(deltas[..k])
  {
    var d := DeltaEvents(deltas[..k]);
    assert deltas[..k + 1][..k] == deltas[..k];
    if deltas[k] != "" {
      Associate(j, d, [TextDelta(deltas[k])]);
    } else {
      assert d + [] == d;
    }
  }

  lemma {:induction false} DigestedJournal(j: seq<Event>, s: Streamed, tools: nat -> ToolOutcome)
    ensures var u, c, n := UsageEvents(s.usage), CallsEvents(CallsOf(s.message), tools), NoticeEvents(s);
      j + DigestEvents(s, tools) == j + u + [Pushed(s.message)] + c + n
  {
    var u, p, c, n := UsageEvents(s.usage), [Pushed(s.message)], CallsEvents(CallsOf(s.message), tools), NoticeEvents(s);
    Associate(j, u + p + c, n);
    Associate(j, u + p, c);
    Associate(j, u, p);
  }

  lemma {:induction false} IterJournal(j: seq<Event>, config: Config, env: Env, k: nat, v: Vars, r: Result<CompactionResult, string>)
    ensures j + IterEvents(config, env, k, v, r) ==
      if Asks(env, r) then
        j + GateEvents(env) + AnnouncementOf(r.value, v.input, v.output) + Pushes(Reminders(config, k, v.silentTurns))
        + [Asked(AskedWith(config, k, v, r.value))] + DeltaEvents(env.deltas) + ReplyEvents(env)
      else j + GateEvents(env)
  {
    var g := GateEvents(env);
    if Asks(env, r) {
      var n, p := AnnouncementOf(r.value, v.input, v.output), Pushes(Reminders(config, k, v.silentTurns));
      var a, d, y := [Asked(AskedWith(config, k, v, r.value))], DeltaEvents(env.deltas), ReplyEvents(env);
      Associate(j, g, n + p + a + d + y);
      AssociateFive(j + g, n, p, a, d, y);
    } else {
      assert g + [] == g;
    }
  }

  lemma {:induction false} AssociateFive(j: seq<Event>, n: seq<Event>, p: seq<Event>, a: seq<Event>, d: seq<Event>, y: seq<Event>)
    ensures j + (n + p + a + d + y) == j + n + p + a + d + y
  {
    Associate(j, n + p + a + d, y);
    Associate(j, n + p + a, d);
    Associate(j, n + p, a);
    Associate(j, n, p);
  }

  lemma {:induction false} TurnSnoc(j: seq<Event>, config: Config, env: nat -> Env, v: Vars, rs: Checks, r: Result<CompactionResult, string>)
    requires Happened(config, env, v, rs) && CompactedAs(config, env(|rs|), TurnVars(config, env, v, rs), r)
    requires rs != [] ==> IterFlow(env(|rs| - 1), rs[|rs| - 1]).Continue?
    ensures Happened(config, env, v, rs + [r])
    ensures TurnVars(config, env, v, rs + [r]) == IterVars(config, env(|rs|), |rs|, TurnVars(config, env, v, rs), r)
    ensures j + TurnEvents(config, env, v, rs + [r])
         == (j + TurnEvents(config, env, v, rs)) + IterEvents(config, env(|rs|), |rs|, TurnVars(config, env, v, rs), r)
  {
    assert (rs + [r])[..|rs|] == rs;
    Associate(j, TurnEvents(config, env, v, rs), IterEvents(config, env(|rs|), |rs|, TurnVars(config, env, v, rs), r));
  }
}
