/** A turn said from its environment alone: where it ends, how it fails, how its history unfolds, and what
    the model, the user and the operator get to see. */
module TurnEnvironment {
  import opened Prelude
  import opened Conversation
  import opened Compaction
  import opened Turns
  import opened TurnJournal

  // ---------- What the environment makes of a turn ----------

  /** An iteration that lets the turn go no further: out of time or quota, a summary or model call that
      fails, or a reply that neither calls a tool nor says so. */
  predicate Closing(e: Env, c: Result<CompactionResult, string>)
  {
    || e.timedOut || e.quota == Some(false) || c.Err? || e.reply.Err?
    || (e.reply.value.message.toolCalls.None? && e.reply.value.finish != Some(ToolCalls))
  }

  /** An iteration is the last one if and only if it is closing or the limit is reached. */
  predicate EndsAtClosing(config: Config, env: nat -> Env, rs: Checks)
  {
    && (rs == [] <==> config.maxIterations == 0)
    && forall k: nat | k < |rs| ::
         k + 1 == |rs| <==> k + 1 == config.maxIterations || Closing(env(k), rs[k])
  }

  /** The compaction checks that fail are those of a summary call that was needed and failed. */
  ghost predicate CheckedBy(config: Config, e: Env, before: Vars, c: Result<CompactionResult, string>)
  {
    if !e.timedOut && e.quota != Some(false) && e.overThreshold && before.compactions < config.maxCompactions
    then Condensed(before.messages, config.keepRecent, e.summary, c)
    else c == Ok(CompactionResult(before.messages, before.messages, ""))
  }

  /** The error an iteration ends the turn with: of the summary call, or of sending a notice. */
  function ErrorOf(e: Env, c: Result<CompactionResult, string>): Option<string>
  {
    var notice := if e.noticeFails then Some("write") else None;
    if e.timedOut || e.quota == Some(false) then notice
    else if c.Err? then Some(c.error)
    else
      match e.reply
      case Err(_) => notice
      case Ok(s) =>
        if s.message.toolCalls.None? && (s.finish == Some(Length) || s.finish == Some(ContentFilter)) then notice else None
  }

  /** The notice when there is no time or quota left. */
  function RefusalIn(e: Env): seq<string>
  {
    if e.timedOut then ["\n\n[Session timed out]"]
    else if e.quota == Some(false) then ["\n\n[Quota exhausted]"]
    else []
  }

  /** The notice when the model fails, or stops for the wrong reason. */
  function NoticeIn(reply: Result<Streamed, string>): seq<string>
  {
    match reply
    case Err(error) => ["\n\n[LLM error: " + error + "]"]
    case Ok(s) =>
      if s.message.toolCalls.Some? then []
      else if s.finish == Some(Length) then ["\n\n[Response truncated due to length limit]"]
      else if s.finish == Some(ContentFilter) then ["\n\n[Content filtered]"]
      else []
  }

  /** All the user reads in an iteration: the non-empty deltas, and a notice if something is wrong. */
  function ReadIn(e: Env, c: Result<CompactionResult, string>): seq<string>
  {
    if e.timedOut || e.quota == Some(false) then RefusalIn(e)
    else if c.Err? then []
    else Filter(e.deltas, (t: string) => t != "") + NoticeIn(e.reply)
  }

  /** What the user reads in the iterations of a turn. */
  function TurnTexts(env: nat -> Env, rs: Checks): seq<string>
  {
    if rs == [] then [] else var k := |rs| - 1; TurnTexts(env, rs[..k]) + ReadIn(env(k), rs[k])
  }

  function TextIn(e: Event): seq<string>
  {
    if e.TextDelta? then [e.text] else []
  }

  /** The operator's side of an iteration: no call at all once the time is up. */
  function UpkeepIn(e: Env): seq<Event>
  {
    if e.timedOut then [] else if e.heartbeatDue then [Heartbeat, QuotaCheck] else [QuotaCheck]
  }

  function TurnUpkeep(env: nat -> Env, rs: Checks): seq<Event>
  {
    if rs == [] then [] else var k := |rs| - 1; TurnUpkeep(env, rs[..k]) + UpkeepIn(env(k))
  }

  function Upkeep(e: Event): seq<Event>
  {
    if e.Heartbeat? || e.QuotaCheck? then [e] else []
  }

  /** What is told about one tool call: bad arguments are an error and run nothing; a call that lives at
      the operator goes through the tunnel; a failing tool is an error in its own words. */
  function TrailOf(c: ToolCall, o: ToolOutcome): seq<Event>
  {
    match o
    case BadArguments(error) =>
      [Activity("Invalid tool arguments: " + c.name), ToolCallSent(c.id, c.name), ToolResultSent(c.id, Text(error), true)]
    case Ran(viaTunnel, result) =>
      [Activity("Running tool: " + c.name), ToolCallSent(c.id, c.name)]
      + (if viaTunnel then [ToolsCall(c.name)] else [])
      + [match result
         case Ok(content) => ToolResultSent(c.id, content, false)
         case Err(error) => ToolResultSent(c.id, Text("Error: " + error), true)]
  }

  function TrailOfCalls(cs: seq<ToolCall>, tools: nat -> ToolOutcome): seq<Event>
  {
    if cs == [] then [] else var k := |cs| - 1; TrailOfCalls(cs[..k], tools) + TrailOf(cs[k], tools(k))
  }

  /** Whether an iteration gets to hear from the model. */
  predicate Heard(e: Env, c: Result<CompactionResult, string>)
  {
    !e.timedOut && e.quota != Some(false) && c.Ok? && e.reply.Ok?
  }

  function TurnTrail(env: nat -> Env, rs: Checks): seq<Event>
  {
    if rs == [] then []
    else
      var k := |rs| - 1;
      TurnTrail(env, rs[..k])
      + if Heard(env(k), rs[k]) && env(k).reply.value.message.toolCalls.Some?
        then TrailOfCalls(env(k).reply.value.message.toolCalls.value, env(k).tools) else []
  }

  function Trail(e: Event): seq<Event>
  {
    if e.Activity? || e.ToolCallSent? || e.ToolsCall? || e.ToolResultSent? then [e] else []
  }

  predicate Silent(e: Env)
  {
    e.reply.Ok? && e.reply.value.message.content.None? && e.reply.value.message.toolCalls.None?
  }

  /** How many replies in a row were silent just before iteration `k`. */
  function SilentRun(env: nat -> Env, k: nat): nat
  {
    if k == 0 || !Silent(env(k - 1)) then 0 else 1 + SilentRun(env, k - 1)
  }

  /** The reminders of iteration `k`: one when five are left, one after every third silent reply in a row. */
  function Due(config: Config, env: nat -> Env, k: nat): seq<Message>
  {
    (if k + 5 == config.maxIterations then [Message(System, Some(Text(WIND_DOWN)), None, None)] else [])
    + (if SilentRun(env, k) > 0 && SilentRun(env, k) % 3 == 0
       then [Message(System, Some(Text(SILENCE_NUDGE)), None, None)] else [])
  }

  /** The two reminders in full, each as a head and the rest. */
  lemma {:induction false} RemindersRead()
    ensures WIND_DOWN == "[System: " + "5 iterations remaining. Wrap up your work.]"
    ensures SILENCE_NUDGE
         == "You haven't " + "produced any output. Please respond to the user or explain what you're working on."
  {
  }

  /** The message that answers the `i`-th call of a reply. */
  predicate AnswersCall(m: Message, c: ToolCall, o: ToolOutcome)
  {
    && m.role.Tool? && m.toolCallId == Some(c.id) && m.toolCalls.None?
    && m.content == match o
       case BadArguments(error) => Some(Text(error))
       case Ran(_, Ok(content)) => Some(content)
       case Ran(_, Err(error)) => Some(Text("Error: " + error))
  }

  /** What a reply adds to the history: itself, then one answer to each of its calls in call order. */
  predicate AddedBy(e: Env, ms: seq<Message>)
  {
    if e.reply.Err? then ms == []
    else
      var m := e.reply.value.message;
      var cs := if m.toolCalls.Some? then m.toolCalls.value else [];
      && |ms| == 1 + |cs| && ms[0] == m
      && forall i | 0 <= i < |cs| :: AnswersCall(ms[1 + i], cs[i], e.tools(i))
  }

  function AskedIn(e: Event): seq<seq<Message>>
  {
    if e.Asked? then [e.ms] else []
  }

  /** The lists the model was asked with: what the compaction check made of the history, and the
      reminders due. */
  function TurnAsked(config: Config, env: nat -> Env, rs: Checks): seq<seq<Message>>
  {
    if rs == [] then []
    else
      var k := |rs| - 1;
      TurnAsked(config, env, rs[..k]) + AskedAt(config, env, k, rs[k])
  }

  function AskedAt(config: Config, env: nat -> Env, k: nat, c: Result<CompactionResult, string>): seq<seq<Message>>
  {
    if env(k).timedOut || env(k).quota == Some(false) || c.Err? then [] else [c.value.working + Due(config, env, k)]
  }

  /** The history before iteration `k`: that of the list asked before, and what the reply added. */
  ghost predicate HistoryBefore(config: Config, env: nat -> Env, initial: seq<Message>, rs: Checks, k: nat, h: seq<Message>)
    requires k <= |rs|
  {
    if k == 0 then h == initial else Resumes(config, env, k - 1, rs[k - 1], h)
  }

  /** The history is the list iteration `k` asked, and what the reply added to it. */
  ghost predicate Resumes(config: Config, env: nat -> Env, k: nat, c: Result<CompactionResult, string>, h: seq<Message>)
  {
    c.Ok? && Extends(c.value.working + Due(config, env, k), env(k), h)
  }

  /** The list that was asked, and what the reply added to it. */
  ghost predicate Extends(asked: seq<Message>, e: Env, h: seq<Message>)
  {
    exists added :: AddedBy(e, added) && h == asked + added
  }

  /** Every compaction with a summary is announced, with its canonical list and the usage so far. */
  function TurnAnnounced(env: nat -> Env, v: Vars, rs: Checks): seq<Event>
  {
    if rs == [] then []
    else
      var k := |rs| - 1;
      TurnAnnounced(env, v, rs[..k]) + AnnouncedIn(env(k), rs[k], v, TurnUsage(env, rs[..k]))
  }

  function AnnouncedIn(e: Env, c: Result<CompactionResult, string>, v: Vars, us: seq<Usage>): seq<Event>
  {
    AnnouncedWith(e, c, v.input + InputSum(us), v.output + OutputSum(us))
  }

  function AnnouncedWith(e: Env, c: Result<CompactionResult, string>, input: nat, output: nat): seq<Event>
  {
    if !e.timedOut && e.quota != Some(false) && c.Ok? && c.value.summary != ""
    then [ContextCompacted(c.value.summary, c.value.canonical, input, output)] else []
  }

  function Announced(e: Event): seq<Event>
  {
    if e.ContextCompacted? then [e] else []
  }

  /** What the last iteration leaves of the history. */
  ghost predicate LeftBy(config: Config, env: nat -> Env, rs: Checks, before: seq<Message>, h: seq<Message>)
    requires rs != []
  {
    var k := |rs| - 1;
    if env(k).timedOut || env(k).quota == Some(false) || rs[k].Err? then h == before
    else Resumes(config, env, k, rs[k], h)
  }

  /** Iteration by iteration, the history is what was asked plus what was answered, and the compaction
      check is made of that history. */
  ghost predicate Unfolds(config: Config, env: nat -> Env, v: Vars, rs: Checks)
  {
    forall k: nat | k < |rs| ::
      var before := TurnVars(config, env, v, rs[..k]);
      && HistoryBefore(config, env, v.messages, rs, k, before.messages)
      && CheckedBy(config, env(k), before, rs[k])
  }

  /** A turn as the environment determines it: where it ends, how its history unfolds, and what the model,
      the user and the operator get to see of it. */
  ghost predicate AsDictated(config: Config, env: nat -> Env, v: Vars, rs: Checks, journal: seq<Event>, w: Vars)
  {
    && EndsAtClosing(config, env, rs)
    && Unfolds(config, env, v, rs)
    && (if rs == [] then w.messages == v.messages
        else LeftBy(config, env, rs, TurnVars(config, env, v, rs[..|rs| - 1]).messages, w.messages))
    && Collect(journal, AskedIn) == TurnAsked(config, env, rs)
    && Collect(journal, TextIn) == TurnTexts(env, rs)
    && Collect(journal, Trail) == TurnTrail(env, rs)
    && Collect(journal, Upkeep) == TurnUpkeep(env, rs)
    && Collect(journal, Announced) == TurnAnnounced(env, v, rs)
  }

  // ---------- ... and that it does ----------

  lemma {:induction false} ClosingEndsFlow(e: Env, c: Result<CompactionResult, string>)
    ensures IterFlow(e, c).Continue? <==> !Closing(e, c)
    ensures IterFlow(e, c).Fail? <==> ErrorOf(e, c).Some?
    ensures IterFlow(e, c).Fail? ==> ErrorOf(e, c) == Some(IterFlow(e, c).error)
  {
  }

  lemma {:induction false} EarlierGoOn(config: Config, env: nat -> Env, v: Vars, rs: Checks, k: nat)
    requires Happened(config, env, v, rs) && k + 1 < |rs|
    ensures IterFlow(env(k), rs[k]).Continue?
  {
    var n := |rs| - 1;
    if k + 1 < n {
      EarlierGoOn(config, env, v, rs[..n], k);
    }
  }

  lemma {:induction false} TurnEndsAtClosing(config: Config, env: nat -> Env, v: Vars, rs: Checks)
    requires Happened(config, env, v, rs) && Ended(config, env, rs)
    ensures EndsAtClosing(config, env, rs)
    ensures FailureOf(env, rs) == FailsWith(env, rs)
  {
    if rs != [] {
      ClosingEndsFlow(env(|rs| - 1), rs[|rs| - 1]);
    }
    forall k: nat | k < |rs|
      ensures k + 1 == |rs| <==> k + 1 == config.maxIterations || Closing(env(k), rs[k])
    {
      ClosingEndsFlow(env(k), rs[k]);
      if k + 1 < |rs| {
        EarlierGoOn(config, env, v, rs, k);
      }
    }
  }

  lemma {:induction false} SilenceStep(config: Config, env: Env, k: nat, v: Vars, r: Result<CompactionResult, string>)
    requires !Closing(env, r)
    ensures IterVars(config, env, k, v, r).silentTurns == if !Silent(env) then 0 else if v.silentTurns >= 3 then 1 else v.silentTurns + 1
  {
  }

  /** The counter after `n` silent replies in a row. */
  function Counter(n: nat): nat
  {
    if n == 0 then 0 else (n - 1) % 3 + 1
  }

  lemma {:induction false} EveryThird(n: nat)
    ensures Counter(n) >= 3 <==> n > 0 && n % 3 == 0
    ensures Counter(n + 1) == if Counter(n) >= 3 then 1 else Counter(n) + 1
  {
  }

  /** While the turn goes on, the counter behind the nudge follows the run of silent replies. */
  lemma {:induction false} SilenceCounted(config: Config, env: nat -> Env, v: Vars, rs: Checks)
    requires v.silentTurns == 0 && forall k: nat | k < |rs| :: !Closing(env(k), rs[k])
    ensures TurnVars(config, env, v, rs).silentTurns == Counter(SilentRun(env, |rs|))
  {
    if rs != [] {
      var k := |rs| - 1;
      SilenceCounted(config, env, v, rs[..k]);
      SilenceStep(config, env(k), k, TurnVars(config, env, v, rs[..k]), rs[k]);
      EveryThird(SilentRun(env, k));
    }
  }

  lemma {:induction false} RemindersAreDue(config: Config, env: nat -> Env, v: Vars, rs: Checks)
    requires v.silentTurns == 0 && forall k: nat | k < |rs| :: !Closing(env(k), rs[k])
    ensures Reminders(config, |rs|, TurnVars(config, env, v, rs).silentTurns) == Due(config, env, |rs|)
  {
    SilenceCounted(config, env, v, rs);
    EveryThird(SilentRun(env, |rs|));
  }

  lemma {:induction false} HappenedBefore(config: Config, env: nat -> Env, v: Vars, rs: Checks, n: nat)
    requires Happened(config, env, v, rs) && n < |rs|
    ensures Happened(config, env, v, rs[..n])
    ensures CompactedAs(config, env(n), TurnVars(config, env, v, rs[..n]), rs[n])
  {
    var last := |rs| - 1;
    if n < last {
      HappenedBefore(config, env, v, rs[..last], n);
      assert rs[..last][..n] == rs[..n] && rs[..last][n] == rs[n];
    }
  }

  lemma {:induction false} EarlierNotClosing(config: Config, env: nat -> Env, v: Vars, rs: Checks, n: nat)
    requires Happened(config, env, v, rs) && n < |rs|
    ensures forall k: nat | k < n :: !Closing(env(k), rs[..n][k])
  {
    forall k: nat | k < n
      ensures !Closing(env(k), rs[..n][k])
    {
      EarlierGoOn(config, env, v, rs, k);
      ClosingEndsFlow(env(k), rs[k]);
    }
  }

  lemma {:induction false} BlockIsAdded(e: Env)
    ensures AddedBy(e, RepliedBlock(e))
  {
  }

  lemma {:induction false} CompactedIsChecked(config: Config, e: Env, before: Vars, c: Result<CompactionResult, string>)
    requires CompactedAs(config, e, before, c)
    ensures CheckedBy(config, e, before, c)
  {
    if !Stopped(e) && e.overThreshold && before.compactions < config.maxCompactions {
      CompactedIsCondensed(before.messages, config.keepRecent, e.summary, c);
    }
  }

  lemma {:induction false} TurnUnfolds(config: Config, env: nat -> Env, v: Vars, rs: Checks)
    requires Happened(config, env, v, rs) && v.silentTurns == 0
    ensures Unfolds(config, env, v, rs)
  {
    forall k: nat | k < |rs|
      ensures var before := TurnVars(config, env, v, rs[..k]);
        && HistoryBefore(config, env, v.messages, rs, k, before.messages)
        && CheckedBy(config, env(k), before, rs[k])
    {
      HappenedBefore(config, env, v, rs, k);
      CompactedIsChecked(config, env(k), TurnVars(config, env, v, rs[..k]), rs[k]);
      if k > 0 {
        HistoryGrows(config, env, v, rs, k);
      }
    }
  }

  lemma {:induction false} HistoryGrows(config: Config, env: nat -> Env, v: Vars, rs: Checks, k: nat)
    requires Happened(config, env, v, rs) && v.silentTurns == 0 && 0 < k < |rs|
    ensures HistoryBefore(config, env, v.messages, rs, k, TurnVars(config, env, v, rs[..k]).messages)
  {
    EarlierNotClosing(config, env, v, rs, k);
    HistoryAfter(config, env, v, rs[..k]);
  }

  lemma {:induction false} HistoryAfter(config: Config, env: nat -> Env, v: Vars, rs: Checks)
    requires v.silentTurns == 0 && rs != [] && forall i: nat | i < |rs| :: !Closing(env(i), rs[i])
    ensures Resumes(config, env, |rs| - 1, rs[|rs| - 1], TurnVars(config, env, v, rs).messages)
  {
    var j := |rs| - 1;
    RemindersAreDue(config, env, v, rs[..j]);
    IterResumes(config, env, j, TurnVars(config, env, v, rs[..j]), rs[j]);
  }

  lemma {:induction false} IterResumes(config: Config, env: nat -> Env, k: nat, v: Vars, r: Result<CompactionResult, string>)
    requires Asks(env(k), r) && Reminders(config, k, v.silentTurns) == Due(config, env, k)
    ensures Resumes(config, env, k, r, IterVars(config, env(k), k, v, r).messages)
  {
    IterExtends(config, env(k), k, v, r);
  }

  lemma {:induction false} IterExtends(config: Config, e: Env, k: nat, v: Vars, r: Result<CompactionResult, string>)
    requires Asks(e, r)
    ensures Extends(r.value.working + Reminders(config, k, v.silentTurns), e, IterVars(config, e, k, v, r).messages)
  {
    var asked := r.value.working + Reminders(config, k, v.silentTurns);
    BlockIsAdded(e);
    assert asked + [] == asked;
    assert IterVars(config, e, k, v, r).messages == asked + RepliedBlock(e);
  }

  // ---------- Reading what an iteration says ----------

  /** Read for anything at all, an iteration is its parts in order. */
  lemma {:induction false} IterRead<T(!new)>(config: Config, env: Env, k: nat, v: Vars, r: Result<CompactionResult, string>, f: Event -> seq<T>)
    ensures Collect(IterEvents(config, env, k, v, r), f) ==
      if !Asks(env, r) then Collect(GateEvents(env), f)
      else
        Collect(GateEvents(env), f) + Collect(AnnouncementOf(r.value, v.input, v.output), f)
        + Collect(Pushes(Reminders(config, k, v.silentTurns)), f) + f(Asked(AskedWith(config, k, v, r.value)))
        + Collect(DeltaEvents(env.deltas), f) + Collect(ReplyEvents(env), f)
  {
    var g := GateEvents(env);
    if Asks(env, r) {
      var n, p := AnnouncementOf(r.value, v.input, v.output), Pushes(Reminders(config, k, v.silentTurns));
      var a, d, y := Asked(AskedWith(config, k, v, r.value)), DeltaEvents(env.deltas), ReplyEvents(env);
      Flattened(g, n, p, [a], d, y);
      SixCollected(g, n, p, a, d, y, f);
    } else {
      assert g + [] == g;
    }
  }

  lemma {:induction false} Flattened<T>(g: seq<T>, n: seq<T>, p: seq<T>, a: seq<T>, d: seq<T>, y: seq<T>)
    ensures g + (n + p + a + d + y) == g + n + p + a + d + y
  {
  }

  /** ... of which often only these three show. */
  lemma {:induction false} IterReadAs<T(!new)>(config: Config, env: Env, k: nat, v: Vars, r: Result<CompactionResult, string>, f: Event -> seq<T>)
    requires Asks(env, r)
    requires f(Asked(AskedWith(config, k, v, r.value))) == []
    requires Collect(AnnouncementOf(r.value, v.input, v.output), f) == []
    requires Collect(Pushes(Reminders(config, k, v.silentTurns)), f) == []
    ensures Collect(IterEvents(config, env, k, v, r), f)
         == Collect(GateEvents(env), f) + Collect(DeltaEvents(env.deltas), f) + Collect(ReplyEvents(env), f)
  {
    IterRead(config, env, k, v, r, f);
    var g := Collect(GateEvents(env), f);
    assert g + [] + [] + [] == g;
  }

  lemma {:induction false} SixCollected<T(!new)>(g: seq<Event>, n: seq<Event>, p: seq<Event>, a: Event, d: seq<Event>, y: seq<Event>, f: Event -> seq<T>)
    ensures Collect(g + n + p + [a] + d + y, f)
         == Collect(g, f) + Collect(n, f) + Collect(p, f) + f(a) + Collect(d, f) + Collect(y, f)
  {
    CollectAppend(g, n, f);
    CollectAppend(g + n, p, f);
    CollectSnoc(g + n + p, a, f);
    CollectAppend(g + n + p + [a], d, f);
    CollectAppend(g + n + p + [a] + d, y, f);
  }

  /** The kinds of events the parts of an iteration consist of. */
  lemma {:induction false} PushesOnly(ms: seq<Message>)
    ensures forall e | e in Pushes(ms) :: e.Pushed?
  {
    if ms != [] {
      PushesOnly(ms[..|ms| - 1]);
    }
  }

  lemma {:induction false} TextsOnly(deltas: seq<string>)
    ensures forall e | e in DeltaEvents(deltas) :: e.TextDelta?
  {
    if deltas != [] {
      TextsOnly(deltas[..|deltas| - 1]);
    }
  }

  predicate OfCall(e: Event)
  {
    e.Activity? || e.ToolCallSent? || e.ToolsCall? || e.ToolResultSent? || e.Pushed?
  }

  lemma {:induction false} CallsOnly(cs: seq<ToolCall>, tools: nat -> ToolOutcome)
    ensures forall e | e in CallsEvents(cs, tools) :: OfCall(e)
  {
    if cs != [] {
      CallsOnly(cs[..|cs| - 1], tools);
    }
  }

  /** A reading that sees only what pushes, calls, deltas and usage do not show. */
  lemma {:induction false} AskedOf(config: Config, env: Env, k: nat, v: Vars, r: Result<CompactionResult, string>)
    ensures Collect(IterEvents(config, env, k, v, r), AskedIn) == if Asks(env, r) then [AskedWith(config, k, v, r.value)] else []
  {
    IterRead(config, env, k, v, r, AskedIn);
    GateRead(env);
    if Asks(env, r) {
      PartsAreQuiet(config, env, k, v, r);
      OnlyFourth([AskedWith(config, k, v, r.value)]);
    }
  }

  lemma {:induction false} OnlyFourth<T>(a: seq<T>)
    ensures [] + [] + [] + a + [] + [] == a
  {
  }

  lemma {:induction false} AnnouncedOf(config: Config, env: Env, k: nat, v: Vars, r: Result<CompactionResult, string>)
    ensures Collect(IterEvents(config, env, k, v, r), Announced) == AnnouncedWith(env, r, v.input, v.output)
  {
    IterRead(config, env, k, v, r, Announced);
    CollectNothing(GateEvents(env), Announced);
    if Asks(env, r) {
      TalkAnnouncesNothing(config, env, k, v.silentTurns);
      if r.value.summary != "" {
        CollectOne(ContextCompacted(r.value.summary, r.value.canonical, v.input, v.output), Announced);
      }
      OnlySecond(Collect(AnnouncementOf(r.value, v.input, v.output), Announced));
    }
  }

  lemma {:induction false} TalkAnnouncesNothing(config: Config, env: Env, k: nat, silentTurns: nat)
    ensures Collect(Pushes(Reminders(config, k, silentTurns)), Announced) == []
    ensures Collect(DeltaEvents(env.deltas), Announced) == [] && Collect(ReplyEvents(env), Announced) == []
  {
    PushesOnly(Reminders(config, k, silentTurns));
    TextsOnly(env.deltas);
    ReplyShowsNoUpkeep(env);
    CollectNothing(Pushes(Reminders(config, k, silentTurns)), Announced);
    CollectNothing(DeltaEvents(env.deltas), Announced);
    CollectNothing(ReplyEvents(env), Announced);
  }

  lemma {:induction false} OnlySecond<T>(a: seq<T>)
    ensures [] + a + [] + [] + [] + [] == a
  {
  }

  lemma {:induction false} UpkeepOf(config: Config, env: Env, k: nat, v: Vars, r: Result<CompactionResult, string>)
    ensures Collect(IterEvents(config, env, k, v, r), Upkeep) == UpkeepIn(env)
  {
    GateRead(env);
    if Asks(env, r) {
      PartsAreQuiet(config, env, k, v, r);
      IterReadAs(config, env, k, v, r, Upkeep);
      OnlyFirst(UpkeepIn(env));
    } else {
      IterRead(config, env, k, v, r, Upkeep);
    }
  }

  lemma {:induction false} OnlyFirst<T>(a: seq<T>)
    ensures a + [] + [] == a
  {
  }

  lemma {:induction false} PartsAreQuiet(config: Config, env: Env, k: nat, v: Vars, r: Result<CompactionResult, string>)
    requires Asks(env, r)
    ensures var n, p := AnnouncementOf(r.value, v.input, v.output), Pushes(Reminders(config, k, v.silentTurns));
      var d, y := DeltaEvents(env.deltas), ReplyEvents(env);
      && Collect(n, AskedIn) == Collect(p, AskedIn) == Collect(d, AskedIn) == Collect(y, AskedIn) == []
      && Collect(n, Upkeep) == Collect(p, Upkeep) == Collect(d, Upkeep) == Collect(y, Upkeep) == []
  {
    PushesOnly(Reminders(config, k, v.silentTurns));
    TextsOnly(env.deltas);
    ReplyShowsNoUpkeep(env);
    CollectNothing(AnnouncementOf(r.value, v.input, v.output), AskedIn);
    CollectNothing(AnnouncementOf(r.value, v.input, v.output), Upkeep);
    NothingOf(Pushes(Reminders(config, k, v.silentTurns)));
    NothingOf(DeltaEvents(env.deltas));
    NothingOf(ReplyEvents(env));
  }

  predicate NothingButTalk(es: seq<Event>)
  {
    forall e | e in es :: !e.Asked? && !e.Heartbeat? && !e.QuotaCheck? && !e.ContextCompacted?
  }

  lemma {:induction false} NothingOf(es: seq<Event>)
    requires NothingButTalk(es)
    ensures Collect(es, AskedIn) == [] && Collect(es, Upkeep) == []
  {
    CollectNothing(es, AskedIn);
    CollectNothing(es, Upkeep);
  }

  lemma {:induction false} ReplyShowsNoUpkeep(env: Env)
    ensures NothingButTalk(ReplyEvents(env))
  {
    if env.reply.Ok? {
      CallsOnly(CallsOf(env.reply.value.message), env.tools);
    }
  }

  lemma {:induction false} GateRead(env: Env)
    ensures Collect(GateEvents(env), AskedIn) == [] && Collect(GateEvents(env), Trail) == []
    ensures Collect(GateEvents(env), Upkeep) == UpkeepIn(env) && Collect(GateEvents(env), TextIn) == RefusalIn(env)
  {
    GateIsQuiet(env);
    if env.timedOut {
      ClosedGateRead(env);
    } else {
      OpenGateRead(env);
    }
  }

  lemma {:induction false} GateIsQuiet(env: Env)
    ensures Collect(GateEvents(env), AskedIn) == [] && Collect(GateEvents(env), Trail) == []
  {
    var g := GateEvents(env);
    assert forall e | e in g :: e.TextDelta? || e.Heartbeat? || e.QuotaCheck?;
    CollectNothing(g, AskedIn);
    CollectNothing(g, Trail);
  }

  lemma {:induction false} ClosedGateRead(env: Env)
    requires env.timedOut
    ensures Collect(GateEvents(env), Upkeep) == UpkeepIn(env) && Collect(GateEvents(env), TextIn) == RefusalIn(env)
  {
    CollectOne(TextDelta(TIMED_OUT), Upkeep);
    CollectOne(TextDelta(TIMED_OUT), TextIn);
  }

  lemma {:induction false} OpenGateRead(env: Env)
    requires !env.timedOut
    ensures Collect(GateEvents(env), Upkeep) == UpkeepIn(env) && Collect(GateEvents(env), TextIn) == RefusalIn(env)
  {
    var h := if env.heartbeatDue then [Heartbeat] else [];
    var n := if env.quota == Some(false) then [TextDelta(QUOTA_EXHAUSTED)] else [];
    assert GateEvents(env) == h + [QuotaCheck] + n;
    PartsRead(h, n);
  }

  lemma {:induction false} PartsRead(h: seq<Event>, n: seq<Event>)
    requires (h == [] || h == [Heartbeat]) && (n == [] || (|n| == 1 && n[0].TextDelta?))
    ensures Collect(h + [QuotaCheck] + n, Upkeep) == h + [QuotaCheck]
    ensures Collect(h + [QuotaCheck] + n, TextIn) == if n == [] then [] else [n[0].text]
  {
    if h != [] {
      CollectOne(Heartbeat, Upkeep);
      CollectOne(Heartbeat, TextIn);
    }
    CollectSnoc(h, QuotaCheck, Upkeep);
    CollectSnoc(h, QuotaCheck, TextIn);
    CollectAppend(h + [QuotaCheck], n, Upkeep);
    CollectAppend(h + [QuotaCheck], n, TextIn);
    if n != [] {
      assert n == [n[0]];
      CollectOne(n[0], Upkeep);
      CollectOne(n[0], TextIn);
    }
  }

  // ---------- Texts ----------

  lemma {:induction false} DeltasRead(deltas: seq<string>)
    ensures Collect(DeltaEvents(deltas), TextIn) == Filter(deltas, (t: string) => t != "")
  {
    var p := (t: string) => t != "";
    if deltas != [] {
      var k := |deltas| - 1;
      DeltasRead(deltas[..k]);
      assert deltas == deltas[..k] + [deltas[k]];
      FilterSnoc(deltas[..k], deltas[k], p);
      if deltas[k] != "" {
        CollectSnoc(DeltaEvents(deltas[..k]), TextDelta(deltas[k]), TextIn);
      } else {
        assert DeltaEvents(deltas[..k]) + [] == DeltaEvents(deltas[..k]);
      }
    }
  }

  lemma {:induction false} NoticeRead(s: Streamed)
    ensures Collect(NoticeEvents(s), TextIn) == NoticeIn(Ok(s))
    ensures Collect(NoticeEvents(s), Trail) == []
  {
    if NoticeEvents(s) != [] {
      CollectOne(NoticeEvents(s)[0], TextIn);
      CollectOne(NoticeEvents(s)[0], Trail);
    }
  }

  /** A digested reply, read for anything: usage, message, calls, notice. */
  lemma {:induction false} DigestRead<T(!new)>(s: Streamed, tools: nat -> ToolOutcome, f: Event -> seq<T>)
    ensures Collect(DigestEvents(s, tools), f)
         == Collect(UsageEvents(s.usage), f) + f(Pushed(s.message)) + Collect(CallsEvents(CallsOf(s.message), tools), f)
            + Collect(NoticeEvents(s), f)
  {
    var u, c := UsageEvents(s.usage), CallsEvents(CallsOf(s.message), tools);
    CollectSnoc(u, Pushed(s.message), f);
    CollectAppend(u + [Pushed(s.message)], c, f);
    CollectAppend(u + [Pushed(s.message)] + c, NoticeEvents(s), f);
  }

  lemma {:induction false} ReplyTexts(env: Env)
    ensures Collect(ReplyEvents(env), TextIn) == NoticeIn(env.reply)
  {
    match env.reply
    case Err(error) => CollectOne(TextDelta(LlmError(error)), TextIn);
    case Ok(s) =>
      DigestRead(s, env.tools, TextIn);
      CallsOnly(CallsOf(s.message), env.tools);
      CollectNothing(CallsEvents(CallsOf(s.message), env.tools), TextIn);
      CollectNothing(UsageEvents(s.usage), TextIn);
      NoticeRead(s);
  }

  lemma {:induction false} IterTexts(config: Config, env: Env, k: nat, v: Vars, r: Result<CompactionResult, string>)
    ensures Collect(IterEvents(config, env, k, v, r), TextIn) == ReadIn(env, r)
  {
    GateRead(env);
    if Asks(env, r) {
      BeforeAskingIsQuiet(config, k, v, r.value);
      IterReadAs(config, env, k, v, r, TextIn);
      DeltasRead(env.deltas);
      ReplyTexts(env);
      NothingBefore(Filter(env.deltas, (t: string) => t != ""), NoticeIn(env.reply));
    } else {
      IterRead(config, env, k, v, r, TextIn);
    }
  }

  lemma {:induction false} NothingBefore<T>(a: seq<T>, b: seq<T>)
    ensures [] + a + b == a + b
  {
  }

  lemma {:induction false} BeforeAskingIsQuiet(config: Config, k: nat, v: Vars, c: CompactionResult)
    ensures var n, p := AnnouncementOf(c, v.input, v.output), Pushes(Reminders(config, k, v.silentTurns));
      && Collect(n, TextIn) == Collect(p, TextIn) == [] && Collect(n, Trail) == Collect(p, Trail) == []
  {
    var n, p := AnnouncementOf(c, v.input, v.output), Pushes(Reminders(config, k, v.silentTurns));
    PushesOnly(Reminders(config, k, v.silentTurns));
    CollectNothing(n, TextIn);
    CollectNothing(p, TextIn);
    CollectNothing(n, Trail);
    CollectNothing(p, Trail);
  }

  // ---------- Tool calls ----------

  lemma {:induction false} CallRead(c: ToolCall, o: ToolOutcome)
    ensures Collect(CallEvents(c, o), Trail) == TrailOf(c, o)
  {
    var a, b := Activity(ActivityOf(c, o)), ToolCallSent(c.id, c.name);
    var d := ToolResultSent(c.id, ReplyContent(o), o.BadArguments? || o.result.Err?);
    CallPartsRead(a, b, if o.Ran? && o.viaTunnel then [ToolsCall(c.name)] else [], d, Pushed(ReplyTo(c, o)));
    assert [a, b] + [] + [d] == [a, b, d];
  }

  lemma {:induction false} CallPartsRead(a: Event, b: Event, tunnel: seq<Event>, d: Event, e: Event)
    requires a.Activity? && b.ToolCallSent? && d.ToolResultSent? && e.Pushed?
    requires tunnel == [] || (|tunnel| == 1 && tunnel[0].ToolsCall?)
    ensures Collect([a, b] + tunnel + [d, e], Trail) == [a, b] + tunnel + [d]
  {
    PairCollected(a, b, Trail);
    if tunnel != [] {
      assert tunnel == [tunnel[0]];
      CollectOne(tunnel[0], Trail);
    }
    CollectAppend([a, b], tunnel, Trail);
    PairCollected(d, e, Trail);
    CollectAppend([a, b] + tunnel, [d, e], Trail);
  }

  lemma {:induction false} CallsRead(cs: seq<ToolCall>, tools: nat -> ToolOutcome)
    ensures Collect(CallsEvents(cs, tools), Trail) == TrailOfCalls(cs, tools)
  {
    if cs != [] {
      var k := |cs| - 1;
      CallsRead(cs[..k], tools);
      CallRead(cs[k], tools(k));
      CollectAppend(CallsEvents(cs[..k], tools), CallEvents(cs[k], tools(k)), Trail);
    }
  }

  lemma {:induction false} IterTrail(config: Config, env: Env, k: nat, v: Vars, r: Result<CompactionResult, string>)
    ensures Collect(IterEvents(config, env, k, v, r), Trail)
         == if Heard(env, r) && env.reply.value.message.toolCalls.Some?
            then TrailOfCalls(env.reply.value.message.toolCalls.value, env.tools) else []
  {
    GateRead(env);
    if Asks(env, r) {
      BeforeAskingIsQuiet(config, k, v, r.value);
      IterReadAs(config, env, k, v, r, Trail);
      TextsOnly(env.deltas);
      CollectNothing(DeltaEvents(env.deltas), Trail);
      ReplyTrail(env);
    } else {
      IterRead(config, env, k, v, r, Trail);
    }
  }

  lemma {:induction false} ReplyTrail(env: Env)
    ensures Collect(ReplyEvents(env), Trail)
         == if env.reply.Ok? && env.reply.value.message.toolCalls.Some?
            then TrailOfCalls(env.reply.value.message.toolCalls.value, env.tools) else []
  {
    match env.reply
    case Err(error) => CollectOne(TextDelta(LlmError(error)), Trail);
    case Ok(s) => DigestTrail(s, env.tools);
  }

  lemma {:induction false} DigestTrail(s: Streamed, tools: nat -> ToolOutcome)
    ensures Collect(DigestEvents(s, tools), Trail) == TrailOfCalls(CallsOf(s.message), tools)
  {
    DigestRead(s, tools, Trail);
    CollectNothing(UsageEvents(s.usage), Trail);
    CallsRead(CallsOf(s.message), tools);
    NoticeRead(s);
    NothingAround(TrailOfCalls(CallsOf(s.message), tools));
  }

  lemma {:induction false} NothingAround<T>(a: seq<T>)
    ensures [] + [] + a + [] == a
  {
  }

  // ---------- The whole turn ----------

  lemma {:induction false} TurnSays(config: Config, env: nat -> Env, v: Vars, rs: Checks)
    ensures var es := TurnEvents(config, env, v, rs);
      && Collect(es, TextIn) == TurnTexts(env, rs)
      && Collect(es, Trail) == TurnTrail(env, rs)
      && Collect(es, Upkeep) == TurnUpkeep(env, rs)
  {
    if rs != [] {
      var k := |rs| - 1;
      var before, es := TurnVars(config, env, v, rs[..k]), TurnEvents(config, env, v, rs[..k]);
      var last := IterEvents(config, env(k), k, before, rs[k]);
      TurnSays(config, env, v, rs[..k]);
      IterTexts(config, env(k), k, before, rs[k]);
      IterTrail(config, env(k), k, before, rs[k]);
      UpkeepOf(config, env(k), k, before, rs[k]);
      CollectAppend(es, last, TextIn);
      CollectAppend(es, last, Trail);
      CollectAppend(es, last, Upkeep);
    }
  }

  lemma {:induction false} TurnAsks(config: Config, env: nat -> Env, v: Vars, rs: Checks)
    requires Happened(config, env, v, rs) && v.silentTurns == 0
    ensures Collect(TurnEvents(config, env, v, rs), AskedIn) == TurnAsked(config, env, rs)
  {
    if rs != [] {
      var k := |rs| - 1;
      var before, es := TurnVars(config, env, v, rs[..k]), TurnEvents(config, env, v, rs[..k]);
      TurnAsks(config, env, v, rs[..k]);
      EarlierNotClosing(config, env, v, rs, k);
      RemindersAreDue(config, env, v, rs[..k]);
      AskedWithDue(config, env, k, before, rs[k]);
      CollectAppend(es, IterEvents(config, env(k), k, before, rs[k]), AskedIn);
    }
  }

  lemma {:induction false} AskedWithDue(config: Config, env: nat -> Env, k: nat, v: Vars, r: Result<CompactionResult, string>)
    requires Reminders(config, k, v.silentTurns) == Due(config, env, k)
    ensures Collect(IterEvents(config, env(k), k, v, r), AskedIn) == AskedAt(config, env, k, r)
  {
    AskedOf(config, env(k), k, v, r);
  }

  lemma {:induction false} TurnAnnouncesAll(config: Config, env: nat -> Env, v: Vars, rs: Checks)
    ensures Collect(TurnEvents(config, env, v, rs), Announced) == TurnAnnounced(env, v, rs)
  {
    if rs != [] {
      var k := |rs| - 1;
      var before, us := TurnVars(config, env, v, rs[..k]), TurnUsage(env, rs[..k]);
      TurnAnnouncesAll(config, env, v, rs[..k]);
      TurnCounts(config, env, v, rs[..k]);
      AnnouncedOf(config, env(k), k, before, rs[k]);
      AnnouncedSoFar(env(k), before, rs[k], v, us);
      CollectAppend(TurnEvents(config, env, v, rs[..k]), IterEvents(config, env(k), k, before, rs[k]), Announced);
    }
  }

  lemma {:induction false} AnnouncedSoFar(env: Env, before: Vars, r: Result<CompactionResult, string>, v: Vars, us: seq<Usage>)
    requires before.input == v.input + InputSum(us) && before.output == v.output + OutputSum(us)
    ensures AnnouncedWith(env, r, before.input, before.output) == AnnouncedIn(env, r, v, us)
  {
  }

  lemma {:induction false} TurnLeft(config: Config, env: nat -> Env, v: Vars, rs: Checks)
    requires Happened(config, env, v, rs) && v.silentTurns == 0 && rs != []
    ensures LeftBy(config, env, rs, TurnVars(config, env, v, rs[..|rs| - 1]).messages, TurnVars(config, env, v, rs).messages)
  {
    var k := |rs| - 1;
    EarlierNotClosing(config, env, v, rs, k);
    RemindersAreDue(config, env, v, rs[..k]);
    if Asks(env(k), rs[k]) {
      IterResumes(config, env, k, TurnVars(config, env, v, rs[..k]), rs[k]);
    }
  }

  /** Every turn that can happen ends where, asks what, says what and leaves what the environment dictates,
      and fails if and only if the summary call or a notice of its last iteration does. */
  lemma {:induction false} TurnIsDictated(config: Config, env: nat -> Env, v: Vars, rs: Checks)
    requires Happened(config, env, v, rs) && Ended(config, env, rs) && v.silentTurns == 0
    ensures AsDictated(config, env, v, rs, TurnEvents(config, env, v, rs), TurnVars(config, env, v, rs))
    ensures FailureOf(env, rs) == FailsWith(env, rs)
  {
    TurnEndsAtClosing(config, env, v, rs);
    TurnUnfolds(config, env, v, rs);
    TurnSays(config, env, v, rs);
    TurnAsks(config, env, v, rs);
    TurnAnnouncesAll(config, env, v, rs);
    if rs != [] {
      TurnLeft(config, env, v, rs);
    }
  }

  lemma {:induction false} AskedLast(config: Config, env: nat -> Env, rs: Checks)
    requires rs != []
    ensures forall ms | ms in AskedAt(config, env, |rs| - 1, rs[|rs| - 1]) :: ms in TurnAsked(config, env, rs)
  {
  }

  lemma {:induction false} AskedInIteration(config: Config, env: nat -> Env, rs: Checks, k: nat)
    requires k < |rs| && !env(k).timedOut && env(k).quota != Some(false) && rs[k].Ok?
    ensures rs[k].value.working + Due(config, env, k) in TurnAsked(config, env, rs)
  {
    var asked := rs[k].value.working + Due(config, env, k);
    assert asked in AskedAt(config, env, k, rs[k]);
    AskedLast(config, env, rs[..k + 1]);
    AskedByThen(config, env, rs, k + 1, asked);
  }

  /** What is asked stays asked. */
  lemma {:induction false} AskedByThen(config: Config, env: nat -> Env, rs: Checks, n: nat, asked: seq<Message>)
    requires n <= |rs| && asked in TurnAsked(config, env, rs[..n])
    ensures asked in TurnAsked(config, env, rs)
  {
    if n == |rs| {
      assert rs[..n] == rs;
    } else {
      var last := |rs| - 1;
      assert rs[..last][..n] == rs[..n];
      AskedByThen(config, env, rs[..last], n, asked);
    }
  }

  /** The list is the history before an iteration, cut at a safe place with the summary standing, between
      its tags, for what was dropped. */
  ghost predicate Replaces(ms: seq<Message>, keepRecent: nat, summary: string, working: seq<Message>)
  {
    exists split: nat :: SafeCut(ms, keepRecent, split) && Shows(ms, split, summary, working)
  }

  /** Whenever the check fires on a history that can be cut, and the summary call answers, the model is asked
      with a list in which that very summary, between its tags, stands for what was dropped. */
  lemma {:induction false} SummaryReachesTheModel(config: Config, env: nat -> Env, v: Vars, rs: Checks, k: nat)
    requires Happened(config, env, v, rs) && v.silentTurns == 0 && k < |rs|
    requires !env(k).timedOut && env(k).quota != Some(false) && env(k).overThreshold && env(k).summary.Ok?
    requires var before := TurnVars(config, env, v, rs[..k]);
      before.compactions < config.maxCompactions && Cuttable(before.messages, config.keepRecent)
    ensures exists working ::
      && Replaces(TurnVars(config, env, v, rs[..k]).messages, config.keepRecent, env(k).summary.value, working)
      && working + Due(config, env, k) in Collect(TurnEvents(config, env, v, rs), AskedIn)
  {
    TurnUnfolds(config, env, v, rs);
    TurnAsks(config, env, v, rs);
    assert CheckedBy(config, env(k), TurnVars(config, env, v, rs[..k]), rs[k]);
    AskedInIteration(config, env, rs, k);
    assert Replaces(TurnVars(config, env, v, rs[..k]).messages, config.keepRecent, env(k).summary.value, rs[k].value.working);
  }

  lemma {:induction false} EndDictatesNothing(config: Config, env: nat -> Env, v: Vars, rs: Checks, es: seq<Event>, w: Vars, e: Event)
    requires AsDictated(config, env, v, rs, es, w) && e.TurnEnd?
    ensures AsDictated(config, env, v, rs, es + [e], w)
  {
    CollectSnoc(es, e, AskedIn);
    CollectSnoc(es, e, TextIn);
    CollectSnoc(es, e, Trail);
    CollectSnoc(es, e, Upkeep);
    CollectSnoc(es, e, Announced);
  }

  /** The same of the journal with its end. */
  lemma {:induction false} JournalIsDictated(config: Config, env: nat -> Env, v: Vars, rs: Checks, ok: bool)
    requires Happened(config, env, v, rs) && Ended(config, env, rs) && v.silentTurns == 0
    ensures AsDictated(config, env, v, rs, JournalOf(config, env, v, rs, ok), TurnVars(config, env, v, rs))
    ensures FailureOf(env, rs) == FailsWith(env, rs)
    ensures var w := TurnVars(config, env, v, rs); ok ==> EndsWith(JournalOf(config, env, v, rs, ok), w.input, w.output)
  {
    var es, w := TurnEvents(config, env, v, rs), TurnVars(config, env, v, rs);
    TurnIsDictated(config, env, v, rs);
    EndDictatesNothing(config, env, v, rs, es, w, TurnEnd(w.input, w.output));
    assert es + [] == es;
  }

  predicate EndsWith(journal: seq<Event>, input: nat, output: nat)
  {
    journal != [] && journal[|journal| - 1] == TurnEnd(input, output)
  }

  /** The error of the last iteration, if it has one. */
  function FailsWith(env: nat -> Env, rs: Checks): Option<string>
  {
    if rs == [] then None else ErrorOf(env(|rs| - 1), rs[|rs| - 1])
  }
}
