/** What the journal of a turn holds, read in several ways, and what a turn keeps of its history. */
module TurnJournal {
  import opened Prelude
  import opened Conversation
  import opened Compaction
  import opened Turns

  // ---------- Reading the journal ----------

  /** The observable life of a tool call. */
  datatype Mark = CallMark(id: string) | ResultMark(id: string) | ReplyMark(id: string)

  /** For each call, in call order: announced, then its result, then its reply message. */
  function Brackets(cs: seq<ToolCall>): seq<Mark>
  {
    if cs == [] then []
    else
      var id := cs[|cs| - 1].id;
      Brackets(cs[..|cs| - 1]) + [CallMark(id), ResultMark(id), ReplyMark(id)]
  }

  /** What an event shows of tool calls. */
  function MarksOf(e: Event): seq<Mark>
  {
    match e
    case ToolCallSent(id, _) => [CallMark(id)]
    case ToolResultSent(id, _, _) => [ResultMark(id)]
    case Pushed(m) => if m.role.Tool? && m.toolCallId.Some? then [ReplyMark(m.toolCallId.value)] else []
    case _ => []
  }

  /** The message an event puts onto the history. */
  function PushedBy(e: Event): seq<Message>
  {
    if e.Pushed? then [e.m] else []
  }

  /** The usage an event reports. */
  function ReportedIn(e: Event): seq<Usage>
  {
    if e.QuotaUpdate? then [Usage(e.input, e.output)] else []
  }

  /** Events that no reading of the journal collects anything from. */
  predicate Passing(e: Event)
  {
    match e
    case QuotaUpdate(_, _) => false
    case ToolCallSent(_, _) => false
    case ToolResultSent(_, _, _) => false
    case Pushed(_) => false
    case _ => true
  }

  ghost predicate Reading<T(!new)>(f: Event -> seq<T>)
  {
    forall e | Passing(e) :: f(e) == []
  }

  lemma {:induction false} NothingCollected<T(!new)>(es: seq<Event>, f: Event -> seq<T>)
    requires Reading(f) && forall e | e in es :: Passing(e)
    ensures Collect(es, f) == []
  {
    CollectNothing(es, f);
  }

  lemma {:induction false} DeltasPass(deltas: seq<string>)
    ensures forall e | e in DeltaEvents(deltas) :: Passing(e)
  {
    if deltas != [] {
      DeltasPass(deltas[..|deltas| - 1]);
    }
  }

  /** A reading of one tool call: its announcement, its result and its reply. */
  lemma {:induction false} CallCollected<T(!new)>(c: ToolCall, o: ToolOutcome, f: Event -> seq<T>)
    requires Reading(f)
    ensures var d := ToolResultSent(c.id, ReplyContent(o), o.BadArguments? || o.result.Err?);
      Collect(CallEvents(c, o), f) == f(ToolCallSent(c.id, c.name)) + (f(d) + f(Pushed(ReplyTo(c, o))))
  {
    var a, b := Activity(ActivityOf(c, o)), ToolCallSent(c.id, c.name);
    var d := ToolResultSent(c.id, ReplyContent(o), o.BadArguments? || o.result.Err?);
    var e := Pushed(ReplyTo(c, o));
    var tunnel := if o.Ran? && o.viaTunnel then [ToolsCall(c.name)] else [];
    NothingCollected(tunnel, f);
    CallCollectedAs(a, b, tunnel, d, e, f);
  }

  lemma {:induction false} CallCollectedAs<T(!new)>(a: Event, b: Event, tunnel: seq<Event>, d: Event, e: Event, f: Event -> seq<T>)
    requires f(a) == [] && Collect(tunnel, f) == []
    ensures Collect([a, b] + tunnel + [d, e], f) == f(b) + (f(d) + f(e))
  {
    PairCollected(a, b, f);
    CollectAppend([a, b], tunnel, f);
    PairCollected(d, e, f);
    CollectAppend([a, b] + tunnel, [d, e], f);
    assert [] + f(b) == f(b) && f(b) + [] == f(b);
  }

  lemma {:induction false} PairCollected<T(!new)>(a: Event, b: Event, f: Event -> seq<T>)
    ensures Collect([a, b], f) == f(a) + f(b)
  {
    assert [a] + [b] == [a, b];
    CollectOne(a, f);
    CollectSnoc([a], b, f);
  }

  /** A reading of a digested reply: its usage, its message, its calls. */
  lemma {:induction false} DigestCollected<T(!new)>(s: Streamed, tools: nat -> ToolOutcome, f: Event -> seq<T>)
    requires Reading(f)
    ensures Collect(DigestEvents(s, tools), f)
         == Collect(UsageEvents(s.usage), f) + f(Pushed(s.message)) + Collect(CallsEvents(CallsOf(s.message), tools), f)
  {
    var u, p, c, n := UsageEvents(s.usage), [Pushed(s.message)], CallsEvents(CallsOf(s.message), tools), NoticeEvents(s);
    CollectAppend(u, p, f);
    CollectOne(p[0], f);
    CollectAppend(u + p, c, f);
    NothingCollected(n, f);
    CollectAppend(u + p + c, n, f);
  }

  /** A reading of an iteration: its reminders and its reply, if it gets to ask. */
  lemma {:induction false} IterCollected<T(!new)>(config: Config, env: Env, k: nat, v: Vars, r: Result<CompactionResult, string>, f: Event -> seq<T>)
    requires Reading(f)
    ensures Collect(IterEvents(config, env, k, v, r), f) ==
      if Stopped(env) || r.Err? then []
      else Collect(Pushes(Reminders(config, k, v.silentTurns)), f) + Collect(ReplyEvents(env), f)
  {
    var g := GateEvents(env);
    NothingCollected(g, f);
    if Stopped(env) || r.Err? {
      assert g + [] == g;
    } else {
      AskCollected(config, env, k, v, r.value, f);
      CollectAppend(g, AskEvents(config, env, k, v, r.value), f);
    }
  }

  lemma {:induction false} AskCollected<T(!new)>(config: Config, env: Env, k: nat, v: Vars, c: CompactionResult, f: Event -> seq<T>)
    requires Reading(f)
    ensures Collect(AskEvents(config, env, k, v, c), f)
         == Collect(Pushes(Reminders(config, k, v.silentTurns)), f) + Collect(ReplyEvents(env), f)
  {
    var n, p := AnnouncementOf(c, v.input, v.output), Pushes(Reminders(config, k, v.silentTurns));
    var a, d, y := [Asked(AskedWith(config, k, v, c))], DeltaEvents(env.deltas), ReplyEvents(env);
    NothingCollected(n, f);
    NothingCollected(a, f);
    DeltasPass(env.deltas);
    NothingCollected(d, f);
    FiveCollected(n, p, a, d, y, f);
  }

  lemma {:induction false} FiveCollected<T(!new)>(n: seq<Event>, p: seq<Event>, a: seq<Event>, d: seq<Event>, y: seq<Event>, f: Event -> seq<T>)
    requires Collect(n, f) == Collect(a, f) == Collect(d, f) == []
    ensures Collect(n + p + a + d + y, f) == Collect(p, f) + Collect(y, f)
  {
    CollectAppend(n, p, f);
    assert [] + Collect(p, f) == Collect(p, f);
    CollectAppend(n + p, a, f);
    CollectAppend(n + p + a, d, f);
    assert Collect(p, f) + [] == Collect(p, f);
    CollectAppend(n + p + a + d, y, f);
  }

  // ---------- What a whole turn leaves in the journal ----------

  lemma {:induction false} PushesPushed(ms: seq<Message>)
    ensures Collect(Pushes(ms), PushedBy) == ms
  {
    if ms != [] {
      var front, m := ms[..|ms| - 1], ms[|ms| - 1];
      assert ms == front + [m];
      PushesPushed(front);
      CollectSnoc(Pushes(front), Pushed(m), PushedBy);
    }
  }

  /** A reading that collects nothing from pushing these messages. */
  lemma {:induction false} PushesQuiet<T(!new)>(ms: seq<Message>, f: Event -> seq<T>)
    requires forall m | m in ms :: f(Pushed(m)) == []
    ensures Collect(Pushes(ms), f) == []
  {
    if ms != [] {
      var front, m := ms[..|ms| - 1], ms[|ms| - 1];
      assert ms == front + [m];
      PushesQuiet(front, f);
      CollectSnoc(Pushes(front), Pushed(m), f);
    }
  }

  lemma {:induction false} CallsPushed(cs: seq<ToolCall>, tools: nat -> ToolOutcome)
    ensures Collect(CallsEvents(cs, tools), PushedBy) == Replies(cs, tools)
  {
    if cs != [] {
      var k := |cs| - 1;
      CallsPushed(cs[..k], tools);
      CollectAppend(CallsEvents(cs[..k], tools), CallEvents(cs[k], tools(k)), PushedBy);
      CallCollected(cs[k], tools(k), PushedBy);
      RepliesSnoc(cs, tools);
    }
  }

  lemma {:induction false} RepliesSnoc(cs: seq<ToolCall>, tools: nat -> ToolOutcome)
    requires cs != []
    ensures var k := |cs| - 1; Replies(cs, tools) == Replies(cs[..k], tools) + [ReplyTo(cs[k], tools(k))]
  {
  }

  lemma {:induction false} CallsMarked(cs: seq<ToolCall>, tools: nat -> ToolOutcome)
    ensures Collect(CallsEvents(cs, tools), MarksOf) == Brackets(cs)
  {
    if cs != [] {
      var k := |cs| - 1;
      CallsMarked(cs[..k], tools);
      CollectAppend(CallsEvents(cs[..k], tools), CallEvents(cs[k], tools(k)), MarksOf);
      CallMarked(cs[k], tools(k));
    }
  }

  lemma {:induction false} CallMarked(c: ToolCall, o: ToolOutcome)
    ensures Collect(CallEvents(c, o), MarksOf) == [CallMark(c.id), ResultMark(c.id), ReplyMark(c.id)]
  {
    CallCollected(c, o, MarksOf);
  }

  lemma {:induction false} CallsReported(cs: seq<ToolCall>, tools: nat -> ToolOutcome)
    ensures Collect(CallsEvents(cs, tools), ReportedIn) == []
  {
    if cs != [] {
      var k := |cs| - 1;
      CallsReported(cs[..k], tools);
      CollectAppend(CallsEvents(cs[..k], tools), CallEvents(cs[k], tools(k)), ReportedIn);
      CallCollected(cs[k], tools(k), ReportedIn);
    }
  }

  /** The block a reply becomes, the calls it makes and the usage it reports, if there is a reply. */
  function RepliedBlock(env: Env): seq<Message>
  {
    if env.reply.Ok? then BlockOf(env.reply.value, env.tools) else []
  }

  function RepliedCalls(env: Env): seq<ToolCall>
  {
    if env.reply.Ok? then CallsOf(env.reply.value.message) else []
  }

  function RepliedUsage(env: Env): seq<Usage>
  {
    if env.reply.Ok? && env.reply.value.usage.Some? then [env.reply.value.usage.value] else []
  }

  lemma {:induction false} ReplyPushed(env: Env)
    ensures Collect(ReplyEvents(env), PushedBy) == RepliedBlock(env)
  {
    match env.reply
    case Ok(s) => DigestPushed(s, env.tools);
    case Err(e) => CollectOne(TextDelta(LlmError(e)), PushedBy);
  }

  lemma {:induction false} DigestPushed(s: Streamed, tools: nat -> ToolOutcome)
    ensures Collect(DigestEvents(s, tools), PushedBy) == BlockOf(s, tools)
  {
    UsageCollected(s.usage);
    CallsPushed(CallsOf(s.message), tools);
    DigestCollected(s, tools, PushedBy);
    assert [] + [s.message] == [s.message];
  }

  lemma {:induction false} ReplyMarked(env: Env)
    requires env.reply.Ok? ==> !env.reply.value.message.role.Tool?
    ensures Collect(ReplyEvents(env), MarksOf) == Brackets(RepliedCalls(env))
  {
    match env.reply
    case Ok(s) =>
      UsageCollected(s.usage);
      CallsMarked(CallsOf(s.message), env.tools);
      DigestCollected(s, env.tools, MarksOf);
      assert [] + [] + Brackets(CallsOf(s.message)) == Brackets(CallsOf(s.message));
    case Err(e) => CollectOne(TextDelta(LlmError(e)), MarksOf);
  }

  lemma {:induction false} ReplyReported(env: Env)
    ensures Collect(ReplyEvents(env), ReportedIn) == RepliedUsage(env)
  {
    match env.reply
    case Ok(s) =>
      UsageCollected(s.usage);
      CallsReported(CallsOf(s.message), env.tools);
      DigestCollected(s, env.tools, ReportedIn);
    case Err(e) => CollectOne(TextDelta(LlmError(e)), ReportedIn);
  }

  lemma {:induction false} UsageCollected(u: Option<Usage>)
    ensures Collect(UsageEvents(u), PushedBy) == [] && Collect(UsageEvents(u), MarksOf) == []
    ensures Collect(UsageEvents(u), ReportedIn) == if u.Some? then [u.value] else []
  {
    if u.Some? {
      var e := QuotaUpdate(u.value.promptTokens, u.value.completionTokens);
      CollectOne(e, PushedBy);
      CollectOne(e, MarksOf);
      CollectOne(e, ReportedIn);
    }
  }

  /** Whether an iteration gets to ask the model. */
  predicate Asks(env: Env, r: Result<CompactionResult, string>)
  {
    !Stopped(env) && r.Ok?
  }

  /** Iteration by iteration: the reminders due, then the reply with the answers to its calls. */
  function TurnPushed(config: Config, env: nat -> Env, v: Vars, rs: Checks): seq<Message>
  {
    if rs == [] then []
    else
      var k := |rs| - 1;
      var before := TurnVars(config, env, v, rs[..k]);
      TurnPushed(config, env, v, rs[..k])
      + if Asks(env(k), rs[k]) then Reminders(config, k, before.silentTurns) + RepliedBlock(env(k)) else []
  }

  /** Iteration by iteration: for every call of the reply, its three marks. */
  function TurnMarks(env: nat -> Env, rs: Checks): seq<Mark>
  {
    if rs == [] then []
    else
      var k := |rs| - 1;
      TurnMarks(env, rs[..k]) + if Asks(env(k), rs[k]) then Brackets(RepliedCalls(env(k))) else []
  }

  function TurnUsage(env: nat -> Env, rs: Checks): seq<Usage>
  {
    if rs == [] then []
    else
      var k := |rs| - 1;
      TurnUsage(env, rs[..k]) + if Asks(env(k), rs[k]) then RepliedUsage(env(k)) else []
  }

  function InputSum(us: seq<Usage>): nat
  {
    if us == [] then 0 else InputSum(us[..|us| - 1]) + us[|us| - 1].promptTokens
  }

  function OutputSum(us: seq<Usage>): nat
  {
    if us == [] then 0 else OutputSum(us[..|us| - 1]) + us[|us| - 1].completionTokens
  }

  predicate NoToolReplies(env: nat -> Env, n: nat)
  {
    forall i: nat | i < n :: env(i).reply.Ok? ==> !env(i).reply.value.message.role.Tool?
  }

  /** The same, once the two parts are known. */
  lemma {:induction false} IterCollectedAs<T(!new)>(config: Config, env: Env, k: nat, v: Vars, r: Result<CompactionResult, string>,
                                                    f: Event -> seq<T>, a: seq<T>, b: seq<T>)
    requires Reading(f) && Collect(Pushes(Reminders(config, k, v.silentTurns)), f) == a && Collect(ReplyEvents(env), f) == b
    ensures Collect(IterEvents(config, env, k, v, r), f) == if Asks(env, r) then a + b else []
  {
    IterCollected(config, env, k, v, r, f);
  }

  lemma {:induction false} IterPushed(config: Config, env: Env, k: nat, v: Vars, r: Result<CompactionResult, string>)
    ensures Collect(IterEvents(config, env, k, v, r), PushedBy)
         == if Asks(env, r) then Reminders(config, k, v.silentTurns) + RepliedBlock(env) else []
  {
    ReplyPushed(env);
    PushesPushed(Reminders(config, k, v.silentTurns));
    IterCollectedAs(config, env, k, v, r, PushedBy, Reminders(config, k, v.silentTurns), RepliedBlock(env));
  }

  lemma {:induction false} IterMarked(config: Config, env: Env, k: nat, v: Vars, r: Result<CompactionResult, string>)
    requires env.reply.Ok? ==> !env.reply.value.message.role.Tool?
    ensures Collect(IterEvents(config, env, k, v, r), MarksOf) == if Asks(env, r) then Brackets(RepliedCalls(env)) else []
  {
    ReplyMarked(env);
    RemindersMarkNothing(config, k, v.silentTurns);
    IterCollectedAs(config, env, k, v, r, MarksOf, [], Brackets(RepliedCalls(env)));
    assert [] + Brackets(RepliedCalls(env)) == Brackets(RepliedCalls(env));
  }

  lemma {:induction false} RemindersMarkNothing(config: Config, k: nat, silentTurns: nat)
    ensures Collect(Pushes(Reminders(config, k, silentTurns)), MarksOf) == []
    ensures Collect(Pushes(Reminders(config, k, silentTurns)), ReportedIn) == []
  {
    PushesQuiet(Reminders(config, k, silentTurns), MarksOf);
    PushesQuiet(Reminders(config, k, silentTurns), ReportedIn);
  }

  lemma {:induction false} IterReported(config: Config, env: Env, k: nat, v: Vars, r: Result<CompactionResult, string>)
    ensures Collect(IterEvents(config, env, k, v, r), ReportedIn) == if Asks(env, r) then RepliedUsage(env) else []
  {
    ReplyReported(env);
    RemindersMarkNothing(config, k, v.silentTurns);
    IterCollectedAs(config, env, k, v, r, ReportedIn, [], RepliedUsage(env));
    assert [] + RepliedUsage(env) == RepliedUsage(env);
  }

  /** What the journal of a turn says, read for messages, for tool calls and for usage: exactly the
      reminders and replies, the brackets of every call, and the usage, of the iterations that asked. */
  lemma {:induction false} TurnLeaves(config: Config, env: nat -> Env, v: Vars, rs: Checks)
    requires NoToolReplies(env, |rs|)
    ensures var es := TurnEvents(config, env, v, rs);
      && Collect(es, PushedBy) == TurnPushed(config, env, v, rs)
      && Collect(es, MarksOf) == TurnMarks(env, rs)
      && Collect(es, ReportedIn) == TurnUsage(env, rs)
  {
    if rs != [] {
      var k := |rs| - 1;
      var before := TurnVars(config, env, v, rs[..k]);
      var es, last := TurnEvents(config, env, v, rs[..k]), IterEvents(config, env(k), k, before, rs[k]);
      TurnLeaves(config, env, v, rs[..k]);
      IterPushed(config, env(k), k, before, rs[k]);
      IterMarked(config, env(k), k, before, rs[k]);
      IterReported(config, env(k), k, before, rs[k]);
      CollectAppend(es, last, PushedBy);
      CollectAppend(es, last, MarksOf);
      CollectAppend(es, last, ReportedIn);
    }
  }

  /** The token counters are the sums over the usage reported. */
  lemma {:induction false} TurnCounts(config: Config, env: nat -> Env, v: Vars, rs: Checks)
    ensures var w, us := TurnVars(config, env, v, rs), TurnUsage(env, rs);
      w.input == v.input + InputSum(us) && w.output == v.output + OutputSum(us)
  {
    if rs != [] {
      var k := |rs| - 1;
      TurnCounts(config, env, v, rs[..k]);
      var us := TurnUsage(env, rs[..k]);
      if Asks(env(k), rs[k]) && RepliedUsage(env(k)) != [] {
        SumSnoc(us, RepliedUsage(env(k))[0]);
      } else {
        assert us + [] == us;
      }
    }
  }

  lemma {:induction false} SumSnoc(us: seq<Usage>, u: Usage)
    ensures InputSum(us + [u]) == InputSum(us) + u.promptTokens && OutputSum(us + [u]) == OutputSum(us) + u.completionTokens
  {
    assert (us + [u])[..|us|] == us;
  }

  // ---------- What is said in a turn ----------

  /** Everything but asking the model, announcing a compaction and ending the turn. */
  predicate Ordinary(e: Event)
  {
    !e.Asked? && !e.ContextCompacted? && !e.TurnEnd?
  }

  predicate AllOrdinary(es: seq<Event>)
  {
    forall e | e in es :: Ordinary(e)
  }

  lemma {:induction false} PushesAreOrdinary(ms: seq<Message>)
    ensures AllOrdinary(Pushes(ms))
  {
    if ms != [] {
      PushesAreOrdinary(ms[..|ms| - 1]);
    }
  }

  lemma {:induction false} DeltasAreOrdinary(deltas: seq<string>)
    ensures AllOrdinary(DeltaEvents(deltas))
  {
    if deltas != [] {
      DeltasAreOrdinary(deltas[..|deltas| - 1]);
    }
  }

  lemma {:induction false} CallsAreOrdinary(cs: seq<ToolCall>, tools: nat -> ToolOutcome)
    ensures AllOrdinary(CallsEvents(cs, tools))
  {
    if cs != [] {
      CallsAreOrdinary(cs[..|cs| - 1], tools);
    }
  }

  lemma {:induction false} ReplyIsOrdinary(env: Env)
    ensures AllOrdinary(ReplyEvents(env))
  {
    if env.reply.Ok? {
      CallsAreOrdinary(CallsOf(env.reply.value.message), env.tools);
    }
  }

  lemma {:induction false} GateIsOrdinary(env: Env)
    ensures AllOrdinary(GateEvents(env))
  {
  }

  /** An iteration says nothing out of the ordinary but its one question and its one announcement. */
  lemma {:induction false} IterSays(config: Config, env: Env, k: nat, v: Vars, r: Result<CompactionResult, string>, e: Event)
    requires e in IterEvents(config, env, k, v, r) && !Ordinary(e)
    ensures Asks(env, r)
    ensures e == Asked(AskedWith(config, k, v, r.value)) || e in AnnouncementOf(r.value, v.input, v.output)
  {
    GateIsOrdinary(env);
    if Asks(env, r) {
      PushesAreOrdinary(Reminders(config, k, v.silentTurns));
      DeltasAreOrdinary(env.deltas);
      ReplyIsOrdinary(env);
    }
  }

  /** No iteration ends the turn's journal: whatever happens, `turn/end` is not among its events. */
  lemma {:induction false} NoTurnEndInside(config: Config, env: nat -> Env, v: Vars, rs: Checks)
    ensures forall e | e in TurnEvents(config, env, v, rs) :: !e.TurnEnd?
  {
    if rs != [] {
      var k := |rs| - 1;
      var before := TurnVars(config, env, v, rs[..k]);
      NoTurnEndInside(config, env, v, rs[..k]);
      forall e | e in IterEvents(config, env(k), k, before, rs[k])
        ensures !e.TurnEnd?
      {
        if !Ordinary(e) {
          IterSays(config, env(k), k, before, rs[k], e);
        }
      }
    }
  }

  // ---------- What a whole turn keeps ----------

  /** Everything handed to the model or announced as canonical is grouped. */
  predicate SaysGrouped(e: Event)
  {
    (e.Asked? ==> Grouped(e.ms)) && (e.ContextCompacted? ==> Grouped(e.canonical))
  }

  predicate AllGrouped(es: seq<Event>)
  {
    forall e | e in es :: SaysGrouped(e)
  }

  /** Nothing announced as canonical is scaffolding. */
  predicate SaysClean(e: Event)
  {
    e.ContextCompacted? ==> Clean(e.canonical)
  }

  predicate AllClean(es: seq<Event>)
  {
    forall e | e in es :: SaysClean(e)
  }

  lemma {:induction false} RemindersAreBlocks(config: Config, k: nat, silentTurns: nat)
    ensures Grouped(Reminders(config, k, silentTurns)) && Clean(Reminders(config, k, silentTurns))
  {
    var w := if config.maxIterations == k + WIND_DOWN_ITERS then [SystemMessage(WIND_DOWN)] else [];
    var n := if silentTurns >= SILENCE_LIMIT then [SystemMessage(SILENCE_NUDGE)] else [];
    PlainIsGrouped(SystemMessage(WIND_DOWN));
    PlainIsGrouped(SystemMessage(SILENCE_NUDGE));
    GroupedAppend(w, n);
    assert SCAFFOLD_OPEN[0] == '<' && WIND_DOWN[0] == '[' && SILENCE_NUDGE[0] == 'Y';
  }

  /** An assistant message with its replies in call order is a block. */
  lemma {:induction false} ReplyIsBlock(s: Streamed, tools: nat -> ToolOutcome)
    requires ReplyOk(s)
    ensures Grouped(BlockOf(s, tools))
  {
    var block := BlockOf(s, tools);
    if s.message.toolCalls.Some? {
      CallBlockIsGrouped(block);
    } else {
      assert block == [s.message];
      PlainIsGrouped(s.message);
    }
  }

  /** What an iteration compacts to, from a grouped history or one with its scaffolding in front. */
  lemma {:induction false} CheckKeepsShape(config: Config, env: Env, v: Vars, c: CompactionResult)
    requires CompactedAs(config, env, v, Ok(c))
    ensures Grouped(v.messages) ==> Grouped(c.working) && Grouped(c.canonical)
    ensures ScaffoldInFront(v.messages) ==> ScaffoldInFront(c.working) && (c.summary != "" ==> Clean(c.canonical))
  {
    if !Stopped(env) && env.overThreshold && v.compactions < config.maxCompactions {
      CompactionStep(v.messages, config.keepRecent, env.summary, c);
    }
  }

  lemma {:induction false} IterKeepsGrouped(config: Config, env: Env, k: nat, v: Vars, r: Result<CompactionResult, string>)
    requires Grouped(v.messages) && CompactedAs(config, env, v, r) && (env.reply.Ok? ==> ReplyOk(env.reply.value))
    ensures Grouped(IterVars(config, env, k, v, r).messages)
    ensures AllGrouped(IterEvents(config, env, k, v, r))
  {
    if Asks(env, r) {
      var due := Reminders(config, k, v.silentTurns);
      CheckKeepsShape(config, env, v, r.value);
      RemindersAreBlocks(config, k, v.silentTurns);
      GroupedAppend(r.value.working, due);
      if env.reply.Ok? {
        ReplyIsBlock(env.reply.value, env.tools);
        GroupedAppend(r.value.working + due, BlockOf(env.reply.value, env.tools));
      }
    }
    forall e | e in IterEvents(config, env, k, v, r)
      ensures SaysGrouped(e)
    {
      if !Ordinary(e) {
        IterSays(config, env, k, v, r, e);
      }
    }
  }

  predicate RepliesOk(env: nat -> Env, n: nat)
  {
    forall i: nat | i < n :: env(i).reply.Ok? ==> ReplyOk(env(i).reply.value)
  }

  /** Through any number of tool rounds, nudges and compactions, from a grouped history and with replies
      whose ids are distinct, the history stays grouped, and so is every list handed to the model and
      every list announced as canonical. */
  lemma {:induction false} TurnKeepsGrouped(config: Config, env: nat -> Env, v: Vars, rs: Checks)
    requires Grouped(v.messages) && Happened(config, env, v, rs) && RepliesOk(env, |rs|)
    ensures Grouped(TurnVars(config, env, v, rs).messages)
    ensures AllGrouped(TurnEvents(config, env, v, rs))
  {
    if rs != [] {
      var k := |rs| - 1;
      TurnKeepsGrouped(config, env, v, rs[..k]);
      IterKeepsGrouped(config, env(k), k, TurnVars(config, env, v, rs[..k]), rs[k]);
    }
  }

  lemma {:induction false} IterKeepsClean(config: Config, env: Env, k: nat, v: Vars, r: Result<CompactionResult, string>)
    requires ScaffoldInFront(v.messages) && CompactedAs(config, env, v, r)
    requires env.reply.Ok? ==> !IsScaffold(env.reply.value.message)
    ensures ScaffoldInFront(IterVars(config, env, k, v, r).messages)
    ensures AllClean(IterEvents(config, env, k, v, r))
  {
    if Asks(env, r) {
      var due := Reminders(config, k, v.silentTurns);
      CheckKeepsShape(config, env, v, r.value);
      RemindersAreBlocks(config, k, v.silentTurns);
      ExtendKeepsFront(r.value.working, due);
      if env.reply.Ok? {
        ExtendKeepsFront(r.value.working + due, BlockOf(env.reply.value, env.tools));
      }
    }
    forall e | e in IterEvents(config, env, k, v, r)
      ensures SaysClean(e)
    {
      if !Ordinary(e) {
        IterSays(config, env, k, v, r, e);
      }
    }
  }

  /** No reply is itself a scaffolding message, which only system messages are. */
  predicate RepliesClean(env: nat -> Env, n: nat)
  {
    forall i: nat | i < n :: env(i).reply.Ok? ==> !IsScaffold(env(i).reply.value.message)
  }

  /** From a history with its scaffolding in front, it stays there, and none is ever announced as
      canonical; groupedness plays no part in this. */
  lemma {:induction false} TurnKeepsClean(config: Config, env: nat -> Env, v: Vars, rs: Checks)
    requires ScaffoldInFront(v.messages) && Happened(config, env, v, rs) && RepliesClean(env, |rs|)
    ensures ScaffoldInFront(TurnVars(config, env, v, rs).messages)
    ensures AllClean(TurnEvents(config, env, v, rs))
  {
    if rs != [] {
      var k := |rs| - 1;
      TurnKeepsClean(config, env, v, rs[..k]);
      IterKeepsClean(config, env(k), k, TurnVars(config, env, v, rs[..k]), rs[k]);
    }
  }

  predicate IsTail(x: seq<Message>, y: seq<Message>)
  {
    |x| <= |y| && x == y[|y| - |x|..]
  }

  /** `x` is a tail of the conversation as it really was before iteration `k`: the initial messages and
      all that was pushed. */
  predicate RealTail(config: Config, env: nat -> Env, v: Vars, rs: Checks, x: seq<Message>, k: nat)
  {
    k < |rs| && IsTail(x, v.messages + TurnPushed(config, env, v, rs[..k]))
  }

  /** Whatever the history holds, what is announced as canonical is a tail of the real conversation. No
      summary message of this turn is among it, so it is clean exactly if those real messages are. */
  lemma {:induction false} CanonicalIsRealTail(config: Config, env: nat -> Env, v: Vars, rs: Checks, e: Event)
    requires Happened(config, env, v, rs) && e in TurnEvents(config, env, v, rs) && e.ContextCompacted?
    ensures exists k: nat :: RealTail(config, env, v, rs, e.canonical, k)
  {
    var k := |rs| - 1;
    if e in TurnEvents(config, env, v, rs[..k]) {
      CanonicalIsRealTail(config, env, v, rs[..k], e);
      var n: nat :| RealTail(config, env, v, rs[..k], e.canonical, n);
      RealTailOfFront(config, env, v, rs, e.canonical, n);
    } else {
      var front, from := TurnKeepsTail(config, env, v, rs[..k]);
      IterCanonical(config, env(k), k, TurnVars(config, env, v, rs[..k]), rs[k], e,
                    v.messages + TurnPushed(config, env, v, rs[..k]), front, from);
      assert RealTail(config, env, v, rs, e.canonical, k);
    }
  }

  lemma {:induction false} RealTailOfFront(config: Config, env: nat -> Env, v: Vars, rs: Checks, x: seq<Message>, n: nat)
    requires rs != [] && RealTail(config, env, v, rs[..|rs| - 1], x, n)
    ensures RealTail(config, env, v, rs, x, n)
  {
    assert rs[..|rs| - 1][..n] == rs[..n];
  }

  lemma {:induction false} IterCanonical(config: Config, env: Env, k: nat, v: Vars, r: Result<CompactionResult, string>, e: Event,
                                         full: seq<Message>, front: nat, from: nat)
    requires CompactedAs(config, env, v, r) && e in IterEvents(config, env, k, v, r) && e.ContextCompacted?
    requires KeepsTail(v.messages, full, front, from)
    ensures IsTail(e.canonical, full)
  {
    IterSays(config, env, k, v, r, e);
    CutOfTail(v.messages, full, front, from, config.keepRecent, env.summary, r.value);
  }

  lemma {:induction false} CutOfTail(h: seq<Message>, full: seq<Message>, front: nat, from: nat, keepRecent: nat,
                                     reply: Result<string, string>, r: CompactionResult)
    requires KeepsTail(h, full, front, from) && Compacted(h, keepRecent, reply, Ok(r)) && r.summary != ""
    ensures IsTail(r.canonical, full)
  {
    var split: nat :| split <= |h| && CompactsAt(h, keepRecent, split) && Ok(r) == CutWith(h, split, reply);
    assert front <= split;
    assert h[split..] == h[front..][split - front..];
    assert h[split..] == full[from + (split - front)..];
  }

  /** Either way a compaction goes, an unbroken tail is kept. */
  lemma {:induction false} TailAfterCompaction(h: seq<Message>, full: seq<Message>, front: nat, from: nat, keepRecent: nat,
                            reply: Result<string, string>, r: CompactionResult)
    returns (front': nat, from': nat)
    requires KeepsTail(h, full, front, from) && Compacted(h, keepRecent, reply, Ok(r))
    ensures KeepsTail(r.working, full, front', from')
  {
    if r == CompactionResult(h, h, "") {
      front', from' := front, from;
    } else {
      var split: nat :| split <= |h| && CompactsAt(h, keepRecent, split) && Ok(r) == CutWith(h, split, reply);
      front', from' := KeepsTailStep(h, full, front, from, Compact(keepRecent, split, reply.value));
    }
  }

  lemma {:induction false} TailExtends(h: seq<Message>, full: seq<Message>, front: nat, from: nat, more: seq<Message>)
    requires KeepsTail(h, full, front, from)
    ensures KeepsTail(h + more, full + more, front, from)
  {
    assert (h + more)[front..] == h[front..] + more;
    assert (full + more)[from..] == full[from..] + more;
  }

  lemma {:induction false} IterKeepsTail(config: Config, env: Env, k: nat, v: Vars, r: Result<CompactionResult, string>,
                                         full: seq<Message>, front: nat, from: nat)
    returns (front': nat, from': nat)
    requires KeepsTail(v.messages, full, front, from) && CompactedAs(config, env, v, r) && Asks(env, r)
    ensures var more := Reminders(config, k, v.silentTurns) + RepliedBlock(env);
      KeepsTail(IterVars(config, env, k, v, r).messages, full + more, front', from')
  {
    var c, due, block := r.value, Reminders(config, k, v.silentTurns), RepliedBlock(env);
    front', from' := front, from;
    if !Stopped(env) && env.overThreshold && v.compactions < config.maxCompactions {
      front', from' := TailAfterCompaction(v.messages, full, front, from, config.keepRecent, env.summary, c);
    }
    TailExtends(c.working, full, front', from', due + block);
    Associate(c.working, due, block);
    if env.reply.Err? {
      assert due + [] == due;
    }
  }

  /** After at most two leading messages the history is an unbroken tail of all there ever was: the
      initial messages and everything pushed since. */
  lemma {:induction false} TurnKeepsTail(config: Config, env: nat -> Env, v: Vars, rs: Checks) returns (front: nat, from: nat)
    requires Happened(config, env, v, rs)
    ensures KeepsTail(TurnVars(config, env, v, rs).messages, v.messages + TurnPushed(config, env, v, rs), front, from)
  {
    if rs == [] {
      front, from := 0, 0;
      assert v.messages + [] == v.messages;
    } else {
      var k := |rs| - 1;
      var before, pushed := TurnVars(config, env, v, rs[..k]), TurnPushed(config, env, v, rs[..k]);
      front, from := TurnKeepsTail(config, env, v, rs[..k]);
      if Asks(env(k), rs[k]) {
        front, from := IterKeepsTail(config, env(k), k, before, rs[k], v.messages + pushed, front, from);
        Associate(v.messages, pushed, Reminders(config, k, before.silentTurns) + RepliedBlock(env(k)));
      } else {
        assert pushed + [] == pushed;
      }
    }
  }

  // ---------- Announced compactions ----------

  function AnnouncedBy(e: Event): seq<string>
  {
    if e.ContextCompacted? then [e.summary] else []
  }

  predicate NoneAnnounced(es: seq<Event>)
  {
    forall e | e in es :: !e.ContextCompacted?
  }

  lemma {:induction false} NoAnnouncements(es: seq<Event>)
    requires NoneAnnounced(es)
    ensures Collect(es, AnnouncedBy) == []
  {
    CollectNothing(es, AnnouncedBy);
  }

  lemma {:induction false} AskAnnounces(config: Config, env: Env, k: nat, v: Vars, c: CompactionResult)
    ensures Collect(AskEvents(config, env, k, v, c), AnnouncedBy) == if c.summary != "" then [c.summary] else []
  {
    var n, p := AnnouncementOf(c, v.input, v.output), Pushes(Reminders(config, k, v.silentTurns));
    var a, d, y := [Asked(AskedWith(config, k, v, c))], DeltaEvents(env.deltas), ReplyEvents(env);
    PushesAreOrdinary(Reminders(config, k, v.silentTurns));
    DeltasAreOrdinary(env.deltas);
    ReplyIsOrdinary(env);
    OnlyFirstAnnounces(n, p, a, d, y);
    if c.summary != "" {
      CollectOne(n[0], AnnouncedBy);
    }
  }

  lemma {:induction false} OnlyFirstAnnounces(n: seq<Event>, p: seq<Event>, a: seq<Event>, d: seq<Event>, y: seq<Event>)
    requires NoneAnnounced(p) && NoneAnnounced(a) && NoneAnnounced(d) && NoneAnnounced(y)
    ensures Collect(n + p + a + d + y, AnnouncedBy) == Collect(n, AnnouncedBy)
  {
    QuietAfter(n, p);
    QuietAfter(n + p, a);
    QuietAfter(n + p + a, d);
    QuietAfter(n + p + a + d, y);
  }

  lemma {:induction false} QuietAfter(x: seq<Event>, y: seq<Event>)
    requires NoneAnnounced(y)
    ensures Collect(x + y, AnnouncedBy) == Collect(x, AnnouncedBy)
  {
    CollectAppend(x, y, AnnouncedBy);
    NoAnnouncements(y);
  }

  /** An iteration counts the compaction it announces, if it announces one. */
  lemma {:induction false} IterAnnounces(config: Config, env: Env, k: nat, v: Vars, r: Result<CompactionResult, string>)
    requires CompactedAs(config, env, v, r) && v.compactions <= config.maxCompactions
    ensures IterVars(config, env, k, v, r).compactions
         == v.compactions + |Collect(IterEvents(config, env, k, v, r), AnnouncedBy)| <= config.maxCompactions
  {
    var g := GateEvents(env);
    GateIsOrdinary(env);
    NoAnnouncements(g);
    if Asks(env, r) {
      var a := AskEvents(config, env, k, v, r.value);
      assert |Collect(a, AnnouncedBy)| == (if r.value.summary != "" then 1 else 0) by { AskAnnounces(config, env, k, v, r.value); }
      CollectAppend(g, a, AnnouncedBy);
    } else {
      assert g + [] == g;
    }
  }

  /** The compactions announced are those counted, and never more than allowed. */
  lemma {:induction false} TurnAnnounces(config: Config, env: nat -> Env, v: Vars, rs: Checks)
    requires Happened(config, env, v, rs) && v.compactions <= config.maxCompactions
    ensures TurnVars(config, env, v, rs).compactions
         == v.compactions + |Collect(TurnEvents(config, env, v, rs), AnnouncedBy)| <= config.maxCompactions
  {
    if rs != [] {
      var k := |rs| - 1;
      var before, es := TurnVars(config, env, v, rs[..k]), TurnEvents(config, env, v, rs[..k]);
      TurnAnnounces(config, env, v, rs[..k]);
      IterAnnounces(config, env(k), k, before, rs[k]);
      AnnouncedTogether(es, IterEvents(config, env(k), k, before, rs[k]));
    }
  }

  lemma {:induction false} AnnouncedTogether(x: seq<Event>, y: seq<Event>)
    ensures |Collect(x + y, AnnouncedBy)| == |Collect(x, AnnouncedBy)| + |Collect(y, AnnouncedBy)|
  {
    CollectAppend(x, y, AnnouncedBy);
  }
}
