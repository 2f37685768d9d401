/**
 * A turn of the agent loop as data: what each part of an iteration says and does, and what iterations
 * and turns come to. The journal records, in order, every ACP call, every message pushed onto the
 * history and every list handed to the model. The model, the tools, clocks and failing calls are the
 * environment.
 */
module Turns {
  import opened Prelude
  import opened Conversation
  import opened Compaction

  const WIND_DOWN_ITERS: nat := 5
  const SILENCE_LIMIT: nat := 3

  // The two reminders are written as a short head and the rest: the head alone tells them from
  // `<compacted_context>` scaffolding.
  const WIND_DOWN := "[System: " + "5 iterations remaining. Wrap up your work.]"
  const SILENCE_NUDGE :=
    "You haven't " + "produced any output. Please respond to the user or explain what you're working on."

  /** What became of one tool call: bad arguments, or a run locally or through the tunnel. */
  datatype ToolOutcome =
    | BadArguments(error: string)
    | Ran(viaTunnel: bool, result: Result<Content, string>)

  /** The environment of one iteration. `quota` is None when the call fails. */
  datatype Env = Env(
    timedOut: bool,
    heartbeatDue: bool,
    quota: Option<bool>,
    overThreshold: bool,
    summary: Result<string, string>,
    deltas: seq<string>,
    reply: Result<Streamed, string>,
    tools: nat -> ToolOutcome,
    noticeFails: bool)

  datatype Config = Config(maxIterations: nat, keepRecent: nat, maxCompactions: nat)

  datatype Event =
    | TextDelta(text: string)
    | Heartbeat
    | QuotaCheck
    | QuotaUpdate(input: nat, output: nat)
    | Activity(text: string)
    | ToolCallSent(id: string, name: string)
    | ToolResultSent(id: string, content: Content, isError: bool)
    | ToolsCall(name: string)
    | ContextCompacted(summary: string, canonical: seq<Message>, input: nat, output: nat)
    | TurnEnd(input: nat, output: nat)
    | Pushed(m: Message)
    | Asked(ms: seq<Message>)

  // ---------- What each part of an iteration says and does ----------

  datatype Flow = Continue | Break | Fail(error: string)

  const TIMED_OUT := "\n\n[Session timed out]"
  const QUOTA_EXHAUSTED := "\n\n[Quota exhausted]"
  const TRUNCATED := "\n\n[Response truncated due to length limit]"
  const FILTERED := "\n\n[Content filtered]"

  function LlmError(e: string): string
  {
    "\n\n[LLM error: " + e + "]"
  }

  function NoticeFlow(fails: bool): Flow
  {
    if fails then Fail("write") else Break
  }

  /** Timeout or an exhausted quota: the iteration ends before anything is done. */
  predicate Stopped(env: Env)
  {
    env.timedOut || env.quota == Some(false)
  }

  function GateEvents(env: Env): seq<Event>
  {
    if env.timedOut then [TextDelta(TIMED_OUT)]
    else
      (if env.heartbeatDue then [Heartbeat] else []) + [QuotaCheck]
      + (if env.quota == Some(false) then [TextDelta(QUOTA_EXHAUSTED)] else [])
  }

  function AnnouncementOf(c: CompactionResult, input: nat, output: nat): seq<Event>
  {
    if c.summary != "" then [ContextCompacted(c.summary, c.canonical, input, output)] else []
  }

  /** The reminders due before the model is asked. */
  function Reminders(config: Config, iteration: nat, silentTurns: nat): seq<Message>
  {
    (if config.maxIterations == iteration + WIND_DOWN_ITERS then [SystemMessage(WIND_DOWN)] else [])
    + (if silentTurns >= SILENCE_LIMIT then [SystemMessage(SILENCE_NUDGE)] else [])
  }

  function Pushes(ms: seq<Message>): seq<Event>
  {
    if ms == [] then [] else Pushes(ms[..|ms| - 1]) + [Pushed(ms[|ms| - 1])]
  }

  /** The collected text, without the empty deltas. */
  function DeltaEvents(deltas: seq<string>): seq<Event>
  {
    if deltas == [] then []
    else
      DeltaEvents(deltas[..|deltas| - 1])
      + if deltas[|deltas| - 1] != "" then [TextDelta(deltas[|deltas| - 1])] else []
  }

  function ReplyContent(o: ToolOutcome): Content
  {
    match o
    case BadArguments(error) => Text(error)
    case Ran(_, Ok(content)) => content
    case Ran(_, Err(error)) => Text("Error: " + error)
  }

  function ActivityOf(c: ToolCall, o: ToolOutcome): string
  {
    if o.BadArguments? then "Invalid tool arguments: " + c.name else "Running tool: " + c.name
  }

  function ReplyTo(c: ToolCall, o: ToolOutcome): (r: Message)
    ensures Answers(r, c)
  {
    ToolReply(c.id, ReplyContent(o))
  }

  /** The ACP calls and the reply for one tool call; bad arguments are answered without a run. */
  function CallEvents(c: ToolCall, o: ToolOutcome): seq<Event>
  {
    [Activity(ActivityOf(c, o)), ToolCallSent(c.id, c.name)]
    + (if o.Ran? && o.viaTunnel then [ToolsCall(c.name)] else [])
    + [ToolResultSent(c.id, ReplyContent(o), o.BadArguments? || o.result.Err?), Pushed(ReplyTo(c, o))]
  }

  function CallsEvents(cs: seq<ToolCall>, tools: nat -> ToolOutcome): seq<Event>
  {
    if cs == [] then [] else CallsEvents(cs[..|cs| - 1], tools) + CallEvents(cs[|cs| - 1], tools(|cs| - 1))
  }

  /** One reply per call, in call order. */
  function Replies(cs: seq<ToolCall>, tools: nat -> ToolOutcome): (r: seq<Message>)
    ensures |r| == |cs| && forall i | 0 <= i < |cs| :: r[i] == ReplyTo(cs[i], tools(i)) && Answers(r[i], cs[i])
  {
    seq(|cs|, i requires 0 <= i < |cs| => ReplyTo(cs[i], tools(i)))
  }

  function UsageEvents(u: Option<Usage>): seq<Event>
  {
    if u.Some? then [QuotaUpdate(u.value.promptTokens, u.value.completionTokens)] else []
  }

  /** How a reply without tool calls ends the turn: with which notice, if any. */
  function NoticeFor(finish: Option<StopReason>): Option<string>
  {
    if finish == Some(Length) then Some(TRUNCATED)
    else if finish == Some(ContentFilter) then Some(FILTERED)
    else None
  }

  function FlowAfter(s: Streamed, fails: bool): Flow
  {
    if s.message.toolCalls.Some? || s.finish == Some(ToolCalls) then Continue
    else if NoticeFor(s.finish).Some? then NoticeFlow(fails)
    else Break
  }

  function NoticeEvents(s: Streamed): seq<Event>
  {
    if s.message.toolCalls.None? && NoticeFor(s.finish).Some? then [TextDelta(NoticeFor(s.finish).value)] else []
  }

  /** A reply and the answers to its calls, as they enter the history. */
  function BlockOf(s: Streamed, tools: nat -> ToolOutcome): seq<Message>
  {
    [s.message] + Replies(CallsOf(s.message), tools)
  }

  function DigestEvents(s: Streamed, tools: nat -> ToolOutcome): seq<Event>
  {
    UsageEvents(s.usage) + [Pushed(s.message)] + CallsEvents(CallsOf(s.message), tools) + NoticeEvents(s)
  }

  function ReplyEvents(env: Env): seq<Event>
  {
    match env.reply
    case Ok(s) => DigestEvents(s, env.tools)
    case Err(e) => [TextDelta(LlmError(e))]
  }

  // ---------- What an iteration and a turn come to ----------

  /** The variables of the loop. */
  datatype Vars = Vars(messages: seq<Message>, silentTurns: nat, compactions: nat, input: nat, output: nat)

  /** What the compaction check of an iteration came to, if the iteration gets there: `r` is the
      history itself unless the check fires over the threshold and below the limit. */
  ghost predicate CompactedAs(config: Config, env: Env, v: Vars, r: Result<CompactionResult, string>)
  {
    if !Stopped(env) && env.overThreshold && v.compactions < config.maxCompactions
    then Compacted(v.messages, config.keepRecent, env.summary, r)
    else r == Ok(CompactionResult(v.messages, v.messages, ""))
  }

  /** The list the model is asked with: the compacted history and the reminders due. */
  function AskedWith(config: Config, k: nat, v: Vars, c: CompactionResult): seq<Message>
  {
    c.working + Reminders(config, k, v.silentTurns)
  }

  /** Everything from the compaction on, when the iteration gets that far. */
  function AskEvents(config: Config, env: Env, k: nat, v: Vars, c: CompactionResult): seq<Event>
  {
    AnnouncementOf(c, v.input, v.output) + Pushes(Reminders(config, k, v.silentTurns))
    + [Asked(AskedWith(config, k, v, c))] + DeltaEvents(env.deltas) + ReplyEvents(env)
  }

  function IterEvents(config: Config, env: Env, k: nat, v: Vars, r: Result<CompactionResult, string>): seq<Event>
  {
    GateEvents(env) + if Stopped(env) || r.Err? then [] else AskEvents(config, env, k, v, r.value)
  }

  function Prepared(config: Config, k: nat, v: Vars, c: CompactionResult): Vars
  {
    Vars(
      AskedWith(config, k, v, c),
      if v.silentTurns >= SILENCE_LIMIT then 0 else v.silentTurns,
      v.compactions + (if c.summary != "" then 1 else 0),
      v.input, v.output)
  }

  function Digested(v: Vars, s: Streamed, tools: nat -> ToolOutcome): Vars
  {
    Vars(
      v.messages + BlockOf(s, tools),
      if s.message.content.Some? || s.message.toolCalls.Some? then 0 else v.silentTurns + 1,
      v.compactions,
      v.input + (if s.usage.Some? then s.usage.value.promptTokens else 0),
      v.output + (if s.usage.Some? then s.usage.value.completionTokens else 0))
  }

  function IterVars(config: Config, env: Env, k: nat, v: Vars, r: Result<CompactionResult, string>): Vars
  {
    if Stopped(env) || r.Err? then v
    else
      var v1 := Prepared(config, k, v, r.value);
      if env.reply.Ok? then Digested(v1, env.reply.value, env.tools) else v1
  }

  function IterFlow(env: Env, r: Result<CompactionResult, string>): Flow
  {
    if Stopped(env) then NoticeFlow(env.noticeFails)
    else if r.Err? then Fail(r.error)
    else if env.reply.Err? then NoticeFlow(env.noticeFails)
    else FlowAfter(env.reply.value, env.noticeFails)
  }

  /** Outcomes of the compaction checks, one per iteration begun. */
  type Checks = seq<Result<CompactionResult, string>>

  /** The loop variables after the iterations with these compaction outcomes. */
  function TurnVars(config: Config, env: nat -> Env, v: Vars, rs: Checks): Vars
  {
    if rs == [] then v
    else
      var k := |rs| - 1;
      IterVars(config, env(k), k, TurnVars(config, env, v, rs[..k]), rs[k])
  }

  function TurnEvents(config: Config, env: nat -> Env, v: Vars, rs: Checks): seq<Event>
  {
    if rs == [] then []
    else
      var k := |rs| - 1;
      TurnEvents(config, env, v, rs[..k]) + IterEvents(config, env(k), k, TurnVars(config, env, v, rs[..k]), rs[k])
  }

  /** The iterations happened one after the other, each but the last letting the turn go on. */
  ghost predicate Happened(config: Config, env: nat -> Env, v: Vars, rs: Checks)
  {
    rs == [] || (
      var k := |rs| - 1;
      && Happened(config, env, v, rs[..k])
      && CompactedAs(config, env(k), TurnVars(config, env, v, rs[..k]), rs[k])
      && (k > 0 ==> IterFlow(env(k - 1), rs[k - 1]).Continue?))
  }

  /** How a turn that went through these iterations was left: at the limit, or by the last one. */
  predicate Ended(config: Config, env: nat -> Env, rs: Checks)
  {
    && |rs| <= config.maxIterations
    && (|rs| == config.maxIterations || (rs != [] && !IterFlow(env(|rs| - 1), rs[|rs| - 1]).Continue?))
  }

  /** The error the last iteration failed with, if it did. */
  function FailureOf(env: nat -> Env, rs: Checks): Option<string>
  {
    if rs == [] then None
    else
      match IterFlow(env(|rs| - 1), rs[|rs| - 1])
      case Fail(e) => Some(e)
      case _ => None
  }

  /** The journal of a turn that went through these iterations and succeeded or not. */
  function JournalOf(config: Config, env: nat -> Env, v: Vars, rs: Checks, ok: bool): seq<Event>
  {
    var w := TurnVars(config, env, v, rs);
    TurnEvents(config, env, v, rs) + if ok then [TurnEnd(w.input, w.output)] else []
  }
}
