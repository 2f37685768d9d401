# over/ACP in Dafny

A Dafny model of the hard parts of over/ACP, a message broker for agents with a stdio supervisor and
a reference agent loop, and proofs about it.

- **Redis high availability.** `RedisInbox` is a step system over the inbox stream, its consumer
  group, pending list and DLQ, with abort and crash possible between any two commands;
  `InboxConsumer` is the consumer task and its autoclaim sweep as imperative code issuing those
  steps; `InboxRedelivery` says which entries a task's own reads hand over. `RedisLease` is the owner
  key with its expiry, the two compare-and-set scripts and the heartbeat task.
- **In-memory broker.** `Broker` interleaves posts, connects, drains, replays, lease drops and
  disconnects; `BrokerOrder` says when live frames overtake buffered ones, `BrokerWaiting` when a
  frame waits in the buffer although its agent is served; `BrokerTasks` is the request handler and
  the tunnel task as paths through it.
  `Registry` is the connected table with its log of recent disconnects, `Queues` the two offline
  buffers.
- **Tunnel JSON-RPC.** `JsonRpc` (dispatch), `AcpClient` (the demultiplexing client) and `Tunnel`
  (both ends over two FIFO channels), after sections 4.1 and 5 of JSON-RPC 2.0.
- **Agent loop.** `Conversation` is the grammar of call blocks, `Compaction` the cutting of
  histories. `Turns` is a turn as data, `TurnJournal` what its journal holds and its history keeps,
  `TurnEnvironment` the turn said from its environment alone, and `AgenticLoop` the loop itself.
- **LLM client.** `Utf8` (lossy decoding chunk by chunk), `ChunkedLines` and `TextLines`
  (incremental line splitting), `Sse`, `OrdinaryStreams` (what the streams providers send come to),
  `ToolAssembly`, `Retry` and `StreamCompletion`.
- **Small formats.** `RateLimit`, `Reference` and `Bridge`.

`dafny verify dfyconfig.toml` checks the whole project. Code that updates state step by step is
modelled by classes and loops proved against specification functions; concurrent code by step
systems whose steps are the atomic commands, with history variables that only record what happened.

Where code and prose disagree the model follows the code:

- The comment at server/src/redis_backend/inbox.rs:226-227 expects autoclaimed entries to be re-read
  by the running consumer. They are not once it reads new entries: a reachable state is
  `InboxRedelivery.ClaimedEntryIsStranded`, the exact condition `InboxRedelivery.HandedOverIff`.
- The comment at server/src/registry/agent.rs:235-240 says a listing or description racing a
  registration always sees the agent. Both read the table and the log at different moments and can
  miss it: `Registry.ReturningAgentIsMissed`, with the exact conditions in
  `Registry.RacingListMissesIff` and `Registry.RacingDescribeMissesIff`. Even at a single instant a
  late purge can hide a disconnected agent: `Registry.LatePurgeForgetsDisconnect`, exactly when
  `Registry.StaysVisibleIff` says.
- The comment at server/src/tunnel/run.rs:68-70 says the agent sees buffered frames first. A frame
  handed over before the drain, or between two replays, comes before them:
  `BrokerOrder.OvertakenBeforeDrain`, `BrokerOrder.OvertakenBetweenReplays`, with the exact condition
  in `BrokerOrder.OvertakenIff`.

## Model

| member | source | states |
|---|---|---|
| RedisInbox.NoLiveFrameIsLost | server/src/redis_backend/registry.rs:44-50 | In every interleaving of deliver, read, send, ack, abort, crash, autoclaim and dead-letter steps, each frame `deliver` called Live is in exactly one of unread, pending, acknowledged; it is acknowledged only once a tunnel channel or the DLQ has it unaltered; first reads follow XADD order across all owners; no task is handed one entry twice |
| RedisInbox.RunKeepsInv | server/src/redis_backend/inbox.rs:73-229 | The whole inbox invariant holds after any run of enabled steps from any state that has it |
| RedisInbox.StepKeepsInv | server/src/redis_backend/inbox.rs:73-229 | Each single step (every command of the consumer loop and of the sweep, plus abort and crash) keeps the invariant |
| RedisInbox.FaultsStrikeAnytime | server/src/redis_backend/registry.rs:116-125 | The fault model: in every phase a task may be aborted and its tunnel closed, and everything outside the task may happen |
| RedisInbox.AckedIsSafelyGone | server/src/redis_backend/inbox.rs:98-113 | An acknowledged live frame was handed to a channel or copied to the DLQ with the text that was delivered |
| RedisInbox.ClaimAloneNeverRedelivers | server/src/redis_backend/inbox.rs:226-227 | While no new consumer task starts, an already read entry that nobody holds while nobody replays a backlog is never handed over again, however often it is claimed |
| InboxRedelivery.HandedOverIff | server/src/redis_backend/inbox.rs:226-227 | Claimed or not, and wherever its task stands, an entry read before is handed over by the task's own steps if and only if the task is in its read loop, has not just forwarded that entry, its tunnel listens, and either it holds the entry and the entry decodes, or it still replays its backlog, owns the entry, and everything it owns up to it decodes |
| InboxRedelivery.BacklogIsReplayed | server/src/redis_backend/inbox.rs:69-125 | Left to its own reads, a consumer hands over exactly the entries pending under its name before the first undecodable one, lowest id first, and acknowledges each |
| InboxRedelivery.TurnsToNewIff | server/src/redis_backend/inbox.rs:116-125 | A replaying consumer left to its own reads ever turns to new entries if and only if everything pending under its name decodes |
| InboxRedelivery.PoisonIsReadAgain | server/src/redis_backend/inbox.rs:90-119 | An undecodable lowest entry is read and skipped back to the same tasks, history and backlog, with its idle time reset, so that no sweep can claim it while polling goes on |
| InboxRedelivery.ReplayRound | server/src/redis_backend/inbox.rs:77-113 | One read, send, acknowledge round hands over and acknowledges the lowest decodable backlog entry |
| InboxRedelivery.ClaimedEntryIsStranded | server/src/redis_backend/inbox.rs:154-229 | A run from any initial state: a live frame is read by a consumer that dies, claimed by the next, which has already turned to new entries, and stranded there |
| InboxConsumer.AutoclaimOrphaned | server/src/redis_backend/inbox.rs:154-229 | Entry by entry: a sweep claims an entry if and only if it was pending and idle for 300 s, among the first hundred pending and the first ten such; a claimed one delivered at least twice before, or over 14,400,000 ms old, goes to the DLQ once, with its frame and its counter one higher, and is no longer pending; any other claimed one is pending for this consumer with the counter one higher; the rest stays as it was. It is a path through the step system |
| InboxConsumer.SweepSettles | server/src/redis_backend/inbox.rs:178-229 | The commands of a sweep settle every pending entry in exactly that way and write no other letter |
| InboxConsumer.ScanMeans | server/src/redis_backend/inbox.rs:161-176 | The scan of XAUTOCLAIM picks an entry if and only if it is idle long enough and too few pending or idle ones come before it |
| InboxConsumer.Bury | server/src/redis_backend/inbox.rs:187-217 | The judged entry is appended to the DLQ with its frame and delivery count and leaves the pending list; it is acknowledged in no other way |
| InboxConsumer.Forward | server/src/redis_backend/inbox.rs:88-113 | The held entry is handed over with its frame and acknowledged; with the tunnel gone the task ends and nothing changes; an undecodable entry stays pending |
| InboxConsumer.ReadAndForward | server/src/redis_backend/inbox.rs:77-125 | Reading and forwarding in either mode, with the exact effect on stream cursor, pending list and acknowledgements |
| InboxConsumer.World.Sound | server/src/redis_backend/inbox.rs:73-229 | Every state the imperative code reaches has the invariant of the step system for its task |
| InboxConsumer.Poll | server/src/redis_backend/inbox.rs:73-140 | One iteration of the consumer loop: in either mode the next entry is handed over and acknowledged and nothing else moves, an empty backlog switches to new entries, the task ends exactly if its tunnel is gone and there is a frame for it, and exactly every 1500th poll sweeps, with what a sweep does to each entry |
| RedisLease.LiveExactlyWhilePunctual | server/src/redis_backend/lease.rs:176-204 | For a latest acquirer whose instance id no still active lease shares, as long as it is not released, `deliver` answers Live at every moment of the run if and only if its renewals come with gaps under 30 s, failed calls that took effect included; meanwhile no late heartbeat or release of a superseded holder changes, extends or removes its key, and every superseded heartbeat stops at its next tick |
| RedisLease.AlwaysLiveIff | server/src/redis_backend/lease.rs:38-53 | On every run, with any takeovers, reconnects on one instance and releases, `deliver` answers Live at every moment if and only if no TTL passes without an acquisition or a renewal by a lease of the instance that acquired last, and no lease of that instance is released |
| RedisLease.AcquireThenLive | server/src/redis_backend/lease.rs:95-204 | The same from the moment of acquisition in any reachable state |
| RedisLease.OwnerIsAlwaysLatest | server/src/redis_backend/lease.rs:95-130 | In every reachable state a non-empty owner key names the instance that acquired last |
| RedisLease.OwnerIsLatestAcquirer | server/src/redis_backend/lease.rs:38-53 | The two compare-and-set scripts keep that invariant along every run |
| RedisLease.FaultsStrikeAnytime | server/src/redis_backend/lease.rs:176-231 | The fault model: holders may leave or crash at any time, and any heartbeat may fail with or without having taken effect |
| RedisLease.LapsedStaysLapsed | server/src/redis_backend/lease.rs:38-45 | Once the owner key has lapsed or been deleted only a new acquisition brings it back |
| RedisLease.ReleaseSparesOwnerIff | server/src/redis_backend/lease.rs:219-231 | A late release spares the current owner exactly when it comes from a different instance |
| RedisLease.SameInstanceReleaseEvictsNewer | server/src/redis_backend/registry.rs:116-125 | A reconnect on one instance followed by the old lease's release leaves the agent without an owner |
| RedisLease.LeaseServer.AcquireLease | server/src/redis_backend/lease.rs:95-130 | Whatever others do between its GET and its SET, acquiring overwrites any owner with the full TTL; it reports a takeover exactly if another instance owned the key at the GET |
| RedisLease.LeaseServer.HeartbeatTask | server/src/redis_backend/lease.rs:176-204 | Undisturbed, the heartbeat task survives all its pauses exactly when each is shorter than the TTL, and stops at the first failed renewal |
| Conversation.BoundaryIffAnswered | loop/src/compaction.rs:119-139 | On a grouped history the set of unanswered calls is empty exactly at block boundaries, even when ids repeat across messages, and a cut there leaves a grouped remainder |
| Conversation.UnansweredMeans | loop/src/compaction.rs:119-139 | On any history, an id is left in the set exactly if some message calls it and no later Tool message carries it |
| Conversation.BoundaryBelow | loop/src/compaction.rs:109-115 | The last boundary at or before a position is less than one call block away |
| Conversation.GroupedAppend | loop/src/compaction.rs:77-91 | Appending whole blocks keeps a history grouped |
| Compaction.HasStraddlingPair | loop/src/compaction.rs:119-139 | On any history, the two-loop set check answers exactly whether some call in the slice has no later reply in it |
| Compaction.StraddlesIffUnanswered | loop/src/compaction.rs:119-139 | The set the loop builds is empty exactly if no call is left without a later reply |
| Compaction.FindSafeSplit | loop/src/compaction.rs:109-115 | The result is the greatest index between start and the proposed split such that every call before it has a later reply before it, or start if there is none |
| Compaction.CompactMessages | loop/src/compaction.rs:36-102 | A history of at most keep_recent + 2 messages, or without a place behind the system prompt where every call before it is answered, is left alone; else a failing summary call is passed on; else it is cut at the last such place that keeps keep_recent messages, and the working list is the system prompt, a system message with the summary between its two tags, and everything from the cut on |
| Compaction.CompactedIsCondensed | loop/src/compaction.rs:41-101 | The same of whatever the backward walk and the cut come to |
| Compaction.EstimateMeans | loop/src/llm/types.rs:56-142 | The estimate is a quarter of the UTF-8 length of each text, rounded down, plus 765 for each image, and nothing for anything else |
| Compaction.CutKeepsGrouped | loop/src/compaction.rs:62-101 | Working and canonical lists of a compacted grouped history are grouped |
| Compaction.KeptTail | loop/src/compaction.rs:49-61 | The kept tail has at least keep_recent messages and exceeds that by at most the number of calls of the one message cut |
| Compaction.CutConserves | loop/src/compaction.rs:49-101 | Dropped part and kept tail are exactly the history after the system prompt, the list does not grow, and the token estimate is the old one minus the dropped part plus the summary message |
| Compaction.CompactionStep | loop/src/compaction.rs:36-102 | Whichever way a compaction goes, the list does not grow and what is announced is at least keep_recent long; a grouped history stays grouped and is announced grouped, whatever scaffolding it holds; and one with scaffolding only in front keeps it there and is announced without any, grouped or not |
| Compaction.EstimateAppend | loop/src/compaction.rs:191-197 | The token estimate is additive over concatenation |
| Compaction.SessionStaysWellFormed | loop/src/agentic_loop.rs:87-105 | Over any number of compactions and appended messages the working list is, after at most two leading messages, an unbroken tail of the whole conversation; it stays grouped when whole blocks are appended, and independently keeps scaffolding in front when none is appended |
| Compaction.TokensTelescope | loop/src/agentic_loop.rs:87-105 | Over any session the estimate of the working list is the initial one plus what was appended minus what the compactions shed |
| AgenticLoop.Turn.Run | loop/src/agentic_loop.rs:50-379 | The turn ends with the first iteration that is out of time or quota, whose summary or model call fails, or whose reply has no tool calls and another finish reason than tool calls, or at the limit; it fails exactly if that summary call failed or its notice could not be sent. The history before each iteration is the list last asked plus reply and answers; the model is asked with that history, or what compaction makes of it, plus the reminders due. The user reads the non-empty deltas and the notice of the last iteration; the operator sees heartbeats, quota checks, every call with its outcome, and every compaction. One turn_end with the final counters stands at the end on success, and none on failure. Whenever no reply is itself a Tool message, messages, call brackets and usage of the journal are those of the iterations, and after at most two leading messages the history is an unbroken tail. From a grouped history and replies with distinct ids everything asked, announced and left is grouped; from one with scaffolding only in front nothing announced is scaffolding |
| TurnEnvironment.TurnIsDictated | loop/src/agentic_loop.rs:66-362 | Where a turn ends, how it fails, how its history unfolds and what model, user and operator see of it are determined by the environment, for every turn that can happen |
| TurnEnvironment.TurnEndsAtClosing | loop/src/agentic_loop.rs:67-84 | An iteration is the last one if and only if the limit is reached, or it is out of time or quota, its summary or model call fails, or its reply neither calls a tool nor gives tool calls as finish reason; and the turn fails as that iteration does |
| TurnEnvironment.SummaryReachesTheModel | loop/src/compaction.rs:79-89 | Whenever the check fires on a history that can be cut and the summary call answers, the model is asked with a list in which that summary, between its tags, stands for what was dropped |
| TurnEnvironment.SilenceCounted | loop/src/agentic_loop.rs:121-127 | The silence nudge is due exactly after every third silent reply in a row |
| TurnEnvironment.RemindersRead | loop/src/agentic_loop.rs:114-127 | The wording of the two reminders |
| TurnJournal.TurnLeaves | loop/src/agentic_loop.rs:242-339 | The events of any turn, read for messages, tool calls and usage, are exactly the reminders and replies, the brackets of every call, and the usage of the iterations that asked |
| TurnJournal.TurnCounts | loop/src/agentic_loop.rs:242-251 | The token counters are the sums over the usage reported |
| TurnJournal.TurnKeepsGrouped | loop/src/agentic_loop.rs:66-339 | From any grouped history and replies with distinct ids, through any number of iterations, tool rounds, nudges and compactions the history stays grouped, and so is every list handed to the model and every canonical list |
| TurnJournal.TurnKeepsClean | loop/src/compaction.rs:93-101 | From any history with scaffolding only in front, grouped or not, it stays so through the turn, and no canonical list holds a compaction summary |
| TurnJournal.CanonicalIsRealTail | loop/src/compaction.rs:93-101 | Every canonical list a turn announces is an unbroken tail of the initial messages and everything pushed before it |
| TurnJournal.NoTurnEndInside | loop/src/agentic_loop.rs:364-369 | No iteration of any turn emits a turn_end |
| AgenticLoop.TurnComesTo | loop/src/agentic_loop.rs:50-379 | Everything a turn promises, for every sequence of iterations that can happen |
| TurnJournal.TurnKeepsTail | loop/src/agentic_loop.rs:87-105 | After at most two leading messages the history is an unbroken tail of the initial messages and everything pushed |
| TurnJournal.TurnAnnounces | loop/src/agentic_loop.rs:97-104 | The compactions announced are those counted, never more than allowed |
| AgenticLoop.Turn.CompactIfNeeded | loop/src/agentic_loop.rs:86-112 | A compaction is tried exactly over the threshold and below the limit; the history becomes its working list; only a non-empty summary is announced and counted; a failing summary call ends the turn and changes nothing |
| AgenticLoop.Turn.ServeCall | loop/src/agentic_loop.rs:268-337 | One tool call produces exactly its activity line, call, tunnelled call if it lives at the operator, result and Tool message under its id; with bad arguments it is answered without a run |
| AgenticLoop.Turn.ServeCalls | loop/src/agentic_loop.rs:266-338 | All calls of a message are served in order, one reply each |
| AgenticLoop.Turn.Prepare | loop/src/agentic_loop.rs:66-127 | Timeout and exhausted quota end the iteration, else the compaction result plus the due reminders is the list to send, or the failed summary ends the turn; with exactly those events |
| AgenticLoop.Turn.Digest | loop/src/agentic_loop.rs:242-361 | A reply is accounted, appended with its tool replies and decided upon by its stop reason, with exactly those events in that order |
| AgenticLoop.Turn.Ask | loop/src/agentic_loop.rs:152-195 | The model is asked with the history as it stands, its text forwarded, its reply taken in or its error noticed |
| AgenticLoop.Turn.RemindIfDue | loop/src/agentic_loop.rs:114-127 | Wind-down and silence reminders are appended exactly when due, and the silence count is reset |
| AgenticLoop.Turn.Iterate | loop/src/agentic_loop.rs:66-361 | One iteration has exactly the specified effect on history, counters and journal, whichever way it goes: gate, compaction, reminders, asking with the compacted history plus reminders, reply, calls, stop reason |
| AgenticLoop.Turn.Loop | loop/src/agentic_loop.rs:66-362 | The iterations happen in order, each but the last letting the turn go on, with exactly the specified effect; the loop ends at the limit or by its last iteration, and reports its error |
| TurnJournal.TailAfterCompaction | loop/src/agentic_loop.rs:87-105 | Either outcome of a compaction keeps an unbroken tail of the conversation |
| JsonRpc.DispatchAnswers | server/src/tunnel/dispatch.rs:32-145 | Exactly the frames with a string method and an id, other than those of the seven fire-and-forget methods, are answered; the answer is a response of JSON-RPC 2.0 to that id; its result is what the boot provider returned for initialize, the tool host for tools/list and tools/call with the frame's params, the quota policy for quota/check, as `allowed`, and an empty object for quota/update; a failing hook gives its own message under 1404, 1500, 1502 or 1603, and an unknown method -32601 |
| AcpClient.Client.SendRequest | loop/src/acp.rs:110-157 | Writes one request with the next id; every notification met on the way is set aside in arrival order behind the earlier ones; the first other line decides the result without its id being compared; nothing beyond it is read |
| AcpClient.AwaitMeans | loop/src/acp.rs:122-157 | Waiting line by line sets every notification aside in arrival order and answers with the first other line |
| AcpClient.RequestComesTo | loop/src/acp.rs:110-157 | From the caller's frame through dispatch, hook and decoding, every request is answered and its caller gets what the method's hook returned, or the hook's message; a null result counts as none |
| AcpClient.NullsCountAsAbsent | loop/src/acp.rs:56-70 | A null error or id counts as absent, an error outweighs a result, a string id or an error without a code is a bad frame |
| AcpClient.Client.RecvNotification | loop/src/acp.rs:182-200 | Set-aside notifications come first, then the stream; lines that are no notification are errors |
| AcpClient.Client.NextPush | loop/src/acp.rs:306-324 | Consumes exactly the notifications up to the first session/message or session/cancel and leaves the rest alone; fails exactly at the first line that is no notification, or at the end |
| Tunnel.RepliesMatchAndPushesSurviveInOrder | server/src/tunnel/run.rs:124-164 | In every interleaving of requests, notifications, pushes and serving over the two FIFO channels, the k-th request is answered by the response to exactly that request with its id, although the id is never compared, and surfaced ++ pending ++ unread is exactly what was pushed, in order |
| Tunnel.EveryCallerGetsItsAnswer | loop/src/acp.rs:110-157 | In every interleaving, what the client makes of the line it takes for its k-th answer is what the hook of its k-th request's method returned when that was served, or the hook's message |
| Tunnel.RunKeepsInv | server/src/tunnel/run.rs:112-164 | The channel invariant behind it holds along every run |
| Tunnel.WaitLoopIsARun | loop/src/acp.rs:122-157 | The client's wait loop is a run of the same system |
| ChunkedLines.ChunkingInvisibleIff | loop/src/llm/client.rs:202-265 | For any line reader whose stop line leaves only the inner loop, how a text is cut into chunks is invisible if and only if nothing after a stop line changes the state |
| ChunkedLines.OutcomeIsAPrefix | loop/src/llm/client.rs:202-265 | Every chunking absorbs the lines of the text up to some stop line, or all of them |
| ChunkedLines.LineAfterStopShows | loop/src/llm/client.rs:222-224 | A line that matters after a stop line gives two different outcomes for one text |
| Sse.StreamChunkingInvisibleIff | loop/src/llm/client.rs:202-265 | For decoded text: callbacks, content, usage, finish reason and tool calls depend only on the concatenation if and only if nothing after a `[DONE]` line changes them |
| Sse.ConventionalStreams | loop/src/llm/client.rs:202-265 | With no data line after `[DONE]`, all of these are the fold over the lines of the text, in any chunking |
| Sse.BytesOfStream | loop/src/llm/client.rs:202-265 | A stream of bytes cut between characters, with no data line after `[DONE]`, means the lines of its decoded text, however it is cut |
| Sse.AsciiStream | loop/src/llm/client.rs:202-265 | For ASCII streams that holds wherever the chunks are cut |
| OrdinaryStreams.OrdinaryStream | loop/src/llm/client.rs:202-265 | For a stream of blank lines, comments, `data: ` payloads and `data: [DONE]`, with any whitespace around their parts and no payload after `[DONE]`, however it is cut between characters: callbacks and content are the content deltas of the payloads that parse, in order; finish reason and usage the last given; the i-th call has the last id and name for its index and all its fragments |
| OrdinaryStreams.SentAsText | loop/src/llm/client.rs:202-265 | The same for a text sent as UTF-8 in whatever pieces |
| OrdinaryStreams.StopEndsTheChunk | loop/src/llm/client.rs:229-231 | Delivered at once, such a stream is read up to its first `data: [DONE]` line and no further |
| OrdinaryStreams.StopEndsNoMore | loop/src/llm/client.rs:229-231 | Delivered line by line, it is read through every `[DONE]` |
| OrdinaryStreams.OrdinaryReply | loop/src/llm/client.rs:267-300 | The reply of such a stream: the text joined, if any; one call per index up to the largest, if any; finish reason and usage last given |
| TextLines.WhitespaceIs | loop/src/llm/client.rs:210 | What counts as whitespace around a line: the 25 characters of Unicode White_Space |
| Utf8.ChunkwiseDecodingIff | loop/src/llm/client.rs:207 | Lossy decoding chunk by chunk gives the text of the whole stream if and only if no chunk ends inside a character or invalid piece; otherwise it gives a longer text |
| Utf8.DecodingUndoesEncoding | loop/src/llm/client.rs:207 | Lossy decoding gives back every text that was encoded as UTF-8 |
| Utf8.TextCutsAreClean | loop/src/llm/client.rs:207 | Encoding a text piece by piece cuts no character |
| Sse.CallbacksMatchContent | loop/src/llm/client.rs:238-263 | The text callbacks concatenate to the content, and anything held was flagged as emitted, for every stream and chunking |
| Sse.ToolCallsOfStream | loop/src/llm/client.rs:253-262 | In a settled stream each tool call's arguments are the fragments bearing its index in order, its id and name the last given |
| ToolAssembly.AssembledByIndex | loop/src/llm/client.rs:310-333 | Under any interleaving of indices each call's arguments are its own fragments in arrival order |
| ToolAssembly.DistinctIdsIff | loop/src/llm/client.rs:310-333 | The assembled calls have pairwise different ids if and only if the last ids given for any two indices up to the largest differ, an index never given one counting as blank |
| ToolAssembly.SkippedIndicesCollide | loop/src/llm/client.rs:311-317 | Skipping two indices leaves two calls with the blank id |
| StreamCompletion.ReplyOkIff | loop/src/llm/client.rs:267-300 | A decoded reply fits the block grammar the agent loop relies on if and only if its deltas end up giving every two indices different ids |
| ToolAssembly.AccumulateToolCall | loop/src/llm/client.rs:310-333 | One delta extends the list to its index if needed and changes that entry only |
| Retry.RetriesAreBounded | loop/src/llm/retry.rs:186-276 | For every sequence of failures: at most 5 attempts, 3 if no keyword appears, each delay at least double the previous one, at most 30,000 ms slept in all |
| Retry.PausesAreExactly | loop/src/llm/retry.rs:222-276 | For every sequence of failures, exactly which are slept off and for how long: all up to the first fatal one, of them the first two after 500 and 1000 ms; if one of the first three speaks of capacity, the first four, and from that one on 2, 4, 8, 16 s |
| Retry.OrdinaryPauses | loop/src/llm/retry.rs:206-218 | Retryable failures without a word of capacity are retried exactly twice, after 500 and 1000 ms |
| Retry.TransientIffCapacity | loop/src/llm/retry.rs:71-184 | A failure escalates if and only if its body, or its message if it has no body, holds one of the seven keywords in any mix of cases |
| Retry.SleepBounds | loop/src/llm/retry.rs:256-276 | The same from any reachable retry state |
| Retry.SleepsSnoc | loop/src/llm/retry.rs:256-276 | One more failure after some that were slept off adds exactly the delay the current state decides on |
| Retry.BoundIsTight | loop/src/llm/retry.rs:206-218 | Five overload answers in a row sleep for 2, 4, 8 and 16 s, exactly 30 seconds |
| Retry.RetryPolicy.Next | loop/src/llm/retry.rs:256-269 | The in-place decision updates the budget and yields the delay of the specification |
| StreamCompletion.Complete | loop/src/llm/client.rs:58-78 | `logs` is, attempt by attempt, what the stream really let through. Over all attempts only the last ever emits text or tool deltas; on success every on_text call concatenates to the returned content, which with calls, finish reason and usage is what the last stream decoded to; at most five attempts, the pauses exactly those due after these failures, 30 s in all; after partial output a retryable error is reported as fatal, without its body; else the error is that of the last attempt |
| StreamCompletion.TryOnce | loop/src/llm/client.rs:60-64 | One attempt lets through exactly what its stream decodes to, and ends as the transport says |
| StreamCompletion.HandleFailure | loop/src/llm/client.rs:117-134 | A failure is slept off and counted, or handed back, exactly as the retry policy says |
| StreamCompletion.PolicyRunBounds | loop/src/llm/client.rs:117-134 | Any run of the policy has at most four sleeps, two without a capacity keyword, doubling, 30 s in all |
| StreamCompletion.ProcessStream | loop/src/llm/client.rs:187-301 | The chunk loop computes the specified fold, and its callbacks match its content |
| StreamCompletion.DrainBuffer | loop/src/llm/client.rs:209-264 | The inner loop consumes exactly the complete lines up to a stop line |
| StreamCompletion.TakeLine | loop/src/llm/client.rs:210-232 | A line is skipped, stops the inner loop or is absorbed, as the specification says |
| StreamCompletion.Ingest | loop/src/llm/client.rs:234-263 | The loop over choices computes the specified update |
| Bridge.FramesSurviveIff | agent/src/bridge.rs:118-125 | The bytes written to the child split back by line into exactly the text frames if and only if no frame contains a newline |
| Bridge.ChildReadsFrameByFrame | agent/src/bridge.rs:118-125 | Whatever the frames contain, the child reads the lines of the first, then of the second, and nothing is left unterminated |
| Bridge.CutWriteKeepsLeadingFrames | agent/src/bridge.rs:74-76 | A write cut short anywhere leaves complete lines only of the leading frames, in order |
| Bridge.OnlyTextMatters | agent/src/bridge.rs:78-80 | Control and binary frames leave no trace |
| Bridge.OwnNewlineMakesNoDifference | agent/src/bridge.rs:118-125 | A frame that brings its own newline is written like the same frame without it |
| Bridge.WsToStdin | agent/src/bridge.rs:63-85 | Everything written is the framed texts before the first close or error, in order, up to where the sink broke; the exit tells which ended the run |
| Bridge.Stdin.WriteFrame | agent/src/bridge.rs:118-125 | A frame is written with a newline added unless it ends with one |
| Bridge.LinesArriveIff | agent/src/bridge.rs:99-112 | The child's lines arrive as exactly those frames if and only if none ends in whitespace |
| Bridge.UnterminatedLineIsForwarded | agent/src/bridge.rs:97-112 | A last line without terminator is forwarded like the others |
| Bridge.FramesAreClean | agent/src/bridge.rs:102-103 | No frame sent up contains a newline or ends in whitespace, whatever the child prints |
| Bridge.EchoRoundTripIff | agent/src/bridge.rs:63-125 | Through an echoing child every frame comes back unchanged if and only if none contains a newline or ends in whitespace |
| Bridge.StdoutToWs | agent/src/bridge.rs:90-114 | All frames of stdout are sent in order, or as many as the sink accepts; a broken stdout loses only its unfinished line; the exit says which |
| RateLimit.PruningInvisibleIff | common/src/sentry_rate_limit.rs:41-60 | Pruning never changes a decision for any call sequence whose timestamps lag by at most d if and only if d plus the window fits into the pruning age |
| RateLimit.FullIsTheRule | common/src/sentry_rate_limit.rs:52-59 | Without pruning, for any timestamps, an event is forwarded exactly unless an earlier forwarded one with its key is less than a window before it |
| RateLimit.SentEventsAreAWindowApart | common/src/sentry_rate_limit.rs:14-22 | Two forwarded events with one key are at least a window apart |
| RateLimit.SmallLagHidesPruning | common/src/sentry_rate_limit.rs:50-59 | For lags of at most prune_after minus window the pruned limiter decides like the unpruned one |
| RateLimit.StragglerShows | common/src/sentry_rate_limit.rs:50-59 | For every larger lag there is a three-call sequence on which pruning changes a decision |
| RateLimit.Limiter.ShouldSendInner | common/src/sentry_rate_limit.rs:41-60 | Prunes, decides on the pruned map and records exactly the forwarded event |
| RateLimit.Limiter.ShouldSend | common/src/sentry_rate_limit.rs:35-37 | Over the limiter's whole life, while no clock reading lags by more than nine minutes, every answer is the rule's |
| Queues.BackendsAgree | server/src/redis_backend/queue.rs:54-105 | With one capacity, both backends answer every call of every history alike, and in both the accepted frames are the drained ones followed by the waiting ones |
| Queues.FifoIffNoneDiscarded | server/src/redis_backend/queue.rs:19-25 | Accepted frames are the drained ones in order followed by the waiting ones if and only if no drain deleted more than it read; otherwise fewer come out |
| Queues.StreamIsLosslessIff | server/src/redis_backend/queue.rs:19-36 | Instances pushing with one capacity and draining with another never lose a frame if and only if the drain capacity is zero or at least the push capacity |
| Queues.AgentsAreIsolated | server/src/registry/queue.rs:85-114 | Only an agent's own calls matter to its buffer |
| Queues.QueueIsBounded | server/src/registry/queue.rs:91-97 | A buffer never exceeds the push capacity |
| Queues.InMemoryQueue.Push | server/src/registry/queue.rs:85-99 | Appends exactly if there is room; a refused push changes no buffer; other agents are untouched |
| Queues.InMemoryQueue.Drain | server/src/registry/queue.rs:104-114 | Returns the agent's frames in push order and empties only that agent |
| Queues.InMemoryQueue.Len | server/src/registry/queue.rs:118-128 | The number of waiting frames, never above capacity |
| Queues.BufferStreams.PushScript | server/src/redis_backend/queue.rs:29-36 | The script adds one entry or changes nothing |
| Queues.BufferStreams.DrainScript | server/src/redis_backend/queue.rs:19-25 | The script returns at most COUNT entries and deletes the stream only if it returned some |
| Queues.RedisQueue.Push | server/src/redis_backend/queue.rs:54-79 | The answer is that of the bounded FIFO after the whole history |
| Queues.RedisQueue.Drain | server/src/redis_backend/queue.rs:81-105 | Returns the frames the script read; all of them, leaving nothing, when every instance has this capacity |
| Registry.RecentIsSuffix | server/src/registry/agent.rs:305-320 | The bounded log is always a duplicate-free suffix, at most 64 long, of the unbounded deduplicated log under the same operations |
| Registry.CompleteIffNeverOutgrown | server/src/registry/agent.rs:311-313 | Nothing was evicted if and only if the unbounded log never exceeded 64 |
| Registry.LoggedIffLastWord | server/src/registry/agent.rs:305-320 | The unbounded log holds exactly the disconnects not followed by another operation on that agent |
| Registry.EverySnapshotIsConsistent | server/src/registry/agent.rs:241-303 | In every snapshot of interleaved two-step registrations and unregistrations, `list` names each agent at most once, connected first, and agrees with `describe` |
| Registry.SnapshotListing | server/src/registry/agent.rs:273-303 | The same for any snapshot with one log entry per agent |
| Registry.DescriptionTells | server/src/registry/agent.rs:172-197 | A description tells the user, the seconds connected and idle of a connected agent, and the user and the seconds since the disconnect of another, never less than zero |
| Registry.NamedOnceIff | server/src/registry/agent.rs:273-290 | With the table walked at one moment and looked up again with the log at another, an agent is named twice if and only if it was walked as connected and had left the table for the log by the second look |
| Registry.RacingListRepeatsIff | server/src/registry/agent.rs:273-290 | Over any steps between the two looks, a listing names an agent twice if and only if it was connected at the walk, an unregistration of it begun meanwhile stands, and it is logged |
| Registry.LeavingAgentIsNamedTwice | server/src/registry/agent.rs:273-290 | A run from the initial state in which that happens |
| Registry.ListMissesIff | server/src/registry/agent.rs:273-290 | A listing misses an agent if and only if the walk did not find it and then either the log did not or the second look at the table did |
| Registry.DescribeMissesIff | server/src/registry/agent.rs:293-303 | A description misses an agent if and only if the table did not have it at the first read nor the log at the second |
| Registry.RacingListMissesIff | server/src/registry/agent.rs:235-240 | A listing racing with any steps misses an agent visible at every moment if and only if it was not connected at the walk and a registration begun meanwhile stands |
| Registry.RacingDescribeMissesIff | server/src/registry/agent.rs:235-240 | A description racing with any steps misses such an agent if and only if the table lacked it at the first read, a registration in between stands, and a purge of the agent or enough other disconnects in between drop it from the log without its being recorded again |
| Registry.LoggedAtEndIff | server/src/registry/agent.rs:305-320 | After any steps an agent is absent from the log if and only if its last drop, by a purge or by eviction through another disconnect, was not followed by a record of it, or it was absent before and never recorded |
| Registry.ReturningAgentIsMissed | server/src/registry/agent.rs:235-240 | A run from the initial state in which both miss an agent that is visible throughout |
| Registry.ConnectedAtEndIff | server/src/registry/agent.rs:241-268 | Whether an agent is connected after some steps is settled by the last of them about it |
| Registry.StaysVisibleIff | server/src/registry/agent.rs:241-268 | At single instants, a visible agent drops out of both structures exactly between the halves of its unregistration, by a purge after its removal, or by eviction |
| Registry.RegisteredStaysVisible | server/src/registry/agent.rs:235-248 | From the first half of its registration an agent stays visible until an unregistration of it begins |
| Registry.LatePurgeForgetsDisconnect | server/src/registry/agent.rs:235-248 | A late purge erases a disconnect recorded after the registration |
| Registry.LateRecordLeavesStaleEntry | server/src/registry/agent.rs:282-288 | A late record leaves a connected agent in the log with no operation pending |
| Registry.InMemoryAgentRegistry.Register | server/src/registry/agent.rs:241-247 | Undisturbed, the agent ends in the table only, the previous entry is returned, other agents are untouched |
| Registry.InMemoryAgentRegistry.Unregister | server/src/registry/agent.rs:261-269 | Undisturbed, the agent moves from the table to the end of the log; an unknown agent changes nothing |
| Registry.InMemoryAgentRegistry.PushRecent | server/src/registry/agent.rs:305-315 | Deduplicates, evicts the oldest at capacity, appends |
| Registry.InMemoryAgentRegistry.List | server/src/registry/agent.rs:273-290 | The listing is faithful to descriptions, names agents once, and tells of each its user, how long it has been connected and idle, or how long it has been gone |
| Registry.InMemoryAgentRegistry.DescribeAgent | server/src/registry/agent.rs:293-303 | Answers from the table first, with user, time connected and time idle, else with the last recorded disconnect, its user and the time since; nothing exactly if the agent is in neither |
| Broker.ExactlyOnePlace | server/src/api/agents.rs:169-177 | In every interleaving of posts, connects, drains, replays, closes, lease drops and disconnects, a posted frame is in exactly one of in flight, rejected, queued for its own agent, about to be replayed by one tunnel, handed to one tunnel, and once there; an unposted frame is nowhere |
| Broker.FaultsStrikeAnytime | server/src/tunnel/run.rs:59-110 | The fault model: receivers and leases may go at any time, and any agent may be disconnected |
| Broker.ReportsAreTrue | server/src/api/agents.rs:169-180 | A frame reported live is in a channel of its own agent, a queued one in that agent's buffer or on the way to or in such a channel, a rejected one nowhere |
| Broker.ReplayedInPushOrder | server/src/tunnel/run.rs:68-81 | What a connection replays is a contiguous piece of its agent's push order, and everything pushed was drained in push order or still waits |
| Broker.RunKeepsInv | server/src/tunnel/run.rs:59-81 | The broker invariant holds along every run |
| Broker.StepKeepsInv | server/src/registry/agent.rs:325-347 | Each atomic step keeps the invariant |
| Broker.RoutedIffNothingUnregisters | server/src/registry/agent.rs:333-335 | The newest registration stays routed if and only if no disconnect and no lease drop of that agent happens, older leases included |
| Broker.LateDropCutsOffNewerTunnel | server/src/registry/agent.rs:333-335 | After a late drop of a superseded lease the newer tunnel still serves, yet the next frame is queued or rejected |
| BrokerOrder.OvertakenIff | server/src/tunnel/run.rs:59-81 | In every run, a live frame stands before a buffered one in what a tunnel's channel comes to, if and only if a post handed its frame over while the tunnel had not yet drained a buffer that turned out not to be empty, or while it still had drained frames to replay |
| BrokerOrder.BufferedFirstIff | server/src/tunnel/run.rs:68-81 | Once a tunnel serves, all buffered frames stand before all live ones in its channel if and only if no post handed its frame over between two replays, and none before the drain unless the drain came out empty |
| BrokerOrder.OvertakenBeforeDrain | server/src/tunnel/run.rs:59-71 | A run from the initial state in which a frame posted between acquire and drain comes first |
| BrokerOrder.OvertakenBetweenReplays | server/src/tunnel/run.rs:72-81 | A run from the initial state in which a frame posted between two replays comes before the second |
| BrokerWaiting.WaitsWhileServedIff | server/src/tunnel/run.rs:59-81 | In every run, a frame reported Queued still waits in the buffer while its agent is routed and served if and only if it was enqueued after that very tunnel had drained and no drain of the agent followed |
| BrokerWaiting.WaitsIff | server/src/api/agents.rs:169-177 | After any run a frame waits in the buffer if and only if it was enqueued, or waited already, and its agent was never drained since |
| BrokerWaiting.LatePushWaits | server/src/api/agents.rs:169-177 | A run from the initial state in which a post looks up no tunnel, the agent connects and drains, and the post is then answered Queued: the frame waits although the agent is served |
| BrokerTasks.Deliver | server/src/registry/agent.rs:338-347 | Live exactly if the routed tunnel still listens; otherwise the frame comes back and nothing changed |
| BrokerTasks.SendMessage | server/src/api/agents.rs:150-180 | Undisturbed: bad request without a role, else live, queued last, or 503 when full, with the frame in the matching place |
| BrokerTasks.OpenTunnel | server/src/tunnel/run.rs:59-81 | Undisturbed: the agent is routed to the tunnel, whose channel starts with the whole buffer in order; other buffers are untouched |
| Reference.ParseUndoesPrintIff | compute/src/config/reference.rs:27-62 | For canonical segment lists parse(print(segs)) is segs if and only if all literals are ASCII; in general each literal byte beyond ASCII comes back as two |
| Reference.ParseIsCanonical | compute/src/config/reference.rs:27-84 | Every successful parse is canonical; every failure is BadReference of the whole value |
| Reference.WidenEncodesBytes | compute/src/config/reference.rs:46-58 | A literal collected byte by byte comes out with each byte taken for the character of its number and encoded as UTF-8 |
| Reference.ReparsesToItselfIff | compute/src/config/reference.rs:27-62 | What a value parses to is canonical, and prints to a value that parses to the same if and only if its literals came out ASCII; for an ASCII value they do |
| Reference.ParseInput | compute/src/config/reference.rs:27-62 | The index loop computes the recursive specification, errors included |
| Reference.ParsePrintedBody | compute/src/config/reference.rs:64-84 | The body parser undoes the printing of a well-formed reference |
| Reference.ResolvesToMeaning | compute/src/config/mod.rs:116-133 | A printed canonical list resolves to its literals and provider answers concatenated, answers never re-expanded, the first failure passed on |
| Reference.PrintedResolves | compute/src/config/mod.rs:116-133 | A printed canonical list resolves to its literals and, for each reference, the answer of the provider of its scheme for its path and key, put together; or fails as the first reference without one |
| Reference.ReferenceResolves | compute/src/config/mod.rs:116-133 | `${scheme:path}` and `${scheme:path:key}`, byte by byte, resolve to what the provider of the scheme answers for the path and the key |
| Reference.NormalFormSameMeaning | compute/src/config/mod.rs:116-133 | Normalising a value whose literals are ASCII does not change what it resolves to |
| Reference.EscapedResolvesToItselfIff | compute/src/config/mod.rs:116-133 | An escaped text resolves to itself whatever the providers if and only if it is ASCII |
| Reference.ResolveValue | compute/src/config/mod.rs:116-133 | The loop computes the meaning of the parsed segments, with unknown providers and failed lookups as errors |
| Reference.Resolve | compute/src/config/mod.rs:105-114 | Every value is resolved, or the first failure in key order is returned |

## Left out

- WebSocket, HTTP and SSE delivery, axum routing, pings and the tokio runtime: only the atomic steps and channels they induce are modelled.
- JWT minting and validation, stream brokers, the tool registry, MCP, builtin tools, Langfuse, Sentry setup, workspace sync, process spawning and context preview: foreign libraries, side effects or easy code.
- The Redis connected set, tunnel hash, claims, `list_agents` and `describe_agent`: non-transactional bookkeeping without a strong invariant.
- Redis command failures: commands succeed, except heartbeat calls, whose failure is a step of its own.
- The wording of I/O errors: a notice that cannot be sent ends the turn with one fixed error.
- Redis stream ids are positions in the stream; clock readings are parameters or state, never read.
- JSON and TOML parsing: JSON frames are a datatype, event parsing is an arbitrary function.
- The floating-point compaction trigger and token costs: the trigger is an arbitrary boolean per iteration.
- Overflow of `u64` token sums.
- The non-streaming `complete` call, which shares the retry policy: its answer is a parameter of compaction.
- Trace truncation, tool output conversion and the conversion of `session/message` content: easy code.
- Crashes of the in-memory broker, whose state does not survive them.
- Frames a tunnel channel accepted but its WebSocket never sent.
- `event_key` and `truncate_chars` of the rate limiter, and `len` of the Redis queue: easy code.
- RedisLease.LeaseServer.HeartbeatTask: states the undisturbed task, without the stop signal and failing calls; those are steps of the system RedisLease.LiveExactlyWhilePunctual is about.
- Registry.InMemoryAgentRegistry.List: states one snapshot; the two reads at different moments are the subject of Registry.RacingListMissesIff and Registry.RacingListRepeatsIff.
- Registry.InMemoryAgentRegistry.DescribeAgent: states one snapshot; the two reads at different moments are the subject of Registry.RacingDescribeMissesIff.
- InboxRedelivery.HandedOverIff: is about the read loop between two sweeps; what a sweep claims and buries is InboxConsumer.AutoclaimOrphaned.
- Sse.BytesOfStream: gives the meaning of cleanly cut streams; when unclean cuts happen not to matter to the outcome is not characterised.
- BrokerTasks.SendMessage: states what an undisturbed call does; interleavings are the subject of Broker.ExactlyOnePlace and Broker.ReportsAreTrue.
- BrokerTasks.OpenTunnel: states what an undisturbed call does; interleavings are the subject of Broker.ReplayedInPushOrder.
- Registry.InMemoryAgentRegistry.Register: states what an undisturbed call does; interleavings are the subject of Registry.StaysVisibleIff.
- Registry.InMemoryAgentRegistry.Unregister: states what an undisturbed call does; interleavings are the subject of Registry.StaysVisibleIff.
