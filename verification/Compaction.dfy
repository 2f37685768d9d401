/** Context compaction: cutting a history at a safe point and replacing the front by a summary. */
module Compaction {
  import opened Prelude
  import opened Utf8
  import opened Conversation

  // ---------- Token estimate ----------

  function Utf8Width(c: char): (n: nat)
    ensures 1 <= n <= 4
  {
    var v := c as int;
    if v < 0x80 then 1 else if v < 0x800 then 2 else if v < 0x1_0000 then 3 else 4
  }

  /** Length of a string in bytes. */
  function ByteLength(s: string): nat
  {
    if s == "" then 0 else Utf8Width(s[0]) + ByteLength(s[1..])
  }

  function BlockTokens(b: Block): nat
  {
    match b
    case TextBlock(text) => ByteLength(text) / 4
    case ImageUrl(_) => 765
    case Image(_) => 765
    case InputAudio(_) => 0
    case Unknown(_) => 0
  }

  function BlocksTokens(bs: seq<Block>): nat
  {
    if bs == [] then 0 else BlockTokens(bs[0]) + BlocksTokens(bs[1..])
  }

  function MessageTokens(m: Message): nat
  {
    match m.content
    case None => 0
    case Some(Text(text)) => ByteLength(text) / 4
    case Some(Blocks(bs)) => BlocksTokens(bs)
  }

  function EstimateTokens(ms: seq<Message>): nat
  {
    if ms == [] then 0 else MessageTokens(ms[0]) + EstimateTokens(ms[1..])
  }

  lemma {:induction false} EstimateAppend(a: seq<Message>, b: seq<Message>)
    ensures EstimateTokens(a + b) == EstimateTokens(a) + EstimateTokens(b)
  {
    if a == [] {
      assert a + b == b;
    } else {
      assert (a + b)[1..] == a[1..] + b;
      EstimateAppend(a[1..], b);
    }
  }

  lemma {:induction false} ByteLengthIsEncodedLength(s: string)
    ensures ByteLength(s) == |EncodedText(s)|
  {
    if s != "" {
      ByteLengthIsEncodedLength(s[1..]);
    }
  }

  /** A message without content costs nothing, a text a quarter of its UTF-8 length, an image 765. */
  lemma {:induction false} EstimateMeans(m: Message, text: string, b: Block, bs: seq<Block>)
    ensures m.content.None? ==> EstimateTokens([m]) == 0
    ensures m.content == Some(Text(text)) ==>
      4 * EstimateTokens([m]) <= |EncodedText(text)| < 4 * EstimateTokens([m]) + 4
    ensures m.content == Some(Blocks([])) ==> EstimateTokens([m]) == 0
    ensures m.content == Some(Blocks([b] + bs)) ==>
      var rest := EstimateTokens([m.(content := Some(Blocks(bs)))]);
      match b
      case TextBlock(t) => 4 * (EstimateTokens([m]) - rest) <= |EncodedText(t)| < 4 * (EstimateTokens([m]) - rest) + 4
      case ImageUrl(_) => EstimateTokens([m]) == rest + 765
      case Image(_) => EstimateTokens([m]) == rest + 765
      case _ => EstimateTokens([m]) == rest
  {
    ByteLengthIsEncodedLength(text);
    assert [m][1..] == [];
    var m' := m.(content := Some(Blocks(bs)));
    assert [m'][1..] == [];
    assert ([b] + bs)[1..] == bs;
    if b.TextBlock? {
      ByteLengthIsEncodedLength(b.text);
    }
  }

  // ---------- Finding the split ----------

  /** Some call made in `ms[start..split]` has no later reply in that slice. */
  ghost predicate Straddles(ms: seq<Message>, start: nat, split: nat)
    requires start <= split <= |ms|
  {
    exists i: nat, id: string :: start <= i < split && Unmet(ms, i, id, split)
  }

  /** Message `i` makes a call `id` that no message after it and before `split` answers. */
  predicate Unmet(ms: seq<Message>, i: nat, id: string, split: nat)
    requires i < split <= |ms|
  {
    CallsFor(ms[i], id) && forall j | i < j < split :: !RepliesTo(ms[j], id)
  }

  /** The set the check builds is empty exactly if no call is left without a reply. */
  lemma {:induction false} StraddlesIffUnanswered(ms: seq<Message>, start: nat, split: nat)
    requires start <= split <= |ms|
    ensures Straddles(ms, start, split) <==> Unanswered(ms[start..split], {}) != {}
  {
    var slice := ms[start..split];
    if Unanswered(slice, {}) != {} {
      var id :| id in Unanswered(slice, {});
      UnansweredMeans(slice, id);
      var i: nat :| Dangling(slice, i, id);
      UnmetInSlice(ms, start, split, i, id);
      assert Unmet(ms, start + i, id, split);
    }
    if Straddles(ms, start, split) {
      var i: nat, id :| start <= i < split && Unmet(ms, i, id, split);
      UnmetInSlice(ms, start, split, i - start, id);
      UnansweredMeans(slice, id);
    }
  }

  lemma {:induction false} UnmetInSlice(ms: seq<Message>, start: nat, split: nat, i: nat, id: string)
    requires start + i < split <= |ms|
    ensures Dangling(ms[start..split], i, id) <==> Unmet(ms, start + i, id, split)
  {
    var slice := ms[start..split];
    assert forall j | 0 <= j < |slice| :: slice[j] == ms[start + j];
    if Dangling(slice, i, id) {
      forall j | start + i < j < split
        ensures !RepliesTo(ms[j], id)
      {
        assert slice[j - start] == ms[j];
      }
    }
  }

  method HasStraddlingPair(ms: seq<Message>, start: nat, split: nat) returns (b: bool)
    requires start <= split <= |ms|
    ensures b == Straddles(ms, start, split)
  {
    var unanswered: set<string> := {};
    var slice := ms[start..split];
    for i := 0 to |slice|
      invariant unanswered == Unanswered(slice[..i], {})
    {
      UnansweredSnoc(slice, i);
      var msg := slice[i];
      match msg.role {
        case Assistant =>
          if msg.toolCalls.Some? {
            var calls := msg.toolCalls.value;
            var before := unanswered;
            for j := 0 to |calls|
              invariant unanswered == before + IdSet(calls[..j])
            {
              assert IdSet(calls[..j + 1]) == IdSet(calls[..j]) + {calls[j].id} by {
                IdSetSnoc(calls, j);
              }
              unanswered := unanswered + {calls[j].id};
            }
            assert calls[..|calls|] == calls;
          }
        case Tool =>
          if msg.toolCallId.Some? {
            unanswered := unanswered - {msg.toolCallId.value};
          }
        case _ =>
      }
    }
    assert slice[..|slice|] == slice;
    StraddlesIffUnanswered(ms, start, split);
    b := unanswered != {};
  }

  lemma {:induction false} IdSetSnoc(calls: seq<ToolCall>, j: nat)
    requires j < |calls|
    ensures IdSet(calls[..j + 1]) == IdSet(calls[..j]) + {calls[j].id}
  {
    assert calls[..j + 1][j] == calls[j];
    forall x | x in IdSet(calls[..j]) ensures x in IdSet(calls[..j + 1]) {
      var i :| 0 <= i < |calls[..j]| && calls[..j][i].id == x;
      assert calls[..j + 1][i].id == x;
    }
    forall x | x in IdSet(calls[..j + 1]) ensures x in IdSet(calls[..j]) + {calls[j].id} {
      var i :| 0 <= i < |calls[..j + 1]| && calls[..j + 1][i].id == x;
      assert i < j ==> calls[..j][i].id == x;
    }
  }

  /** `r` is the greatest index from `start` up to `proposed` with every call before it answered. */
  ghost predicate GreatestSafe(ms: seq<Message>, start: nat, proposed: nat, r: nat)
    requires start <= |ms| && proposed <= |ms|
  {
    if proposed <= start then r == proposed
    else
      && start <= r <= proposed
      && (r > start ==> !Straddles(ms, start, r))
      && forall k | r < k <= proposed :: Straddles(ms, start, k)
  }

  method FindSafeSplit(ms: seq<Message>, start: nat, proposed: nat) returns (split: nat)
    requires start <= |ms|
    ensures GreatestSafe(ms, start, if proposed < |ms| then proposed else |ms|, split)
  {
    split := if proposed < |ms| then proposed else |ms|;
    var limit := split;
    while split > start
      invariant split <= limit && (limit > start ==> start <= split) && (limit <= start ==> split == limit)
      invariant forall k | split < k <= limit && start < k :: Straddles(ms, start, k)
    {
      var unsafe := HasStraddlingPair(ms, start, split);
      if !unsafe {
        break;
      }
      split := split - 1;
    }
  }

  // ---------- Compacting ----------

  datatype CompactionResult = CompactionResult(working: seq<Message>, canonical: seq<Message>, summary: string)

  const SCAFFOLD_OPEN := "<compacted_context>\n"
  const SCAFFOLD_CLOSE := "\n</compacted_context>"

  function SummaryMessage(summary: string): Message
  {
    SystemMessage(SCAFFOLD_OPEN + summary + SCAFFOLD_CLOSE)
  }

  /** 1 when the history opens with a system prompt, else 0. */
  function Start(ms: seq<Message>): (n: nat)
    ensures n <= |ms| && n <= 1
  {
    if ms != [] && ms[0].role.System? then 1 else 0
  }

  /** The split leaves something to compact, at a safe place. */
  ghost predicate CompactsAt(ms: seq<Message>, keepRecent: nat, split: nat)
  {
    && |ms| > keepRecent + 2
    && GreatestSafe(ms, Start(ms), |ms| - keepRecent, split)
    && Start(ms) < split
  }

  /** No acceptable split: too short, or nothing safe to drop. */
  ghost predicate Untouched(ms: seq<Message>, keepRecent: nat)
  {
    forall split: nat | split <= |ms| :: !CompactsAt(ms, keepRecent, split)
  }

  /** What one compaction makes of a history when the cut is at `split`. */
  function Cut(ms: seq<Message>, split: nat, summary: string): (r: CompactionResult)
    requires Start(ms) <= split <= |ms|
  {
    CompactionResult(ms[..Start(ms)] + [SummaryMessage(summary)] + ms[split..], ms[split..], summary)
  }

  /** The cut, given what the summary call answered. */
  function CutWith(ms: seq<Message>, split: nat, reply: Result<string, string>): (r: Result<CompactionResult, string>)
    requires Start(ms) <= split <= |ms|
  {
    match reply
    case Ok(summary) => Ok(Cut(ms, split, summary))
    case Err(e) => Err(e)
  }

  /** `r` is what compacting `ms` may produce when the summary call answers `reply`. */
  ghost predicate Compacted(ms: seq<Message>, keepRecent: nat, reply: Result<string, string>,
                      r: Result<CompactionResult, string>)
  {
    || (Untouched(ms, keepRecent) && r == Ok(CompactionResult(ms, ms, "")))
    || (exists split: nat | split <= |ms| && CompactsAt(ms, keepRecent, split) ::
          r == CutWith(ms, split, reply))
  }

  method CompactMessages(ms: seq<Message>, keepRecent: nat, reply: Result<string, string>)
    returns (r: Result<CompactionResult, string>)
    ensures Compacted(ms, keepRecent, reply, r) && Condensed(ms, keepRecent, reply, r)
  {
    r := CutAtSafeSplit(ms, keepRecent, reply);
    CompactedIsCondensed(ms, keepRecent, reply, r);
  }

  method CutAtSafeSplit(ms: seq<Message>, keepRecent: nat, reply: Result<string, string>)
    returns (r: Result<CompactionResult, string>)
    ensures Compacted(ms, keepRecent, reply, r)
  {
    if |ms| <= keepRecent + 2 {
      return Ok(CompactionResult(ms, ms, ""));
    }
    var systemMsg := if ms[0].role.System? then Some(ms[0]) else None;
    var start := if systemMsg.Some? then 1 else 0;
    var proposed := |ms| - keepRecent;
    var split := FindSafeSplit(ms, start, proposed);
    if split <= start {
      SplitUnique(ms, keepRecent, split);
      return Ok(CompactionResult(ms, ms, ""));
    }
    assert CompactsAt(ms, keepRecent, split);
    var recent := ms[split..];
    match reply {
      case Err(e) => return Err(e);
      case Ok(summary) =>
        var working: seq<Message> := [];
        if systemMsg.Some? {
          working := working + [systemMsg.value];
        }
        working := working + [SummaryMessage(summary)];
        working := working + recent;
        assert working == Cut(ms, split, summary).working;
        return Ok(CompactionResult(working, recent, summary));
    }
  }

  lemma {:induction false} SplitUnique(ms: seq<Message>, keepRecent: nat, split: nat)
    requires |ms| > keepRecent + 2
    requires GreatestSafe(ms, Start(ms), |ms| - keepRecent, split) && split <= Start(ms)
    ensures Untouched(ms, keepRecent)
  {
  }

  // ---------- What a compaction shows ----------

  /** A place to cut: behind the system prompt, at least `keepRecent` messages before the end, with every
      call before it answered before it. */
  ghost predicate SafeCut(ms: seq<Message>, keepRecent: nat, split: nat)
  {
    && ms != [] && split + keepRecent <= |ms|
    && var start := if ms[0].role.System? then 1 else 0;
       start < split && !Straddles(ms, start, split)
  }

  ghost predicate Cuttable(ms: seq<Message>, keepRecent: nat)
  {
    |ms| > keepRecent + 2 && exists split: nat :: SafeCut(ms, keepRecent, split)
  }

  /** The system prompt if there is one, the summary between its tags in a system message, and what stands
      from the cut on. */
  predicate Shows(ms: seq<Message>, split: nat, summary: string, working: seq<Message>)
  {
    && ms != [] && split <= |ms|
    && working ==
       (if ms[0].role.System? then [ms[0]] else [])
       + [Message(System, Some(Text("<compacted_context>\n" + summary + "\n</compacted_context>")), None, None)]
       + ms[split..]
  }

  /** The cut was made at the last safe place. */
  ghost predicate CutLate(ms: seq<Message>, keepRecent: nat, summary: string, r: CompactionResult)
  {
    exists split: nat ::
      && SafeCut(ms, keepRecent, split) && (forall k | split < k <= |ms| :: !SafeCut(ms, keepRecent, k))
      && Shows(ms, split, summary, r.working) && r.canonical == ms[split..] && r.summary == summary
  }

  /** What compacting comes to, said from the history and the answer of the summary call. */
  ghost predicate Condensed(ms: seq<Message>, keepRecent: nat, reply: Result<string, string>, r: Result<CompactionResult, string>)
  {
    if !Cuttable(ms, keepRecent) then r == Ok(CompactionResult(ms, ms, ""))
    else if reply.Err? then r == Err(reply.error)
    else r.Ok? && CutLate(ms, keepRecent, reply.value, r.value)
  }

  /** Cutting at the greatest index found by the backward walk is cutting at the last safe place. */
  lemma {:induction false} CompactsAtLastSafeCut(ms: seq<Message>, keepRecent: nat, split: nat)
    ensures CompactsAt(ms, keepRecent, split) <==>
      && |ms| > keepRecent + 2 && SafeCut(ms, keepRecent, split)
      && forall k | split < k <= |ms| :: !SafeCut(ms, keepRecent, k)
  {
    if |ms| > keepRecent + 2 {
      var start := if ms[0].role.System? then 1 else 0;
      assert start == Start(ms);
      if CompactsAt(ms, keepRecent, split) {
        forall k | split < k <= |ms|
          ensures !SafeCut(ms, keepRecent, k)
        {
          if k <= |ms| - keepRecent {
            assert Straddles(ms, start, k);
          }
        }
      } else if SafeCut(ms, keepRecent, split) && forall k | split < k <= |ms| :: !SafeCut(ms, keepRecent, k) {
        forall k | split < k <= |ms| - keepRecent
          ensures Straddles(ms, start, k)
        {
          assert !SafeCut(ms, keepRecent, k);
        }
      }
    }
  }

  /** If there is a safe place at all, there is a last one. */
  lemma {:induction false} LastSafeCut(ms: seq<Message>, keepRecent: nat, split: nat) returns (last: nat)
    requires SafeCut(ms, keepRecent, split)
    ensures SafeCut(ms, keepRecent, last) && forall k | last < k <= |ms| :: !SafeCut(ms, keepRecent, k)
    decreases |ms| - split
  {
    if k :| split < k <= |ms| && SafeCut(ms, keepRecent, k) {
      last := LastSafeCut(ms, keepRecent, k);
    } else {
      last := split;
    }
  }

  /** Whatever the history and the answer of the summary call: it is left alone if it is short or nothing
      safe can be dropped; else a failing call fails it; else the summary stands, between its tags, for
      exactly what was dropped. */
  lemma {:induction false} CompactedIsCondensed(ms: seq<Message>, keepRecent: nat, reply: Result<string, string>,
                                                r: Result<CompactionResult, string>)
    requires Compacted(ms, keepRecent, reply, r)
    ensures Condensed(ms, keepRecent, reply, r)
  {
    if split: nat :| split <= |ms| && CompactsAt(ms, keepRecent, split) && r == CutWith(ms, split, reply) {
      CompactsAtLastSafeCut(ms, keepRecent, split);
      if reply.Ok? {
        SummaryStands(ms, split, reply.value);
      }
    } else if Cuttable(ms, keepRecent) {
      var split: nat :| SafeCut(ms, keepRecent, split);
      var last := LastSafeCut(ms, keepRecent, split);
      CompactsAtLastSafeCut(ms, keepRecent, last);
      assert false;
    }
  }

  lemma {:induction false} SummaryStands(ms: seq<Message>, split: nat, summary: string)
    requires ms != [] && Start(ms) <= split <= |ms|
    ensures Shows(ms, split, summary, Cut(ms, split, summary).working)
  {
    assert ms[..1] == [ms[0]] && ms[..0] == [];
  }

  // ---------- What one round guarantees ----------

  /** A compaction of a grouped history is grouped, in the working list and in the canonical one. */
  lemma {:induction false} CutKeepsGrouped(ms: seq<Message>, keepRecent: nat, split: nat, summary: string)
    requires Grouped(ms) && CompactsAt(ms, keepRecent, split)
    ensures Grouped(Cut(ms, split, summary).working) && Grouped(Cut(ms, split, summary).canonical)
  {
    var start := Start(ms);
    var body := ms[start..];
    BodyGrouped(ms);
    assert ms[start..split] == body[..split - start];
    StraddlesIffUnanswered(ms, start, split);
    BoundaryIffAnswered(body, split - start);
    assert ms[split..] == body[split - start..];
    HeadIsGrouped(ms, summary);
    GroupedAppend(ms[..start] + [SummaryMessage(summary)], ms[split..]);
  }

  lemma {:induction false} HeadIsGrouped(ms: seq<Message>, summary: string)
    ensures Grouped(ms[..Start(ms)] + [SummaryMessage(summary)])
  {
    PlainIsGrouped(SummaryMessage(summary));
    if Start(ms) == 1 {
      PlainIsGrouped(ms[0]);
      assert ms[..1] == [ms[0]];
      GroupedAppend([ms[0]], [SummaryMessage(summary)]);
    } else {
      assert ms[..0] + [SummaryMessage(summary)] == [SummaryMessage(summary)];
    }
  }

  lemma {:induction false} BodyGrouped(ms: seq<Message>)
    requires Grouped(ms)
    ensures Grouped(ms[Start(ms)..])
  {
    assert ms[0..] == ms;
  }

  /**
   * The kept tail has at least `keepRecent` messages; when it has more, the cut moved back to the
   * start of one call block and the surplus is at most that message's number of calls.
   */
  lemma {:induction false} KeptTail(ms: seq<Message>, keepRecent: nat, split: nat)
    requires Grouped(ms) && CompactsAt(ms, keepRecent, split)
    ensures |ms| - split >= keepRecent
    ensures |ms| - split > keepRecent ==>
      IsCall(ms[split]) && |ms| - split <= keepRecent + |ms[split].toolCalls.value|
  {
    var start := Start(ms);
    var body, p := ms[start..], |ms| - keepRecent - start;
    BodyGrouped(ms);
    var b := BoundaryBelow(body, p);
    forall k: nat | k <= p ensures Straddles(ms, start, start + k) <==> !Grouped(body[..k]) {
      assert ms[start..start + k] == body[..k];
      StraddlesIffUnanswered(ms, start, start + k);
      BoundaryIffAnswered(body, k);
    }
    assert Straddles(ms, start, split) <==> !Grouped(body[..split - start]);
    assert split - start == b;
    assert b < p ==> body[b] == ms[split];
  }

  /** Dropped part and kept tail are exactly the history after the system prompt; tokens add up. */
  lemma {:induction false} CutConserves(ms: seq<Message>, keepRecent: nat, split: nat, summary: string)
    requires CompactsAt(ms, keepRecent, split)
    ensures var dropped := ms[Start(ms)..split];
      var r := Cut(ms, split, summary);
      && dropped + r.canonical == ms[Start(ms)..]
      && dropped != []
      && |r.working| <= |ms|
      && EstimateTokens(r.working)
         == EstimateTokens(ms) - EstimateTokens(dropped) + EstimateTokens([SummaryMessage(summary)])
  {
    var start := Start(ms);
    var dropped, recent, note := ms[start..split], ms[split..], [SummaryMessage(summary)];
    assert ms == ms[..start] + (dropped + recent);
    EstimateAppend(ms[..start], dropped + recent);
    EstimateAppend(dropped, recent);
    EstimateAppend(ms[..start] + note, recent);
    EstimateAppend(ms[..start], note);
  }

  // ---------- Scaffolding ----------

  predicate IsScaffold(m: Message)
  {
    m.role.System? && m.content.Some? && m.content.value.Text? && SCAFFOLD_OPEN <= m.content.value.text
  }

  /** `<compacted_context>` messages sit only where the next compaction cannot keep them as recent. */
  predicate ScaffoldInFront(ms: seq<Message>)
  {
    forall i | 0 <= i < |ms| && IsScaffold(ms[i]) :: i <= Start(ms)
  }

  predicate Clean(ms: seq<Message>)
  {
    forall m | m in ms :: !IsScaffold(m)
  }

  lemma {:induction false} CutIsClean(ms: seq<Message>, keepRecent: nat, split: nat, summary: string)
    requires ScaffoldInFront(ms) && CompactsAt(ms, keepRecent, split)
    ensures Clean(Cut(ms, split, summary).canonical)
    ensures ScaffoldInFront(Cut(ms, split, summary).working)
    ensures IsScaffold(Cut(ms, split, summary).working[Start(ms)])
  {
    var start := Start(ms);
    var r := Cut(ms, split, summary);
    forall m | m in r.canonical ensures !IsScaffold(m) {
      var i :| 0 <= i < |r.canonical| && r.canonical[i] == m;
      assert m == ms[split + i];
    }
    forall i | start < i < |r.working| ensures !IsScaffold(r.working[i]) {
      assert r.working[i] == r.canonical[i - start - 1];
      assert r.working[i] in r.canonical;
    }
  }

  /** What a compaction, whichever way it goes, does to a history: a grouped one stays grouped, and one
      with its scaffolding in front keeps it there and announces none. */
  lemma {:induction false} CompactionStep(ms: seq<Message>, keepRecent: nat, reply: Result<string, string>, r: CompactionResult)
    requires Compacted(ms, keepRecent, reply, Ok(r))
    ensures |r.working| <= |ms| && (r.summary != "" ==> |r.canonical| >= keepRecent)
    ensures Grouped(ms) ==> Grouped(r.working) && Grouped(r.canonical)
    ensures ScaffoldInFront(ms) ==> ScaffoldInFront(r.working) && (r.summary != "" ==> Clean(r.canonical))
  {
    if !(Untouched(ms, keepRecent) && r == CompactionResult(ms, ms, "")) {
      var split: nat :| split <= |ms| && CompactsAt(ms, keepRecent, split)
        && Ok(r) == CutWith(ms, split, reply);
      CutConserves(ms, keepRecent, split, reply.value);
      if Grouped(ms) {
        CutKeepsGrouped(ms, keepRecent, split, reply.value);
      }
      if ScaffoldInFront(ms) {
        CutIsClean(ms, keepRecent, split, reply.value);
      }
    }
  }

  // ---------- Any number of rounds ----------

  /** A session: compactions, and messages appended between them. */
  datatype Op = Compact(keepRecent: nat, split: nat, summary: string) | Extend(more: seq<Message>)

  ghost predicate Possible(ms: seq<Message>, ops: seq<Op>)
    decreases |ops|
  {
    ops == [] || (OpPossible(ms, ops[0]) && Possible(After1(ms, ops[0]), ops[1..]))
  }

  ghost predicate OpPossible(ms: seq<Message>, op: Op)
  {
    match op
    case Compact(keepRecent, split, _) => CompactsAt(ms, keepRecent, split)
    case Extend(_) => true
  }

  /** Only whole blocks are appended. */
  predicate BlocksOnly(ops: seq<Op>)
  {
    forall op | op in ops && op.Extend? :: Grouped(op.more)
  }

  /** Nothing that looks like scaffolding is appended. */
  predicate CleanOnly(ops: seq<Op>)
  {
    forall op | op in ops && op.Extend? :: Clean(op.more)
  }

  ghost function After1(ms: seq<Message>, op: Op): seq<Message>
    requires OpPossible(ms, op)
  {
    match op
    case Compact(_, split, summary) => Cut(ms, split, summary).working
    case Extend(more) => ms + more
  }

  /** The working list at the end of the session. */
  ghost function After(ms: seq<Message>, ops: seq<Op>): seq<Message>
    requires Possible(ms, ops)
    decreases |ops|
  {
    if ops == [] then ms else After(After1(ms, ops[0]), ops[1..])
  }

  /** The conversation had nothing ever been compacted. */
  function Full(ms: seq<Message>, ops: seq<Op>): seq<Message>
    decreases |ops|
  {
    if ops == [] then ms
    else Full(if ops[0].Extend? then ms + ops[0].more else ms, ops[1..])
  }

  /** `h` is at most two leading messages followed by an intact tail of `full`. */
  predicate KeepsTail(h: seq<Message>, full: seq<Message>, front: nat, from: nat)
  {
    && front <= 2 && front <= |h| && from <= |full|
    && (front > 0 ==> h[0].role.System?)
    && h[front..] == full[from..]
  }

  lemma {:induction false} KeepsTailStep(h: seq<Message>, full: seq<Message>, front: nat, from: nat, op: Op)
    returns (front': nat, from': nat)
    requires KeepsTail(h, full, front, from) && OpPossible(h, op)
    ensures KeepsTail(After1(h, op), if op.Extend? then full + op.more else full, front', from')
  {
    if op.Extend? {
      front', from' := front, from;
      assert (h + op.more)[front..] == h[front..] + op.more;
      assert (full + op.more)[from..] == full[from..] + op.more;
    } else {
      var start, split := Start(h), op.split;
      front', from' := start + 1, from + (split - front);
      assert After1(h, op)[start + 1..] == h[split..];
      assert h[split..] == h[front..][split - front..];
      assert full[from'..] == full[from..][split - front..];
    }
  }

  /**
   * However often a session is compacted: after at most two leading messages the working list is an
   * unbroken tail of the conversation; if it starts grouped and only whole blocks are appended it stays
   * grouped; and if its scaffolding is in front and none is appended, that stays so.
   */
  lemma {:induction false} SessionStaysWellFormed(
      h: seq<Message>, full: seq<Message>, front: nat, from: nat, ops: seq<Op>)
    returns (front': nat, from': nat)
    requires Possible(h, ops) && KeepsTail(h, full, front, from)
    ensures KeepsTail(After(h, ops), Full(full, ops), front', from')
    ensures Grouped(h) && BlocksOnly(ops) ==> Grouped(After(h, ops))
    ensures ScaffoldInFront(h) && CleanOnly(ops) ==> ScaffoldInFront(After(h, ops))
    decreases |ops|
  {
    if ops == [] {
      front', from' := front, from;
    } else {
      var op := ops[0];
      assert op in ops && forall x | x in ops[1..] :: x in ops;
      var f1, j1 := KeepsTailStep(h, full, front, from, op);
      OpKeepsShape(h, op);
      front', from' :=
        SessionStaysWellFormed(After1(h, op), if op.Extend? then full + op.more else full, f1, j1, ops[1..]);
    }
  }

  lemma {:induction false} OpKeepsShape(h: seq<Message>, op: Op)
    requires OpPossible(h, op)
    ensures Grouped(h) && (op.Extend? ==> Grouped(op.more)) ==> Grouped(After1(h, op))
    ensures ScaffoldInFront(h) && (op.Extend? ==> Clean(op.more)) ==> ScaffoldInFront(After1(h, op))
  {
    match op
    case Extend(more) =>
      if Grouped(h) && Grouped(more) {
        GroupedAppend(h, more);
      }
      if ScaffoldInFront(h) && Clean(more) {
        ExtendKeepsFront(h, more);
      }
    case Compact(keepRecent, split, summary) =>
      if Grouped(h) {
        CutKeepsGrouped(h, keepRecent, split, summary);
      }
      if ScaffoldInFront(h) {
        CutIsClean(h, keepRecent, split, summary);
      }
  }

  lemma {:induction false} ExtendKeepsFront(h: seq<Message>, more: seq<Message>)
    requires ScaffoldInFront(h) && Clean(more)
    ensures ScaffoldInFront(h + more)
  {
    forall i | |h| <= i < |h + more| ensures !IsScaffold((h + more)[i]) {
      assert (h + more)[i] in more;
    }
  }

  /** Tokens given up by the compactions of a session. */
  ghost function Shed(ms: seq<Message>, ops: seq<Op>): int
    requires Possible(ms, ops)
    decreases |ops|
  {
    if ops == [] then 0
    else
      var op := ops[0];
      (match op
       case Compact(_, split, summary) =>
         EstimateTokens(ms[Start(ms)..split]) - EstimateTokens([SummaryMessage(summary)])
       case Extend(more) => 0 - EstimateTokens(more))
      + Shed(After1(ms, op), ops[1..])
  }

  /** The estimate of the working list is the old one, less what was dropped, plus what was added. */
  lemma {:induction false} TokensTelescope(ms: seq<Message>, ops: seq<Op>)
    requires Possible(ms, ops)
    ensures EstimateTokens(After(ms, ops)) == EstimateTokens(ms) - Shed(ms, ops)
    decreases |ops|
  {
    if ops != [] {
      if ops[0].Compact? {
        CutConserves(ms, ops[0].keepRecent, ops[0].split, ops[0].summary);
      } else {
        EstimateAppend(ms, ops[0].more);
      }
      TokensTelescope(After1(ms, ops[0]), ops[1..]);
    }
  }
}
