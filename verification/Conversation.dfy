/** LLM messages, and the block grammar that providers demand of a conversation history. */
module Conversation {
  import opened Prelude

  datatype Role = System | User | Assistant | Tool

  /** Media payloads are opaque; unknown block types are kept verbatim. */
  datatype Block =
    | TextBlock(text: string)
    | ImageUrl(payload: string)
    | Image(payload: string)
    | InputAudio(payload: string)
    | Unknown(payload: string)

  datatype Content = Text(text: string) | Blocks(blocks: seq<Block>)

  datatype ToolCall = ToolCall(id: string, name: string, arguments: string)

  datatype Message = Message(
    role: Role,
    content: Option<Content>,
    toolCalls: Option<seq<ToolCall>>,
    toolCallId: Option<string>)

  datatype StopReason = Stop | ToolCalls | Length | ContentFilter

  datatype Usage = Usage(promptTokens: nat, completionTokens: nat)

  /** A completed model reply. */
  datatype Streamed = Streamed(message: Message, finish: Option<StopReason>, usage: Option<Usage>)

  function SystemMessage(text: string): Message
  {
    Message(System, Some(Text(text)), None, None)
  }

  function ToolReply(id: string, content: Content): Message
  {
    Message(Tool, Some(content), None, Some(id))
  }

  // ---------- Block grammar ----------

  predicate IsCall(m: Message)
  {
    m.role.Assistant? && m.toolCalls.Some?
  }

  /** A message that stands alone: neither a tool reply nor an assistant message with calls. */
  predicate Plain(m: Message)
  {
    !m.role.Tool? && !IsCall(m)
  }

  predicate DistinctIds(cs: seq<ToolCall>)
  {
    forall i, j | 0 <= i < j < |cs| :: cs[i].id != cs[j].id
  }

  predicate Answers(m: Message, c: ToolCall)
  {
    m.role.Tool? && m.toolCallId == Some(c.id)
  }

  /** `ms` starts with an assistant call message and one reply per call, in call order. */
  predicate StartsWithCallBlock(ms: seq<Message>)
  {
    && ms != [] && IsCall(ms[0])
    && var cs := ms[0].toolCalls.value;
       && DistinctIds(cs)
       && 1 + |cs| <= |ms|
       && forall k | 0 <= k < |cs| :: Answers(ms[1 + k], cs[k])
  }

  /** Length of the block that starts with `m`. */
  function BlockLength(m: Message): (n: nat)
    ensures n >= 1
  {
    if IsCall(m) then 1 + |m.toolCalls.value| else 1
  }

  predicate StartsWithBlock(ms: seq<Message>)
  {
    StartsWithCallBlock(ms) || (ms != [] && Plain(ms[0]))
  }

  /** A history is a sequence of whole blocks. */
  predicate Grouped(ms: seq<Message>)
    decreases |ms|
  {
    ms == [] || (StartsWithBlock(ms) && Grouped(ms[BlockLength(ms[0])..]))
  }

  /** Appending whole blocks to a grouped history keeps it grouped. */
  lemma {:induction false} GroupedAppend(a: seq<Message>, b: seq<Message>)
    requires Grouped(a) && Grouped(b)
    ensures Grouped(a + b)
    decreases |a|
  {
    if a == [] {
      assert a + b == b;
    } else {
      var n := BlockLength(a[0]);
      GroupedAppend(a[n..], b);
      assert (a + b)[n..] == a[n..] + b;
      assert (a + b)[..n] == a[..n];
      assert forall k | 0 <= k < n :: (a + b)[k] == a[k];
    }
  }

  lemma {:induction false} PlainIsGrouped(m: Message)
    requires Plain(m)
    ensures Grouped([m])
  {
    assert [m][1..] == [];
  }

  lemma {:induction false} CallBlockIsGrouped(ms: seq<Message>)
    requires StartsWithCallBlock(ms) && |ms| == 1 + |ms[0].toolCalls.value|
    ensures Grouped(ms)
  {
    assert ms[BlockLength(ms[0])..] == [];
  }

  function CallsOf(m: Message): seq<ToolCall>
  {
    if m.toolCalls.Some? then m.toolCalls.value else []
  }

  /** What the grammar needs of a model reply: an assistant message whose call ids are distinct. */
  predicate ReplyOk(s: Streamed)
  {
    s.message.role.Assistant? && DistinctIds(CallsOf(s.message))
  }

  // ---------- Unanswered calls ----------

  function IdSet(cs: seq<ToolCall>): set<string>
  {
    set i | 0 <= i < |cs| :: cs[i].id
  }

  /** How one message changes the set of calls still waiting for a reply. */
  function Settle(open: set<string>, m: Message): set<string>
  {
    if IsCall(m) then open + IdSet(m.toolCalls.value)
    else if m.role.Tool? && m.toolCallId.Some? then open - {m.toolCallId.value}
    else open
  }

  /** The calls still unanswered after `ms`, starting from `open`. */
  function Unanswered(ms: seq<Message>, open: set<string>): set<string>
  {
    if ms == [] then open else Unanswered(ms[1..], Settle(open, ms[0]))
  }

  lemma {:induction false} UnansweredAppend(a: seq<Message>, b: seq<Message>, open: set<string>)
    ensures Unanswered(a + b, open) == Unanswered(b, Unanswered(a, open))
    decreases |a|
  {
    if a == [] {
      assert a + b == b;
    } else {
      assert (a + b)[1..] == a[1..] + b;
      UnansweredAppend(a[1..], b, Settle(open, a[0]));
    }
  }

  predicate CallsFor(m: Message, id: string)
  {
    IsCall(m) && id in IdSet(m.toolCalls.value)
  }

  predicate RepliesTo(m: Message, id: string)
  {
    m.role.Tool? && m.toolCallId == Some(id)
  }

  /** Message `i` makes a call `id` that no later message answers. */
  predicate Dangling(ms: seq<Message>, i: nat, id: string)
  {
    i < |ms| && CallsFor(ms[i], id) && forall j | i < j < |ms| :: !RepliesTo(ms[j], id)
  }

  /** On any history at all, the fold leaves exactly the ids of calls without a later reply. */
  lemma {:induction false} UnansweredMeans(ms: seq<Message>, id: string)
    ensures id in Unanswered(ms, {}) <==> exists i: nat :: Dangling(ms, i, id)
  {
    if ms != [] {
      var n := |ms| - 1;
      UnansweredMeans(ms[..n], id);
      UnansweredSnoc(ms, n);
      assert ms[..n + 1] == ms;
      if CallsFor(ms[n], id) {
        assert Dangling(ms, n, id);
      } else if !RepliesTo(ms[n], id) {
        forall i: nat
          ensures Dangling(ms, i, id) <==> Dangling(ms[..n], i, id)
        {
          DanglingOfFront(ms, i, id);
        }
      }
    }
  }

  lemma {:induction false} DanglingOfFront(ms: seq<Message>, i: nat, id: string)
    requires ms != [] && !CallsFor(ms[|ms| - 1], id) && !RepliesTo(ms[|ms| - 1], id)
    ensures Dangling(ms, i, id) <==> Dangling(ms[..|ms| - 1], i, id)
  {
    var front := ms[..|ms| - 1];
    assert forall j | 0 <= j < |front| :: front[j] == ms[j];
  }

  lemma {:induction false} UnansweredSnoc(ms: seq<Message>, i: nat)
    requires i < |ms|
    ensures Unanswered(ms[..i + 1], {}) == Settle(Unanswered(ms[..i], {}), ms[i])
  {
    assert ms[..i + 1] == ms[..i] + [ms[i]];
    UnansweredAppend(ms[..i], [ms[i]], {});
    assert [ms[i]][1..] == [];
  }

  /** Part-way through a call block exactly the calls not yet reached are open. */
  lemma {:induction false} UnansweredInBlock(ms: seq<Message>, k: nat)
    requires StartsWithCallBlock(ms) && 1 <= k <= BlockLength(ms[0])
    ensures Unanswered(ms[..k], {}) == IdSet(ms[0].toolCalls.value[k - 1..])
    decreases k
  {
    var cs := ms[0].toolCalls.value;
    if k == 1 {
      assert ms[..1] == [ms[0]];
      assert [ms[0]][1..] == [];
      assert cs[0..] == cs;
    } else {
      UnansweredInBlock(ms, k - 1);
      assert ms[..k] == ms[..k - 1] + [ms[k - 1]];
      UnansweredAppend(ms[..k - 1], [ms[k - 1]], {});
      assert [ms[k - 1]][1..] == [];
      assert Answers(ms[1 + (k - 2)], cs[k - 2]);
      TailIds(cs, k - 2);
    }
  }

  lemma {:induction false} TailIds(cs: seq<ToolCall>, j: nat)
    requires DistinctIds(cs) && j < |cs|
    ensures IdSet(cs[j..]) - {cs[j].id} == IdSet(cs[j + 1..])
  {
    forall x | x in IdSet(cs[j..]) - {cs[j].id} ensures x in IdSet(cs[j + 1..]) {
      var i :| 0 <= i < |cs[j..]| && cs[j..][i].id == x;
      assert i > 0 && cs[j + 1..][i - 1].id == x;
    }
    forall x | x in IdSet(cs[j + 1..]) ensures x in IdSet(cs[j..]) - {cs[j].id} {
      var i :| 0 <= i < |cs[j + 1..]| && cs[j + 1..][i].id == x;
      assert cs[j..][i + 1].id == x;
    }
  }

  /**
   * On a grouped history the set of unanswered calls is empty exactly at block boundaries, even
   * though call ids may repeat from one assistant message to the next; and cutting at a boundary
   * leaves a grouped remainder.
   */
  lemma {:induction false} BoundaryIffAnswered(ms: seq<Message>, k: nat)
    requires Grouped(ms) && k <= |ms|
    ensures Unanswered(ms[..k], {}) == {} <==> Grouped(ms[..k])
    ensures Grouped(ms[..k]) ==> Grouped(ms[k..])
    decreases |ms|
  {
    if k == 0 {
      assert ms[..0] == [] && ms[0..] == ms;
    } else {
      var n := BlockLength(ms[0]);
      if k < n {
        InsideBlock(ms, k);
      } else {
        AcrossBlock(ms, k);
        BoundaryIffAnswered(ms[n..], k - n);
        assert ms[k..] == ms[n..][k - n..];
      }
    }
  }

  lemma {:induction false} InsideBlock(ms: seq<Message>, k: nat)
    requires StartsWithBlock(ms) && 0 < k < BlockLength(ms[0])
    ensures Unanswered(ms[..k], {}) != {} && !Grouped(ms[..k])
  {
    var cs := ms[0].toolCalls.value;
    UnansweredInBlock(ms, k);
    assert cs[k - 1..][0].id in IdSet(cs[k - 1..]);
    assert ms[..k][0] == ms[0];
  }

  lemma {:induction false} AcrossBlock(ms: seq<Message>, k: nat)
    requires StartsWithBlock(ms) && BlockLength(ms[0]) <= k <= |ms|
    ensures var n := BlockLength(ms[0]);
      && Unanswered(ms[..k], {}) == Unanswered(ms[n..][..k - n], {})
      && (Grouped(ms[..k]) <==> Grouped(ms[n..][..k - n]))
  {
    var n := BlockLength(ms[0]);
    assert ms[..k] == ms[..n] + ms[n..][..k - n];
    UnansweredAppend(ms[..n], ms[n..][..k - n], {});
    if IsCall(ms[0]) {
      UnansweredInBlock(ms, n);
      assert ms[0].toolCalls.value[n - 1..] == [];
      assert Unanswered(ms[..n], {}) == {};
    } else {
      assert ms[..1] == [ms[0]] && [ms[0]][1..] == [];
      assert Unanswered([ms[0]], {}) == Unanswered([], Settle({}, ms[0])) == {};
    }
    assert ms[..k][n..] == ms[n..][..k - n];
    assert forall i | 0 <= i < k :: ms[..k][i] == ms[i];
  }

  /** The last boundary at or before `p` is at most one call block away. */
  lemma {:induction false} BoundaryBelow(ms: seq<Message>, p: nat) returns (b: nat)
    requires Grouped(ms) && p <= |ms|
    ensures b <= p && Grouped(ms[..b])
    ensures forall k | b < k <= p :: !Grouped(ms[..k])
    ensures b < p ==> IsCall(ms[b]) && p - b <= |ms[b].toolCalls.value|
    decreases |ms|
  {
    if p == 0 {
      b := 0;
    } else {
      var n := BlockLength(ms[0]);
      if p < n {
        b := 0;
        forall k | 0 < k <= p ensures !Grouped(ms[..k]) {
          InsideBlock(ms, k);
        }
      } else {
        var c := BoundaryBelow(ms[n..], p - n);
        b := n + c;
        AcrossBlock(ms, b);
        forall k | b < k <= p ensures !Grouped(ms[..k]) {
          AcrossBlock(ms, k);
          assert !Grouped(ms[n..][..k - n]);
        }
      }
    }
  }
}
