/** Assembling tool calls from streamed deltas. */
module ToolAssembly {
  import opened Prelude

  /** `name` and `arguments` are the fields of the delta's optional `function` object. */
  datatype ToolDelta = ToolDelta(index: nat, id: Option<string>, name: Option<string>, arguments: Option<string>)

  datatype PartialCall = PartialCall(id: string, name: string, arguments: string)

  const BLANK := PartialCall("", "", "")

  function Pad(calls: seq<PartialCall>, n: nat): (r: seq<PartialCall>)
    ensures |r| == if n < |calls| then |calls| else n
    ensures forall i | 0 <= i < |r| :: r[i] == if i < |calls| then calls[i] else BLANK
    decreases n - |calls|
  {
    if |calls| >= n then calls else Pad(calls + [BLANK], n)
  }

  function Update(c: PartialCall, d: ToolDelta): PartialCall
  {
    PartialCall(
      if d.id.Some? then d.id.value else c.id,
      if d.name.Some? then d.name.value else c.name,
      if d.arguments.Some? then c.arguments + d.arguments.value else c.arguments)
  }

  function Accumulate(calls: seq<PartialCall>, d: ToolDelta): (r: seq<PartialCall>)
    ensures |r| == if d.index < |calls| then |calls| else d.index + 1
  {
    var padded := Pad(calls, d.index + 1);
    padded[d.index := Update(padded[d.index], d)]
  }

  method AccumulateToolCall(calls: seq<PartialCall>, d: ToolDelta) returns (r: seq<PartialCall>)
    ensures r == Accumulate(calls, d)
  {
    r := calls;
    while |r| <= d.index
      invariant Pad(r, d.index + 1) == Pad(calls, d.index + 1)
      decreases d.index + 1 - |r|
    {
      r := r + [BLANK];
    }
    var entry := r[d.index];
    if d.id.Some? {
      entry := entry.(id := d.id.value);
    }
    if d.name.Some? {
      entry := entry.(name := d.name.value);
    }
    if d.arguments.Some? {
      entry := entry.(arguments := entry.arguments + d.arguments.value);
    }
    r := r[d.index := entry];
  }

  function Assemble(calls: seq<PartialCall>, ds: seq<ToolDelta>): seq<PartialCall>
    decreases |ds|
  {
    if ds == [] then calls else Assemble(Accumulate(calls, ds[0]), ds[1..])
  }

  lemma {:induction false} AssembleAppend(calls: seq<PartialCall>, a: seq<ToolDelta>, b: seq<ToolDelta>)
    ensures Assemble(calls, a + b) == Assemble(Assemble(calls, a), b)
    decreases |a|
  {
    if a == [] {
      assert a + b == b;
    } else {
      assert (a + b)[1..] == a[1..] + b && (a + b)[0] == a[0];
      AssembleAppend(Accumulate(calls, a[0]), a[1..], b);
    }
  }

  // ---------- What the result should be, said index by index ----------

  /** The argument fragments bearing index `i`, in arrival order. */
  function Fragments(ds: seq<ToolDelta>, i: nat): seq<string>
  {
    if ds == [] then []
    else (if ds[0].index == i && ds[0].arguments.Some? then [ds[0].arguments.value] else []) + Fragments(ds[1..], i)
  }

  /** The last id given for index `i`, else `otherwise`. */
  function LastId(ds: seq<ToolDelta>, i: nat, otherwise: string): string
  {
    if ds == [] then otherwise
    else LastId(ds[1..], i, if ds[0].index == i && ds[0].id.Some? then ds[0].id.value else otherwise)
  }

  function LastName(ds: seq<ToolDelta>, i: nat, otherwise: string): string
  {
    if ds == [] then otherwise
    else LastName(ds[1..], i, if ds[0].index == i && ds[0].name.Some? then ds[0].name.value else otherwise)
  }

  /** One more than the largest index seen. */
  function Extent(ds: seq<ToolDelta>, least: nat): nat
  {
    if ds == [] then least else Extent(ds[1..], if ds[0].index < least then least else ds[0].index + 1)
  }

  function At(calls: seq<PartialCall>, i: nat): PartialCall
  {
    if i < |calls| then calls[i] else BLANK
  }

  lemma {:induction false} AccumulateAt(calls: seq<PartialCall>, d: ToolDelta, i: nat)
    ensures At(Accumulate(calls, d), i) == if i == d.index then Update(At(calls, i), d) else At(calls, i)
  {
  }

  /**
   * However deltas for different indices interleave, each call's arguments are the concatenation, in
   * arrival order, of exactly the fragments bearing its index, and its id and name the last given.
   */
  lemma {:induction false} AssembledByIndex(calls: seq<PartialCall>, ds: seq<ToolDelta>, i: nat)
    ensures |Assemble(calls, ds)| == Extent(ds, |calls|)
    ensures At(Assemble(calls, ds), i)
         == PartialCall(LastId(ds, i, At(calls, i).id), LastName(ds, i, At(calls, i).name),
                        At(calls, i).arguments + Concat(Fragments(ds, i)))
    decreases |ds|
  {
    if ds == [] {
      assert At(calls, i).arguments + Concat([]) == At(calls, i).arguments;
    } else {
      AccumulateAt(calls, ds[0], i);
      AssembledByIndex(Accumulate(calls, ds[0]), ds[1..], i);
      FragmentStep(At(calls, i).arguments, ds, i);
    }
  }

  lemma {:induction false} FragmentStep(prefix: string, ds: seq<ToolDelta>, i: nat)
    requires ds != []
    ensures var d := ds[0];
      prefix + Concat(Fragments(ds, i))
      == (if d.index == i && d.arguments.Some? then prefix + d.arguments.value else prefix)
         + Concat(Fragments(ds[1..], i))
  {
    if ds[0].index == i && ds[0].arguments.Some? {
      assert Fragments(ds, i)[1..] == Fragments(ds[1..], i);
    } else {
      assert Fragments(ds, i) == Fragments(ds[1..], i);
    }
  }

  lemma {:induction false} AssembledFromNothing(ds: seq<ToolDelta>, i: nat)
    ensures |Assemble([], ds)| == Extent(ds, 0)
    ensures At(Assemble([], ds), i) == PartialCall(LastId(ds, i, ""), LastName(ds, i, ""), Concat(Fragments(ds, i)))
  {
    AssembledByIndex([], ds, i);
    assert "" + Concat(Fragments(ds, i)) == Concat(Fragments(ds, i));
  }

  predicate DistinctCallIds(calls: seq<PartialCall>)
  {
    forall i, j | 0 <= i < j < |calls| :: calls[i].id != calls[j].id
  }

  /** The last ids given for any two indices up to the largest differ; an index never given one
      counts as the blank id. */
  predicate DistinctLastIds(ds: seq<ToolDelta>)
  {
    forall i: nat, j: nat | i < j < Extent(ds, 0) :: LastId(ds, i, "") != LastId(ds, j, "")
  }

  /** The assembled calls have pairwise different ids, precisely when the deltas end up giving every
      two indices different ones. */
  lemma {:induction false} DistinctIdsIff(ds: seq<ToolDelta>)
    ensures DistinctCallIds(Assemble([], ds)) <==> DistinctLastIds(ds)
  {
    var calls := Assemble([], ds);
    AssembledFromNothing(ds, 0);
    if DistinctCallIds(calls) {
      forall i: nat, j: nat | i < j < Extent(ds, 0)
        ensures LastId(ds, i, "") != LastId(ds, j, "")
      {
        AssembledFromNothing(ds, i);
        AssembledFromNothing(ds, j);
        assert calls[i].id != calls[j].id;
      }
    } else {
      var i, j :| 0 <= i < j < |calls| && calls[i].id == calls[j].id;
      AssembledFromNothing(ds, i);
      AssembledFromNothing(ds, j);
    }
  }

  /** Skipping two indices leaves two calls with the blank id. */
  lemma {:induction false} SkippedIndicesCollide(id: string, args: string)
    ensures !DistinctLastIds([ToolDelta(2, Some(id), None, Some(args))])
  {
    var ds := [ToolDelta(2, Some(id), None, Some(args))];
    assert Extent(ds, 0) == Extent(ds[1..], 3) == 3;
    assert LastId(ds, 0, "") == LastId(ds[1..], 0, "") == "";
    assert LastId(ds, 1, "") == LastId(ds[1..], 1, "") == "";
  }
}
