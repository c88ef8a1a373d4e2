/**
  Streamed equals unstreamed. Whatever way a completion is cut into chunks and however the
  deltas of different tool calls are interleaved, the parsed stream normalises to the items of
  the whole message exactly when every call has a clean id, name and arguments.
 */
module ToolStreamTheorems {
  import opened Prelude
  import opened Sorting
  import opened ToolStream

  /** A tool call as the provider means it; None when the arguments are left out. */
  datatype FullCall = FullCall(id: string, name: string, arguments: Option<string>)

  // What a sequence of deltas says ---------------------------------------------------------

  function Projected(deltas: seq<ToolDelta>, index: int): seq<ToolDelta> {
    if deltas == [] then []
    else
      var last := deltas[|deltas| - 1];
      Projected(deltas[..|deltas| - 1], index) + if last.index == Some(index) then [last] else []
  }

  function LastNonEmpty(values: seq<string>): string {
    if values == [] then ""
    else if values[|values| - 1] != "" then values[|values| - 1]
    else LastNonEmpty(values[..|values| - 1])
  }

  function Joined(values: seq<string>): string {
    if values == [] then "" else Joined(values[..|values| - 1]) + values[|values| - 1]
  }

  function IdsOf(deltas: seq<ToolDelta>): seq<string> {
    seq(|deltas|, i requires 0 <= i < |deltas| => deltas[i].id)
  }

  function NamesOf(deltas: seq<ToolDelta>): seq<string> {
    seq(|deltas|, i requires 0 <= i < |deltas| => if deltas[i].function_.Some? then deltas[i].function_.value.name else "")
  }

  function ArgumentsOf(deltas: seq<ToolDelta>): seq<string> {
    seq(|deltas|, i requires 0 <= i < |deltas| => if deltas[i].function_.Some? then deltas[i].function_.value.arguments else "")
  }

  ghost predicate Explicit(deltas: seq<ToolDelta>) {
    forall i | 0 <= i < |deltas| :: deltas[i].index.Some?
  }

  /** The deltas of one call: its id and name are said last, its arguments bit by bit. */
  ghost predicate Spells(deltas: seq<ToolDelta>, call: FullCall) {
    && deltas != []
    && LastNonEmpty(IdsOf(deltas)) == call.id
    && LastNonEmpty(NamesOf(deltas)) == call.name
    && Joined(ArgumentsOf(deltas)) == (if call.arguments.Some? then call.arguments.value else "")
  }

  /** The deltas say exactly these calls, in any interleaving. */
  ghost predicate Streams(deltas: seq<ToolDelta>, indices: seq<int>, calls: seq<FullCall>) {
    && |indices| == |calls| && SortedBy(Less, indices)
    && (forall i | 0 <= i < |deltas| :: deltas[i].index.Some? && deltas[i].index.value in indices)
    && (forall k | 0 <= k < |calls| :: Spells(Projected(deltas, indices[k]), calls[k]))
  }

  // The accumulators hold what was said ----------------------------------------------------

  function Said(deltas: seq<ToolDelta>): Accumulator {
    Accumulator(LastNonEmpty(IdsOf(deltas)), LastNonEmpty(NamesOf(deltas)), Joined(ArgumentsOf(deltas)))
  }

  lemma SaidOneMore(deltas: seq<ToolDelta>, d: ToolDelta)
    ensures Said(deltas + [d]) == Absorb(Said(deltas), d)
  {
    var n := |deltas|;
    assert IdsOf(deltas + [d])[..n] == IdsOf(deltas);
    assert NamesOf(deltas + [d])[..n] == NamesOf(deltas);
    assert ArgumentsOf(deltas + [d])[..n] == ArgumentsOf(deltas);
    assert Joined(ArgumentsOf(deltas)) + "" == Joined(ArgumentsOf(deltas));
  }

  lemma {:induction false} MergeHoldsWhatWasSaid(deltas: seq<ToolDelta>, index: int)
    requires Explicit(deltas)
    ensures var calls := MergeAll(map[], deltas);
      && (index in calls <==> Projected(deltas, index) != [])
      && (index in calls ==> calls[index] == Said(Projected(deltas, index)))
    decreases |deltas|
  {
    if deltas != [] {
      var before, d := deltas[..|deltas| - 1], deltas[|deltas| - 1];
      MergeHoldsWhatWasSaid(before, index);
      if d.index == Some(index) {
        SaidOneMore(Projected(before, index), d);
      } else {
        assert Projected(deltas, index) == Projected(before, index);
      }
    }
  }

  lemma {:induction false} ProjectedMember(deltas: seq<ToolDelta>, index: int)
    requires Projected(deltas, index) != []
    ensures exists i :: 0 <= i < |deltas| && deltas[i].index == Some(index)
    decreases |deltas|
  {
    var last := deltas[|deltas| - 1];
    if last.index != Some(index) {
      assert Projected(deltas, index) == Projected(deltas[..|deltas| - 1], index);
      ProjectedMember(deltas[..|deltas| - 1], index);
      var i :| 0 <= i < |deltas| - 1 && deltas[..|deltas| - 1][i].index == Some(index);
      assert deltas[i].index == Some(index);
    }
  }

  /** Sorting the accumulators' keys gives the indices of the calls. */
  lemma StreamOrder(deltas: seq<ToolDelta>, indices: seq<int>, calls: seq<FullCall>)
    requires Streams(deltas, indices, calls)
    ensures KeysInOrder(MergeAll(map[], deltas)) == indices
  {
    var merged := MergeAll(map[], deltas);
    forall i ensures i in merged <==> i in indices {
      MergeHoldsWhatWasSaid(deltas, i);
      if i in merged {
        ProjectedMember(deltas, i);
      }
      if i in indices {
        var k :| 0 <= k < |indices| && indices[k] == i;
        assert Spells(Projected(deltas, indices[k]), calls[k]);
      }
    }
    SortedKeysAre(merged, indices);
  }

  lemma SortedKeysAre(merged: map<int, Accumulator>, indices: seq<int>)
    requires SortedBy(Less, indices) && forall i :: i in merged <==> i in indices
    ensures KeysInOrder(merged) == indices
  {
    LessIsStrictOrder();
    forall i ensures multiset(indices)[i] == multiset(merged.Keys)[i] {
      if i in indices {
        var p :| 0 <= p < |indices| && indices[p] == i;
        SortedHasNoRepeats(Less, indices, p);
      } else {
        assert i !in multiset(indices);
      }
    }
    assert multiset(indices) == multiset(merged.Keys);
    AnyListingSorts(merged, indices);
    SortSorts(Less, indices);
    SortedIsUnique(Less, SortBy(Less, indices), indices);
  }

  function AsAccumulator(call: FullCall): Accumulator {
    Accumulator(call.id, call.name, if call.arguments.Some? then call.arguments.value else "")
  }

  /** Under each index, the accumulator of its call. */
  ghost predicate HoldsCalls(merged: map<int, Accumulator>, indices: seq<int>, calls: seq<FullCall>) {
    |indices| == |calls| && forall k | 0 <= k < |indices| :: indices[k] in merged && merged[indices[k]] == AsAccumulator(calls[k])
  }

  lemma StreamHoldsCalls(deltas: seq<ToolDelta>, indices: seq<int>, calls: seq<FullCall>)
    requires Streams(deltas, indices, calls)
    ensures HoldsCalls(MergeAll(map[], deltas), indices, calls) && KeysInOrder(MergeAll(map[], deltas)) == indices
  {
    var merged := MergeAll(map[], deltas);
    StreamOrder(deltas, indices, calls);
    forall k | 0 <= k < |calls| ensures indices[k] in merged && merged[indices[k]] == AsAccumulator(calls[k]) {
      assert Spells(Projected(deltas, indices[k]), calls[k]);
      MergeHoldsWhatWasSaid(deltas, indices[k]);
    }
  }

  lemma SameCallsSameMap(x: map<int, Accumulator>, y: map<int, Accumulator>, indices: seq<int>, calls: seq<FullCall>)
    requires HoldsCalls(x, indices, calls) && HoldsCalls(y, indices, calls)
    requires forall i | i in x || i in y :: i in indices
    ensures x == y
  {
    forall i | i in x || i in y ensures i in x && i in y && x[i] == y[i] {
      var k :| 0 <= k < |indices| && indices[k] == i;
    }
  }

  /** Two streams that say the same calls are assembled alike, however they were cut. */
  lemma ChunkingIrrelevant(a: seq<ToolDelta>, b: seq<ToolDelta>, indices: seq<int>, calls: seq<FullCall>)
    requires Streams(a, indices, calls) && Streams(b, indices, calls)
    ensures MergeAll(map[], a) == MergeAll(map[], b)
  {
    StreamHoldsCalls(a, indices, calls);
    StreamHoldsCalls(b, indices, calls);
    OnlyTheirIndices(a, indices, calls);
    OnlyTheirIndices(b, indices, calls);
    SameCallsSameMap(MergeAll(map[], a), MergeAll(map[], b), indices, calls);
  }

  lemma OnlyTheirIndices(deltas: seq<ToolDelta>, indices: seq<int>, calls: seq<FullCall>)
    requires Streams(deltas, indices, calls)
    ensures forall i | i in MergeAll(map[], deltas) :: i in indices
  {
    StreamOrder(deltas, indices, calls);
    forall i | i in MergeAll(map[], deltas) ensures i in indices {
      assert i in KeysInOrder(MergeAll(map[], deltas));
    }
  }

  // Items ----------------------------------------------------------------------------------

  /** What a call becomes when it was streamed under an index... */
  function StreamedItem(call: FullCall, index: int): seq<Item> {
    var built := BuildCall(AsAccumulator(call), index);
    if built == [] then [] else NormalizeCall(built[0], 0)
  }

  function AsCall(call: FullCall): Call {
    Call(call.id, Some(Function(call.name, if call.arguments.Some? then Text(call.arguments.value) else Missing)))
  }

  function StreamedItems(calls: seq<FullCall>, indices: seq<int>): seq<Item>
    requires |indices| == |calls|
  {
    if calls == [] then []
    else
      var n := |calls| - 1;
      StreamedItems(calls[..n], indices[..n]) + StreamedItem(calls[n], indices[n])
  }

  /** ... and what the unstreamed message has. */
  function PlainCalls(calls: seq<FullCall>): (r: seq<Call>)
    ensures |r| == |calls| && forall i | 0 <= i < |r| :: r[i] == AsCall(calls[i])
  {
    seq(|calls|, i requires 0 <= i < |calls| => AsCall(calls[i]))
  }

  /** Equal text in and out: named, with an id, and nothing for TrimSpace to remove. */
  predicate Clean(call: FullCall) {
    || call.name == ""
    || (Trim(call.name) == call.name && call.id != "" && Trim(call.id) == call.id
        && (call.arguments.Some? ==> Trim(call.arguments.value) != ""))
  }

  ghost predicate AllClean(calls: seq<FullCall>) {
    forall call | call in calls :: Clean(call)
  }

  ghost predicate SomeNamed(calls: seq<FullCall>) {
    exists call :: call in calls && Trim(call.name) != ""
  }

  lemma {:induction false} TrimRightKeepsFirst(s: string)
    requires s != "" && !IsSpace(s[0])
    ensures TrimRight(s) != ""
    decreases |s|
  {
    if IsSpace(s[|s| - 1]) {
      TrimRightKeepsFirst(s[..|s| - 1]);
    }
  }

  lemma NotBlank(s: string)
    requires s != "" && !IsSpace(s[0])
    ensures Trim(s) != ""
  {
    TrimRightKeepsFirst(s);
  }

  lemma TrimOfEmpty()
    ensures Trim("") == ""
  {
  }

  lemma IdAgrees(id: string, index: int, position: nat)
    ensures (if Trim(id) == "" then "call-" + Itoa(index + 1) else Trim(id)) == (if id == "" then "chat_tool_call_" + Itoa(position) else id)
      <==> id != "" && Trim(id) == id
  {
    var made, default := "call-" + Itoa(index + 1), "chat_tool_call_" + Itoa(position);
    assert made[1] == 'a' && default[1] == 'h' && made[0] == 'c';
    TrimOfEmpty();
    NotBlank(made);
  }

  lemma ArgumentsAgree(arguments: Option<string>)
    ensures var text := if arguments.Some? then arguments.value else "";
      (if Trim(text) == "" then "{}" else text) == (if arguments.Some? then arguments.value else "{}")
      <==> (arguments.Some? ==> Trim(arguments.value) != "")
  {
    NotBlank("{}");
    TrimOfEmpty();
  }

  lemma CallAgrees(call: FullCall, index: int, position: nat)
    ensures |StreamedItem(call, index)| <= |NormalizeCall(AsCall(call), position)| <= 1
    ensures StreamedItem(call, index) == NormalizeCall(AsCall(call), position) <==> Clean(call)
  {
    TrimOfEmpty();
    if Trim(call.name) != "" {
      var made := "call-" + Itoa(index + 1);
      assert made[0] == 'c';
      IdAgrees(call.id, index, position);
      ArgumentsAgree(call.arguments);
    }
  }

  /** Items agree one by one, or the whole lists differ. */
  lemma {:induction false} ItemsAgree(calls: seq<FullCall>, indices: seq<int>)
    requires |indices| == |calls|
    ensures |StreamedItems(calls, indices)| <= |NormalizeToolCalls(PlainCalls(calls))|
    ensures StreamedItems(calls, indices) == NormalizeToolCalls(PlainCalls(calls)) <==> AllClean(calls)
    decreases |calls|
  {
    if calls != [] {
      var n := |calls| - 1;
      ItemsAgree(calls[..n], indices[..n]);
      CallAgrees(calls[n], indices[n], |calls|);
      assert PlainCalls(calls)[..n] == PlainCalls(calls[..n]);
      AppendedAgree(StreamedItems(calls[..n], indices[..n]), NormalizeToolCalls(PlainCalls(calls[..n])),
                    StreamedItem(calls[n], indices[n]), NormalizeCall(AsCall(calls[n]), |calls|));
      AllCleanSplits(calls);
    }
  }

  lemma AppendedAgree(a: seq<Item>, b: seq<Item>, x: seq<Item>, y: seq<Item>)
    requires |a| <= |b| && |x| <= |y|
    ensures a + x == b + y <==> a == b && x == y
  {
    if a + x == b + y {
      assert |a| == |b|;
      assert (a + x)[..|a|] == a && (b + y)[..|b|] == b;
      assert (a + x)[|a|..] == x && (b + y)[|b|..] == y;
    }
  }

  lemma AllCleanSplits(calls: seq<FullCall>)
    requires calls != []
    ensures AllClean(calls) <==> AllClean(calls[..|calls| - 1]) && Clean(calls[|calls| - 1])
  {
    var n := |calls| - 1;
    assert calls == calls[..n] + [calls[n]];
  }

  lemma NormalizeOneMore(calls: seq<Call>, c: Call)
    ensures NormalizeToolCalls(calls + [c]) == NormalizeToolCalls(calls) + NormalizeCall(c, |calls| + 1)
  {
    assert (calls + [c])[..|calls|] == calls;
  }

  /** Normalising assembled calls needs no default: each has a name and an id. */
  lemma {:induction false} BuiltItems(merged: map<int, Accumulator>, indices: seq<int>, calls: seq<FullCall>)
    requires HoldsCalls(merged, indices, calls)
    ensures NormalizeToolCalls(BuildCalls(merged, indices)) == StreamedItems(calls, indices)
    decreases |calls|
  {
    if calls != [] {
      var n := |calls| - 1;
      BuiltItems(merged, indices[..n], calls[..n]);
      BuiltAppends(BuildCalls(merged, indices[..n]), calls[n], indices[n]);
    }
  }

  lemma BuiltAppends(before: seq<Call>, call: FullCall, index: int)
    ensures NormalizeToolCalls(before + BuildCall(AsAccumulator(call), index)) == NormalizeToolCalls(before) + StreamedItem(call, index)
  {
    var last := BuildCall(AsAccumulator(call), index);
    if last == [] {
      assert before + last == before;
    } else {
      assert last == [last[0]];
      NormalizeOneMore(before, last[0]);
      BuiltItem(call, index, |before| + 1);
    }
  }

  lemma BuiltItem(call: FullCall, index: int, position: nat)
    requires BuildCall(AsAccumulator(call), index) != []
    ensures NormalizeCall(BuildCall(AsAccumulator(call), index)[0], position) == StreamedItem(call, index)
  {
    assert ("call-" + Itoa(index + 1))[0] == 'c';
  }

  lemma StreamedToolItems(deltas: seq<ToolDelta>, indices: seq<int>, calls: seq<FullCall>)
    requires Streams(deltas, indices, calls)
    ensures NormalizeToolCalls(BuildToolCalls(MergeAll(map[], deltas))) == StreamedItems(calls, indices)
  {
    StreamHoldsCalls(deltas, indices, calls);
    BuiltItems(MergeAll(map[], deltas), indices, calls);
  }

  // The theorem ----------------------------------------------------------------------------

  /** The same completion in one piece. */
  function Unstreamed(id: string, model: string, content: string, calls: seq<FullCall>): Payload {
    Payload(id, model, [Choice(Some(Message(Plain(content), PlainCalls(calls))))])
  }

  lemma SomeNamedSplits(calls: seq<FullCall>)
    requires calls != []
    ensures SomeNamed(calls) <==> SomeNamed(calls[..|calls| - 1]) || Trim(calls[|calls| - 1].name) != ""
  {
    var n := |calls| - 1;
    assert calls == calls[..n] + [calls[n]];
    assert calls[n] in calls;
  }

  lemma {:induction false} SomeBuilt(merged: map<int, Accumulator>, indices: seq<int>, calls: seq<FullCall>)
    requires HoldsCalls(merged, indices, calls)
    ensures BuildCalls(merged, indices) != [] <==> SomeNamed(calls)
    decreases |calls|
  {
    if calls != [] {
      var n := |calls| - 1;
      SomeBuilt(merged, indices[..n], calls[..n]);
      SomeNamedSplits(calls);
    }
  }

  /** The parser accepts a stream exactly when it has content or a named call. */
  lemma ParsesExactly(chunks: seq<Chunk>, indices: seq<int>, calls: seq<FullCall>)
    requires FirstError(chunks).None? && Streams(AllTools(chunks), indices, calls)
    ensures ParseStream(chunks).Ok? <==> AllContent(chunks) != "" || SomeNamed(calls)
  {
    StreamHoldsCalls(AllTools(chunks), indices, calls);
    SomeBuilt(MergeAll(map[], AllTools(chunks)), indices, calls);
  }

  /**
    For every stream of these calls, in any chunks and any interleaving of the calls, the parsed
    stream and the whole message normalise to the same items if and only if every call is clean.
   */
  lemma StreamedEqualsUnstreamed(chunks: seq<Chunk>, indices: seq<int>, calls: seq<FullCall>, id: string, model: string)
    requires FirstError(chunks).None? && Streams(AllTools(chunks), indices, calls)
    requires AllContent(chunks) != "" || SomeNamed(calls)
    ensures ParseStream(chunks).Ok?
    ensures Normalize(ParseStream(chunks).value) == Normalize(Unstreamed(id, model, AllContent(chunks), calls)) <==> AllClean(calls)
  {
    ParsesExactly(chunks, indices, calls);
    StreamedToolItems(AllTools(chunks), indices, calls);
    ItemsAgree(calls, indices);
    SameContent(AllContent(chunks), BuildToolCalls(MergeAll(map[], AllTools(chunks))), PlainCalls(calls));
  }

  lemma SameContent(content: string, a: seq<Call>, b: seq<Call>)
    ensures MessageItems(Message(Plain(content), a)) == MessageItems(Message(Plain(content), b)) <==> NormalizeToolCalls(a) == NormalizeToolCalls(b)
  {
    var prefix := if Trim(content) != "" then [MessageItem(Trim(content))] else [];
    SamePrefix(prefix, NormalizeToolCalls(a), NormalizeToolCalls(b));
  }

  lemma SamePrefix(prefix: seq<Item>, a: seq<Item>, b: seq<Item>)
    ensures prefix + a == prefix + b <==> a == b
  {
    assert (prefix + a)[|prefix|..] == a && (prefix + b)[|prefix|..] == b;
  }

  /** A call without an id gets a different made-up one in each form. */
  lemma MissingIdDiffers(name: string, index: int, position: nat)
    requires Trim(name) == name != ""
    ensures StreamedItem(FullCall("", name, None), index) == [FunctionCall("call-" + Itoa(index + 1), name, Text("{}"))]
    ensures NormalizeCall(AsCall(FullCall("", name, None)), position) == [FunctionCall("chat_tool_call_" + Itoa(position), name, Text("{}"))]
    ensures StreamedItem(FullCall("", name, None), index) != NormalizeCall(AsCall(FullCall("", name, None)), position)
  {
    TrimOfEmpty();
    CallAgrees(FullCall("", name, None), index, position);
  }

  // Every way of cutting and interleaving is a stream ----------------------------------------

  function WholeDelta(call: FullCall, index: int): ToolDelta {
    ToolDelta(Some(index), call.id, Some(FunctionDelta(call.name, if call.arguments.Some? then call.arguments.value else "")))
  }

  function WholeDeltas(calls: seq<FullCall>): (r: seq<ToolDelta>)
    ensures |r| == |calls| && forall k | 0 <= k < |r| :: r[k] == WholeDelta(calls[k], k)
  {
    seq(|calls|, k requires 0 <= k < |calls| => WholeDelta(calls[k], k))
  }

  lemma {:induction false} ProjectedWhole(calls: seq<FullCall>, index: int)
    ensures Projected(WholeDeltas(calls), index) == if 0 <= index < |calls| then [WholeDelta(calls[index], index)] else []
    decreases |calls|
  {
    if calls != [] {
      var n := |calls| - 1;
      assert WholeDeltas(calls)[..n] == WholeDeltas(calls[..n]);
      ProjectedWhole(calls[..n], index);
    }
  }

  lemma SpellsWhole(call: FullCall, index: int)
    ensures Spells([WholeDelta(call, index)], call)
  {
    var ds := [WholeDelta(call, index)];
    SaidOneMore([], ds[0]);
    assert [] + ds == ds;
    assert Said(ds) == Absorb(Said([]), ds[0]);
  }

  function UpTo(n: nat): (r: seq<int>)
    ensures |r| == n && forall k | 0 <= k < n :: r[k] == k
  {
    seq(n, k => k)
  }

  lemma InUpTo(n: nat, k: nat)
    requires k < n
    ensures k in UpTo(n)
  {
    assert UpTo(n)[k] == k;
  }

  /** The calls sent whole, one delta each, are a stream of them. */
  lemma WholeCallsStream(calls: seq<FullCall>)
    ensures Streams(WholeDeltas(calls), UpTo(|calls|), calls)
  {
    forall k | 0 <= k < |calls| ensures Spells(Projected(WholeDeltas(calls), UpTo(|calls|)[k]), calls[k]) {
      ProjectedWhole(calls, k);
      SpellsWhole(calls[k], k);
    }
    forall i | 0 <= i < |calls| ensures WholeDeltas(calls)[i].index.value in UpTo(|calls|) {
      InUpTo(|calls|, i);
    }
  }

  lemma {:induction false} ProjectedConcat(a: seq<ToolDelta>, b: seq<ToolDelta>, index: int)
    ensures Projected(a + b, index) == Projected(a, index) + Projected(b, index)
    decreases |b|
  {
    if b == [] {
      assert a + b == a;
    } else {
      assert (a + b)[..|a + b| - 1] == a + b[..|b| - 1];
      ProjectedConcat(a, b[..|b| - 1], index);
    }
  }

  lemma ProjectedMiddle(a: seq<ToolDelta>, m: seq<ToolDelta>, b: seq<ToolDelta>, index: int)
    ensures Projected(a + m + b, index) == Projected(a, index) + Projected(m, index) + Projected(b, index)
  {
    ProjectedConcat(a + m, b, index);
    ProjectedConcat(a, m, index);
  }

  lemma ProjectedOne(d: ToolDelta, index: int)
    ensures Projected([d], index) == if d.index == Some(index) then [d] else []
  {
    assert [d][..0] == [];
  }

  lemma ProjectedPair(d: ToolDelta, e: ToolDelta, index: int)
    ensures Projected([d, e], index) == Projected([d], index) + Projected([e], index)
  {
    assert [d, e] == [d] + [e];
    ProjectedConcat([d], [e], index);
  }

  lemma SaidExtendsOne(p: seq<ToolDelta>, p': seq<ToolDelta>, d: ToolDelta)
    requires Said(p) == Said(p')
    ensures Said(p + [d]) == Said(p' + [d])
  {
    SaidOneMore(p, d);
    SaidOneMore(p', d);
  }

  lemma {:induction false} SaidExtends(p: seq<ToolDelta>, p': seq<ToolDelta>, q: seq<ToolDelta>)
    requires Said(p) == Said(p')
    ensures Said(p + q) == Said(p' + q)
    decreases |q|
  {
    if q == [] {
      assert p + q == p && p' + q == p';
    } else {
      SaidExtendsOne(p, p', q[0]);
      SaidExtends(p + [q[0]], p' + [q[0]], q[1..]);
      ConsAppends(p, q);
      ConsAppends(p', q);
    }
  }

  lemma ConsAppends(p: seq<ToolDelta>, q: seq<ToolDelta>)
    requires q != []
    ensures p + [q[0]] + q[1..] == p + q
  {
  }

  /** The part m' may stand in for m: same calls, and it says the same of each. */
  ghost predicate SaysTheSame(m: seq<ToolDelta>, m': seq<ToolDelta>) {
    && (forall i | 0 <= i < |m'| :: exists j :: 0 <= j < |m| && m'[i].index == m[j].index)
    && (forall index :: MeansTheSame(Projected(m, index), Projected(m', index)))
  }

  ghost predicate MeansTheSame(p: seq<ToolDelta>, p': seq<ToolDelta>) {
    (p == [] <==> p' == []) && forall before :: Said(before + p) == Said(before + p')
  }

  lemma IndicesKept(a: seq<ToolDelta>, m: seq<ToolDelta>, m': seq<ToolDelta>, b: seq<ToolDelta>, indices: seq<int>, i: nat)
    requires forall i | 0 <= i < |a + m + b| :: (a + m + b)[i].index.Some? && (a + m + b)[i].index.value in indices
    requires SaysTheSame(m, m') && i < |a + m' + b|
    ensures (a + m' + b)[i].index.Some? && (a + m' + b)[i].index.value in indices
  {
    var before, after := a + m + b, a + m' + b;
    if i < |a| {
      assert after[i] == before[i];
    } else if i < |a| + |m'| {
      var j :| 0 <= j < |m| && m'[i - |a|].index == m[j].index;
      assert before[|a| + j] == m[j];
    } else {
      assert after[i] == before[i - |m'| + |m|];
    }
  }

  lemma SpellsKept(a: seq<ToolDelta>, m: seq<ToolDelta>, m': seq<ToolDelta>, b: seq<ToolDelta>, call: FullCall)
    requires MeansTheSame(m, m') && Spells(a + m + b, call)
    ensures Spells(a + m' + b, call)
  {
    SaidExtends(a + m, a + m', b);
  }

  /** Replacing a part by one that says the same keeps a stream a stream. */
  lemma ReplaceKeepsStreams(a: seq<ToolDelta>, m: seq<ToolDelta>, m': seq<ToolDelta>, b: seq<ToolDelta>, indices: seq<int>, calls: seq<FullCall>)
    requires Streams(a + m + b, indices, calls) && SaysTheSame(m, m')
    ensures Streams(a + m' + b, indices, calls)
  {
    forall i | 0 <= i < |a + m' + b| ensures (a + m' + b)[i].index.Some? && (a + m' + b)[i].index.value in indices {
      IndicesKept(a, m, m', b, indices, i);
    }
    forall k | 0 <= k < |calls| ensures Spells(Projected(a + m' + b, indices[k]), calls[k]) {
      var index := indices[k];
      assert Spells(Projected(a + m + b, indices[k]), calls[k]);
      ProjectedMiddle(a, m, b, index);
      ProjectedMiddle(a, m', b, index);
      SpellsKept(Projected(a, index), Projected(m, index), Projected(m', index), Projected(b, index), calls[k]);
    }
  }

  /** Deltas of different calls may swap places. */
  lemma SwapKeepsStreams(a: seq<ToolDelta>, d: ToolDelta, e: ToolDelta, b: seq<ToolDelta>, indices: seq<int>, calls: seq<FullCall>)
    requires Streams(a + [d, e] + b, indices, calls) && d.index != e.index
    ensures Streams(a + [e, d] + b, indices, calls)
  {
    forall index ensures MeansTheSame(Projected([d, e], index), Projected([e, d], index)) {
      ProjectedPair(d, e, index);
      ProjectedPair(e, d, index);
      ProjectedOne(d, index);
      ProjectedOne(e, index);
      assert Projected([d, e], index) == Projected([e, d], index);
    }
    assert [e, d][0].index == [d, e][1].index && [e, d][1].index == [d, e][0].index;
    ReplaceKeepsStreams(a, [d, e], [e, d], b, indices, calls);
  }

  function FirstHalf(d: ToolDelta, x: string): ToolDelta
    requires d.function_.Some?
  {
    d.(function_ := Some(d.function_.value.(arguments := x)))
  }

  function SecondHalf(d: ToolDelta, y: string): ToolDelta {
    ToolDelta(d.index, "", Some(FunctionDelta("", y)))
  }

  lemma CutSaysTheSame(before: seq<ToolDelta>, d: ToolDelta, x: string, y: string)
    requires d.function_.Some? && d.function_.value.arguments == x + y
    ensures Said(before + [d]) == Said(before + [FirstHalf(d, x), SecondHalf(d, y)])
  {
    SaidOneMore(before, d);
    SaidOneMore(before, FirstHalf(d, x));
    SaidOneMore(before + [FirstHalf(d, x)], SecondHalf(d, y));
    assert before + [FirstHalf(d, x)] + [SecondHalf(d, y)] == before + [FirstHalf(d, x), SecondHalf(d, y)];
    assert Said(before).arguments + x + y == Said(before).arguments + (x + y);
  }

  /** Arguments may be cut anywhere into two deltas. */
  lemma CutKeepsStreams(a: seq<ToolDelta>, d: ToolDelta, x: string, y: string, b: seq<ToolDelta>, indices: seq<int>, calls: seq<FullCall>)
    requires Streams(a + [d] + b, indices, calls) && d.function_.Some? && d.function_.value.arguments == x + y
    ensures Streams(a + [FirstHalf(d, x), SecondHalf(d, y)] + b, indices, calls)
  {
    var d1, d2 := FirstHalf(d, x), SecondHalf(d, y);
    forall index ensures MeansTheSame(Projected([d], index), Projected([d1, d2], index)) {
      ProjectedPair(d1, d2, index);
      ProjectedOne(d, index);
      ProjectedOne(d1, index);
      ProjectedOne(d2, index);
      if d.index == Some(index) {
        assert Projected([d1, d2], index) == [d1, d2];
        forall before ensures Said(before + [d]) == Said(before + [d1, d2]) {
          CutSaysTheSame(before, d, x, y);
        }
      }
    }
    assert [d1, d2][0].index == [d][0].index && [d1, d2][1].index == [d][0].index;
    ReplaceKeepsStreams(a, [d], [d1, d2], b, indices, calls);
  }

  // Deltas without an index ----------------------------------------------------------------

  /** With no index at all, every delta is a call of its own, in order. */
  lemma {:induction false} UnindexedDeltasAreCalls(deltas: seq<ToolDelta>)
    requires forall i | 0 <= i < |deltas| :: deltas[i].index.None?
    ensures var calls := MergeAll(map[], deltas);
      |calls| == |deltas| && (forall k :: k in calls <==> 0 <= k < |deltas|)
      && forall k | 0 <= k < |deltas| :: calls[k] == Absorb(FRESH_CALL, deltas[k])
    decreases |deltas|
  {
    if deltas != [] {
      var n := |deltas| - 1;
      UnindexedDeltasAreCalls(deltas[..n]);
      var before := MergeAll(map[], deltas[..n]);
      assert n !in before && FirstFree(before, n) == n;
      assert |before[n := Absorb(FRESH_CALL, deltas[n])]| == |before| + 1;
    }
  }
}
