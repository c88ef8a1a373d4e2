/**
  What a completion normalises to, said on its own: the text of the message without surrounding
  space, then one function call for each named tool call, in order, as it was spelled. And what a
  stream puts together: contents in order of arrival, the last id and model, the first error.
 */
module ToolStreamItems {
  import opened Prelude
  import opened Sorting
  import opened ToolStream
  import opened ToolStreamTheorems

  // Text -----------------------------------------------------------------------------------

  ghost predicate AllSpace(s: string) {
    forall i | 0 <= i < |s| :: IsSpace(s[i])
  }

  /** s is text with space around it, and text has none at its ends. */
  ghost predicate TrimmedTo(s: string, text: string) {
    && (text != "" ==> !IsSpace(text[0]) && !IsSpace(text[|text| - 1]))
    && exists l, r :: AllSpace(l) && AllSpace(r) && s == l + text + r
  }

  lemma {:induction false} TrimLeftExact(s: string) returns (l: string)
    ensures AllSpace(l) && s == l + TrimLeft(s) && (TrimLeft(s) != "" ==> !IsSpace(TrimLeft(s)[0]))
  {
    l := "";
    if s != "" && IsSpace(s[0]) {
      var rest := TrimLeftExact(s[1..]);
      l := [s[0]] + rest;
      assert s == [s[0]] + s[1..];
    }
  }

  lemma {:induction false} TrimRightExact(s: string) returns (r: string)
    ensures AllSpace(r) && s == TrimRight(s) + r && (TrimRight(s) != "" ==> !IsSpace(TrimRight(s)[|TrimRight(s)| - 1]))
    decreases |s|
  {
    r := "";
    if s != "" && IsSpace(s[|s| - 1]) {
      var rest := TrimRightExact(s[..|s| - 1]);
      r := rest + [s[|s| - 1]];
      assert s == s[..|s| - 1] + [s[|s| - 1]];
    }
  }

  lemma TrimExact(s: string)
    ensures TrimmedTo(s, Trim(s)) && (Trim(s) == "" <==> AllSpace(s))
  {
    var l := TrimLeftExact(s);
    var m, text := TrimLeft(s), Trim(s);
    var r := TrimRightExact(m);
    assert s == l + text + r;
    if text != "" {
      assert text[0] == m[0];
      assert s[|l|] == text[0];
    }
  }

  /** The decimal digits of n, the most significant first. */
  function ValueOf(s: string): int {
    if s == "" then 0 else 10 * ValueOf(s[..|s| - 1]) + (s[|s| - 1] as int - '0' as int)
  }

  lemma {:induction false} DigitsMean(n: nat)
    ensures Digits(n) != "" && ValueOf(Digits(n)) == n && forall i | 0 <= i < |Digits(n)| :: '0' <= Digits(n)[i] <= '9'
  {
    if n >= 10 {
      DigitsMean(n / 10);
      assert Digits(n)[..|Digits(n)| - 1] == Digits(n / 10);
    } else {
      assert Digits(n)[..0] == "";
    }
  }

  // What a stream puts together --------------------------------------------------------------

  lemma {:induction false} ChoiceContentAppends(a: seq<ChoiceDelta>, b: seq<ChoiceDelta>)
    ensures ChoiceContent(a + b) == ChoiceContent(a) + ChoiceContent(b)
    decreases |b|
  {
    if b == [] {
      assert a + b == a;
    } else {
      assert (a + b)[..|a + b| - 1] == a + b[..|b| - 1];
      ChoiceContentAppends(a, b[..|b| - 1]);
    }
  }

  /** The content of a stream is that of its chunks, in order of arrival... */
  lemma {:induction false} ContentAppends(a: seq<Chunk>, b: seq<Chunk>)
    ensures AllContent(a + b) == AllContent(a) + AllContent(b)
    decreases |b|
  {
    if b == [] {
      assert a + b == a;
    } else {
      assert (a + b)[..|a + b| - 1] == a + b[..|b| - 1];
      ContentAppends(a, b[..|b| - 1]);
    }
  }

  /** ... and that of a chunk with one delta is the delta's. */
  lemma ContentOfOne(c: Chunk, d: ChoiceDelta)
    requires c.deltas == [d]
    ensures AllContent([c]) == d.content && AllTools([c]) == d.toolCalls
  {
    assert [c][..0] == [] && [d][..0] == [];
    assert ChoiceContent([d]) == ChoiceContent([]) + d.content == d.content;
    assert ChoiceTools([d]) == ChoiceTools([]) + d.toolCalls == d.toolCalls;
    assert AllContent([c]) == AllContent([]) + ChoiceContent(c.deltas) == ChoiceContent(c.deltas);
    assert AllTools([c]) == AllTools([]) + ChoiceTools(c.deltas) == ChoiceTools(c.deltas);
  }

  lemma {:induction false} ToolsAppend(a: seq<Chunk>, b: seq<Chunk>)
    ensures AllTools(a + b) == AllTools(a) + AllTools(b)
    decreases |b|
  {
    if b == [] {
      assert a + b == a;
    } else {
      var n := |b| - 1;
      assert (a + b)[..|a + b| - 1] == a + b[..n] && (a + b)[|a + b| - 1] == b[n];
      ToolsAppend(a, b[..n]);
      Associative(AllTools(a), AllTools(b[..n]), ChoiceTools(b[n].deltas));
    }
  }

  lemma Associative(x: seq<ToolDelta>, y: seq<ToolDelta>, z: seq<ToolDelta>)
    ensures (x + y) + z == x + (y + z)
  {
  }

  lemma {:induction false} ChoiceToolsAppend(a: seq<ChoiceDelta>, b: seq<ChoiceDelta>)
    ensures ChoiceTools(a + b) == ChoiceTools(a) + ChoiceTools(b)
    decreases |b|
  {
    if b == [] {
      assert a + b == a;
    } else {
      assert (a + b)[..|a + b| - 1] == a + b[..|b| - 1];
      ChoiceToolsAppend(a, b[..|b| - 1]);
    }
  }

  /** value is what the last of the given texts that says something says, or "". */
  ghost predicate LastSaid(texts: seq<string>, value: string) {
    if value == "" then forall i | 0 <= i < |texts| :: texts[i] == ""
    else exists i :: 0 <= i < |texts| && texts[i] == value && forall j | i < j < |texts| :: texts[j] == ""
  }

  function ChunkIds(chunks: seq<Chunk>): seq<string> { seq(|chunks|, i requires 0 <= i < |chunks| => chunks[i].id) }

  function ChunkModels(chunks: seq<Chunk>): seq<string> { seq(|chunks|, i requires 0 <= i < |chunks| => chunks[i].model) }

  lemma LastSaidOneMore(texts: seq<string>, value: string, x: string)
    requires LastSaid(texts, value)
    ensures LastSaid(texts + [x], NonEmptyOr(x, value))
  {
    var all := texts + [x];
    if x != "" {
      assert all[|texts|] == x;
    } else if value != "" {
      var i :| 0 <= i < |texts| && texts[i] == value && forall j | i < j < |texts| :: texts[j] == "";
      assert all[i] == value;
    }
  }

  lemma {:induction false} IdAndModelSaidLast(chunks: seq<Chunk>)
    ensures LastSaid(ChunkIds(chunks), LastId(chunks)) && LastSaid(ChunkModels(chunks), LastModel(chunks))
    decreases |chunks|
  {
    if chunks != [] {
      var n := |chunks| - 1;
      IdAndModelSaidLast(chunks[..n]);
      LastSaidOneMore(ChunkIds(chunks[..n]), LastId(chunks[..n]), chunks[n].id);
      LastSaidOneMore(ChunkModels(chunks[..n]), LastModel(chunks[..n]), chunks[n].model);
      assert ChunkIds(chunks) == ChunkIds(chunks[..n]) + [chunks[n].id];
      assert ChunkModels(chunks) == ChunkModels(chunks[..n]) + [chunks[n].model];
    }
  }

  /** The stream fails with the error of the first chunk that has one. */
  lemma {:induction false} FirstErrorIs(chunks: seq<Chunk>)
    ensures FirstError(chunks).None? <==> forall i | 0 <= i < |chunks| :: chunks[i].error.None?
    ensures FirstError(chunks).Some? ==> exists i :: 0 <= i < |chunks| && chunks[i].error == FirstError(chunks) && forall j | 0 <= j < i :: chunks[j].error.None?
    decreases |chunks|
  {
    if chunks != [] {
      var n := |chunks| - 1;
      FirstErrorIs(chunks[..n]);
      if FirstError(chunks[..n]).Some? {
        var i :| 0 <= i < n && chunks[..n][i].error == FirstError(chunks[..n]) && forall j | 0 <= j < i :: chunks[..n][j].error.None?;
        assert chunks[i].error == FirstError(chunks);
        assert forall j | 0 <= j < i :: chunks[j] == chunks[..n][j];
      } else {
        assert forall j | 0 <= j < n :: chunks[j] == chunks[..n][j];
      }
    }
  }

  /** The parsed payload: id, model and content of the stream, or its first error, or nothing to show. */
  lemma ParsedPayload(chunks: seq<Chunk>)
    ensures match ParseStream(chunks)
      case Ok(p) =>
        && FirstError(chunks).None? && |p.choices| == 1 && p.choices[0].Choice? && p.choices[0].message.Some?
        && p.choices[0].message.value.content == Plain(AllContent(chunks))
        && p.id == (if LastId(chunks) == "" then "chatcmpl-stream" else LastId(chunks))
        && p.model == (if LastModel(chunks) == "" then "chat-stream" else LastModel(chunks))
      case Err(f) =>
        if FirstError(chunks).Some?
        then f == ProviderError(if FirstError(chunks).value == "" then "provider returned error payload" else FirstError(chunks).value)
        else f == EmptyStream && AllContent(chunks) == ""
  {
  }

  // Items of a whole message -------------------------------------------------------------------

  predicate IsNamed(c: Call) {
    c.Call? && c.function_.Some? && c.function_.value.name != ""
  }

  /** The item of the named call at a position counted from one. */
  ghost predicate ItemOf(c: Call, position: nat, item: Item) {
    && IsNamed(c) && item.FunctionCall? && item.name == c.function_.value.name
    && (c.id != "" ==> item.id == c.id) && (c.id == "" ==> item.id == "chat_tool_call_" + Itoa(position))
    && (c.function_.value.arguments.Missing? ==> item.arguments == Text("{}"))
    && (!c.function_.value.arguments.Missing? ==> item.arguments == c.function_.value.arguments)
  }

  /** One item for each named call, in the order of the calls. */
  ghost predicate ItemsOf(calls: seq<Call>, items: seq<Item>, at: seq<nat>) {
    && |at| == |items| && (forall j, k | 0 <= j < k < |at| :: at[j] < at[k])
    && (forall k | 0 <= k < |at| :: at[k] < |calls| && ItemOf(calls[at[k]], at[k] + 1, items[k]))
    && (forall i | 0 <= i < |calls| && IsNamed(calls[i]) :: i in at)
  }

  lemma CallItemsOneMore(calls: seq<Call>, items: seq<Item>, at: seq<nat>, c: Call)
    requires ItemsOf(calls, items, at)
    ensures if IsNamed(c) then |NormalizeCall(c, |calls| + 1)| == 1 && ItemsOf(calls + [c], items + NormalizeCall(c, |calls| + 1), at + [|calls|])
            else NormalizeCall(c, |calls| + 1) == [] && ItemsOf(calls + [c], items, at)
  {
    var all := calls + [c];
    assert all[|calls|] == c;
    assert forall i | 0 <= i < |calls| :: all[i] == calls[i];
    if IsNamed(c) {
      var at' := at + [|calls|];
      assert at'[|at|] == |calls|;
      forall i | 0 <= i < |all| && IsNamed(all[i]) ensures i in at' {
        if i < |calls| { assert i in at; }
      }
    }
  }

  lemma {:induction false} CallItems(calls: seq<Call>) returns (at: seq<nat>)
    ensures ItemsOf(calls, NormalizeToolCalls(calls), at)
    decreases |calls|
  {
    at := [];
    if calls != [] {
      var n := |calls| - 1;
      at := CallItems(calls[..n]);
      CallItemsOneMore(calls[..n], NormalizeToolCalls(calls[..n]), at, calls[n]);
      assert calls == calls[..n] + [calls[n]];
      assert NormalizeToolCalls(calls[..n]) + [] == NormalizeToolCalls(calls[..n]);
      if IsNamed(calls[n]) {
        at := at + [n];
      }
    }
  }

  /** The text of a message: nothing, the text itself, or its text parts joined. */
  ghost predicate Says(c: Content, text: string) {
    match c
    case NoContent => text == ""
    case Plain(t) => text == t
    case Parts(parts) => text == JoinText(parts)
  }

  lemma {:induction false} JoinAppends(a: seq<Part>, b: seq<Part>)
    ensures JoinText(a + b) == JoinText(a) + JoinText(b)
    decreases |b|
  {
    if b == [] {
      assert a + b == a;
    } else {
      assert (a + b)[..|a + b| - 1] == a + b[..|b| - 1];
      JoinAppends(a, b[..|b| - 1]);
    }
  }

  lemma JoinOfOne(p: Part)
    ensures JoinText([p]) == if p.kind == "text" || p.kind == "output_text" then p.text else ""
  {
    assert [p][..0] == [];
    assert JoinText([]) == "";
  }

  /** The item of the message text: there if the text says something, without the space around it. */
  ghost predicate TextItem(text: string, head: seq<Item>) {
    if AllSpace(text) then head == []
    else |head| == 1 && head[0].MessageItem? && head[0].text != "" && TrimmedTo(text, head[0].text)
  }

  /** A whole message normalises to its text and its named calls. */
  lemma MessageNormalizes(m: Message, id: string, model: string, rest: seq<Choice>, text: string) returns (head: seq<Item>, at: seq<nat>)
    requires Says(m.content, text)
    ensures Normalize(Payload(id, model, [Choice(Some(m))] + rest)) == Ok(head + NormalizeToolCalls(m.toolCalls))
    ensures TextItem(text, head) && ItemsOf(m.toolCalls, NormalizeToolCalls(m.toolCalls), at)
  {
    TrimExact(text);
    assert Trim("") == "";
    head := if Trim(text) != "" then [MessageItem(Trim(text))] else [];
    at := CallItems(m.toolCalls);
    assert MessageItems(m) == head + NormalizeToolCalls(m.toolCalls);
  }

  // Items of a stream --------------------------------------------------------------------------

  /** The item of a call that was streamed under an index. */
  ghost predicate StreamedAs(call: FullCall, index: int, item: Item) {
    && item.FunctionCall? && item.name != "" && TrimmedTo(call.name, item.name)
    && (if AllSpace(call.id) then item.id == "call-" + Itoa(index + 1) else item.id != "" && TrimmedTo(call.id, item.id))
    && item.arguments == Text(if call.arguments.None? || AllSpace(call.arguments.value) then "{}" else call.arguments.value)
  }

  /** One item for each call whose name is not blank, in the order of the indices. */
  ghost predicate StreamedItemsAre(calls: seq<FullCall>, indices: seq<int>, items: seq<Item>, at: seq<nat>)
    requires |indices| == |calls|
  {
    && |at| == |items| && (forall j, k | 0 <= j < k < |at| :: at[j] < at[k])
    && (forall k | 0 <= k < |at| :: at[k] < |calls| && StreamedAs(calls[at[k]], indices[at[k]], items[k]))
    && (forall i | 0 <= i < |calls| && !AllSpace(calls[i].name) :: i in at)
    && (forall k | 0 <= k < |at| :: at[k] < |calls| && !AllSpace(calls[at[k]].name))
  }

  lemma OneStreamedItem(call: FullCall, index: int)
    ensures AllSpace(call.name) ==> StreamedItem(call, index) == []
    ensures !AllSpace(call.name) ==> |StreamedItem(call, index)| == 1 && StreamedAs(call, index, StreamedItem(call, index)[0])
  {
    TrimExact(call.name);
    TrimExact(call.id);
    if call.arguments.Some? { TrimExact(call.arguments.value); }
    TrimOfEmpty();
    assert ("call-" + Itoa(index + 1))[0] == 'c';
  }

  lemma StreamedOneMore(calls: seq<FullCall>, indices: seq<int>, items: seq<Item>, at: seq<nat>, call: FullCall, index: int, item: Item)
    requires |indices| == |calls| && StreamedItemsAre(calls, indices, items, at) && !AllSpace(call.name) && StreamedAs(call, index, item)
    ensures StreamedItemsAre(calls + [call], indices + [index], items + [item], at + [|calls|])
  {
    var all, at' := calls + [call], at + [|calls|];
    assert at'[|at|] == |calls|;
    forall i | 0 <= i < |all| && !AllSpace(all[i].name) ensures i in at' {
      if i < |calls| { assert i in at; }
    }
  }

  lemma BlankOneMore(calls: seq<FullCall>, indices: seq<int>, items: seq<Item>, at: seq<nat>, call: FullCall, index: int)
    requires |indices| == |calls| && StreamedItemsAre(calls, indices, items, at) && AllSpace(call.name)
    ensures StreamedItemsAre(calls + [call], indices + [index], items, at)
  {
    var all := calls + [call];
    forall i | 0 <= i < |all| && !AllSpace(all[i].name) ensures i in at {
      assert i < |calls|;
    }
  }

  lemma StreamedStep(calls: seq<FullCall>, indices: seq<int>, items: seq<Item>, at: seq<nat>, call: FullCall, index: int)
    returns (at': seq<nat>)
    requires |indices| == |calls| && StreamedItemsAre(calls, indices, items, at)
    ensures StreamedItemsAre(calls + [call], indices + [index], items + StreamedItem(call, index), at')
  {
    OneStreamedItem(call, index);
    var one := StreamedItem(call, index);
    if AllSpace(call.name) {
      BlankOneMore(calls, indices, items, at, call, index);
      assert items + one == items;
      at' := at;
    } else {
      assert one == [one[0]];
      StreamedOneMore(calls, indices, items, at, call, index, one[0]);
      at' := at + [|calls|];
    }
  }

  /** The step, with the longer lists under their own names. */
  lemma StreamedLast(calls: seq<FullCall>, indices: seq<int>, items: seq<Item>, at: seq<nat>, call: FullCall, index: int,
                     calls': seq<FullCall>, indices': seq<int>) returns (at': seq<nat>)
    requires |indices| == |calls| && StreamedItemsAre(calls, indices, items, at)
    requires calls' == calls + [call] && indices' == indices + [index]
    ensures StreamedItemsAre(calls', indices', items + StreamedItem(call, index), at')
  {
    at' := StreamedStep(calls, indices, items, at, call, index);
  }

  lemma SplitLast<T>(s: seq<T>)
    requires s != []
    ensures s == s[..|s| - 1] + [s[|s| - 1]]
  {
  }

  lemma {:induction false} StreamedItemList(calls: seq<FullCall>, indices: seq<int>) returns (at: seq<nat>)
    requires |indices| == |calls|
    ensures StreamedItemsAre(calls, indices, StreamedItems(calls, indices), at)
    decreases |calls|
  {
    if calls == [] {
      at := [];
    } else {
      var n := |calls| - 1;
      at := StreamedItemList(calls[..n], indices[..n]);
      SplitLast(calls);
      SplitLast(indices);
      at := StreamedLast(calls[..n], indices[..n], StreamedItems(calls[..n], indices[..n]), at, calls[n], indices[n], calls, indices);
    }
  }

  /** A stream of calls normalises to its joined content and its calls with a name, each as it was spelled. */
  lemma StreamNormalizes(chunks: seq<Chunk>, indices: seq<int>, calls: seq<FullCall>) returns (head: seq<Item>, tail: seq<Item>, at: seq<nat>)
    requires FirstError(chunks).None? && Streams(AllTools(chunks), indices, calls)
    requires AllContent(chunks) != "" || SomeNamed(calls)
    ensures ParseStream(chunks).Ok? && Normalize(ParseStream(chunks).value) == Ok(head + tail)
    ensures TextItem(AllContent(chunks), head) && StreamedItemsAre(calls, indices, tail, at)
  {
    ParsesExactly(chunks, indices, calls);
    var built := BuildToolCalls(MergeAll(map[], AllTools(chunks)));
    var whole;
    head, whole := MessageNormalizes(Message(Plain(AllContent(chunks)), built), ParseStream(chunks).value.id, ParseStream(chunks).value.model, [], AllContent(chunks));
    StreamedToolItems(AllTools(chunks), indices, calls);
    tail := StreamedItems(calls, indices);
    at := StreamedItemList(calls, indices);
    assert ParseStream(chunks).value.choices == [Choice(Some(Message(Plain(AllContent(chunks)), built)))] + [];
  }

  /** A clean call comes out of a stream exactly as it was spelled. */
  lemma CleanIsKept(call: FullCall, index: int)
    requires Clean(call) && call.name != ""
    ensures StreamedItem(call, index) ==
      [FunctionCall(call.id, call.name, Text(if call.arguments.Some? then call.arguments.value else "{}"))]
  {
    TrimOfEmpty();
    CallAgrees(call, index, 1);
  }
}
