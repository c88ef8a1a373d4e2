/**
  internal/poolgateway/providers.go after JSON decoding: putting the tool calls of a streamed
  chat completion together, and normalising a completion, streamed or not, into output items.
  A value of the wrong JSON type reads as absent, and an absent string reads as "".
 */
module ToolStream {
  import opened Prelude
  import opened Sorting

  // Text -----------------------------------------------------------------------------------

  /** unicode.IsSpace */
  predicate IsSpace(c: char) {
    var n := c as int;
    || 9 <= n <= 13 || n == 32 || n == 0x85 || n == 0xA0 || n == 0x1680 || 0x2000 <= n <= 0x200A
    || n == 0x2028 || n == 0x2029 || n == 0x202F || n == 0x205F || n == 0x3000
  }

  function TrimLeft(s: string): string {
    if s != "" && IsSpace(s[0]) then TrimLeft(s[1..]) else s
  }

  function TrimRight(s: string): string {
    if s != "" && IsSpace(s[|s| - 1]) then TrimRight(s[..|s| - 1]) else s
  }

  /** strings.TrimSpace */
  function Trim(s: string): string {
    TrimRight(TrimLeft(s))
  }

  function Digits(n: nat): string {
    if n < 10 then [('0' as int + n) as char] else Digits(n / 10) + [('0' as int + n % 10) as char]
  }

  /** strconv.Itoa */
  function Itoa(n: int): string {
    if n < 0 then "-" + Digits(-n) else Digits(n)
  }

  // Chunks ---------------------------------------------------------------------------------

  datatype FunctionDelta = FunctionDelta(name: string, arguments: string)

  datatype ToolDelta = ToolDelta(index: Option<int>, id: string, function_: Option<FunctionDelta>)

  datatype ChoiceDelta = ChoiceDelta(content: string, toolCalls: seq<ToolDelta>)

  datatype Chunk = Chunk(error: Option<string>, id: string, model: string, deltas: seq<ChoiceDelta>)

  datatype Accumulator = Accumulator(id: string, name: string, arguments: string)

  const FRESH_CALL := Accumulator("", "", "")

  /** A delta without an index gets the first free one from the number of calls on. */
  function FirstFree(calls: map<int, Accumulator>, index: int): (r: int)
    ensures index <= r && r !in calls && forall k | index <= k < r :: k in calls
    decreases set k | k in calls && index <= k
  {
    if index !in calls then index
    else
      assert (set k | k in calls && index + 1 <= k) == (set k | k in calls && index <= k) - {index};
      FirstFree(calls, index + 1)
  }

  function Place(calls: map<int, Accumulator>, d: ToolDelta): int {
    if d.index.Some? then d.index.value else FirstFree(calls, |calls|)
  }

  function NonEmptyOr(s: string, old_: string): string {
    if s != "" then s else old_
  }

  function Absorb(a: Accumulator, d: ToolDelta): Accumulator {
    var identified := a.(id := NonEmptyOr(d.id, a.id));
    if d.function_.None? then identified
    else identified.(name := NonEmptyOr(d.function_.value.name, a.name), arguments := a.arguments + d.function_.value.arguments)
  }

  function MergeOne(calls: map<int, Accumulator>, d: ToolDelta): map<int, Accumulator> {
    var at := Place(calls, d);
    calls[at := Absorb(if at in calls then calls[at] else FRESH_CALL, d)]
  }

  function MergeAll(calls: map<int, Accumulator>, deltas: seq<ToolDelta>): map<int, Accumulator> {
    if deltas == [] then calls else MergeOne(MergeAll(calls, deltas[..|deltas| - 1]), deltas[|deltas| - 1])
  }

  // Messages -------------------------------------------------------------------------------

  datatype Arguments = Missing | Text(text: string) | Other(json: string)

  datatype Function = Function(name: string, arguments: Arguments)

  datatype Call = NotAnObject | Call(id: string, function_: Option<Function>)

  datatype Part = Part(kind: string, text: string)

  datatype Content = NoContent | Plain(text: string) | Parts(parts: seq<Part>)

  datatype Message = Message(content: Content, toolCalls: seq<Call>)

  datatype Choice = Malformed | Choice(message: Option<Message>)

  datatype Payload = Payload(id: string, model: string, choices: seq<Choice>)

  datatype Item = MessageItem(text: string) | FunctionCall(id: string, name: string, arguments: Arguments)

  /** The streamed call at an index; a call without a name is left out. */
  function BuildCall(a: Accumulator, index: int): seq<Call> {
    if Trim(a.name) == "" then []
    else
      [Call(if Trim(a.id) == "" then "call-" + Itoa(index + 1) else Trim(a.id),
            Some(Function(Trim(a.name), Text(if Trim(a.arguments) == "" then "{}" else a.arguments))))]
  }

  function BuildCalls(calls: map<int, Accumulator>, order: seq<int>): seq<Call>
    requires forall i | i in order :: i in calls
  {
    if order == [] then []
    else
      var last := order[|order| - 1];
      BuildCalls(calls, order[..|order| - 1]) + BuildCall(calls[last], last)
  }

  predicate Less(a: int, b: int) { a < b }

  /** sort.Ints over the keys */
  ghost function KeysInOrder(calls: map<int, Accumulator>): (r: seq<int>)
    ensures forall i :: i in r <==> i in calls
  {
    MembersAgree(SortBy(Less, ListOf(calls.Keys)), ListOf(calls.Keys));
    SortBy(Less, ListOf(calls.Keys))
  }

  ghost function BuildToolCalls(calls: map<int, Accumulator>): seq<Call> {
    BuildCalls(calls, KeysInOrder(calls))
  }

  function NormalizeCall(c: Call, position: nat): seq<Item> {
    if c.NotAnObject? || c.function_.None? || c.function_.value.name == "" then []
    else
      var f := c.function_.value;
      [FunctionCall(if c.id == "" then "chat_tool_call_" + Itoa(position) else c.id, f.name,
                    if f.arguments.Missing? then Text("{}") else f.arguments)]
  }

  function NormalizeToolCalls(calls: seq<Call>): seq<Item> {
    if calls == [] then []
    else NormalizeToolCalls(calls[..|calls| - 1]) + NormalizeCall(calls[|calls| - 1], |calls|)
  }

  function JoinText(parts: seq<Part>): string {
    if parts == [] then ""
    else
      var last := parts[|parts| - 1];
      JoinText(parts[..|parts| - 1]) + if last.kind == "text" || last.kind == "output_text" then last.text else ""
  }

  function MessageContent(c: Content): string {
    match c
    case NoContent => ""
    case Plain(text) => Trim(text)
    case Parts(parts) => Trim(JoinText(parts))
  }

  function MessageItems(m: Message): seq<Item> {
    (if MessageContent(m.content) != "" then [MessageItem(MessageContent(m.content))] else []) + NormalizeToolCalls(m.toolCalls)
  }

  datatype Failure = ChoicesRequired | ChoiceInvalid | MessageRequired | ProviderError(message: string) | EmptyStream

  /** The output items of a completion. */
  function Normalize(p: Payload): Result<seq<Item>, Failure> {
    if p.choices == [] then Err(ChoicesRequired)
    else if p.choices[0].Malformed? then Err(ChoiceInvalid)
    else if p.choices[0].message.None? then Err(MessageRequired)
    else Ok(MessageItems(p.choices[0].message.value))
  }

  // A whole stream -------------------------------------------------------------------------

  function ChoiceTools(deltas: seq<ChoiceDelta>): seq<ToolDelta> {
    if deltas == [] then [] else ChoiceTools(deltas[..|deltas| - 1]) + deltas[|deltas| - 1].toolCalls
  }

  function ChoiceContent(deltas: seq<ChoiceDelta>): string {
    if deltas == [] then "" else ChoiceContent(deltas[..|deltas| - 1]) + deltas[|deltas| - 1].content
  }

  function AllTools(chunks: seq<Chunk>): seq<ToolDelta> {
    if chunks == [] then [] else AllTools(chunks[..|chunks| - 1]) + ChoiceTools(chunks[|chunks| - 1].deltas)
  }

  function AllContent(chunks: seq<Chunk>): string {
    if chunks == [] then "" else AllContent(chunks[..|chunks| - 1]) + ChoiceContent(chunks[|chunks| - 1].deltas)
  }

  function LastId(chunks: seq<Chunk>): string {
    if chunks == [] then "" else NonEmptyOr(chunks[|chunks| - 1].id, LastId(chunks[..|chunks| - 1]))
  }

  function LastModel(chunks: seq<Chunk>): string {
    if chunks == [] then "" else NonEmptyOr(chunks[|chunks| - 1].model, LastModel(chunks[..|chunks| - 1]))
  }

  function FirstError(chunks: seq<Chunk>): Option<string> {
    if chunks == [] then None
    else
      var earlier := FirstError(chunks[..|chunks| - 1]);
      if earlier.Some? then earlier else chunks[|chunks| - 1].error
  }

  function StreamedPayload(chunks: seq<Chunk>, content: string, calls: seq<Call>): Payload {
    Payload(NonEmptyOr(LastId(chunks), "chatcmpl-stream"), NonEmptyOr(LastModel(chunks), "chat-stream"),
            [Choice(Some(Message(Plain(content), calls)))])
  }

  const ERROR_PAYLOAD := "provider returned error payload"

  ghost function ParseStream(chunks: seq<Chunk>): Result<Payload, Failure> {
    var content, calls := AllContent(chunks), BuildToolCalls(MergeAll(map[], AllTools(chunks)));
    if FirstError(chunks).Some? then Err(ProviderError(NonEmptyOr(FirstError(chunks).value, ERROR_PAYLOAD)))
    else if content == "" && calls == [] then Err(EmptyStream)
    else Ok(StreamedPayload(chunks, content, calls))
  }

  // The loops of the source ----------------------------------------------------------------

  lemma {:induction false} MergeAppends(calls: map<int, Accumulator>, a: seq<ToolDelta>, b: seq<ToolDelta>)
    ensures MergeAll(calls, a + b) == MergeAll(MergeAll(calls, a), b)
    decreases |b|
  {
    if b == [] {
      assert a + b == a;
    } else {
      assert (a + b)[..|a + b| - 1] == a + b[..|b| - 1];
      MergeAppends(calls, a, b[..|b| - 1]);
    }
  }

  method FreeIndex(calls: map<int, Accumulator>) returns (index: int)
    ensures index == FirstFree(calls, |calls|)
  {
    index := |calls|;
    while index in calls
      invariant FirstFree(calls, |calls|) == FirstFree(calls, index)
      decreases set k | k in calls && index <= k
    {
      assert (set k | k in calls && index + 1 <= k) == (set k | k in calls && index <= k) - {index};
      index := index + 1;
    }
  }

  /** The assignments to one accumulator. */
  method AbsorbDelta(before: Accumulator, d: ToolDelta) returns (a: Accumulator)
    ensures a == Absorb(before, d)
  {
    a := before;
    if d.id != "" {
      a := a.(id := d.id);
    }
    if d.function_.Some? {
      if d.function_.value.name != "" {
        a := a.(name := d.function_.value.name);
      }
      assert a.arguments + "" == a.arguments;
      if d.function_.value.arguments != "" {
        a := a.(arguments := a.arguments + d.function_.value.arguments);
      }
    }
  }

  /** mergeChatStreamToolCalls */
  method MergeToolCalls(before: map<int, Accumulator>, deltas: seq<ToolDelta>) returns (calls: map<int, Accumulator>)
    ensures calls == MergeAll(before, deltas)
  {
    calls := before;
    for i := 0 to |deltas|
      invariant calls == MergeAll(before, deltas[..i])
    {
      assert deltas[..i + 1][..i] == deltas[..i];
      var d := deltas[i];
      var at;
      if d.index.Some? {
        at := d.index.value;
      } else {
        at := FreeIndex(calls);
      }
      var a := AbsorbDelta(if at in calls then calls[at] else FRESH_CALL, d);
      calls := calls[at := a];
    }
    assert deltas[..|deltas|] == deltas;
  }

  lemma LessIsStrictOrder()
    ensures StrictOrder(Less)
  {
  }

  lemma AnyListingSorts(calls: map<int, Accumulator>, listed: seq<int>)
    requires multiset(listed) == multiset(calls.Keys)
    ensures SortBy(Less, listed) == KeysInOrder(calls)
  {
    LessIsStrictOrder();
    SortPermutation(Less, ListOf(calls.Keys), listed);
  }

  method ListIndices(calls: map<int, Accumulator>) returns (listed: seq<int>)
    ensures multiset(listed) == multiset(calls.Keys)
  {
    listed := [];
    var left := calls.Keys;
    while left != {}
      invariant left <= calls.Keys && multiset(listed) == multiset(calls.Keys - left)
      decreases left
    {
      var next := PickOne(left);
      assert calls.Keys - (left - {next}) == (calls.Keys - left) + {next};
      listed, left := listed + [next], left - {next};
    }
    assert calls.Keys - left == calls.Keys;
  }

  /** buildChatStreamToolCalls */
  method BuildStreamCalls(calls: map<int, Accumulator>) returns (built: seq<Call>)
    ensures built == BuildToolCalls(calls)
  {
    var listed := ListIndices(calls);
    AnyListingSorts(calls, listed);
    built := BuildInOrder(calls, SortBy(Less, listed));
  }

  /** The call of one accumulator, if it has a name. */
  method BuildOne(a: Accumulator, index: int) returns (built: seq<Call>)
    ensures built == BuildCall(a, index)
  {
    var name := Trim(a.name);
    if name == "" {
      return [];
    }
    var id := Trim(a.id);
    if id == "" {
      id := "call-" + Itoa(index + 1);
    }
    var arguments := a.arguments;
    if Trim(arguments) == "" {
      arguments := "{}";
    }
    return [Call(id, Some(Function(name, Text(arguments))))];
  }

  method BuildInOrder(calls: map<int, Accumulator>, order: seq<int>) returns (built: seq<Call>)
    requires forall i | i in order :: i in calls
    ensures built == BuildCalls(calls, order)
  {
    built := [];
    for i := 0 to |order|
      invariant built == BuildCalls(calls, order[..i])
    {
      assert order[..i + 1][..i] == order[..i];
      var index := order[i];
      var one := BuildOne(calls[index], index);
      built := built + one;
    }
    assert order[..|order|] == order;
  }

  /** normalizeChatToolCalls */
  method NormalizeCallList(calls: seq<Call>) returns (items: seq<Item>)
    ensures items == NormalizeToolCalls(calls)
  {
    items := [];
    for i := 0 to |calls|
      invariant items == NormalizeToolCalls(calls[..i])
    {
      assert calls[..i + 1][..i] == calls[..i];
      if calls[i].NotAnObject? || calls[i].function_.None? {
        continue;
      }
      var f := calls[i].function_.value;
      if f.name == "" {
        continue;
      }
      var id := calls[i].id;
      if id == "" {
        id := "chat_tool_call_" + Itoa(i + 1);
      }
      var arguments := f.arguments;
      if arguments.Missing? {
        arguments := Text("{}");
      }
      items := items + [FunctionCall(id, f.name, arguments)];
    }
    assert calls[..|calls|] == calls;
  }

  /** The deltas of one chunk. */
  method MergeChunk(deltas: seq<ChoiceDelta>, before: map<int, Accumulator>, text: string)
    returns (calls: map<int, Accumulator>, content: string)
    ensures calls == MergeAll(before, ChoiceTools(deltas)) && content == text + ChoiceContent(deltas)
  {
    calls, content := before, text;
    for i := 0 to |deltas|
      invariant calls == MergeAll(before, ChoiceTools(deltas[..i])) && content == text + ChoiceContent(deltas[..i])
    {
      assert deltas[..i + 1][..i] == deltas[..i];
      MergeAppends(before, ChoiceTools(deltas[..i]), deltas[i].toolCalls);
      content := content + deltas[i].content;
      calls := MergeToolCalls(calls, deltas[i].toolCalls);
    }
    assert deltas[..|deltas|] == deltas;
  }

  /** What the frames up to some point left in the parser's variables. */
  datatype Parsed = Parsed(id: string, model: string, content: string, calls: map<int, Accumulator>)

  ghost predicate ParsedFrom(p: Parsed, chunks: seq<Chunk>) {
    && FirstError(chunks).None? && p.id == LastId(chunks) && p.model == LastModel(chunks)
    && p.content == AllContent(chunks) && p.calls == MergeAll(map[], AllTools(chunks))
  }

  method ParseChunk(chunk: Chunk, p: Parsed, ghost before: seq<Chunk>) returns (r: Parsed)
    requires ParsedFrom(p, before) && chunk.error.None?
    ensures ParsedFrom(r, before + [chunk])
  {
    assert (before + [chunk])[..|before|] == before;
    MergeAppends(map[], AllTools(before), ChoiceTools(chunk.deltas));
    var calls, content := MergeChunk(chunk.deltas, p.calls, p.content);
    r := Parsed(NonEmptyOr(chunk.id, p.id), NonEmptyOr(chunk.model, p.model), content, calls);
  }

  /** parseChatCompletionsPayloadFromHTTPStream, from the decoded frames on. */
  method ParseChunks(chunks: seq<Chunk>) returns (r: Result<Payload, Failure>)
    ensures r == ParseStream(chunks)
  {
    var p := Parsed("", "", "", map[]);
    for i := 0 to |chunks|
      invariant ParsedFrom(p, chunks[..i])
    {
      assert chunks[..i + 1] == chunks[..i] + [chunks[i]];
      if chunks[i].error.Some? {
        assert chunks[..i + 1][..i] == chunks[..i];
        ErrorStays(chunks, i + 1);
        return Err(ProviderError(NonEmptyOr(chunks[i].error.value, ERROR_PAYLOAD)));
      }
      p := ParseChunk(chunks[i], p, chunks[..i]);
    }
    assert chunks[..|chunks|] == chunks;
    r := Assemble(p, chunks);
  }

  method Assemble(p: Parsed, chunks: seq<Chunk>) returns (r: Result<Payload, Failure>)
    requires ParsedFrom(p, chunks)
    ensures r == ParseStream(chunks)
  {
    var built := BuildStreamCalls(p.calls);
    if |chunks| == 0 || (p.content == "" && |built| == 0) {
      return Err(EmptyStream);
    }
    return Ok(Payload(NonEmptyOr(p.id, "chatcmpl-stream"), NonEmptyOr(p.model, "chat-stream"), [Choice(Some(Message(Plain(p.content), built)))]));
  }

  /** The first error ends the stream. */
  lemma {:induction false} ErrorStays(chunks: seq<Chunk>, i: nat)
    requires i <= |chunks| && FirstError(chunks[..i]).Some?
    ensures FirstError(chunks) == FirstError(chunks[..i])
    decreases |chunks|
  {
    if i == |chunks| {
      assert chunks[..i] == chunks;
    } else {
      assert chunks[..|chunks| - 1][..i] == chunks[..i];
      ErrorStays(chunks[..|chunks| - 1], i);
    }
  }
}
