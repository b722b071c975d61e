/**
 Accumulating a Chat Completions stream, internal/anthropic/openai.go
 (consumeOpenAIStream, openAIChoiceToMessage): what the final message is in terms of the
 chunks read, and the loops that compute it piece by piece.
 */
module ChatStream {
  import opened Strings
  import opened Wire
  import opened Wrappers

  /** One fragment of a streamed tool call. */
  datatype Fragment = Fragment(index: Option<int>, id: string, name: string, arguments: string)

  datatype Finish = ToolsFinish | LengthFinish | FilterFinish | StopFinish | OtherFinish(name: string)

  /** The first choice of a chunk; finish None is the empty text. */
  datatype Choice = Choice(
    finish: Option<Finish>, text: string,
    reasoningContent: string, reasoning: string, thinking: string,
    calls: seq<Fragment>)

  /** error None: none was given, or its message is blank. */
  datatype Chunk = Chunk(error: Option<string>, model: string, usage: Option<WireUsage>, choice: Option<Choice>)

  /** A data line: the end mark, something that does not decode, or a chunk. */
  datatype Line = DoneLine | BadLine | ChunkLine(chunk: Chunk)

  datatype Call = Call(id: string, name: string, arguments: string)

  predicate Ended(lines: seq<Line>) { DoneLine in lines }

  /** The chunks before the end mark. */
  function Chunks(lines: seq<Line>): seq<Chunk> {
    if lines == [] then []
    else
      var before, last := lines[..|lines| - 1], lines[|lines| - 1];
      if Ended(before) || !last.ChunkLine? then Chunks(before) else Chunks(before) + [last.chunk]
  }

  function FirstError(chunks: seq<Chunk>): Option<string> {
    if chunks == [] then None
    else
      var before, last := FirstError(chunks[..|chunks| - 1]), chunks[|chunks| - 1];
      if before.Some? then before else last.error
  }

  function ThinkingOf(c: Choice): string {
    if c.reasoningContent != "" then c.reasoningContent
    else if c.reasoning != "" then c.reasoning
    else c.thinking
  }

  function TextIn(c: Chunk): string { if c.choice.Some? then c.choice.value.text else "" }

  function ThinkingIn(c: Chunk): string { if c.choice.Some? then ThinkingOf(c.choice.value) else "" }

  function CallsIn(c: Chunk): seq<Fragment> { if c.choice.Some? then c.choice.value.calls else [] }

  function AllText(chunks: seq<Chunk>): string {
    if chunks == [] then "" else AllText(chunks[..|chunks| - 1]) + TextIn(chunks[|chunks| - 1])
  }

  function AllThinking(chunks: seq<Chunk>): string {
    if chunks == [] then "" else AllThinking(chunks[..|chunks| - 1]) + ThinkingIn(chunks[|chunks| - 1])
  }

  function Fragments(chunks: seq<Chunk>): seq<Fragment> {
    if chunks == [] then [] else Fragments(chunks[..|chunks| - 1]) + CallsIn(chunks[|chunks| - 1])
  }

  function LastModel(chunks: seq<Chunk>): string {
    if chunks == [] then ""
    else if chunks[|chunks| - 1].model != "" then chunks[|chunks| - 1].model
    else LastModel(chunks[..|chunks| - 1])
  }

  function LastFinish(chunks: seq<Chunk>): Option<Finish> {
    if chunks == [] then None
    else
      var last := chunks[|chunks| - 1];
      if last.choice.Some? && last.choice.value.finish.Some? then last.choice.value.finish
      else LastFinish(chunks[..|chunks| - 1])
  }

  function LastUsage(chunks: seq<Chunk>): Option<WireUsage> {
    if chunks == [] then None
    else if chunks[|chunks| - 1].usage.Some? then chunks[|chunks| - 1].usage
    else LastUsage(chunks[..|chunks| - 1])
  }

  function IndexOf(f: Fragment): int { if f.index.Some? then f.index.value else 0 }

  /** The tool indices in the order of their first fragments. */
  function Order(fragments: seq<Fragment>): seq<int> {
    if fragments == [] then []
    else
      var before, k := Order(fragments[..|fragments| - 1]), IndexOf(fragments[|fragments| - 1]);
      if k in before then before else before + [k]
  }

  /** The fragments of one tool index. */
  function Of(fragments: seq<Fragment>, k: int): seq<Fragment> {
    if fragments == [] then []
    else
      var last := fragments[|fragments| - 1];
      Of(fragments[..|fragments| - 1], k) + (if IndexOf(last) == k then [last] else [])
  }

  function LastId(fragments: seq<Fragment>): string {
    if fragments == [] then ""
    else if fragments[|fragments| - 1].id != "" then fragments[|fragments| - 1].id
    else LastId(fragments[..|fragments| - 1])
  }

  function LastName(fragments: seq<Fragment>): string {
    if fragments == [] then ""
    else if fragments[|fragments| - 1].name != "" then fragments[|fragments| - 1].name
    else LastName(fragments[..|fragments| - 1])
  }

  function AllArguments(fragments: seq<Fragment>): string {
    if fragments == [] then "" else AllArguments(fragments[..|fragments| - 1]) + fragments[|fragments| - 1].arguments
  }

  /** What the fragments of one index add up to. */
  function CallOf(own: seq<Fragment>): Call {
    Call(LastId(own), LastName(own), AllArguments(own))
  }

  function CallsFor(fragments: seq<Fragment>, order: seq<int>): seq<Call> {
    if order == [] then [] else CallsFor(fragments, order[..|order| - 1]) + [CallOf(Of(fragments, order[|order| - 1]))]
  }

  /** The decimal digits of a number, as the made-up ids print it. */
  function Decimal(n: nat): string {
    var digit := [('0' as int + n % 10) as char];
    if n < 10 then digit else Decimal(n / 10) + digit
  }

  function ToolBlock(c: Call, position: nat): Block {
    ToolUse(if Blank(c.id) then "toolu_openai_" + Decimal(position) else Trim(c.id), c.name, InputOf(c.arguments))
  }

  function ToolBlocks(calls: seq<Call>): seq<Block> {
    if calls == [] then [] else ToolBlocks(calls[..|calls| - 1]) + [ToolBlock(calls[|calls| - 1], |calls| - 1)]
  }

  function StopFor(finish: Option<Finish>, hasTools: bool): Stop {
    match finish
    case Some(ToolsFinish) => ToolCalls
    case Some(LengthFinish) => MaxTokens
    case Some(FilterFinish) => Refused
    case _ => if hasTools then ToolCalls else EndTurn
  }

  /** The mapping shared with whole responses. */
  function Assemble(thinking: string, text: string, calls: seq<Call>, finish: Option<Finish>, model: string, usage: Option<WireUsage>): Message {
    Message("", model,
            (if thinking != "" then [Thinking(thinking, Native(""))] else [])
            + (if text != "" then [Text(text)] else [])
            + ToolBlocks(calls),
            StopFor(finish, calls != []), MapUsage(usage))
  }

  /** The message of a stream, or what its error said. */
  function StreamMessage(lines: seq<Line>): Result<Message, string> {
    var chunks := Chunks(lines);
    if FirstError(chunks).Some? then Err(FirstError(chunks).value)
    else
      var fragments := Fragments(chunks);
      Ok(Assemble(AllThinking(chunks), AllText(chunks), CallsFor(fragments, Order(fragments)),
                  LastFinish(chunks), LastModel(chunks), LastUsage(chunks)))
  }

  /** What a stream comes to, however it was cut up. */
  predicate SameSum(a: seq<Chunk>, b: seq<Chunk>) {
    && AllText(a) == AllText(b) && AllThinking(a) == AllThinking(b)
    && LastModel(a) == LastModel(b) && LastFinish(a) == LastFinish(b) && LastUsage(a) == LastUsage(b)
    && Order(Fragments(a)) == Order(Fragments(b))
    && forall k <- Order(Fragments(a)) :: CallOf(Of(Fragments(a), k)) == CallOf(Of(Fragments(b), k))
  }

  lemma {:induction false} SameCalls(a: seq<Fragment>, b: seq<Fragment>, order: seq<int>)
    requires forall k <- order :: CallOf(Of(a, k)) == CallOf(Of(b, k))
    ensures CallsFor(a, order) == CallsFor(b, order)
  {
    if order != [] {
      var n := |order| - 1;
      assert forall k :: k in order[..n] ==> k in order;
      SameCalls(a, b, order[..n]);
      assert order[n] in order;
    }
  }

  /**
   Chunking does not matter: streams that add up to the same text, reasoning, last model,
   finish reason and usage, and per tool index to the same arguments, last id and last
   name in the same order of first appearance, give the same message.
   */
  lemma {:induction false} ChunkingIsIrrelevant(a: seq<Line>, b: seq<Line>)
    requires FirstError(Chunks(a)).None? && FirstError(Chunks(b)).None?
    requires SameSum(Chunks(a), Chunks(b))
    ensures StreamMessage(a) == StreamMessage(b)
  {
    SameCalls(Fragments(Chunks(a)), Fragments(Chunks(b)), Order(Fragments(Chunks(a))));
  }

  /** An index is in the order exactly when it has fragments. */
  lemma {:induction false} OrderHas(fragments: seq<Fragment>, k: int)
    ensures k in Order(fragments) <==> Of(fragments, k) != []
  {
    if fragments != [] {
      OrderHas(fragments[..|fragments| - 1], k);
    }
  }

  /** Tool indices appear once each. */
  lemma {:induction false} OrderIsDistinct(fragments: seq<Fragment>, i: nat, j: nat)
    requires i < j < |Order(fragments)|
    ensures Order(fragments)[i] != Order(fragments)[j]
  {
    var before := Order(fragments[..|fragments| - 1]);
    if j < |before| {
      OrderIsDistinct(fragments[..|fragments| - 1], i, j);
    } else {
      assert Order(fragments)[i] == before[i];
    }
  }

  /** What the loop makes of one fragment of its call. */
  function Extended(c: Call, f: Fragment): Call {
    Call(if f.id != "" then f.id else c.id, if f.name != "" then f.name else c.name, c.arguments + f.arguments)
  }

  /** One more fragment changes its own call and no other. */
  lemma OneFragment(fragments: seq<Fragment>, f: Fragment, k: int)
    ensures Of(fragments + [f], k) == Of(fragments, k) + (if IndexOf(f) == k then [f] else [])
    ensures CallOf(Of(fragments + [f], k)) ==
            if IndexOf(f) != k then CallOf(Of(fragments, k)) else Extended(CallOf(Of(fragments, k)), f)
    ensures Order(fragments + [f]) == if IndexOf(f) in Order(fragments) then Order(fragments) else Order(fragments) + [IndexOf(f)]
  {
    assert (fragments + [f])[..|fragments|] == fragments;
    if IndexOf(f) == k {
      assert (Of(fragments, k) + [f])[..|Of(fragments, k)|] == Of(fragments, k);
    } else {
      assert Of(fragments + [f], k) == Of(fragments, k);
    }
  }

  /** The map of calls holds what the fragments so far add up to. */
  ghost predicate Tracks(calls: map<int, Call>, order: seq<int>, fragments: seq<Fragment>) {
    order == Order(fragments) && Holds(calls, fragments)
  }

  ghost predicate Holds(calls: map<int, Call>, fragments: seq<Fragment>) {
    forall k :: HoldsAt(calls, fragments, k)
  }

  predicate HoldsAt(calls: map<int, Call>, fragments: seq<Fragment>, k: int) {
    && (k in calls <==> Of(fragments, k) != [])
    && (k in calls ==> calls[k] == CallOf(Of(fragments, k)))
  }

  lemma ExtendHolds(calls: map<int, Call>, fragments: seq<Fragment>, f: Fragment)
    requires Holds(calls, fragments)
    ensures var k := IndexOf(f);
      Holds(calls[k := if k in calls then Extended(calls[k], f) else Call(f.id, f.name, f.arguments)], fragments + [f])
  {
    var k := IndexOf(f);
    var after := calls[k := if k in calls then Extended(calls[k], f) else Call(f.id, f.name, f.arguments)];
    assert HoldsAt(calls, fragments, k);
    forall j ensures HoldsAt(after, fragments + [f], j) {
      assert HoldsAt(calls, fragments, j);
      OneFragment(fragments, f, j);
    }
  }

  method AddFragment(calls: map<int, Call>, order: seq<int>, f: Fragment, ghost fragments: seq<Fragment>)
    returns (calls': map<int, Call>, order': seq<int>)
    requires Tracks(calls, order, fragments)
    ensures Tracks(calls', order', fragments + [f])
  {
    var k := if f.index.Some? then f.index.value else 0;
    OrderHas(fragments, k);
    assert HoldsAt(calls, fragments, k);
    ExtendHolds(calls, fragments, f);
    OneFragment(fragments, f, k);
    order' := order;
    if k !in calls {
      calls' := calls[k := Call(f.id, f.name, f.arguments)];
      order' := order + [k];
    } else {
      var c := calls[k];
      if f.id != "" {
        c := c.(id := f.id);
      }
      if f.name != "" {
        c := c.(name := f.name);
      }
      c := c.(arguments := c.arguments + f.arguments);
      calls' := calls[k := c];
    }
  }

  method AddFragments(calls: map<int, Call>, order: seq<int>, added: seq<Fragment>, ghost fragments: seq<Fragment>)
    returns (calls': map<int, Call>, order': seq<int>)
    requires Tracks(calls, order, fragments)
    ensures Tracks(calls', order', fragments + added)
  {
    calls', order' := calls, order;
    assert fragments + added[..0] == fragments;
    for i := 0 to |added|
      invariant Tracks(calls', order', fragments + added[..i])
    {
      assert (fragments + added[..i]) + [added[i]] == fragments + added[..i + 1];
      calls', order' := AddFragment(calls', order', added[i], fragments + added[..i]);
    }
    assert added[..|added|] == added;
  }

  lemma {:induction false} NothingAfterTheEnd(lines: seq<Line>, n: nat)
    requires n <= |lines| && Ended(lines[..n])
    ensures Chunks(lines) == Chunks(lines[..n])
    decreases |lines|
  {
    if n == |lines| {
      assert lines[..n] == lines;
    } else {
      var m := |lines| - 1;
      assert lines[..m][..n] == lines[..n];
      assert DoneLine in lines[..m] by {
        var i :| 0 <= i < n && lines[..n][i] == DoneLine;
        assert lines[..m][i] == DoneLine;
      }
      NothingAfterTheEnd(lines[..m], n);
    }
  }

  lemma {:induction false} ErrorStays(lines: seq<Line>, n: nat)
    requires n <= |lines| && FirstError(Chunks(lines[..n])).Some?
    ensures FirstError(Chunks(lines)) == FirstError(Chunks(lines[..n]))
    decreases |lines|
  {
    if n == |lines| {
      assert lines[..n] == lines;
    } else {
      var m := |lines| - 1;
      var before := Chunks(lines[..m]);
      assert lines[..m][..n] == lines[..n];
      ErrorStays(lines[..m], n);
      if !Ended(lines[..m]) && lines[m].ChunkLine? {
        FirstErrorSnoc(before, lines[m].chunk);
      }
    }
  }

  /** What the loop keeps about the chunks it has read. */
  datatype Sums = Sums(model: string, finish: Option<Finish>, text: string, thinking: string, usage: Option<WireUsage>)

  function SumsOf(chunks: seq<Chunk>): Sums {
    Sums(LastModel(chunks), LastFinish(chunks), AllText(chunks), AllThinking(chunks), LastUsage(chunks))
  }

  lemma OneChunk(chunks: seq<Chunk>, c: Chunk)
    ensures SumsOf(chunks + [c]) == Sums(
                                      if c.model != "" then c.model else LastModel(chunks),
                                      if c.choice.Some? && c.choice.value.finish.Some? then c.choice.value.finish else LastFinish(chunks),
                                      AllText(chunks) + TextIn(c), AllThinking(chunks) + ThinkingIn(c),
                                      if c.usage.Some? then c.usage else LastUsage(chunks))
    ensures Fragments(chunks + [c]) == Fragments(chunks) + CallsIn(c)
  {
    assert (chunks + [c])[..|chunks|] == chunks;
  }

  /** Tell a callback a piece; empty pieces are not told. */
  method Tell(said: seq<string>, piece: string) returns (r: seq<string>)
    requires "" !in said
    ensures Concat(r) == Concat(said) + piece && "" !in r
  {
    r := said;
    if piece != "" {
      ConcatSnoc(said, piece);
      r := said + [piece];
    } else {
      assert Concat(said) + piece == Concat(said);
    }
  }

  /** The variables of the loop, and the strings told to the two callbacks so far. */
  datatype Reading = Reading(
    model: string, finish: Option<Finish>, usage: Option<WireUsage>,
    said: seq<string>, thought: seq<string>, calls: map<int, Call>, order: seq<int>)

  ghost predicate Read(r: Reading, chunks: seq<Chunk>) {
    && SumsOf(chunks) == Sums(r.model, r.finish, Concat(r.said), Concat(r.thought), r.usage)
    && Tracks(r.calls, r.order, Fragments(chunks))
    && "" !in r.said && "" !in r.thought
  }

  /** One turn of the loop, past the error check. */
  method ReadChunk(r: Reading, chunk: Chunk, ghost chunks: seq<Chunk>) returns (next: Reading)
    requires Read(r, chunks)
    ensures Read(next, chunks + [chunk])
  {
    OneChunk(chunks, chunk);
    var model, usage, finish := r.model, r.usage, r.finish;
    var said, thought, calls, order := r.said, r.thought, r.calls, r.order;
    if chunk.model != "" {
      model := chunk.model;
    }
    if chunk.usage.Some? {
      usage := chunk.usage;
    }
    if chunk.choice.Some? {
      var choice := chunk.choice.value;
      if choice.finish.Some? {
        finish := choice.finish;
      }
      said := Tell(said, choice.text);
      thought := Tell(thought, ThinkingOf(choice));
      calls, order := AddFragments(calls, order, choice.calls, Fragments(chunks));
    } else {
      assert Fragments(chunks) + CallsIn(chunk) == Fragments(chunks);
      assert Concat(said) + "" == Concat(said) && Concat(thought) + "" == Concat(thought);
    }
    next := Reading(model, finish, usage, said, thought, calls, order);
  }

  method ConsumeOpenAIStream(lines: seq<Line>) returns (r: Result<Message, string>, said: seq<string>, thought: seq<string>)
    ensures r == StreamMessage(lines)
    ensures "" !in said && "" !in thought
    ensures r.Ok? ==> Concat(said) == AllText(Chunks(lines)) && Concat(thought) == AllThinking(Chunks(lines))
  {
    var reading := Reading("", None, None, [], [], map[], []);
    var i := 0;
    while i < |lines| && lines[i] != DoneLine
      invariant i <= |lines| && !Ended(lines[..i])
      invariant FirstError(Chunks(lines[..i])).None? && Read(reading, Chunks(lines[..i]))
    {
      OneLine(lines, i);
      if lines[i].ChunkLine? {
        var chunk := lines[i].chunk;
        FirstErrorSnoc(Chunks(lines[..i]), chunk);
        if chunk.error.Some? {
          ErrorStays(lines, i + 1);
          return Err(chunk.error.value), reading.said, reading.thought;
        }
        reading := ReadChunk(reading, chunk, Chunks(lines[..i]));
      }
      i := i + 1;
    }
    ReadToTheEnd(lines, i);
    said, thought := reading.said, reading.thought;
    var message := ReadMessage(reading, Chunks(lines));
    r := Ok(message);
  }

  /** The message of all that was read. */
  method ReadMessage(r: Reading, ghost chunks: seq<Chunk>) returns (m: Message)
    requires Read(r, chunks)
    ensures m == Assemble(AllThinking(chunks), AllText(chunks), CallsFor(Fragments(chunks), Order(Fragments(chunks))),
                          LastFinish(chunks), LastModel(chunks), LastUsage(chunks))
  {
    var calls := CollectCalls(r.calls, r.order, Fragments(chunks));
    m := OpenAIChoiceToMessage(Concat(r.thought), Concat(r.said), calls, r.finish, r.model, r.usage);
  }

  lemma OneLine(lines: seq<Line>, i: nat)
    requires i < |lines| && !Ended(lines[..i]) && lines[i] != DoneLine
    ensures !Ended(lines[..i + 1])
    ensures Chunks(lines[..i + 1]) == if lines[i].ChunkLine? then Chunks(lines[..i]) + [lines[i].chunk] else Chunks(lines[..i])
  {
    assert lines[..i + 1] == lines[..i] + [lines[i]];
    assert lines[..i + 1][..i] == lines[..i];
  }

  lemma FirstErrorSnoc(chunks: seq<Chunk>, c: Chunk)
    ensures FirstError(chunks + [c]) == if FirstError(chunks).Some? then FirstError(chunks) else c.error
  {
    assert (chunks + [c])[..|chunks|] == chunks;
  }

  lemma ReadToTheEnd(lines: seq<Line>, i: nat)
    requires i <= |lines| && !Ended(lines[..i]) && (i < |lines| ==> lines[i] == DoneLine)
    ensures Chunks(lines) == Chunks(lines[..i])
  {
    if i < |lines| {
      assert lines[..i + 1][..i] == lines[..i] && lines[..i + 1][i] == DoneLine;
      NothingAfterTheEnd(lines, i + 1);
    } else {
      assert lines[..i] == lines;
    }
  }

  method OpenAIChoiceToMessage(thinking: string, text: string, calls: seq<Call>, finish: Option<Finish>, model: string, usage: Option<WireUsage>)
    returns (m: Message)
    ensures m == Assemble(thinking, text, calls, finish, model, usage)
  {
    var content := [];
    if thinking != "" {
      content := content + [Thinking(thinking, Native(""))];
    }
    if text != "" {
      content := content + [Text(text)];
    }
    content := AppendTools(content, calls);
    m := Message("", model, content, StopFor(finish, |calls| > 0), MapUsage(usage));
  }

  method AppendTools(content: seq<Block>, calls: seq<Call>) returns (r: seq<Block>)
    ensures r == content + ToolBlocks(calls)
  {
    r := content;
    for i := 0 to |calls|
      invariant r == content + ToolBlocks(calls[..i])
    {
      assert calls[..i + 1][..i] == calls[..i];
      var id := Trim(calls[i].id);
      if id == "" {
        id := "toolu_openai_" + Decimal(i);
      }
      r := r + [ToolUse(id, calls[i].name, InputOf(calls[i].arguments))];
    }
    assert calls[..|calls|] == calls;
  }

  method CollectCalls(calls: map<int, Call>, order: seq<int>, ghost fragments: seq<Fragment>) returns (r: seq<Call>)
    requires Tracks(calls, order, fragments)
    ensures r == CallsFor(fragments, order)
  {
    r := [];
    for i := 0 to |order|
      invariant r == CallsFor(fragments, order[..i])
    {
      assert order[..i + 1][..i] == order[..i];
      OrderHas(fragments, order[i]);
      assert HoldsAt(calls, fragments, order[i]);
      r := r + [calls[order[i]]];
    }
    assert order[..|order|] == order;
  }
}
