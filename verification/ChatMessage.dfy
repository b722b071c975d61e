/**
 What the message of a Chat Completions stream holds, in terms of its chunks, whatever
 mapping puts it together: internal/anthropic/openai.go (consumeOpenAIStream,
 openAIChoiceToMessage, mapOpenAIFinishReason).
 */
module ChatMessage {
  import opened ChatStream
  import Gather
  import opened Strings
  import opened Wire
  import opened Wrappers

  // ------------------------------------------------------ reading a message

  function TextOf(b: Block): string { if b.Text? then b.text else "" }

  function ThoughtOf(b: Block): string { if b.Thinking? then b.thinking else "" }

  function ToolIn(b: Block): seq<Block> { if b.ToolUse? then [b] else [] }

  /** What the reader sees as the answer, as the reasoning, and as tool calls. */
  function Answer(m: Message): string { Gather.Gather(TextOf, m.content) }

  function Thoughts(m: Message): string { Gather.Gather(ThoughtOf, m.content) }

  function Tools(m: Message): seq<Block> { Gather.Gather(ToolIn, m.content) }

  /** Thinking comes before text, and text before tools. */
  function Rank(b: Block): nat {
    match b
    case Thinking(_, _) => 0
    case Text(_) => 1
    case ToolUse(_, _, _) => 2
  }

  predicate InRankOrder(content: seq<Block>) {
    forall i, j :: 0 <= i < j < |content| ==> Rank(content[i]) <= Rank(content[j])
  }

  predicate NothingEmpty(content: seq<Block>) {
    forall b :: b in content ==> b != Text("") && (b.Thinking? ==> b.thinking != "")
  }

  // --------------------------------------------------- the parts in a message

  lemma {:induction false} ToolBlocksAre(calls: seq<Call>)
    ensures |ToolBlocks(calls)| == |calls|
    ensures forall i :: 0 <= i < |calls| ==> ToolBlocks(calls)[i] == ToolBlock(calls[i], i)
  {
    if calls != [] {
      ToolBlocksAre(calls[..|calls| - 1]);
    }
  }

  lemma {:induction false} ToolsRead(tools: seq<Block>)
    requires forall i :: 0 <= i < |tools| ==> tools[i].ToolUse?
    ensures Gather.Gather(TextOf, tools) == "" && Gather.Gather(ThoughtOf, tools) == "" && Gather.Gather(ToolIn, tools) == tools
  {
    if tools != [] {
      ToolsRead(tools[..|tools| - 1]);
    }
  }

  function Head(thinking: string): seq<Block> { if thinking != "" then [Thinking(thinking, Native(""))] else [] }

  function Middle(text: string): seq<Block> { if text != "" then [Text(text)] else [] }

  /** Reasoning, text and calls put together read piece by piece. */
  lemma PartsRead<A>(f: Block -> seq<A>, head: seq<Block>, middle: seq<Block>, tools: seq<Block>)
    ensures Gather.Gather(f, head + middle + tools) == Gather.Gather(f, head) + Gather.Gather(f, middle) + Gather.Gather(f, tools)
  {
    Gather.Append(f, head + middle, tools);
    Gather.Append(f, head, middle);
  }

  lemma HeadReads(thinking: string)
    ensures Gather.Gather(TextOf, Head(thinking)) == "" && Gather.Gather(ThoughtOf, Head(thinking)) == thinking
    ensures Gather.Gather(ToolIn, Head(thinking)) == []
  {
    var b := Thinking(thinking, Native(""));
    Gather.One(TextOf, b);
    Gather.One(ThoughtOf, b);
    Gather.One(ToolIn, b);
  }

  lemma MiddleReads(text: string)
    ensures Gather.Gather(TextOf, Middle(text)) == text && Gather.Gather(ThoughtOf, Middle(text)) == ""
    ensures Gather.Gather(ToolIn, Middle(text)) == []
  {
    Gather.One(TextOf, Text(text));
    Gather.One(ThoughtOf, Text(text));
    Gather.One(ToolIn, Text(text));
  }

  lemma RanksAscend(thinking: string, text: string, tools: seq<Block>)
    requires forall i :: 0 <= i < |tools| ==> tools[i].ToolUse?
    ensures InRankOrder(Head(thinking) + Middle(text) + tools) && NothingEmpty(Head(thinking) + Middle(text) + tools)
  {
  }

  /** Such a content reads as the reasoning, the text and the tools it was made of. */
  lemma ContentReads(thinking: string, text: string, tools: seq<Block>)
    requires Gather.Gather(TextOf, tools) == "" && Gather.Gather(ThoughtOf, tools) == "" && Gather.Gather(ToolIn, tools) == tools
    ensures var content := Head(thinking) + Middle(text) + tools;
      Gather.Gather(TextOf, content) == text && Gather.Gather(ThoughtOf, content) == thinking && Gather.Gather(ToolIn, content) == tools
  {
    HeadReads(thinking);
    MiddleReads(text);
    PartsRead(TextOf, Head(thinking), Middle(text), tools);
    PartsRead(ThoughtOf, Head(thinking), Middle(text), tools);
    PartsRead(ToolIn, Head(thinking), Middle(text), tools);
  }

  lemma AssembledReads(thinking: string, text: string, calls: seq<Call>, finish: Option<Finish>, model: string, usage: Option<WireUsage>)
    ensures var m := Assemble(thinking, text, calls, finish, model, usage);
      && Answer(m) == text && Thoughts(m) == thinking && Tools(m) == ToolBlocks(calls)
      && InRankOrder(m.content) && NothingEmpty(m.content)
  {
    ToolBlocksAre(calls);
    ToolsRead(ToolBlocks(calls));
    ContentReads(thinking, text, ToolBlocks(calls));
    RanksAscend(thinking, text, ToolBlocks(calls));
    ContentIs(thinking, text, calls, finish, model, usage);
  }

  lemma ContentIs(thinking: string, text: string, calls: seq<Call>, finish: Option<Finish>, model: string, usage: Option<WireUsage>)
    ensures Assemble(thinking, text, calls, finish, model, usage).content == Head(thinking) + Middle(text) + ToolBlocks(calls)
  {
  }

  lemma {:induction false} CallsForAre(fragments: seq<Fragment>, order: seq<int>)
    ensures |CallsFor(fragments, order)| == |order|
    ensures forall i :: 0 <= i < |order| ==> CallsFor(fragments, order)[i] == CallOf(Of(fragments, order[i]))
  {
    if order != [] {
      CallsForAre(fragments, order[..|order| - 1]);
    }
  }

  /** Tool use b is what the fragments of one index add up to; a blank id is made up from
      the position. */
  predicate IsCall(b: Block, own: seq<Fragment>, position: nat) {
    && b.ToolUse? && b.name == LastName(own) && b.input == InputOf(AllArguments(own))
    && b.id == if Trim(LastId(own)) != "" then Trim(LastId(own)) else "toolu_openai_" + Decimal(position)
  }

  /**
   The message of a stream shows the text as the answer and the reasoning as reasoning,
   reasoning first and tools last; its i-th tool use is what the fragments of the i-th
   index, in order of appearance, add up to; it names the last model and accounts for the
   last usage.
   */
  lemma MessageHolds(lines: seq<Line>)
    requires StreamMessage(lines).Ok?
    ensures var m, chunks := StreamMessage(lines).value, Chunks(lines);
      var fragments := Fragments(chunks);
      && Answer(m) == AllText(chunks) && Thoughts(m) == AllThinking(chunks)
      && InRankOrder(m.content) && NothingEmpty(m.content)
      && |Tools(m)| == |Order(fragments)|
      && (forall i :: 0 <= i < |Tools(m)| ==> IsCall(Tools(m)[i], Of(fragments, Order(fragments)[i]), i))
      && m.model == LastModel(chunks) && m.usage == MapUsage(LastUsage(chunks))
  {
    var chunks := Chunks(lines);
    var fragments := Fragments(chunks);
    var calls := CallsFor(fragments, Order(fragments));
    CallsForAre(fragments, Order(fragments));
    ToolBlocksAre(calls);
    AssembledReads(AllThinking(chunks), AllText(chunks), calls, LastFinish(chunks), LastModel(chunks), LastUsage(chunks));
  }

  /** Why the message stopped, told from the finish reason and from whether it calls tools. */
  lemma StopsAsTold(lines: seq<Line>)
    requires StreamMessage(lines).Ok?
    ensures var m, finish := StreamMessage(lines).value, LastFinish(Chunks(lines));
      && (m.stop == MaxTokens <==> finish == Some(LengthFinish))
      && (m.stop == Refused <==> finish == Some(FilterFinish))
      && (m.stop == ToolCalls <==>
            (finish == Some(ToolsFinish) || (Tools(m) != [] && finish != Some(LengthFinish) && finish != Some(FilterFinish))))
  {
    var chunks := Chunks(lines);
    var calls := CallsFor(Fragments(chunks), Order(Fragments(chunks)));
    MessageHolds(lines);
    CallsForAre(Fragments(chunks), Order(Fragments(chunks)));
    AssembledStops(AllThinking(chunks), AllText(chunks), calls, LastFinish(chunks), LastModel(chunks), LastUsage(chunks));
  }

  lemma AssembledStops(thinking: string, text: string, calls: seq<Call>, finish: Option<Finish>, model: string, usage: Option<WireUsage>)
    ensures var stop := Assemble(thinking, text, calls, finish, model, usage).stop;
      && (stop == MaxTokens <==> finish == Some(LengthFinish))
      && (stop == Refused <==> finish == Some(FilterFinish))
      && (stop == ToolCalls <==>
            (finish == Some(ToolsFinish) || (|calls| > 0 && finish != Some(LengthFinish) && finish != Some(FilterFinish))))
  {
  }

  // ------------------------------------------------- what the sums are sums of

  /** Text, reasoning and fragments add up in the order of the chunks. */
  lemma SumsAppend(a: seq<Chunk>, b: seq<Chunk>)
    ensures AllText(a + b) == AllText(a) + AllText(b)
    ensures AllThinking(a + b) == AllThinking(a) + AllThinking(b)
    ensures Fragments(a + b) == Fragments(a) + Fragments(b)
  {
    TextAppends(a, b);
    ThinkingAppends(a, b);
    FragmentsAppend(a, b);
  }

  lemma Regroup<A>(a: seq<A>, b: seq<A>, c: seq<A>)
    ensures a + (b + c) == (a + b) + c
  {
  }

  lemma {:induction false} TextAppends(a: seq<Chunk>, b: seq<Chunk>)
    ensures AllText(a + b) == AllText(a) + AllText(b)
  {
    if b == [] {
      assert a + b == a;
    } else {
      var n := |b| - 1;
      TextAppends(a, b[..n]);
      assert a + b == (a + b[..n]) + [b[n]] && b == b[..n] + [b[n]];
      OneChunk(a + b[..n], b[n]);
      OneChunk(b[..n], b[n]);
      Regroup(AllText(a), AllText(b[..n]), TextIn(b[n]));
    }
  }

  lemma {:induction false} ThinkingAppends(a: seq<Chunk>, b: seq<Chunk>)
    ensures AllThinking(a + b) == AllThinking(a) + AllThinking(b)
  {
    if b == [] {
      assert a + b == a;
    } else {
      var n := |b| - 1;
      ThinkingAppends(a, b[..n]);
      assert a + b == (a + b[..n]) + [b[n]] && b == b[..n] + [b[n]];
      OneChunk(a + b[..n], b[n]);
      OneChunk(b[..n], b[n]);
      Regroup(AllThinking(a), AllThinking(b[..n]), ThinkingIn(b[n]));
    }
  }

  lemma {:induction false} FragmentsAppend(a: seq<Chunk>, b: seq<Chunk>)
    ensures Fragments(a + b) == Fragments(a) + Fragments(b)
  {
    if b == [] {
      assert a + b == a;
    } else {
      var n := |b| - 1;
      FragmentsAppend(a, b[..n]);
      assert a + b == (a + b[..n]) + [b[n]] && b == b[..n] + [b[n]];
      OneChunk(a + b[..n], b[n]);
      OneChunk(b[..n], b[n]);
      Regroup(Fragments(a), Fragments(b[..n]), CallsIn(b[n]));
    }
  }

  /** What one chunk says; of three spellings of the reasoning the first that is not empty. */
  lemma OneChunkSays(c: Chunk)
    ensures c.choice.None? ==> AllText([c]) == "" && AllThinking([c]) == "" && Fragments([c]) == []
    ensures c.choice.Some? ==> AllText([c]) == c.choice.value.text && Fragments([c]) == c.choice.value.calls
    ensures c.choice.Some? ==>
              var said := c.choice.value;
              && (said.reasoningContent != "" ==> AllThinking([c]) == said.reasoningContent)
              && (said.reasoningContent == "" && said.reasoning != "" ==> AllThinking([c]) == said.reasoning)
              && (said.reasoningContent == "" && said.reasoning == "" ==> AllThinking([c]) == said.thinking)
  {
    assert [c][..0] == [];
  }

  lemma {:induction false} ArgumentsAppend(a: seq<Fragment>, b: seq<Fragment>)
    ensures AllArguments(a + b) == AllArguments(a) + AllArguments(b)
  {
    if b == [] {
      assert a + b == a;
    } else {
      var n := |b| - 1;
      ArgumentsAppend(a, b[..n]);
      assert (a + b)[..|a + b| - 1] == a + b[..n];
      Regroup(AllArguments(a), AllArguments(b[..n]), b[n].arguments);
    }
  }

  lemma {:induction false} FragmentsOfAppend(a: seq<Fragment>, b: seq<Fragment>, k: int)
    ensures Of(a + b, k) == Of(a, k) + Of(b, k)
  {
    if b == [] {
      assert a + b == a;
    } else {
      var n := |b| - 1;
      FragmentsOfAppend(a, b[..n], k);
      assert (a + b)[..|a + b| - 1] == a + b[..n];
      Regroup(Of(a, k), Of(b[..n], k), if IndexOf(b[n]) == k then [b[n]] else []);
    }
  }

  lemma OneFragmentSays(f: Fragment, k: int)
    ensures AllArguments([f]) == f.arguments
    ensures Of([f], k) == if k == (if f.index.Some? then f.index.value else 0) then [f] else []
  {
    assert [f][..0] == [];
  }

  /** The last chunk that names a model, a finish reason or a usage is the one that counts. */
  lemma {:induction false} LastChunkCounts(chunks: seq<Chunk>, i: nat)
    requires i < |chunks|
    ensures chunks[i].model != "" && (forall j :: i < j < |chunks| ==> chunks[j].model == "") ==>
              LastModel(chunks) == chunks[i].model
    ensures chunks[i].usage.Some? && (forall j :: i < j < |chunks| ==> chunks[j].usage.None?) ==>
              LastUsage(chunks) == chunks[i].usage
    ensures FinishIn(chunks[i]).Some? && (forall j :: i < j < |chunks| ==> FinishIn(chunks[j]).None?) ==>
              LastFinish(chunks) == FinishIn(chunks[i])
  {
    if i < |chunks| - 1 {
      LastChunkCounts(chunks[..|chunks| - 1], i);
    }
  }

  function FinishIn(c: Chunk): Option<Finish> { if c.choice.Some? then c.choice.value.finish else None }

  /** Without any such chunk there is none. */
  lemma {:induction false} NoChunkCounts(chunks: seq<Chunk>)
    ensures (forall c :: c in chunks ==> c.model == "") ==> LastModel(chunks) == ""
    ensures (forall c :: c in chunks ==> c.usage.None?) ==> LastUsage(chunks) == None
    ensures (forall c :: c in chunks ==> FinishIn(c).None?) ==> LastFinish(chunks) == None
  {
    if chunks != [] {
      var n := |chunks| - 1;
      NoChunkCounts(chunks[..n]);
      assert forall c :: c in chunks[..n] ==> c in chunks;
      assert chunks[n] in chunks;
    }
  }

  /** So is the last fragment of a call with an id or a name. */
  lemma {:induction false} LastFragmentCounts(own: seq<Fragment>, i: nat)
    requires i < |own|
    ensures own[i].id != "" && (forall j :: i < j < |own| ==> own[j].id == "") ==> LastId(own) == own[i].id
    ensures own[i].name != "" && (forall j :: i < j < |own| ==> own[j].name == "") ==> LastName(own) == own[i].name
  {
    if i < |own| - 1 {
      LastFragmentCounts(own[..|own| - 1], i);
    }
  }

  /** Indices are listed in the order of their first fragments. */
  lemma {:induction false} OrderIsByAppearance(fragments: seq<Fragment>, a: nat, b: nat, q: nat)
    requires a < b < |Order(fragments)| && q < |fragments| && IndexOf(fragments[q]) == Order(fragments)[b]
    ensures exists p :: 0 <= p < q && IndexOf(fragments[p]) == Order(fragments)[a]
  {
    var n := |fragments| - 1;
    var before := Order(fragments[..n]);
    if b < |before| {
      assert before[a] == Order(fragments)[a] && before[b] == Order(fragments)[b];
      if q < n {
        OrderIsByAppearance(fragments[..n], a, b, q);
        var p :| 0 <= p < q && IndexOf(fragments[..n][p]) == before[a];
        assert IndexOf(fragments[p]) == Order(fragments)[a];
      } else {
        ListedAppears(fragments[..n], a);
        var p :| 0 <= p < n && IndexOf(fragments[..n][p]) == before[a];
        assert IndexOf(fragments[p]) == Order(fragments)[a];
      }
    } else {
      ListedAppears(fragments[..n], a);
      var p :| 0 <= p < n && IndexOf(fragments[..n][p]) == before[a];
      assert IndexOf(fragments[p]) == Order(fragments)[a];
      if q < n {
        AppearsIsListed(fragments[..n], q);
      }
    }
  }

  lemma {:induction false} ListedAppears(fragments: seq<Fragment>, a: nat)
    requires a < |Order(fragments)|
    ensures exists p :: 0 <= p < |fragments| && IndexOf(fragments[p]) == Order(fragments)[a]
  {
    var n := |fragments| - 1;
    if a < |Order(fragments[..n])| {
      ListedAppears(fragments[..n], a);
      var p :| 0 <= p < n && IndexOf(fragments[..n][p]) == Order(fragments[..n])[a];
      assert IndexOf(fragments[p]) == Order(fragments)[a];
    } else {
      assert IndexOf(fragments[n]) == Order(fragments)[a];
    }
  }

  lemma {:induction false} AppearsIsListed(fragments: seq<Fragment>, q: nat)
    requires q < |fragments|
    ensures IndexOf(fragments[q]) in Order(fragments)
  {
    var n := |fragments| - 1;
    if q < n {
      AppearsIsListed(fragments[..n], q);
    }
  }

  /** A stream fails if and only if a chunk before the end mark carries an error, and then
      with the first one. */
  lemma {:induction false} FirstErrorCounts(chunks: seq<Chunk>, i: nat)
    requires i < |chunks| && chunks[i].error.Some? && forall j :: 0 <= j < i ==> chunks[j].error.None?
    ensures FirstError(chunks) == chunks[i].error
  {
    var n := |chunks| - 1;
    if i < n {
      FirstErrorCounts(chunks[..n], i);
    } else {
      NoError(chunks[..n]);
    }
  }

  lemma {:induction false} NoError(chunks: seq<Chunk>)
    requires forall j :: 0 <= j < |chunks| ==> chunks[j].error.None?
    ensures FirstError(chunks).None?
  {
    if chunks != [] {
      NoError(chunks[..|chunks| - 1]);
    }
  }

  /** The chunks are those of the data lines before the end mark. */
  lemma {:induction false} ChunksAre(lines: seq<Line>, tail: seq<Line>)
    requires DoneLine !in lines && (tail != [] ==> tail[0] == DoneLine)
    ensures Chunks(lines + tail) == Gather.Gather(ChunkIn, lines)
  {
    if tail != [] {
      assert (lines + tail)[..|lines| + 1] == lines + [DoneLine];
      assert (lines + [DoneLine])[..|lines|] == lines;
      assert DoneLine in lines + [DoneLine];
      NothingAfterTheEnd(lines + tail, |lines| + 1);
    } else {
      assert lines + tail == lines;
    }
    ChunksOfData(lines);
  }

  function ChunkIn(l: Line): seq<Chunk> { if l.ChunkLine? then [l.chunk] else [] }

  lemma {:induction false} ChunksOfData(lines: seq<Line>)
    requires DoneLine !in lines
    ensures Chunks(lines) == Gather.Gather(ChunkIn, lines)
  {
    if lines != [] {
      assert forall l :: l in lines[..|lines| - 1] ==> l in lines;
      ChunksOfData(lines[..|lines| - 1]);
    }
  }

  /** Made-up ids differ. */
  lemma {:induction false} DecimalsDiffer(a: nat, b: nat)
    requires Decimal(a) == Decimal(b)
    ensures a == b
  {
    var x, y := Decimal(a), Decimal(b);
    assert x[|x| - 1] == ('0' as int + a % 10) as char && y[|y| - 1] == ('0' as int + b % 10) as char;
    DecimalLength(a);
    DecimalLength(b);
    if a >= 10 && b >= 10 {
      assert x[..|x| - 1] == Decimal(a / 10) && y[..|y| - 1] == Decimal(b / 10);
      DecimalsDiffer(a / 10, b / 10);
    }
  }

  lemma DecimalLength(n: nat)
    ensures |Decimal(n)| >= 1 && (n >= 10 <==> |Decimal(n)| >= 2)
  {
  }
}
