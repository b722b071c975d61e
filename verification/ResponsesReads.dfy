/**
 What a reader finds in the message of a Responses result, and what stops it: told from
 the response and the events alone (internal/anthropic/responses.go, responsesToMessage and
 consumeResponsesStream).
 */
module ResponsesReads {
  import Gather
  import opened ChatMessage
  import opened ResponsesMessage
  import opened ResponsesStream
  import opened Strings
  import opened Wire
  import opened Wrappers

  // ------------------------------------------------------- what an item says

  function PartSays(p: Part): string {
    if p.kind == OutputText then p.text else if p.kind == RefusalPart then p.refusal else ""
  }

  function PartText(p: Part): string { p.text }

  /** The answer, the reasoning and the tool call that one item contributes. */
  function ItemAnswer(item: Item): string {
    if item.kind == MessageItem then Gather.Gather(PartSays, item.content) else ""
  }

  function ItemReasoning(item: Item): string {
    if item.kind == ReasoningItem then Gather.Gather(PartText, item.summary) + Gather.Gather(PartText, item.content) else ""
  }

  function ItemTool(item: Item): seq<Block> {
    if item.kind == FunctionCallItem then [ToolUse(Trim(item.callId), item.name, InputOf(item.arguments))] else []
  }

  lemma {:induction false} JoinedIsText(parts: seq<Part>)
    ensures Joined(parts) == Gather.Gather(PartText, parts)
  {
    if parts != [] {
      JoinedIsText(parts[..|parts| - 1]);
    }
  }

  lemma OneBlock(b: Block)
    ensures Gather.Gather(TextOf, [b]) == TextOf(b) && Gather.Gather(ThoughtOf, [b]) == ThoughtOf(b)
    ensures Gather.Gather(ToolIn, [b]) == ToolIn(b)
  {
    Gather.One(TextOf, b);
    Gather.One(ThoughtOf, b);
    Gather.One(ToolIn, b);
  }

  lemma PartReads(p: Part)
    ensures Gather.Gather(TextOf, PartBlocks(p)) == PartSays(p)
    ensures Gather.Gather(ThoughtOf, PartBlocks(p)) == "" && Gather.Gather(ToolIn, PartBlocks(p)) == []
  {
    OneBlock(Text(p.text));
    OneBlock(Text(p.refusal));
  }

  lemma {:induction false} PartsRead(parts: seq<Part>)
    ensures Gather.Gather(TextOf, MessageBlocks(parts)) == Gather.Gather(PartSays, parts)
    ensures Gather.Gather(ThoughtOf, MessageBlocks(parts)) == "" && Gather.Gather(ToolIn, MessageBlocks(parts)) == []
  {
    if parts != [] {
      var before, last := parts[..|parts| - 1], parts[|parts| - 1];
      PartsRead(before);
      PartReads(last);
      Gather.Append(TextOf, MessageBlocks(before), PartBlocks(last));
      Gather.Append(ThoughtOf, MessageBlocks(before), PartBlocks(last));
      Gather.Append(ToolIn, MessageBlocks(before), PartBlocks(last));
    }
  }

  /** No reasoning block is empty of both text and payload. */
  predicate Worthwhile(content: seq<Block>) {
    forall b :: b in content && b.Thinking? ==> b.thinking != "" || b.signature != Native("")
  }

  lemma {:induction false} MessagesDoNotThink(parts: seq<Part>)
    ensures forall b :: b in MessageBlocks(parts) ==> b.Text?
  {
    if parts != [] {
      MessagesDoNotThink(parts[..|parts| - 1]);
    }
  }

  lemma ItemReads(item: Item)
    requires Adds(item).Some?
    ensures var blocks := Adds(item).value.blocks;
      && Gather.Gather(TextOf, blocks) == ItemAnswer(item) && Gather.Gather(ThoughtOf, blocks) == ItemReasoning(item)
      && Gather.Gather(ToolIn, blocks) == ItemTool(item) && Worthwhile(blocks)
  {
    match item.kind
    case MessageItem =>
      PartsRead(item.content);
      MessagesDoNotThink(item.content);
    case ReasoningItem =>
      JoinedIsText(item.summary);
      JoinedIsText(item.content);
      OneBlock(Thinking(Joined(item.summary) + Joined(item.content), ReasoningSignature(item)));
    case FunctionCallItem => OneBlock(ToolUse(Trim(item.callId), item.name, InputOf(item.arguments)));
    case OtherItem(_) =>
  }

  lemma {:induction false} ItemsRead(items: seq<Item>)
    requires AddsAll(items).Some?
    ensures var blocks := AddsAll(items).value.blocks;
      && Gather.Gather(TextOf, blocks) == Gather.Gather(ItemAnswer, items)
      && Gather.Gather(ThoughtOf, blocks) == Gather.Gather(ItemReasoning, items)
      && Gather.Gather(ToolIn, blocks) == Gather.Gather(ItemTool, items) && Worthwhile(blocks)
  {
    if items != [] {
      var before, last := AddsAll(items[..|items| - 1]).value.blocks, Adds(items[|items| - 1]).value.blocks;
      ItemsRead(items[..|items| - 1]);
      ItemReads(items[|items| - 1]);
      Gather.Append(TextOf, before, last);
      Gather.Append(ThoughtOf, before, last);
      Gather.Append(ToolIn, before, last);
    }
  }

  /** Items are translated in their order. */
  lemma {:induction false} ItemsAppend(a: seq<Item>, b: seq<Item>)
    requires AddsAll(a + b).Some?
    ensures AddsAll(a).Some? && AddsAll(b).Some?
    ensures AddsAll(a + b).value.blocks == AddsAll(a).value.blocks + AddsAll(b).value.blocks
  {
    if b == [] {
      assert a + b == a;
    } else {
      var n := |b| - 1;
      assert (a + b)[..|a + b| - 1] == a + b[..n];
      ItemsAppend(a, b[..n]);
      Regroup(AddsAll(a).value.blocks, AddsAll(b[..n]).value.blocks, Adds(b[n]).value.blocks);
    }
  }

  /**
   The message of a response answers with the texts and refusals of its messages, reasons
   with the texts of its reasoning, and calls what its function calls call, each in the
   order of the output; id, model and usage are the response's.
   */
  lemma MessageReads(r: Response)
    requires ToMessage(r).Ok?
    ensures var m := ToMessage(r).value;
      && Answer(m) == Gather.Gather(ItemAnswer, Output(r)) && Thoughts(m) == Gather.Gather(ItemReasoning, Output(r))
      && Tools(m) == Gather.Gather(ItemTool, Output(r)) && Worthwhile(m.content)
      && m.id == r.id && m.model == r.model && m.usage == MapUsage(r.usage)
  {
    ItemsRead(Output(r));
  }

  // ---------------------------------------------------------- why it stopped

  /** The response says that it is incomplete for a reason that leaves a message. */
  predicate CutShort(r: Response) {
    r.status == Incomplete && (r.incompleteReason == Some(OutputLimit) || r.incompleteReason == Some(ContentFilter))
  }

  /** A response gives a message if and only if it reports no error, has ended or was cut
      short, and calls no function without id or name. */
  lemma GivesAMessageIff(r: Response)
    ensures ToMessage(r).Ok? <==>
      && r.error.None? && (r.status == Completed || CutShort(r))
      && !(exists i :: 0 <= i < |Output(r)| && Nameless(Output(r)[i]))
  {
    OutputFailsIff(Output(r));
  }

  /** What an unusable response is refused for. */
  lemma RefusedFor(r: Response)
    ensures r.error.Some? <==> ToMessage(r).Err? && ToMessage(r).error.Reported?
    ensures r.error.Some? ==> ToMessage(r) == Err(Reported(r.error.value))
    ensures ToMessage(r) == Err(UnexpectedStatus) <==> r.error.None? && r.status.OtherStatus?
    ensures ToMessage(r) == Err(IncompleteWithoutReason) ==> r.status == Incomplete && r.incompleteReason.None?
    ensures ToMessage(r).Err? && ToMessage(r).error.IncompleteBecause? ==>
              r.status == Incomplete && r.incompleteReason == Some(OtherReason(ToMessage(r).error.name))
    ensures ToMessage(r) == Err(NamelessCall) ==> exists i :: 0 <= i < |Output(r)| && Nameless(Output(r)[i])
  {
    OutputFailsIff(Output(r));
  }

  /** A response cut short stops for its reason whatever it holds; a complete one as its
      last refusal or call says, or else at the end of the turn. */
  lemma StopsFor(r: Response)
    requires ToMessage(r).Ok?
    ensures var stop := ToMessage(r).value.stop;
      && (r.status == Incomplete && r.incompleteReason == Some(OutputLimit) ==> stop == MaxTokens)
      && (r.status == Incomplete && r.incompleteReason == Some(ContentFilter) ==> stop == Refused)
      && (r.status == Completed ==>
            && ((forall j :: 0 <= j < |Output(r)| ==> !Decides(Output(r)[j])) ==> stop == EndTurn)
            && (forall i :: 0 <= i < |Output(r)| && Decides(Output(r)[i]) && (forall j :: i < j < |Output(r)| ==> !Decides(Output(r)[j])) ==>
                  stop == if Output(r)[i].kind == FunctionCallItem then ToolCalls else Refused))
  {
    var items := Output(r);
    if forall j :: 0 <= j < |items| ==> !Decides(items[j]) {
      NoneDecides(items);
    }
    forall i | 0 <= i < |items| && Decides(items[i]) && (forall j :: i < j < |items| ==> !Decides(items[j]))
      ensures AddsAll(items).value.stop == Some(if items[i].kind == FunctionCallItem then ToolCalls else Refused)
    {
      LastDecides(items, i);
    }
  }

  // ------------------------------------------------------------- the stream

  /** Nothing before event i has failed or ended the stream. */
  predicate StillOpen(events: seq<Event>, i: nat)
    requires i <= |events|
  {
    Fold(events[..i]).Ok? && !Fold(events[..i]).value.terminal
  }

  /** The response of the first terminal event decides, with the streamed items standing in
      only for an omitted output. */
  lemma TerminalDecides(events: seq<Event>, i: nat)
    requires i < |events| && StillOpen(events, i) && events[i].Terminal? && events[i].response.Some?
    ensures var told := events[i].response.value;
      var items := if told.output.Some? then told.output.value else InOrder(Fold(events[..i]).value.items);
      Consumed(events) == ToMessage(told.(output := Some(items)))
      || (told.output.Some? && Consumed(events) == ToMessage(told))
  {
    assert events[..i + 1][..i] == events[..i];
    FoldStops(events, i + 1);
  }

  /** How a stream stops that ends with this event. */
  lemma StreamStopsFor(events: seq<Event>, i: nat)
    requires i < |events| && StillOpen(events, i) && events[i].Terminal? && events[i].response.Some?
    ensures var told := events[i].response.value;
      && (Consumed(events).Ok? ==> told.error.None? && (told.status == Completed || CutShort(told)))
      && (Consumed(events).Ok? ==> Consumed(events).value.id == told.id && Consumed(events).value.model == told.model)
      && (Consumed(events).Ok? && told.status == Incomplete ==>
            && (told.incompleteReason == Some(OutputLimit) ==> Consumed(events).value.stop == MaxTokens)
            && (told.incompleteReason == Some(ContentFilter) ==> Consumed(events).value.stop == Refused))
      && (told.error.Some? ==> Consumed(events) == Err(Reported(told.error.value)))
  {
    TerminalDecides(events, i);
  }

  /** An event that says that the stream failed, or that makes no sense, ends it with an
      error that repeats what was said. */
  lemma FailureEndsTheStream(events: seq<Event>, i: nat)
    requires i < |events| && StillOpen(events, i)
    ensures events[i].ErrorEvent? || events[i].FailedEvent? ==> Consumed(events) == Err(StreamFailure(events[i].message))
    ensures events[i].Malformed? || (events[i].Terminal? && events[i].response.None?) ==> Consumed(events).Err?
    ensures (events[i].ArgumentsDelta? || events[i].ArgumentsDone? || events[i].PartEvent?) ==>
              events[i].index !in Fold(events[..i]).value.items ==> Consumed(events).Err?
    ensures events[i].PartEvent? && !(0 <= events[i].place.index <= 100_000) ==> Consumed(events).Err?
  {
    assert events[..i + 1][..i] == events[..i];
    if Fold(events[..i + 1]).Err? {
      FoldStops(events, i + 1);
    }
  }

  /** Every other event leaves the stream open. */
  lemma OtherEventsGoOn(events: seq<Event>, i: nat)
    requires i < |events| && StillOpen(events, i)
    requires
      || events[i].DoneMark? || events[i].Other? || events[i].Announced? || events[i].ItemEvent?
      || ((events[i].ArgumentsDelta? || events[i].ArgumentsDone?) && events[i].index in Fold(events[..i]).value.items)
      || (events[i].PartEvent? && events[i].index in Fold(events[..i]).value.items && 0 <= events[i].place.index <= 100_000)
    ensures StillOpen(events, i + 1)
  {
    assert events[..i + 1][..i] == events[..i];
  }

  /** A stream that is cut off before a terminal event gives no message. */
  lemma CutOffIsAnError(events: seq<Event>)
    requires StillOpen(events, |events|)
    ensures Consumed(events).Err?
  {
    assert events[..|events|] == events;
  }
}
