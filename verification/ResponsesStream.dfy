/**
 Accumulating a Responses event stream, internal/anthropic/responses.go
 (consumeResponsesStream): what the handler does with each event, and the loop that
 feeds it. Events are already decoded; an event type of another name is Other.
 */
module ResponsesStream {
  import opened ResponsesMessage
  import opened Sorting
  import opened Wire
  import opened Wrappers

  /** Which part of an item an event is about. */
  datatype Place = ContentAt(index: int) | SummaryAt(index: int)

  datatype Growth = Snapshot | TextDelta | RefusalDelta | ReasoningDelta

  datatype Event =
    | DoneMark
    | Malformed
    | ErrorEvent(message: string)
    | FailedEvent(message: string)
    | Announced(response: Option<Response>)
    | Terminal(response: Option<Response>)
    | ItemEvent(index: int, item: Option<Item>)
    | ArgumentsDelta(index: int, delta: string)
    | ArgumentsDone(index: int, arguments: string)
    | PartEvent(index: int, place: Place, part: Option<Part>, growth: Growth, delta: string)
    | Other

  datatype Acc = Acc(items: map<int, Item>, result: Response, terminal: bool)

  const EMPTY_PART := Part(OtherPart(""), "", "", "")

  const EMPTY_RESPONSE := Response("", "", OtherStatus(""), None, None, None, None)

  const MAX_INDEX := 100_000

  const START := Acc(map[], EMPTY_RESPONSE, false)

  function Padded(parts: seq<Part>, index: nat): seq<Part> {
    if index < |parts| then parts else parts + seq(index + 1 - |parts|, _ => EMPTY_PART)
  }

  function Grown(p: Part, growth: Growth, delta: string): Part {
    match growth
    case Snapshot => p
    case TextDelta => p.(kind := OutputText, text := p.text + delta)
    case RefusalDelta => p.(kind := RefusalPart, refusal := p.refusal + delta)
    case ReasoningDelta => p.(kind := SummaryText, text := p.text + delta)
  }

  function PartAfter(p: Part, part: Option<Part>, growth: Growth, delta: string): Part {
    Grown(if part.Some? then part.value else p, growth, delta)
  }

  function PartsAfter(parts: seq<Part>, index: nat, part: Option<Part>, growth: Growth, delta: string): seq<Part> {
    var padded := Padded(parts, index);
    padded[index := PartAfter(padded[index], part, growth, delta)]
  }

  predicate AboutItem(e: Event) {
    e.ItemEvent? || e.ArgumentsDelta? || e.ArgumentsDone? || e.PartEvent?
  }

  /** What an item event does to the item at its index. */
  function Act(current: Option<Item>, e: Event): Result<Option<Item>, Failure>
    requires AboutItem(e)
  {
    if e.ItemEvent? then Ok(if e.item.Some? then e.item else current)
    else match current {
      case None => Err(StreamFailure("unknown output item"))
      case Some(item) =>
        if e.ArgumentsDelta? then Ok(Some(item.(arguments := item.arguments + e.delta)))
        else if e.ArgumentsDone? then Ok(Some(item.(arguments := e.arguments)))
        else if e.place.index < 0 || e.place.index > MAX_INDEX then Err(StreamFailure("invalid content index"))
        else if e.place.ContentAt? then
          Ok(Some(item.(content := PartsAfter(item.content, e.place.index, e.part, e.growth, e.delta))))
        else
          Ok(Some(item.(summary := PartsAfter(item.summary, e.place.index, e.part, e.growth, e.delta))))
    }
  }

  function At(items: map<int, Item>, index: int): Option<Item> {
    if index in items then Some(items[index]) else None
  }

  function Handle(acc: Acc, e: Event): Result<Acc, Failure> {
    if AboutItem(e) then
      match Act(At(acc.items, e.index), e)
      case Err(failure) => Err(failure)
      case Ok(None) => Ok(acc)
      case Ok(Some(item)) => Ok(acc.(items := acc.items[e.index := item]))
    else match e {
      case Malformed => Err(StreamFailure("decode responses stream event"))
      case ErrorEvent(message) => Err(StreamFailure(message))
      case FailedEvent(message) => Err(StreamFailure(message))
      case Announced(response) => Ok(if response.Some? then acc.(result := response.value) else acc)
      case Terminal(response) =>
        if response.None? then Err(StreamFailure("terminal event missing response"))
        else Ok(acc.(result := response.value, terminal := true))
      case _ => Ok(acc)
    }
  }

  /** Everything after a terminal event is left unread. */
  function Fold(events: seq<Event>): Result<Acc, Failure> {
    if events == [] then Ok(START)
    else
      match Fold(events[..|events| - 1])
      case Err(failure) => Err(failure)
      case Ok(acc) => if acc.terminal then Ok(acc) else Handle(acc, events[|events| - 1])
  }

  /** The items at these indices. */
  function Pick(items: map<int, Item>, keys: seq<int>): seq<Item>
    requires Members(keys) <= items.Keys
  {
    if keys == [] then []
    else
      var n := |keys| - 1;
      MembersSnoc(keys);
      assert keys[n] in Members(keys);
      Pick(items, keys[..n]) + [items[keys[n]]]
  }

  /** The items in the order of their indices. */
  ghost function InOrder(items: map<int, Item>): seq<Item> {
    AscendingHas(items.Keys);
    Pick(items, Ascending(items.Keys))
  }

  /** The terminal response, with streamed items standing in for an omitted output. */
  ghost function Filled(acc: Acc): Response {
    if acc.result.output.Some? then acc.result else acc.result.(output := Some(InOrder(acc.items)))
  }

  ghost function Consumed(events: seq<Event>): Result<Message, Failure> {
    match Fold(events)
    case Err(failure) => Err(failure)
    case Ok(acc) =>
      if !acc.terminal then Err(StreamFailure("ended before a terminal event")) else ToMessage(Filled(acc))
  }

  ghost predicate Picks(items: map<int, Item>, keys: seq<int>, picked: seq<Item>) {
    |picked| == |keys| && forall i :: 0 <= i < |keys| ==> keys[i] in items && picked[i] == items[keys[i]]
  }

  lemma {:induction false} PickIs(items: map<int, Item>, keys: seq<int>, picked: seq<Item>)
    requires Members(keys) <= items.Keys && Picks(items, keys, picked)
    ensures picked == Pick(items, keys)
  {
    if keys != [] {
      var n := |keys| - 1;
      MembersSnoc(keys);
      PickIs(items, keys[..n], picked[..n]);
      assert picked == picked[..n] + [picked[n]];
    }
  }

  lemma SortedIsInOrder(items: map<int, Item>, keys: seq<int>, picked: seq<Item>)
    requires Increasing(keys) && Members(keys) == items.Keys && Picks(items, keys, picked)
    ensures picked == InOrder(items)
  {
    AscendingIsUnique(keys);
    PickIs(items, keys, picked);
  }

  /** One event about an item: the list grows to the index, then the part changes. */
  method UpdateParts(parts: seq<Part>, index: nat, part: Option<Part>, growth: Growth, delta: string) returns (r: seq<Part>)
    ensures r == PartsAfter(parts, index, part, growth, delta)
  {
    r := parts;
    while |r| <= index
      invariant |parts| <= |r| && (|parts| > index ==> r == parts)
      invariant |parts| <= index ==> |r| <= index + 1
      invariant r == parts + seq(|r| - |parts|, _ => EMPTY_PART)
      decreases index + 1 - |r|
    {
      r := r + [EMPTY_PART];
    }
    assert |parts| <= index ==> |r| == index + 1;
    assert r == Padded(parts, index);
    var p := r[index];
    if part.Some? {
      p := part.value;
    }
    match growth {
      case Snapshot =>
      case TextDelta => p := p.(kind := OutputText, text := p.text + delta);
      case RefusalDelta => p := p.(kind := RefusalPart, refusal := p.refusal + delta);
      case ReasoningDelta => p := p.(kind := SummaryText, text := p.text + delta);
    }
    r := r[index := p];
  }

  method GrowPart(item: Item, place: Place, part: Option<Part>, growth: Growth, delta: string) returns (r: Item)
    requires 0 <= place.index
    ensures r == if place.ContentAt? then item.(content := PartsAfter(item.content, place.index, part, growth, delta))
                 else item.(summary := PartsAfter(item.summary, place.index, part, growth, delta))
  {
    if place.ContentAt? {
      var parts := UpdateParts(item.content, place.index, part, growth, delta);
      r := item.(content := parts);
    } else {
      var parts := UpdateParts(item.summary, place.index, part, growth, delta);
      r := item.(summary := parts);
    }
  }

  /** The loop's next event: it is handled, and a failure ends the stream. */
  lemma FoldSteps(events: seq<Event>, i: nat, acc: Acc)
    requires i < |events| && Fold(events[..i]) == Ok(acc) && !acc.terminal
    ensures Fold(events[..i + 1]) == Handle(acc, events[i])
    ensures Handle(acc, events[i]).Err? ==> Consumed(events) == Err(Handle(acc, events[i]).error)
  {
    assert events[..i + 1][..i] == events[..i];
    if Handle(acc, events[i]).Err? {
      FoldStops(events, i + 1);
    }
  }

  method ConsumeResponsesStream(events: seq<Event>) returns (r: Result<Message, Failure>)
    ensures r == Consumed(events)
  {
    var items: map<int, Item> := map[];
    var result, terminal := EMPTY_RESPONSE, false;
    var i := 0;
    while i < |events| && !terminal
      invariant i <= |events|
      invariant Fold(events[..i]) == Ok(Acc(items, result, terminal))
      decreases |events| - i
    {
      FoldSteps(events, i, Acc(items, result, terminal));
      match events[i] {
        case DoneMark =>
        case Other =>
        case Malformed => return Err(StreamFailure("decode responses stream event"));
        case ErrorEvent(message) => return Err(StreamFailure(message));
        case FailedEvent(message) => return Err(StreamFailure(message));
        case Announced(response) =>
          if response.Some? {
            result := response.value;
          }
        case Terminal(response) =>
          if response.None? {
            return Err(StreamFailure("terminal event missing response"));
          }
          result, terminal := response.value, true;
        case ItemEvent(index, item) =>
          if item.Some? {
            items := items[index := item.value];
          } else {
            assert index in items ==> items[index := items[index]] == items;
          }
        case ArgumentsDelta(index, delta) =>
          if index !in items {
            return Err(StreamFailure("unknown output item"));
          }
          items := items[index := items[index].(arguments := items[index].arguments + delta)];
        case ArgumentsDone(index, arguments) =>
          if index !in items {
            return Err(StreamFailure("unknown output item"));
          }
          items := items[index := items[index].(arguments := arguments)];
        case PartEvent(index, place, part, growth, delta) =>
          if index !in items {
            return Err(StreamFailure("unknown output item"));
          }
          if place.index < 0 || place.index > MAX_INDEX {
            return Err(StreamFailure("invalid content index"));
          }
          var item := GrowPart(items[index], place, part, growth, delta);
          items := items[index := item];
      }
      i := i + 1;
    }
    if terminal {
      FoldStops(events, i);
    } else {
      assert i == |events|;
      assert events[..i] == events;
      return Err(StreamFailure("ended before a terminal event"));
    }
    if result.output.None? {
      var output := CollectItems(items);
      result := result.(output := Some(output));
    }
    r := ResponsesToMessage(result);
  }

  method CollectItems(items: map<int, Item>) returns (output: seq<Item>)
    ensures output == InOrder(items)
  {
    var indices := Sort(items.Keys);
    output := [];
    assert forall j :: 0 <= j < |indices| ==> indices[j] in Members(indices);
    for i := 0 to |indices|
      invariant |output| == i && forall j :: 0 <= j < i ==> output[j] == items[indices[j]]
    {
      output := output + [items[indices[i]]];
    }
    SortedIsInOrder(items, indices, output);
  }

  /** Once the stream has failed or ended, later events change nothing. */
  lemma {:induction false} FoldStops(events: seq<Event>, n: nat)
    requires n <= |events|
    requires Fold(events[..n]).Err? || Fold(events[..n]).value.terminal
    ensures Fold(events) == Fold(events[..n])
    decreases |events|
  {
    if n == |events| {
      assert events[..n] == events;
    } else {
      var m := |events| - 1;
      assert events[..m][..n] == events[..n];
      FoldStops(events[..m], n);
    }
  }
}
