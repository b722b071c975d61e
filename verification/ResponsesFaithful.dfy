/**
 Streams that faithfully report an output: each item announced, its parts and arguments
 spelled out in pieces, snapshots optional, items and parts interleaved at will. However
 such a stream is cut up and ordered, its message is the one the full output gives.
 */
module ResponsesFaithful {
  import opened ResponsesMessage
  import opened ResponsesStream
  import opened Sorting
  import opened Strings
  import opened Wire
  import opened Wrappers

  /** The events about item k, in order. */
  function About(events: seq<Event>, k: int): seq<Event> {
    if events == [] then []
    else
      var e := events[|events| - 1];
      About(events[..|events| - 1], k) + (if AboutItem(e) && e.index == k then [e] else [])
  }

  /** One item's own story. */
  function Story(events: seq<Event>): Result<Option<Item>, Failure>
    requires forall e <- events :: AboutItem(e)
  {
    if events == [] then Ok(None)
    else
      match Story(events[..|events| - 1])
      case Err(failure) => Err(failure)
      case Ok(item) => Act(item, events[|events| - 1])
  }

  lemma {:induction false} AboutIsAboutItems(events: seq<Event>, k: int)
    ensures forall e <- About(events, k) :: AboutItem(e) && e.index == k
  {
    if events != [] {
      AboutIsAboutItems(events[..|events| - 1], k);
    }
  }

  function StoryOf(events: seq<Event>, k: int): Result<Option<Item>, Failure> {
    AboutIsAboutItems(events, k);
    Story(About(events, k))
  }

  /** Neither an end nor an error of its own. */
  predicate Quiet(e: Event) {
    AboutItem(e) || e.DoneMark? || e.Other? || e.Announced?
  }

  lemma StorySnoc(events: seq<Event>, k: int)
    requires events != []
    ensures var e, before := events[|events| - 1], StoryOf(events[..|events| - 1], k);
      StoryOf(events, k) ==
      if AboutItem(e) && e.index == k && before.Ok? then Act(before.value, e) else before
  {
    AboutIsAboutItems(events, k);
    AboutIsAboutItems(events[..|events| - 1], k);
    var e := events[|events| - 1];
    var before := About(events[..|events| - 1], k);
    if AboutItem(e) && e.index == k {
      assert About(events, k) == before + [e];
      assert (before + [e])[..|before|] == before;
    } else {
      assert About(events, k) == before;
    }
  }

  /**
   Items do not disturb each other: after any interleaving every item is what its own
   events make of it, and the stream fails only if one of these stories fails.
   */
  lemma {:induction false} Interleaved(events: seq<Event>)
    requires forall e <- events :: Quiet(e)
    requires forall k :: StoryOf(events, k).Ok?
    ensures Fold(events).Ok? && !Fold(events).value.terminal
    ensures forall k :: At(Fold(events).value.items, k) == StoryOf(events, k).value
  {
    if events == [] {
    } else {
      var before, e := events[..|events| - 1], events[|events| - 1];
      forall k ensures StoryOf(before, k).Ok? {
        StorySnoc(events, k);
      }
      Interleaved(before);
      assert Quiet(e);
      if AboutItem(e) {
        StorySnoc(events, e.index);
        assert At(Fold(before).value.items, e.index) == StoryOf(before, e.index).value;
      }
      forall k ensures At(Fold(events).value.items, k) == StoryOf(events, k).value {
        StorySnoc(events, k);
        assert At(Fold(before).value.items, k) == StoryOf(before, k).value;
      }
    }
  }

  /** How one part is spelled: perhaps an empty snapshot, pieces, perhaps the final snapshot. */
  datatype Spelling = Spelling(added: bool, pieces: seq<string>, done: bool)

  function Cleared(p: Part): Part { p.(text := "", refusal := "") }

  function GrowthFor(p: Part): Growth {
    match p.kind
    case OutputText => TextDelta
    case RefusalPart => RefusalDelta
    case _ => ReasoningDelta
  }

  function Spoken(p: Part): string {
    if p.kind == RefusalPart then p.refusal else p.text
  }

  function Pieces(k: int, place: Place, growth: Growth, pieces: seq<string>): seq<Event> {
    if pieces == [] then []
    else Pieces(k, place, growth, pieces[..|pieces| - 1]) + [PartEvent(k, place, None, growth, pieces[|pieces| - 1])]
  }

  function SpelledOut(k: int, place: Place, p: Part, s: Spelling): seq<Event> {
    (if s.added then [PartEvent(k, place, Some(Cleared(p)), Snapshot, "")] else [])
    + Pieces(k, place, GrowthFor(p), s.pieces)
    + (if s.done then [PartEvent(k, place, Some(p), Snapshot, "")] else [])
  }

  /** A part that deltas alone can convey. */
  predicate Streamable(kind: ItemKind, place: Place, p: Part) {
    && p.imageUrl == ""
    && match p.kind {
         case OutputText => p.refusal == ""
         case RefusalPart => p.text == ""
         case SummaryText => p.refusal == ""
         case OtherPart(_) => p.refusal == "" && kind == ReasoningItem && place.ContentAt?
         case _ => false
       }
  }

  predicate Spells(kind: ItemKind, place: Place, p: Part, s: Spelling) {
    && (s.added || s.pieces != [] || s.done)
    && (s.done || (Streamable(kind, place, p) && Concat(s.pieces) == Spoken(p)))
  }

  /** Streaming may relabel the reasoning text of a reasoning item, nothing else. */
  predicate SamePart(kind: ItemKind, place: Place, p: Part, q: Part) {
    if kind == ReasoningItem && place.ContentAt? then p.text == q.text else p == q
  }

  /** What a part's own events make of it. */
  function PartStory(events: seq<Event>): Part {
    if events == [] then EMPTY_PART
    else
      var e, before := events[|events| - 1], PartStory(events[..|events| - 1]);
      if e.PartEvent? then PartAfter(before, e.part, e.growth, e.delta) else before
  }

  lemma PartStorySnoc(events: seq<Event>, e: Event)
    requires e.PartEvent?
    ensures PartStory(events + [e]) == PartAfter(PartStory(events), e.part, e.growth, e.delta)
  {
    assert (events + [e])[..|events|] == events;
  }

  /** What the pieces make of a part that starts out without text. */
  lemma {:induction false} PiecesSpell(start: seq<Event>, k: int, place: Place, growth: Growth, pieces: seq<string>)
    requires growth != Snapshot
    ensures PartStory(start + Pieces(k, place, growth, pieces)) ==
            if pieces == [] then PartStory(start) else Grown(PartStory(start), growth, Concat(pieces))
  {
    if pieces == [] {
      assert start + Pieces(k, place, growth, pieces) == start;
    } else {
      var before, last := pieces[..|pieces| - 1], pieces[|pieces| - 1];
      var sofar, e := start + Pieces(k, place, growth, before), PartEvent(k, place, None, growth, last);
      PiecesSpell(start, k, place, growth, before);
      assert start + Pieces(k, place, growth, pieces) == sofar + [e];
      PartStorySnoc(sofar, e);
      if before == [] {
        assert Concat(pieces) == last;
      } else {
        GrownTwice(PartStory(start), growth, Concat(before), last);
      }
    }
  }

  lemma GrownTwice(p: Part, growth: Growth, a: string, b: string)
    requires growth != Snapshot
    ensures Grown(Grown(p, growth, a), growth, b) == Grown(p, growth, a + b)
  {
    assert (p.text + a) + b == p.text + (a + b);
    assert (p.refusal + a) + b == p.refusal + (a + b);
  }

  /** However a part is spelled, it ends as the part. */
  lemma SpellingIsExact(kind: ItemKind, k: int, place: Place, p: Part, s: Spelling)
    requires Spells(kind, place, p, s)
    ensures SamePart(kind, place, p, PartStory(SpelledOut(k, place, p, s)))
  {
    var added := if s.added then [PartEvent(k, place, Some(Cleared(p)), Snapshot, "")] else [];
    var pieces := Pieces(k, place, GrowthFor(p), s.pieces);
    PiecesSpell(added, k, place, GrowthFor(p), s.pieces);
    if s.done {
      var e := PartEvent(k, place, Some(p), Snapshot, "");
      assert SpelledOut(k, place, p, s) == (added + pieces) + [e];
      PartStorySnoc(added + pieces, e);
    } else {
      assert SpelledOut(k, place, p, s) == added + pieces;
      assert PartStory(added) == if s.added then Cleared(p) else EMPTY_PART;
    }
  }

  /** An event between an item's announcement and its final snapshot. */
  predicate BodyEvent(e: Event) {
    e.ArgumentsDelta? || e.ArgumentsDone? || (e.PartEvent? && 0 <= e.place.index <= MAX_INDEX)
  }

  function Parts(item: Item, place: Place): seq<Part> {
    if place.ContentAt? then item.content else item.summary
  }

  function PartOf(item: Item, place: Place): Part {
    if 0 <= place.index < |Parts(item, place)| then Parts(item, place)[place.index] else EMPTY_PART
  }

  function AtPlace(events: seq<Event>, place: Place): seq<Event> {
    if events == [] then []
    else
      var e := events[|events| - 1];
      AtPlace(events[..|events| - 1], place) + (if e.PartEvent? && e.place == place then [e] else [])
  }

  function ArgumentsAfter(start: string, events: seq<Event>): string {
    if events == [] then start
    else
      var e, before := events[|events| - 1], ArgumentsAfter(start, events[..|events| - 1]);
      if e.ArgumentsDelta? then before + e.delta
      else if e.ArgumentsDone? then e.arguments
      else before
  }

  /** The item after its body events. */
  function BodyItem(skeleton: Item, body: seq<Event>): Item
    requires forall e <- body :: BodyEvent(e)
  {
    if body == [] then skeleton
    else
      assert BodyEvent(body[|body| - 1]);
      Act(Some(BodyItem(skeleton, body[..|body| - 1])), body[|body| - 1]).value.value
  }

  lemma AtPlaceSnoc(events: seq<Event>, place: Place)
    requires events != []
    ensures var before, e := AtPlace(events[..|events| - 1], place), events[|events| - 1];
      AtPlace(events, place) == if e.PartEvent? && e.place == place then before + [e] else before
  {
  }

  /** One body event changes one part and leaves the others; lists only grow. */
  lemma ActOnParts(item: Item, e: Event, place: Place)
    requires BodyEvent(e) && 0 <= place.index
    ensures var after := Act(Some(item), e).value.value;
      && PartOf(after, place) == (if e.PartEvent? && e.place == place then PartAfter(PartOf(item, place), e.part, e.growth, e.delta) else PartOf(item, place))
      && |Parts(item, place)| <= |Parts(after, place)|
      && (e.PartEvent? && e.place == place ==> place.index < |Parts(after, place)|)
      && (e.PartEvent? && e.place.ContentAt? == place.ContentAt? && |Parts(after, place)| != |Parts(item, place)| ==> |Parts(after, place)| == e.place.index + 1)
      && (!e.PartEvent? || e.place.ContentAt? != place.ContentAt? ==> Parts(after, place) == Parts(item, place))
  {
  }

  /** Parts do not disturb each other: each is what its own events make of it. */
  lemma {:induction false} PartsInterleaved(skeleton: Item, body: seq<Event>, place: Place)
    requires forall e <- body :: BodyEvent(e)
    requires 0 <= place.index && Parts(skeleton, place) == []
    ensures PartOf(BodyItem(skeleton, body), place) == PartStory(AtPlace(body, place))
    ensures AtPlace(body, place) != [] ==> place.index < |Parts(BodyItem(skeleton, body), place)|
  {
    if body != [] {
      var before, e := body[..|body| - 1], body[|body| - 1];
      assert BodyEvent(e);
      PartsInterleaved(skeleton, before, place);
      ActOnParts(BodyItem(skeleton, before), e, place);
      if e.PartEvent? && e.place == place {
        PartStorySnoc(AtPlace(before, place), e);
      }
      AtPlaceSnoc(body, place);
    }
  }

  /** A list of parts never grows past the places that events name. */
  lemma {:induction false} PartsBounded(skeleton: Item, body: seq<Event>, place: Place, n: nat)
    requires forall e <- body :: BodyEvent(e)
    requires forall e <- body :: e.PartEvent? && e.place.ContentAt? == place.ContentAt? ==> e.place.index < n
    requires 0 <= place.index && Parts(skeleton, place) == []
    ensures |Parts(BodyItem(skeleton, body), place)| <= n
  {
    if body != [] {
      var before, e := body[..|body| - 1], body[|body| - 1];
      assert BodyEvent(e);
      PartsBounded(skeleton, before, place, n);
      ActOnParts(BodyItem(skeleton, before), e, place);
    }
  }

  /** Everything but parts and arguments comes from the announcement. */
  lemma {:induction false} BodyKeepsTheRest(skeleton: Item, body: seq<Event>)
    requires forall e <- body :: BodyEvent(e)
    ensures var item := BodyItem(skeleton, body);
      && item.id == skeleton.id && item.kind == skeleton.kind && item.callId == skeleton.callId
      && item.name == skeleton.name && item.encrypted == skeleton.encrypted
      && item.arguments == ArgumentsAfter(skeleton.arguments, body)
  {
    if body != [] {
      assert BodyEvent(body[|body| - 1]);
      BodyKeepsTheRest(skeleton, body[..|body| - 1]);
    }
  }

  /** The story of an item: announced, body, perhaps a final snapshot. */
  datatype Report = Report(skeleton: Item, body: seq<Event>, content: seq<Spelling>, summary: seq<Spelling>, done: bool)

  function Reporting(k: int, item: Item, r: Report): seq<Event> {
    [ItemEvent(k, Some(r.skeleton))] + r.body + (if r.done then [ItemEvent(k, Some(item))] else [])
  }

  function Spellings(r: Report, place: Place): seq<Spelling> {
    if place.ContentAt? then r.content else r.summary
  }

  /** Without a final snapshot the pieces must add up to the item. */
  ghost predicate Adequate(k: int, item: Item, r: Report) {
    && r.skeleton == item.(content := [], summary := [], arguments := "")
    && ArgumentsAfter("", r.body) == item.arguments
    && PlacesAdequate(k, item, r)
  }

  ghost predicate PlacesAdequate(k: int, item: Item, r: Report) {
    && |r.content| == |item.content| && |r.summary| == |item.summary|
    && (forall e <- r.body :: e.PartEvent? ==> e.place.index < |Parts(item, e.place)|)
    && (forall place: Place :: 0 <= place.index < |Parts(item, place)| ==>
          && AtPlace(r.body, place) == SpelledOut(k, place, Parts(item, place)[place.index], Spellings(r, place)[place.index])
          && Spells(item.kind, place, Parts(item, place)[place.index], Spellings(r, place)[place.index]))
  }

  ghost predicate Faithful(k: int, item: Item, r: Report) {
    && (forall e <- r.body :: BodyEvent(e) && e.index == k)
    && (r.done || Adequate(k, item, r))
  }

  predicate SameParts(kind: ItemKind, content: bool, a: seq<Part>, b: seq<Part>) {
    |a| == |b| && forall i :: 0 <= i < |a| ==> SamePart(kind, if content then ContentAt(i) else SummaryAt(i), a[i], b[i])
  }

  /** Equal, but for the labels of reasoning text. */
  predicate SameItem(a: Item, b: Item) {
    && b == a.(content := b.content, summary := b.summary)
    && SameParts(a.kind, true, a.content, b.content) && SameParts(a.kind, false, a.summary, b.summary)
  }

  lemma PlaceIsExact(k: int, item: Item, r: Report, place: Place)
    requires Faithful(k, item, r) && !r.done && 0 <= place.index < |Parts(item, place)|
    ensures place.index < |Parts(BodyItem(r.skeleton, r.body), place)|
    ensures SamePart(item.kind, place, Parts(item, place)[place.index], Parts(BodyItem(r.skeleton, r.body), place)[place.index])
  {
    PartsInterleaved(r.skeleton, r.body, place);
    SpellingIsExact(item.kind, k, place, Parts(item, place)[place.index], Spellings(r, place)[place.index]);
  }

  lemma PartsAreExact(k: int, item: Item, r: Report, content: bool)
    requires Faithful(k, item, r) && !r.done
    ensures var p := if content then ContentAt(0) else SummaryAt(0);
      SameParts(item.kind, content, Parts(item, p), Parts(BodyItem(r.skeleton, r.body), p))
  {
    var p := if content then ContentAt(0) else SummaryAt(0);
    var whole, streamed := Parts(item, p), Parts(BodyItem(r.skeleton, r.body), p);
    forall i | 0 <= i < |whole|
      ensures i < |streamed| && SamePart(item.kind, if content then ContentAt(i) else SummaryAt(i), whole[i], streamed[i])
    {
      PlaceIsExact(k, item, r, if content then ContentAt(i) else SummaryAt(i));
    }
    PartsBounded(r.skeleton, r.body, p, |whole|);
    if whole != [] {
      PlaceIsExact(k, item, r, if content then ContentAt(|whole| - 1) else SummaryAt(|whole| - 1));
    }
  }

  lemma {:induction false} StoryOfBody(k: int, skeleton: Item, body: seq<Event>)
    requires forall e <- body :: BodyEvent(e)
    ensures forall e <- [ItemEvent(k, Some(skeleton))] + body :: AboutItem(e)
    ensures Story([ItemEvent(k, Some(skeleton))] + body) == Ok(Some(BodyItem(skeleton, body)))
  {
    var first := [ItemEvent(k, Some(skeleton))];
    if body == [] {
      assert first + body == first;
      assert first[..0] == [];
    } else {
      var before := body[..|body| - 1];
      StoryOfBody(k, skeleton, before);
      assert (first + body)[..|first + body| - 1] == first + before;
      assert BodyEvent(body[|body| - 1]);
    }
  }

  /** A faithful report leaves the item, up to the labels of reasoning text. */
  lemma ReportIsExact(k: int, item: Item, r: Report)
    requires Faithful(k, item, r)
    ensures forall e <- Reporting(k, item, r) :: AboutItem(e)
    ensures var story := Story(Reporting(k, item, r)); story.Ok? && story.value.Some? && SameItem(item, story.value.value)
  {
    var told := [ItemEvent(k, Some(r.skeleton))] + r.body;
    StoryOfBody(k, r.skeleton, r.body);
    if r.done {
      var all := Reporting(k, item, r);
      assert all == told + [ItemEvent(k, Some(item))];
      assert all[..|all| - 1] == told;
    } else {
      assert Reporting(k, item, r) == told;
      BodyKeepsTheRest(r.skeleton, r.body);
      PartsAreExact(k, item, r, true);
      PartsAreExact(k, item, r, false);
    }
  }

  lemma {:induction false} SameTexts(a: seq<Part>, b: seq<Part>)
    requires |a| == |b| && forall i :: 0 <= i < |a| ==> a[i].text == b[i].text
    ensures Joined(a) == Joined(b)
  {
    if a != [] {
      SameTexts(a[..|a| - 1], b[..|b| - 1]);
    }
  }

  /** The labels of reasoning text do not reach the message. */
  lemma SameItemsAddTheSame(a: Item, b: Item)
    requires SameItem(a, b)
    ensures Adds(a) == Adds(b)
  {
    assert a.summary == b.summary;
    if a.kind == ReasoningItem {
      SameTexts(a.content, b.content);
    } else {
      assert a.content == b.content;
    }
  }

  lemma {:induction false} SameOutputsAddTheSame(a: seq<Item>, b: seq<Item>)
    requires |a| == |b| && forall i :: 0 <= i < |a| ==> SameItem(a[i], b[i])
    ensures AddsAll(a) == AddsAll(b)
  {
    if a != [] {
      SameOutputsAddTheSame(a[..|a| - 1], b[..|b| - 1]);
      SameItemsAddTheSame(a[|a| - 1], b[|b| - 1]);
    }
  }

  /** A stream whose events about item k report item k, and that speaks of no other item. */
  ghost predicate FaithfulStream(events: seq<Event>, output: seq<Item>, reports: seq<Report>) {
    && |reports| == |output|
    && (forall e <- events :: Quiet(e))
    && (forall k :: About(events, k) == if 0 <= k < |output| then Reporting(k, output[k], reports[k]) else [])
    && (forall k :: 0 <= k < |output| ==> Faithful(k, output[k], reports[k]))
  }

  lemma StreamedItem(events: seq<Event>, output: seq<Item>, reports: seq<Report>, k: int)
    requires FaithfulStream(events, output, reports)
    ensures StoryOf(events, k).Ok?
    ensures 0 <= k < |output| <==> StoryOf(events, k).value.Some?
    ensures 0 <= k < |output| ==> SameItem(output[k], StoryOf(events, k).value.value)
  {
    if 0 <= k < |output| {
      ReportIsExact(k, output[k], reports[k]);
    } else {
      assert About(events, k) == [];
    }
  }

  /** Items at 0, ..., n - 1 come out in that order. */
  lemma DenseOrder(items: map<int, Item>, n: nat)
    requires forall k :: k in items <==> 0 <= k < n
    ensures |InOrder(items)| == n && forall i :: 0 <= i < n ==> InOrder(items)[i] == items[i]
  {
    var keys := seq(n, i => i);
    var picked := seq(n, i requires 0 <= i < n => items[i]);
    forall k ensures k in Members(keys) <==> k in items {
      if 0 <= k < n {
        assert keys[k] == k;
      }
    }
    assert Members(keys) == items.Keys;
    SortedIsInOrder(items, keys, picked);
  }

  /** The streamed items, in index order, are the output up to the labels of reasoning text. */
  lemma StreamedOutput(events: seq<Event>, output: seq<Item>, reports: seq<Report>)
    requires FaithfulStream(events, output, reports)
    ensures Fold(events).Ok? && !Fold(events).value.terminal
    ensures var streamed := InOrder(Fold(events).value.items);
      |streamed| == |output| && forall i :: 0 <= i < |output| ==> SameItem(output[i], streamed[i])
  {
    forall k ensures StoryOf(events, k).Ok? {
      StreamedItem(events, output, reports, k);
    }
    Interleaved(events);
    var items := Fold(events).value.items;
    forall k ensures k in items <==> 0 <= k < |output|
             ensures k in items ==> SameItem(output[k], items[k]) {
      StreamedItem(events, output, reports, k);
      assert At(items, k) == StoryOf(events, k).value;
    }
    DenseOrder(items, |output|);
  }

  /** A stream that ends with a terminal response. */
  lemma EndsWith(events: seq<Event>, response: Response)
    requires Fold(events).Ok? && !Fold(events).value.terminal
    ensures Fold(events + [Terminal(Some(response))]) == Ok(Acc(Fold(events).value.items, response, true))
  {
    assert (events + [Terminal(Some(response))])[..|events|] == events;
  }

  lemma SameBlocksSameMessage(a: Response, b: Response)
    requires b == a.(output := b.output) && AddsAll(Output(a)) == AddsAll(Output(b))
    ensures ToMessage(a) == ToMessage(b)
  {
  }

  lemma {:induction false} StreamedMessage(events: seq<Event>, output: seq<Item>, response: Response)
    requires Fold(events).Ok? && !Fold(events).value.terminal
    requires var streamed := InOrder(Fold(events).value.items);
      |streamed| == |output| && forall i :: 0 <= i < |output| ==> SameItem(output[i], streamed[i])
    ensures Consumed(events + [Terminal(Some(response.(output := None)))]) == ToMessage(response.(output := Some(output)))
  {
    var streamed := InOrder(Fold(events).value.items);
    EndsWith(events, response.(output := None));
    SameOutputsAddTheSame(output, streamed);
    SameBlocksSameMessage(response.(output := Some(output)), response.(output := Some(streamed)));
  }

  /**
   Chunking and interleaving do not matter: a faithful stream whose terminal event omits
   the output gives the message of the full output, as does one that carries it.
   */
  lemma FaithfulStreamsAgree(events: seq<Event>, output: seq<Item>, reports: seq<Report>, response: Response)
    requires FaithfulStream(events, output, reports)
    ensures Consumed(events + [Terminal(Some(response.(output := None)))]) == ToMessage(response.(output := Some(output)))
    ensures Consumed(events + [Terminal(Some(response.(output := Some(output))))]) == ToMessage(response.(output := Some(output)))
  {
    StreamedOutput(events, output, reports);
    StreamedMessage(events, output, response);
    EndsWith(events, response.(output := Some(output)));
  }

  /** Only a completed or incomplete event can end a stream in a message. */
  lemma {:induction false} NoMessageWithoutTerminal(events: seq<Event>)
    requires Consumed(events).Ok?
    ensures exists i :: 0 <= i < |events| && events[i].Terminal? && events[i].response.Some?
                        && Consumed(events) == Consumed(events[..i + 1])
    decreases |events|
  {
    if events == [] {
    } else {
      var n := |events| - 1;
      if Fold(events[..n]).value.terminal {
        assert Fold(events) == Fold(events[..n]);
        NoMessageWithoutTerminal(events[..n]);
        var i :| 0 <= i < n && events[..n][i].Terminal? && events[..n][i].response.Some? && Consumed(events[..n]) == Consumed(events[..n][..i + 1]);
        assert events[..n][..i + 1] == events[..i + 1];
      } else {
        assert events[..n + 1] == events;
      }
    }
  }

  /** Nothing after the first terminal event is read. */
  lemma LaterEventsAreIgnored(events: seq<Event>, more: seq<Event>)
    requires Consumed(events).Ok?
    ensures Consumed(events + more) == Consumed(events)
  {
    assert (events + more)[..|events|] == events;
    FoldStops(events + more, |events|);
  }
}
