/**
 From a Responses result to an assistant message, internal/anthropic/responses.go
 (responsesToMessage): the translation of a list of output items, and the loops that
 compute it.
 */
module ResponsesMessage {
  import opened Strings
  import opened Wire
  import opened Wrappers

  datatype ItemKind = MessageItem | ReasoningItem | FunctionCallItem | OtherItem(name: string)

  datatype Item = Item(
    id: string, kind: ItemKind, content: seq<Part>, summary: seq<Part>,
    callId: string, name: string, arguments: string, encrypted: string)

  datatype Status = Completed | Incomplete | OtherStatus(name: string)

  datatype Reason = OutputLimit | ContentFilter | OtherReason(name: string)

  /** output None: the field was absent or null. */
  datatype Response = Response(
    id: string, model: string, status: Status, output: Option<seq<Item>>,
    usage: Option<WireUsage>, error: Option<string>, incompleteReason: Option<Reason>)

  datatype Failure =
    | Reported(message: string)
    | UnexpectedStatus
    | NamelessCall
    | IncompleteWithoutReason
    | IncompleteBecause(name: string)
    | StreamFailure(message: string)

  /** What one item adds: blocks, and a stop reason that overrides the ones before. */
  datatype Added = Added(blocks: seq<Block>, stop: Option<Stop>)

  /** A part as it comes back from the wire: text parts carry nothing but their text. */
  function OnWire(p: Part): Part {
    if p.kind == InputText || p.kind == OutputText then Part(p.kind, p.text, "", "") else p
  }

  function AllOnWire(parts: seq<Part>): seq<Part> {
    seq(|parts|, i requires 0 <= i < |parts| => OnWire(parts[i]))
  }

  function PartBlocks(p: Part): seq<Block> {
    if p.kind == OutputText then [Text(p.text)]
    else if p.kind == RefusalPart then [Text(p.refusal)]
    else []
  }

  function MessageBlocks(parts: seq<Part>): seq<Block> {
    if parts == [] then []
    else MessageBlocks(parts[..|parts| - 1]) + PartBlocks(parts[|parts| - 1])
  }

  predicate Refuses(parts: seq<Part>) {
    exists p <- parts :: p.kind == RefusalPart
  }

  function Joined(parts: seq<Part>): string {
    if parts == [] then "" else Joined(parts[..|parts| - 1]) + parts[|parts| - 1].text
  }

  function ReasoningSignature(item: Item): Signature {
    if item.encrypted == "" then Native("") else Envelope(Reasoning(item.id, AllOnWire(item.summary), item.encrypted))
  }

  function ReasoningBlocks(item: Item): seq<Block> {
    var text := Joined(item.summary) + Joined(item.content);
    if text == "" && item.encrypted == "" then [] else [Thinking(text, ReasoningSignature(item))]
  }

  /** None: a function call without a call id or a name. */
  function Adds(item: Item): Option<Added> {
    match item.kind
    case MessageItem => Some(Added(MessageBlocks(item.content), if Refuses(item.content) then Some(Refused) else None))
    case ReasoningItem => Some(Added(ReasoningBlocks(item), None))
    case FunctionCallItem =>
      if Blank(item.callId) || Blank(item.name) then None
      else Some(Added([ToolUse(Trim(item.callId), item.name, InputOf(item.arguments))], Some(ToolCalls)))
    case OtherItem(_) => Some(Added([], None))
  }

  function Then(before: Added, item: Item): Option<Added> {
    match Adds(item)
    case None => None
    case Some(a) => Some(Added(before.blocks + a.blocks, if a.stop.Some? then a.stop else before.stop))
  }

  function AddsAll(items: seq<Item>): Option<Added> {
    if items == [] then Some(Added([], None))
    else
      var before := AddsAll(items[..|items| - 1]);
      if before.None? then None else Then(before.value, items[|items| - 1])
  }

  function Output(r: Response): seq<Item> {
    if r.output.Some? then r.output.value else []
  }

  function StopFor(r: Response, added: Added): Result<Stop, Failure> {
    if r.status != Incomplete then Ok(if added.stop.Some? then added.stop.value else EndTurn)
    else match r.incompleteReason {
      case None => Err(IncompleteWithoutReason)
      case Some(OutputLimit) => Ok(MaxTokens)
      case Some(ContentFilter) => Ok(Refused)
      case Some(OtherReason(name)) => Err(IncompleteBecause(name))
    }
  }

  function ToMessage(r: Response): Result<Message, Failure> {
    if r.error.Some? then Err(Reported(r.error.value))
    else if !(r.status == Completed || r.status == Incomplete) then Err(UnexpectedStatus)
    else
      match AddsAll(Output(r))
      case None => Err(NamelessCall)
      case Some(added) =>
        match StopFor(r, added)
        case Err(e) => Err(e)
        case Ok(stop) => Ok(Message(r.id, r.model, added.blocks, stop, MapUsage(r.usage)))
  }

  lemma {:induction false} AddsAllPrefix(items: seq<Item>, n: nat)
    requires n <= |items| && AddsAll(items).Some?
    ensures AddsAll(items[..n]).Some?
  {
    if n < |items| {
      assert items[..|items| - 1][..n] == items[..n];
      AddsAllPrefix(items[..|items| - 1], n);
    } else {
      assert items[..n] == items;
    }
  }

  /** An item that decides why the message stopped. */
  predicate Decides(item: Item) {
    item.kind == FunctionCallItem || (item.kind == MessageItem && Refuses(item.content))
  }

  predicate Nameless(item: Item) {
    item.kind == FunctionCallItem && (Blank(item.callId) || Blank(item.name))
  }

  /** An output fails to translate if and only if it holds a call without id or name. */
  lemma {:induction false} OutputFailsIff(items: seq<Item>)
    ensures AddsAll(items).None? <==> exists i :: 0 <= i < |items| && Nameless(items[i])
  {
    if items != [] {
      var n := |items| - 1;
      OutputFailsIff(items[..n]);
      if Nameless(items[n]) {
        assert Adds(items[n]).None?;
      } else {
        assert Adds(items[n]).Some?;
        assert forall i :: 0 <= i < n ==> items[..n][i] == items[i];
      }
    }
  }

  /** The last refusal or function call decides the stop reason; without one there is none. */
  lemma {:induction false} LastDecides(items: seq<Item>, i: nat)
    requires AddsAll(items).Some? && i < |items|
    requires Decides(items[i]) && forall j :: i < j < |items| ==> !Decides(items[j])
    ensures AddsAll(items).value.stop == Some(if items[i].kind == FunctionCallItem then ToolCalls else Refused)
  {
    var n := |items| - 1;
    if i < n {
      LastDecides(items[..n], i);
      assert !Decides(items[n]);
    }
  }

  lemma {:induction false} NoneDecides(items: seq<Item>)
    requires AddsAll(items).Some? && forall j :: 0 <= j < |items| ==> !Decides(items[j])
    ensures AddsAll(items).value.stop == None
  {
    if items != [] {
      NoneDecides(items[..|items| - 1]);
      assert !Decides(items[|items| - 1]);
    }
  }

  method TranslateParts(parts: seq<Part>) returns (blocks: seq<Block>, refused: bool)
    ensures blocks == MessageBlocks(parts) && (refused <==> Refuses(parts))
  {
    blocks, refused := [], false;
    for i := 0 to |parts|
      invariant blocks == MessageBlocks(parts[..i])
      invariant refused <==> Refuses(parts[..i])
    {
      assert parts[..i + 1][..i] == parts[..i];
      match parts[i].kind
      case OutputText => blocks := blocks + [Text(parts[i].text)];
      case RefusalPart =>
        blocks := blocks + [Text(parts[i].refusal)];
        refused := true;
        assert parts[i] in parts[..i + 1];
      case _ =>
    }
    assert parts[..|parts|] == parts;
  }

  method JoinTexts(prefix: string, parts: seq<Part>) returns (text: string)
    ensures text == prefix + Joined(parts)
  {
    text := prefix;
    for i := 0 to |parts|
      invariant text == prefix + Joined(parts[..i])
    {
      assert parts[..i + 1][..i] == parts[..i];
      text := text + parts[i].text;
    }
    assert parts[..|parts|] == parts;
  }

  method TranslateItem(item: Item) returns (added: Option<Added>)
    ensures added == Adds(item)
  {
    match item.kind
    case MessageItem =>
      var blocks, refused := TranslateParts(item.content);
      added := Some(Added(blocks, if refused then Some(Refused) else None));
    case ReasoningItem =>
      var text := JoinTexts("", item.summary);
      assert text == Joined(item.summary);
      text := JoinTexts(text, item.content);
      var signature := Native("");
      if item.encrypted != "" {
        signature := Envelope(Reasoning(item.id, AllOnWire(item.summary), item.encrypted));
      }
      if text != "" || signature != Native("") {
        added := Some(Added([Thinking(text, signature)], None));
      } else {
        added := Some(Added([], None));
      }
    case FunctionCallItem =>
      if Blank(item.callId) || Blank(item.name) {
        return None;
      }
      added := Some(Added([ToolUse(Trim(item.callId), item.name, InputOf(item.arguments))], Some(ToolCalls)));
    case _ =>
      added := Some(Added([], None));
  }

  method ResponsesToMessage(response: Response) returns (r: Result<Message, Failure>)
    ensures r == ToMessage(response)
  {
    if response.error.Some? {
      return Err(Reported(response.error.value));
    }
    if response.status != Completed && response.status != Incomplete {
      return Err(UnexpectedStatus);
    }
    var items := Output(response);
    var content, stop: Option<Stop> := [], None;
    for i := 0 to |items|
      invariant AddsAll(items[..i]) == Some(Added(content, stop))
    {
      assert items[..i + 1][..i] == items[..i];
      var added := TranslateItem(items[i]);
      if added.None? {
        if AddsAll(items).Some? {
          AddsAllPrefix(items, i + 1);
        }
        return Err(NamelessCall);
      }
      content := content + added.value.blocks;
      if added.value.stop.Some? {
        stop := added.value.stop;
      }
    }
    assert items[..|items|] == items;
    var reason := if stop.Some? then stop.value else EndTurn;
    if response.status == Incomplete {
      match response.incompleteReason
      case None => return Err(IncompleteWithoutReason);
      case Some(OutputLimit) => reason := MaxTokens;
      case Some(ContentFilter) => reason := Refused;
      case Some(OtherReason(name)) => return Err(IncompleteBecause(name));
    }
    r := Ok(Message(response.id, response.model, content, reason, MapUsage(response.usage)));
  }
}
