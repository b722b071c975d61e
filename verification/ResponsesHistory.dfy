/**
 The conversation history as Responses input, internal/anthropic/responses.go
 (buildResponsesRequest) and internal/anthropic/openai.go (toolResultOpenAIContent).
 */
module ResponsesHistory {
  import Gather
  import opened ResponsesMessage
  import opened Strings
  import opened Wire
  import opened Wrappers

  datatype Role = User | Assistant | System | OtherRole(name: string)

  /** url None: the image cannot be turned into a data URL. */
  datatype ResultPart = ResultText(text: string) | ResultImage(url: Option<string>) | ResultOther

  /** arguments None: the tool input cannot be encoded. */
  datatype InBlock =
    | TextIn(text: string)
    | ThinkingIn(signature: Signature)
    | ImageIn(url: Option<string>)
    | ToolUseIn(id: string, name: string, arguments: Option<string>)
    | ToolResultIn(id: string, content: seq<ResultPart>)
    | OtherIn

  datatype InMessage = InMessage(role: Role, content: seq<InBlock>)

  datatype InputItem =
    | MessageInput(role: Role, parts: seq<Part>)
    | CallInput(id: string, name: string, arguments: string)
    | OutputInput(id: string, output: string)
    | ReasoningInput(reasoning: Reasoning)

  datatype BuildError = UnsupportedRole | UndecodableHistory | InvalidHistory | BadImage | BadToolInput

  /** Input items already out, and the parts waiting for the next flush. */
  datatype Draft = Draft(input: seq<InputItem>, parts: seq<Part>)

  predicate Supported(role: Role) { role == User || role == Assistant || role == System }

  function TextPart(role: Role, text: string): Part {
    Part(if role == Assistant then OutputText else InputText, text, "", "")
  }

  function ImagePart(url: string): Part { Part(InputImage, "", url, "") }

  /** The caption of a tool result: its texts, on lines of their own once there is text. */
  function Caption(content: seq<ResultPart>): string {
    if content == [] then ""
    else
      var before, last := Caption(content[..|content| - 1]), content[|content| - 1];
      if !last.ResultText? then before
      else if |before| > 0 then before + "\n" + last.text
      else before + last.text
  }

  /** None: one of the images is bad. */
  function Images(content: seq<ResultPart>): Option<seq<Part>> {
    if content == [] then Some([])
    else
      var before, last := Images(content[..|content| - 1]), content[|content| - 1];
      if before.None? || !last.ResultImage? then before
      else if last.url.None? then None
      else Some(before.value + [ImagePart(last.url.value)])
  }

  function ImageNote(id: string): Part {
    Part(InputText, "[image from tool result tool_call_id=" + id + "]", "", "")
  }

  function Flushed(d: Draft, role: Role): Draft {
    if d.parts == [] then d else Draft(d.input + [MessageInput(role, d.parts)], [])
  }

  function AddItem(d: Draft, role: Role, item: InputItem): Draft {
    var f := Flushed(d, role);
    f.(input := f.input + [item])
  }

  function AddBlock(d: Draft, role: Role, b: InBlock): Result<Draft, BuildError> {
    match b
    case TextIn(text) => Ok(d.(parts := d.parts + [TextPart(role, text)]))
    case ThinkingIn(Native(_)) => Ok(d)
    case ThinkingIn(Undecodable) => Err(UndecodableHistory)
    case ThinkingIn(NotReasoning) => Err(InvalidHistory)
    case ThinkingIn(Envelope(r)) =>
      if r.encrypted == "" then Err(InvalidHistory) else Ok(AddItem(d, role, ReasoningInput(r)))
    case ImageIn(url) =>
      if url.None? then Err(BadImage) else Ok(d.(parts := d.parts + [ImagePart(url.value)]))
    case ToolUseIn(id, name, arguments) =>
      if arguments.None? then Err(BadToolInput) else Ok(AddItem(d, role, CallInput(id, name, arguments.value)))
    case ToolResultIn(id, content) =>
      var images := Images(content);
      if images.None? then Err(BadImage)
      else
        var told := AddItem(d, role, OutputInput(id, Caption(content)));
        Ok(if images.value == [] then told
           else told.(input := told.input + [MessageInput(User, [ImageNote(id)] + images.value)]))
    case OtherIn => Ok(d)
  }

  function AddBlocks(d: Draft, role: Role, blocks: seq<InBlock>): Result<Draft, BuildError> {
    if blocks == [] then Ok(d)
    else
      match AddBlocks(d, role, blocks[..|blocks| - 1])
      case Err(e) => Err(e)
      case Ok(before) => AddBlock(before, role, blocks[|blocks| - 1])
  }

  function AddMessage(input: seq<InputItem>, m: InMessage): Result<seq<InputItem>, BuildError> {
    if !Supported(m.role) then Err(UnsupportedRole)
    else
      match AddBlocks(Draft(input, []), m.role, m.content)
      case Err(e) => Err(e)
      case Ok(d) => Ok(Flushed(d, m.role).input)
  }

  function BuildInput(messages: seq<InMessage>): Result<seq<InputItem>, BuildError> {
    if messages == [] then Ok([])
    else
      match BuildInput(messages[..|messages| - 1])
      case Err(e) => Err(e)
      case Ok(before) => AddMessage(before, messages[|messages| - 1])
  }

  /** What the reader of an input sees, one piece at a time. */
  datatype Piece = Said(role: Role, part: Part) | Whole(item: InputItem)

  function SaidAll(role: Role, parts: seq<Part>): seq<Piece> {
    if parts == [] then [] else SaidAll(role, parts[..|parts| - 1]) + [Said(role, parts[|parts| - 1])]
  }

  function ItemPieces(item: InputItem): seq<Piece> {
    if item.MessageInput? then SaidAll(item.role, item.parts) else [Whole(item)]
  }

  function Flatten(input: seq<InputItem>): seq<Piece> {
    if input == [] then [] else Flatten(input[..|input| - 1]) + ItemPieces(input[|input| - 1])
  }

  /** The images of a tool result, as the user shows them. */
  function SeenImages(content: seq<ResultPart>): seq<Piece> {
    if content == [] then []
    else
      var before, last := SeenImages(content[..|content| - 1]), content[|content| - 1];
      match last
      case ResultImage(Some(url)) => before + [Said(User, Part(InputImage, "", url, ""))]
      case _ => before
  }

  /** What one block says, on its own. */
  function BlockPieces(role: Role, b: InBlock): seq<Piece> {
    match b
    case TextIn(text) => [Said(role, if role == Assistant then Part(OutputText, text, "", "") else Part(InputText, text, "", ""))]
    case ThinkingIn(Envelope(r)) => [Whole(ReasoningInput(r))]
    case ImageIn(Some(url)) => [Said(role, Part(InputImage, "", url, ""))]
    case ToolUseIn(id, name, Some(arguments)) => [Whole(CallInput(id, name, arguments))]
    case ToolResultIn(id, content) =>
      var images := SeenImages(content);
      [Whole(OutputInput(id, Caption(content)))]
      + (if images != [] then
           [Said(User, Part(InputText, "[image from tool result tool_call_id=" + id + "]", "", ""))] + images
         else [])
    case _ => []
  }

  function BlocksPieces(role: Role, blocks: seq<InBlock>): seq<Piece> {
    if blocks == [] then [] else BlocksPieces(role, blocks[..|blocks| - 1]) + BlockPieces(role, blocks[|blocks| - 1])
  }

  function HistoryPieces(messages: seq<InMessage>): seq<Piece> {
    if messages == [] then []
    else HistoryPieces(messages[..|messages| - 1]) + BlocksPieces(messages[|messages| - 1].role, messages[|messages| - 1].content)
  }

  /** A block that cannot be translated. */
  predicate Fails(b: InBlock) {
    match b
    case ThinkingIn(Undecodable) => true
    case ThinkingIn(NotReasoning) => true
    case ThinkingIn(Envelope(r)) => r.encrypted == ""
    case ImageIn(url) => url.None?
    case ToolUseIn(_, _, arguments) => arguments.None?
    case ToolResultIn(_, content) => ResultImage(None) in content
    case _ => false
  }

  predicate Translatable(m: InMessage) {
    !m.role.OtherRole? && NoFailure(m.content)
  }

  predicate NoFailure(blocks: seq<InBlock>) {
    forall b <- blocks :: !Fails(b)
  }

  lemma NoFailureSnoc(blocks: seq<InBlock>)
    requires blocks != []
    ensures NoFailure(blocks) <==> NoFailure(blocks[..|blocks| - 1]) && !Fails(blocks[|blocks| - 1])
  {
    var before, last := blocks[..|blocks| - 1], blocks[|blocks| - 1];
    assert blocks == before + [last];
    assert last in blocks;
  }

  lemma NoFailureAppend(a: seq<InBlock>, b: seq<InBlock>)
    ensures NoFailure(a + b) <==> NoFailure(a) && NoFailure(b)
  {
    if NoFailure(a + b) {
      forall x | x in a ensures !Fails(x) { assert x in a + b; }
      forall x | x in b ensures !Fails(x) { assert x in a + b; }
    }
  }

  predicate NoEmptyMessage(input: seq<InputItem>) {
    forall i <- input :: i.MessageInput? ==> i.parts != []
  }

  lemma {:induction false} ImagesFail(content: seq<ResultPart>)
    ensures Images(content).None? <==> ResultImage(None) in content
  {
    if content != [] {
      var before, last := content[..|content| - 1], content[|content| - 1];
      ImagesFail(before);
      assert content == before + [last];
    }
  }

  lemma FlattenSnoc(input: seq<InputItem>, item: InputItem)
    ensures Flatten(input + [item]) == Flatten(input) + ItemPieces(item)
  {
    assert (input + [item])[..|input|] == input;
  }

  lemma SaidSnoc(role: Role, parts: seq<Part>, part: Part)
    ensures SaidAll(role, parts + [part]) == SaidAll(role, parts) + [Said(role, part)]
  {
    assert (parts + [part])[..|parts|] == parts;
  }

  /** What a draft says, waiting parts included. */
  function DraftPieces(d: Draft, role: Role): seq<Piece> {
    Flatten(d.input) + SaidAll(role, d.parts)
  }

  lemma FlushSaysTheSame(d: Draft, role: Role)
    requires NoEmptyMessage(d.input)
    ensures DraftPieces(Flushed(d, role), role) == DraftPieces(d, role)
    ensures Flatten(Flushed(d, role).input) == DraftPieces(d, role)
    ensures NoEmptyMessage(Flushed(d, role).input) && Flushed(d, role).parts == []
  {
    if d.parts != [] {
      FlattenSnoc(d.input, MessageInput(role, d.parts));
    }
  }

  lemma ItemSaysItself(d: Draft, role: Role, item: InputItem)
    requires NoEmptyMessage(d.input) && (item.MessageInput? ==> item.parts != [])
    ensures var t := AddItem(d, role, item);
      NoEmptyMessage(t.input) && t.parts == [] && DraftPieces(t, role) == DraftPieces(d, role) + ItemPieces(item)
  {
    FlushSaysTheSame(d, role);
    FlattenSnoc(Flushed(d, role).input, item);
  }

  lemma SeenSaysItself(d: Draft, role: Role, item: InputItem)
    requires NoEmptyMessage(d.input) && d.parts == [] && (item.MessageInput? ==> item.parts != [])
    ensures var t := d.(input := d.input + [item]);
      NoEmptyMessage(t.input) && DraftPieces(t, role) == DraftPieces(d, role) + ItemPieces(item)
  {
    FlattenSnoc(d.input, item);
  }

  lemma Regroup(a: seq<Piece>, b: seq<Piece>, c: seq<Piece>)
    ensures a + (b + c) == (a + b) + c
  {
  }

  /** The note and the images of a tool result, as a message says them. */
  lemma {:induction false} ImagesSeen(id: string, content: seq<ResultPart>)
    requires Images(content).Some?
    ensures SaidAll(User, Images(content).value) == SeenImages(content)
    ensures SaidAll(User, [ImageNote(id)] + Images(content).value) ==
            [Said(User, Part(InputText, "[image from tool result tool_call_id=" + id + "]", "", ""))] + SeenImages(content)
  {
    if content != [] {
      var before, last := content[..|content| - 1], content[|content| - 1];
      ImagesSeen(id, before);
      if last.ResultImage? {
        var images, image := Images(before).value, ImagePart(last.url.value);
        SaidSnoc(User, images, image);
        SaidSnoc(User, [ImageNote(id)] + images, image);
        assert [ImageNote(id)] + Images(content).value == ([ImageNote(id)] + images) + [image];
      }
    } else {
      assert [ImageNote(id)] + [] == [] + [ImageNote(id)];
      SaidSnoc(User, [], ImageNote(id));
    }
  }

  lemma ToolResultSaysItsPieces(d: Draft, role: Role, b: InBlock)
    requires NoEmptyMessage(d.input) && b.ToolResultIn? && Images(b.content).Some?
    ensures var t := AddBlock(d, role, b).value;
      NoEmptyMessage(t.input) && DraftPieces(t, role) == DraftPieces(d, role) + BlockPieces(role, b)
  {
    var images := Images(b.content).value;
    var output := OutputInput(b.id, Caption(b.content));
    var told := AddItem(d, role, output);
    ItemSaysItself(d, role, output);
    ImagesSeen(b.id, b.content);
    if images != [] {
      var seen := MessageInput(User, [ImageNote(b.id)] + images);
      SeenSaysItself(told, role, seen);
      assert AddBlock(d, role, b).value == told.(input := told.input + [seen]);
      Regroup(DraftPieces(d, role), ItemPieces(output), ItemPieces(seen));
    }
  }

  /** A block is translated in its place, or fails exactly when it cannot be. */
  lemma BlockSaysItsPieces(d: Draft, role: Role, b: InBlock)
    requires NoEmptyMessage(d.input)
    ensures AddBlock(d, role, b).Ok? <==> !Fails(b)
    ensures Says(d, AddBlock(d, role, b), role, BlockPieces(role, b))
  {
    match b
    case TextIn(text) => SaidSnoc(role, d.parts, TextPart(role, text));
    case ThinkingIn(Envelope(r)) => ItemSaysItself(d, role, ReasoningInput(r));
    case ImageIn(Some(url)) => SaidSnoc(role, d.parts, ImagePart(url));
    case ToolUseIn(id, name, Some(arguments)) => ItemSaysItself(d, role, CallInput(id, name, arguments));
    case ToolResultIn(id, content) =>
      ImagesFail(content);
      if Images(content).Some? {
        ToolResultSaysItsPieces(d, role, b);
      }
    case _ =>
  }

  /** A step from one draft to the next says exactly these pieces. */
  ghost predicate Says(d: Draft, r: Result<Draft, BuildError>, role: Role, pieces: seq<Piece>) {
    r.Ok? ==> NoEmptyMessage(r.value.input) && DraftPieces(r.value, role) == DraftPieces(d, role) + pieces
  }

  lemma SaysThenSays(d: Draft, mid: Draft, r: Result<Draft, BuildError>, role: Role, before: seq<Piece>, last: seq<Piece>)
    requires Says(d, Ok(mid), role, before) && Says(mid, r, role, last)
    ensures Says(d, r, role, before + last)
  {
    assert (DraftPieces(d, role) + before) + last == DraftPieces(d, role) + (before + last);
  }

  lemma {:induction false} BlocksSayTheirPieces(d: Draft, role: Role, blocks: seq<InBlock>)
    requires NoEmptyMessage(d.input)
    ensures AddBlocks(d, role, blocks).Ok? <==> NoFailure(blocks)
    ensures Says(d, AddBlocks(d, role, blocks), role, BlocksPieces(role, blocks))
  {
    if blocks != [] {
      var before, last := blocks[..|blocks| - 1], blocks[|blocks| - 1];
      BlocksSayTheirPieces(d, role, before);
      NoFailureSnoc(blocks);
      if AddBlocks(d, role, before).Ok? {
        var mid := AddBlocks(d, role, before).value;
        BlockSaysItsPieces(mid, role, last);
        SaysThenSays(d, mid, AddBlock(mid, role, last), role, BlocksPieces(role, before), BlockPieces(role, last));
      }
    }
  }

  lemma MessageSaysItsPieces(input: seq<InputItem>, m: InMessage)
    requires NoEmptyMessage(input)
    ensures AddMessage(input, m).Ok? <==> Translatable(m)
    ensures AddMessage(input, m).Ok? ==>
              var t := AddMessage(input, m).value;
              NoEmptyMessage(t) && Flatten(t) == Flatten(input) + BlocksPieces(m.role, m.content)
  {
    var d := Draft(input, []);
    assert DraftPieces(d, m.role) == Flatten(input);
    BlocksSayTheirPieces(d, m.role, m.content);
    if AddMessage(input, m).Ok? {
      FlushSaysTheSame(AddBlocks(d, m.role, m.content).value, m.role);
    }
  }

  /**
   A history is translated exactly when every block can be; then the input says, piece
   by piece, what the blocks say in their order, and no message in it is empty.
   */
  lemma {:induction false} HistoryKeepsOrder(messages: seq<InMessage>)
    ensures BuildInput(messages).Ok? <==> forall m <- messages :: Translatable(m)
    ensures BuildInput(messages).Ok? ==>
              NoEmptyMessage(BuildInput(messages).value) && Flatten(BuildInput(messages).value) == HistoryPieces(messages)
  {
    if messages != [] {
      var before, last := messages[..|messages| - 1], messages[|messages| - 1];
      HistoryKeepsOrder(before);
      assert messages == before + [last];
      if BuildInput(before).Ok? {
        MessageSaysItsPieces(BuildInput(before).value, last);
      }
    }
  }

  /** Why a block cannot be translated. */
  function Complaint(b: InBlock): BuildError
    requires Fails(b)
  {
    match b
    case ThinkingIn(Undecodable) => UndecodableHistory
    case ThinkingIn(_) => InvalidHistory
    case ToolUseIn(_, _, _) => BadToolInput
    case _ => BadImage
  }

  lemma BlockComplains(d: Draft, role: Role, b: InBlock)
    requires Fails(b)
    ensures AddBlock(d, role, b) == Err(Complaint(b))
  {
    if b.ToolResultIn? {
      ImagesFail(b.content);
    }
  }

  lemma {:induction false} BlocksComplain(d: Draft, role: Role, blocks: seq<InBlock>, i: nat)
    requires i < |blocks| && Fails(blocks[i]) && NoFailure(blocks[..i]) && NoEmptyMessage(d.input)
    ensures AddBlocks(d, role, blocks) == Err(Complaint(blocks[i]))
  {
    var n := |blocks| - 1;
    if i < n {
      assert blocks[..n][..i] == blocks[..i];
      BlocksComplain(d, role, blocks[..n], i);
    } else {
      BlocksSayTheirPieces(d, role, blocks[..n]);
      BlockComplains(AddBlocks(d, role, blocks[..n]).value, role, blocks[n]);
    }
  }

  /** The first message that cannot be translated decides the error: its role, or else its
      first block that cannot be. */
  lemma {:induction false} FirstComplaintCounts(messages: seq<InMessage>, k: nat, i: nat)
    requires k < |messages| && forall m <- messages[..k] :: Translatable(m)
    requires !messages[k].role.OtherRole? ==>
      i < |messages[k].content| && Fails(messages[k].content[i]) && NoFailure(messages[k].content[..i])
    ensures BuildInput(messages) ==
            Err(if messages[k].role.OtherRole? then UnsupportedRole else Complaint(messages[k].content[i]))
  {
    var n := |messages| - 1;
    if k < n {
      assert messages[..n][..k] == messages[..k];
      FirstComplaintCounts(messages[..n], k, i);
    } else {
      HistoryKeepsOrder(messages[..n]);
      if !messages[k].role.OtherRole? {
        BlocksComplain(Draft(BuildInput(messages[..n]).value, []), messages[k].role, messages[k].content, i);
      }
    }
  }

  /** Which reasoning, calls and outputs a list of pieces carries. */
  function ReasoningIn(p: Piece): seq<Reasoning> {
    if p.Whole? && p.item.ReasoningInput? then [p.item.reasoning] else []
  }

  function CallIdIn(p: Piece): seq<string> {
    if p.Whole? && p.item.CallInput? then [p.item.id] else []
  }

  function OutputIdIn(p: Piece): seq<string> {
    if p.Whole? && p.item.OutputInput? then [p.item.id] else []
  }

  function ReasoningOf(pieces: seq<Piece>): seq<Reasoning> { Gather.Gather(ReasoningIn, pieces) }

  function CallIdsOf(pieces: seq<Piece>): seq<string> { Gather.Gather(CallIdIn, pieces) }

  function OutputIdsOf(pieces: seq<Piece>): seq<string> { Gather.Gather(OutputIdIn, pieces) }

  lemma {:induction false} SaidCarriesNothing<B>(role: Role, parts: seq<Part>, f: Piece -> seq<B>)
    requires forall part :: f(Said(role, part)) == []
    ensures Gather.Gather(f, SaidAll(role, parts)) == []
  {
    if parts != [] {
      SaidCarriesNothing(role, parts[..|parts| - 1], f);
      Gather.Snoc(f, SaidAll(role, parts[..|parts| - 1]), Said(role, parts[|parts| - 1]));
    }
  }

  /** The ids of the tool uses, and of the tool results, of a list of blocks. */
  function UseIdIn(b: InBlock): seq<string> {
    if b.ToolUseIn? then [b.id] else []
  }

  function ResultIdIn(b: InBlock): seq<string> {
    if b.ToolResultIn? then [b.id] else []
  }

  function ReplayableIn(b: InBlock): seq<Reasoning> {
    if b.ThinkingIn? && b.signature.Envelope? then [b.signature.reasoning] else []
  }

  function UseIds(blocks: seq<InBlock>): seq<string> { Gather.Gather(UseIdIn, blocks) }

  function ResultIds(blocks: seq<InBlock>): seq<string> { Gather.Gather(ResultIdIn, blocks) }

  function Replayable(blocks: seq<InBlock>): seq<Reasoning> { Gather.Gather(ReplayableIn, blocks) }

  /** What a translatable block carries is what its pieces carry. */
  ghost predicate Carries<B(!new)>(onPiece: Piece -> seq<B>, onBlock: InBlock -> seq<B>) {
    && (forall role, part :: onPiece(Said(role, part)) == [])
    && (forall role, b :: !Fails(b) && !b.ToolResultIn? ==> Gather.Gather(onPiece, BlockPieces(role, b)) == onBlock(b))
    && (forall id, content :: onPiece(Whole(OutputInput(id, Caption(content)))) == onBlock(ToolResultIn(id, content)))
  }

  lemma BlockCarries<B(!new)>(role: Role, b: InBlock, onPiece: Piece -> seq<B>, onBlock: InBlock -> seq<B>)
    requires !Fails(b) && Carries(onPiece, onBlock)
    ensures Gather.Gather(onPiece, BlockPieces(role, b)) == onBlock(b)
  {
    if b.ToolResultIn? {
      var images := Images(b.content);
      var output := Whole(OutputInput(b.id, Caption(b.content)));
      Gather.One(onPiece, output);
      ImagesFail(b.content);
      ImagesSeen(b.id, b.content);
      if images.value != [] {
        var seen := [ImageNote(b.id)] + images.value;
        SaidCarriesNothing(User, seen, onPiece);
        Gather.Append(onPiece, [output], SaidAll(User, seen));
      } else {
        assert BlockPieces(role, b) == [output];
      }
    }
  }

  lemma {:induction false} BlocksCarry<B(!new)>(role: Role, blocks: seq<InBlock>, onPiece: Piece -> seq<B>, onBlock: InBlock -> seq<B>)
    requires NoFailure(blocks) && Carries(onPiece, onBlock)
    ensures Gather.Gather(onPiece, BlocksPieces(role, blocks)) == Gather.Gather(onBlock, blocks)
  {
    if blocks != [] {
      var before, last := blocks[..|blocks| - 1], blocks[|blocks| - 1];
      NoFailureSnoc(blocks);
      BlocksCarry(role, before, onPiece, onBlock);
      BlockCarries(role, last, onPiece, onBlock);
      Gather.Append(onPiece, BlocksPieces(role, before), BlockPieces(role, last));
    }
  }

  function Content(m: InMessage): seq<InBlock> { m.content }

  function AllBlocks(messages: seq<InMessage>): seq<InBlock> { Gather.Gather(Content, messages) }

  lemma {:induction false} HistoryCarries<B(!new)>(messages: seq<InMessage>, onPiece: Piece -> seq<B>, onBlock: InBlock -> seq<B>)
    requires (forall m <- messages :: Translatable(m)) && Carries(onPiece, onBlock)
    ensures Gather.Gather(onPiece, HistoryPieces(messages)) == Gather.Gather(onBlock, AllBlocks(messages))
  {
    if messages != [] {
      var before, last := messages[..|messages| - 1], messages[|messages| - 1];
      assert Translatable(last);
      HistoryCarries(before, onPiece, onBlock);
      BlocksCarry(last.role, last.content, onPiece, onBlock);
      Gather.Append(onBlock, AllBlocks(before), last.content);
      Gather.Append(onPiece, HistoryPieces(before), BlocksPieces(last.role, last.content));
    }
  }

  lemma ReasoningCarries()
    ensures Carries(ReasoningIn, ReplayableIn)
  {
    forall role, b | !Fails(b) && !b.ToolResultIn? ensures Gather.Gather(ReasoningIn, BlockPieces(role, b)) == ReplayableIn(b) {
      if BlockPieces(role, b) != [] {
        Gather.One(ReasoningIn, BlockPieces(role, b)[0]);
      }
    }
  }

  lemma CallIdsCarry()
    ensures Carries(CallIdIn, UseIdIn)
  {
    forall role, b | !Fails(b) && !b.ToolResultIn? ensures Gather.Gather(CallIdIn, BlockPieces(role, b)) == UseIdIn(b) {
      if BlockPieces(role, b) != [] {
        Gather.One(CallIdIn, BlockPieces(role, b)[0]);
      }
    }
  }

  lemma OutputIdsCarry()
    ensures Carries(OutputIdIn, ResultIdIn)
  {
    forall role, b | !Fails(b) && !b.ToolResultIn? ensures Gather.Gather(OutputIdIn, BlockPieces(role, b)) == ResultIdIn(b) {
      if BlockPieces(role, b) != [] {
        Gather.One(OutputIdIn, BlockPieces(role, b)[0]);
      }
    }
  }

  /**
   Calls, outputs and replayed reasoning appear in the input exactly as tool uses, tool
   results and replayable thinking do in the history: the same ones, in the same order.
   */
  lemma {:induction false} IdsSurvive(messages: seq<InMessage>)
    requires BuildInput(messages).Ok?
    ensures var pieces := Flatten(BuildInput(messages).value);
      && CallIdsOf(pieces) == UseIds(AllBlocks(messages))
      && OutputIdsOf(pieces) == ResultIds(AllBlocks(messages))
      && ReasoningOf(pieces) == Replayable(AllBlocks(messages))
  {
    HistoryKeepsOrder(messages);
    ReasoningCarries();
    CallIdsCarry();
    OutputIdsCarry();
    HistoryCarries(messages, ReasoningIn, ReplayableIn);
    HistoryCarries(messages, CallIdIn, UseIdIn);
    HistoryCarries(messages, OutputIdIn, ResultIdIn);
  }

  /** The arguments that stand for a tool input; how JSON lays them out is not modelled. */
  function Encoded(input: Input): string {
    if input.EmptyObject? then "{}" else input.text
  }

  /** A block of an assistant message, kept as history. */
  function AsHistory(b: Block): InBlock {
    match b
    case Text(text) => TextIn(text)
    case Thinking(_, signature) => ThinkingIn(signature)
    case ToolUse(id, name, input) => ToolUseIn(id, name, Some(Encoded(input)))
  }

  function AsHistoryList(b: Block): seq<InBlock> { [AsHistory(b)] }

  function AllAsHistory(blocks: seq<Block>): seq<InBlock> { Gather.Gather(AsHistoryList, blocks) }

  /** The reasoning of an output that must come back: what the wire keeps of it. */
  function OpaqueIn(item: Item): seq<Reasoning> {
    if item.kind == ReasoningItem && item.encrypted != "" then [Reasoning(item.id, AllOnWire(item.summary), item.encrypted)] else []
  }

  function Opaque(items: seq<Item>): seq<Reasoning> { Gather.Gather(OpaqueIn, items) }

  function CallIn(item: Item): seq<string> {
    if item.kind == FunctionCallItem then [Trim(item.callId)] else []
  }

  function CallIds(items: seq<Item>): seq<string> { Gather.Gather(CallIn, items) }

  /** Text blocks carry no calls and nothing to replay. */
  lemma {:induction false} MessageBlocksCarryNothing<B>(parts: seq<Part>, onBlock: InBlock -> seq<B>)
    requires forall text :: onBlock(TextIn(text)) == []
    ensures var h := AllAsHistory(MessageBlocks(parts)); Gather.Gather(onBlock, h) == [] && NoFailure(h)
  {
    if parts != [] {
      var before, last := parts[..|parts| - 1], PartBlocks(parts[|parts| - 1]);
      MessageBlocksCarryNothing(before, onBlock);
      var told := AllAsHistory(MessageBlocks(before));
      if last == [] {
        assert MessageBlocks(parts) == MessageBlocks(before);
      } else {
        var text := last[0];
        assert last == [text] && text.Text?;
        Gather.Snoc(AsHistoryList, MessageBlocks(before), text);
        assert AllAsHistory(MessageBlocks(parts)) == told + [AsHistory(text)];
        Gather.Snoc(onBlock, told, AsHistory(text));
        NoFailureAppend(told, [AsHistory(text)]);
      }
    }
  }

  /** What an item adds to a message carries what the item carries. */
  ghost predicate Returns<B(!new)>(onBlock: InBlock -> seq<B>, onItem: Item -> seq<B>) {
    && (forall text :: onBlock(TextIn(text)) == [])
    && (forall item: Item :: item.kind == MessageItem ==> onItem(item) == [])
    && (forall item: Item :: item.kind != MessageItem && Adds(item).Some? ==>
          onItem(item) == if Adds(item).value.blocks == [] then [] else onBlock(AsHistory(Adds(item).value.blocks[0])))
  }

  lemma ItemReturns<B(!new)>(item: Item, onBlock: InBlock -> seq<B>, onItem: Item -> seq<B>)
    requires Adds(item).Some? && Returns(onBlock, onItem)
    ensures var h := AllAsHistory(Adds(item).value.blocks); Gather.Gather(onBlock, h) == onItem(item) && NoFailure(h)
  {
    if item.kind == MessageItem {
      MessageBlocksCarryNothing(item.content, onBlock);
    } else {
      var blocks := Adds(item).value.blocks;
      if blocks == [] {
        assert AllAsHistory(blocks) == [];
      } else {
        assert blocks == [blocks[0]];
        Gather.One(AsHistoryList, blocks[0]);
        assert AllAsHistory(blocks) == [AsHistory(blocks[0])];
        Gather.One(onBlock, AsHistory(blocks[0]));
      }
    }
  }

  lemma {:induction false} OutputReturns<B(!new)>(items: seq<Item>, onBlock: InBlock -> seq<B>, onItem: Item -> seq<B>)
    requires AddsAll(items).Some? && Returns(onBlock, onItem)
    ensures var h := AllAsHistory(AddsAll(items).value.blocks);
      Gather.Gather(onBlock, h) == Gather.Gather(onItem, items) && NoFailure(h)
  {
    if items != [] {
      var before, last := items[..|items| - 1], items[|items| - 1];
      OutputReturns(before, onBlock, onItem);
      ItemReturns(last, onBlock, onItem);
      var old', added := AddsAll(before).value.blocks, Adds(last).value.blocks;
      Gather.Append(AsHistoryList, old', added);
      NoFailureAppend(AllAsHistory(old'), AllAsHistory(added));
      Gather.Append(onBlock, AllAsHistory(old'), AllAsHistory(added));
    }
  }

  lemma {:induction false} ReplayReturns()
    ensures Returns(ReplayableIn, OpaqueIn) && Returns(UseIdIn, CallIn)
  {
  }

  /**
   What a response said can always be sent back, and the opaque reasoning goes back with
   the id, summary and payload it came with, in order, as do the function calls.
   */
  lemma ResponsesReplay(r: Response)
    requires ToMessage(r).Ok?
    ensures var history := [InMessage(Assistant, AllAsHistory(ToMessage(r).value.content))];
      && BuildInput(history).Ok?
      && ReasoningOf(Flatten(BuildInput(history).value)) == Opaque(Output(r))
      && CallIdsOf(Flatten(BuildInput(history).value)) == CallIds(Output(r))
  {
    var m := InMessage(Assistant, AllAsHistory(ToMessage(r).value.content));
    ReplayReturns();
    OutputReturns(Output(r), ReplayableIn, OpaqueIn);
    OutputReturns(Output(r), UseIdIn, CallIn);
    assert Translatable(m);
    HistoryKeepsOrder([m]);
    IdsSurvive([m]);
    Gather.One(Content, m);
  }

  /** The wire keeps a summary as it is exactly when its text parts hold nothing but text. */
  lemma SummarySurvivesIff(summary: seq<Part>)
    ensures AllOnWire(summary) == summary <==>
            forall p <- summary :: (p.kind == InputText || p.kind == OutputText) ==> p.imageUrl == "" && p.refusal == ""
  {
    if AllOnWire(summary) == summary {
      forall p | p in summary ensures OnWire(p) == p {
        var i :| 0 <= i < |summary| && summary[i] == p;
        assert AllOnWire(summary)[i] == OnWire(p);
      }
    }
  }
}
