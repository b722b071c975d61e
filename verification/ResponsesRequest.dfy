/**
 The loops of buildResponsesRequest and toolResultOpenAIContent, proved against
 ResponsesHistory, and what the caption of a tool result is.
 */
module ResponsesRequest {
  import Gather
  import opened ResponsesHistory
  import opened Wire
  import opened Wrappers

  function CaptionText(p: ResultPart): seq<string> {
    if p.ResultText? then [p.text] else []
  }

  function Texts(content: seq<ResultPart>): seq<string> { Gather.Gather(CaptionText, content) }

  function JoinLines(texts: seq<string>): string {
    if texts == [] then ""
    else if |texts| == 1 then texts[0]
    else JoinLines(texts[..|texts| - 1]) + "\n" + texts[|texts| - 1]
  }

  /** The texts from the first non-empty one on. */
  function FromFirstText(texts: seq<string>): seq<string> {
    if texts != [] && texts[0] == "" then FromFirstText(texts[1..]) else texts
  }

  lemma {:induction false} FromFirstTextSnoc(texts: seq<string>, t: string)
    ensures FromFirstText(texts + [t]) ==
            if FromFirstText(texts) == [] && t == "" then [] else FromFirstText(texts) + [t]
    ensures FromFirstText(texts) != [] ==> FromFirstText(texts)[0] != ""
  {
    if texts == [] {
      assert texts + [t] == [t];
      assert [t][1..] == [];
    } else if texts[0] == "" {
      assert (texts + [t])[1..] == texts[1..] + [t];
      FromFirstTextSnoc(texts[1..], t);
    }
  }

  lemma {:induction false} JoinedIsLonger(texts: seq<string>)
    requires texts != [] && texts[0] != ""
    ensures |JoinLines(texts)| > 0
  {
    if |texts| > 1 {
      JoinedIsLonger(texts[..|texts| - 1]);
    }
  }

  /** The caption is the texts on lines of their own, from the first non-empty text on. */
  lemma {:induction false} CaptionJoinsLines(content: seq<ResultPart>)
    ensures Caption(content) == JoinLines(FromFirstText(Texts(content)))
  {
    if content != [] {
      var before, last := content[..|content| - 1], content[|content| - 1];
      CaptionJoinsLines(before);
      if last.ResultText? {
        var texts, kept := Texts(before), FromFirstText(Texts(before));
        FromFirstTextSnoc(texts, last.text);
        assert Texts(content) == texts + [last.text];
        if kept != [] {
          JoinedIsLonger(kept);
          assert (kept + [last.text])[..|kept|] == kept;
        } else {
          assert kept + [last.text] == [last.text];
        }
      } else {
        assert Texts(content) == Texts(before);
      }
    }
  }

  method ToolResultContent(content: seq<ResultPart>) returns (text: string, images: seq<Part>, ok: bool)
    ensures ok <==> Images(content).Some?
    ensures ok ==> text == Caption(content) && Some(images) == Images(content)
  {
    text, images, ok := "", [], true;
    for i := 0 to |content|
      invariant text == Caption(content[..i]) && Images(content[..i]) == Some(images)
      invariant ok
    {
      assert content[..i + 1][..i] == content[..i];
      match content[i]
      case ResultText(t) =>
        if |text| > 0 {
          text := text + "\n";
        }
        text := text + t;
      case ResultImage(url) =>
        if url.None? {
          ImagesFail(content);
          return "", [], false;
        }
        images := images + [ImagePart(url.value)];
      case ResultOther =>
    }
    assert content[..|content|] == content;
  }

  /** flush: the waiting parts become one message item. */
  method Flush(input: seq<InputItem>, role: Role, parts: seq<Part>) returns (r: seq<InputItem>)
    ensures Draft(r, []) == Flushed(Draft(input, parts), role)
  {
    r := input;
    if |parts| > 0 {
      r := r + [MessageInput(role, parts)];
    }
  }

  /** One turn of the inner loop. */
  method TranslateBlock(input: seq<InputItem>, parts: seq<Part>, role: Role, b: InBlock)
    returns (r: Result<Draft, BuildError>)
    ensures r == AddBlock(Draft(input, parts), role, b)
  {
    match b
    case TextIn(text) =>
      var kind := InputText;
      if role == Assistant {
        kind := OutputText;
      }
      r := Ok(Draft(input, parts + [Part(kind, text, "", "")]));
    case ThinkingIn(signature) =>
      match signature {
        case Native(_) => r := Ok(Draft(input, parts));
        case Undecodable => r := Err(UndecodableHistory);
        case NotReasoning => r := Err(InvalidHistory);
        case Envelope(reasoning) =>
          if reasoning.encrypted == "" {
            return Err(InvalidHistory);
          }
          var out := Flush(input, role, parts);
          r := Ok(Draft(out + [ReasoningInput(reasoning)], []));
      }
    case ImageIn(url) =>
      if url.None? {
        return Err(BadImage);
      }
      r := Ok(Draft(input, parts + [ImagePart(url.value)]));
    case ToolUseIn(id, name, arguments) =>
      var out := Flush(input, role, parts);
      if arguments.None? {
        return Err(BadToolInput);
      }
      r := Ok(Draft(out + [CallInput(id, name, arguments.value)], []));
    case ToolResultIn(id, content) =>
      var out := Flush(input, role, parts);
      var text, images, ok := ToolResultContent(content);
      if !ok {
        return Err(BadImage);
      }
      out := out + [OutputInput(id, text)];
      if |images| > 0 {
        out := out + [MessageInput(User, [ImageNote(id)] + images)];
      }
      r := Ok(Draft(out, []));
    case OtherIn =>
      r := Ok(Draft(input, parts));
  }

  lemma {:induction false} BlockErrorStays(d: Draft, role: Role, blocks: seq<InBlock>, n: nat)
    requires n <= |blocks| && AddBlocks(d, role, blocks[..n]).Err?
    ensures AddBlocks(d, role, blocks) == AddBlocks(d, role, blocks[..n])
    decreases |blocks|
  {
    if n == |blocks| {
      assert blocks[..n] == blocks;
    } else {
      assert blocks[..|blocks| - 1][..n] == blocks[..n];
      BlockErrorStays(d, role, blocks[..|blocks| - 1], n);
    }
  }

  lemma {:induction false} MessageErrorStays(messages: seq<InMessage>, n: nat)
    requires n <= |messages| && BuildInput(messages[..n]).Err?
    ensures BuildInput(messages) == BuildInput(messages[..n])
    decreases |messages|
  {
    if n == |messages| {
      assert messages[..n] == messages;
    } else {
      assert messages[..|messages| - 1][..n] == messages[..n];
      MessageErrorStays(messages[..|messages| - 1], n);
    }
  }

  method TranslateMessage(input: seq<InputItem>, m: InMessage) returns (r: Result<seq<InputItem>, BuildError>)
    ensures r == AddMessage(input, m)
  {
    if m.role != User && m.role != Assistant && m.role != System {
      return Err(UnsupportedRole);
    }
    var out, parts := input, [];
    for j := 0 to |m.content|
      invariant AddBlocks(Draft(input, []), m.role, m.content[..j]) == Ok(Draft(out, parts))
    {
      assert m.content[..j + 1][..j] == m.content[..j];
      var step := TranslateBlock(out, parts, m.role, m.content[j]);
      if step.Err? {
        BlockErrorStays(Draft(input, []), m.role, m.content, j + 1);
        return Err(step.error);
      }
      out, parts := step.value.input, step.value.parts;
    }
    assert m.content[..|m.content|] == m.content;
    out := Flush(out, m.role, parts);
    r := Ok(out);
  }

  method BuildResponsesInput(messages: seq<InMessage>) returns (r: Result<seq<InputItem>, BuildError>)
    ensures r == BuildInput(messages)
  {
    var out := [];
    for i := 0 to |messages|
      invariant BuildInput(messages[..i]) == Ok(out)
    {
      assert messages[..i + 1][..i] == messages[..i];
      var step := TranslateMessage(out, messages[i]);
      if step.Err? {
        MessageErrorStays(messages, i + 1);
        return Err(step.error);
      }
      out := step.value;
    }
    assert messages[..|messages|] == messages;
    r := Ok(out);
  }
}
