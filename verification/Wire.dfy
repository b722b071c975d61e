/**
 What both OpenAI-style protocols are translated into: the blocks of an assistant
 message, why it stopped and what it cost (internal/anthropic/openai.go).
 */
module Wire {
  import opened Strings
  import opened Wrappers

  /** A content part of an input or output item, with the fields the wire carries. */
  datatype PartKind = InputText | OutputText | InputImage | RefusalPart | SummaryText | OtherPart(name: string)

  datatype Part = Part(kind: PartKind, text: string, imageUrl: string, refusal: string)

  /** What replays a reasoning item: its id, its summary parts and its opaque payload. */
  datatype Reasoning = Reasoning(id: string, summary: seq<Part>, encrypted: string)

  /** Native: anything that does not carry the responses prefix, the empty text included. */
  datatype Signature = Native(text: string) | Envelope(reasoning: Reasoning) | Undecodable | NotReasoning

  /** FromText: the JSON value that the text decodes to, or an object that holds the text
      as `raw` when it decodes to none. */
  datatype Input = EmptyObject | FromText(text: string)

  function InputOf(arguments: string): Input {
    if Trim(arguments) == "" then EmptyObject else FromText(Trim(arguments))
  }

  /** Arguments that are nothing but space stand for the empty object; of others the space
      around them does not count. */
  lemma InputIs(a: string, text: string, b: string)
    requires AllSpace(a) && Clean(text) && AllSpace(b)
    ensures InputOf(a + text + b) == if text == "" then EmptyObject else FromText(text)
  {
    TrimIs(a, text, b);
  }

  datatype Block =
    | Text(text: string)
    | Thinking(thinking: string, signature: Signature)
    | ToolUse(id: string, name: string, input: Input)

  datatype Stop = EndTurn | ToolCalls | MaxTokens | Refused

  datatype Usage = Usage(input: int, output: int, cacheRead: int, cacheCreation: int)

  datatype WireUsage = WireUsage(prompt: int, completion: int, cacheRead: int, cacheCreation: int, cachedDetail: Option<int>)

  datatype Message = Message(id: string, model: string, content: seq<Block>, stop: Stop, usage: Usage)

  const NO_USAGE := Usage(0, 0, 0, 0)

  /** mapOpenAIUsage: the prompt is split into what was read from the cache and the rest. */
  function MapUsage(usage: Option<WireUsage>): (u: Usage)
    ensures usage.None? ==> u == NO_USAGE
    ensures usage.Some? ==> u.output == usage.value.completion && u.cacheCreation == usage.value.cacheCreation
    ensures usage.Some? && usage.value.cacheRead != 0 ==> u.cacheRead == usage.value.cacheRead
    ensures usage.Some? && usage.value.cacheRead == 0 ==>
              u.cacheRead == if usage.value.cachedDetail.Some? then usage.value.cachedDetail.value else 0
    ensures usage.Some? && 0 <= u.cacheRead <= usage.value.prompt ==> u.input + u.cacheRead == usage.value.prompt
    ensures usage.Some? && !(0 <= u.cacheRead <= usage.value.prompt) ==> u.input == usage.value.prompt
  {
    match usage
    case None => NO_USAGE
    case Some(w) =>
      var cacheRead := if w.cacheRead == 0 && w.cachedDetail.Some? then w.cachedDetail.value else w.cacheRead;
      var input := if cacheRead > 0 && w.prompt >= cacheRead then w.prompt - cacheRead else w.prompt;
      Usage(input, w.completion, cacheRead, w.cacheCreation)
  }
}
