/**
 The conversation messages that the sub-agent code reads and writes.  Two messages
 are the same when their encodings are, so the model compares values.
 */
module Messages {
  datatype Block =
    | Text(text: string)
    | ToolUse(id: string, name: string, input: string)
    | ToolResult(toolUseId: string, output: string, isError: bool)
    | OtherBlock(encoded: string)

  datatype Message = Message(role: string, content: seq<Block>)

  /** workingSet is raw encoded data; "" stands for none. */
  datatype Snapshot = Snapshot(messages: seq<Message>, workingSet: string)

  function Blocks(messages: seq<Message>): seq<Block> {
    if messages == [] then []
    else Blocks(messages[..|messages| - 1]) + messages[|messages| - 1].content
  }

  lemma BlocksSnoc(messages: seq<Message>, m: Message)
    ensures Blocks(messages + [m]) == Blocks(messages) + m.content
  {
    assert (messages + [m])[..|messages|] == messages;
  }
}
