/**
 PendingToolIDs of internal/agent/session_store.go and the repair that start in
 internal/agent/lifecycle.go builds from it.
 */
module PendingTools {
  import opened Messages

  /** The last block that mentions the call id is the call itself. */
  predicate LastIsCall(blocks: seq<Block>, id: string) {
    blocks != [] &&
    match blocks[|blocks| - 1]
    case ToolUse(x, _, _) => x == id || LastIsCall(blocks[..|blocks| - 1], id)
    case ToolResult(x, _, _) => x != id && LastIsCall(blocks[..|blocks| - 1], id)
    case _ => LastIsCall(blocks[..|blocks| - 1], id)
  }

  function Calls(blocks: seq<Block>): seq<string> {
    if blocks == [] then []
    else
      var n := |blocks| - 1;
      Calls(blocks[..n]) + (if blocks[n].ToolUse? then [blocks[n].id] else [])
  }

  /** The ids of `ids` whose call has no later result, in order. */
  function Open(ids: seq<string>, blocks: seq<Block>): seq<string> {
    if ids == [] then []
    else
      var n := |ids| - 1;
      Open(ids[..n], blocks) + (if LastIsCall(blocks, ids[n]) then [ids[n]] else [])
  }

  function Pending(messages: seq<Message>): seq<string> {
    var blocks := Blocks(messages);
    Open(Calls(blocks), blocks)
  }

  /** Block i is the call id, and no result for it follows. */
  ghost predicate UnansweredAt(blocks: seq<Block>, id: string, i: nat) {
    && i < |blocks| && blocks[i].ToolUse? && blocks[i].id == id
    && forall j :: i < j < |blocks| && blocks[j].ToolResult? ==> blocks[j].toolUseId != id
  }

  lemma {:induction false} LastIsCallMeans(blocks: seq<Block>, id: string)
    ensures LastIsCall(blocks, id) <==> exists i :: UnansweredAt(blocks, id, i)
  {
    if blocks != [] {
      var n := |blocks| - 1;
      LastIsCallMeans(blocks[..n], id);
      if blocks[n].ToolUse? && blocks[n].id == id {
        assert UnansweredAt(blocks, id, n);
      } else if LastIsCall(blocks, id) {
        var i :| UnansweredAt(blocks[..n], id, i);
        assert forall j :: 0 <= j < n ==> blocks[..n][j] == blocks[j];
        assert UnansweredAt(blocks, id, i);
      } else if i :| UnansweredAt(blocks, id, i) {
        assert UnansweredAt(blocks[..n], id, i);
      }
    }
  }

  lemma CallsMention(blocks: seq<Block>, id: string)
    requires LastIsCall(blocks, id)
    ensures id in Calls(blocks)
  {
  }

  lemma OpenMeans(ids: seq<string>, blocks: seq<Block>, id: string)
    ensures id in Open(ids, blocks) <==> id in ids && LastIsCall(blocks, id)
  {
    if ids != [] {
      var n := |ids| - 1;
      OpenMeans(ids[..n], blocks, id);
      assert ids == ids[..n] + [ids[n]];
    }
  }

  /** The list names exactly the ids whose last occurrence is a call. */
  lemma PendingMeans(messages: seq<Message>, id: string)
    ensures id in Pending(messages) <==> LastIsCall(Blocks(messages), id)
  {
    OpenMeans(Calls(Blocks(messages)), Blocks(messages), id);
    if LastIsCall(Blocks(messages), id) {
      CallsMention(Blocks(messages), id);
    }
  }

  lemma BlockSnoc(blocks: seq<Block>, b: Block)
    ensures Calls(blocks + [b]) == Calls(blocks) + (if b.ToolUse? then [b.id] else [])
    ensures forall id :: LastIsCall(blocks + [b], id) <==>
      (b.ToolUse? && b.id == id) || (LastIsCall(blocks, id) && !(b.ToolResult? && b.toolUseId == id))
  {
    assert (blocks + [b])[..|blocks|] == blocks;
  }

  /** The scan over all blocks: the set of open ids and the calls in order. */
  method ScanBlocks(messages: seq<Message>) returns (pending: set<string>, order: seq<string>)
    ensures order == Calls(Blocks(messages))
    ensures forall id :: id in pending <==> LastIsCall(Blocks(messages), id)
  {
    pending, order := {}, [];
    ghost var seen: seq<Block> := [];
    for i := 0 to |messages|
      invariant seen == Blocks(messages[..i])
      invariant forall id :: id in pending <==> LastIsCall(seen, id)
      invariant order == Calls(seen)
    {
      var m := messages[i];
      pending, order := ScanContent(m.content, pending, order, seen);
      assert messages[..i + 1] == messages[..i] + [m];
      BlocksSnoc(messages[..i], m);
      seen := seen + m.content;
    }
    assert messages[..|messages|] == messages;
  }

  method ScanContent(content: seq<Block>, pending0: set<string>, order0: seq<string>, ghost seen0: seq<Block>)
    returns (pending: set<string>, order: seq<string>)
    requires order0 == Calls(seen0) && forall id :: id in pending0 <==> LastIsCall(seen0, id)
    ensures order == Calls(seen0 + content) && forall id :: id in pending <==> LastIsCall(seen0 + content, id)
  {
    pending, order := pending0, order0;
    ghost var seen := seen0;
    for j := 0 to |content|
      invariant seen == seen0 + content[..j]
      invariant forall id :: id in pending <==> LastIsCall(seen, id)
      invariant order == Calls(seen)
    {
      var b := content[j];
      BlockSnoc(seen, b);
      seen := seen + [b];
      match b
      case ToolUse(id, _, _) => pending, order := pending + {id}, order + [id];
      case ToolResult(id, _, _) => pending := pending - {id};
      case _ =>
    }
    assert content[..|content|] == content;
  }

  method PendingToolIDs(messages: seq<Message>) returns (out: seq<string>)
    ensures out == Pending(messages)
  {
    var pending, order := ScanBlocks(messages);
    out := [];
    for k := 0 to |order|
      invariant out == Open(order[..k], Blocks(messages))
    {
      assert order[..k + 1][..k] == order[..k];
      if order[k] in pending {
        out := out + [order[k]];
      }
    }
    assert order[..|order|] == order;
  }

  // ------------------------------------------------------------- recovery

  const UNKNOWN_OUTCOME := "Execution outcome unknown after interruption. Caller acknowledged reconciliation. Do not replay this call; verify external state before any new mutation."

  function UnknownResults(ids: seq<string>): seq<Block> {
    seq(|ids|, i requires 0 <= i < |ids| => ToolResult(ids[i], UNKNOWN_OUTCOME, true))
  }

  /** The transcript an acknowledged resume continues from. */
  function Recovered(messages: seq<Message>): seq<Message> {
    var ids := Pending(messages);
    var n := |messages|;
    if ids == [] then messages
    else if n > 0 && messages[n - 1].role == "user" && messages[n - 1].content != [] && messages[n - 1].content[0].ToolResult? then
      messages[..n - 1] + [Message("user", messages[n - 1].content + UnknownResults(ids))]
    else messages + [Message("user", UnknownResults(ids))]
  }

  lemma RecoveredBlocks(messages: seq<Message>)
    ensures Blocks(Recovered(messages)) == Blocks(messages) + UnknownResults(Pending(messages))
  {
    var ids := Pending(messages);
    var n := |messages|;
    if n > 0 && messages[n - 1].role == "user" && messages[n - 1].content != [] && messages[n - 1].content[0].ToolResult? {
      BlocksSnoc(messages[..n - 1], Message("user", messages[n - 1].content + UnknownResults(ids)));
    } else {
      BlocksSnoc(messages, Message("user", UnknownResults(ids)));
    }
  }

  lemma ResultsClose(blocks: seq<Block>, ids: seq<string>, id: string)
    ensures LastIsCall(blocks + UnknownResults(ids), id) <==> LastIsCall(blocks, id) && id !in ids
  {
    if ids == [] {
      assert blocks + UnknownResults(ids) == blocks;
    } else {
      var n := |ids| - 1;
      ResultsClose(blocks, ids[..n], id);
      assert (blocks + UnknownResults(ids))[..|blocks| + n] == blocks + UnknownResults(ids[..n]);
      assert ids == ids[..n] + [ids[n]];
    }
  }

  /** What follows does not reopen a call. */
  lemma {:induction false} AppendKeepsClosed(a: seq<Block>, b: seq<Block>, tail: seq<Block>, id: string)
    requires LastIsCall(a, id) ==> LastIsCall(b, id)
    ensures LastIsCall(a + tail, id) ==> LastIsCall(b + tail, id)
  {
    if tail == [] {
      assert a + tail == a && b + tail == b;
    } else {
      var n := |tail| - 1;
      AppendKeepsClosed(a, b, tail[..n], id);
      assert (a + tail)[..|a| + n] == a + tail[..n] && (b + tail)[..|b| + n] == b + tail[..n];
    }
  }

  /** a is b with the unknown results of ids added to some messages. */
  predicate Supplemented(a: seq<Message>, b: seq<Message>, ids: seq<string>) {
    |a| == |b| && forall i :: 0 <= i < |a| ==> a[i].content == b[i].content || a[i].content == b[i].content + UnknownResults(ids)
  }

  lemma Regroup(a: seq<Block>, b: seq<Block>, c: seq<Block>)
    ensures a + (b + c) == (a + b) + c
  {
  }

  /** Nor do results added in between. */
  lemma ResultsKeepClosed(a: seq<Block>, b: seq<Block>, tail: seq<Block>, ids: seq<string>, id: string)
    requires LastIsCall(a, id) ==> LastIsCall(b, id)
    ensures LastIsCall(a + tail, id) ==> LastIsCall(b + tail, id)
    ensures LastIsCall(a + (tail + UnknownResults(ids)), id) ==> LastIsCall(b + tail, id)
  {
    AppendKeepsClosed(a, b, tail, id);
    Regroup(a, tail, UnknownResults(ids));
    ResultsClose(a + tail, ids, id);
  }

  lemma {:induction false} SupplementKeepsClosed(a: seq<Message>, b: seq<Message>, ids: seq<string>, id: string)
    requires Supplemented(a, b, ids)
    ensures LastIsCall(Blocks(a), id) ==> LastIsCall(Blocks(b), id)
  {
    if a != [] {
      var n := |a| - 1;
      SupplementKeepsClosed(a[..n], b[..n], ids, id);
      ResultsKeepClosed(Blocks(a[..n]), Blocks(b[..n]), b[n].content, ids, id);
    }
  }

  /** A transcript that ends with the recovered last message has no open call, even where
      copies of that message earlier on were completed along with it. */
  lemma SupplementedRecovery(messages: seq<Message>, now: seq<Message>)
    requires messages != [] && |now| == |messages|
    requires Supplemented(now, messages, Pending(messages))
    requires now[|now| - 1].content == messages[|now| - 1].content + UnknownResults(Pending(messages))
    ensures Pending(now) == []
  {
    if Pending(now) != [] {
      var id := Pending(now)[0];
      PendingMeans(now, id);
      PendingMeans(messages, id);
      SupplementCloses(messages, now, Pending(messages), id);
    }
  }

  lemma SupplementCloses(messages: seq<Message>, now: seq<Message>, ids: seq<string>, id: string)
    requires messages != [] && Supplemented(now, messages, ids)
    requires now[|now| - 1].content == messages[|now| - 1].content + UnknownResults(ids)
    ensures LastIsCall(Blocks(now), id) ==> LastIsCall(Blocks(messages), id) && id !in ids
  {
    var n := |now| - 1;
    var before, last := Blocks(now[..n]), messages[n].content;
    SupplementKeepsClosed(now[..n], messages[..n], ids, id);
    AppendKeepsClosed(before, Blocks(messages[..n]), last, id);
    assert Blocks(now) == (before + last) + UnknownResults(ids);
    ResultsClose(before + last, ids, id);
  }

  /** After recovery no call is open; every earlier message is kept, and the last one
      is at most extended by results. */
  lemma RecoveryClosesEveryCall(messages: seq<Message>)
    ensures Pending(Recovered(messages)) == []
    ensures |messages| <= |Recovered(messages)| <= |messages| + 1
    ensures forall i :: 0 <= i < |messages| ==>
      var m, m' := messages[i], Recovered(messages)[i];
      m' == m || (i == |messages| - 1 && m'.role == m.role && m'.content == m.content + UnknownResults(Pending(messages)))
  {
    var ids := Pending(messages);
    var after := Pending(Recovered(messages));
    if after != [] {
      var id := after[0];
      PendingMeans(Recovered(messages), id);
      RecoveredBlocks(messages);
      ResultsClose(Blocks(messages), ids, id);
      PendingMeans(messages, id);
    }
  }

  /** A user message that opens with a tool result is one that results can be added to. */
  predicate TakesResults(m: Message) {
    m.role == "user" && m.content != [] && m.content[0].ToolResult?
  }

  /** blocks answers each of these calls, in order, with an error that tells the agent not
      to repeat it. */
  predicate AnswersUnknown(blocks: seq<Block>, ids: seq<string>) {
    && |blocks| == |ids|
    && forall i :: 0 <= i < |ids| ==>
         blocks[i].ToolResult? && blocks[i].toolUseId == ids[i] && blocks[i].isError && blocks[i].output == UNKNOWN_OUTCOME
  }

  /** Recovery adds one result per open call: to the last message if that one takes
      results, as a new user message otherwise. */
  lemma RecoveryAnswersOnce(messages: seq<Message>)
    ensures var n, ids, after := |messages|, Pending(messages), Recovered(messages);
      && (ids == [] ==> after == messages)
      && (ids != [] && n > 0 && TakesResults(messages[n - 1]) ==>
            && |after| == n && after[..n - 1] == messages[..n - 1] && after[n - 1].role == "user"
            && messages[n - 1].content <= after[n - 1].content
            && AnswersUnknown(after[n - 1].content[|messages[n - 1].content|..], ids))
      && (ids != [] && !(n > 0 && TakesResults(messages[n - 1])) ==>
            && |after| == n + 1 && after[..n] == messages && after[n].role == "user" && AnswersUnknown(after[n].content, ids))
  {
  }

  lemma {:induction false} OpenAppends(a: seq<string>, b: seq<string>, blocks: seq<Block>)
    ensures Open(a + b, blocks) == Open(a, blocks) + Open(b, blocks)
  {
    if b == [] {
      assert a + b == a;
    } else {
      assert (a + b)[..|a + b| - 1] == a + b[..|b| - 1];
      OpenAppends(a, b[..|b| - 1], blocks);
    }
  }

  lemma {:induction false} CallsAppend(a: seq<Block>, b: seq<Block>)
    ensures Calls(a + b) == Calls(a) + Calls(b)
  {
    if b == [] {
      assert a + b == a;
    } else {
      assert (a + b)[..|a + b| - 1] == a + b[..|b| - 1];
      CallsAppend(a, b[..|b| - 1]);
    }
  }

  /** Open calls are listed as they were made: those of earlier blocks before those of later
      ones, and each as often as it was made. */
  lemma PendingFollowsTheCalls(messages: seq<Message>, a: seq<Block>, b: Block, c: seq<Block>)
    requires Blocks(messages) == a + [b] + c && b.ToolUse?
    ensures Pending(messages) ==
            Open(Calls(a), Blocks(messages)) + (if LastIsCall(Blocks(messages), b.id) then [b.id] else []) + Open(Calls(c), Blocks(messages))
  {
    var blocks := Blocks(messages);
    CallsAppend(a + [b], c);
    BlockSnoc(a, b);
    OpenAppends(Calls(a + [b]), Calls(c), blocks);
    OpenAppends(Calls(a), [b.id], blocks);
    assert [b.id][..0] == [];
  }

  /** The block building of start, once the caller acknowledged the interruption. */
  method Recover(messages: seq<Message>) returns (out: seq<Message>)
    ensures out == Recovered(messages)
  {
    var pending := PendingToolIDs(messages);
    out := messages;
    if |pending| > 0 {
      var blocks: seq<Block> := [];
      for i := 0 to |pending|
        invariant blocks == UnknownResults(pending[..i])
      {
        blocks := blocks + [ToolResult(pending[i], UNKNOWN_OUTCOME, true)];
      }
      assert pending[..|pending|] == pending;
      var n := |messages|;
      if n > 0 && messages[n - 1].role == "user" {
        var last := messages[n - 1];
        if |last.content| > 0 && last.content[0].ToolResult? {
          out := out[n - 1 := last.(content := last.content + blocks)];
          assert out == Recovered(messages);
        } else {
          out := out + [Message("user", blocks)];
        }
      } else {
        out := out + [Message("user", blocks)];
      }
    }
  }
}
