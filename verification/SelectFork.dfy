/**
 Which part of a parent conversation a sub-agent starts from, internal/agent/lifecycle.go
 (selectFork). What counts as a message made up by the program is decided elsewhere and
 comes in as a predicate.
 */
module SelectFork {
  import opened Messages
  import opened Wrappers

  datatype Mode = NoContext | WorkingSet | Full | LastN | OtherMode(name: string)

  predicate HasResult(m: Message) {
    exists b <- m.content :: b.ToolResult?
  }

  /** A turn the user really took. */
  predicate RealTurn(m: Message, synthetic: Message -> bool) {
    m.role == "user" && !synthetic(m) && !HasResult(m)
  }

  /** The real turns from position i on. */
  function TurnsFrom(messages: seq<Message>, synthetic: Message -> bool, i: nat): nat
    decreases |messages| - i
  {
    if i >= |messages| then 0
    else (if RealTurn(messages[i], synthetic) then 1 else 0) + TurnsFrom(messages, synthetic, i + 1)
  }

  /** Where the last n real turns begin: at a real turn, unless there are fewer than n. */
  predicate IsStart(messages: seq<Message>, synthetic: Message -> bool, n: nat, start: nat) {
    if TurnsFrom(messages, synthetic, 0) < n then start == 0
    else start < |messages| && RealTurn(messages[start], synthetic) && TurnsFrom(messages, synthetic, start) == n
  }

  lemma {:induction false} TurnsGrow(messages: seq<Message>, synthetic: Message -> bool, i: nat, j: nat)
    requires i <= j
    ensures TurnsFrom(messages, synthetic, j) <= TurnsFrom(messages, synthetic, i)
    ensures i < j && i < |messages| && RealTurn(messages[i], synthetic) ==>
              TurnsFrom(messages, synthetic, j) < TurnsFrom(messages, synthetic, i)
    decreases j - i
  {
    if i < j {
      TurnsGrow(messages, synthetic, i + 1, j);
    }
  }

  /** There is only one such position. */
  lemma StartIsUnique(messages: seq<Message>, synthetic: Message -> bool, n: nat, a: nat, b: nat)
    requires IsStart(messages, synthetic, n, a) && IsStart(messages, synthetic, n, b)
    ensures a == b
  {
    if a < b {
      TurnsGrow(messages, synthetic, a, b);
    } else if b < a {
      TurnsGrow(messages, synthetic, b, a);
    }
  }

  /** The suffix holds exactly the smaller of n and all real turns. */
  lemma StartKeepsTurns(messages: seq<Message>, synthetic: Message -> bool, n: nat, start: nat)
    requires IsStart(messages, synthetic, n, start)
    ensures var total := TurnsFrom(messages, synthetic, 0);
      TurnsFrom(messages, synthetic, start) == if n < total then n else total
    ensures start == 0 || RealTurn(messages[start], synthetic)
  {
    TurnsGrow(messages, synthetic, 0, start);
  }

  /** A fork that leaves something out starts with what the user said, never with the result
      of a tool or with a message the program made up. */
  lemma ForksStartWithTheUser(messages: seq<Message>, synthetic: Message -> bool, n: nat, start: nat)
    requires n > 0 && IsStart(messages, synthetic, n, start)
    ensures start > 0 ==>
              && start < |messages| && messages[start].role == "user" && !synthetic(messages[start])
              && forall b :: b in messages[start].content ==> !b.ToolResult?
  {
  }

  predicate Calls(m: Message, id: string) {
    exists b <- m.content :: b.ToolUse? && b.id == id
  }

  predicate Answers(m: Message, id: string) {
    exists b <- m.content :: b.ToolResult? && b.toolUseId == id
  }

  predicate CalledIn(messages: seq<Message>, lo: nat, hi: nat, id: string) {
    exists j :: lo <= j < hi && j < |messages| && Calls(messages[j], id)
  }

  /** A fork at `start` keeps the result at i but leaves its call behind. */
  predicate Orphans(messages: seq<Message>, start: nat, i: nat, id: string) {
    start <= i < |messages| && Answers(messages[i], id) && CalledIn(messages, 0, i, id) && !CalledIn(messages, start, i, id)
  }

  /** A real turn lies between a call and its result. */
  ghost predicate Interrupted(messages: seq<Message>, synthetic: Message -> bool) {
    exists k, i, id :: 0 <= k < |messages| && RealTurn(messages[k], synthetic) && Orphans(messages, k, i, id)
  }

  /**
   No choice of n ever cuts a tool exchange, exactly when no real turn of the
   conversation lies between a call and its result.
   */
  lemma ForksNeverCutIff(messages: seq<Message>, synthetic: Message -> bool)
    ensures !Interrupted(messages, synthetic) <==>
            forall n: nat, start: nat, i, id :: IsStart(messages, synthetic, n, start) ==> !Orphans(messages, start, i, id)
  {
    if Interrupted(messages, synthetic) {
      var k, i, id :| 0 <= k < |messages| && RealTurn(messages[k], synthetic) && Orphans(messages, k, i, id);
      TurnsGrow(messages, synthetic, 0, k);
      assert IsStart(messages, synthetic, TurnsFrom(messages, synthetic, k), k);
    } else {
      forall n: nat, start: nat, i, id | IsStart(messages, synthetic, n, start) ensures !Orphans(messages, start, i, id) {
        StartKeepsTurns(messages, synthetic, n, start);
      }
    }
  }

  /** The backward count over the history. */
  method CountBack(messages: seq<Message>, synthetic: Message -> bool, lastN: int) returns (start: nat)
    requires lastN > 0
    ensures IsStart(messages, synthetic, lastN, start)
  {
    start := 0;
    var n, i := lastN, |messages| - 1;
    while i >= 0
      invariant -1 <= i < |messages| && start == 0
      invariant n > 0 && n + TurnsFrom(messages, synthetic, i + 1) == lastN
    {
      var m := messages[i];
      if m.role == "user" && !synthetic(m) {
        var hasResult := false;
        for j := 0 to |m.content|
          invariant hasResult <==> exists b <- m.content[..j] :: b.ToolResult?
        {
          assert m.content[..j + 1] == m.content[..j] + [m.content[j]];
          if m.content[j].ToolResult? {
            hasResult := true;
          }
        }
        assert m.content[..|m.content|] == m.content;
        if !hasResult {
          n := n - 1;
          if n == 0 {
            start := i;
            TurnsGrow(messages, synthetic, 0, i);
            break;
          }
        }
      }
      i := i - 1;
    }
  }

  /** None: the mode is not one of the four. */
  method Select(mode: Mode, lastN: int, parent: Snapshot, synthetic: Message -> bool) returns (r: Option<Snapshot>)
    ensures r.None? <==> mode.OtherMode?
    ensures mode == NoContext ==> r == Some(Snapshot([], ""))
    ensures mode == WorkingSet ==> r == Some(Snapshot([], parent.workingSet))
    ensures mode == Full ==> r == Some(parent)
    ensures mode == LastN ==>
              r.Some? && r.value.workingSet == parent.workingSet &&
              exists start: nat :: start <= |parent.messages| && r.value.messages == parent.messages[start..]
                                   && IsStart(parent.messages, synthetic, if lastN <= 0 then 10 else lastN, start)
  {
    match mode
    case NoContext => r := Some(Snapshot([], ""));
    case WorkingSet => r := Some(Snapshot([], parent.workingSet));
    case Full => r := Some(parent);
    case LastN =>
      var n := lastN;
      if n <= 0 {
        n := 10;
      }
      var start := CountBack(parent.messages, synthetic, n);
      r := Some(Snapshot(parent.messages[start..], parent.workingSet));
    case OtherMode(_) => r := None;
  }
}
