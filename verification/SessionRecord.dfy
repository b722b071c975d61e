/**
 The record object of internal/agent/session_store.go: Active and apply as the
 loops that the source runs, proved against Transcript.
 */
module SessionRecord {
  import opened Wrappers
  import opened Messages
  import opened Transcript

  method ExtendsToolResults(before: Message, after: Message) returns (ok: bool)
    ensures ok <==> Extends(before, after)
  {
    if before.role != "user" || after.role != "user" || |before.content| == 0 || |after.content| <= |before.content| {
      return false;
    }
    for i := 0 to |before.content|
      invariant forall j :: 0 <= j < i ==> before.content[j].ToolResult? && before.content[j] == after.content[j]
    {
      if !before.content[i].ToolResult? || before.content[i] != after.content[i] {
        return false;
      }
    }
    for i := 0 to |after.content|
      invariant forall j :: 0 <= j < i ==> after.content[j].ToolResult?
    {
      if !after.content[i].ToolResult? {
        return false;
      }
    }
    assert before.content == after.content[..|before.content|];
    return true;
  }

  lemma LastIndexSnoc(ms: seq<Message>, i: nat, m: Message)
    requires i < |ms|
    ensures LastIndex(ms[..i + 1], m) == if ms[i] == m then Some(i) else LastIndex(ms[..i], m)
  {
    assert ms[..i + 1][..i] == ms[..i];
  }

  /** The lookup table of a compacted checkpoint: the archive overrides the fork, and
      later copies override earlier ones. */
  method BuildKnown(messages: seq<Message>, fork: seq<Message>) returns (known: map<Message, int>)
    ensures forall m :: (m in known <==> Known(messages, fork, m).Some?) &&
                        (m in known ==> known[m] == Known(messages, fork, m).value)
  {
    known := map[];
    for i := 0 to |fork|
      invariant forall m :: (m in known <==> LastIndex(fork[..i], m).Some?) &&
                            (m in known ==> known[m] == -1 - LastIndex(fork[..i], m).value)
    {
      forall m { LastIndexSnoc(fork, i, m); }
      known := known[fork[i] := -1 - i];
    }
    assert fork[..|fork|] == fork;
    for i := 0 to |messages|
      invariant forall m ::
        var own, inherited := LastIndex(messages[..i], m), LastIndex(fork, m);
        (m in known <==> own.Some? || inherited.Some?) &&
        (m in known ==> known[m] == if own.Some? then own.value else -1 - inherited.value)
    {
      forall m { LastIndexSnoc(messages, i, m); }
      known := known[messages[i] := i];
    }
    assert messages[..|messages|] == messages;
  }

  lemma PlaceSnoc(rest: seq<Message>, i: nat, reuse: bool, messages: seq<Message>, fork: seq<Message>)
    requires i < |rest|
    ensures var before, after := Place(rest[..i], reuse, messages, fork), Place(rest[..i + 1], reuse, messages, fork);
      if reuse && Known(messages, fork, rest[i]).Some? then
        after == Placed(before.refs + [Known(messages, fork, rest[i]).value], before.added)
      else
        after == Placed(before.refs + [|messages| + |before.added|], before.added + [rest[i]])
  {
    assert rest[..i + 1][..i] == rest[..i];
  }

  lemma CommonIs(a: seq<Message>, b: seq<Message>, k: nat, n: nat)
    requires k <= n <= |a| && n <= |b|
    requires forall i :: k <= i < n ==> a[i] == b[i]
    requires n < |a| && n < |b| ==> a[n] != b[n]
    ensures Common(a, b, k) == n
    decreases n - k
  {
    if k < n {
      CommonIs(a, b, k + 1, n);
    }
  }

  class SessionRecord {
    var messages: seq<Message>
    var stamps: seq<int>
    var context: seq<int>
    var workingSet: string

    function Abs(): Record
      reads this
    {
      Record(messages, stamps, context, workingSet)
    }

    constructor (fork: Snapshot)
      ensures Abs() == Initial(fork)
    {
      messages, stamps, workingSet := [], [], fork.workingSet;
      context := seq(|fork.messages|, i => -1 - i);
    }

    method ActiveMessages(fork: seq<Message>) returns (out: Option<seq<Message>>)
      ensures out == Active(Abs(), fork)
    {
      var picked: seq<Message> := [];
      for i := 0 to |context|
        invariant |picked| == i
        invariant forall j :: 0 <= j < i ==> Resolve(messages, fork, context[j]) == Some(picked[j])
      {
        var ref := context[i];
        var index := if ref < 0 then -1 - ref else ref;
        var source := if ref < 0 then fork else messages;
        if index >= |source| {
          assert Resolve(messages, fork, context[i]).None?;
          return None;
        }
        picked := picked + [source[index]];
      }
      assert picked == Active(Abs(), fork).value;
      return Some(picked);
    }

    method ApplyCheckpoint(cp: Checkpoint, fork: seq<Message>, now: int) returns (ok: bool)
      modifies this
      ensures ok <==> Apply(old(Abs()), cp, fork, now).Some?
      ensures ok ==> Some(Abs()) == Apply(old(Abs()), cp, fork, now)
      ensures !ok ==> Abs() == old(Abs())
    {
      ghost var r := Abs();
      var previous := ActiveMessages(fork);
      if previous.None? {
        return false;
      }
      var prev := previous.value;
      var refs, kept := KeepPrefix(cp, prev, fork);
      var more := StoreRest(cp, kept, fork, now);
      refs := refs + more;
      context := refs;
      if |cp.workingSet| != 0 && cp.workingSet != workingSet {
        workingSet := cp.workingSet;
      }
      return true;
    }

    /** References for the messages after the kept prefix; unknown ones are appended. */
    method StoreRest(cp: Checkpoint, kept: nat, fork: seq<Message>, now: int) returns (refs: seq<int>)
      requires kept <= |cp.messages|
      modifies this`messages, this`stamps
      ensures var placed := Place(cp.messages[kept..], cp.compacted, old(messages), fork);
        && refs == placed.refs
        && messages == old(messages) + placed.added
        && stamps == old(stamps) + seq(|placed.added|, _ => now)
    {
      var known: map<Message, int> := map[];
      if cp.compacted {
        known := BuildKnown(messages, fork);
      }
      refs := [];
      var rest := cp.messages[kept..];
      ghost var placed := Placed([], []);
      for i := 0 to |rest|
        invariant placed == Place(rest[..i], cp.compacted, old(messages), fork)
        invariant refs == placed.refs
        invariant messages == old(messages) + placed.added
        invariant stamps == old(stamps) + seq(|placed.added|, _ => now)
      {
        var m := rest[i];
        PlaceSnoc(rest, i, cp.compacted, old(messages), fork);
        placed := Place(rest[..i + 1], cp.compacted, old(messages), fork);
        if cp.compacted && m in known {
          refs := refs + [known[m]];
        } else {
          refs := refs + [|messages|];
          messages := messages + [m];
          stamps := stamps + [now];
        }
      }
      assert rest[..|rest|] == rest;
    }

    /** The common prefix, and the completion of a partial last tool result in place. */
    method KeepPrefix(cp: Checkpoint, prev: seq<Message>, fork: seq<Message>) returns (refs: seq<int>, prefix: nat)
      requires Active(Abs(), fork) == Some(prev)
      modifies this`messages
      ensures prefix == Kept(old(Abs()), prev, cp)
      ensures refs == context[..prefix]
      ensures messages == Amended(old(Abs()), prev, cp, fork)
    {
      ghost var r := Abs();
      refs, prefix := [], 0;
      if !cp.compacted {
        while prefix < |prev| && prefix < |cp.messages| && prev[prefix] == cp.messages[prefix]
          invariant prefix <= |prev| && prefix <= |cp.messages|
          invariant forall i :: 0 <= i < prefix ==> prev[i] == cp.messages[i]
        {
          prefix := prefix + 1;
        }
        CommonIs(prev, cp.messages, 0, prefix);
        refs := context[..prefix];
        if prefix + 1 == |prev| && prefix < |cp.messages| && context[prefix] >= 0 {
          var completes := ExtendsToolResults(prev[prefix], cp.messages[prefix]);
          if completes {
            var ref := context[prefix];
            assert Resolve(messages, fork, ref).Some?;
            messages := messages[ref := cp.messages[prefix]];
            refs := refs + [ref];
            prefix := prefix + 1;
          }
        }
      }
    }
  }
}
