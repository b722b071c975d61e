/**
 The durable record of a sub-agent, internal/agent/session_store.go: an archive of
 messages and a list of references into it (or, when negative, into an immutable
 fork).  `Apply` is the incremental update; the theorems say that it is as good as
 storing the checkpoint's messages, and that the archive only grows.
 */
module Transcript {
  import opened Wrappers
  import opened Messages

  datatype Checkpoint = Checkpoint(messages: seq<Message>, workingSet: string, compacted: bool)

  datatype Record = Record(
    messages: seq<Message>,
    stamps: seq<int>,
    context: seq<int>,
    workingSet: string)

  function Resolve(messages: seq<Message>, fork: seq<Message>, ref: int): Option<Message> {
    if 0 <= ref < |messages| then Some(messages[ref])
    else if ref < 0 && -1 - ref < |fork| then Some(fork[-1 - ref])
    else None
  }

  predicate ValidRefs(r: Record, fork: seq<Message>) {
    forall i :: 0 <= i < |r.context| ==> Resolve(r.messages, fork, r.context[i]).Some?
  }

  /** The active context; None is the error for a reference out of range. */
  function Active(r: Record, fork: seq<Message>): Option<seq<Message>> {
    if ValidRefs(r, fork) then
      Some(seq(|r.context|, i requires 0 <= i < |r.context| => Resolve(r.messages, fork, r.context[i]).value))
    else None
  }

  /** A user message made of tool results only. */
  predicate IsResults(m: Message) {
    m.role == "user" && m.content != [] && forall i :: 0 <= i < |m.content| ==> m.content[i].ToolResult?
  }

  predicate Extends(before: Message, after: Message) {
    IsResults(before) && IsResults(after) && before.content < after.content
  }

  // -------------------------------------------------------------- the update

  function Common(a: seq<Message>, b: seq<Message>, k: nat): (n: nat)
    requires k <= |a| && k <= |b|
    ensures k <= n <= |a| && n <= |b|
    ensures forall i :: k <= i < n ==> a[i] == b[i]
    ensures n < |a| && n < |b| ==> a[n] != b[n]
    decreases |a| - k
  {
    if k < |a| && k < |b| && a[k] == b[k] then Common(a, b, k + 1) else k
  }

  /** The last position of m. */
  function LastIndex(ms: seq<Message>, m: Message): (k: Option<nat>)
    ensures k.Some? ==> k.value < |ms| && ms[k.value] == m
    ensures k.None? ==> m !in ms
  {
    if ms == [] then None
    else if ms[|ms| - 1] == m then Some(|ms| - 1)
    else
      assert ms == ms[..|ms| - 1] + [ms[|ms| - 1]];
      LastIndex(ms[..|ms| - 1], m)
  }

  /** A reference to a message that is already stored, the archive before the fork. */
  function Known(messages: seq<Message>, fork: seq<Message>, m: Message): (ref: Option<int>)
    ensures ref.Some? ==> Resolve(messages, fork, ref.value) == Some(m)
  {
    var own, inherited := LastIndex(messages, m), LastIndex(fork, m);
    if own.Some? then Some(own.value) else if inherited.Some? then Some(-1 - inherited.value) else None
  }

  datatype Placed = Placed(refs: seq<int>, added: seq<Message>)

  /** References for the messages after the kept prefix, and those stored anew. */
  function Place(rest: seq<Message>, reuse: bool, messages: seq<Message>, fork: seq<Message>): Placed {
    if rest == [] then Placed([], [])
    else
      var n := |rest| - 1;
      var done := Place(rest[..n], reuse, messages, fork);
      var ref := if reuse then Known(messages, fork, rest[n]) else None;
      if ref.Some? then Placed(done.refs + [ref.value], done.added)
      else Placed(done.refs + [|messages| + |done.added|], done.added + [rest[n]])
  }

  /** How much of the checkpoint is already the active context. */
  function Prefix(prev: seq<Message>, cp: Checkpoint): (k: nat)
    ensures k <= |prev| && k <= |cp.messages|
  {
    if cp.compacted then 0 else Common(prev, cp.messages, 0)
  }

  /** The last active message is completed in place. */
  predicate Amends(r: Record, prev: seq<Message>, cp: Checkpoint)
    requires |prev| == |r.context|
  {
    var k := Prefix(prev, cp);
    !cp.compacted && k + 1 == |prev| && k < |cp.messages| && r.context[k] >= 0 && Extends(prev[k], cp.messages[k])
  }

  function Kept(r: Record, prev: seq<Message>, cp: Checkpoint): (k: nat)
    requires |prev| == |r.context|
    ensures k <= |prev| && k <= |cp.messages|
  {
    Prefix(prev, cp) + (if Amends(r, prev, cp) then 1 else 0)
  }

  /** The archive before anything new is stored. */
  function Amended(r: Record, prev: seq<Message>, cp: Checkpoint, fork: seq<Message>): seq<Message>
    requires Active(r, fork) == Some(prev)
  {
    var k := Prefix(prev, cp);
    if Amends(r, prev, cp) then
      assert Resolve(r.messages, fork, r.context[k]).Some?;
      r.messages[r.context[k] := cp.messages[k]]
    else r.messages
  }

  function Applied(r: Record, prev: seq<Message>, cp: Checkpoint, fork: seq<Message>, now: int): Record
    requires Active(r, fork) == Some(prev)
  {
    var kept := Kept(r, prev, cp);
    var messages := Amended(r, prev, cp, fork);
    var placed := Place(cp.messages[kept..], cp.compacted, messages, fork);
    Record(
      messages + placed.added,
      r.stamps + seq(|placed.added|, _ => now),
      r.context[..kept] + placed.refs,
      if cp.workingSet != "" then cp.workingSet else r.workingSet)
  }

  /** None when the old context holds an invalid reference: nothing is changed. */
  function Apply(r: Record, cp: Checkpoint, fork: seq<Message>, now: int): Option<Record> {
    var prev := Active(r, fork);
    if prev.None? then None else Some(Applied(r, prev.value, cp, fork, now))
  }

  // ------------------------------------------------------ exactness of a call

  lemma ResolveMore(messages: seq<Message>, more: seq<Message>, fork: seq<Message>, ref: int)
    requires Resolve(messages, fork, ref).Some?
    ensures Resolve(messages + more, fork, ref) == Resolve(messages, fork, ref)
  {
  }

  lemma PlaceResolves(rest: seq<Message>, reuse: bool, messages: seq<Message>, fork: seq<Message>)
    ensures var p := Place(rest, reuse, messages, fork);
      && |p.refs| == |rest|
      && (forall i :: 0 <= i < |rest| ==> Resolve(messages + p.added, fork, p.refs[i]) == Some(rest[i]))
  {
    if rest != [] {
      var n := |rest| - 1;
      PlaceResolves(rest[..n], reuse, messages, fork);
      var p, q := Place(rest, reuse, messages, fork), Place(rest[..n], reuse, messages, fork);
      var more := p.added[|q.added|..];
      assert p.added == q.added + more;
      assert messages + p.added == (messages + q.added) + more;
      forall i | 0 <= i < |rest| ensures Resolve(messages + p.added, fork, p.refs[i]) == Some(rest[i]) {
        if i < n {
          assert Resolve(messages + q.added, fork, q.refs[i]) == Some(rest[..n][i]);
          ResolveMore(messages + q.added, more, fork, q.refs[i]);
        } else if reuse && Known(messages, fork, rest[n]).Some? {
          ResolveMore(messages, p.added, fork, p.refs[n]);
        }
      }
    }
  }

  /** Without reuse every message is stored anew, in order. */
  lemma PlaceAnew(rest: seq<Message>, messages: seq<Message>, fork: seq<Message>)
    ensures var p := Place(rest, false, messages, fork);
      && p.added == rest
      && |p.refs| == |rest| && (forall i :: 0 <= i < |rest| ==> p.refs[i] == |messages| + i)
  {
    if rest != [] {
      var n := |rest| - 1;
      PlaceAnew(rest[..n], messages, fork);
      assert rest == rest[..n] + [rest[n]];
    }
  }

  /** The amended reference also stands at an earlier place of the context. */
  predicate AmendsShared(r: Record, prev: seq<Message>, cp: Checkpoint)
    requires |prev| == |r.context|
  {
    Amends(r, prev, cp) && exists i :: 0 <= i < |r.context| - 1 && r.context[i] == r.context[|r.context| - 1]
  }

  /** What place i of the new context means: the checkpoint's message, unless the
      amendment reached it through a shared reference. */
  function Meaning(r: Record, prev: seq<Message>, cp: Checkpoint, i: nat): Message
    requires |prev| == |r.context| && i < |cp.messages|
  {
    var last := |r.context| - 1;
    if Amends(r, prev, cp) && i < last && r.context[i] == r.context[last] then cp.messages[last] else cp.messages[i]
  }

  lemma KeptResolves(r: Record, prev: seq<Message>, cp: Checkpoint, fork: seq<Message>, i: nat)
    requires Active(r, fork) == Some(prev) && i < Kept(r, prev, cp)
    ensures Resolve(Amended(r, prev, cp, fork), fork, r.context[i]) == Some(Meaning(r, prev, cp, i))
  {
    assert Resolve(r.messages, fork, r.context[i]) == Some(prev[i]);
  }

  lemma NewResolves(r: Record, prev: seq<Message>, cp: Checkpoint, fork: seq<Message>, i: nat)
    requires Active(r, fork) == Some(prev) && Kept(r, prev, cp) <= i < |cp.messages|
    ensures var messages, kept := Amended(r, prev, cp, fork), Kept(r, prev, cp);
      var placed := Place(cp.messages[kept..], cp.compacted, messages, fork);
      && |placed.refs| == |cp.messages| - kept
      && Resolve(messages + placed.added, fork, placed.refs[i - kept]) == Some(Meaning(r, prev, cp, i))
  {
    var messages, kept := Amended(r, prev, cp, fork), Kept(r, prev, cp);
    var rest := cp.messages[kept..];
    PlaceResolves(rest, cp.compacted, messages, fork);
    assert rest[i - kept] == cp.messages[i];
  }

  lemma AppliedResolves(r: Record, prev: seq<Message>, cp: Checkpoint, fork: seq<Message>, now: int)
    requires Active(r, fork) == Some(prev)
    ensures var r' := Applied(r, prev, cp, fork, now);
      && |r'.context| == |cp.messages|
      && (forall i :: 0 <= i < |cp.messages| ==> Resolve(r'.messages, fork, r'.context[i]) == Some(Meaning(r, prev, cp, i)))
  {
    var kept := Kept(r, prev, cp);
    var messages := Amended(r, prev, cp, fork);
    var placed := Place(cp.messages[kept..], cp.compacted, messages, fork);
    PlaceResolves(cp.messages[kept..], cp.compacted, messages, fork);
    forall i | 0 <= i < |cp.messages|
      ensures Resolve(messages + placed.added, fork, (r.context[..kept] + placed.refs)[i]) == Some(Meaning(r, prev, cp, i))
    {
      if i < kept {
        KeptResolves(r, prev, cp, fork, i);
        ResolveMore(messages, placed.added, fork, r.context[i]);
      } else {
        NewResolves(r, prev, cp, fork, i);
      }
    }
  }

  /** The update is exact if and only if it does not amend a message that an earlier
      place of the context also refers to. */
  lemma ApplyExactIff(r: Record, prev: seq<Message>, cp: Checkpoint, fork: seq<Message>, now: int)
    requires Active(r, fork) == Some(prev)
    ensures Active(Applied(r, prev, cp, fork, now), fork).Some?
    ensures Active(Applied(r, prev, cp, fork, now), fork) == Some(cp.messages) <==> !AmendsShared(r, prev, cp)
  {
    var r' := Applied(r, prev, cp, fork, now);
    var last := |r.context| - 1;
    AppliedResolves(r, prev, cp, fork, now);
    if AmendsShared(r, prev, cp) {
      var i :| 0 <= i < last && r.context[i] == r.context[last];
      assert Resolve(r.messages, fork, r.context[i]) == Some(prev[i]);
      assert prev[i] == prev[last] == cp.messages[i] != cp.messages[last];
    } else {
      assert Active(r', fork).value == cp.messages;
    }
  }

  // ------------------------------------------------------------ whole histories

  predicate NoRepeatedResults(ms: seq<Message>) {
    forall i, j :: 0 <= i < j < |ms| && ms[i] == ms[j] ==> !IsResults(ms[i])
  }

  /** Every reference is valid and every archived message has its time stamp. */
  predicate Whole(r: Record, fork: seq<Message>) {
    ValidRefs(r, fork) && |r.stamps| == |r.messages|
  }

  /** Two places of the context share an archived message only if it is not one that
      could be amended. */
  predicate Sound(r: Record, fork: seq<Message>) {
    && Whole(r, fork)
    && forall i, j :: 0 <= i < j < |r.context| && r.context[i] == r.context[j] && 0 <= r.context[i] < |r.messages| ==>
         !IsResults(r.messages[r.context[i]])
  }

  /** Each archived message stays, or is completed by further results. */
  predicate Grows(a: seq<Message>, b: seq<Message>) {
    |a| <= |b| && forall i :: 0 <= i < |a| ==> a[i] == b[i] || Extends(a[i], b[i])
  }

  lemma GrowsTransitive(a: seq<Message>, b: seq<Message>, c: seq<Message>)
    requires Grows(a, b) && Grows(b, c)
    ensures Grows(a, c)
  {
    forall i | 0 <= i < |a| ensures a[i] == c[i] || Extends(a[i], c[i]) {
      assert a[i] == b[i] || Extends(a[i], b[i]);
      assert b[i] == c[i] || Extends(b[i], c[i]);
    }
  }

  /** A sound record never amends through a shared reference. */
  lemma SoundNeverShares(r: Record, prev: seq<Message>, cp: Checkpoint, fork: seq<Message>)
    requires Active(r, fork) == Some(prev) && Sound(r, fork)
    ensures !AmendsShared(r, prev, cp)
  {
    if Amends(r, prev, cp) {
      var last := |r.context| - 1;
      assert Resolve(r.messages, fork, r.context[last]) == Some(prev[last]);
    }
  }

  lemma AppliedGrows(r: Record, prev: seq<Message>, cp: Checkpoint, fork: seq<Message>, now: int)
    requires Active(r, fork) == Some(prev)
    ensures Grows(r.messages, Applied(r, prev, cp, fork, now).messages)
    ensures |r.stamps| == |r.messages| ==>
      |Applied(r, prev, cp, fork, now).stamps| == |Applied(r, prev, cp, fork, now).messages|
  {
    if Amends(r, prev, cp) {
      var k := Prefix(prev, cp);
      assert Resolve(r.messages, fork, r.context[k]) == Some(prev[k]);
    }
  }

  /** Whatever the checkpoint, the record stays whole. */
  lemma AppliedIsWhole(r: Record, prev: seq<Message>, cp: Checkpoint, fork: seq<Message>, now: int)
    requires Active(r, fork) == Some(prev) && Whole(r, fork)
    ensures Whole(Applied(r, prev, cp, fork, now), fork)
    ensures Grows(r.messages, Applied(r, prev, cp, fork, now).messages)
  {
    ApplyExactIff(r, prev, cp, fork, now);
    AppliedGrows(r, prev, cp, fork, now);
  }

  lemma AppliedIsSound(r: Record, prev: seq<Message>, cp: Checkpoint, fork: seq<Message>, now: int)
    requires Active(r, fork) == Some(prev) && Sound(r, fork)
    requires cp.compacted ==> NoRepeatedResults(cp.messages)
    ensures Sound(Applied(r, prev, cp, fork, now), fork)
    ensures Active(Applied(r, prev, cp, fork, now), fork) == Some(cp.messages)
  {
    var r' := Applied(r, prev, cp, fork, now);
    AppliedResolves(r, prev, cp, fork, now);
    SoundNeverShares(r, prev, cp, fork);
    ApplyExactIff(r, prev, cp, fork, now);
    AppliedGrows(r, prev, cp, fork, now);
    forall i, j | 0 <= i < j < |r'.context| && r'.context[i] == r'.context[j] && 0 <= r'.context[i] < |r'.messages|
      ensures !IsResults(r'.messages[r'.context[i]])
    {
      SharedPlaces(r, prev, cp, fork, now, i, j);
    }
  }

  lemma ContextIs(r: Record, prev: seq<Message>, cp: Checkpoint, fork: seq<Message>, now: int)
    requires Active(r, fork) == Some(prev) && !cp.compacted
    ensures var kept := Kept(r, prev, cp);
      Applied(r, prev, cp, fork, now).context
      == r.context[..kept] + Place(cp.messages[kept..], false, Amended(r, prev, cp, fork), fork).refs
  {
  }

  /** Without compaction, places that share a reference shared it before. */
  lemma SharedBefore(r: Record, prev: seq<Message>, cp: Checkpoint, fork: seq<Message>, now: int, i: nat, j: nat)
    requires Active(r, fork) == Some(prev) && !cp.compacted
    requires var r' := Applied(r, prev, cp, fork, now); i < j < |r'.context| && r'.context[i] == r'.context[j]
    ensures j < Kept(r, prev, cp) && r.context[i] == r.context[j]
  {
    var kept := Kept(r, prev, cp);
    var refs := Place(cp.messages[kept..], false, Amended(r, prev, cp, fork), fork).refs;
    PlaceAnew(cp.messages[kept..], Amended(r, prev, cp, fork), fork);
    var context := r.context[..kept] + refs;
    ContextIs(r, prev, cp, fork, now);
    forall x | kept <= x < |context| ensures context[x] == |r.messages| + (x - kept) {
    }
    forall x | 0 <= x < kept ensures context[x] == r.context[x] < |r.messages| {
      assert Resolve(r.messages, fork, r.context[x]) == Some(prev[x]);
    }
  }

  /** Places that share a reference afterwards do not hold an amendable message. */
  lemma SharedPlaces(r: Record, prev: seq<Message>, cp: Checkpoint, fork: seq<Message>, now: int, i: nat, j: nat)
    requires Active(r, fork) == Some(prev) && Sound(r, fork)
    requires cp.compacted ==> NoRepeatedResults(cp.messages)
    requires var r' := Applied(r, prev, cp, fork, now);
      i < j < |r'.context| && r'.context[i] == r'.context[j] && 0 <= r'.context[i] < |r'.messages|
    ensures var r' := Applied(r, prev, cp, fork, now);
      !IsResults(r'.messages[r'.context[i]])
  {
    AppliedResolves(r, prev, cp, fork, now);
    SoundNeverShares(r, prev, cp, fork);
    assert Meaning(r, prev, cp, i) == cp.messages[i] && Meaning(r, prev, cp, j) == cp.messages[j];
    if !cp.compacted {
      SharedBefore(r, prev, cp, fork, now, i, j);
      assert Resolve(r.messages, fork, r.context[i]) == Some(prev[i]);
      KeptResolves(r, prev, cp, fork, i);
    }
  }

  ghost function ApplyAll(r: Record, cps: seq<Checkpoint>, fork: seq<Message>): Option<Record> {
    if cps == [] then Some(r)
    else
      var before := ApplyAll(r, cps[..|cps| - 1], fork);
      if before.None? then None else Apply(before.value, cps[|cps| - 1], fork, |cps|)
  }

  /** The record a fresh or forked agent starts with. */
  function Initial(fork: Snapshot): Record {
    Record([], [], seq(|fork.messages|, i => -1 - i), fork.workingSet)
  }

  /** The audit history only grows: over any sequence of checkpoints whatever, each
      archived message stays or is completed by further results, every message has one
      time stamp and every reference is valid. */
  lemma {:induction false} AuditOnlyGrows(r: Record, cps: seq<Checkpoint>, fork: seq<Message>)
    requires Whole(r, fork)
    ensures var r' := ApplyAll(r, cps, fork);
      r'.Some? && Whole(r'.value, fork) && Grows(r.messages, r'.value.messages)
  {
    if cps != [] {
      var n := |cps| - 1;
      AuditOnlyGrows(r, cps[..n], fork);
      var mid := ApplyAll(r, cps[..n], fork).value;
      AppliedIsWhole(mid, Active(mid, fork).value, cps[n], fork, |cps|);
      GrowsTransitive(r.messages, mid.messages, ApplyAll(r, cps, fork).value.messages);
    }
  }

  /** The main result.  Over any sequence of checkpoints in which a compacted one never
      repeats a pure tool-result message, the record refines plain storage of the last
      checkpoint, every reference stays valid, and the archive only grows. */
  lemma {:induction false} RecordRefinesMessageList(r: Record, cps: seq<Checkpoint>, fork: seq<Message>)
    requires Sound(r, fork)
    requires forall cp :: cp in cps && cp.compacted ==> NoRepeatedResults(cp.messages)
    ensures var r' := ApplyAll(r, cps, fork);
      && r'.Some? && Sound(r'.value, fork)
      && Active(r'.value, fork) == (if cps == [] then Active(r, fork) else Some(cps[|cps| - 1].messages))
      && Grows(r.messages, r'.value.messages)
  {
    if cps != [] {
      var n := |cps| - 1;
      RecordRefinesMessageList(r, cps[..n], fork);
      var mid := ApplyAll(r, cps[..n], fork).value;
      AppliedIsSound(mid, Active(mid, fork).value, cps[n], fork, |cps|);
      AppliedGrows(mid, Active(mid, fork).value, cps[n], fork, |cps|);
      GrowsTransitive(r.messages, mid.messages, ApplyAll(r, cps, fork).value.messages);
    }
  }

  lemma InitialIsSound(fork: Snapshot)
    ensures Sound(Initial(fork), fork.messages)
    ensures Active(Initial(fork), fork.messages) == Some(fork.messages)
  {
    assert Active(Initial(fork), fork.messages).value == fork.messages;
  }

  /** The premise on compacted checkpoints is needed: two copies of one tool result come
      to share a reference, and completing the second one rewrites the first. */
  lemma RepeatedResultBreaksRefinement(x: Block, y: Block)
    requires x.ToolResult? && y.ToolResult?
    ensures
      var partial, full := Message("user", [x]), Message("user", [x, y]);
      var cps := [Checkpoint([partial], "", false), Checkpoint([partial, partial], "", true), Checkpoint([partial, full], "", false)];
      var r := ApplyAll(Initial(Snapshot([], "")), cps, []);
      r.Some? && Active(r.value, []) == Some([full, full])
  {
    var partial, full := Message("user", [x]), Message("user", [x, y]);
    var cps := [Checkpoint([partial], "", false), Checkpoint([partial, partial], "", true), Checkpoint([partial, full], "", false)];
    assert cps[..2] == [cps[0], cps[1]];
    SharingArises(partial);
    CompletingRewritesBoth(x, y);
    assert Active(Record([partial], [1], [0, 0], ""), []).value == [partial, partial];
  }

  /** The first two of these checkpoints leave two references to one message. */
  lemma SharingArises(m: Message)
    ensures ApplyAll(Initial(Snapshot([], "")), [Checkpoint([m], "", false), Checkpoint([m, m], "", true)], []) ==
            Some(Record([m], [1], [0, 0], ""))
  {
    var a, b := Checkpoint([m], "", false), Checkpoint([m, m], "", true);
    assert [a, b][..1] == [a] && [a][..0] == [];
    StoringOnce(m);
    assert ApplyAll(Initial(Snapshot([], "")), [a], []) == Some(Record([m], [1], [0], ""));
    SharingTwice(m);
  }

  lemma StoringOnce(m: Message)
    ensures Apply(Initial(Snapshot([], "")), Checkpoint([m], "", false), [], 1) == Some(Record([m], [1], [0], ""))
  {
    var r0, a := Initial(Snapshot([], "")), Checkpoint([m], "", false);
    assert Active(r0, []).value == [];
    StoreOne(m);
    assert a.messages[0..] == [m];
    assert Applied(r0, [], a, [], 1) == Record([m], [1], [0], "");
  }

  lemma SharingTwice(m: Message)
    ensures Apply(Record([m], [1], [0], ""), Checkpoint([m, m], "", true), [], 2) == Some(Record([m], [1], [0, 0], ""))
  {
    var r1, b := Record([m], [1], [0], ""), Checkpoint([m, m], "", true);
    assert Active(r1, []).value == [m];
    ReuseTwice(m);
    assert b.messages[0..] == [m, m];
    assert Applied(r1, [m], b, [], 2) == Record([m], [1], [0, 0], "");
  }

  lemma CompletingRewritesBoth(x: Block, y: Block)
    requires x.ToolResult? && y.ToolResult?
    ensures
      var partial, full := Message("user", [x]), Message("user", [x, y]);
      var r, cp := Record([partial], [1], [0, 0], ""), Checkpoint([partial, full], "", false);
      && Active(r, []) == Some([partial, partial])
      && Active(Applied(r, [partial, partial], cp, [], 3), []) == Some([full, full])
  {
    var partial, full := Message("user", [x]), Message("user", [x, y]);
    var r, cp := Record([partial], [1], [0, 0], ""), Checkpoint([partial, full], "", false);
    assert Active(r, []).value == [partial, partial];
    assert [x] < [x, y] && partial.content != full.content;
    assert Common([partial, partial], [partial, full], 1) == 1;
    assert Prefix([partial, partial], cp) == 1;
    AppliedResolves(r, [partial, partial], cp, [], 3);
    assert Active(Applied(r, [partial, partial], cp, [], 3), []).value == [full, full];
  }

  lemma StoreOne(m: Message)
    ensures Place([m], false, [], []) == Placed([0], [m])
  {
    assert [m][..0] == [];
    assert Place([], false, [], []) == Placed([], []);
  }

  lemma ReuseTwice(m: Message)
    ensures Place([m, m], true, [m], []) == Placed([0, 0], [])
  {
    assert [m, m][..1] == [m] && [m][..0] == [];
    assert Known([m], [], m) == Some(0);
    assert Place([m], true, [m], []) == Placed([0], []);
  }
}
