/**
 What an update of a sub-agent's record stores, internal/agent/session_store.go (apply):
 only what is new, stamped with its time, and the newest working set.
 */
module TranscriptStore {
  import opened Wrappers
  import opened Messages
  import opened Transcript

  /** The checkpoint and the active context agree up to k and no further. */
  predicate AgreeUpTo(prev: seq<Message>, cp: Checkpoint, k: nat) {
    && k <= |prev| && k <= |cp.messages| && prev[..k] == cp.messages[..k]
    && (k < |prev| && k < |cp.messages| ==> prev[k] != cp.messages[k])
  }

  /** The one message of the context that this checkpoint completes by further results. */
  predicate CompletesLast(r: Record, prev: seq<Message>, cp: Checkpoint, k: nat)
    requires |prev| == |r.context|
  {
    && k + 1 == |prev| && k < |cp.messages| && r.context[k] >= 0
    && OnlyResults(prev[k]) && OnlyResults(cp.messages[k]) && prev[k].content < cp.messages[k].content
  }

  predicate OnlyResults(m: Message) {
    m.role == "user" && |m.content| > 0 && forall b :: b in m.content ==> b.ToolResult?
  }

  lemma OnlyResultsIff(m: Message)
    ensures OnlyResults(m) <==> IsResults(m)
  {
    if OnlyResults(m) {
      assert forall i :: 0 <= i < |m.content| ==> m.content[i] in m.content;
    }
  }

  lemma PrefixIs(prev: seq<Message>, cp: Checkpoint, k: nat)
    requires AgreeUpTo(prev, cp, k) && !cp.compacted
    ensures Prefix(prev, cp) == k
  {
    assert forall i :: 0 <= i < k ==> prev[..k][i] == cp.messages[..k][i];
    assert forall i :: 0 <= i < k ==> prev[i] == cp.messages[i];
  }

  /** A checkpoint that is not compacted stores what comes after the agreement, in order; a
      completed message takes the place of the one it completes. */
  lemma StoresOnlyTheRest(r: Record, prev: seq<Message>, cp: Checkpoint, fork: seq<Message>, now: int, k: nat)
    requires Active(r, fork) == Some(prev) && !cp.compacted && AgreeUpTo(prev, cp, k)
    ensures var r' := Applied(r, prev, cp, fork, now);
      if CompletesLast(r, prev, cp, k) then
        && r.context[k] < |r.messages|
        && r'.messages == r.messages[r.context[k] := cp.messages[k]] + cp.messages[k + 1..]
      else r'.messages == r.messages + cp.messages[k..]
  {
    PrefixIs(prev, cp, k);
    var kept := Kept(r, prev, cp);
    PlaceAnew(cp.messages[kept..], Amended(r, prev, cp, fork), fork);
    if k < |prev| && k < |cp.messages| {
      OnlyResultsIff(prev[k]);
      OnlyResultsIff(cp.messages[k]);
    }
    if CompletesLast(r, prev, cp, k) {
      assert Resolve(r.messages, fork, r.context[k]).Some?;
    }
  }

  lemma {:induction false} PlaceReuses(rest: seq<Message>, messages: seq<Message>, fork: seq<Message>)
    ensures forall m :: m in Place(rest, true, messages, fork).added <==> m in rest && m !in messages && m !in fork
  {
    if rest != [] {
      var n := |rest| - 1;
      PlaceReuses(rest[..n], messages, fork);
      assert rest == rest[..n] + [rest[n]];
      KnownIff(messages, fork, rest[n]);
    }
  }

  lemma KnownIff(messages: seq<Message>, fork: seq<Message>, m: Message)
    ensures Known(messages, fork, m).Some? <==> m in messages || m in fork
  {
  }

  /** A compacted one stores only messages that neither the archive nor the fork holds. */
  lemma CompactionReuses(r: Record, prev: seq<Message>, cp: Checkpoint, fork: seq<Message>, now: int)
    requires Active(r, fork) == Some(prev) && cp.compacted
    ensures var r' := Applied(r, prev, cp, fork, now);
      && r.messages <= r'.messages
      && forall m :: m in r'.messages[|r.messages|..] <==> m in cp.messages && m !in r.messages && m !in fork
  {
    assert cp.messages[0..] == cp.messages;
    PlaceReuses(cp.messages, r.messages, fork);
  }

  /** Stored messages keep their time stamp; new ones carry the time of the update. */
  lemma StampsAreTimes(r: Record, prev: seq<Message>, cp: Checkpoint, fork: seq<Message>, now: int)
    requires Active(r, fork) == Some(prev) && |r.stamps| == |r.messages|
    ensures var r' := Applied(r, prev, cp, fork, now);
      && |r'.stamps| == |r'.messages|
      && (forall i :: 0 <= i < |r.stamps| ==> r'.stamps[i] == r.stamps[i])
      && (forall i :: |r.stamps| <= i < |r'.stamps| ==> r'.stamps[i] == now)
  {
  }

  /** The newest checkpoint that brings a working set decides it. */
  lemma {:induction false} NewestWorkingSet(r: Record, cps: seq<Checkpoint>, fork: seq<Message>, i: nat)
    requires ApplyAll(r, cps, fork).Some? && i < |cps| && cps[i].workingSet != ""
    requires forall j :: i < j < |cps| ==> cps[j].workingSet == ""
    ensures ApplyAll(r, cps, fork).value.workingSet == cps[i].workingSet
  {
    if i < |cps| - 1 {
      NewestWorkingSet(r, cps[..|cps| - 1], fork, i);
    }
  }

  /** Without any the record keeps its own. */
  lemma {:induction false} WorkingSetStays(r: Record, cps: seq<Checkpoint>, fork: seq<Message>)
    requires ApplyAll(r, cps, fork).Some? && forall j :: 0 <= j < |cps| ==> cps[j].workingSet == ""
    ensures ApplyAll(r, cps, fork).value.workingSet == r.workingSet
  {
    if cps != [] {
      WorkingSetStays(r, cps[..|cps| - 1], fork);
    }
  }
}
