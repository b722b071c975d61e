/**
 SaveFork and LoadFork as the file store runs them: files written one by one, and the
 loops over a snapshot's messages. Proved against ForkStore.
 */
module ForkFiles {
  import opened ForkStore
  import opened Messages
  import opened Wrappers

  class FileStore {
    var forks: map<ForkId, ForkFile>
    var forkMessages: map<MessageId, seq<Message>>

    /** File writes that will still go through. */
    var writes: nat

    constructor (writes: nat)
      ensures Value() == Disk(map[], map[]) && this.writes == writes
    {
      forks, forkMessages, this.writes := map[], map[], writes;
    }

    ghost function Value(): Disk
      reads this
    {
      Disk(forks, forkMessages)
    }

    method SaveFork(s: Snapshot) returns (id: Option<ForkId>)
      modifies this
      ensures Saved(Value(), writes, id.Some?) == ForkStore.SaveFork(old(Value()), s, old(writes))
      ensures id.Some? ==> id.value == OfSnapshot(s)
    {
      if OfSnapshot(s) in forks {
        return Some(OfSnapshot(s));
      }
      var ids: seq<MessageId> := [];
      for i := 0 to |s.messages|
        invariant forks == old(forks) && ids == IdsOf(s.messages[..i])
        invariant Saved(Value(), writes, true) == SaveBodies(old(Value()), s.messages[..i], old(writes))
      {
        assert s.messages[..i + 1][..i] == s.messages[..i];
        var messageId := OfMessage(s.messages[i]);
        if messageId !in forkMessages {
          if writes == 0 {
            SaveStops(old(Value()), s.messages, old(writes), i + 1);
            return None;
          }
          forkMessages := forkMessages[messageId := [s.messages[i]]];
          writes := writes - 1;
        }
        ids := ids + [messageId];
      }
      assert s.messages[..|s.messages|] == s.messages;
      if writes == 0 {
        return None;
      }
      forks := forks[OfSnapshot(s) := ForkFile([], Manifest(1, ids, s.workingSet))];
      writes := writes - 1;
      id := Some(OfSnapshot(s));
    }

    method LoadFork(id: ForkId) returns (r: Result<Snapshot, LoadError>)
      ensures r == ForkStore.LoadFork(Value(), id)
    {
      if id !in forks {
        return Err(NoFork);
      }
      var file := forks[id];
      match file.subagent
      case Undecodable(_) => return Err(BadManifest);
      case Nothing => return Ok(Snapshot(file.messages, ""));
      case Legacy(text) => return Ok(Snapshot(file.messages, text));
      case Manifest(version, ids, workingSet) =>
        if version != 1 {
          return Err(UnsupportedVersion);
        }
        var messages := [];
        for i := 0 to |ids|
          invariant LoadBodies(Value(), ids[..i]) == Ok(messages)
        {
          assert ids[..i + 1][..i] == ids[..i];
          if ids[i].Invalid? {
            LoadStops(Value(), ids, i + 1);
            return Err(BadReference);
          }
          if ids[i] !in forkMessages {
            LoadStops(Value(), ids, i + 1);
            return Err(MissingBody);
          }
          var content := forkMessages[ids[i]];
          if |content| != 1 {
            LoadStops(Value(), ids, i + 1);
            return Err(BadBody);
          }
          messages := messages + [content[0]];
        }
        assert ids[..|ids|] == ids;
        return Ok(Snapshot(messages, workingSet));
    }
  }

  lemma {:induction false} SaveStops(disk: Disk, messages: seq<Message>, writes: nat, n: nat)
    requires n <= |messages| && !SaveBodies(disk, messages[..n], writes).ok
    ensures SaveBodies(disk, messages, writes) == SaveBodies(disk, messages[..n], writes)
    decreases |messages|
  {
    if n == |messages| {
      assert messages[..n] == messages;
    } else {
      assert messages[..|messages| - 1][..n] == messages[..n];
      SaveStops(disk, messages[..|messages| - 1], writes, n);
    }
  }

  lemma {:induction false} LoadStops(disk: Disk, ids: seq<MessageId>, n: nat)
    requires n <= |ids| && LoadBodies(disk, ids[..n]).Err?
    ensures LoadBodies(disk, ids) == LoadBodies(disk, ids[..n])
    decreases |ids|
  {
    if n == |ids| {
      assert ids[..n] == ids;
    } else {
      assert ids[..|ids| - 1][..n] == ids[..n];
      LoadStops(disk, ids[..|ids| - 1], n);
    }
  }
}
