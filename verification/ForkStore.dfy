/**
 Immutable fork snapshots on disk, internal/agentsession/file_store.go (SaveFork,
 LoadFork). Names carry what they are a hash of, so that equal names mean equal contents;
 a save may fail after any number of file writes.
 */
module ForkStore {
  import opened Messages
  import opened Wrappers

  datatype ForkId = OfSnapshot(snapshot: Snapshot) | OtherFork(text: string)

  /** Invalid: a reference that is not a well-formed id. */
  datatype MessageId = OfMessage(message: Message) | OtherMessage(text: string) | Invalid(text: string)

  /** The subagent field of a fork file; Legacy and Undecodable are kept as raw text. */
  datatype Encoded =
    | Nothing
    | Undecodable(text: string)
    | Legacy(text: string)
    | Manifest(version: int, messages: seq<MessageId>, workingSet: string)

  datatype ForkFile = ForkFile(messages: seq<Message>, subagent: Encoded)

  datatype Disk = Disk(forks: map<ForkId, ForkFile>, bodies: map<MessageId, seq<Message>>)

  datatype LoadError = NoFork | BadManifest | UnsupportedVersion | BadReference | MissingBody | BadBody

  /** What a save leaves: the disk, the writes not used up, and whether it went through. */
  datatype Saved = Saved(disk: Disk, left: nat, ok: bool)

  function IdsOf(messages: seq<Message>): seq<MessageId> {
    seq(|messages|, i requires 0 <= i < |messages| => OfMessage(messages[i]))
  }

  /** Write one message file unless there is one. */
  function SaveBody(before: Saved, m: Message): Saved {
    if !before.ok || OfMessage(m) in before.disk.bodies then before
    else if before.left == 0 then before.(ok := false)
    else Saved(before.disk.(bodies := before.disk.bodies[OfMessage(m) := [m]]), before.left - 1, true)
  }

  function SaveBodies(disk: Disk, messages: seq<Message>, writes: nat): Saved {
    if messages == [] then Saved(disk, writes, true)
    else SaveBody(SaveBodies(disk, messages[..|messages| - 1], writes), messages[|messages| - 1])
  }

  function SaveFork(disk: Disk, s: Snapshot, writes: nat): Saved {
    if OfSnapshot(s) in disk.forks then Saved(disk, writes, true)
    else
      var bodies := SaveBodies(disk, s.messages, writes);
      if !bodies.ok then bodies
      else if bodies.left == 0 then bodies.(ok := false)
      else
        var file := ForkFile([], Manifest(1, IdsOf(s.messages), s.workingSet));
        Saved(bodies.disk.(forks := bodies.disk.forks[OfSnapshot(s) := file]), bodies.left - 1, true)
  }

  function LoadBody(disk: Disk, id: MessageId): Result<Message, LoadError> {
    if id.Invalid? then Err(BadReference)
    else if id !in disk.bodies then Err(MissingBody)
    else if |disk.bodies[id]| != 1 then Err(BadBody)
    else Ok(disk.bodies[id][0])
  }

  function LoadBodies(disk: Disk, ids: seq<MessageId>): Result<seq<Message>, LoadError> {
    if ids == [] then Ok([])
    else
      match LoadBodies(disk, ids[..|ids| - 1])
      case Err(e) => Err(e)
      case Ok(before) =>
        match LoadBody(disk, ids[|ids| - 1])
        case Err(e) => Err(e)
        case Ok(m) => Ok(before + [m])
  }

  function LoadFork(disk: Disk, id: ForkId): Result<Snapshot, LoadError> {
    if id !in disk.forks then Err(NoFork)
    else
      var file := disk.forks[id];
      match file.subagent
      case Undecodable(_) => Err(BadManifest)
      case Nothing => Ok(Snapshot(file.messages, ""))
      case Legacy(text) => Ok(Snapshot(file.messages, text))
      case Manifest(version, ids, workingSet) =>
        if version != 1 then Err(UnsupportedVersion)
        else
          match LoadBodies(disk, ids)
          case Err(e) => Err(e)
          case Ok(messages) => Ok(Snapshot(messages, workingSet))
  }

  /** Message files hold what their names are hashes of. */
  ghost predicate NamedSound(disk: Disk) {
    forall m :: OfMessage(m) in disk.bodies ==> disk.bodies[OfMessage(m)] == [m]
  }

  /** Files under hashed names hold what was hashed: every such fork reads back. */
  ghost predicate Sound(disk: Disk) {
    && NamedSound(disk)
    && (forall s :: OfSnapshot(s) in disk.forks ==> LoadFork(disk, OfSnapshot(s)) == Ok(s))
  }

  /** Nothing was rewritten or removed. */
  ghost predicate Extends(before: Disk, after: Disk) {
    && (forall id :: id in before.forks ==> id in after.forks && after.forks[id] == before.forks[id])
    && (forall id :: id in before.bodies ==> id in after.bodies && after.bodies[id] == before.bodies[id])
  }

  lemma {:induction false} BodiesStayLoadable(before: Disk, after: Disk, ids: seq<MessageId>)
    requires Extends(before, after) && LoadBodies(before, ids).Ok?
    ensures LoadBodies(after, ids) == LoadBodies(before, ids)
  {
    if ids != [] {
      BodiesStayLoadable(before, after, ids[..|ids| - 1]);
    }
  }

  lemma ForksStayLoadable(before: Disk, after: Disk, id: ForkId)
    requires Extends(before, after) && LoadFork(before, id).Ok?
    ensures LoadFork(after, id) == LoadFork(before, id)
  {
    if before.forks[id].subagent.Manifest? {
      BodiesStayLoadable(before, after, before.forks[id].subagent.messages);
    }
  }

  /** A message file that can be read: its id is well formed and it holds one message. */
  predicate Readable(disk: Disk, id: MessageId) {
    !id.Invalid? && id in disk.bodies && |disk.bodies[id]| == 1
  }

  /** A list of bodies loads if and only if each can be read, as what they hold, in order. */
  lemma {:induction false} BodiesLoadIff(disk: Disk, ids: seq<MessageId>)
    ensures LoadBodies(disk, ids).Ok? <==> forall i :: 0 <= i < |ids| ==> Readable(disk, ids[i])
    ensures LoadBodies(disk, ids).Ok? ==>
              var messages := LoadBodies(disk, ids).value;
              |messages| == |ids| && forall i :: 0 <= i < |ids| ==> [messages[i]] == disk.bodies[ids[i]]
  {
    if ids != [] {
      BodiesLoadIff(disk, ids[..|ids| - 1]);
    }
  }

  /** Otherwise the first that cannot be read says why. */
  lemma {:induction false} FirstUnreadableDecides(disk: Disk, ids: seq<MessageId>, i: nat)
    requires i < |ids| && !Readable(disk, ids[i]) && forall j :: 0 <= j < i ==> Readable(disk, ids[j])
    ensures LoadBodies(disk, ids) ==
            Err(if ids[i].Invalid? then BadReference else if ids[i] in disk.bodies then BadBody else MissingBody)
  {
    var n := |ids| - 1;
    if i < n {
      FirstUnreadableDecides(disk, ids[..n], i);
    } else {
      BodiesLoadIff(disk, ids[..n]);
    }
  }

  /** What a fork file of each form is read as: messages in the file itself with the older
      form of working set, or named messages with their working set. */
  lemma LoadsByForm(disk: Disk, id: ForkId)
    ensures LoadFork(disk, id) == Err(NoFork) <==> id !in disk.forks
    ensures id in disk.forks ==>
              var file, loaded := disk.forks[id], LoadFork(disk, id);
              && (file.subagent.Nothing? ==> loaded == Ok(Snapshot(file.messages, "")))
              && (file.subagent.Legacy? ==> loaded == Ok(Snapshot(file.messages, file.subagent.text)))
              && (file.subagent.Undecodable? <==> loaded == Err(BadManifest))
              && (file.subagent.Manifest? && file.subagent.version != 1 <==> loaded == Err(UnsupportedVersion))
              && (file.subagent.Manifest? && file.subagent.version == 1 ==>
                    && (loaded.Ok? <==> forall i :: 0 <= i < |file.subagent.messages| ==> Readable(disk, file.subagent.messages[i]))
                    && (loaded.Ok? ==> loaded.value.workingSet == file.subagent.workingSet)
                    && (loaded.Ok? ==> Ok(loaded.value.messages) == LoadBodies(disk, file.subagent.messages)))
  {
    if id in disk.forks && disk.forks[id].subagent.Manifest? {
      BodiesLoadIff(disk, disk.forks[id].subagent.messages);
      BodyErrors(disk, disk.forks[id].subagent.messages);
    }
  }

  lemma {:induction false} BodyErrors(disk: Disk, ids: seq<MessageId>)
    ensures LoadBodies(disk, ids).Err? ==>
              var e := LoadBodies(disk, ids).error; e == BadReference || e == MissingBody || e == BadBody
  {
    if ids != [] {
      BodyErrors(disk, ids[..|ids| - 1]);
    }
  }

  /** Bodies that are all there load as the messages they are named after. */
  lemma {:induction false} NamedBodiesLoad(disk: Disk, messages: seq<Message>)
    requires forall m <- messages :: OfMessage(m) in disk.bodies && disk.bodies[OfMessage(m)] == [m]
    ensures LoadBodies(disk, IdsOf(messages)) == Ok(messages)
  {
    if messages != [] {
      var n := |messages| - 1;
      assert messages[n] in messages;
      NamedBodiesLoad(disk, messages[..n]);
      assert IdsOf(messages)[..n] == IdsOf(messages[..n]);
      assert messages == messages[..n] + [messages[n]];
    }
  }

  /** Names of the message files a snapshot needs. */
  function NamesOf(messages: seq<Message>): set<MessageId> {
    set m | m in messages :: OfMessage(m)
  }

  /** From one moment to a later one: named files were added, one write each. */
  ghost predicate Adds(disk: Disk, writes: nat, r: Saved, names: set<MessageId>) {
    && r.disk.forks == disk.forks && Extends(disk, r.disk)
    && r.disk.bodies.Keys <= disk.bodies.Keys + names
    && |r.disk.bodies.Keys| == |disk.bodies.Keys| + writes - r.left
    && (r.ok ==> names <= r.disk.bodies.Keys)
    && (!r.ok ==> r.left == 0)
  }

  lemma BodyAdds(before: Saved, m: Message)
    requires NamedSound(before.disk) && before.ok
    ensures Adds(before.disk, before.left, SaveBody(before, m), {OfMessage(m)})
    ensures NamedSound(SaveBody(before, m).disk)
  {
    var r := SaveBody(before, m);
    if r.left < before.left {
      assert r.disk.bodies.Keys == before.disk.bodies.Keys + {OfMessage(m)};
    }
  }

  lemma {:induction false} AddsTwice(disk: Disk, writes: nat, mid: Saved, r: Saved, a: set<MessageId>, b: set<MessageId>)
    requires Adds(disk, writes, mid, a) && mid.ok && Adds(mid.disk, mid.left, r, b)
    ensures Adds(disk, writes, r, a + b)
  {
  }

  lemma NamesSnoc(messages: seq<Message>)
    requires messages != []
    ensures var n := |messages| - 1; NamesOf(messages) == NamesOf(messages[..n]) + {OfMessage(messages[n])}
  {
    assert messages == messages[..|messages| - 1] + [messages[|messages| - 1]];
  }

  /**
   Saving bodies adds only named files that were missing, one write each: equal messages
   are stored once, whether within a snapshot or across snapshots.
   */
  lemma {:induction false} BodiesSavedOnce(disk: Disk, messages: seq<Message>, writes: nat)
    requires NamedSound(disk)
    ensures Adds(disk, writes, SaveBodies(disk, messages, writes), NamesOf(messages))
    ensures NamedSound(SaveBodies(disk, messages, writes).disk)
  {
    if messages == [] {
      assert NamesOf(messages) == {};
    } else {
      var n := |messages| - 1;
      var mid := SaveBodies(disk, messages[..n], writes);
      BodiesSavedOnce(disk, messages[..n], writes);
      NamesSnoc(messages);
      if mid.ok {
        BodyAdds(mid, messages[n]);
        AddsTwice(disk, writes, mid, SaveBody(mid, messages[n]), NamesOf(messages[..n]), {OfMessage(messages[n])});
      }
    }
  }

  /** Every save, complete or cut short, only adds, and keeps what is there readable. */
  lemma SaveKeepsSound(disk: Disk, s: Snapshot, writes: nat)
    requires Sound(disk)
    ensures Extends(disk, SaveFork(disk, s, writes).disk) && Sound(SaveFork(disk, s, writes).disk)
  {
    if OfSnapshot(s) !in disk.forks {
      var r := SaveFork(disk, s, writes);
      BodiesSavedOnce(disk, s.messages, writes);
      if r.ok {
        NewForkLoads(r.disk, s);
      }
      forall x | OfSnapshot(x) in disk.forks ensures LoadFork(r.disk, OfSnapshot(x)) == Ok(x) {
        ForksStayLoadable(disk, r.disk, OfSnapshot(x));
      }
    }
  }

  lemma NewForkLoads(disk: Disk, s: Snapshot)
    requires NamedSound(disk) && NamesOf(s.messages) <= disk.bodies.Keys
    requires OfSnapshot(s) in disk.forks && disk.forks[OfSnapshot(s)] == ForkFile([], Manifest(1, IdsOf(s.messages), s.workingSet))
    ensures LoadFork(disk, OfSnapshot(s)) == Ok(s)
  {
    assert forall m :: m in s.messages ==> OfMessage(m) in NamesOf(s.messages);
    NamedBodiesLoad(disk, s.messages);
  }

  /** What was saved can be read back. */
  lemma SavedForksLoad(disk: Disk, s: Snapshot, writes: nat)
    requires Sound(disk) && SaveFork(disk, s, writes).ok
    ensures LoadFork(SaveFork(disk, s, writes).disk, OfSnapshot(s)) == Ok(s)
  {
    SaveKeepsSound(disk, s, writes);
  }

  /** One save with the number of file writes that will go through. */
  datatype Attempt = Attempt(snapshot: Snapshot, writes: nat)

  function Saves(disk: Disk, attempts: seq<Attempt>): Disk {
    if attempts == [] then disk
    else
      var last := attempts[|attempts| - 1];
      SaveFork(Saves(disk, attempts[..|attempts| - 1]), last.snapshot, last.writes).disk
  }

  lemma {:induction false} SavesKeepSound(disk: Disk, attempts: seq<Attempt>)
    requires Sound(disk)
    ensures Sound(Saves(disk, attempts)) && Extends(disk, Saves(disk, attempts))
  {
    if attempts != [] {
      var n := |attempts| - 1;
      SavesKeepSound(disk, attempts[..n]);
      SaveKeepsSound(Saves(disk, attempts[..n]), attempts[n].snapshot, attempts[n].writes);
    }
  }

  /**
   A snapshot that was saved once reads back the same after any later saves, however many
   of them were cut short.
   */
  lemma SavedForksLast(disk: Disk, s: Snapshot, writes: nat, attempts: seq<Attempt>)
    requires Sound(disk) && SaveFork(disk, s, writes).ok
    ensures LoadFork(Saves(SaveFork(disk, s, writes).disk, attempts), OfSnapshot(s)) == Ok(s)
  {
    var saved := SaveFork(disk, s, writes).disk;
    SavedForksLoad(disk, s, writes);
    SaveKeepsSound(disk, s, writes);
    SavesKeepSound(saved, attempts);
    ForksStayLoadable(saved, Saves(saved, attempts), OfSnapshot(s));
  }

  /** Before a save completes its fork cannot be read at all: no partial snapshot is seen. */
  lemma CutShortIsInvisible(disk: Disk, s: Snapshot, writes: nat)
    requires Sound(disk) && OfSnapshot(s) !in disk.forks && !SaveFork(disk, s, writes).ok
    ensures LoadFork(SaveFork(disk, s, writes).disk, OfSnapshot(s)) == Err(NoFork)
  {
    BodiesSavedOnce(disk, s.messages, writes);
  }

  /**
   Retrying after a save stopped partway completes it: the files of the two attempts
   together cost what one full save would have cost.
   */
  lemma RetryCompletes(disk: Disk, s: Snapshot, first: nat, second: nat)
    requires Sound(disk)
    requires first + second > |NamesOf(s.messages) - disk.bodies.Keys|
    ensures var stopped := SaveFork(disk, s, first).disk;
      var retried := SaveFork(stopped, s, second);
      retried.ok && LoadFork(retried.disk, OfSnapshot(s)) == Ok(s)
  {
    var stopped := SaveFork(disk, s, first);
    var names := NamesOf(s.messages);
    SaveKeepsSound(disk, s, first);
    BodiesSavedOnce(disk, s.messages, first);
    BodiesSavedOnce(stopped.disk, s.messages, second);
    var bodies := SaveBodies(stopped.disk, s.messages, second);
    AtMost(disk.bodies.Keys, names, bodies.disk.bodies.Keys);
    SavedForksLoad(stopped.disk, s, second);
  }

  lemma AtMost(old': set<MessageId>, names: set<MessageId>, new': set<MessageId>)
    requires new' <= old' + names
    ensures |new'| <= |old'| + |names - old'|
  {
    assert old' + names == old' + (names - old');
    SubsetSize(new', old' + names);
  }

  lemma {:induction false} SubsetSize(a: set<MessageId>, b: set<MessageId>)
    requires a <= b
    ensures |a| <= |b|
  {
    if a != {} {
      var x :| x in a;
      SubsetSize(a - {x}, b - {x});
    }
  }
}
