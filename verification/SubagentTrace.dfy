/**
 What an ACP client sees of sub-agents: the session updates sent so far, and what makes
 such a trace well formed, independently of the emitter that produced it.
 */
module SubagentTrace {
  import opened Wrappers

  type SessionId = nat

  datatype Stop = EndTurn | Cancelled | Error(message: string)

  datatype ToolId = Unnamed | Plain(id: string) | InRun(run: string, id: string)

  /** A tool card lists the terminals that run for it.
   The run of Running is not on the wire; it is kept so that it can be spoken of. */
  datatype Update =
    | Announce(child: SessionId, title: string, description: string)
    | Running(child: SessionId, run: string)
    | Idle(child: SessionId, stop: Stop)
    | Message(text: string)
    | Thought(text: string)
    | ToolCall(id: ToolId, name: string)
    | ToolCallUpdate(id: ToolId, terminals: seq<string>)
    | PlanUpdate
    | Status(text: string)

  /** One session/update notification and the session it is sent on. */
  datatype Sent = Sent(to: SessionId, update: Update)

  datatype Activity = Never | Busy | Resting

  /** The session that child c was announced to, last. */
  function Parent(sent: seq<Sent>, c: SessionId): Option<SessionId> {
    if sent == [] then None
    else
      var x := sent[|sent| - 1];
      if x.update.Announce? && x.update.child == c then Some(x.to)
      else Parent(sent[..|sent| - 1], c)
  }

  /** What the last state update about child c said. */
  function LastActivity(sent: seq<Sent>, c: SessionId): Activity {
    if sent == [] then Never
    else
      var x := sent[|sent| - 1];
      if x.update.Running? && x.update.child == c then Busy
      else if x.update.Idle? && x.update.child == c then Resting
      else LastActivity(sent[..|sent| - 1], c)
  }

  /** The runs child c was reported to be running. */
  function Started(sent: seq<Sent>, c: SessionId): set<string> {
    if sent == [] then {}
    else
      var x := sent[|sent| - 1];
      Started(sent[..|sent| - 1], c) + (if x.update.Running? && x.update.child == c then {x.update.run} else {})
  }

  /** Was a non-empty message sent on c since it was last reported running? */
  predicate Spoken(sent: seq<Sent>, c: SessionId) {
    sent != [] &&
    var x := sent[|sent| - 1];
    !(x.update.Running? && x.update.child == c)
    && ((x.to == c && x.update.Message? && x.update.text != "") || Spoken(sent[..|sent| - 1], c))
  }

  predicate Reached(sent: seq<Sent>, root: SessionId, session: SessionId) {
    session == root || Parent(sent, session).Some?
  }

  /** May x follow these updates? */
  predicate MayFollow(sent: seq<Sent>, root: SessionId, x: Sent) {
    && Reached(sent, root, x.to)
    && match x.update {
         case Announce(c, _, _) => !Reached(sent, root, c) && x.to < c
         case Running(c, run) => Parent(sent, c) == Some(x.to) && (run != "" ==> run !in Started(sent, c))
         case Idle(c, _) => Parent(sent, c) == Some(x.to) && LastActivity(sent, c) == Busy
         case Status(_) => true
         case _ => x.to == root || LastActivity(sent, x.to) == Busy
       }
  }

  /** Every update may follow the ones before it. */
  predicate WellFormed(sent: seq<Sent>, root: SessionId) {
    forall i :: 0 <= i < |sent| ==> MayFollow(sent[..i], root, sent[i])
  }

  /** How one more update changes what the trace says. */
  lemma Appended(sent: seq<Sent>, x: Sent, c: SessionId)
    ensures Parent(sent + [x], c) == if x.update.Announce? && x.update.child == c then Some(x.to) else Parent(sent, c)
    ensures LastActivity(sent + [x], c) ==
            if x.update.Running? && x.update.child == c then Busy
            else if x.update.Idle? && x.update.child == c then Resting
            else LastActivity(sent, c)
    ensures Started(sent + [x], c) == Started(sent, c) + if x.update.Running? && x.update.child == c then {x.update.run} else {}
    ensures Spoken(sent + [x], c) ==
            (!(x.update.Running? && x.update.child == c)
             && ((x.to == c && x.update.Message? && x.update.text != "") || Spoken(sent, c)))
  {
    assert (sent + [x])[..|sent|] == sent;
  }

  lemma WellFormedAppended(sent: seq<Sent>, root: SessionId, x: Sent)
    requires WellFormed(sent, root) && MayFollow(sent, root, x)
    ensures WellFormed(sent + [x], root)
  {
    var all := sent + [x];
    forall i | 0 <= i < |all| ensures MayFollow(all[..i], root, all[i]) {
      assert all[..i] == sent[..i];
    }
  }

  /** Parents are announced first and their numbers are smaller: the links form a tree. */
  lemma {:induction false} LinksFormATree(sent: seq<Sent>, root: SessionId, c: SessionId)
    requires WellFormed(sent, root) && Parent(sent, c).Some?
    ensures c != root && Parent(sent, c).value < c
    ensures Reached(sent, root, Parent(sent, c).value)
  {
    var n := |sent| - 1;
    var before, x := sent[..n], sent[n];
    assert MayFollow(before, root, x);
    assert sent == before + [x];
    WellFormedPrefix(sent, root, n);
    if x.update.Announce? && x.update.child == c {
      Appended(before, x, x.to);
    } else {
      LinksFormATree(before, root, c);
      Appended(before, x, Parent(before, c).value);
    }
  }

  lemma WellFormedPrefix(sent: seq<Sent>, root: SessionId, n: nat)
    requires WellFormed(sent, root) && n <= |sent|
    ensures WellFormed(sent[..n], root)
  {
    forall i | 0 <= i < n ensures MayFollow(sent[..n][..i], root, sent[..n][i]) {
      assert sent[..n][..i] == sent[..i];
    }
  }

  predicate Content(u: Update) {
    u.Message? || u.Thought? || u.ToolCall? || u.ToolCallUpdate? || u.PlanUpdate?
  }

  /** LastActivity is Resting when an idle comes after every running. */
  lemma {:induction false} RestsAfterIdle(sent: seq<Sent>, c: SessionId, i: nat)
    requires i < |sent| && sent[i].update.Idle? && sent[i].update.child == c
    requires forall k :: i < k < |sent| ==> !(sent[k].update.Running? && sent[k].update.child == c)
    ensures LastActivity(sent, c) == Resting
  {
    var n := |sent| - 1;
    if i < n {
      assert sent[..n][i] == sent[i];
      RestsAfterIdle(sent[..n], c, i);
    }
  }

  /**
   Between an idle state of a child and its next running state nothing but status updates
   and news of its own children is sent on it.
   */
  lemma SilentWhileIdle(sent: seq<Sent>, root: SessionId, c: SessionId, i: nat, j: nat)
    requires WellFormed(sent, root) && c != root
    requires i < j < |sent| && sent[i].update.Idle? && sent[i].update.child == c
    requires sent[j].to == c && Content(sent[j].update)
    ensures exists k :: i < k < j && sent[k].update.Running? && sent[k].update.child == c
  {
    assert MayFollow(sent[..j], root, sent[j]);
    if forall k :: i < k < j ==> !(sent[k].update.Running? && sent[k].update.child == c) {
      RestsAfterIdle(sent[..j], c, i);
    }
  }

  lemma {:induction false} StartedHas(sent: seq<Sent>, c: SessionId, i: nat)
    requires i < |sent| && sent[i].update.Running? && sent[i].update.child == c
    ensures sent[i].update.run in Started(sent, c)
  {
    var n := |sent| - 1;
    if i < n {
      assert sent[..n][i] == sent[i];
      StartedHas(sent[..n], c, i);
    }
  }

  /** A run with a name is reported running at most once on one child. */
  lemma RunsStartOnce(sent: seq<Sent>, root: SessionId, i: nat, j: nat)
    requires WellFormed(sent, root) && i < |sent| && j < |sent|
    requires sent[i].update.Running? && sent[i].update.run != "" && sent[j].update == sent[i].update
    ensures i == j
  {
    if i < j {
      assert MayFollow(sent[..j], root, sent[j]);
      StartedHas(sent[..j], sent[i].update.child, i);
    } else if j < i {
      assert MayFollow(sent[..i], root, sent[i]);
      StartedHas(sent[..i], sent[i].update.child, j);
    }
  }

  lemma {:induction false} AnnouncedIsKnown(sent: seq<Sent>, c: SessionId, i: nat)
    requires i < |sent| && sent[i].update.Announce? && sent[i].update.child == c
    ensures Parent(sent, c).Some?
  {
    var n := |sent| - 1;
    if i < n {
      assert sent[..n][i] == sent[i];
      AnnouncedIsKnown(sent[..n], c, i);
    }
  }

  /** A child is announced once. */
  lemma AnnouncedOnce(sent: seq<Sent>, root: SessionId, i: nat, j: nat)
    requires WellFormed(sent, root) && i < |sent| && j < |sent|
    requires sent[i].update.Announce? && sent[j].update.Announce? && sent[i].update.child == sent[j].update.child
    ensures i == j
  {
    if i < j {
      assert MayFollow(sent[..j], root, sent[j]);
      AnnouncedIsKnown(sent[..j], sent[i].update.child, i);
    } else if j < i {
      assert MayFollow(sent[..i], root, sent[i]);
      AnnouncedIsKnown(sent[..i], sent[j].update.child, j);
    }
  }

  lemma {:induction false} ParentAnnounced(sent: seq<Sent>, c: SessionId)
    requires Parent(sent, c).Some?
    ensures exists k :: 0 <= k < |sent| && sent[k].update.Announce? && sent[k].update.child == c && sent[k].to == Parent(sent, c).value
  {
    var n := |sent| - 1;
    if !(sent[n].update.Announce? && sent[n].update.child == c) {
      ParentAnnounced(sent[..n], c);
      var k :| 0 <= k < n && sent[..n][k].update.Announce? && sent[..n][k].update.child == c && sent[..n][k].to == Parent(sent[..n], c).value;
      assert sent[k].update.Announce?;
    }
  }

  /** Whatever is sent on a child comes after its announcement, and its states are told where
      it was announced. */
  lemma SpokenOfAfterwards(sent: seq<Sent>, root: SessionId, j: nat)
    requires WellFormed(sent, root) && j < |sent|
    ensures sent[j].to != root ==> exists k :: 0 <= k < j && sent[k].update.Announce? && sent[k].update.child == sent[j].to
    ensures sent[j].update.Running? || sent[j].update.Idle? ==>
              exists k :: 0 <= k < j && sent[k].update.Announce? && sent[k].update.child == sent[j].update.child && sent[k].to == sent[j].to
  {
    assert MayFollow(sent[..j], root, sent[j]);
    if sent[j].to != root {
      ParentAnnounced(sent[..j], sent[j].to);
      var k :| 0 <= k < j && sent[..j][k].update.Announce? && sent[..j][k].update.child == sent[j].to;
      assert sent[k].update.Announce?;
    }
    if sent[j].update.Running? || sent[j].update.Idle? {
      ParentAnnounced(sent[..j], sent[j].update.child);
      var k :| 0 <= k < j && sent[..j][k].update.Announce? && sent[..j][k].update.child == sent[j].update.child && sent[..j][k].to == sent[j].to;
      assert sent[k].update.Announce?;
    }
  }

  lemma {:induction false} BusySinceRunning(sent: seq<Sent>, c: SessionId)
    requires LastActivity(sent, c) == Busy
    ensures exists k :: 0 <= k < |sent| && sent[k].update.Running? && sent[k].update.child == c
                        && forall m :: k < m < |sent| ==> !(sent[m].update.Idle? && sent[m].update.child == c)
  {
    var n := |sent| - 1;
    if sent[n].update.Running? && sent[n].update.child == c {
      assert sent[n].update.Running?;
    } else {
      BusySinceRunning(sent[..n], c);
      var k :| 0 <= k < n && sent[..n][k].update.Running? && sent[..n][k].update.child == c
               && forall m :: k < m < n ==> !(sent[..n][m].update.Idle? && sent[..n][m].update.child == c);
      assert forall m :: k < m < n ==> sent[..n][m] == sent[m];
      assert sent[k].update.Running?;
    }
  }

  /** Each idle state ends a run: a running state came before it, with no idle one since. */
  lemma IdleEndsARun(sent: seq<Sent>, root: SessionId, j: nat)
    requires WellFormed(sent, root) && j < |sent| && sent[j].update.Idle?
    ensures exists k :: 0 <= k < j && sent[k].update.Running? && sent[k].update.child == sent[j].update.child
                        && forall m :: k < m < j ==> !(sent[m].update.Idle? && sent[m].update.child == sent[j].update.child)
  {
    var c := sent[j].update.child;
    assert MayFollow(sent[..j], root, sent[j]);
    BusySinceRunning(sent[..j], c);
    var k :| 0 <= k < j && sent[..j][k].update.Running? && sent[..j][k].update.child == c
             && forall m :: k < m < j ==> !(sent[..j][m].update.Idle? && sent[..j][m].update.child == c);
    assert forall m :: k < m < j ==> sent[..j][m] == sent[m];
    assert sent[k].update.Running?;
  }
}
