/**
 Who the client is told a sub-agent belongs to, and what it is told of a run's beginning
 and end, in terms of the events alone: internal/acp/subagents.go and
 internal/acp/terminal.go (attachTerminal).
 */
module SubagentFamily {
  import opened Wrappers
  import opened Strings
  import Gather
  import opened SubagentTrace
  import opened Subagents

  /** The event speaks of the agent under this name: its agent id, or its task id if the
      agent id is blank. */
  predicate Names(key: string, e: Event) {
    && e.Reported? && !e.progress.pending && key != ""
    && (Trim(e.progress.agentId) == key || (Trim(e.progress.agentId) == "" && Trim(e.progress.taskId) == key))
  }

  predicate NamedIn(key: string, events: seq<Event>) {
    exists i :: 0 <= i < |events| && Names(key, events[i])
  }

  lemma NamedInSnoc(key: string, events: seq<Event>)
    requires events != []
    ensures NamedIn(key, events) <==> NamedIn(key, events[..|events| - 1]) || Names(key, events[|events| - 1])
  {
    var n := |events| - 1;
    if NamedIn(key, events[..n]) {
      var i :| 0 <= i < n && Names(key, events[..n][i]);
      assert Names(key, events[i]);
    }
    if NamedIn(key, events) && !Names(key, events[n]) {
      var i :| 0 <= i < |events| && Names(key, events[i]);
      assert Names(key, events[..n][i]);
    }
  }

  predicate EndKind(k: Kind) { k == CompletedKind || k == FailedKind || k == CancelledKind }

  /** The same agents with the same sessions and parents. */
  ghost predicate SameFamily(s: State, t: State) {
    && (forall k :: k in t.children <==> k in s.children)
    && (forall k :: k in s.children ==>
          t.children[k].session == s.children[k].session && t.children[k].parent == s.children[k].parent)
  }

  lemma EndedKeepsFamily(s: State, e: Progress, key: string)
    requires key in s.children
    ensures SameFamily(s, Ended(s, e, key)) && s.sent <= Ended(s, e, key).sent
  {
  }

  lemma ToldKeepsFamily(s: State, e: Progress, key: string)
    requires key in s.children
    ensures SameFamily(s, Told(s, e, key)) && s.sent <= Told(s, e, key).sent
  {
    if EndKind(e.kind) {
      EndedKeepsFamily(s, e, key);
    }
  }

  lemma ReportsKeepFamily(s: State, e: Progress)
    ensures var key, t := KeyOf(e), Reports(s, e);
      if e.pending || key == "" || key in s.children then SameFamily(s, t)
      else SameFamily(Discovered(s, e, key), t) && Discovered(s, e, key).sent <= t.sent
  {
    var key := KeyOf(e);
    if !e.pending && key != "" {
      if key !in s.children {
        ToldKeepsFamily(Discovered(s, e, key), e, key);
      } else if e.kind == StartedKind {
        ToldKeepsFamily(Restarted(s, e, key), e, key);
      } else {
        ToldKeepsFamily(s, e, key);
      }
    }
  }

  /** A step adds the agent it names, and an agent once known keeps its session and parent. */
  lemma StepKeepsFamily(s: State, e: Event, key: string)
    ensures key in Step(s, e).children <==> key in s.children || Names(key, e)
    ensures key in s.children ==>
              Step(s, e).children[key].session == s.children[key].session && Step(s, e).children[key].parent == s.children[key].parent
  {
    if e.Reported? {
      ReportsKeepFamily(s, e.progress);
    }
  }

  /** The agents known are those that events have named. */
  lemma {:induction false} KnownAreNamed(root: SessionId, events: seq<Event>, key: string)
    ensures key in Run(Init(root), events).children <==> NamedIn(key, events)
  {
    if events != [] {
      var n := |events| - 1;
      KnownAreNamed(root, events[..n], key);
      NamedInSnoc(key, events);
      StepKeepsFamily(Run(Init(root), events[..n]), events[n], key);
    }
  }

  lemma {:induction false} FamilyStays(root: SessionId, events: seq<Event>, n: nat, key: string)
    requires n <= |events| && key in Run(Init(root), events[..n]).children
    ensures var before, s := Run(Init(root), events[..n]), Run(Init(root), events);
      && key in s.children
      && s.children[key].session == before.children[key].session && s.children[key].parent == before.children[key].parent
    decreases |events|
  {
    if n == |events| {
      assert events[..n] == events;
    } else {
      var m := |events| - 1;
      assert events[..m][..n] == events[..n];
      FamilyStays(root, events[..m], n, key);
      StepKeepsFamily(Run(Init(root), events[..m]), events[m], key);
    }
  }

  /** The event that first names an agent decides what it is announced under. */
  lemma FirstEventDecides(s: State, e: Event, key: string)
    requires Names(key, e) && key !in s.children
    ensures key in Step(s, e).children
    ensures var named, c := e.progress.parentAgentId, Step(s, e).children[key];
      && c.session == s.lastSession + 1
      && (named in s.children ==> c.parent == s.children[named].session)
      && (named !in s.children ==> c.parent == s.root)
  {
    ReportsKeepFamily(s, e.progress);
  }

  /**
   Through the whole trace a sub-agent belongs to the session of the agent that its first
   event named as its parent if that agent was known by then, and to the root session
   otherwise.
   */
  lemma ParentIsAsNamed(root: SessionId, events: seq<Event>, i: nat, key: string)
    requires i < |events| && Names(key, events[i]) && !NamedIn(key, events[..i])
    ensures var s, named := Run(Init(root), events), events[i].progress.parentAgentId;
      && key in s.children
      && (NamedIn(named, events[..i]) ==>
            named in s.children && Parent(s.sent, s.children[key].session) == Some(s.children[named].session))
      && (!NamedIn(named, events[..i]) ==> Parent(s.sent, s.children[key].session) == Some(root))
  {
    var named := events[i].progress.parentAgentId;
    KnownAreNamed(root, events[..i], key);
    KnownAreNamed(root, events[..i], named);
    FirstParent(root, events, i, key);
    FamilyStays(root, events, i + 1, key);
    if NamedIn(named, events[..i]) {
      FamilyStays(root, events, i, named);
    }
    ParentIsShown(root, events, key);
  }

  lemma FirstParent(root: SessionId, events: seq<Event>, i: nat, key: string)
    requires i < |events| && Names(key, events[i]) && key !in Run(Init(root), events[..i]).children
    ensures key in Run(Init(root), events[..i + 1]).children
    ensures var before, named := Run(Init(root), events[..i]), events[i].progress.parentAgentId;
      Run(Init(root), events[..i + 1]).children[key].parent == if named in before.children then before.children[named].session else root
  {
    assert events[..i + 1][..i] == events[..i];
    TracesAreWellFormed(root, events[..i]);
    FirstEventDecides(Run(Init(root), events[..i]), events[i], key);
  }

  /** The parent that the emitter remembers is the one the client was told. */
  lemma ParentIsShown(root: SessionId, events: seq<Event>, key: string)
    requires key in Run(Init(root), events).children
    ensures var s := Run(Init(root), events); Parent(s.sent, s.children[key].session) == Some(s.children[key].parent)
  {
    TracesAreWellFormed(root, events);
    assert ChildOk(Run(Init(root), events), Run(Init(root), events).children[key]);
  }

  /** A first event announces the agent under its description, or else its name, and
      reports its run. */
  lemma FirstEventAnnounces(s: State, e: Event, key: string)
    requires Names(key, e) && key !in s.children
    ensures key in Step(s, e).children
    ensures var c, t := Step(s, e).children[key], Step(s, e);
      var title := if Trim(e.progress.description) != "" then Trim(e.progress.description) else key;
      && |s.sent| + 2 <= |t.sent| && t.sent[..|s.sent|] == s.sent
      && t.sent[|s.sent|] == Sent(c.parent, Announce(c.session, title, e.progress.description))
      && t.sent[|s.sent| + 1] == Sent(c.parent, Running(c.session, e.progress.run))
  {
    ReportsKeepFamily(s, e.progress);
    DiscoveredSends(s, e.progress, key);
  }

  lemma DiscoveredSends(s: State, e: Progress, key: string)
    ensures var c := NewChild(s, e);
      Discovered(s, e, key).sent == s.sent + [Sent(c.parent, Announce(c.session, TitleOf(e, key), e.description)), Sent(c.parent, Running(c.session, e.run))]
  {
  }

  /** A start that is news begins the agent's next run; the same start again says nothing. */
  lemma StartsAreReported(s: State, e: Event, key: string)
    requires Names(key, e) && key in s.children && e.progress.kind == StartedKind
    ensures var c, run, t := s.children[key], e.progress.run, Step(s, e);
      if run != "" && run in c.runs then t == s
      else
        && t.sent == s.sent + [Sent(c.parent, Running(c.session, run))]
        && t.children[key].run == run && run in t.children[key].runs
        && !t.children[key].finished && !t.children[key].hasText && t.children[key].cards == map[]
  {
  }

  /** The end of the run that a child is in is reported to its parent: as cancelled, as an
      error with its message, or as the end of the turn. */
  lemma EndsAreReported(s: State, e: Event, key: string)
    requires Names(key, e) && key in s.children && !s.children[key].finished && EndKind(e.progress.kind)
    requires var c := s.children[key]; e.progress.run == "" || c.run == "" || e.progress.run == c.run
    ensures var c, p, t := s.children[key], e.progress, Step(s, e);
      && t.sent != [] && t.children[key].finished
      && var x := t.sent[|t.sent| - 1];
         && x.to == c.parent && x.update.Idle? && x.update.child == c.session
         && (x.update.stop == Cancelled <==> p.kind == CancelledKind)
         && (x.update.stop == Error(p.output) <==> p.kind == FailedKind || (p.kind == CompletedKind && p.isError))
         && (x.update.stop == EndTurn <==> p.kind == CompletedKind && !p.isError)
         && (t.sent == s.sent + [x]
             || (p.kind == CompletedKind && !p.isError && p.output != "" && t.sent == s.sent + [Sent(c.session, Message(p.output)), x]))
  {
  }

  /** What comes after the end, or from another run, says nothing. */
  lemma StaleSaysNothing(s: State, e: Event, key: string)
    requires Names(key, e) && key in s.children && e.progress.kind != StartedKind
    requires var c, p := s.children[key], e.progress;
      (c.finished && p.kind != Retry) || (p.run != "" && c.run != "" && p.run != c.run)
    ensures Step(s, e) == s
  {
  }

  /** A retry is told as a status of the child, even after its run has ended. */
  lemma RetriesAreShown(s: State, e: Event, key: string)
    requires Names(key, e) && key in s.children && e.progress.kind == Retry
    requires var c := s.children[key]; e.progress.run == "" || c.run == "" || e.progress.run == c.run
    ensures Step(s, e) == s.(sent := s.sent + [Sent(s.children[key].session, Status(e.progress.output))])
  {
  }

  /** A terminal is shown on the card of its tool call: on the root session for the main
      agent, on the session of its own agent while that one works in the same run. */
  lemma TerminalsAreShown(s: State, u: ToolUse)
    ensures var t := Step(s, Attached(u));
      var known := !u.mainRole && u.agentId in s.children && !s.children[u.agentId].finished
                   && (u.run == "" || u.run == s.children[u.agentId].run);
      if u.messageId != "" && (u.mainRole || known) then
        && |t.sent| == |s.sent| + 1 && t.sent[..|s.sent|] == s.sent
        && var x := t.sent[|s.sent|];
           && x.to == (if u.mainRole then s.root else s.children[u.agentId].session)
           && x.update.ToolCallUpdate?
           && x.update.id == (if u.mainRole || s.children[u.agentId].run == "" then Plain(u.messageId)
                              else InRun(s.children[u.agentId].run, u.messageId))
           && var before, after := if u.mainRole then s.rootCards else s.children[u.agentId].cards,
                                   if u.mainRole then t.rootCards else t.children[u.agentId].cards;
              && x.update.terminals == (if x.update.id in before then before[x.update.id] else []) + [u.terminal]
              && after == before[x.update.id := x.update.terminals]
      else t == s
  {
  }

  /** The end of a tool call shows its terminals once more, and its card is done with: on
      the root session for the main agent, on the child's for a sub-agent. */
  lemma MainEndsAreShown(s: State, toolUseId: string)
    ensures var t, id := Step(s, MainToolDone(toolUseId)), if toolUseId == "" then Unnamed else Plain(toolUseId);
      && t.sent == s.sent + [Sent(s.root, ToolCallUpdate(id, if id in s.rootCards then s.rootCards[id] else []))]
      && t.rootCards == s.rootCards - {id} && t.children == s.children
  {
  }

  lemma ChildEndsAreShown(s: State, e: Event, key: string)
    requires Names(key, e) && key in s.children && !s.children[key].finished && e.progress.kind == ToolDone
    requires var c := s.children[key]; e.progress.run == "" || c.run == "" || e.progress.run == c.run
    ensures var c, p, t := s.children[key], e.progress, Step(s, e);
      var id := if p.toolUseId == "" then Unnamed else if c.run == "" then Plain(p.toolUseId) else InRun(c.run, p.toolUseId);
      && t.sent == s.sent + [Sent(c.session, ToolCallUpdate(id, if id in c.cards then c.cards[id] else []))]
                   + (if p.plan then [Sent(c.session, PlanUpdate)] else [])
      && t.children[key].cards == c.cards - {id}
  {
  }

  /** Sessions of sub-agents and other new sessions never share a number. */
  lemma SessionsAreNew(s: State)
    requires Inv(s)
    ensures var t := Step(s, OtherSession);
      && t.lastSession > s.lastSession && t.children == s.children
      && forall key :: key in s.children ==> s.children[key].session < t.lastSession
  {
    assert forall key :: key in s.children ==> ChildOk(s, s.children[key]);
  }

  // --------------------------------------------- what the reader of a run reads

  function MessageText(u: Update): string { if u.Message? then u.text else "" }

  function ThoughtText(u: Update): string { if u.Thought? then u.text else "" }

  /** What the streamed events of one kind put out. */
  function Output(c: Child, key: string, kind: Kind, events: seq<Event>): string {
    if events == [] then ""
    else
      var e := events[|events| - 1];
      Output(c, key, kind, events[..|events| - 1])
      + (if Puts(c, key, kind, e) then e.progress.output else "")
  }

  predicate Puts(c: Child, key: string, kind: Kind, e: Event) {
    Streamed(c, key, e) && e.Reported? && e.progress.kind == kind
  }

  lemma AtMostTwo(f: Update -> string, us: seq<Update>)
    requires |us| <= 2
    ensures Gather.Gather(f, us) == (if |us| > 0 then f(us[0]) else "") + (if |us| > 1 then f(us[1]) else "")
  {
    if |us| > 0 {
      Gather.One(f, us[0]);
      assert us[..1] == [us[0]];
      assert us[..|us|] == us;
    }
  }

  lemma OneShown(c: Child, cards: Cards, key: string, e: Event)
    ensures var shown := After(c, cards, key, e).0;
      && |shown| <= 2
      && (forall i :: 0 <= i < |shown| ==> shown[i].Message? ==> i == 0 && |shown| == 1)
      && (forall i :: 0 <= i < |shown| ==> shown[i].Thought? ==> i == 0 && |shown| == 1)
      && (if |shown| > 0 then MessageText(shown[0]) else "") == (if Puts(c, key, TextDelta, e) then e.progress.output else "")
      && (if |shown| > 0 then ThoughtText(shown[0]) else "") == (if Puts(c, key, ThinkingDelta, e) then e.progress.output else "")
  {
  }

  lemma OneReads(c: Child, cards: Cards, key: string, e: Event)
    ensures var shown := After(c, cards, key, e).0;
      && Gather.Gather(MessageText, shown) == (if Puts(c, key, TextDelta, e) then e.progress.output else "")
      && Gather.Gather(ThoughtText, shown) == (if Puts(c, key, ThinkingDelta, e) then e.progress.output else "")
  {
    OneShown(c, cards, key, e);
    AtMostTwo(MessageText, After(c, cards, key, e).0);
    AtMostTwo(ThoughtText, After(c, cards, key, e).0);
  }

  /** The messages shown concatenate to the text the run put out, the thoughts to its
      thinking. */
  lemma {:induction false} ShownIsTheOutput(c: Child, key: string, events: seq<Event>)
    ensures Gather.Gather(MessageText, AllShown(c, key, events).0) == Output(c, key, TextDelta, events)
    ensures Gather.Gather(ThoughtText, AllShown(c, key, events).0) == Output(c, key, ThinkingDelta, events)
  {
    if events != [] {
      var n := |events| - 1;
      var before := AllShown(c, key, events[..n]);
      ShownIsTheOutput(c, key, events[..n]);
      OneReads(c, before.1, key, events[n]);
      Gather.Append(MessageText, before.0, After(c, before.1, key, events[n]).0);
      Gather.Append(ThoughtText, before.0, After(c, before.1, key, events[n]).0);
    }
  }
}
