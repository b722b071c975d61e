/**
 The sub-agent emitter, internal/acp/subagents.go (emitSubagentProgress,
 emitSubagentState) and internal/acp/terminal.go (attachTerminal): the specification on
 values, the invariant every event keeps, and what the client sees of a run. The emitter
 itself is the class in SubagentEmitter.
 */
module Subagents {
  import opened Wrappers
  import opened Strings
  import opened SubagentTrace

  /** An event's kind, already trimmed and lowered; canceled reads as cancelled. */
  datatype Kind = StartedKind | TextDelta | ThinkingDelta | ToolStart | ToolDone | Retry | CompletedKind | FailedKind | CancelledKind | OtherKind

  /** plan: the call was a TodoWrite that succeeded and whose plan can be shown. */
  datatype Progress = Progress(
    pending: bool, agentId: string, taskId: string, parentAgentId: string, run: string,
    kind: Kind, description: string, output: string, toolName: string, toolUseId: string,
    isError: bool, plan: bool)

  /** What a terminal runner knows of the tool use it serves, and its new terminal. */
  datatype ToolUse = ToolUse(messageId: string, mainRole: bool, agentId: string, run: string, terminal: string)

  /** The terminals of each tool card, in the order they were attached. */
  type Cards = map<ToolId, seq<string>>

  datatype Child = Child(
    session: SessionId, parent: SessionId, run: string, runs: set<string>, finished: bool, hasText: bool, cards: Cards)

  /** lastSession: the counter behind nextSessionID, shared with every other session. */
  datatype State = State(root: SessionId, rootCards: Cards, children: map<string, Child>, lastSession: nat, sent: seq<Sent>)

  /** MainToolDone: a tool call of the root session itself has ended. */
  datatype Event = Reported(progress: Progress) | Attached(use: ToolUse) | MainToolDone(toolUseId: string) | OtherSession

  function KeyOf(e: Progress): string {
    if Trim(e.agentId) != "" then Trim(e.agentId) else Trim(e.taskId)
  }

  function ToolIdOf(run: string, id: string): ToolId {
    if id == "" then Unnamed else if run != "" then InRun(run, id) else Plain(id)
  }

  function CardOf(cards: Cards, id: ToolId): seq<string> {
    if id in cards then cards[id] else []
  }

  function Send(s: State, to: SessionId, u: Update): State {
    s.(sent := s.sent + [Sent(to, u)])
  }

  /** An empty text sends nothing. */
  function SendText(s: State, to: SessionId, u: Update, text: string): State {
    if text == "" then s else Send(s, to, u)
  }

  function ParentFor(s: State, e: Progress): SessionId {
    if e.parentAgentId in s.children then s.children[e.parentAgentId].session else s.root
  }

  function TitleOf(e: Progress, key: string): string {
    if Trim(e.description) == "" then key else Trim(e.description)
  }

  function NewChild(s: State, e: Progress): Child {
    Child(s.lastSession + 1, ParentFor(s, e), e.run, {e.run}, false, false, map[])
  }

  /** A first event announces the child and reports it running. */
  function Discovered(s: State, e: Progress, key: string): State {
    var c := NewChild(s, e);
    Send(Send(s.(children := s.children[key := c], lastSession := c.session),
              c.parent, Announce(c.session, TitleOf(e, key), e.description)),
         c.parent, Running(c.session, e.run))
  }

  /** The next run starts without text and without terminals. */
  function NextRun(c: Child, e: Progress): Child {
    c.(run := e.run, runs := c.runs + {e.run}, finished := false, hasText := false, cards := map[])
  }

  /** A started event for a known child begins its next run. */
  function Restarted(s: State, e: Progress, key: string): State
    requires key in s.children
  {
    var c := NextRun(s.children[key], e);
    Send(s.(children := s.children[key := c]), c.parent, Running(c.session, e.run))
  }

  predicate Duplicate(c: Child, e: Progress) { e.run != "" && e.run in c.runs }

  /** An event that comes after the end, or from another run. */
  predicate Stale(c: Child, e: Progress) {
    (c.finished && e.kind != Retry) || (e.run != "" && c.run != "" && e.run != c.run)
  }

  function StopOf(e: Progress): Stop {
    if e.kind == CancelledKind then Cancelled
    else if e.kind == FailedKind || e.isError then Error(e.output)
    else EndTurn
  }

  function Ended(s: State, e: Progress, key: string): State
    requires key in s.children
  {
    var c := s.children[key];
    var told := if StopOf(e) == EndTurn && !c.hasText then SendText(s, c.session, Message(e.output), e.output) else s;
    Send(told.(children := told.children[key := c.(finished := true)]), c.parent, Idle(c.session, StopOf(e)))
  }

  /** What the event says, on the child's own session. */
  function Told(s: State, e: Progress, key: string): State
    requires key in s.children
  {
    var c := s.children[key];
    match e.kind
    case TextDelta =>
      SendText(s.(children := s.children[key := c.(hasText := c.hasText || e.output != "")]), c.session, Message(e.output), e.output)
    case ThinkingDelta => SendText(s, c.session, Thought(e.output), e.output)
    case ToolStart => Send(s, c.session, ToolCall(ToolIdOf(c.run, e.toolUseId), e.toolName))
    case ToolDone =>
      var id := ToolIdOf(c.run, e.toolUseId);
      var done := Send(s.(children := s.children[key := c.(cards := c.cards - {id})]), c.session, ToolCallUpdate(id, CardOf(c.cards, id)));
      if e.plan then Send(done, c.session, PlanUpdate) else done
    case Retry => Send(s, c.session, Status(e.output))
    case CompletedKind => Ended(s, e, key)
    case FailedKind => Ended(s, e, key)
    case CancelledKind => Ended(s, e, key)
    case _ => s
  }

  function Reports(s: State, e: Progress): State {
    var key := KeyOf(e);
    if e.pending || key == "" then s
    else if key !in s.children then Told(Discovered(s, e, key), e, key)
    else if e.kind == StartedKind then
      if Duplicate(s.children[key], e) then s else Told(Restarted(s, e, key), e, key)
    else if Stale(s.children[key], e) then s
    else Told(s, e, key)
  }

  /** One more terminal on a card. */
  function WithTerminal(cards: Cards, id: ToolId, terminal: string): Cards {
    cards[id := CardOf(cards, id) + [terminal]]
  }

  function Attaches(s: State, u: ToolUse): State {
    if u.messageId == "" then s
    else if u.mainRole then
      var cards := WithTerminal(s.rootCards, Plain(u.messageId), u.terminal);
      Send(s.(rootCards := cards), s.root, ToolCallUpdate(Plain(u.messageId), cards[Plain(u.messageId)]))
    else if u.agentId !in s.children then s
    else
      var c := s.children[u.agentId];
      if c.finished || (u.run != "" && c.run != u.run) then s
      else
        var id := ToolIdOf(c.run, u.messageId);
        var cards := WithTerminal(c.cards, id, u.terminal);
        Send(s.(children := s.children[u.agentId := c.(cards := cards)]), c.session, ToolCallUpdate(id, cards[id]))
  }

  function MainDone(s: State, toolUseId: string): State {
    var id := ToolIdOf("", toolUseId);
    Send(s.(rootCards := s.rootCards - {id}), s.root, ToolCallUpdate(id, CardOf(s.rootCards, id)))
  }

  function Step(s: State, e: Event): State {
    match e
    case Reported(p) => Reports(s, p)
    case Attached(u) => Attaches(s, u)
    case MainToolDone(id) => MainDone(s, id)
    case OtherSession => s.(lastSession := s.lastSession + 1)
  }

  function Run(s: State, events: seq<Event>): State {
    if events == [] then s else Step(Run(s, events[..|events| - 1]), events[|events| - 1])
  }

  function Init(root: SessionId): State { State(root, map[], map[], root, []) }

  /** A known child and what the trace says of it agree. */
  predicate ChildOk(s: State, c: Child) {
    && s.root < c.session <= s.lastSession
    && Parent(s.sent, c.session) == Some(c.parent)
    && Reached(s.sent, s.root, c.parent)
    && (c.finished <==> LastActivity(s.sent, c.session) != Busy)
    && Started(s.sent, c.session) <= c.runs
    && (c.hasText ==> c.finished || Spoken(s.sent, c.session))
  }

  ghost predicate ChildrenOk(s: State) {
    forall key :: key in s.children ==> ChildOk(s, s.children[key])
  }

  ghost predicate SessionsDiffer(s: State) {
    forall k, l :: k in s.children && l in s.children && s.children[k].session == s.children[l].session ==> k == l
  }

  predicate Unheard(sent: seq<Sent>, c: SessionId) {
    Parent(sent, c).None? && LastActivity(sent, c) == Never && Started(sent, c) == {}
  }

  /** Session ids not yet given out have not been spoken of. */
  ghost predicate FutureIsBlank(s: State) {
    forall c: nat :: s.lastSession < c ==> Unheard(s.sent, c)
  }

  ghost predicate Inv(s: State) {
    && s.root <= s.lastSession && WellFormed(s.sent, s.root)
    && ChildrenOk(s) && SessionsDiffer(s) && FutureIsBlank(s)
  }

  /** Saying something on a busy child, or a status on any child, keeps the invariant. */
  lemma SendKeeps(s: State, to: SessionId, u: Update)
    requires Inv(s) && MayFollow(s.sent, s.root, Sent(to, u))
    requires Content(u) || u.Status?
    ensures Inv(Send(s, to, u))
    ensures u.Message? && u.text != "" ==> Spoken(Send(s, to, u).sent, to)
  {
    var t := Send(s, to, u);
    WellFormedAppended(s.sent, s.root, Sent(to, u));
    Appended(s.sent, Sent(to, u), to);
    forall c: nat
      ensures Parent(t.sent, c) == Parent(s.sent, c) && LastActivity(t.sent, c) == LastActivity(s.sent, c)
      ensures Started(t.sent, c) == Started(s.sent, c) && (Spoken(s.sent, c) ==> Spoken(t.sent, c))
    {
      Appended(s.sent, Sent(to, u), c);
    }
    forall key | key in t.children ensures ChildOk(t, t.children[key]) {
      assert ChildOk(s, s.children[key]);
    }
    forall c: nat | t.lastSession < c ensures Unheard(t.sent, c) {
      assert Unheard(s.sent, c);
    }
  }

  /** A child's state update, with the child changed to match it, keeps the invariant. */
  lemma StateUpdateKeeps(s: State, key: string, changed: Child, u: Update)
    requires Inv(s) && key in s.children
    requires var c := s.children[key];
      && changed.session == c.session && changed.parent == c.parent && c.runs <= changed.runs
      && ((u.Running? && !changed.hasText && u.child == c.session && !changed.finished && u.run in changed.runs && (u.run != "" ==> u.run !in c.runs))
          || (u.Idle? && u.child == c.session && changed.finished && !c.finished))
    ensures Inv(Send(s.(children := s.children[key := changed]), changed.parent, u))
  {
    var x := Sent(changed.parent, u);
    var t := Send(s.(children := s.children[key := changed]), changed.parent, u);
    assert ChildOk(s, s.children[key]);
    WellFormedAppended(s.sent, s.root, x);
    forall k | k in t.children ensures ChildOk(t, t.children[k]) {
      assert ChildOk(s, s.children[k]);
      Appended(s.sent, x, t.children[k].session);
      Appended(s.sent, x, t.children[k].parent);
    }
    forall y: nat | t.lastSession < y ensures Unheard(t.sent, y) {
      assert Unheard(s.sent, y);
      Appended(s.sent, x, y);
    }
  }

  /** A child that has been announced but not yet reported running. */
  lemma AnnouncedKeeps(s: State, e: Progress, key: string)
    requires Inv(s) && key !in s.children
    ensures var c := NewChild(s, e).(runs := {}, finished := true);
      Inv(Send(s.(children := s.children[key := c], lastSession := c.session), c.parent, Announce(c.session, TitleOf(e, key), e.description)))
  {
    var c := NewChild(s, e).(runs := {}, finished := true);
    var x := Sent(c.parent, Announce(c.session, TitleOf(e, key), e.description));
    var t := Send(s.(children := s.children[key := c], lastSession := c.session), x.to, x.update);
    assert e.parentAgentId in s.children ==> ChildOk(s, s.children[e.parentAgentId]);
    assert Unheard(s.sent, c.session);
    WellFormedAppended(s.sent, s.root, x);
    forall k | k in t.children ensures ChildOk(t, t.children[k]) {
      assert k != key ==> ChildOk(s, s.children[k]);
      Appended(s.sent, x, t.children[k].session);
      Appended(s.sent, x, t.children[k].parent);
    }
    forall y: nat | t.lastSession < y ensures Unheard(t.sent, y) {
      assert Unheard(s.sent, y);
      Appended(s.sent, x, y);
    }
    assert forall k :: k in s.children ==> ChildOk(s, s.children[k]);
  }

  lemma DiscoveredKeeps(s: State, e: Progress, key: string)
    requires Inv(s) && key !in s.children
    ensures Inv(Discovered(s, e, key))
  {
    var c := NewChild(s, e);
    var quiet := c.(runs := {}, finished := true);
    var t := Send(s.(children := s.children[key := quiet], lastSession := c.session), c.parent, Announce(c.session, TitleOf(e, key), e.description));
    AnnouncedKeeps(s, e, key);
    StateUpdateKeeps(t, key, c, Running(c.session, e.run));
    assert t.children[key := c] == s.children[key := c];
  }

  /** The cards of a child may change, and so may whether it is known to have spoken, once
      it has: the trace says the same. */
  lemma DetailKeeps(s: State, key: string, c: Child)
    requires Inv(s) && key in s.children
    requires c == s.children[key].(hasText := c.hasText, cards := c.cards)
    requires c.hasText ==> s.children[key].hasText || Spoken(s.sent, c.session)
    ensures Inv(s.(children := s.children[key := c]))
  {
    var t := s.(children := s.children[key := c]);
    forall k | k in t.children ensures ChildOk(t, t.children[k]) {
      assert ChildOk(s, s.children[k]);
    }
  }

  lemma RootCardsKeep(s: State, rootCards: Cards)
    requires Inv(s)
    ensures Inv(s.(rootCards := rootCards))
  {
    forall k | k in s.children ensures ChildOk(s.(rootCards := rootCards), s.children[k]) {
      assert ChildOk(s, s.children[k]);
    }
  }

  /** Whatever an event that is not stale says keeps the invariant. */
  lemma ToldKeeps(s: State, e: Progress, key: string)
    requires Inv(s) && key in s.children && (s.children[key].finished ==> e.kind == Retry)
    ensures Inv(Told(s, e, key))
  {
    var c := s.children[key];
    assert ChildOk(s, c);
    match e.kind
    case TextDelta =>
      if e.output != "" {
        SendKeeps(s, c.session, Message(e.output));
        DetailKeeps(Send(s, c.session, Message(e.output)), key, c.(hasText := true));
      } else {
        assert s.children[key := c.(hasText := c.hasText || e.output != "")] == s.children;
      }
    case ThinkingDelta => SendKeeps(s, c.session, Thought(e.output));
    case ToolStart => SendKeeps(s, c.session, ToolCall(ToolIdOf(c.run, e.toolUseId), e.toolName));
    case ToolDone => ToolDoneKeeps(s, e, key);
    case Retry => SendKeeps(s, c.session, Status(e.output));
    case CompletedKind => EndedKeeps(s, e, key);
    case FailedKind => EndedKeeps(s, e, key);
    case CancelledKind => EndedKeeps(s, e, key);
    case _ =>
  }

  lemma ToolDoneKeeps(s: State, e: Progress, key: string)
    requires Inv(s) && key in s.children && !s.children[key].finished && e.kind == ToolDone
    ensures Inv(Told(s, e, key))
  {
    var c := s.children[key];
    assert ChildOk(s, c);
    var id := ToolIdOf(c.run, e.toolUseId);
    var u := ToolCallUpdate(id, CardOf(c.cards, id));
    SendKeeps(s, c.session, u);
    DetailKeeps(Send(s, c.session, u), key, c.(cards := c.cards - {id}));
    var done := Send(s.(children := s.children[key := c.(cards := c.cards - {id})]), c.session, u);
    assert ChildOk(done, done.children[key]);
    SendKeeps(done, c.session, PlanUpdate);
  }

  /** Ending keeps the invariant, and a result that is not an error has been shown. */
  lemma EndedKeeps(s: State, e: Progress, key: string)
    requires Inv(s) && key in s.children && !s.children[key].finished
    ensures Inv(Ended(s, e, key))
    ensures StopOf(e) == EndTurn && e.output != "" ==> Spoken(Ended(s, e, key).sent, s.children[key].session)
  {
    var c := s.children[key];
    assert ChildOk(s, c);
    SendKeeps(s, c.session, Message(e.output));
    var told := if StopOf(e) == EndTurn && !c.hasText then SendText(s, c.session, Message(e.output), e.output) else s;
    StateUpdateKeeps(told, key, c.(finished := true), Idle(c.session, StopOf(e)));
    Appended(told.sent, Sent(c.parent, Idle(c.session, StopOf(e))), c.session);
  }

  lemma ReportsKeep(s: State, e: Progress)
    requires Inv(s)
    ensures Inv(Reports(s, e))
  {
    var key := KeyOf(e);
    if e.pending || key == "" {
    } else if key !in s.children {
      DiscoveredKeeps(s, e, key);
      ToldKeeps(Discovered(s, e, key), e, key);
    } else if e.kind == StartedKind {
      if !Duplicate(s.children[key], e) {
        var c := NextRun(s.children[key], e);
        StateUpdateKeeps(s, key, c, Running(c.session, e.run));
        ToldKeeps(Restarted(s, e, key), e, key);
      }
    } else if !Stale(s.children[key], e) {
      ToldKeeps(s, e, key);
    }
  }

  lemma AttachesKeep(s: State, u: ToolUse)
    requires Inv(s)
    ensures Inv(Attaches(s, u))
  {
    if u.messageId == "" {
    } else if u.mainRole {
      var cards := WithTerminal(s.rootCards, Plain(u.messageId), u.terminal);
      RootCardsKeep(s, cards);
      SendKeeps(s.(rootCards := cards), s.root, ToolCallUpdate(Plain(u.messageId), cards[Plain(u.messageId)]));
    } else if u.agentId in s.children {
      var c := s.children[u.agentId];
      assert ChildOk(s, c);
      if !c.finished {
        var id := ToolIdOf(c.run, u.messageId);
        var cards := WithTerminal(c.cards, id, u.terminal);
        SendKeeps(s, c.session, ToolCallUpdate(id, cards[id]));
        DetailKeeps(Send(s, c.session, ToolCallUpdate(id, cards[id])), u.agentId, c.(cards := cards));
      }
    }
  }

  lemma StepKeeps(s: State, e: Event)
    requires Inv(s)
    ensures Inv(Step(s, e))
  {
    match e
    case Reported(p) => ReportsKeep(s, p);
    case Attached(u) => AttachesKeep(s, u);
    case MainToolDone(id) =>
      RootCardsKeep(s, s.rootCards - {ToolIdOf("", id)});
      SendKeeps(s.(rootCards := s.rootCards - {ToolIdOf("", id)}), s.root,
        ToolCallUpdate(ToolIdOf("", id), CardOf(s.rootCards, ToolIdOf("", id))));
    case OtherSession =>
      forall key | key in s.children ensures ChildOk(Step(s, e), s.children[key]) {
        assert ChildOk(s, s.children[key]);
      }
  }

  lemma StepKeepsRoot(s: State, e: Event)
    ensures Step(s, e).root == s.root
  {
  }

  /**
   Whatever events arrive in whatever order, the client sees a well-formed trace: every
   child is announced once, to root or to a child announced before it, ahead of anything
   sent on it; nothing is said on a resting child; named runs start at most once.
   */
  lemma {:induction false} TracesAreWellFormed(root: SessionId, events: seq<Event>)
    ensures Inv(Run(Init(root), events)) && Run(Init(root), events).root == root
    ensures WellFormed(Run(Init(root), events).sent, root)
  {
    if events != [] {
      var n := |events| - 1;
      TracesAreWellFormed(root, events[..n]);
      assert Run(Init(root), events) == Step(Run(Init(root), events[..n]), events[n]);
      StepKeepsRoot(Run(Init(root), events[..n]), events[n]);
      StepKeeps(Run(Init(root), events[..n]), events[n]);
    }
  }

  // ----------------------------------------------------- what a run streams

  /** News of a child's own children is also sent on its session. */
  predicate AboutChild(u: Update) { u.Announce? || u.Running? || u.Idle? }

  /** What was said on a session, news of its children aside. */
  function Said(sent: seq<Sent>, session: SessionId): seq<Update> {
    if sent == [] then []
    else
      var x := sent[|sent| - 1];
      Said(sent[..|sent| - 1], session) + (if x.to == session && !AboutChild(x.update) then [x.update] else [])
  }

  lemma SaidSnoc(sent: seq<Sent>, x: Sent, session: SessionId)
    ensures Said(sent + [x], session) == Said(sent, session) + if x.to == session && !AboutChild(x.update) then [x.update] else []
  {
    assert (sent + [x])[..|sent|] == sent;
  }

  /** An event that speaks of the child under this key. */
  predicate Concerns(key: string, e: Event) {
    match e
    case Reported(p) => !p.pending && key != "" && KeyOf(p) == key
    case Attached(u) => u.messageId != "" && !u.mainRole && u.agentId == key
    case _ => false
  }

  predicate SameRunAs(c: Child, run: string) { run == "" || run == c.run }

  /** Something streamed by the run that the child is in. */
  predicate Streamed(c: Child, key: string, e: Event) {
    && Concerns(key, e)
    && match e {
         case Reported(p) =>
           && (SameRunAs(c, p.run) || c.run == "")
           && (p.kind == TextDelta || p.kind == ThinkingDelta || p.kind == ToolStart || p.kind == ToolDone || p.kind == Retry)
         case Attached(u) => SameRunAs(c, u.run)
         case _ => false
       }
  }

  /** Something left over from another run, or a start that was already reported. */
  predicate Leftover(c: Child, key: string, e: Event) {
    && Concerns(key, e)
    && match e {
         case Reported(p) => if p.kind == StartedKind then Duplicate(c, p) else !SameRunAs(c, p.run) && c.run != ""
         case Attached(u) => !SameRunAs(c, u.run)
         case _ => false
       }
  }

  /** What the client must see of one streamed event, and the cards after it. */
  function Shown(c: Child, e: Event): (seq<Update>, Cards) {
    match e
    case Reported(p) =>
      var id := ToolIdOf(c.run, p.toolUseId);
      (match p.kind
       case TextDelta => (if p.output == "" then [] else [Message(p.output)], c.cards)
       case ThinkingDelta => (if p.output == "" then [] else [Thought(p.output)], c.cards)
       case ToolStart => ([ToolCall(id, p.toolName)], c.cards)
       case Retry => ([Status(p.output)], c.cards)
       case _ => ([ToolCallUpdate(id, CardOf(c.cards, id))] + (if p.plan then [PlanUpdate] else []), c.cards - {id}))
    case Attached(u) =>
      var id := ToolIdOf(c.run, u.messageId);
      ([ToolCallUpdate(id, CardOf(c.cards, id) + [u.terminal])], WithTerminal(c.cards, id, u.terminal))
    case _ => ([], c.cards)
  }

  /** What the client must see of a run, from its streamed events alone. */
  function AllShown(c: Child, key: string, events: seq<Event>): (seq<Update>, Cards) {
    if events == [] then ([], c.cards)
    else
      var before := AllShown(c, key, events[..|events| - 1]);
      var one := After(c, before.1, key, events[|events| - 1]);
      (before.0 + one.0, one.1)
  }

  lemma StreamedStep(s: State, c: Child, key: string, e: Event)
    requires key in s.children && s.children[key].(hasText := c.hasText) == c && !c.finished
    requires Streamed(c, key, e)
    ensures var t := Step(s, e);
      && key in t.children && t.children[key].(hasText := c.hasText) == c.(cards := Shown(c, e).1)
      && Said(t.sent, c.session) == Said(s.sent, c.session) + Shown(c, e).0
  {
    if e.Attached? {
      StreamedAttach(s, c, key, e.use);
    } else {
      StreamedReport(s, c, key, e.progress);
    }
  }

  lemma StreamedAttach(s: State, c: Child, key: string, u: ToolUse)
    requires key in s.children && s.children[key].(hasText := c.hasText) == c && !c.finished
    requires Streamed(c, key, Attached(u))
    ensures var t := Attaches(s, u);
      && key in t.children && t.children[key].(hasText := c.hasText) == c.(cards := Shown(c, Attached(u)).1)
      && Said(t.sent, c.session) == Said(s.sent, c.session) + Shown(c, Attached(u)).0
  {
    var id := ToolIdOf(c.run, u.messageId);
    SaidSnoc(s.sent, Sent(c.session, ToolCallUpdate(id, CardOf(c.cards, id) + [u.terminal])), c.session);
  }

  lemma StreamedReport(s: State, c: Child, key: string, p: Progress)
    requires key in s.children && s.children[key].(hasText := c.hasText) == c && !c.finished
    requires Streamed(c, key, Reported(p))
    ensures var t := Reports(s, p);
      && key in t.children && t.children[key].(hasText := c.hasText) == c.(cards := Shown(c, Reported(p)).1)
      && Said(t.sent, c.session) == Said(s.sent, c.session) + Shown(c, Reported(p)).0
  {
    assert Reports(s, p) == Told(s, p, key);
    if p.kind == ToolDone {
      StreamedDone(s, c, key, p);
    } else {
      StreamedOne(s, c, key, p);
    }
  }

  lemma StreamedOne(s: State, c: Child, key: string, p: Progress)
    requires key in s.children && s.children[key].(hasText := c.hasText) == c
    requires p.kind == TextDelta || p.kind == ThinkingDelta || p.kind == ToolStart || p.kind == Retry
    ensures var t := Told(s, p, key);
      && key in t.children && t.children[key].(hasText := c.hasText) == c.(cards := Shown(c, Reported(p)).1)
      && Said(t.sent, c.session) == Said(s.sent, c.session) + Shown(c, Reported(p)).0
  {
    var shown := Shown(c, Reported(p)).0;
    if shown == [] {
      assert Said(s.sent, c.session) + shown == Said(s.sent, c.session);
    } else {
      SentOne(s, c, key, p);
      SaidSnoc(s.sent, Sent(c.session, shown[0]), c.session);
    }
  }

  lemma SentOne(s: State, c: Child, key: string, p: Progress)
    requires key in s.children && s.children[key].(hasText := c.hasText) == c
    requires p.kind == TextDelta || p.kind == ThinkingDelta || p.kind == ToolStart || p.kind == Retry
    ensures var shown := Shown(c, Reported(p)).0;
      shown != [] ==> shown == [shown[0]] && Told(s, p, key).sent == s.sent + [Sent(c.session, shown[0])]
  {
  }

  lemma StreamedDone(s: State, c: Child, key: string, p: Progress)
    requires key in s.children && s.children[key].(hasText := c.hasText) == c && p.kind == ToolDone
    ensures var t := Told(s, p, key);
      && key in t.children && t.children[key].(hasText := c.hasText) == c.(cards := Shown(c, Reported(p)).1)
      && Said(t.sent, c.session) == Said(s.sent, c.session) + Shown(c, Reported(p)).0
  {
    var id := ToolIdOf(c.run, p.toolUseId);
    var first := Sent(c.session, ToolCallUpdate(id, CardOf(c.cards, id)));
    SaidSnoc(s.sent, first, c.session);
    SaidSnoc(s.sent + [first], Sent(c.session, PlanUpdate), c.session);
  }

  lemma LeftoverStep(s: State, c: Child, key: string, e: Event)
    requires key in s.children && s.children[key].(hasText := c.hasText) == c && !c.finished
    requires Leftover(c, key, e)
    ensures Step(s, e) == s
  {
  }

  /** Only these updates were added to the trace. */
  predicate Adds(s: State, t: State, added: seq<Sent>) { t.sent == s.sent + added }

  /** None of them is for the session, or is only news of its children. */
  predicate Foreign(added: seq<Sent>, session: SessionId) {
    forall i :: 0 <= i < |added| ==> added[i].to != session || AboutChild(added[i].update)
  }

  lemma {:induction false} ForeignSaysNothing(sent: seq<Sent>, added: seq<Sent>, session: SessionId)
    requires Foreign(added, session)
    ensures Said(sent + added, session) == Said(sent, session)
  {
    if added == [] {
      assert sent + added == sent;
    } else {
      var n := |added| - 1;
      ForeignSaysNothing(sent, added[..n], session);
      assert sent + added == (sent + added[..n]) + [added[n]];
      SaidSnoc(sent + added[..n], added[n], session);
    }
  }

  /** What an event tells on one child is foreign to every other session. */
  lemma EndedElsewhere(s: State, e: Progress, other: string, session: SessionId) returns (added: seq<Sent>)
    requires other in s.children && s.children[other].session != session
    ensures Adds(s, Ended(s, e, other), added) && Foreign(added, session)
  {
    added := Ended(s, e, other).sent[|s.sent|..];
  }

  lemma ToldElsewhere(s: State, e: Progress, other: string, session: SessionId) returns (added: seq<Sent>)
    requires other in s.children && s.children[other].session != session
    ensures Adds(s, Told(s, e, other), added) && Foreign(added, session)
    ensures Told(s, e, other).children.Keys == s.children.Keys
    ensures forall k :: k in s.children && k != other ==> Told(s, e, other).children[k] == s.children[k]
  {
    ToldKeepsOthers(s, e, other);
    if e.kind == CompletedKind || e.kind == FailedKind || e.kind == CancelledKind {
      added := EndedElsewhere(s, e, other, session);
    } else {
      added := Told(s, e, other).sent[|s.sent|..];
    }
  }

  lemma ToldKeepsOthers(s: State, e: Progress, other: string)
    requires other in s.children
    ensures Told(s, e, other).children.Keys == s.children.Keys
    ensures forall k :: k in s.children && k != other ==> Told(s, e, other).children[k] == s.children[k]
  {
  }

  lemma ElsewhereReport(s: State, key: string, p: Progress)
    requires Inv(s) && key in s.children && !Concerns(key, Reported(p))
    ensures var c, t := s.children[key], Reports(s, p);
      key in t.children && t.children[key] == c && Said(t.sent, c.session) == Said(s.sent, c.session)
  {
    var c, other := s.children[key], KeyOf(p);
    assert ChildOk(s, c);
    if p.pending || other == "" {
    } else if other !in s.children {
      var mid := Discovered(s, p, other);
      var news := [Sent(NewChild(s, p).parent, Announce(NewChild(s, p).session, TitleOf(p, other), p.description)),
                   Sent(NewChild(s, p).parent, Running(NewChild(s, p).session, p.run))];
      assert mid.sent == s.sent + news;
      ForeignSaysNothing(s.sent, news, c.session);
      var added := ToldElsewhere(mid, p, other, c.session);
      ForeignSaysNothing(mid.sent, added, c.session);
    } else {
      ElsewhereKnown(s, key, other, p);
    }
  }

  lemma ElsewhereKnown(s: State, key: string, other: string, p: Progress)
    requires Inv(s) && key in s.children && other in s.children && other != key && KeyOf(p) == other && !p.pending && other != ""
    ensures var c, t := s.children[key], Reports(s, p);
      key in t.children && t.children[key] == c && Said(t.sent, c.session) == Said(s.sent, c.session)
  {
    var c := s.children[key];
    assert s.children[other].session != c.session;
    if p.kind == StartedKind {
      if !Duplicate(s.children[other], p) {
        var mid := Restarted(s, p, other);
        SaidSnoc(s.sent, Sent(s.children[other].parent, Running(s.children[other].session, p.run)), c.session);
        var added := ToldElsewhere(mid, p, other, c.session);
        ForeignSaysNothing(mid.sent, added, c.session);
      }
    } else if !Stale(s.children[other], p) {
      var added := ToldElsewhere(s, p, other, c.session);
      ForeignSaysNothing(s.sent, added, c.session);
    }
  }

  /** An event that does not concern a child changes nothing for it. */
  lemma ElsewhereStep(s: State, key: string, e: Event)
    requires Inv(s) && key in s.children && !Concerns(key, e)
    ensures var c, t := s.children[key], Step(s, e);
      key in t.children && t.children[key] == c && Said(t.sent, c.session) == Said(s.sent, c.session)
  {
    var c := s.children[key];
    assert ChildOk(s, c);
    match e
    case Reported(p) => ElsewhereReport(s, key, p);
    case Attached(u) => ElsewhereAttaches(s, key, u);
    case MainToolDone(id) =>
      SaidSnoc(s.sent, MainDone(s, id).sent[|s.sent|], c.session);
    case OtherSession =>
  }

  lemma ElsewhereAttaches(s: State, key: string, u: ToolUse)
    requires Inv(s) && key in s.children && !Concerns(key, Attached(u))
    ensures var c, t := s.children[key], Attaches(s, u);
      key in t.children && t.children[key] == c && Said(t.sent, c.session) == Said(s.sent, c.session)
  {
    var c := s.children[key];
    assert ChildOk(s, c);
    assert u.agentId in s.children && u.agentId != key ==> s.children[u.agentId].session != c.session;
    ElsewhereAttach(s, c.session, u);
  }

  lemma ElsewhereAttach(s: State, session: SessionId, u: ToolUse)
    requires session != s.root
    requires u.messageId != "" && !u.mainRole && u.agentId in s.children ==> s.children[u.agentId].session != session
    ensures Said(Attaches(s, u).sent, session) == Said(s.sent, session)
  {
    var t := Attaches(s, u);
    if t.sent != s.sent {
      var x := t.sent[|s.sent|];
      assert t.sent == s.sent + [x] && x.to != session;
      SaidSnoc(s.sent, x, session);
    }
  }

  /**
   While a run goes on, the client sees on its child's session exactly what that run
   streams, terminals included, in order, whatever leftovers of other runs and whatever
   events of other agents come in between.
   */
  lemma {:induction false} RunsAreRelayed(s: State, key: string, events: seq<Event>)
    requires Inv(s) && key in s.children && !s.children[key].finished
    requires forall i :: 0 <= i < |events| && Concerns(key, events[i]) ==>
      Streamed(s.children[key], key, events[i]) || Leftover(s.children[key], key, events[i])
    ensures Inv(Run(s, events)) && Relayed(s, Run(s, events), s.children[key], key, AllShown(s.children[key], key, events))
  {
    if events == [] {
      assert Said(s.sent, s.children[key].session) + [] == Said(s.sent, s.children[key].session);
    } else {
      var n := |events| - 1;
      var c, mid, before := s.children[key], Run(s, events[..n]), AllShown(s.children[key], key, events[..n]);
      RunsAreRelayed(s, key, events[..n]);
      RelayOne(c, before, mid, key, events[n]);
      RelayedTwice(s, mid, Step(mid, events[n]), c, key, before, After(c, before.1, key, events[n]));
      StepKeeps(mid, events[n]);
    }
  }

  /** From s to t the child has kept its run, its cards are as shown, and what was shown was
      said on its session. */
  predicate Relayed(s: State, t: State, c: Child, key: string, shown: (seq<Update>, Cards)) {
    && key in t.children && t.children[key].(hasText := c.hasText) == c.(cards := shown.1)
    && Said(t.sent, c.session) == Said(s.sent, c.session) + shown.0
  }

  /** What one event adds, from these cards on. */
  function After(c: Child, cards: Cards, key: string, e: Event): (seq<Update>, Cards) {
    if Streamed(c, key, e) then Shown(c.(cards := cards), e) else ([], cards)
  }

  lemma RelayedTwice(s: State, mid: State, t: State, c: Child, key: string, before: (seq<Update>, Cards), one: (seq<Update>, Cards))
    requires Relayed(s, mid, c, key, before) && Relayed(mid, t, c, key, one)
    ensures Relayed(s, t, c, key, (before.0 + one.0, one.1))
  {
    var said := Said(s.sent, c.session);
    assert (said + before.0) + one.0 == said + (before.0 + one.0);
  }

  lemma RelayOne(c: Child, before: (seq<Update>, Cards), s: State, key: string, e: Event)
    requires Inv(s) && key in s.children && s.children[key].(hasText := c.hasText) == c.(cards := before.1) && !c.finished
    requires Concerns(key, e) ==> Streamed(c, key, e) || Leftover(c, key, e)
    ensures Relayed(s, Step(s, e), c, key, After(c, before.1, key, e))
  {
    var now := c.(cards := before.1);
    if !Concerns(key, e) {
      ElsewhereStep(s, key, e);
    } else if Streamed(c, key, e) {
      StreamedStep(s, now, key, e);
    } else {
      LeftoverStep(s, now, key, e);
    }
  }

  /** The terminals of a tool use that attach in one run, in order. */
  function AttachedTo(key: string, messageId: string, events: seq<Event>): seq<string> {
    if events == [] then []
    else
      var e := events[|events| - 1];
      AttachedTo(key, messageId, events[..|events| - 1])
      + AttachedNow(key, messageId, e)
  }

  function AttachedNow(key: string, messageId: string, e: Event): seq<string> {
    if Concerns(key, e) && e.Attached? && e.use.messageId == messageId then [e.use.terminal] else []
  }

  /** The event is not the end of this tool call, and attaches only in this run. */
  predicate KeepsCard(c: Child, key: string, messageId: string, e: Event) {
    && (Streamed(c, key, e) && e.Reported? && e.progress.kind == ToolDone ==> e.progress.toolUseId != messageId)
    && (Concerns(key, e) && e.Attached? ==> Streamed(c, key, e))
  }

  lemma LastShown(c: Child, key: string, events: seq<Event>)
    requires events != []
    ensures var n := |events| - 1;
      AllShown(c, key, events).1 == After(c, AllShown(c, key, events[..n]).1, key, events[n]).1
  {
  }

  lemma Regroup(a: seq<string>, b: seq<string>, c: seq<string>)
    ensures a + (b + c) == (a + b) + c
  {
  }

  /** Until its tool call ends, a card lists every terminal attached to it so far. */
  lemma {:induction false} CardsAccumulate(c: Child, key: string, messageId: string, events: seq<Event>)
    requires messageId != ""
    requires forall i :: 0 <= i < |events| ==> KeepsCard(c, key, messageId, events[i])
    ensures var id := ToolIdOf(c.run, messageId);
      CardOf(AllShown(c, key, events).1, id) == CardOf(c.cards, id) + AttachedTo(key, messageId, events)
  {
    if events != [] {
      var n := |events| - 1;
      var before, now := AllShown(c, key, events[..n]).1, AttachedNow(key, messageId, events[n]);
      CardsAccumulate(c, key, messageId, events[..n]);
      OneCard(c, before, key, messageId, events[n]);
      LastShown(c, key, events);
      Regroup(CardOf(c.cards, ToolIdOf(c.run, messageId)), AttachedTo(key, messageId, events[..n]), now);
    }
  }

  lemma OneCard(c: Child, cards: Cards, key: string, messageId: string, e: Event)
    requires messageId != "" && KeepsCard(c, key, messageId, e)
    ensures var id := ToolIdOf(c.run, messageId);
      CardOf(After(c, cards, key, e).1, id) == CardOf(cards, id) + AttachedNow(key, messageId, e)
  {
  }
}
