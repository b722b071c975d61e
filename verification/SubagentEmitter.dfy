/**
 The emitter as the server runs it, under subagentMu: fields updated in place, updates
 appended to what has been sent. Every method is proved against Subagents.
 */
module SubagentEmitter {
  import opened Strings
  import opened SubagentTrace
  import opened Subagents

  class Emitter {
    const root: SessionId
    var rootCards: Cards
    var children: map<string, Child>
    var lastSession: nat
    var sent: seq<Sent>

    constructor (root: SessionId)
      ensures Value() == Init(root)
    {
      this.root, rootCards, children, lastSession, sent := root, map[], map[], root, [];
    }

    ghost function Value(): State
      reads this
    {
      State(root, rootCards, children, lastSession, sent)
    }

    method NextSessionID() returns (id: SessionId)
      modifies this`lastSession
      ensures Value() == Step(old(Value()), OtherSession) && id == lastSession
    {
      lastSession := lastSession + 1;
      id := lastSession;
    }

    method EmitUpdate(to: SessionId, update: Update)
      modifies this`sent
      ensures Value() == Send(old(Value()), to, update)
    {
      sent := sent + [Sent(to, update)];
    }

    method EmitText(to: SessionId, update: Update, text: string)
      modifies this`sent
      ensures Value() == SendText(old(Value()), to, update, text)
    {
      if text == "" {
        return;
      }
      EmitUpdate(to, update);
    }

    /** The first part of emitSubagentProgress: find the child, or announce a new one. */
    method Discover(e: Progress, key: string) returns (unknown: bool)
      modifies this
      ensures key in children && (unknown <==> key !in old(children))
      ensures !unknown ==> Value() == old(Value())
      ensures unknown ==> Send(Value(), children[key].parent, Running(children[key].session, e.run)) == Discovered(old(Value()), e, key)
      ensures unknown ==> !children[key].finished && children[key].run == e.run
    {
      unknown := key !in children;
      if unknown {
        var parent := root;
        if e.parentAgentId in children {
          parent := children[e.parentAgentId].session;
        }
        var session := NextSessionID();
        children := children[key := Child(session, parent, e.run, {e.run}, false, false, map[])];
        var title := Trim(e.description);
        if title == "" {
          title := key;
        }
        EmitUpdate(parent, Announce(session, title, e.description));
      }
    }

    /** The switch of emitSubagentProgress over the kinds that say something. */
    method Tell(e: Progress, key: string)
      requires key in children
      modifies this
      ensures Value() == Told(old(Value()), e, key)
    {
      var c := children[key];
      match e.kind
      case TextDelta =>
        children := children[key := c.(hasText := c.hasText || e.output != "")];
        EmitText(c.session, Message(e.output), e.output);
      case ThinkingDelta =>
        EmitText(c.session, Thought(e.output), e.output);
      case ToolStart =>
        EmitUpdate(c.session, ToolCall(ToolIdOf(c.run, e.toolUseId), e.toolName));
      case ToolDone =>
        var id := ToolIdOf(c.run, e.toolUseId);
        var terminals := CardOf(c.cards, id);
        children := children[key := c.(cards := c.cards - {id})];
        EmitUpdate(c.session, ToolCallUpdate(id, terminals));
        if e.plan {
          EmitUpdate(c.session, PlanUpdate);
        }
      case Retry =>
        EmitUpdate(c.session, Status(e.output));
      case CompletedKind => End(e, key);
      case FailedKind => End(e, key);
      case CancelledKind => End(e, key);
      case _ =>
    }

    method End(e: Progress, key: string)
      requires key in children
      modifies this
      ensures Value() == Ended(old(Value()), e, key)
    {
      var c := children[key];
      var stop := EndTurn;
      if e.kind == CancelledKind {
        stop := Cancelled;
      } else if e.kind == FailedKind || e.isError {
        stop := Error(e.output);
      } else if !c.hasText {
        EmitText(c.session, Message(e.output), e.output);
      }
      children := children[key := c.(finished := true)];
      EmitUpdate(c.parent, Idle(c.session, stop));
    }

    method EmitSubagentProgress(e: Progress)
      modifies this
      ensures Value() == Reports(old(Value()), e)
    {
      if e.pending {
        return;
      }
      var key := Trim(e.agentId);
      if key == "" {
        key := Trim(e.taskId);
      }
      if key == "" {
        return;
      }
      var unknown := Discover(e, key);
      var c := children[key];
      if !unknown && e.kind == StartedKind {
        if e.run != "" && e.run in c.runs {
          return;
        }
        c := c.(run := e.run, runs := c.runs + {e.run}, finished := false, hasText := false, cards := map[]);
        children := children[key := c];
      } else if (c.finished && e.kind != Retry) || (e.run != "" && c.run != "" && e.run != c.run) {
        return;
      }
      if unknown || e.kind == StartedKind {
        EmitUpdate(c.parent, Running(c.session, c.run));
      }
      Tell(e, key);
    }

    method AttachTerminal(u: ToolUse)
      modifies this
      ensures Value() == Attaches(old(Value()), u)
    {
      if u.messageId == "" {
        return;
      }
      if u.mainRole {
        var id := Plain(u.messageId);
        rootCards := rootCards[id := CardOf(rootCards, id) + [u.terminal]];
        EmitUpdate(root, ToolCallUpdate(id, rootCards[id]));
        return;
      }
      if u.agentId !in children {
        return;
      }
      var c := children[u.agentId];
      if c.finished || (u.run != "" && c.run != u.run) {
        return;
      }
      var id := Plain(u.messageId);
      if c.run != "" {
        id := InRun(c.run, u.messageId);
      }
      c := c.(cards := c.cards[id := CardOf(c.cards, id) + [u.terminal]]);
      children := children[u.agentId := c];
      EmitUpdate(c.session, ToolCallUpdate(id, c.cards[id]));
    }

    /** emitToolDone for a tool call of the root session: its card's terminals go along. */
    method EmitMainToolDone(toolUseId: string)
      modifies this
      ensures Value() == MainDone(old(Value()), toolUseId)
    {
      var id := ToolIdOf("", toolUseId);
      var terminals := CardOf(rootCards, id);
      rootCards := rootCards - {id};
      EmitUpdate(root, ToolCallUpdate(id, terminals));
    }
  }
}
