/**
 Running one command in a client terminal, internal/acp/terminal.go: Run and the
 goroutine that create starts, over an unbuffered channel, with the caller's context
 ending at any moment and the client answering at any moment.
 */
module Terminal {
  import opened Wrappers

  type TerminalId = string

  /** What terminal/create brought back. */
  datatype Reply = Failed | Blank | Created(id: TerminalId)

  datatype Request = Kill(id: TerminalId) | Output(id: TerminalId) | Release(id: TerminalId)

  /** Where Run stands; from Checking to Releasing it owns the terminal, whose release is deferred. */
  datatype MainAt =
    | Entered
    | Selecting
    | Checking(id: TerminalId)
    | Waiting(id: TerminalId)
    | Killing(id: TerminalId)
    | Reading(id: TerminalId)
    | Releasing(id: TerminalId)
    | Returned

  /** Where the goroutine of create stands. */
  datatype WorkerAt =
    | NotStarted
    | Calling
    | Offering(reply: Reply)
    | LateKill(id: TerminalId)
    | LateRelease(id: TerminalId)
    | Exited

  /**
   created, handed and waitFailed record what happened: a terminal came into being, its
   id reached Run, and the wait was cancelled or came back with an error.
   */
  datatype State = State(
    main: MainAt, worker: WorkerAt, ctxDone: bool,
    created: Option<TerminalId>, handed: bool, waitFailed: bool,
    sent: seq<Request>)

  const INIT := State(Entered, NotStarted, false, None, false, false, [])

  datatype Action =
    | EndContext
    | Enter(absoluteCwd: bool)
    | ClientReplies(reply: Reply)
    | HandOver
    | MainSeesContext
    | WorkerSeesContext
    | CheckContext
    | WaitReturns(ok: bool)
    | MainSends
    | WorkerSends

  function Owned(reply: Reply): MainAt {
    match reply
    case Created(id) => Checking(id)
    case _ => Returned
  }

  /** None: the action is not possible in this state. */
  function Next(s: State, a: Action): Option<State> {
    match a
    case EndContext => Some(s.(ctxDone := true))
    case Enter(absoluteCwd) =>
      if s.main != Entered then None
      else if s.ctxDone || !absoluteCwd then Some(s.(main := Returned))
      else Some(s.(main := Selecting, worker := Calling))
    case ClientReplies(reply) =>
      if s.worker != Calling then None
      else Some(s.(worker := Offering(reply), created := if reply.Created? then Some(reply.id) else None))
    case HandOver =>
      if s.main == Selecting && s.worker.Offering? then
        Some(s.(main := Owned(s.worker.reply), worker := Exited, handed := true))
      else None
    case MainSeesContext =>
      if s.main == Selecting && s.ctxDone then Some(s.(main := Returned)) else None
    case WorkerSeesContext =>
      if s.worker.Offering? && s.ctxDone then
        Some(s.(worker := if s.worker.reply.Created? then LateKill(s.worker.reply.id) else Exited))
      else None
    case CheckContext =>
      if !s.main.Checking? then None
      else if s.ctxDone then Some(s.(main := Killing(s.main.id), waitFailed := true))
      else Some(s.(main := Waiting(s.main.id)))
    case WaitReturns(ok) =>
      if !s.main.Waiting? then None
      else if ok then Some(s.(main := Reading(s.main.id)))
      else Some(s.(main := Killing(s.main.id), waitFailed := true))
    case MainSends =>
      (match s.main
       case Killing(id) => Some(s.(main := Reading(id), sent := s.sent + [Kill(id)]))
       case Reading(id) => Some(s.(main := Releasing(id), sent := s.sent + [Output(id)]))
       case Releasing(id) => Some(s.(main := Returned, sent := s.sent + [Release(id)]))
       case _ => None)
    case WorkerSends =>
      (match s.worker
       case LateKill(id) => Some(s.(worker := LateRelease(id), sent := s.sent + [Kill(id)]))
       case LateRelease(id) => Some(s.(worker := Exited, sent := s.sent + [Release(id)]))
       case _ => None)
  }

  function Exec(actions: seq<Action>): Option<State> {
    if actions == [] then Some(INIT)
    else
      var before := Exec(actions[..|actions| - 1]);
      if before.None? then None else Next(before.value, actions[|actions| - 1])
  }

  predicate MainOwns(s: State, id: TerminalId) {
    match s.main
    case Checking(x) => x == id
    case Waiting(x) => x == id
    case Killing(x) => x == id
    case Reading(x) => x == id
    case Releasing(x) => x == id
    case _ => false
  }

  predicate WorkerOwns(s: State, id: TerminalId) {
    match s.worker
    case Offering(reply) => reply == Created(id)
    case LateKill(x) => x == id
    case LateRelease(x) => x == id
    case _ => false
  }

  predicate Finished(s: State) {
    s.main == Returned && (s.worker == NotStarted || s.worker == Exited)
  }

  /** The requests that must have gone out once both sides are done with a terminal. */
  function FullTrace(s: State, id: TerminalId): seq<Request> {
    if !s.handed then [Kill(id), Release(id)]
    else if s.waitFailed then [Kill(id), Output(id), Release(id)]
    else [Output(id), Release(id)]
  }

  predicate Past(s: State) {
    s.main.Releasing? || s.main == Returned
  }

  /** How many of those have gone out, from where the owner stands. */
  function Progress(s: State): nat {
    if !s.handed then
      (if s.worker.LateRelease? then 1 else if s.worker == Exited then 2 else 0)
    else
      (if s.waitFailed && (s.main.Reading? || Past(s)) then 1 else 0)
      + (if Past(s) then 1 else 0)
      + (if s.main == Returned then 1 else 0)
  }

  /** Before the reply arrives there is nothing to own. */
  predicate NothingYet(s: State) {
    && s.sent == [] && !s.handed && !s.waitFailed && s.created == None
    && match s.main {
         case Entered => s.worker == NotStarted
         case Selecting => s.worker == Calling
         case Returned => s.worker == NotStarted || (s.worker == Calling && s.ctxDone)
         case _ => false
       }
  }

  /** The reply carried no terminal. */
  predicate NoTerminal(s: State) {
    && s.sent == [] && !s.waitFailed && s.created == None
    && (s.worker.Offering? ==> !s.handed && !s.worker.reply.Created?)
    && (s.worker.Offering? || s.worker == Exited)
    && (s.main == Selecting || s.main == Returned)
    && (s.main == Selecting && s.worker == Exited ==> s.ctxDone)
    && (s.main == Returned && s.worker.Offering? ==> s.ctxDone)
  }

  predicate HasTerminal(s: State, id: TerminalId) {
    && s.created == Some(id)
    && Progress(s) <= |FullTrace(s, id)|
    && s.sent == FullTrace(s, id)[..Progress(s)]
    && if s.handed then
         && s.worker == Exited
         && (MainOwns(s, id) || s.main == Returned)
         && (s.main.Checking? || s.main.Waiting? ==> !s.waitFailed)
         && (s.main.Killing? ==> s.waitFailed)
       else
         && !s.waitFailed
         && (WorkerOwns(s, id) || s.worker == Exited)
         && (s.main == Selecting || s.main == Returned)
         && (!s.worker.Offering? || s.main == Returned ==> s.ctxDone)
  }

  ghost predicate Inv(s: State) {
    NothingYet(s) || NoTerminal(s) || exists id :: HasTerminal(s, id)
  }

  lemma TerminalStepKeeps(s: State, a: Action, id: TerminalId)
    requires HasTerminal(s, id) && Next(s, a).Some?
    ensures HasTerminal(Next(s, a).value, id)
  {
  }

  lemma StepKeeps(s: State, a: Action)
    requires Inv(s) && Next(s, a).Some?
    ensures Inv(Next(s, a).value)
  {
    if NothingYet(s) {
      if a.ClientReplies? && a.reply.Created? {
        assert HasTerminal(Next(s, a).value, a.reply.id);
      }
    } else if NoTerminal(s) {
    } else {
      var id :| HasTerminal(s, id);
      TerminalStepKeeps(s, a, id);
    }
  }

  lemma {:induction false} ExecKeeps(actions: seq<Action>)
    requires Exec(actions).Some?
    ensures Inv(Exec(actions).value)
  {
    if actions != [] {
      var n := |actions| - 1;
      ExecKeeps(actions[..n]);
      StepKeeps(Exec(actions[..n]).value, actions[n]);
    }
  }

  /** The context had ended when Run looked at it before waiting. */
  predicate FoundEnded(actions: seq<Action>) {
    exists i :: 0 <= i < |actions| && actions[i] == CheckContext && EndContext in actions[..i]
  }

  /** Run went past its checks: the context had not ended and the directory was absolute. */
  predicate GotThrough(actions: seq<Action>) {
    exists i :: 0 <= i < |actions| && actions[i] == Enter(true) && EndContext !in actions[..i]
  }

  /** The wait was cancelled or came back with an error. */
  predicate WaitFailed(actions: seq<Action>) {
    WaitReturns(false) in actions || FoundEnded(actions)
  }

  lemma OneMore(actions: seq<Action>)
    requires actions != []
    ensures var n := |actions| - 1;
      && (forall a :: a in actions <==> a in actions[..n] || a == actions[n])
      && (FoundEnded(actions) <==> FoundEnded(actions[..n]) || (actions[n] == CheckContext && EndContext in actions[..n]))
      && (GotThrough(actions) <==> GotThrough(actions[..n]) || (actions[n] == Enter(true) && EndContext !in actions[..n]))
  {
    var n := |actions| - 1;
    assert actions == actions[..n] + [actions[n]];
    forall i | 0 <= i < n ensures actions[..n][..i] == actions[..i] && actions[..n][i] == actions[i] {
    }
    if FoundEnded(actions[..n]) {
      var i :| 0 <= i < n && actions[..n][i] == CheckContext && EndContext in actions[..n][..i];
      assert actions[i] == CheckContext && EndContext in actions[..i];
    }
    if GotThrough(actions[..n]) {
      var i :| 0 <= i < n && actions[..n][i] == Enter(true) && EndContext !in actions[..n][..i];
      assert actions[i] == Enter(true) && EndContext !in actions[..i];
    }
  }

  /** What the state remembers is what happened. */
  ghost predicate Remembers(s: State, actions: seq<Action>) {
    && (s.ctxDone <==> EndContext in actions)
    && (s.handed <==> HandOver in actions)
    && (s.waitFailed <==> WaitFailed(actions))
    && (s.worker != NotStarted <==> GotThrough(actions))
  }

  ghost predicate KnowsCreated(s: State, actions: seq<Action>) {
    forall id :: s.created == Some(id) <==> ClientReplies(Created(id)) in actions
  }

  /** One reply at most: it comes while nothing has been created. */
  lemma OneReply(s: State, a: Action)
    requires Inv(s) && Next(s, a).Some?
    ensures a.ClientReplies? ==> s.created == None
    ensures Next(s, a).value.created == if a.ClientReplies? && a.reply.Created? then Some(a.reply.id) else s.created
  {
  }

  lemma {:induction false} CreatedIsKnown(actions: seq<Action>)
    requires Exec(actions).Some?
    ensures KnowsCreated(Exec(actions).value, actions)
  {
    if actions != [] {
      var n := |actions| - 1;
      OneMore(actions);
      CreatedIsKnown(actions[..n]);
      ExecKeeps(actions[..n]);
      OneReply(Exec(actions[..n]).value, actions[n]);
    }
  }

  lemma StepRemembers(s: State, a: Action, t: State)
    requires Next(s, a) == Some(t)
    ensures t.ctxDone == (s.ctxDone || a == EndContext)
    ensures t.handed == (s.handed || a == HandOver)
    ensures t.waitFailed == (s.waitFailed || a == WaitReturns(false) || (a == CheckContext && s.ctxDone))
    ensures (t.worker != NotStarted) == (s.worker != NotStarted || (a == Enter(true) && !s.ctxDone))
  {
  }

  lemma RemembersOneMore(s: State, t: State, actions: seq<Action>)
    requires actions != []
    requires var n := |actions| - 1; Remembers(s, actions[..n]) && Next(s, actions[n]) == Some(t)
    ensures Remembers(t, actions)
  {
    OneMore(actions);
    StepRemembers(s, actions[|actions| - 1], t);
  }

  lemma {:induction false} StateRemembers(actions: seq<Action>)
    requires Exec(actions).Some?
    ensures Remembers(Exec(actions).value, actions)
  {
    if actions != [] {
      var n := |actions| - 1;
      StateRemembers(actions[..n]);
      RemembersOneMore(Exec(actions[..n]).value, Exec(actions).value, actions);
    }
  }

  /** What the invariant says about the requests sent so far. */
  lemma SentSoFar(s: State, id: TerminalId)
    requires HasTerminal(s, id)
    ensures forall i :: 0 <= i < |s.sent| ==> s.sent[i].id == id && (s.sent[i].Release? ==> i == |s.sent| - 1)
    ensures Release(id) in s.sent <==> Progress(s) == |FullTrace(s, id)|
  {
    assert |s.sent| == Progress(s);
    assert forall i :: 0 <= i < |s.sent| ==> s.sent[i] == FullTrace(s, id)[i];
    if Progress(s) == |FullTrace(s, id)| {
      assert s.sent[|s.sent| - 1] == Release(id);
    }
  }

  /**
   In every interleaving a terminal is owned by Run or by the goroutine, never both and
   never neither, until the one release request goes out; then by nobody.
   */
  lemma OneOwnerUntilReleased(actions: seq<Action>, id: TerminalId)
    requires Exec(actions).Some?
    ensures var s := Exec(actions).value;
      && (s.created == Some(id) && Release(id) !in s.sent ==> (MainOwns(s, id) <==> !WorkerOwns(s, id)))
      && (s.created != Some(id) || Release(id) in s.sent ==> !MainOwns(s, id) && !WorkerOwns(s, id))
  {
    ExecKeeps(actions);
    var s := Exec(actions).value;
    if !NothingYet(s) && !NoTerminal(s) {
      var x :| HasTerminal(s, x);
      SentSoFar(s, x);
    }
  }

  /** In every interleaving only the created terminal is spoken of, and nothing follows its release. */
  lemma NothingAfterRelease(actions: seq<Action>)
    requires Exec(actions).Some?
    ensures var s := Exec(actions).value;
      forall i :: 0 <= i < |s.sent| ==>
        s.created == Some(s.sent[i].id) && (s.sent[i].Release? ==> i == |s.sent| - 1)
  {
    ExecKeeps(actions);
    var s := Exec(actions).value;
    if !NothingYet(s) && !NoTerminal(s) {
      var x :| HasTerminal(s, x);
      SentSoFar(s, x);
    }
  }

  /** What must have gone out for a terminal once both sides are done, from what happened. */
  function FullStory(actions: seq<Action>, id: TerminalId): seq<Request> {
    if HandOver !in actions then [Kill(id), Release(id)]
    else if WaitFailed(actions) then [Kill(id), Output(id), Release(id)]
    else [Output(id), Release(id)]
  }

  /** At any moment, what went out so far for a created terminal begins that story. */
  lemma SentBeginsTheStory(actions: seq<Action>, id: TerminalId)
    requires Exec(actions).Some? && ClientReplies(Created(id)) in actions
    ensures Exec(actions).value.sent <= FullStory(actions, id)
  {
    ExecKeeps(actions);
    StateRemembers(actions);
    CreatedIsKnown(actions);
    var s := Exec(actions).value;
    if !NothingYet(s) && !NoTerminal(s) {
      var x :| HasTerminal(s, x);
    }
  }

  /**
   When both sides have finished, a created terminal was released exactly once and last,
   and its output fetched if its id reached Run.  It was killed first if and only if its
   id came too late for Run, the wait failed, or the context had ended before the wait.
   */
  lemma FinishedMeansReleased(actions: seq<Action>, id: TerminalId)
    requires Exec(actions).Some? && Finished(Exec(actions).value)
    ensures var s := Exec(actions).value;
      && (ClientReplies(Created(id)) in actions ==>
            && s.sent == FullStory(actions, id)
            && multiset(s.sent)[Release(id)] == 1
            && (Kill(id) in s.sent <==> HandOver !in actions || WaitFailed(actions)))
      && (ClientReplies(Created(id)) !in actions ==> forall r :: r in s.sent ==> r.id != id)
  {
    ExecKeeps(actions);
    StateRemembers(actions);
    CreatedIsKnown(actions);
    var s := Exec(actions).value;
    if !NothingYet(s) && !NoTerminal(s) {
      var x :| HasTerminal(s, x);
      SentSoFar(s, x);
      assert Progress(s) == |FullTrace(s, x)|;
      assert s.sent == FullTrace(s, x);
    }
  }

  /** Run looked at the context after the terminal was created, and it had not ended. */
  predicate FoundOpen(actions: seq<Action>) {
    exists i :: 0 <= i < |actions| && actions[i] == CheckContext && EndContext !in actions[..i]
  }

  lemma FoundOpenMore(actions: seq<Action>)
    requires actions != []
    ensures var n := |actions| - 1;
      FoundOpen(actions[..n]) || (actions[n] == CheckContext && EndContext !in actions[..n]) ==> FoundOpen(actions)
  {
    var n := |actions| - 1;
    if i :| 0 <= i < n && actions[..n][i] == CheckContext && EndContext !in actions[..n][..i] {
      assert actions[..n][..i] == actions[..i];
      assert actions[i] == CheckContext && EndContext !in actions[..i];
    }
  }

  /** Run waits for the command only after it found the context open. */
  lemma {:induction false} WaitsOnlyWhenOpen(actions: seq<Action>, ok: bool)
    requires Exec(actions).Some?
    ensures Exec(actions).value.main.Waiting? || WaitReturns(ok) in actions ==> FoundOpen(actions)
  {
    if actions != [] {
      var n := |actions| - 1;
      OneMore(actions);
      FoundOpenMore(actions);
      WaitsOnlyWhenOpen(actions[..n], ok);
      StateRemembers(actions[..n]);
    }
  }

  /** Nothing is asked of the client unless Run went past its checks. */
  lemma NothingWithoutChecks(actions: seq<Action>)
    requires Exec(actions).Some? && !GotThrough(actions)
    ensures var s := Exec(actions).value; s.created == None && s.sent == []
  {
    ExecKeeps(actions);
    StateRemembers(actions);
  }

  /** Steps left before both sides have finished. */
  function Rank(s: State): nat {
    (match s.main
     case Entered => 16
     case Selecting => 6
     case Checking(_) => 5
     case Waiting(_) => 4
     case Killing(_) => 3
     case Reading(_) => 2
     case Releasing(_) => 1
     case Returned => 0)
    + (match s.worker
       case NotStarted => 0
       case Calling => 4
       case Offering(_) => 3
       case LateKill(_) => 2
       case LateRelease(_) => 1
       case Exited => 0)
  }

  /** A step that is possible in an unfinished state. */
  function Available(s: State): Action {
    if s.main == Entered then Enter(true)
    else if s.main.Checking? then CheckContext
    else if s.main.Waiting? then WaitReturns(true)
    else if s.main.Killing? || s.main.Reading? || s.main.Releasing? then MainSends
    else if s.worker == Calling then ClientReplies(Failed)
    else if s.worker.LateKill? || s.worker.LateRelease? then WorkerSends
    else if s.worker.Offering? then (if s.main == Selecting then HandOver else WorkerSeesContext)
    else MainSeesContext
  }

  /**
   No interleaving gets stuck: until both sides have finished some step other than the
   context ending is possible.
   */
  lemma NeverStuck(actions: seq<Action>)
    requires Exec(actions).Some? && !Finished(Exec(actions).value)
    ensures Available(Exec(actions).value) != EndContext
    ensures Next(Exec(actions).value, Available(Exec(actions).value)).Some?
  {
    ExecKeeps(actions);
    var s := Exec(actions).value;
    if !NothingYet(s) && !NoTerminal(s) {
      var id :| HasTerminal(s, id);
      if s.handed {
        assert MainOwns(s, id);
      }
    }
  }

  /** Every step except the context ending brings the end of both sides nearer. */
  lemma StepsRunOut(actions: seq<Action>, a: Action)
    requires Exec(actions).Some? && a != EndContext && Next(Exec(actions).value, a).Some?
    ensures Rank(Next(Exec(actions).value, a).value) < Rank(Exec(actions).value)
  {
    ExecKeeps(actions);
  }
}
