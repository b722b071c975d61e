/**
 Request and response correlation on one JSON-RPC connection, internal/acp/conn.go:
 any number of concurrent Call, any number of dispatched responses, contexts ending at
 any moment and one effective Close, interleaved step by step. Critical sections of
 pendingMu are single steps, except the draining loop of Close, which holds the lock over
 several steps. A send on a closed channel and a second close set `panicked`, as the Go
 runtime would.
 */
module Conn {
  import opened Wrappers

  /** The text of an id: what json.Marshal prints for a number, or anything else. */
  datatype Key = Number(n: nat) | OtherText(text: string)

  /** A channel of capacity one; what is buffered is named by its arrival number. */
  datatype Channel = Channel(buffer: Option<nat>, closed: bool)

  datatype Outcome = Failed | Disconnected | Answered(arrival: nat)

  datatype CallAt = Starting | Writing | Selecting | Leaving(outcome: Outcome) | Done(outcome: Outcome)

  /** Where dispatchResponse stands with one response: nobody waits, holding, sent, closed. */
  datatype DispatchAt = Unmatched | Holding(call: nat) | Sent(call: nat) | Finished(call: nat)

  datatype Dispatch = Dispatch(key: Key, at: DispatchAt)

  datatype ClosePhase = Open | Signalled | Draining | Drained

  /** One Call: where it stands, its channel, and the response that found it, if any. */
  datatype Call = Call(at: CallAt, channel: Channel, matched: Option<nat>)

  /** Calls and arrivals are never forgotten; pending maps an id's text to a call. */
  datatype State = State(
    calls: seq<Call>, pending: map<Key, nat>, arrivals: seq<Dispatch>, phase: ClosePhase, panicked: bool)

  const INIT := State([], map[], [], Open, false)

  /** The id of call n: the counter is incremented before it is read. */
  function IdOf(n: nat): Key { Number(n + 1) }

  datatype Action =
    | Begin(marshalOk: bool)
    | Register(n: nat)
    | WriteReturns(n: nat, ok: bool)
    | ContextEnds(n: nat)
    | SeeClosed(n: nat)
    | Receive(n: nat)
    | Leave(n: nat)
    | Arrive(key: Key)
    | Send(d: nat)
    | CloseSent(d: nat)
    | CloseSignal
    | CloseLock
    | CloseOne(key: Key)
    | CloseUnlock

  predicate CallIs(s: State, n: nat, at: CallAt) { n < |s.calls| && s.calls[n].at == at }

  function Moved(s: State, n: nat, at: CallAt): State
    requires n < |s.calls|
  {
    s.(calls := s.calls[n := s.calls[n].(at := at)])
  }

  /** close(ch) */
  function CloseChannel(s: State, n: nat): State {
    if n < |s.calls| && !s.calls[n].channel.closed then
      s.(calls := s.calls[n := s.calls[n].(channel := s.calls[n].channel.(closed := true))])
    else
      s.(panicked := true)
  }

  /** A send that gives up when the buffer is full. */
  function TrySend(s: State, n: nat, d: nat): State {
    if n >= |s.calls| || s.calls[n].channel.closed then s.(panicked := true)
    else if s.calls[n].channel.buffer.None? then
      s.(calls := s.calls[n := s.calls[n].(channel := Channel(Some(d), false))])
    else s
  }

  /** A receive: the buffered response first, then the end of a closed channel. */
  function Received(c: Call): Option<Call> {
    if c.channel.buffer.Some? then
      Some(c.(at := Leaving(Answered(c.channel.buffer.value)), channel := c.channel.(buffer := None)))
    else if c.channel.closed then Some(c.(at := Leaving(Disconnected)))
    else None
  }

  /** The lookup and the deletion, in one critical section. */
  function Looked(s: State, key: Key): State {
    if key in s.pending && s.pending[key] < |s.calls| then
      var n := s.pending[key];
      s.(pending := s.pending - {key},
         arrivals := s.arrivals + [Dispatch(key, Holding(n))],
         calls := s.calls[n := s.calls[n].(matched := Some(|s.arrivals|))])
    else s.(arrivals := s.arrivals + [Dispatch(key, Unmatched)])
  }

  /** None: the action is not possible in this state. */
  function Next(s: State, a: Action): Option<State> {
    match a
    case Begin(marshalOk) =>
      Some(s.(calls := s.calls + [Call(if marshalOk then Starting else Done(Failed), Channel(None, false), None)]))
    case Register(n) =>
      if CallIs(s, n, Starting) && s.phase != Draining then
        Some(Moved(s, n, Writing).(pending := s.pending[IdOf(n) := n]))
      else None
    case WriteReturns(n, ok) =>
      if CallIs(s, n, Writing) then Some(Moved(s, n, if ok then Selecting else Leaving(Failed))) else None
    case ContextEnds(n) =>
      if CallIs(s, n, Selecting) then Some(Moved(s, n, Leaving(Failed))) else None
    case SeeClosed(n) =>
      if CallIs(s, n, Selecting) && s.phase != Open then Some(Moved(s, n, Leaving(Disconnected))) else None
    case Receive(n) =>
      if !CallIs(s, n, Selecting) || Received(s.calls[n]).None? then None
      else Some(s.(calls := s.calls[n := Received(s.calls[n]).value]))
    case Leave(n) =>
      if n < |s.calls| && s.calls[n].at.Leaving? && s.phase != Draining then
        Some(Moved(s, n, Done(s.calls[n].at.outcome)).(pending := s.pending - {IdOf(n)}))
      else None
    case Arrive(key) => if s.phase == Draining then None else Some(Looked(s, key))
    case Send(d) =>
      if d < |s.arrivals| && s.arrivals[d].at.Holding? then
        var n := s.arrivals[d].at.call;
        Some(TrySend(s, n, d).(arrivals := s.arrivals[d := s.arrivals[d].(at := Sent(n))]))
      else None
    case CloseSent(d) =>
      if d < |s.arrivals| && s.arrivals[d].at.Sent? then
        var n := s.arrivals[d].at.call;
        Some(CloseChannel(s, n).(arrivals := s.arrivals[d := s.arrivals[d].(at := Finished(n))]))
      else None
    case CloseSignal => if s.phase == Open then Some(s.(phase := Signalled)) else None
    case CloseLock => if s.phase == Signalled then Some(s.(phase := Draining)) else None
    case CloseOne(key) =>
      if s.phase == Draining && key in s.pending then
        Some(CloseChannel(s, s.pending[key]).(pending := s.pending - {key}))
      else None
    case CloseUnlock => if s.phase == Draining && s.pending == map[] then Some(s.(phase := Drained)) else None
  }

  function Exec(actions: seq<Action>): Option<State> {
    if actions == [] then Some(INIT)
    else
      var before := Exec(actions[..|actions| - 1]);
      if before.None? then None else Next(before.value, actions[|actions| - 1])
  }

  /** A call that has registered and still waits for its response. */
  predicate Waiting(at: CallAt) { at == Writing || at == Selecting }

  predicate AnsweredBy(at: CallAt, d: nat) {
    match at
    case Leaving(outcome) => outcome == Answered(d)
    case Done(outcome) => outcome == Answered(d)
    case _ => false
  }

  predicate HasAnswer(at: CallAt) {
    match at
    case Leaving(outcome) => outcome.Answered?
    case Done(outcome) => outcome.Answered?
    case _ => false
  }

  /** A call that no response has found: its channel is empty, and it is pending or shut. */
  predicate UnmatchedOk(c: Call, entry: bool) {
    && c.channel.buffer == None && !HasAnswer(c.at)
    && (entry ==> !c.channel.closed && (Waiting(c.at) || c.at.Leaving?))
    && (Waiting(c.at) ==> entry || c.channel.closed)
    && (c.at == Starting ==> !c.channel.closed)
  }

  /** A call that response d has found: only d's dispatch can reach the channel. */
  predicate MatchedOk(n: nat, c: Call, entry: bool, d: nat, dispatch: Dispatch) {
    && !entry && c.at != Starting
    && dispatch.key == IdOf(n) && !dispatch.at.Unmatched? && dispatch.at.call == n
    && (c.channel.closed <==> dispatch.at.Finished?)
    && (c.channel.buffer.Some? ==> c.channel.buffer == Some(d) && !dispatch.at.Holding?)
    && (Waiting(c.at) ==> dispatch.at.Holding? || c.channel.buffer == Some(d))
    && (HasAnswer(c.at) ==> AnsweredBy(c.at, d) && !dispatch.at.Holding?)
  }

  predicate CallOk(s: State, n: nat)
    requires n < |s.calls|
  {
    var c := s.calls[n];
    if c.matched.None? then UnmatchedOk(c, IdOf(n) in s.pending)
    else
      && c.matched.value < |s.arrivals|
      && MatchedOk(n, c, IdOf(n) in s.pending, c.matched.value, s.arrivals[c.matched.value])
  }

  ghost predicate CallsOk(s: State) {
    forall n :: 0 <= n < |s.calls| ==> CallOk(s, n)
  }

  ghost predicate PendingOk(s: State) {
    forall k :: k in s.pending ==> s.pending[k] < |s.calls| && k == IdOf(s.pending[k])
  }

  predicate ArrivalOk(s: State, d: nat)
    requires d < |s.arrivals|
  {
    var at := s.arrivals[d].at;
    !at.Unmatched? ==> at.call < |s.calls| && s.calls[at.call].matched == Some(d)
  }

  ghost predicate ArrivalsOk(s: State) {
    forall d :: 0 <= d < |s.arrivals| ==> ArrivalOk(s, d)
  }

  ghost predicate Inv(s: State) {
    !s.panicked && CallsOk(s) && PendingOk(s) && ArrivalsOk(s)
  }

  /** Steps inside one Call. */
  predicate CallerStep(a: Action) {
    a.Register? || a.WriteReturns? || a.ContextEnds? || a.SeeClosed? || a.Receive? || a.Leave?
  }

  lemma CallerKeeps(s: State, a: Action)
    requires Inv(s) && CallerStep(a) && Next(s, a).Some?
    ensures Inv(Next(s, a).value)
  {
    var t := Next(s, a).value;
    assert CallOk(s, a.n);
    forall m | 0 <= m < |t.calls| ensures CallOk(t, m) {
      assert CallOk(s, m);
      assert m != a.n ==> (IdOf(m) in t.pending <==> IdOf(m) in s.pending);
    }
    forall d | 0 <= d < |t.arrivals| ensures ArrivalOk(t, d) {
      assert ArrivalOk(s, d);
    }
  }

  lemma ArriveKeeps(s: State, key: Key)
    requires Inv(s)
    ensures Inv(Looked(s, key))
  {
    var t := Looked(s, key);
    assert key in s.pending ==> CallOk(s, s.pending[key]);
    forall m | 0 <= m < |t.calls| ensures CallOk(t, m) {
      assert CallOk(s, m);
      assert IdOf(m) != key ==> (IdOf(m) in t.pending <==> IdOf(m) in s.pending);
    }
    forall d | 0 <= d < |t.arrivals| ensures ArrivalOk(t, d) {
      assert d < |s.arrivals| ==> ArrivalOk(s, d);
    }
  }

  lemma DispatchKeeps(s: State, a: Action)
    requires Inv(s) && (a.Send? || a.CloseSent?) && Next(s, a).Some?
    ensures Inv(Next(s, a).value)
  {
    var t := Next(s, a).value;
    var n := s.arrivals[a.d].at.call;
    assert ArrivalOk(s, a.d);
    assert CallOk(s, n);
    assert CallOk(t, n);
    forall m | 0 <= m < |t.calls| ensures CallOk(t, m) {
      assert CallOk(s, m);
      assert s.calls[m].matched == Some(a.d) ==> m == n;
    }
    forall d | 0 <= d < |t.arrivals| ensures ArrivalOk(t, d) {
      assert ArrivalOk(s, d);
    }
  }

  lemma CloseKeeps(s: State, a: Action)
    requires Inv(s) && (a.CloseSignal? || a.CloseLock? || a.CloseOne? || a.CloseUnlock?) && Next(s, a).Some?
    ensures Inv(Next(s, a).value)
  {
    var t := Next(s, a).value;
    if a.CloseOne? {
      assert CallOk(s, s.pending[a.key]);
    }
    forall m | 0 <= m < |t.calls| ensures CallOk(t, m) {
      assert CallOk(s, m);
      assert a.CloseOne? && IdOf(m) != a.key ==> (IdOf(m) in t.pending <==> IdOf(m) in s.pending);
    }
    forall d | 0 <= d < |t.arrivals| ensures ArrivalOk(t, d) {
      assert ArrivalOk(s, d);
    }
  }

  lemma BeginKeeps(s: State, a: Action)
    requires Inv(s) && a.Begin?
    ensures Inv(Next(s, a).value)
  {
    var t := Next(s, a).value;
    forall m | 0 <= m < |t.calls| ensures CallOk(t, m) {
      assert m < |s.calls| ==> CallOk(s, m);
    }
    forall d | 0 <= d < |t.arrivals| ensures ArrivalOk(t, d) {
      assert ArrivalOk(s, d);
    }
  }

  lemma StepKeeps(s: State, a: Action)
    requires Inv(s) && Next(s, a).Some?
    ensures Inv(Next(s, a).value)
  {
    if a.Begin? {
      BeginKeeps(s, a);
    } else if CallerStep(a) {
      CallerKeeps(s, a);
    } else if a.Arrive? {
      ArriveKeeps(s, a.key);
    } else if a.Send? || a.CloseSent? {
      DispatchKeeps(s, a);
    } else {
      CloseKeeps(s, a);
    }
  }

  lemma {:induction false} ExecKeeps(actions: seq<Action>)
    requires Exec(actions).Some?
    ensures Inv(Exec(actions).value)
  {
    if actions != [] {
      var n := |actions| - 1;
      ExecKeeps(actions[..n]);
      StepKeeps(Exec(actions[..n]).value, actions[n]);
    }
  }

  /** In no interleaving is a channel closed twice or sent on after it was closed. */
  lemma NeverPanics(actions: seq<Action>)
    requires Exec(actions).Some?
    ensures !Exec(actions).value.panicked
  {
    ExecKeeps(actions);
  }

  /**
   Dispatch never blocks and never drops what it matched: the send always finds the
   channel open and empty, so the response lands in the buffer.
   */
  lemma {:induction false} SendFindsRoom(actions: seq<Action>, d: nat)
    requires Exec(actions + [Send(d)]).Some?
    ensures Exec(actions).Some?
    ensures var s := Exec(actions).value;
      && d < |s.arrivals| && s.arrivals[d].at.Holding? && s.arrivals[d].at.call < |s.calls|
      && s.calls[s.arrivals[d].at.call].channel == Channel(None, false)
      && Exec(actions + [Send(d)]).value.calls[s.arrivals[d].at.call].channel == Channel(Some(d), false)
  {
    var all := actions + [Send(d)];
    assert all[..|all| - 1] == actions;
    ExecKeeps(actions);
    var s := Exec(actions).value;
    assert ArrivalOk(s, d);
    assert CallOk(s, s.arrivals[d].at.call);
  }

  /**
   A response reaches only the Call with its id (section 5 of the JSON-RPC 2.0
   specification), and it reaches at most one.
   */
  lemma AnswerHasTheId(actions: seq<Action>, n: nat, m: nat, d: nat)
    requires Exec(actions).Some?
    requires var s := Exec(actions).value;
      n < |s.calls| && m < |s.calls| && AnsweredBy(s.calls[n].at, d)
    ensures var s := Exec(actions).value;
      && d < |s.arrivals| && s.arrivals[d].key == IdOf(n)
      && (AnsweredBy(s.calls[m].at, d) ==> m == n)
  {
    ExecKeeps(actions);
    var s := Exec(actions).value;
    assert CallOk(s, n) && CallOk(s, m);
  }

  /** At most one response is ever matched to a Call, however often its id is repeated. */
  lemma OneMatchPerCall(actions: seq<Action>, d: nat, e: nat)
    requires Exec(actions).Some?
    requires var s := Exec(actions).value;
      d < |s.arrivals| && e < |s.arrivals| && !s.arrivals[d].at.Unmatched? && !s.arrivals[e].at.Unmatched?
    requires var s := Exec(actions).value; s.arrivals[d].key == s.arrivals[e].key
    ensures d == e
  {
    ExecKeeps(actions);
    var s := Exec(actions).value;
    assert ArrivalOk(s, d) && ArrivalOk(s, e);
    assert CallOk(s, s.arrivals[d].at.call) && CallOk(s, s.arrivals[e].at.call);
  }

  /** A finished Call leaves no entry behind, and every entry is its own call's. */
  lemma NoEntryLeaks(actions: seq<Action>, key: Key)
    requires Exec(actions).Some? && key in Exec(actions).value.pending
    ensures var s := Exec(actions).value;
      && s.pending[key] < |s.calls| && key == IdOf(s.pending[key])
      && !s.calls[s.pending[key]].at.Done? && s.calls[s.pending[key]].matched.None?
  {
    ExecKeeps(actions);
    var s := Exec(actions).value;
    assert CallOk(s, s.pending[key]);
  }

  // ------------------------------------------- how a call ends, and why

  /** The marshalling results of the calls that have begun, in order. */
  function Begins(actions: seq<Action>): seq<bool> {
    if actions == [] then []
    else
      var before, a := Begins(actions[..|actions| - 1]), actions[|actions| - 1];
      if a.Begin? then before + [a.marshalOk] else before
  }

  /** The call has stopped waiting. */
  predicate Stopped(actions: seq<Action>, n: nat) {
    ContextEnds(n) in actions || SeeClosed(n) in actions || Receive(n) in actions
  }

  predicate Wrote(actions: seq<Action>, n: nat) {
    WriteReturns(n, true) in actions || WriteReturns(n, false) in actions
  }

  /** Nothing has happened to call n. */
  predicate Untouched(actions: seq<Action>, n: nat) {
    Register(n) !in actions && !Wrote(actions, n) && !Stopped(actions, n) && Leave(n) !in actions
  }

  predicate Is(at: CallAt, outcome: Outcome) {
    at == Leaving(outcome) || at == Done(outcome)
  }

  /** Where call n stands, told from the actions alone. */
  predicate Placed(actions: seq<Action>, n: nat, at: CallAt)
    requires n < |Begins(actions)|
  {
    var marshalled := Begins(actions)[n];
    && (at == Starting <==> marshalled && Register(n) !in actions)
    && (at == Writing <==> Register(n) in actions && !Wrote(actions, n))
    && (at == Selecting <==> WriteReturns(n, true) in actions && !Stopped(actions, n))
    && (Is(at, Failed) <==> !marshalled || WriteReturns(n, false) in actions || ContextEnds(n) in actions)
    && (Is(at, Disconnected) ==> SeeClosed(n) in actions || Receive(n) in actions)
    && (SeeClosed(n) in actions ==> Is(at, Disconnected))
    && (Receive(n) in actions ==> Is(at, Disconnected) || HasAnswer(at))
    && (HasAnswer(at) ==> Receive(n) in actions)
    && (at.Done? <==> !marshalled || Leave(n) in actions)
    && (Register(n) !in actions ==> Untouched(actions, n))
    && (!marshalled ==> Register(n) !in actions)
  }

  ghost predicate AllPlaced(actions: seq<Action>, s: State) {
    && |s.calls| == |Begins(actions)|
    && (forall n :: 0 <= n < |s.calls| ==> Placed(actions, n, s.calls[n].at))
    && (forall n: nat :: |s.calls| <= n ==> Untouched(actions, n))
  }

  lemma InOneMore(actions: seq<Action>)
    requires actions != []
    ensures forall a :: a in actions <==> a in actions[..|actions| - 1] || a == actions[|actions| - 1]
  {
    assert actions == actions[..|actions| - 1] + [actions[|actions| - 1]];
  }

  /** How one step moves the calls. */
  lemma StepMoves(s: State, a: Action, t: State, n: nat)
    requires Next(s, a) == Some(t) && n < |s.calls|
    ensures n < |t.calls|
    ensures var x, y := s.calls[n].at, t.calls[n].at;
      || (y == x && a != Register(n) && a != WriteReturns(n, true) && a != WriteReturns(n, false)
          && a != ContextEnds(n) && a != SeeClosed(n) && a != Receive(n) && a != Leave(n))
      || (a == Register(n) && x == Starting && y == Writing)
      || (a == WriteReturns(n, true) && x == Writing && y == Selecting)
      || (a == WriteReturns(n, false) && x == Writing && y == Leaving(Failed))
      || (a == ContextEnds(n) && x == Selecting && y == Leaving(Failed))
      || (a == SeeClosed(n) && x == Selecting && y == Leaving(Disconnected))
      || (a == Receive(n) && x == Selecting && (y == Leaving(Disconnected) || (y.Leaving? && y.outcome.Answered?)))
      || (a == Leave(n) && x.Leaving? && y == Done(x.outcome))
  {
  }

  lemma OnePlaced(actions: seq<Action>, s: State, t: State, n: nat)
    requires actions != []
    requires var k := |actions| - 1; n < |s.calls| == |Begins(actions[..k])| && Placed(actions[..k], n, s.calls[n].at)
    requires Next(s, actions[|actions| - 1]) == Some(t)
    ensures n < |t.calls| && n < |Begins(actions)| && Placed(actions, n, t.calls[n].at)
  {
    InOneMore(actions);
    StepMoves(s, actions[|actions| - 1], t, n);
  }

  lemma NewPlaced(actions: seq<Action>, s: State, t: State)
    requires actions != [] && Next(s, actions[|actions| - 1]) == Some(t) && actions[|actions| - 1].Begin?
    requires |Begins(actions[..|actions| - 1])| == |s.calls| && Untouched(actions[..|actions| - 1], |s.calls|)
    ensures |Begins(actions)| == |s.calls| + 1 == |t.calls| && Placed(actions, |s.calls|, t.calls[|s.calls|].at)
  {
    InOneMore(actions);
  }

  lemma EachPlaced(actions: seq<Action>, s: State, t: State)
    requires actions != [] && AllPlaced(actions[..|actions| - 1], s) && Next(s, actions[|actions| - 1]) == Some(t)
    ensures |t.calls| == |Begins(actions)| && forall n :: 0 <= n < |t.calls| ==> Placed(actions, n, t.calls[n].at)
  {
    CallsGrow(s, actions[|actions| - 1], t);
    assert |Begins(actions)| == |t.calls|;
    forall n | 0 <= n < |t.calls| ensures Placed(actions, n, t.calls[n].at) {
      PlacedAfter(actions, s, t, n);
    }
  }

  lemma PlacedAfter(actions: seq<Action>, s: State, t: State, n: nat)
    requires actions != [] && AllPlaced(actions[..|actions| - 1], s) && Next(s, actions[|actions| - 1]) == Some(t)
    requires n < |t.calls|
    ensures n < |Begins(actions)| && Placed(actions, n, t.calls[n].at)
  {
    CallsGrow(s, actions[|actions| - 1], t);
    if n < |s.calls| {
      OnePlaced(actions, s, t, n);
    } else {
      NewPlaced(actions, s, t);
    }
  }

  lemma LaterUntouched(actions: seq<Action>, s: State, t: State)
    requires actions != [] && AllPlaced(actions[..|actions| - 1], s) && Next(s, actions[|actions| - 1]) == Some(t)
    ensures forall n: nat :: |t.calls| <= n ==> Untouched(actions, n)
  {
    CallsGrow(s, actions[|actions| - 1], t);
    InOneMore(actions);
    forall n: nat | |t.calls| <= n ensures Untouched(actions, n) {
      assert Untouched(actions[..|actions| - 1], n);
    }
  }

  lemma {:induction false} CallsArePlaced(actions: seq<Action>)
    requires Exec(actions).Some?
    ensures AllPlaced(actions, Exec(actions).value)
  {
    if actions != [] {
      var k := |actions| - 1;
      CallsArePlaced(actions[..k]);
      EachPlaced(actions, Exec(actions[..k]).value, Exec(actions).value);
      LaterUntouched(actions, Exec(actions[..k]).value, Exec(actions).value);
    }
  }

  lemma CallsGrow(s: State, a: Action, t: State)
    requires Next(s, a) == Some(t)
    ensures |t.calls| == |s.calls| + if a.Begin? then 1 else 0
    ensures a.Begin? ==> t.calls[|s.calls|].at == if a.marshalOk then Starting else Done(Failed)
    ensures a.Register? || a.WriteReturns? || a.ContextEnds? || a.SeeClosed? || a.Receive? || a.Leave? ==> a.n < |s.calls|
  {
  }

  /** A call is shut without an answer only after Close has begun. */
  predicate ShutByClose(s: State, n: nat)
    requires n < |s.calls|
  {
    var c := s.calls[n];
    s.phase == Open ==> !Is(c.at, Disconnected) && (c.matched.None? ==> !c.channel.closed)
  }

  lemma StepKeepsShut(s: State, a: Action, t: State, n: nat)
    requires Inv(s) && Next(s, a) == Some(t) && n < |t.calls|
    requires n < |s.calls| ==> ShutByClose(s, n)
    ensures ShutByClose(t, n)
  {
    if n < |s.calls| {
      assert CallOk(s, n);
      if a.CloseSent? {
        assert ArrivalOk(s, a.d);
      }
    }
  }

  lemma {:induction false} OnlyCloseShuts(actions: seq<Action>)
    requires Exec(actions).Some?
    ensures var s := Exec(actions).value; forall n :: 0 <= n < |s.calls| ==> ShutByClose(s, n)
  {
    if actions != [] {
      var k := |actions| - 1;
      var s, t := Exec(actions[..k]).value, Exec(actions).value;
      OnlyCloseShuts(actions[..k]);
      ExecKeeps(actions[..k]);
      forall n | 0 <= n < |t.calls| ensures ShutByClose(t, n) {
        StepKeepsShut(s, actions[k], t, n);
      }
    }
  }

  lemma {:induction false} ArrivalsArrived(actions: seq<Action>, d: nat)
    requires Exec(actions).Some? && d < |Exec(actions).value.arrivals|
    ensures Arrive(Exec(actions).value.arrivals[d].key) in actions
  {
    var k := |actions| - 1;
    InOneMore(actions);
    if d < |Exec(actions[..k]).value.arrivals| {
      ArrivalsArrived(actions[..k], d);
    }
  }

  /**
   How a Call ends is told from what happened.  It fails if and only if its parameters
   could not be marshalled, its write failed or its context ended; it is disconnected only
   after Close has begun; and it is answered only by a response with its id.
   */
  lemma CallsEndForAReason(actions: seq<Action>, n: nat)
    requires Exec(actions).Some? && n < |Exec(actions).value.calls|
    ensures |Exec(actions).value.calls| == |Begins(actions)|
    ensures var at := Exec(actions).value.calls[n].at;
      && (Is(at, Failed) <==> !Begins(actions)[n] || WriteReturns(n, false) in actions || ContextEnds(n) in actions)
      && (Is(at, Disconnected) ==> CloseSignal in actions)
      && (HasAnswer(at) ==> Arrive(IdOf(n)) in actions)
      && (at.Done? <==> !Begins(actions)[n] || Leave(n) in actions)
  {
    var s := Exec(actions).value;
    CallsArePlaced(actions);
    assert Placed(actions, n, s.calls[n].at);
    ClosePhases(actions);
    OnlyCloseShuts(actions);
    assert ShutByClose(s, n);
    ExecKeeps(actions);
    assert CallOk(s, n);
    if HasAnswer(s.calls[n].at) {
      ArrivalsArrived(actions, s.calls[n].matched.value);
    }
  }

  lemma TouchedHasBegun(actions: seq<Action>, n: nat)
    requires Exec(actions).Some? && !Untouched(actions, n)
    ensures n < |Exec(actions).value.calls| == |Begins(actions)| && Placed(actions, n, Exec(actions).value.calls[n].at)
  {
    CallsArePlaced(actions);
  }

  /** A Call that was written returns its answer unless its context ended or Close began. */
  lemma WrittenCallsAreAnswered(actions: seq<Action>, n: nat)
    requires Exec(actions).Some? && WriteReturns(n, true) in actions && Leave(n) in actions
    requires ContextEnds(n) !in actions && CloseSignal !in actions
    ensures n < |Exec(actions).value.calls|
    ensures var at := Exec(actions).value.calls[n].at; at.Done? && at.outcome.Answered?
  {
    TouchedHasBegun(actions, n);
    CallsEndForAReason(actions, n);
  }

  /**
   No Call is forgotten: one whose request was written waits until it stops, and while it
   waits it is still registered, or a dispatch holds its channel, or it can receive at
   once; once Close has begun it can return in any case.
   */
  lemma NoCallIsLost(actions: seq<Action>, n: nat)
    requires Exec(actions).Some?
    requires WriteReturns(n, true) in actions && !Stopped(actions, n)
    ensures CallIs(Exec(actions).value, n, Selecting)
    ensures var s := Exec(actions).value;
      || (IdOf(n) in s.pending && s.pending[IdOf(n)] == n)
      || (exists d :: 0 <= d < |s.arrivals| && s.arrivals[d] == Dispatch(IdOf(n), Holding(n)))
      || Next(s, Receive(n)).Some?
    ensures CloseSignal in actions ==> Next(Exec(actions).value, SeeClosed(n)).Some?
  {
    ExecKeeps(actions);
    TouchedHasBegun(actions, n);
    ClosePhases(actions);
    WaitingIsReachable(Exec(actions).value, n);
  }

  lemma WaitingIsReachable(s: State, n: nat)
    requires Inv(s) && CallIs(s, n, Selecting)
    ensures
      || (IdOf(n) in s.pending && s.pending[IdOf(n)] == n)
      || (exists d :: 0 <= d < |s.arrivals| && s.arrivals[d] == Dispatch(IdOf(n), Holding(n)))
      || Next(s, Receive(n)).Some?
  {
    assert CallOk(s, n);
    if s.calls[n].matched.None? && IdOf(n) in s.pending {
      assert CallOk(s, s.pending[IdOf(n)]);
    }
    if Received(s.calls[n]).None? && s.calls[n].matched.Some? {
      assert s.arrivals[s.calls[n].matched.value] == Dispatch(IdOf(n), Holding(n));
    }
  }

  /** How far Close has come is told by its own steps. */
  lemma {:induction false} ClosePhases(actions: seq<Action>)
    requires Exec(actions).Some?
    ensures var phase := Exec(actions).value.phase;
      && (phase == Open <==> CloseSignal !in actions)
      && (phase == Draining <==> CloseLock in actions && CloseUnlock !in actions)
      && (phase == Drained <==> CloseUnlock in actions)
  {
    if actions != [] {
      InOneMore(actions);
      ClosePhases(actions[..|actions| - 1]);
    }
  }

  /** Close lets go of the lock only when no entry is left, and while it holds the lock
      nobody else touches the entries. */
  lemma CloseDrains(actions: seq<Action>, a: Action)
    requires Exec(actions).Some? && Next(Exec(actions).value, a).Some?
    ensures a == CloseUnlock ==> Exec(actions).value.pending == map[]
    ensures CloseLock in actions && CloseUnlock !in actions && !a.CloseOne? ==>
              Next(Exec(actions).value, a).value.pending == Exec(actions).value.pending
  {
    ClosePhases(actions);
  }
}
