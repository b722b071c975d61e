/**
 The mailbox of detached runs, internal/agent/notifications.go (DrainNotifications): an
 in-place partition of a growing buffer, and what posting and draining add up to.
 */
module Mailbox {
  import opened Wrappers

  /** workDir is a cleaned path; tag tells notices of the same origin apart. */
  datatype Notice = Notice(session: string, workDir: string, parentId: string, tag: nat)

  datatype Scope = Scope(session: string, workDir: string, parentId: string)

  predicate Matches(n: Notice, s: Scope) {
    n.session == s.session && n.workDir == s.workDir && (s.session != "" || n.parentId == s.parentId)
  }

  function Taken(notices: seq<Notice>, s: Scope): seq<Notice> {
    if notices == [] then []
    else
      var last := notices[|notices| - 1];
      Taken(notices[..|notices| - 1], s) + (if Matches(last, s) then [last] else [])
  }

  function Left(notices: seq<Notice>, s: Scope): seq<Notice> {
    if notices == [] then []
    else
      var last := notices[|notices| - 1];
      Left(notices[..|notices| - 1], s) + (if Matches(last, s) then [] else [last])
  }

  /** Two scopes read the same letters. */
  predicate SameBox(a: Scope, b: Scope) {
    a.session == b.session && a.workDir == b.workDir && (a.session != "" || a.parentId == b.parentId)
  }

  datatype Op = Post(notice: Notice) | Drain(scope: Scope)

  /** box: what waits; delivered: every drain with what it returned. */
  datatype State = State(box: seq<Notice>, delivered: seq<(Scope, seq<Notice>)>)

  function Step(s: State, op: Op): State {
    match op
    case Post(n) => s.(box := s.box + [n])
    case Drain(scope) => State(Left(s.box, scope), s.delivered + [(scope, Taken(s.box, scope))])
  }

  function Run(ops: seq<Op>): State {
    if ops == [] then State([], []) else Step(Run(ops[..|ops| - 1]), ops[|ops| - 1])
  }

  function Posted(ops: seq<Op>): seq<Notice> {
    if ops == [] then []
    else
      var last := ops[|ops| - 1];
      Posted(ops[..|ops| - 1]) + (if last.Post? then [last.notice] else [])
  }

  /** Everything a box was given, drain after drain. */
  function GivenTo(delivered: seq<(Scope, seq<Notice>)>, s: Scope): seq<Notice> {
    if delivered == [] then []
    else
      var last := delivered[|delivered| - 1];
      GivenTo(delivered[..|delivered| - 1], s) + (if SameBox(last.0, s) then last.1 else [])
  }

  /** Scopes share all their letters or none. */
  lemma BoxesDoNotOverlap(n: Notice, a: Scope, b: Scope)
    requires Matches(n, a)
    ensures Matches(n, b) <==> SameBox(a, b)
  {
  }

  lemma TakenSnoc(notices: seq<Notice>, n: Notice, s: Scope)
    ensures Taken(notices + [n], s) == Taken(notices, s) + if Matches(n, s) then [n] else []
    ensures Left(notices + [n], s) == Left(notices, s) + if Matches(n, s) then [] else [n]
  {
    assert (notices + [n])[..|notices|] == notices;
  }

  /** A drain takes from every box its own letters and leaves the other boxes alone. */
  lemma {:induction false} DrainTouchesOneBox(notices: seq<Notice>, drained: Scope, s: Scope)
    ensures Taken(Left(notices, drained), s) == if SameBox(drained, s) then [] else Taken(notices, s)
    ensures SameBox(drained, s) ==> Taken(notices, drained) == Taken(notices, s)
  {
    if notices != [] {
      var before, last := notices[..|notices| - 1], notices[|notices| - 1];
      DrainTouchesOneBox(before, drained, s);
      if Matches(last, drained) {
        BoxesDoNotOverlap(last, drained, s);
        assert Left(notices, drained) == Left(before, drained);
      } else {
        TakenSnoc(Left(before, drained), last, s);
        if Matches(last, s) {
          BoxesDoNotOverlap(last, s, drained);
        }
      }
    }
  }

  /**
   Over any run of posts and drains, what a box was given so far followed by what still
   waits for it is exactly what was posted to it, in the order it was posted: nothing is
   lost, delivered twice or reordered, whatever other parents drain in between.
   */
  lemma {:induction false} DeliveredInOrder(ops: seq<Op>, s: Scope)
    ensures GivenTo(Run(ops).delivered, s) + Taken(Run(ops).box, s) == Taken(Posted(ops), s)
  {
    if ops != [] {
      var before, last := ops[..|ops| - 1], ops[|ops| - 1];
      var was := Run(before);
      DeliveredInOrder(before, s);
      match last
      case Post(n) =>
        TakenSnoc(was.box, n, s);
        TakenSnoc(Posted(before), n, s);
      case Drain(scope) =>
        DrainTouchesOneBox(was.box, scope, s);
        assert (was.delivered + [(scope, Taken(was.box, scope))])[..|was.delivered|] == was.delivered;
        assert Posted(ops) == Posted(before);
    }
  }

  lemma OneMore(notices: seq<Notice>, i: nat, s: Scope)
    requires i < |notices|
    ensures Taken(notices[..i + 1], s) == Taken(notices[..i], s) + (if Matches(notices[i], s) then [notices[i]] else [])
    ensures Left(notices[..i + 1], s) == Left(notices[..i], s) + (if Matches(notices[i], s) then [] else [notices[i]])
  {
    assert notices[..i + 1][..i] == notices[..i];
  }

  /** clear: the slots from lo up to hi hold nothing any more. */
  method Clear(slots: array<Option<Notice>>, lo: nat, hi: nat)
    requires lo <= hi <= slots.Length
    modifies slots
    ensures forall j :: 0 <= j < slots.Length ==> slots[j] == if lo <= j < hi then None else old(slots[j])
  {
    for i := lo to hi
      invariant forall j :: 0 <= j < slots.Length ==> slots[j] == if lo <= j < i then None else old(slots[j])
    {
      slots[i] := None;
    }
  }

  /** The buffer behind the mailbox; the slots past len hold nothing. */
  class Notifications {
    var slots: array<Option<Notice>>
    var len: nat

    ghost predicate Valid()
      reads this, slots
    {
      && len <= slots.Length
      && (forall i :: 0 <= i < len ==> slots[i].Some?)
      && (forall i :: len <= i < slots.Length ==> slots[i] == None)
    }

    ghost function Contents(): seq<Notice>
      requires Valid()
      reads this, slots
    {
      seq(len, i requires 0 <= i < len && len <= slots.Length && slots[i].Some? reads this, slots => slots[i].value)
    }

    constructor ()
      ensures Valid() && fresh(slots) && Contents() == []
    {
      slots := new Option<Notice>[4](_ => None);
      len := 0;
    }

    /** append: in place while there is room, into a larger buffer otherwise. */
    method Append(n: Notice)
      requires Valid()
      modifies this, slots
      ensures Valid() && Contents() == old(Contents()) + [n]
      ensures slots == old(slots) || fresh(slots)
    {
      if len == slots.Length {
        var larger := new Option<Notice>[2 * slots.Length + 1](_ => None);
        for i := 0 to len
          invariant slots == old(slots) && len == old(len) && fresh(larger) && larger.Length == 2 * slots.Length + 1
          invariant unchanged(this) && unchanged(slots)
          invariant forall j :: 0 <= j < i ==> larger[j] == slots[j]
          invariant forall j :: i <= j < larger.Length ==> larger[j] == None
        {
          larger[i] := slots[i];
        }
        slots := larger;
      }
      slots[len] := Some(n);
      len := len + 1;
    }

    /** The letters of the scope leave; the others close up, and the freed slots are cleared. */
    method DrainNotifications(scope: Scope) returns (events: seq<Notice>)
      requires Valid()
      modifies this, slots
      ensures Valid() && slots == old(slots)
      ensures events == Taken(old(Contents()), scope) && Contents() == Left(old(Contents()), scope)
    {
      ghost var was := Contents();
      ghost var kept: seq<Notice> := [];
      events := [];
      var remaining := 0;
      for i := 0 to len
        invariant len == old(len) && slots == old(slots) && len <= slots.Length && |was| == len
        invariant events == Taken(was[..i], scope) && kept == Left(was[..i], scope)
        invariant remaining == |kept| <= i
        invariant forall j :: 0 <= j < remaining ==> slots[j] == Some(kept[j])
        invariant forall j :: i <= j < len ==> slots[j] == Some(was[j])
        invariant forall j :: len <= j < slots.Length ==> slots[j] == None
      {
        OneMore(was, i, scope);
        var notice := slots[i].value;
        if Matches(notice, scope) {
          events := events + [notice];
        } else {
          slots[remaining] := Some(notice);
          remaining := remaining + 1;
          kept := kept + [notice];
        }
      }
      assert was[..len] == was;
      Clear(slots, remaining, len);
      len := remaining;
      assert Contents() == kept;
    }
  }
}
