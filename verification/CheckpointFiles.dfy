/**
 The store object of internal/checkpoint/store.go: its fields and directory are
 updated in place, and every method is proved against CheckpointStore.
 */
module CheckpointFiles {
  import opened Wrappers
  import opened CheckpointStore
  import opened Sorting

  predicate Distinct(order: seq<Path>) {
    forall i, j :: 0 <= i < j < |order| ==> order[i] != order[j]
  }

  lemma MembersSplit(turns: seq<nat>, k: nat)
    requires k <= |turns| && Increasing(turns)
    ensures Members(turns) == Members(turns[..k]) + Members(turns[k..])
    ensures Members(turns[..k]) !! Members(turns[k..])
  {
    assert turns == turns[..k] + turns[k..];
  }

  lemma TopOfSorted(turns: seq<nat>)
    requires Increasing(turns)
    ensures Top(Members(turns)) == if turns == [] then 0 else turns[|turns| - 1] + 1
  {
    if turns != [] {
      assert turns[|turns| - 1] in Members(turns);
      assert Top(Members(turns)) - 1 in turns;
    }
  }

  lemma MembersSize(turns: seq<nat>)
    requires Increasing(turns)
    ensures |Members(turns)| == |turns|
  {
    if turns != [] {
      var k := |turns| - 1;
      MembersSplit(turns, k);
      assert turns[k..] == [turns[k]] && Members([turns[k]]) == {turns[k]};
      MembersSize(turns[..k]);
    }
  }

  ghost predicate UpSet(turns: set<nat>, a: set<nat>) {
    a <= turns && forall t, u :: t in a && u in turns && t <= u ==> u in a
  }

  /** Upward closed subsets of the same size are equal. */
  lemma UpSetsUnique(turns: set<nat>, a: set<nat>, b: set<nat>)
    requires UpSet(turns, a) && UpSet(turns, b) && |a| == |b|
    ensures a == b
  {
    if x :| x in a && x !in b {
      forall y | y in b ensures y in a {
        assert y in turns && (y <= x ==> x in b);
      }
      SameSizeSubset(b, a);
    } else {
      SameSizeSubset(a, b);
    }
  }

  lemma SameSizeSubset(a: set<nat>, b: set<nat>)
    requires a <= b && |a| == |b|
    ensures a == b
  {
    assert b == a + (b - a);
    assert |b| == |a| + |b - a|;
  }

  lemma SuffixIsUp(turns: seq<nat>, k: nat)
    requires Increasing(turns) && k <= |turns|
    ensures UpSet(Members(turns), Members(turns[k..]))
    ensures |Members(turns[k..])| == |turns| - k
  {
    MembersSize(turns[k..]);
    MembersSplit(turns, k);
    forall t, u | t in turns[k..] && u in turns && t <= u ensures u in turns[k..] {
      var i :| k <= i < |turns| && turns[i] == t;
      var j :| 0 <= j < |turns| && turns[j] == u;
      assert j >= i;
    }
  }

  lemma NewestIs(turns: set<nat>, n: nat, a: set<nat>)
    requires UpSet(turns, a) && |a| == if |turns| <= n then |turns| else n
    ensures Newest(turns, n) == a
  {
    NewestIsABlock(turns, n);
    UpSetsUnique(turns, Newest(turns, n), a);
  }

  function Suffix(turns: seq<nat>, n: nat): seq<nat> {
    if |turns| <= n then turns else turns[|turns| - n..]
  }

  lemma NewestOfSorted(turns: seq<nat>, n: nat)
    requires Increasing(turns)
    ensures Newest(Members(turns), n) == Members(Suffix(turns, n))
  {
    var k := |turns| - |Suffix(turns, n)|;
    assert Suffix(turns, n) == turns[k..];
    SuffixIsUp(turns, k);
    MembersSize(turns);
    NewestIs(Members(turns), n, Members(turns[k..]));
  }

  lemma EarliestGap(s: State, lo: nat, hi: nat, hi': nat, p: Path)
    requires hi <= hi' && forall u :: hi <= u < hi' ==> u < lo || u !in s.metas
    ensures Earliest(s, lo, hi', p) == Earliest(s, lo, hi, p)
  {
    if hi < hi' {
      EarliestGap(s, lo, hi, hi' - 1, p);
    }
  }

  ghost function Oldest(turns: set<nat>, retain: nat): set<nat> {
    turns - Newest(turns, retain)
  }

  function Drop(payload: map<(nat, nat), Content>, turns: set<nat>): map<(nat, nat), Content> {
    map slot | slot in payload && slot.0 !in turns :: payload[slot]
  }

  lemma OldestOfSorted(turns: seq<nat>, retain: nat)
    requires Increasing(turns)
    ensures Oldest(Members(turns), retain) == if |turns| <= retain then {} else Members(turns[..|turns| - retain])
  {
    NewestOfSorted(turns, retain);
    if retain < |turns| {
      MembersSplit(turns, |turns| - retain);
    }
  }

  lemma RemoveOneMore(metas: map<nat, seq<FileMeta>>, payload: map<(nat, nat), Content>, gone: set<nat>, t: nat)
    ensures metas - gone - {t} == metas - (gone + {t})
    ensures Drop(Drop(payload, gone), {t}) == Drop(payload, gone + {t})
  {
  }

  lemma RemoveSlot(payload: map<(nat, nat), Content>, gone: set<(nat, nat)>, slot: (nat, nat))
    ensures payload - gone - {slot} == payload - (gone + {slot})
  {
  }

  /** Removes a path's bodies and filters its entries out of the turn's list. */
  method DropPath(files: seq<FileMeta>, payload: map<(nat, nat), Content>, t: nat, p: Path)
    returns (kept: seq<FileMeta>, left: map<(nat, nat), Content>)
    ensures kept == Without(files, p) && left == payload - SlotsOf(files, t, p)
  {
    kept, left := [], payload;
    ghost var removed: set<(nat, nat)> := {};
    assert payload - removed == payload;
    for k := 0 to |files|
      invariant kept == Without(files[..k], p)
      invariant removed == SlotsOf(files[..k], t, p)
      invariant left == payload - removed
    {
      DropOne(files, k, t, p);
      if files[k].path == p {
        RemoveSlot(payload, removed, (t, files[k].index));
        left := left - {(t, files[k].index)};
        removed := removed + {(t, files[k].index)};
      } else {
        kept := kept + [files[k]];
      }
    }
    assert files[..|files|] == files;
  }

  /** Entry k of turn u is about p, its body cannot be read, and nothing before it from the
      target turn on tells what p held. */
  ghost predicate Lost(s: State, target: nat, u: nat, k: nat, p: Path) {
    && target <= u && u in s.metas && k < |s.metas[u]| && s.metas[u][k].path == p
    && ReadFile(u, s.metas[u][k], s.payload).None?
    && Earliest(s, target, u, p).None? && ReadIn(s.metas[u][..k], u, s.payload, p).None?
  }

  ghost predicate LostUpTo(s: State, target: nat, u: nat, n: nat, p: Path) {
    exists k: nat :: k < n && Lost(s, target, u, k, p)
  }

  ghost predicate LostIn(s: State, target: nat, u: nat, p: Path) {
    u in s.metas && LostUpTo(s, target, u, |s.metas[u]|, p)
  }

  /** Some turn before hi has such an entry. */
  ghost predicate LostBefore(s: State, target: nat, hi: nat, p: Path) {
    exists u: nat :: u < hi && LostIn(s, target, u, p)
  }

  lemma LostGap(s: State, target: nat, lo: nat, t: nat, p: Path)
    requires lo <= t && forall u :: lo <= u < t ==> u !in s.metas
    ensures LostBefore(s, target, t + 1, p) <==> LostBefore(s, target, lo, p) || LostIn(s, target, t, p)
  {
  }

  lemma SomethingUnreadable(s: State, target: nat, hi: nat, p: Path)
    requires LostBefore(s, target, hi, p)
    ensures exists t, f :: t in s.metas && f in s.metas[t] && ReadFile(t, f, s.payload).None?
  {
    var u: nat :| u < hi && LostIn(s, target, u, p);
    var k: nat :| k < |s.metas[u]| && Lost(s, target, u, k, p);
    assert s.metas[u][k] in s.metas[u];
  }

  /** The store over its directory (metas, payload) and the workspace it restores. */
  class Store {
    var metas: map<nat, seq<FileMeta>>
    var payload: map<(nat, nat), Content>
    var activeTurn: nat
    var hasActive: bool
    var captured: set<Path>
    var retainTurns: nat
    var work: Workspace

    ghost function Abs(): State
      reads this
    {
      State(metas, payload, activeTurn, hasActive, captured, retainTurns, work)
    }

    /** NewStore over whatever an earlier process left in the directory. */
    constructor (metas: map<nat, seq<FileMeta>>, payload: map<(nat, nat), Content>, work: Workspace, retainTurns: int)
      ensures Abs() == Reopen(State(metas, payload, 0, false, {}, 0, work), retainTurns)
    {
      this.metas, this.payload, this.work := metas, payload, work;
      this.activeTurn, this.hasActive, this.captured := 0, false, {};
      this.retainTurns := if retainTurns <= 0 then DEFAULT_RETAIN_TURNS else retainTurns;
    }

    method ListTurns() returns (turns: seq<nat>)
      ensures Increasing(turns) && Members(turns) == metas.Keys
    {
      var sorted := Sort(metas.Keys);
      assert forall i :: 0 <= i < |sorted| ==> sorted[i] in Members(sorted);
      turns := sorted;
      assert forall t :: t in turns <==> t in Members(sorted);
    }

    method BeginTurn() returns (next: nat)
      modifies this
      ensures Abs() == Begin(old(Abs())) && next == activeTurn
    {
      var turns := ListTurns();
      TopOfSorted(turns);
      next := if |turns| > 0 then turns[|turns| - 1] + 1 else 0;
      ghost var s := Abs();
      metas := metas[next := []];
      assert metas.Keys == s.metas.Keys + {next};
      activeTurn, hasActive, captured := next, true, {};
      Prune();
      assert Oldest(s.metas.Keys + {next}, retainTurns) == s.metas[next := []].Keys - Kept(s);
    }

    method Prune()
      modifies this`metas, this`payload
      ensures metas == old(metas) - Oldest(old(metas).Keys, retainTurns)
      ensures payload == Drop(old(payload), Oldest(old(metas).Keys, retainTurns))
    {
      var turns := ListTurns();
      OldestOfSorted(turns, retainTurns);
      if |turns| <= retainTurns {
        assert metas - {} == metas && Drop(payload, {}) == payload;
        return;
      }
      var drop := turns[..|turns| - retainTurns];
      assert metas - Members([]) == metas && Drop(payload, Members([])) == payload;
      for k := 0 to |drop|
        invariant metas == old(metas) - Members(drop[..k])
        invariant payload == Drop(old(payload), Members(drop[..k]))
      {
        assert Members(drop[..k + 1]) == Members(drop[..k]) + {drop[k]};
        RemoveOneMore(old(metas), old(payload), Members(drop[..k]), drop[k]);
        metas := metas - {drop[k]};
        payload := Drop(payload, {drop[k]});
      }
      assert drop[..|drop|] == drop;
    }

    method CaptureFile(p: Path, content: Snap)
      modifies this
      ensures Abs() == Capture(old(Abs()), p, content)
    {
      if !hasActive || p in captured || activeTurn !in metas {
        return;
      }
      var files := metas[activeTurn];
      var idx := |files|;
      if content.Some? {
        payload := payload[(activeTurn, idx) := content.value];
      }
      metas := metas[activeTurn := files + [FileMeta(p, content.Some?, idx)]];
      captured := captured + {p};
    }

    method UncaptureFile(p: Path)
      modifies this
      ensures Abs() == Uncapture(old(Abs()), p)
    {
      if !hasActive || p !in captured || activeTurn !in metas {
        return;
      }
      var kept;
      kept, payload := DropPath(metas[activeTurn], payload, activeTurn, p);
      metas := metas[activeTurn := kept];
      captured := captured - {p};
    }

    /** The snapshots to put back: the earliest readable one of every path. */
    method CollectEarliest(target: nat) returns (earliest: map<Path, Snap>, order: seq<Path>, errors: seq<Path>)
      requires target in metas
      ensures Distinct(order) && forall p :: p in order <==> p in earliest
      ensures forall p ::
        var e := Earliest(Abs(), target, Top(metas.Keys), p);
        (p in earliest <==> e.Some?) && (p in earliest ==> earliest[p] == e.value)
      ensures forall p :: p in errors <==> LostBefore(Abs(), target, Top(metas.Keys), p)
    {
      var turns := ListTurns();
      TopOfSorted(turns);
      ghost var s := Abs();
      earliest, order, errors := map[], [], [];
      ghost var hi: nat := 0;
      for k := 0 to |turns|
        invariant hi == if k == 0 then 0 else turns[k - 1] + 1
        invariant Distinct(order) && forall p :: p in order <==> p in earliest
        invariant forall p ::
          var e := Earliest(s, target, hi, p);
          (p in earliest <==> e.Some?) && (p in earliest ==> earliest[p] == e.value)
        invariant forall p :: p in errors <==> LostBefore(s, target, hi, p)
      {
        var t := turns[k];
        assert forall u :: u in metas ==> u in Members(turns);
        forall u | hi <= u < t ensures u !in Members(turns) {
          assert forall i :: 0 <= i < |turns| ==> turns[i] != u;
        }
        forall p
          ensures Earliest(s, target, t, p) == Earliest(s, target, hi, p)
          ensures LostBefore(s, target, t + 1, p) <==> LostBefore(s, target, hi, p) || LostIn(s, target, t, p)
        {
          EarliestGap(s, target, hi, t, p);
          LostGap(s, target, hi, t, p);
        }
        hi := t + 1;
        if t >= target {
          var more;
          earliest, order, more := CollectTurn(target, t, earliest, order);
          errors := errors + more;
        }
      }
    }

    method CollectTurn(ghost target: nat, t: nat, before: map<Path, Snap>, orderBefore: seq<Path>)
      returns (earliest: map<Path, Snap>, order: seq<Path>, errors: seq<Path>)
      requires t in metas && target <= t
      requires Distinct(orderBefore) && forall p :: p in orderBefore <==> p in before
      requires forall p ::
        var e := Earliest(Abs(), target, t, p);
        (p in before <==> e.Some?) && (p in before ==> before[p] == e.value)
      ensures Distinct(order) && forall p :: p in order <==> p in earliest
      ensures forall p ::
        var e := Earliest(Abs(), target, t + 1, p);
        (p in earliest <==> e.Some?) && (p in earliest ==> earliest[p] == e.value)
      ensures forall p :: p in errors <==> LostIn(Abs(), target, t, p)
    {
      ghost var s := Abs();
      var files := metas[t];
      earliest, order, errors := before, orderBefore, [];
      for k := 0 to |files|
        invariant Distinct(order) && forall p :: p in order <==> p in earliest
        invariant forall p ::
          var e := if p in before then Some(before[p]) else ReadIn(files[..k], t, payload, p);
          (p in earliest <==> e.Some?) && (p in earliest ==> earliest[p] == e.value)
        invariant forall p :: p in errors <==> LostUpTo(s, target, t, k, p)
      {
        var f := files[k];
        assert files[..k + 1][..k] == files[..k];
        forall p
          ensures LostUpTo(s, target, t, k + 1, p) <==> LostUpTo(s, target, t, k, p) || Lost(s, target, t, k, p)
          ensures Lost(s, target, t, k, p) <==> p == f.path && p !in earliest && ReadFile(t, f, payload).None?
        {
        }
        if f.path !in earliest {
          var snap := ReadFile(t, f, payload);
          if snap.Some? {
            earliest := earliest[f.path := snap.value];
            order := order + [f.path];
          } else {
            errors := errors + [f.path];
          }
        }
      }
      assert files[..|files|] == files;
    }

    /** Writes or deletes each listed path, in order. */
    method ApplySnapshots(earliest: map<Path, Snap>, order: seq<Path>)
      returns (restored: seq<Path>, deleted: seq<Path>, skipped: seq<Path>)
      requires Distinct(order) && forall p :: p in order <==> p in earliest
      modifies this`work
      ensures forall p :: Lookup(work, p) == if p in earliest then earliest[p] else Lookup(old(work), p)
      ensures forall p :: p in restored <==> p in earliest && earliest[p].Some?
      ensures forall p :: p in deleted <==> p in earliest && earliest[p].None? && p in old(work)
      ensures forall p :: p in skipped <==> p in earliest && earliest[p].None? && p !in old(work)
    {
      restored, deleted, skipped := [], [], [];
      for k := 0 to |order|
        invariant forall p :: Lookup(work, p) == if p in order[..k] then earliest[p] else Lookup(old(work), p)
        invariant forall p :: p in restored <==> p in order[..k] && earliest[p].Some?
        invariant forall p :: p in deleted <==> p in order[..k] && earliest[p].None? && p in old(work)
        invariant forall p :: p in skipped <==> p in order[..k] && earliest[p].None? && p !in old(work)
      {
        var p := order[k];
        assert order[..k + 1] == order[..k] + [p];
        assert Lookup(work, p) == Lookup(old(work), p);
        if earliest[p].None? {
          if p in work {
            work := work - {p};
            deleted := deleted + [p];
          } else {
            skipped := skipped + [p];
          }
        } else {
          work := work[p := earliest[p].value];
          restored := restored + [p];
        }
      }
      assert order[..|order|] == order;
    }

    method RestoreFiles(target: nat)
      returns (found: bool, restored: seq<Path>, deleted: seq<Path>, skipped: seq<Path>, errors: seq<Path>)
      modifies this`work
      ensures found <==> target in metas
      ensures Abs() == Rewind(old(Abs()), target)
      ensures found ==> forall p ::
        var e := Earliest(old(Abs()), target, Top(metas.Keys), p);
        && (p in restored <==> e.Some? && e.value.Some?)
        && (p in deleted <==> e.Some? && e.value.None? && p in old(work))
        && (p in skipped <==> e.Some? && e.value.None? && p !in old(work))
      ensures found ==> forall p :: p in errors <==> LostBefore(old(Abs()), target, Top(metas.Keys), p)
      ensures (forall t, f :: t in metas && f in metas[t] ==> ReadFile(t, f, payload).Some?) ==> errors == []
    {
      found, restored, deleted, skipped, errors := target in metas, [], [], [], [];
      if !found {
        return;
      }
      ghost var s := Abs();
      var earliest, order;
      earliest, order, errors := CollectEarliest(target);
      if errors != [] {
        assert errors[0] in errors;
        SomethingUnreadable(s, target, Top(metas.Keys), errors[0]);
      }
      restored, deleted, skipped := ApplySnapshots(earliest, order);
      forall p ensures Lookup(work, p) == Lookup(Restored(s, target), p) {
        LookupRestored(s, target, p);
      }
      SameLookups(work, Restored(s, target));
    }
  }
}
