/**
 The per-session checkpoint store of internal/checkpoint/store.go.

 A turn is a directory holding a list of file entries; an entry that existed has
 its turn-start body in a payload slot named by (turn, index).  `State` is the
 disk, the store's in-memory fields and the workspace; the class in CheckpointFiles
 updates the same fields in place and is proved against the functions here.
 */
module CheckpointStore {
  import opened Sorting
  import opened Wrappers

  type Path = string
  type Content = string
  /** None means that the file does not exist. */
  type Snap = Option<Content>
  type Workspace = map<Path, Content>

  datatype FileMeta = FileMeta(path: Path, existed: bool, index: nat)

  const DEFAULT_RETAIN_TURNS := 50

  datatype State = State(
    metas: map<nat, seq<FileMeta>>,
    payload: map<(nat, nat), Content>,
    active: nat,
    hasActive: bool,
    captured: set<Path>,
    retain: nat,
    work: Workspace)

  function Lookup(w: Workspace, p: Path): Snap {
    if p in w then Some(w[p]) else None
  }

  function Put(w: Workspace, p: Path, snap: Snap): Workspace {
    match snap
    case None => w - {p}
    case Some(c) => w[p := c]
  }

  function PathsOf(files: seq<FileMeta>): set<Path> {
    set f | f in files :: f.path
  }

  // ---------------------------------------------------------------- reading

  /** None when the entry's body cannot be read back. */
  function ReadFile(t: nat, f: FileMeta, payload: map<(nat, nat), Content>): Option<Snap> {
    if !f.existed then Some(None)
    else if (t, f.index) in payload then Some(Some(payload[(t, f.index)]))
    else None
  }

  /** The first readable entry for p in one turn's list. */
  ghost function ReadIn(files: seq<FileMeta>, t: nat, payload: map<(nat, nat), Content>, p: Path): Option<Snap> {
    if files == [] then None
    else
      var n := |files| - 1;
      var earlier := ReadIn(files[..n], t, payload, p);
      if earlier.Some? then earlier
      else if files[n].path == p then ReadFile(t, files[n], payload)
      else None
  }

  ghost function ReadTurn(s: State, t: nat, p: Path): Option<Snap> {
    if t in s.metas then ReadIn(s.metas[t], t, s.payload, p) else None
  }

  /** The earliest readable snapshot of p over the turns lo, ..., hi - 1. */
  ghost function Earliest(s: State, lo: nat, hi: nat, p: Path): Option<Snap> {
    if hi <= lo then None
    else
      var e := Earliest(s, lo, hi - 1, p);
      if e.Some? then e else ReadTurn(s, hi - 1, p)
  }

  /** One more than the largest turn number, 0 for none. */
  ghost function Top(turns: set<nat>): (n: nat)
    ensures forall t :: t in turns ==> t < n
    ensures turns != {} ==> n > 0 && n - 1 in turns
    ensures turns == {} ==> n == 0
  {
    if turns == {} then 0 else Greatest(turns) + 1
  }

  /** What path p holds after restoring turn t. */
  ghost function RestoredLookup(s: State, t: nat, p: Path): Snap {
    var e := Earliest(s, t, Top(s.metas.Keys), p);
    if e.Some? then e.value else Lookup(s.work, p)
  }

  ghost function AllPaths(s: State): set<Path> {
    set t, i | t in s.metas && 0 <= i < |s.metas[t]| :: s.metas[t][i].path
  }

  ghost function Restored(s: State, t: nat): Workspace {
    map p | p in s.work.Keys + AllPaths(s) && RestoredLookup(s, t, p).Some? :: RestoredLookup(s, t, p).value
  }

  // ------------------------------------------------------------- operations

  /** The newest n of a set of turns. */
  ghost function Newest(turns: set<nat>, n: nat): set<nat> {
    if n == 0 || turns == {} then {}
    else
      var last := Top(turns) - 1;
      {last} + Newest(turns - {last}, n - 1)
  }

  /** The turns left after the new one is written and the oldest are pruned. */
  ghost function Kept(s: State): set<nat> {
    Newest(s.metas.Keys + {Top(s.metas.Keys)}, s.retain)
  }

  ghost function Begin(s: State): State {
    var next := Top(s.metas.Keys);
    var metas := s.metas[next := []];
    var dropped := metas.Keys - Kept(s);
    s.(metas := metas - dropped,
       payload := map slot | slot in s.payload && slot.0 !in dropped :: s.payload[slot],
       active := next, hasActive := true, captured := {})
  }

  function Capture(s: State, p: Path, content: Snap): State {
    if !s.hasActive || p in s.captured || s.active !in s.metas then s
    else
      var files := s.metas[s.active];
      s.(metas := s.metas[s.active := files + [FileMeta(p, content.Some?, |files|)]],
         payload := if content.Some? then s.payload[(s.active, |files|) := content.value] else s.payload,
         captured := s.captured + {p})
  }

  function Without(files: seq<FileMeta>, p: Path): seq<FileMeta> {
    if files == [] then []
    else
      var n := |files| - 1;
      Without(files[..n], p) + (if files[n].path == p then [] else [files[n]])
  }

  function SlotsOf(files: seq<FileMeta>, t: nat, p: Path): set<(nat, nat)> {
    set f | f in files && f.path == p :: (t, f.index)
  }

  function Uncapture(s: State, p: Path): State {
    if !s.hasActive || p !in s.captured || s.active !in s.metas then s
    else
      var files := s.metas[s.active];
      s.(metas := s.metas[s.active := Without(files, p)],
         payload := s.payload - SlotsOf(files, s.active, p),
         captured := s.captured - {p})
  }

  ghost function Rewind(s: State, t: nat): State {
    if t in s.metas then s.(work := Restored(s, t)) else s
  }

  /** A later process opens the same directory. */
  function Reopen(s: State, retainTurns: int): State {
    s.(active := 0, hasActive := false, captured := {},
       retain := if retainTurns <= 0 then DEFAULT_RETAIN_TURNS else retainTurns)
  }

  // ------------------------------------------------------------ whole runs

  datatype Op =
    | BeginOp
    | CaptureOp(path: Path, content: Snap)
    | UncaptureOp(path: Path)
    | WriteOp(path: Path, value: Snap)
    | RewindOp(turn: nat)
    | ReopenOp(retainTurns: int)

  /** hist[t] is the workspace when turn t began. */
  datatype Run = Run(s: State, hist: seq<Workspace>)

  function Start(w: Workspace, retainTurns: int): Run {
    Run(Reopen(State(map[], map[], 0, false, {}, 0, w), retainTurns), [])
  }

  ghost function Step(r: Run, op: Op): Run {
    match op
    case BeginOp => Run(Begin(r.s), r.hist + [r.s.work])
    case CaptureOp(p, c) => r.(s := Capture(r.s, p, c))
    case UncaptureOp(p) => r.(s := Uncapture(r.s, p))
    case WriteOp(p, v) => r.(s := r.s.(work := Put(r.s.work, p, v)))
    case RewindOp(t) => r.(s := Rewind(r.s, t))
    case ReopenOp(n) => r.(s := Reopen(r.s, n))
  }

  /** A capture of content c overwrites no body that an entry still reads. */
  predicate CaptureFits(s: State, c: Snap)
    requires s.active in s.metas
  {
    var n := |s.metas[s.active]|;
    c.Some? ==> forall f :: f in s.metas[s.active] && f.existed && f.index == n ==>
      (s.active, n) in s.payload && s.payload[(s.active, n)] == c.value
  }

  /** Dropping p removes no body that another path still reads. */
  predicate DropFits(s: State, p: Path)
    requires s.active in s.metas
  {
    forall f, g :: f in s.metas[s.active] && g in s.metas[s.active] && f.path == p && g.path != p && f.index == g.index ==>
      !g.existed || (s.active, g.index) !in s.payload
  }

  /** This step captures a path that the turn has not captured yet. */
  predicate CapturesAnew(s: State, op: Op) {
    op.CaptureOp? && s.hasActive && op.path !in s.captured && s.active in s.metas
  }

  /** Some turn from t on has a readable snapshot of p. */
  ghost predicate Recorded(r: Run, t: nat, p: Path) {
    Earliest(r.s, t, |r.hist|, p).Some?
  }

  /** Every path that has changed since the newest turn began is recorded from turn t on. */
  ghost predicate Settled(r: Run, t: nat) {
    r.hist != [] ==>
      forall p :: Lookup(r.s.work, p) == Lookup(r.hist[|r.hist| - 1], p) || Recorded(r, t, p)
  }

  /** What the caller of the store keeps to for the sake of turn t: what it captures is
      what the path held when the newest turn began, and it has captured every change
      before the next turn begins.  A path recorded from turn t on needs no more care.
      Changes may come before or after their capture. */
  ghost predicate CallerKeepsTo(r: Run, op: Op, t: nat) {
    match op
    case BeginOp => Settled(r, t)
    case CaptureOp(p, c) =>
      CapturesAnew(r.s, op) && r.hist != [] ==> c == Lookup(r.hist[|r.hist| - 1], p) || Recorded(r, t, p)
    case _ => true
  }

  /** And what the numbering of bodies must allow, at a capture and at a drop. */
  predicate IndicesAllow(s: State, op: Op) {
    match op
    case CaptureOp(p, c) => CapturesAnew(s, op) ==> CaptureFits(s, c)
    case UncaptureOp(p) => s.hasActive && p in s.captured && s.active in s.metas ==> DropFits(s, p)
    case _ => true
  }

  ghost predicate Disciplined(r: Run, op: Op, t: nat) {
    CallerKeepsTo(r, op, t) && IndicesAllow(r.s, op)
  }

  ghost function Exec(r: Run, ops: seq<Op>): Run {
    if ops == [] then r else Step(Exec(r, ops[..|ops| - 1]), ops[|ops| - 1])
  }

  ghost predicate AllDisciplined(r: Run, ops: seq<Op>, t: nat) {
    forall i :: 0 <= i < |ops| ==> Disciplined(Exec(r, ops[..i]), ops[i], t)
  }

  ghost predicate AllAllowed(r: Run, ops: seq<Op>) {
    forall i :: 0 <= i < |ops| ==> IndicesAllow(Exec(r, ops[..i]).s, ops[i])
  }

  /** Retained turns are the newest ones of n, without a gap. */
  ghost predicate Block(turns: set<nat>, n: nat) {
    && (forall t :: t in turns ==> t < n)
    && (n > 0 ==> n - 1 in turns)
    && (forall t, u :: t in turns && t <= u < n ==> u in turns)
  }

  ghost predicate DistinctPaths(files: seq<FileMeta>) {
    forall i, j :: 0 <= i < j < |files| ==> files[i].path != files[j].path
  }

  ghost predicate Intact(files: seq<FileMeta>, t: nat, payload: map<(nat, nat), Content>) {
    && DistinctPaths(files)
    && (forall f :: f in files && f.existed ==> (t, f.index) in payload)
  }

  /** What is recorded of p from turn t on is what p held when turn t began; and if only
      the newest turn can record it yet, p held the same when that turn began. */
  ghost predicate ExactPath(r: Run, t: nat, p: Path)
    requires t < |r.hist|
  {
    var last := |r.hist| - 1;
    var e := Earliest(r.s, t, last, p);
    var now := ReadTurn(r.s, last, p);
    var past := Lookup(r.hist[t], p);
    && (e.Some? ==> e.value == past)
    && (e.None? ==> past == Lookup(r.hist[last], p))
    && (e.None? && now.Some? ==> now.value == past)
  }

  ghost predicate ExactAt(r: Run, t: nat)
    requires t < |r.hist|
  {
    forall p :: ExactPath(r, t, p)
  }

  /** Turn numbers count the turns that have begun, and pruning always spares the newest. */
  ghost predicate Counted(r: Run) {
    Block(r.s.metas.Keys, |r.hist|) && r.s.retain > 0
  }

  ghost predicate Inv(r: Run) {
    var n := |r.hist|;
    && Counted(r)
    && (r.s.hasActive ==> n > 0 && r.s.active == n - 1 && r.s.captured == PathsOf(r.s.metas[n - 1]))
    && (n > 0 ==> Intact(r.s.metas[n - 1], n - 1, r.s.payload))
  }

  // ---------------------------------------------------------- frame lemmas

  lemma ReadInFrame(files: seq<FileMeta>, t: nat, pl: map<(nat, nat), Content>, pl': map<(nat, nat), Content>, p: Path)
    requires forall f :: f in files && f.path == p ==> ReadFile(t, f, pl) == ReadFile(t, f, pl')
    ensures ReadIn(files, t, pl, p) == ReadIn(files, t, pl', p)
  {
    if files != [] {
      ReadInFrame(files[..|files| - 1], t, pl, pl', p);
    }
  }

  lemma ReadAbsent(files: seq<FileMeta>, t: nat, pl: map<(nat, nat), Content>, p: Path)
    requires p !in PathsOf(files)
    ensures ReadIn(files, t, pl, p).None?
  {
    if files != [] {
      assert files[|files| - 1] in files;
      ReadAbsent(files[..|files| - 1], t, pl, p);
    }
  }

  lemma ReadPresent(files: seq<FileMeta>, t: nat, pl: map<(nat, nat), Content>, p: Path)
    requires p in PathsOf(files)
    requires forall f :: f in files && f.existed ==> (t, f.index) in pl
    ensures ReadIn(files, t, pl, p).Some?
  {
    var n := |files| - 1;
    if files[n].path != p {
      assert files == files[..n] + [files[n]];
      ReadPresent(files[..n], t, pl, p);
    }
  }

  lemma ReadWithout(files: seq<FileMeta>, t: nat, pl: map<(nat, nat), Content>, pl': map<(nat, nat), Content>, p: Path, q: Path)
    requires q != p
    requires forall f :: f in files && f.path == q ==> ReadFile(t, f, pl) == ReadFile(t, f, pl')
    ensures ReadIn(Without(files, p), t, pl', q) == ReadIn(files, t, pl, q)
  {
    if files != [] {
      var n := |files| - 1;
      ReadWithout(files[..n], t, pl, pl', p, q);
      assert files[n] in files;
      if files[n].path != p {
        assert Without(files, p)[..|Without(files, p)| - 1] == Without(files[..n], p);
      } else {
        assert Without(files, p) == Without(files[..n], p);
      }
    }
  }

  /** Of several entries for one path the first that can be read counts. */
  lemma {:induction false} FirstReadableCounts(files: seq<FileMeta>, t: nat, pl: map<(nat, nat), Content>, i: nat)
    requires i < |files| && ReadFile(t, files[i], pl).Some?
    requires forall j :: 0 <= j < i && files[j].path == files[i].path ==> ReadFile(t, files[j], pl).None?
    ensures ReadIn(files, t, pl, files[i].path) == ReadFile(t, files[i], pl)
  {
    var n := |files| - 1;
    if i < n {
      FirstReadableCounts(files[..n], t, pl, i);
    } else {
      NothingReadable(files[..n], t, pl, files[n].path);
    }
  }

  lemma {:induction false} NothingReadable(files: seq<FileMeta>, t: nat, pl: map<(nat, nat), Content>, p: Path)
    requires forall j :: 0 <= j < |files| && files[j].path == p ==> ReadFile(t, files[j], pl).None?
    ensures ReadIn(files, t, pl, p).None?
  {
    if files != [] {
      NothingReadable(files[..|files| - 1], t, pl, p);
    }
  }

  lemma EarliestFrame(s: State, s': State, lo: nat, hi: nat, p: Path)
    requires forall u :: lo <= u < hi ==> ReadTurn(s, u, p) == ReadTurn(s', u, p)
    ensures Earliest(s, lo, hi, p) == Earliest(s', lo, hi, p)
  {
    if lo < hi {
      EarliestFrame(s, s', lo, hi - 1, p);
    }
  }

  lemma EarliestSuffix(s: State, lo: nat, lo': nat, hi: nat, p: Path)
    requires lo <= lo' && Earliest(s, lo, hi, p).None?
    ensures Earliest(s, lo', hi, p).None?
  {
    if lo' < hi {
      EarliestSuffix(s, lo, lo', hi - 1, p);
    }
  }

  lemma EarliestOutside(s: State, lo: nat, hi: nat, p: Path)
    requires p !in AllPaths(s)
    ensures Earliest(s, lo, hi, p).None?
  {
    if lo < hi {
      EarliestOutside(s, lo, hi - 1, p);
      if hi - 1 in s.metas {
        ReadAbsent(s.metas[hi - 1], hi - 1, s.payload, p);
      }
    }
  }

  lemma LookupRestored(s: State, t: nat, p: Path)
    ensures Lookup(Restored(s, t), p) == RestoredLookup(s, t, p)
  {
    if p !in AllPaths(s) {
      EarliestOutside(s, t, Top(s.metas.Keys), p);
    }
  }

  lemma SameLookups(v: Workspace, w: Workspace)
    requires forall p :: Lookup(v, p) == Lookup(w, p)
    ensures v == w
  {
    forall p ensures p in v <==> p in w {
      assert Lookup(v, p) == Lookup(w, p);
    }
    forall p | p in v ensures v[p] == w[p] {
      assert Lookup(v, p) == Lookup(w, p);
    }
  }

  /** Pruning keeps the newest turns: upward closed, and as many as allowed. */
  lemma {:induction false} NewestIsABlock(turns: set<nat>, n: nat)
    ensures Newest(turns, n) <= turns
    ensures forall t, u :: t in Newest(turns, n) && u in turns && t <= u ==> u in Newest(turns, n)
    ensures |Newest(turns, n)| == if |turns| <= n then |turns| else n
  {
    if n != 0 && turns != {} {
      var last := Top(turns) - 1;
      NewestIsABlock(turns - {last}, n - 1);
    }
  }

  // ------------------------------------------------ each step keeps the past

  lemma KeptTurns(turns: set<nat>, n: nat, retain: nat)
    requires Block(turns, n) && retain > 0
    ensures var kept := Newest(turns + {n}, retain);
      && kept <= turns + {n} && Block(kept, n + 1)
      && |kept| == if |turns| < retain then |turns| + 1 else retain
  {
    NewestIsABlock(turns + {n}, retain);
    assert |turns + {n}| == |turns| + 1;
    var k :| k in Newest(turns + {n}, retain);
    assert n in turns + {n} && k <= n;
  }

  lemma KeepOnly<V>(m: map<nat, V>, kept: set<nat>)
    requires kept <= m.Keys
    ensures (m - (m.Keys - kept)).Keys == kept
  {
  }

  /** s' is s with the empty turn n opened and only the newest turns kept. */
  ghost predicate Begun(s: State, n: nat, s': State) {
    && s'.hasActive && s'.active == n && s'.captured == {} && s'.retain == s.retain && s'.work == s.work
    && n in s'.metas && s'.metas[n] == []
    && Block(s'.metas.Keys, n + 1)
    && |s'.metas.Keys| == (if |s.metas.Keys| < s.retain then |s.metas.Keys| + 1 else s.retain)
    && (forall t :: t in s'.metas && t < n ==> t in s.metas && s'.metas[t] == s.metas[t])
    && (forall t, i :: t in s'.metas && (t, i) in s.payload ==> (t, i) in s'.payload)
    && (forall slot :: slot in s'.payload ==> slot in s.payload && s.payload[slot] == s'.payload[slot])
  }

  lemma {:induction false} BeginPrunes(s: State, n: nat)
    requires Block(s.metas.Keys, n) && s.retain > 0
    ensures Begun(s, n, Begin(s))
  {
    assert Top(s.metas.Keys) == n;
    KeptTurns(s.metas.Keys, n, s.retain);
    var kept := Kept(s);
    assert kept == Newest(s.metas.Keys + {n}, s.retain);
    assert kept <= s.metas.Keys + {n};
    assert n in kept;
    KeepOnly(s.metas[n := []], kept);
  }

  lemma BegunReads(s: State, n: nat, s': State, t: nat, p: Path)
    requires Begun(s, n, s') && t in s'.metas && t < n
    ensures Earliest(s', t, n, p) == Earliest(s, t, n, p)
  {
    forall u | t <= u < n ensures ReadTurn(s', u, p) == ReadTurn(s, u, p) {
      assert u in s'.metas;
      forall f | f in s.metas[u] ensures ReadFile(u, f, s.payload) == ReadFile(u, f, s'.payload) {
        assert (u, f.index) in s.payload <==> (u, f.index) in s'.payload;
      }
      ReadInFrame(s.metas[u], u, s.payload, s'.payload, p);
    }
    EarliestFrame(s, s', t, n, p);
  }

  /** Whatever happened before, the turn that begins starts intact and exact. */
  lemma BeginStarts(r: Run)
    requires Counted(r)
    ensures var r' := Step(r, BeginOp); Inv(r') && ExactAt(r', |r.hist|)
  {
    BeginPrunes(r.s, |r.hist|);
    BegunStarts(r, Step(r, BeginOp));
  }

  lemma BegunStarts(r: Run, r': Run)
    requires Counted(r) && Begun(r.s, |r.hist|, r'.s) && r'.hist == r.hist + [r.s.work]
    ensures Inv(r') && ExactAt(r', |r.hist|)
  {
  }

  /** A retained turn stays exact when the next one begins if and only if every change
      is recorded. */
  lemma BeginExactIff(r: Run, t: nat)
    requires Counted(r) && t < |r.hist| && ExactAt(r, t) && t in Begin(r.s).metas
    ensures ExactAt(Step(r, BeginOp), t) <==> Settled(r, t)
  {
    BeginPrunes(r.s, |r.hist|);
    BegunExactIff(r, Step(r, BeginOp), t);
  }

  lemma BegunExactIff(r: Run, r': Run, t: nat)
    requires t < |r.hist| && ExactAt(r, t)
    requires Begun(r.s, |r.hist|, r'.s) && r'.hist == r.hist + [r.s.work] && t in r'.s.metas
    ensures ExactAt(r', t) <==> Settled(r, t)
  {
    forall p ensures ExactPath(r', t, p) <==>
      Lookup(r.s.work, p) == Lookup(r.hist[|r.hist| - 1], p) || Recorded(r, t, p) {
      assert ExactPath(r, t, p);
      BegunReads(r.s, |r.hist|, r'.s, t, p);
    }
    if ExactAt(r', t) {
      forall p ensures Lookup(r.s.work, p) == Lookup(r.hist[|r.hist| - 1], p) || Recorded(r, t, p) {
        assert ExactPath(r', t, p);
      }
    }
  }

  /** What a fitting capture of a new path changes in what is read. */
  lemma CaptureReads(r: Run, p: Path, c: Snap)
    requires Inv(r) && CapturesAnew(r.s, CaptureOp(p, c)) && CaptureFits(r.s, c)
    ensures var s, s' := r.s, Capture(r.s, p, c);
      && ReadTurn(s, s.active, p).None? && ReadTurn(s', s.active, p) == Some(c)
      && (forall q :: q != p ==> ReadTurn(s', s.active, q) == ReadTurn(s, s.active, q))
      && (forall lo, q :: Earliest(s', lo, s.active, q) == Earliest(s, lo, s.active, q))
  {
    var s, s' := r.s, Capture(r.s, p, c);
    var last := s.active;
    var files := s.metas[last];
    assert s'.metas[last][..|files|] == files;
    forall q ensures ReadIn(files, last, s'.payload, q) == ReadIn(files, last, s.payload, q) {
      ReadInFrame(files, last, s.payload, s'.payload, q);
    }
    ReadAbsent(files, last, s.payload, p);
    forall lo: nat, q ensures Earliest(s', lo, last, q) == Earliest(s, lo, last, q) {
      OlderTurnsUntouched(s, s', lo, last, q);
    }
  }

  /** A turn stays exact under a capture that fits if and only if the capture carries the
      newest turn's start content, or of a path recorded from that turn on. */
  lemma CaptureExactIff(r: Run, p: Path, c: Snap, t: nat)
    requires Inv(r) && t < |r.hist| && ExactAt(r, t)
    requires CapturesAnew(r.s, CaptureOp(p, c)) && CaptureFits(r.s, c)
    ensures ExactAt(Step(r, CaptureOp(p, c)), t) <==> CallerKeepsTo(r, CaptureOp(p, c), t)
  {
    var r' := Step(r, CaptureOp(p, c));
    CaptureReads(r, p, c);
    assert ExactPath(r, t, p);
    assert ExactPath(r', t, p) <==> CallerKeepsTo(r, CaptureOp(p, c), t);
    forall q | q != p ensures ExactPath(r', t, q) {
      assert ExactPath(r, t, q);
    }
  }

  lemma CaptureKeeps(r: Run, p: Path, c: Snap)
    requires Inv(r) && IndicesAllow(r.s, CaptureOp(p, c))
    ensures Inv(Step(r, CaptureOp(p, c)))
  {
    if CapturesAnew(r.s, CaptureOp(p, c)) {
      CapturedTurn(r.s, p, c);
    }
  }

  lemma OlderTurnsUntouched(s: State, s': State, lo: nat, hi: nat, p: Path)
    requires forall u :: u < hi ==> (u in s.metas <==> u in s'.metas) && (u in s.metas ==> s.metas[u] == s'.metas[u])
    requires forall u, i :: u < hi ==>
      ((u, i) in s.payload <==> (u, i) in s'.payload) && ((u, i) in s.payload ==> s.payload[(u, i)] == s'.payload[(u, i)])
    ensures Earliest(s, lo, hi, p) == Earliest(s', lo, hi, p)
  {
    forall u | lo <= u < hi ensures ReadTurn(s, u, p) == ReadTurn(s', u, p) {
      if u in s.metas {
        ReadInFrame(s.metas[u], u, s.payload, s'.payload, p);
      }
    }
    EarliestFrame(s, s', lo, hi, p);
  }

  lemma WithoutMeans(files: seq<FileMeta>, p: Path)
    ensures forall f :: f in Without(files, p) <==> f in files && f.path != p
  {
    if files != [] {
      var n := |files| - 1;
      WithoutMeans(files[..n], p);
      assert files == files[..n] + [files[n]];
    }
  }

  lemma WithoutKeepsDistinct(files: seq<FileMeta>, p: Path)
    requires DistinctPaths(files)
    ensures DistinctPaths(Without(files, p))
  {
    if files != [] {
      var n := |files| - 1;
      var kept := Without(files[..n], p);
      WithoutMeans(files[..n], p);
      WithoutKeepsDistinct(files[..n], p);
      forall i | 0 <= i < |kept| ensures kept[i].path != files[n].path {
        assert kept[i] in files[..n];
      }
    }
  }

  lemma UncaptureReads(s: State, p: Path)
    requires s.hasActive && p in s.captured && s.active in s.metas
    requires Intact(s.metas[s.active], s.active, s.payload) && DropFits(s, p)
    requires s.captured == PathsOf(s.metas[s.active])
    ensures var s' := Uncapture(s, p);
      && s'.active in s'.metas
      && Intact(s'.metas[s.active], s.active, s'.payload)
      && s'.captured == PathsOf(s'.metas[s.active])
      && ReadTurn(s', s.active, p).None?
      && (forall q :: q != p ==> ReadTurn(s', s.active, q) == ReadTurn(s, s.active, q))
  {
    var s' := Uncapture(s, p);
    var last := s.active;
    var files := s.metas[last];
    var kept := Without(files, p);
    WithoutMeans(files, p);
    assert PathsOf(kept) == PathsOf(files) - {p};
    WithoutKeepsDistinct(files, p);
    forall g | g in files && g.path != p && g.existed ensures (last, g.index) in s'.payload {
      assert (last, g.index) in s.payload;
    }
    ReadAbsent(kept, last, s'.payload, p);
    forall q | q != p ensures ReadTurn(s', last, q) == ReadTurn(s, last, q) {
      ReadWithout(files, last, s.payload, s'.payload, p, q);
    }
  }

  /** What a fitting drop changes in what is read. */
  lemma DropReads(r: Run, p: Path)
    requires Inv(r) && r.s.hasActive && p in r.s.captured && DropFits(r.s, p)
    ensures var s, s' := r.s, Uncapture(r.s, p);
      && ReadTurn(s', s.active, p).None?
      && (forall q :: q != p ==> ReadTurn(s', s.active, q) == ReadTurn(s, s.active, q))
      && (forall lo, q :: Earliest(s', lo, s.active, q) == Earliest(s, lo, s.active, q))
    ensures Inv(Step(r, UncaptureOp(p)))
  {
    var s, s' := r.s, Uncapture(r.s, p);
    UncaptureReads(s, p);
    assert forall slot :: slot in SlotsOf(s.metas[s.active], s.active, p) ==> slot.0 == s.active;
    forall lo: nat, q ensures Earliest(s', lo, s.active, q) == Earliest(s, lo, s.active, q) {
      OlderTurnsUntouched(s, s', lo, s.active, q);
    }
  }

  /** A path stays exact when nothing else is read for it, or nothing any more from the
      newest turn. */
  lemma StaysExactPath(r: Run, r': Run, t: nat, p: Path)
    requires t < |r.hist| && ExactPath(r, t, p) && r'.hist == r.hist
    requires var last := |r.hist| - 1;
      && Earliest(r'.s, t, last, p) == Earliest(r.s, t, last, p)
      && (ReadTurn(r'.s, last, p).None? || ReadTurn(r'.s, last, p) == ReadTurn(r.s, last, p))
    ensures ExactPath(r', t, p)
  {
  }

  lemma DropKeepsExact(r: Run, p: Path, t: nat)
    requires Inv(r) && t < |r.hist| && ExactAt(r, t) && IndicesAllow(r.s, UncaptureOp(p))
    ensures ExactAt(Step(r, UncaptureOp(p)), t)
  {
    var r' := Step(r, UncaptureOp(p));
    if r.s.hasActive && p in r.s.captured {
      DropReads(r, p);
      forall q ensures ExactPath(r', t, q) {
        assert ExactPath(r, t, q);
        StaysExactPath(r, r', t, q);
      }
    }
  }

  /** Nothing but the directory matters for what is exact. */
  lemma SameDirectory(r: Run, r': Run, t: nat)
    requires t < |r.hist| && ExactAt(r, t)
    requires r'.hist == r.hist && r'.s.metas == r.s.metas && r'.s.payload == r.s.payload
    ensures ExactAt(r', t)
  {
    forall p ensures ExactPath(r', t, p) {
      assert ExactPath(r, t, p);
      EarliestFrame(r.s, r'.s, t, |r.hist| - 1, p);
    }
  }

  lemma StepKeeps(r: Run, op: Op)
    requires Inv(r) && IndicesAllow(r.s, op)
    ensures Inv(Step(r, op))
  {
    match op
    case BeginOp => BeginStarts(r);
    case CaptureOp(p, c) => CaptureKeeps(r, p, c);
    case UncaptureOp(p) =>
      if r.s.hasActive && p in r.s.captured {
        DropReads(r, p);
      }
    case _ =>
  }

  lemma StepKeepsExact(r: Run, op: Op, t: nat)
    requires Inv(r) && Disciplined(r, op, t)
    requires t < |r.hist| && ExactAt(r, t) && t in Step(r, op).s.metas
    ensures ExactAt(Step(r, op), t)
  {
    match op
    case BeginOp => BeginExactIff(r, t);
    case CaptureOp(p, c) =>
      if CapturesAnew(r.s, op) {
        CaptureExactIff(r, p, c, t);
      }
    case UncaptureOp(p) => DropKeepsExact(r, p, t);
    case _ => SameDirectory(r, Step(r, op), t);
  }

  lemma {:induction false} PrefixDisciplined(r: Run, ops: seq<Op>, t: nat)
    requires AllDisciplined(r, ops, t) && ops != []
    ensures var n := |ops| - 1;
      AllDisciplined(r, ops[..n], t) && Disciplined(Exec(r, ops[..n]), ops[n], t)
  {
    var n := |ops| - 1;
    forall i | 0 <= i < n ensures Disciplined(Exec(r, ops[..n][..i]), ops[..n][i], t) {
      assert ops[..n][..i] == ops[..i];
    }
  }

  lemma PrefixAllowed(r: Run, ops: seq<Op>)
    requires AllAllowed(r, ops) && ops != []
    ensures AllAllowed(r, ops[..|ops| - 1]) && IndicesAllow(Exec(r, ops[..|ops| - 1]).s, ops[|ops| - 1])
  {
    var n := |ops| - 1;
    forall i | 0 <= i < n ensures IndicesAllow(Exec(r, ops[..n][..i]).s, ops[..n][i]) {
      assert ops[..n][..i] == ops[..i];
    }
  }

  lemma {:induction false} ExecKeeps(r: Run, ops: seq<Op>)
    requires Inv(r) && AllAllowed(r, ops)
    ensures Inv(Exec(r, ops))
  {
    if ops != [] {
      var n := |ops| - 1;
      PrefixAllowed(r, ops);
      ExecKeeps(r, ops[..n]);
      StepKeeps(Exec(r, ops[..n]), ops[n]);
    }
  }

  /** An exact turn gives its whole starting workspace back if and only if every path
      changed in the newest turn is recorded. */
  lemma RestoredIff(r: Run, t: nat)
    requires Counted(r) && t < |r.hist| && ExactAt(r, t)
    ensures Restored(r.s, t) == r.hist[t] <==> Settled(r, t)
  {
    assert Top(r.s.metas.Keys) == |r.hist|;
    forall p ensures Lookup(Restored(r.s, t), p) == Lookup(r.hist[t], p) <==>
      Lookup(r.s.work, p) == Lookup(r.hist[|r.hist| - 1], p) || Recorded(r, t, p) {
      assert ExactPath(r, t, p);
      LookupRestored(r.s, t, p);
    }
    if Settled(r, t) {
      SameLookups(Restored(r.s, t), r.hist[t]);
    }
  }

  /** Going back to turn t or a newer one leaves everything settled for turn t. */
  lemma RewindSettles(r: Run, back: nat, t: nat)
    requires Counted(r) && t <= back && Settled(r, t)
    ensures Settled(Step(r, RewindOp(back)), t)
  {
    var r' := Step(r, RewindOp(back));
    if back in r.s.metas {
      var n := |r.hist|;
      assert Top(r.s.metas.Keys) == n;
      forall p ensures Lookup(r'.s.work, p) == Lookup(r.hist[n - 1], p) || Recorded(r', t, p) {
        LookupRestored(r.s, back, p);
        EarliestFrame(r.s, r'.s, t, n, p);
        if Earliest(r.s, t, n, p).None? {
          EarliestSuffix(r.s, t, back, n, p);
        }
      }
    }
  }

  /** r' comes after r, and turn t is exact there if it is still retained. */
  ghost predicate StaysExact(r: Run, r': Run, t: nat) {
    && t < |r.hist| <= |r'.hist| && r'.hist[t] == r.hist[t]
    && (t in r'.s.metas ==> ExactAt(r', t))
  }

  lemma OneMoreStep(r: Run, mid: Run, op: Op, t: nat)
    requires StaysExact(r, mid, t) && Inv(mid) && Disciplined(mid, op, t)
    ensures StaysExact(r, Step(mid, op), t)
  {
    if op.BeginOp? {
      BeginPrunes(mid.s, |mid.hist|);
    }
    if t in Step(mid, op).s.metas {
      assert t in mid.s.metas;
      StepKeepsExact(mid, op, t);
    }
  }

  /** A turn that is exact either is pruned or stays exact, rewinds to any turn included. */
  lemma {:induction false} TurnStaysExact(r: Run, ops: seq<Op>, t: nat)
    requires Inv(r) && t < |r.hist| && ExactAt(r, t) && AllDisciplined(r, ops, t)
    ensures Inv(Exec(r, ops)) && StaysExact(r, Exec(r, ops), t)
  {
    if ops != [] {
      var n := |ops| - 1;
      PrefixDisciplined(r, ops, t);
      TurnStaysExact(r, ops[..n], t);
      OneMoreStep(r, Exec(r, ops[..n]), ops[n], t);
      StepKeeps(Exec(r, ops[..n]), ops[n]);
    }
  }

  /** Whatever steps are made, the turn numbers count the turns. */
  lemma {:induction false} ExecCounts(w: Workspace, retain: int, ops: seq<Op>)
    ensures Counted(Exec(Start(w, retain), ops))
  {
    if ops != [] {
      var n := |ops| - 1;
      ExecCounts(w, retain, ops[..n]);
      StepCounts(Exec(Start(w, retain), ops[..n]), ops[n]);
    }
  }

  lemma StepCounts(r: Run, op: Op)
    requires Counted(r)
    ensures Counted(Step(r, op))
  {
    if op.BeginOp? {
      BeginPrunes(r.s, |r.hist|);
    }
  }

  /** The turn that begins now can be restored for as long as it is retained, exactly
      while every change is recorded. */
  lemma NewTurnIsRestorable(r0: Run, after: seq<Op>)
    requires Counted(r0) && AllDisciplined(Step(r0, BeginOp), after, |r0.hist|)
    ensures Begin(r0.s).active == |r0.hist|
    ensures var t, r1 := |r0.hist|, Exec(Step(r0, BeginOp), after);
      t in r1.s.metas ==> (Restored(r1.s, t) == r0.s.work <==> Settled(r1, t))
  {
    var t := |r0.hist|;
    BeginStarts(r0);
    BeginPrunes(r0.s, t);
    TurnStaysExact(Step(r0, BeginOp), after, t);
    var r1 := Exec(Step(r0, BeginOp), after);
    if t in r1.s.metas {
      RestoredIff(r1, t);
    }
  }

  /** The main result: whatever came before, and whatever disciplined steps follow
      (captures, drops, edits, new turns with pruning, restarts, rewinds), restoring a
      turn that is still retained gives back the whole workspace as it was when the turn
      began, if and only if every path changed since the newest turn began is recorded. */
  lemma {:induction false} RewindIsThePast(w: Workspace, retain: int, before: seq<Op>, after: seq<Op>)
    requires var r0 := Exec(Start(w, retain), before); AllDisciplined(Step(r0, BeginOp), after, |r0.hist|)
    ensures var r0 := Exec(Start(w, retain), before);
      var t, r1 := |r0.hist|, Exec(Step(r0, BeginOp), after);
      && Begin(r0.s).active == t
      && (t in r1.s.metas ==> (Restored(r1.s, t) == r0.s.work <==> Settled(r1, t)))
  {
    ExecCounts(w, retain, before);
    NewTurnIsRestorable(Exec(Start(w, retain), before), after);
  }

  /** Every stored body belongs to a retained turn: pruning leaves none behind. */
  ghost predicate NoOrphans(s: State) {
    forall slot :: slot in s.payload ==> slot.0 in s.metas
  }

  lemma StepLeavesNoOrphans(r: Run, op: Op)
    requires NoOrphans(r.s)
    ensures NoOrphans(Step(r, op).s)
  {
    if op.BeginOp? {
      NewestIsABlock(r.s.metas.Keys + {Top(r.s.metas.Keys)}, r.s.retain);
    }
  }

  /** Whatever steps are made, no body outlives its turn. */
  lemma {:induction false} PruningLeavesNothing(w: Workspace, retain: int, ops: seq<Op>)
    ensures NoOrphans(Exec(Start(w, retain), ops).s)
  {
    if ops != [] {
      var n := |ops| - 1;
      PruningLeavesNothing(w, retain, ops[..n]);
      StepLeavesNoOrphans(Exec(Start(w, retain), ops[..n]), ops[n]);
    }
  }

  /** How many turns a store keeps: as many as its process asked for, or 50. */
  lemma {:induction false} RetainIsAsAsked(w: Workspace, retain: int, ops: seq<Op>)
    requires forall op :: op in ops ==> !op.ReopenOp?
    ensures Exec(Start(w, retain), ops).s.retain == if retain > 0 then retain else 50
  {
    if ops != [] {
      assert ops[|ops| - 1] in ops;
      RetainIsAsAsked(w, retain, ops[..|ops| - 1]);
    }
  }

  /** Turn numbers are never reused, and the retained ones are the newest, gap-free. */
  lemma {:induction false} TurnNumbers(w: Workspace, retain: int, ops: seq<Op>)
    ensures var r := Exec(Start(w, retain), ops);
      && Block(r.s.metas.Keys, |r.hist|)
      && Begin(r.s).active == |r.hist|
      && |Begin(r.s).metas.Keys| == if |r.s.metas.Keys| < r.s.retain then |r.s.metas.Keys| + 1 else r.s.retain
  {
    ExecCounts(w, retain, ops);
    var r := Exec(Start(w, retain), ops);
    BeginPrunes(r.s, |r.hist|);
  }

  /** Rewinds compose: after a rewind to `back`, an older exact turn is still exact;
      a newer one is exact if and only if every path that differs between the two
      starts was captured again from the newer turn on. */
  lemma RewindsCompose(r: Run, back: nat, t: nat)
    requires Counted(r) && back in r.s.metas && t < |r.hist|
    requires ExactAt(r, back) && ExactAt(r, t) && Settled(r, back)
    ensures t <= back ==> Restored(Rewind(r.s, back), t) == r.hist[t]
    ensures Restored(Rewind(r.s, back), t) == r.hist[t] <==>
      forall p :: Lookup(r.hist[back], p) != Lookup(r.hist[t], p) ==> Earliest(r.s, t, |r.hist|, p).Some?
  {
    var n := |r.hist|;
    var s' := Rewind(r.s, back);
    assert Top(r.s.metas.Keys) == n;
    RestoredIff(r, back);
    if t <= back {
      SettledFurtherBack(r, back, t);
      RewindSettles(r, back, t);
      SameDirectory(r, Step(r, RewindOp(back)), t);
      RestoredIff(Step(r, RewindOp(back)), t);
    }
    forall p ensures Lookup(Restored(s', t), p) ==
      if Earliest(r.s, t, n, p).Some? then Lookup(r.hist[t], p) else Lookup(r.hist[back], p) {
      assert ExactPath(r, t, p);
      LookupRestored(s', t, p);
      EarliestFrame(r.s, s', t, n, p);
    }
    if forall p :: Lookup(r.hist[back], p) != Lookup(r.hist[t], p) ==> Earliest(r.s, t, n, p).Some? {
      SameLookups(Restored(s', t), r.hist[t]);
    }
  }

  lemma SettledFurtherBack(r: Run, back: nat, t: nat)
    requires t <= back && Settled(r, back)
    ensures Settled(r, t)
  {
    forall p | Recorded(r, back, p) ensures Recorded(r, t, p) {
      if !Recorded(r, t, p) {
        EarliestSuffix(r.s, t, back, |r.hist|, p);
      }
    }
  }

  // ------------------------------------------------- when an index is reused

  lemma DropOne(files: seq<FileMeta>, k: nat, t: nat, p: Path)
    requires k < |files|
    ensures Without(files[..k + 1], p) == Without(files[..k], p) + (if files[k].path == p then [] else [files[k]])
    ensures SlotsOf(files[..k + 1], t, p) == SlotsOf(files[..k], t, p) + (if files[k].path == p then {(t, files[k].index)} else {})
  {
    assert files[..k + 1][..k] == files[..k];
    assert files[..k + 1] == files[..k] + [files[k]];
  }

  lemma ReadsOwnEntry(files: seq<FileMeta>, t: nat, pl: map<(nat, nat), Content>, f: FileMeta)
    requires f in files && forall i, j :: 0 <= i < j < |files| ==> files[i].path != files[j].path
    ensures ReadIn(files, t, pl, f.path) == ReadFile(t, f, pl)
  {
    var n := |files| - 1;
    if files[n] == f {
      ReadAbsent(files[..n], t, pl, f.path);
    } else {
      assert files == files[..n] + [files[n]];
      ReadsOwnEntry(files[..n], t, pl, f);
    }
  }

  /** Every path of the active turn other than p reads in s' as it does in s. */
  ghost predicate OthersReadTheSame(s: State, s': State, p: Path) {
    forall q :: q in s.captured && q != p ==> ReadTurn(s', s.active, q) == ReadTurn(s, s.active, q)
  }

  ghost predicate TurnListed(s: State) {
    s.hasActive && s.active in s.metas && DistinctPaths(s.metas[s.active]) && s.captured == PathsOf(s.metas[s.active])
  }

  /** Capturing a new path leaves the snapshots of all other paths as they were if and
      only if it overwrites no body that an entry still reads. */
  lemma CaptureHarmlessIff(s: State, p: Path, c: Snap)
    requires TurnListed(s) && p !in s.captured
    ensures OthersReadTheSame(s, Capture(s, p, c), p) <==> CaptureFits(s, c)
  {
    var files, s' := s.metas[s.active], Capture(s, p, c);
    assert s'.metas[s.active][..|files|] == files;
    forall f | f in files
      ensures ReadTurn(s, s.active, f.path) == ReadFile(s.active, f, s.payload)
      ensures ReadTurn(s', s.active, f.path) == ReadFile(s.active, f, s'.payload)
    {
      ReadsOwnEntry(files, s.active, s.payload, f);
      ReadsOwnEntry(files, s.active, s'.payload, f);
    }
    if OthersReadTheSame(s, s', p) {
      forall f | c.Some? && f in files && f.existed && f.index == |files|
        ensures (s.active, |files|) in s.payload && s.payload[(s.active, |files|)] == c.value
      {
        assert f.path in s.captured;
      }
    }
  }

  /** Dropping a path leaves the snapshots of all other paths as they were if and only
      if no other entry reads a body under a dropped index. */
  lemma DropHarmlessIff(s: State, p: Path)
    requires TurnListed(s) && p in s.captured
    ensures OthersReadTheSame(s, Uncapture(s, p), p) <==> DropFits(s, p)
  {
    var files, s' := s.metas[s.active], Uncapture(s, p);
    var kept := Without(files, p);
    WithoutMeans(files, p);
    WithoutKeepsDistinct(files, p);
    forall g | g in files && g.path != p
      ensures ReadTurn(s, s.active, g.path) == ReadFile(s.active, g, s.payload)
      ensures ReadTurn(s', s.active, g.path) == ReadFile(s.active, g, s'.payload)
    {
      ReadsOwnEntry(files, s.active, s.payload, g);
      ReadsOwnEntry(kept, s.active, s'.payload, g);
    }
    if OthersReadTheSame(s, s', p) {
      forall f, g | f in files && g in files && f.path == p && g.path != p && f.index == g.index
        ensures !g.existed || (s.active, g.index) !in s.payload
      {
        assert g.path in s.captured;
        assert (s.active, f.index) in SlotsOf(files, s.active, p);
      }
    }
  }

  /** Two entries share an index, and at least one of them has a body there. */
  predicate Clash(f: FileMeta, g: FileMeta) {
    f.path != g.path && f.index == g.index && (f.existed || g.existed)
  }

  predicate NoClash(files: seq<FileMeta>) {
    forall f, g :: f in files && g in files ==> !Clash(f, g)
  }

  /** Whatever path of the turn is dropped next, no other one is harmed. */
  predicate EveryDropFits(s: State)
    requires s.active in s.metas
  {
    forall p :: p in s.captured ==> DropFits(s, p)
  }

  /** While all bodies are there, every drop is harmless if and only if no two entries
      clash over an index. */
  lemma EveryDropFitsIff(s: State)
    requires TurnListed(s) && Intact(s.metas[s.active], s.active, s.payload)
    ensures EveryDropFits(s) <==> NoClash(s.metas[s.active])
  {
    var files := s.metas[s.active];
    if EveryDropFits(s) {
      forall f, g | f in files && g in files ensures !Clash(f, g) {
        assert f.path in s.captured && g.path in s.captured;
      }
    }
  }

  /** Captures and drops together: from a turn in good order, a capture harms no other
      path and leaves every later drop harmless if and only if its index is free, or is
      shared only among files that never existed. */
  lemma CaptureAndDropsHarmlessIff(s: State, p: Path, c: Snap)
    requires TurnListed(s) && p !in s.captured
    requires Intact(s.metas[s.active], s.active, s.payload) && NoClash(s.metas[s.active])
    ensures var files, s' := s.metas[s.active], Capture(s, p, c);
      OthersReadTheSame(s, s', p) && EveryDropFits(s')
      <==> forall f :: f in files && f.index == |files| ==> !f.existed && c.None?
  {
    var files, s' := s.metas[s.active], Capture(s, p, c);
    var files' := s'.metas[s.active];
    var added := FileMeta(p, c.Some?, |files|);
    assert files' == files + [added];
    CaptureHarmlessIff(s, p, c);
    CapturedTurn(s, p, c);
    EveryDropFitsIff(s');
    if NoClash(files') {
      forall f | f in files && f.index == |files| ensures !f.existed && c.None? {
        assert f in files' && added in files' && f.path in s.captured;
        assert !Clash(f, added);
      }
    }
    if forall f :: f in files && f.index == |files| ==> !f.existed && c.None? {
      forall f, g | f in files' && g in files' ensures !Clash(f, g) {
        assert f in files || f == added;
        assert g in files || g == added;
      }
    }
  }

  /** A harmless drop leaves the turn in good order, so the drops after it are harmless too. */
  lemma DropKeepsOrder(s: State, p: Path)
    requires TurnListed(s) && p in s.captured
    requires Intact(s.metas[s.active], s.active, s.payload) && NoClash(s.metas[s.active])
    ensures var s' := Uncapture(s, p);
      TurnListed(s') && Intact(s'.metas[s.active], s.active, s'.payload) && NoClash(s'.metas[s.active]) && EveryDropFits(s')
  {
    EveryDropFitsIff(s);
    UncaptureReads(s, p);
    WithoutMeans(s.metas[s.active], p);
    EveryDropFitsIff(Uncapture(s, p));
  }

  lemma CapturedTurn(s: State, p: Path, c: Snap)
    requires TurnListed(s) && p !in s.captured && Intact(s.metas[s.active], s.active, s.payload)
    ensures var s' := Capture(s, p, c); TurnListed(s') && Intact(s'.metas[s.active], s.active, s'.payload)
  {
    var files := s.metas[s.active];
    assert PathsOf(files + [FileMeta(p, c.Some?, |files|)]) == PathsOf(files) + {p};
    forall i | 0 <= i < |files| ensures files[i].path != p {
      assert files[i] in files;
    }
  }

  /** No entry of the active turn already uses the index the next capture takes. */
  predicate IndexFree(s: State)
    requires s.active in s.metas
  {
    forall f :: f in s.metas[s.active] ==> f.index != |s.metas[s.active]|
  }

  /** While entries carry their own position as index, the next capture's index is
      free after a drop if and only if the dropped entry was the last one. */
  lemma DropFreesIndexIff(s: State, p: Path)
    requires s.hasActive && p in s.captured && s.active in s.metas
    requires Intact(s.metas[s.active], s.active, s.payload) && s.captured == PathsOf(s.metas[s.active])
    requires forall i :: 0 <= i < |s.metas[s.active]| ==> s.metas[s.active][i].index == i
    ensures IndexFree(Uncapture(s, p)) <==> s.metas[s.active][|s.metas[s.active]| - 1].path == p
  {
    var files := s.metas[s.active];
    var n := |files| - 1;
    var kept := Without(files, p);
    WithoutMeans(files, p);
    WithoutLength(files, p);
    assert files[n] in files;
    forall f | f in kept ensures 0 <= f.index <= n && f == files[f.index] {
    }
    if files[n].path == p {
      forall f | f in kept ensures f.index != |kept| {
      }
    } else {
      assert files[n] in kept && files[n].index == |kept|;
    }
  }

  lemma WithoutLength(files: seq<FileMeta>, p: Path)
    requires forall i, j :: 0 <= i < j < |files| ==> files[i].path != files[j].path
    ensures |Without(files, p)| == if p in PathsOf(files) then |files| - 1 else |files|
  {
    if files != [] {
      var n := |files| - 1;
      WithoutLength(files[..n], p);
      assert files == files[..n] + [files[n]];
      if files[n].path == p {
        assert p !in PathsOf(files[..n]);
      } else if p in PathsOf(files) {
        var f :| f in files && f.path == p;
        assert f in files[..n];
      }
    }
  }

  /** One kept entry of index 1 is all the active turn 0 holds. */
  ghost predicate OneLateEntry(s: State, b: Path, y: Content) {
    && s.metas.Keys == {0} && s.metas[0] == [FileMeta(b, true, 1)]
    && (0, 1) in s.payload && s.payload[(0, 1)] == y
    && s.captured == {b} && s.active == 0 && s.hasActive
  }

  lemma DropFirstOfTwo(s: State, a: Path, b: Path)
    requires a != b && s.metas.Keys == {0} && s.metas[0] == [FileMeta(a, true, 0), FileMeta(b, true, 1)]
    requires s.captured == {a, b} && s.active == 0 && s.hasActive && (0, 1) in s.payload
    ensures OneLateEntry(Uncapture(s, a), b, s.payload[(0, 1)])
  {
    var files := s.metas[0];
    assert files[..0] == [] && files[..2] == files;
    DropOne(files, 0, 0, a);
    DropOne(files, 1, 0, a);
  }

  lemma TwoCapturesThenDrop(s0: State, a: Path, b: Path, x: Content, y: Content)
    requires a != b && s0.metas.Keys == {0} && s0.metas[0] == [] && s0.active == 0 && s0.hasActive && s0.captured == {}
    ensures OneLateEntry(Uncapture(Capture(Capture(s0, a, Some(x)), b, Some(y)), a), b, y)
  {
    var s1 := Capture(s0, a, Some(x));
    assert s1.metas[0] == [FileMeta(a, true, 0)];
    DropFirstOfTwo(Capture(s1, b, Some(y)), a, b);
  }

  lemma ReadOnlyTurn(s: State, f: FileMeta)
    requires s.metas.Keys == {0} && f in s.metas[0] && f.existed && (0, f.index) in s.payload
    requires forall i, j :: 0 <= i < j < |s.metas[0]| ==> s.metas[0][i].path != s.metas[0][j].path
    ensures RestoredLookup(s, 0, f.path) == Some(s.payload[(0, f.index)])
  {
    assert Top(s.metas.Keys) == 1;
    assert Earliest(s, 0, 0, f.path).None?;
    ReadsOwnEntry(s.metas[0], 0, s.payload, f);
  }

  /** The premise on indices is needed: capture two paths, drop the first, capture a
      third.  Its body overwrites the second one's, and restoring the turn puts the
      third file's content into the second file. */
  lemma {:induction false} ReusedIndexLosesAFile(s0: State, a: Path, b: Path, c: Path, x: Content, y: Content, z: Content)
    requires a != b && b != c && a != c
    requires s0.metas.Keys == {0} && s0.metas[0] == [] && s0.active == 0 && s0.hasActive && s0.captured == {}
    ensures var s3 := Uncapture(Capture(Capture(s0, a, Some(x)), b, Some(y)), a);
      && s3.active in s3.metas && (y != z ==> !CaptureFits(s3, Some(z)))
      && RestoredLookup(s3, 0, b) == Some(y)
      && RestoredLookup(Capture(s3, c, Some(z)), 0, b) == Some(z)
  {
    TwoCapturesThenDrop(s0, a, b, x, y);
    var s3 := Uncapture(Capture(Capture(s0, a, Some(x)), b, Some(y)), a);
    ThirdCapture(s3, b, c, y, z);
  }

  lemma ThirdCapture(s3: State, b: Path, c: Path, y: Content, z: Content)
    requires b != c && OneLateEntry(s3, b, y)
    ensures y != z ==> !CaptureFits(s3, Some(z))
    ensures RestoredLookup(s3, 0, b) == Some(y)
    ensures RestoredLookup(Capture(s3, c, Some(z)), 0, b) == Some(z)
  {
    var fb := FileMeta(b, true, 1);
    assert fb in s3.metas[0];
    ReadOnlyTurn(s3, fb);
    var s4 := Capture(s3, c, Some(z));
    assert s4.metas[0] == [fb, FileMeta(c, true, 1)];
    ReadOnlyTurn(s4, fb);
  }

  /** The premise at drops is needed too: capture two paths, drop the first, capture a
      third that does not exist and drop it again.  The body of the second one is gone,
      and restoring the turn leaves the second file as it is. */
  lemma TemporaryFileLosesABody(s0: State, a: Path, b: Path, c: Path, x: Content, y: Content)
    requires a != b && b != c && a != c
    requires s0.metas.Keys == {0} && s0.metas[0] == [] && s0.active == 0 && s0.hasActive && s0.captured == {}
    ensures var s3 := Uncapture(Capture(Capture(s0, a, Some(x)), b, Some(y)), a);
      var s5 := Uncapture(Capture(s3, c, None), c);
      && ReadTurn(s3, 0, b) == Some(Some(y)) && ReadTurn(s5, 0, b) == None
      && RestoredLookup(s5, 0, b) == Lookup(s5.work, b)
  {
    TwoCapturesThenDrop(s0, a, b, x, y);
    CaptureNothingThenDrop(Uncapture(Capture(Capture(s0, a, Some(x)), b, Some(y)), a), b, c, y);
  }

  lemma DropSecondOfTwo(files: seq<FileMeta>, p: Path)
    requires |files| == 2 && files[0].path != p && files[1].path == p
    ensures Without(files, p) == [files[0]] && SlotsOf(files, 0, p) == {(0, files[1].index)}
  {
    assert files[..0] == [] && files[..2] == files;
    DropOne(files, 0, 0, p);
    DropOne(files, 1, 0, p);
  }

  lemma CaptureNothingThenDrop(s3: State, b: Path, c: Path, y: Content)
    requires b != c && OneLateEntry(s3, b, y)
    ensures var s5 := Uncapture(Capture(s3, c, None), c);
      && ReadTurn(s3, 0, b) == Some(Some(y)) && ReadTurn(s5, 0, b) == None
      && RestoredLookup(s5, 0, b) == Lookup(s5.work, b)
  {
    var fb := FileMeta(b, true, 1);
    ReadsOwnEntry(s3.metas[0], 0, s3.payload, fb);
    var s4 := Capture(s3, c, None);
    var s5 := Uncapture(s4, c);
    assert s4.metas[0] == [fb, FileMeta(c, false, 1)];
    DropSecondOfTwo(s4.metas[0], c);
    ReadsOwnEntry(s5.metas[0], 0, s5.payload, fb);
    assert Top(s5.metas.Keys) == 1;
    assert Earliest(s5, 0, 0, b).None?;
  }
}
