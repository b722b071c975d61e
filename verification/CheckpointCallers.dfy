/**
 What the callers of the checkpoint store do, and that it is enough: tools that know their
 files capture before they change (internal/engine/tool_executor.go,
 captureCheckpointBeforeInvoke), others are followed by captures and drops of what their
 fingerprints show (captureFingerprintAfterInvoke).
 */
module CheckpointCallers {
  import opened CheckpointStore
  import opened Sorting

  // ------------------------------------- a discipline that callers can see

  /** This step drops a path of the turn other than the one captured last. */
  predicate DropsInside(s: State, op: Op) {
    && op.UncaptureOp? && s.hasActive && op.path in s.captured && s.active in s.metas
    && s.metas[s.active] != [] && s.metas[s.active][|s.metas[s.active]| - 1].path != op.path
  }

  /** In the turn that is going on, a path other than the last was dropped. */
  ghost predicate Holed(r: Run, ops: seq<Op>) {
    ops != [] &&
    var before, op := ops[..|ops| - 1], ops[|ops| - 1];
    !op.BeginOp? && (Holed(r, before) || DropsInside(Exec(r, before).s, op))
  }

  /** No new path is captured after such a drop in the same turn. */
  ghost predicate NoCaptureAfterHole(r: Run, ops: seq<Op>) {
    forall i :: 0 <= i < |ops| && CapturesAnew(Exec(r, ops[..i]).s, ops[i]) ==> !Holed(r, ops[..i])
  }

  /** Indices of the active turn differ, and are positions while nothing was dropped inside. */
  ghost predicate Numbered(s: State, holed: bool) {
    s.hasActive && s.active in s.metas ==>
      var files := s.metas[s.active];
      && DistinctPaths(files) && s.captured == PathsOf(files)
      && (forall i, j :: 0 <= i < j < |files| ==> files[i].index != files[j].index)
      && (!holed ==> forall i :: 0 <= i < |files| ==> files[i].index == i)
  }

  lemma WithoutLast(files: seq<FileMeta>, p: Path)
    requires files != [] && DistinctPaths(files) && files[|files| - 1].path == p
    ensures Without(files, p) == files[..|files| - 1]
  {
    WithoutNothing(files[..|files| - 1], p);
  }

  lemma {:induction false} WithoutNothing(files: seq<FileMeta>, p: Path)
    requires forall i :: 0 <= i < |files| ==> files[i].path != p
    ensures Without(files, p) == files
  {
    if files != [] {
      var n := |files| - 1;
      WithoutNothing(files[..n], p);
      assert files == files[..n] + [files[n]];
    }
  }

  lemma WithoutKeepsIndices(files: seq<FileMeta>, p: Path)
    requires forall i, j :: 0 <= i < j < |files| ==> files[i].index != files[j].index
    ensures var kept := Without(files, p); forall i, j :: 0 <= i < j < |kept| ==> kept[i].index != kept[j].index
  {
    if files != [] {
      var n := |files| - 1;
      var kept := Without(files[..n], p);
      WithoutMeans(files[..n], p);
      WithoutKeepsIndices(files[..n], p);
      forall i | 0 <= i < |kept| ensures kept[i].index != files[n].index {
        assert kept[i] in files[..n];
      }
    }
  }

  lemma CaptureKeepsNumbers(s: State, p: Path, c: Snap)
    requires Numbered(s, false) && CapturesAnew(s, CaptureOp(p, c))
    ensures Numbered(Capture(s, p, c), false) && IndexFree(s)
  {
    var files := s.metas[s.active];
    forall f | f in files ensures f.path != p && f.index != |files| {
      var i :| 0 <= i < |files| && files[i] == f;
    }
    assert forall i :: 0 <= i < |files| ==> files[i] in files;
    assert PathsOf(files + [FileMeta(p, c.Some?, |files|)]) == PathsOf(files) + {p};
  }

  lemma DropKeepsNumbers(s: State, p: Path, holed: bool)
    requires Numbered(s, holed)
    ensures Numbered(Uncapture(s, p), holed || DropsInside(s, UncaptureOp(p)))
  {
    if s.hasActive && p in s.captured && s.active in s.metas {
      var files := s.metas[s.active];
      WithoutMeans(files, p);
      WithoutKeepsDistinct(files, p);
      WithoutKeepsIndices(files, p);
      assert PathsOf(Without(files, p)) == PathsOf(files) - {p};
      if files != [] && files[|files| - 1].path == p {
        WithoutLast(files, p);
      }
    }
  }

  lemma StepKeepsNumbers(r: Run, op: Op, holed: bool)
    requires Numbered(r.s, holed) && (CapturesAnew(r.s, op) ==> !holed)
    ensures Numbered(Step(r, op).s, !op.BeginOp? && (holed || DropsInside(r.s, op)))
  {
    if CapturesAnew(r.s, op) {
      CaptureKeepsNumbers(r.s, op.path, op.content);
    } else if op.UncaptureOp? {
      DropKeepsNumbers(r.s, op.path, holed);
    }
  }

  /** The active turn, if there is one, has captured nothing yet. */
  ghost predicate NothingCaptured(s: State) {
    s.hasActive && s.active in s.metas ==> s.metas[s.active] == [] && s.captured == {}
  }

  lemma {:induction false} NumbersHold(r: Run, ops: seq<Op>)
    requires NothingCaptured(r.s) && NoCaptureAfterHole(r, ops)
    ensures Numbered(Exec(r, ops).s, Holed(r, ops))
  {
    if ops != [] {
      var n := |ops| - 1;
      forall i | 0 <= i < n && CapturesAnew(Exec(r, ops[..n][..i]).s, ops[..n][i]) ensures !Holed(r, ops[..n][..i]) {
        assert ops[..n][..i] == ops[..i];
      }
      NumbersHold(r, ops[..n]);
      StepKeepsNumbers(Exec(r, ops[..n]), ops[n], Holed(r, ops[..n]));
    }
  }

  /** Different indices allow every drop, and a free one every capture. */
  lemma NumbersAllow(s: State, op: Op, holed: bool)
    requires Numbered(s, holed) && (CapturesAnew(s, op) ==> !holed)
    ensures IndicesAllow(s, op) && (CapturesAnew(s, op) ==> IndexFree(s))
  {
    if CapturesAnew(s, op) {
      CaptureKeepsNumbers(s, op.path, op.content);
    } else if op.UncaptureOp? && s.hasActive && s.active in s.metas {
      var files := s.metas[s.active];
      forall f, g | f in files && g in files && f.path != g.path ensures f.index != g.index {
        var i :| 0 <= i < |files| && files[i] == f;
        var j :| 0 <= j < |files| && files[j] == g;
      }
    }
  }

  /** A caller that captures no new path after dropping a path other than the last one in
      the same turn never meets a taken index: every capture finds its index free and
      every drop fits. */
  lemma CallersDisciplineIsEnough(r: Run, ops: seq<Op>, i: nat)
    requires NothingCaptured(r.s) && NoCaptureAfterHole(r, ops) && i < |ops|
    ensures var s := Exec(r, ops[..i]).s;
      IndicesAllow(s, ops[i]) && (CapturesAnew(s, ops[i]) ==> IndexFree(s))
  {
    forall k | 0 <= k < i && CapturesAnew(Exec(r, ops[..i][..k]).s, ops[..i][k]) ensures !Holed(r, ops[..i][..k]) {
      assert ops[..i][..k] == ops[..k];
    }
    NumbersHold(r, ops[..i]);
    NumbersAllow(Exec(r, ops[..i]).s, ops[i], Holed(r, ops[..i]));
  }

  /** The main result in the caller's terms, for changes before or after their capture: a
      caller that captures turn-start content, has captured every change before the next
      turn begins, and captures no new path after dropping one that was not captured last,
      gets the past back if and only if it has captured every change. */
  lemma CallersGetThePast(w: Workspace, retain: int, before: seq<Op>, after: seq<Op>)
    requires var r0 := Exec(Start(w, retain), before);
      var r := Step(r0, BeginOp);
      && NoCaptureAfterHole(r, after)
      && forall i :: 0 <= i < |after| ==> CallerKeepsTo(Exec(r, after[..i]), after[i], |r0.hist|)
    ensures var r0 := Exec(Start(w, retain), before);
      var t, r1 := |r0.hist|, Exec(Step(r0, BeginOp), after);
      t in r1.s.metas ==> (Restored(r1.s, t) == r0.s.work <==> Settled(r1, t))
  {
    var r0 := Exec(Start(w, retain), before);
    var r := Step(r0, BeginOp);
    ExecCounts(w, retain, before);
    BeginPrunes(r0.s, |r0.hist|);
    forall i | 0 <= i < |after| ensures Disciplined(Exec(r, after[..i]), after[i], |r0.hist|) {
      CallersDisciplineIsEnough(r, after, i);
    }
    RewindIsThePast(w, retain, before, after);
  }

  /** A caller that captures before it changes: what it captures is the present content, it
      changes only captured paths, drops only a path that is back at its turn-start
      content, and goes back no further than turn t. */
  predicate CapturesFirst(r: Run, op: Op, t: nat) {
    match op
    case CaptureOp(p, c) => CapturesAnew(r.s, op) ==> c == Lookup(r.s.work, p)
    case UncaptureOp(p) =>
      r.s.hasActive && p in r.s.captured && r.s.active < |r.hist| ==>
        Lookup(r.s.work, p) == Lookup(r.hist[r.s.active], p)
    case WriteOp(p, _) =>
      |r.hist| > 0 ==> |r.hist| - 1 in r.s.metas && p in PathsOf(r.s.metas[|r.hist| - 1])
    case RewindOp(back) => t <= back
    case _ => true
  }

  lemma CaptureSettles(r: Run, p: Path, c: Snap, t: nat)
    requires Inv(r) && t < |r.hist| && Settled(r, t) && IndicesAllow(r.s, CaptureOp(p, c))
    ensures Settled(Step(r, CaptureOp(p, c)), t)
  {
    var r' := Step(r, CaptureOp(p, c));
    if CapturesAnew(r.s, CaptureOp(p, c)) {
      CaptureReads(r, p, c);
      forall q | Recorded(r, t, q) ensures Recorded(r', t, q) {
      }
    }
  }

  lemma DropSettles(r: Run, p: Path, t: nat)
    requires Inv(r) && t < |r.hist| && Settled(r, t)
    requires IndicesAllow(r.s, UncaptureOp(p)) && CapturesFirst(r, UncaptureOp(p), t)
    ensures Settled(Step(r, UncaptureOp(p)), t)
  {
    var r' := Step(r, UncaptureOp(p));
    if r.s.hasActive && p in r.s.captured {
      DropReads(r, p);
      forall q | q != p && Recorded(r, t, q) ensures Recorded(r', t, q) {
      }
    }
  }

  lemma WriteSettles(r: Run, p: Path, v: Snap, t: nat)
    requires Inv(r) && t < |r.hist| && Settled(r, t) && CapturesFirst(r, WriteOp(p, v), t)
    ensures Settled(Step(r, WriteOp(p, v)), t)
  {
    var r', last := Step(r, WriteOp(p, v)), |r.hist| - 1;
    ReadPresent(r.s.metas[last], last, r.s.payload, p);
    forall q ensures Recorded(r', t, q) <==> Recorded(r, t, q) {
      EarliestFrame(r.s, r'.s, t, |r.hist|, q);
    }
    assert Recorded(r, t, p);
  }

  /** Such a step meets the premise of the main result, and nothing is left to record. */
  lemma CapturingFirstSettles(r: Run, op: Op, t: nat)
    requires Inv(r) && t < |r.hist| && Settled(r, t)
    requires IndicesAllow(r.s, op) && CapturesFirst(r, op, t)
    ensures CallerKeepsTo(r, op, t) && Settled(Step(r, op), t)
  {
    match op
    case BeginOp =>
    case CaptureOp(p, c) => CaptureSettles(r, p, c, t);
    case UncaptureOp(p) => DropSettles(r, p, t);
    case WriteOp(p, v) => WriteSettles(r, p, v, t);
    case RewindOp(back) => RewindSettles(r, back, t);
    case ReopenOp(n) =>
      forall q ensures Recorded(Step(r, op), t, q) <==> Recorded(r, t, q) {
        EarliestFrame(r.s, Step(r, op).s, t, |r.hist|, q);
      }
  }

  predicate FirstAndFree(r: Run, op: Op, t: nat) {
    IndicesAllow(r.s, op) && CapturesFirst(r, op, t)
  }

  /** Along a whole run of such steps nothing is left to record. */
  lemma {:induction false} CapturingFirstStaysSettled(r: Run, ops: seq<Op>, t: nat, i: nat)
    requires Inv(r) && t < |r.hist| && Settled(r, t) && i <= |ops|
    requires forall k :: 0 <= k < i ==> FirstAndFree(Exec(r, ops[..k]), ops[k], t)
    ensures var mid := Exec(r, ops[..i]); Inv(mid) && t < |mid.hist| && Settled(mid, t)
  {
    if i > 0 {
      var mid := Exec(r, ops[..i - 1]);
      CapturingFirstStaysSettled(r, ops, t, i - 1);
      assert ops[..i][..i - 1] == ops[..i - 1];
      assert FirstAndFree(mid, ops[i - 1], t);
      CapturingFirstSettles(mid, ops[i - 1], t);
      StepKeeps(mid, ops[i - 1]);
    }
  }

  /** And every step of it meets the premise of the main result. */
  lemma CapturingFirstIsDisciplined(r: Run, ops: seq<Op>, t: nat, i: nat)
    requires Inv(r) && t < |r.hist| && Settled(r, t) && i < |ops|
    requires forall k :: 0 <= k <= i ==> FirstAndFree(Exec(r, ops[..k]), ops[k], t)
    ensures CallerKeepsTo(Exec(r, ops[..i]), ops[i], t)
  {
    CapturingFirstStaysSettled(r, ops, t, i);
    assert FirstAndFree(Exec(r, ops[..i]), ops[i], t);
    CapturingFirstSettles(Exec(r, ops[..i]), ops[i], t);
  }

  /** A caller that captures before it changes, and captures no new path after dropping one
      that was not captured last, always gets the past back. */
  lemma CapturingFirstGetsThePast(w: Workspace, retain: int, before: seq<Op>, after: seq<Op>)
    requires var r0 := Exec(Start(w, retain), before);
      var r := Step(r0, BeginOp);
      && NoCaptureAfterHole(r, after)
      && forall i :: 0 <= i < |after| ==> CapturesFirst(Exec(r, after[..i]), after[i], |r0.hist|)
    ensures var r0 := Exec(Start(w, retain), before);
      var t, r1 := |r0.hist|, Exec(Step(r0, BeginOp), after);
      t in r1.s.metas ==> Restored(r1.s, t) == r0.s.work
  {
    var r0 := Exec(Start(w, retain), before);
    var t, r := |r0.hist|, Step(r0, BeginOp);
    ExecCounts(w, retain, before);
    BeginPrunes(r0.s, t);
    BeginStarts(r0);
    forall i | 0 <= i < |after| ensures FirstAndFree(Exec(r, after[..i]), after[i], t) {
      CallersDisciplineIsEnough(r, after, i);
    }
    forall i | 0 <= i < |after| ensures CallerKeepsTo(Exec(r, after[..i]), after[i], t) {
      CapturingFirstIsDisciplined(r, after, t, i);
    }
    CapturingFirstStaysSettled(r, after, t, |after|);
    assert after[..|after|] == after;
    CallersGetThePast(w, retain, before, after);
  }

  // ------------------------------------------- captures that follow the change

  function CaptureOps(start: Workspace, paths: seq<Path>): seq<Op> {
    if paths == [] then []
    else
      var n := |paths| - 1;
      CaptureOps(start, paths[..n]) + [CaptureOp(paths[n], Lookup(start, paths[n]))]
  }

  function DropOps(paths: seq<Path>): seq<Op> {
    if paths == [] then [] else DropOps(paths[..|paths| - 1]) + [UncaptureOp(paths[|paths| - 1])]
  }

  /** What follows a tool whose changes are only found by comparing fingerprints: capture
      every path that differs from the turn's start, with what it held then, and drop the
      captured ones that do not. */
  function HookOps(start: Workspace, changed: seq<Path>, back: seq<Path>): seq<Op> {
    CaptureOps(start, changed) + DropOps(back)
  }

  lemma {:induction false} ExecAppend(r: Run, a: seq<Op>, b: seq<Op>)
    ensures Exec(r, a + b) == Exec(Exec(r, a), b)
  {
    if b == [] {
      assert a + b == a;
    } else {
      assert (a + b)[..|a + b| - 1] == a + b[..|b| - 1];
      ExecAppend(r, a, b[..|b| - 1]);
    }
  }

  lemma AllowedParts(r: Run, a: seq<Op>, b: seq<Op>)
    requires AllAllowed(r, a + b)
    ensures AllAllowed(r, a) && AllAllowed(Exec(r, a), b)
  {
    forall i | 0 <= i < |a| ensures IndicesAllow(Exec(r, a[..i]).s, a[i]) {
      assert (a + b)[..i] == a[..i] && (a + b)[i] == a[i];
    }
    forall i | 0 <= i < |b| ensures IndicesAllow(Exec(Exec(r, a), b[..i]).s, b[i]) {
      assert (a + b)[..|a| + i] == a + b[..i] && (a + b)[|a| + i] == b[i];
      ExecAppend(r, a, b[..i]);
    }
  }

  /** The same turn goes on with the same workspace. */
  predicate SameTurn(r: Run, r': Run) {
    r'.hist == r.hist && r'.s.work == r.s.work && r'.s.hasActive == r.s.hasActive
  }

  lemma CaptureAdds(r: Run, p: Path, c: Snap)
    requires Inv(r) && r.s.hasActive && IndicesAllow(r.s, CaptureOp(p, c))
    ensures var r' := Step(r, CaptureOp(p, c)); Inv(r') && SameTurn(r, r') && r'.s.captured == r.s.captured + {p}
  {
    CaptureKeeps(r, p, c);
  }

  lemma DropRemoves(r: Run, p: Path)
    requires Inv(r) && r.s.hasActive && IndicesAllow(r.s, UncaptureOp(p))
    ensures var r' := Step(r, UncaptureOp(p)); Inv(r') && SameTurn(r, r') && r'.s.captured == r.s.captured - {p}
  {
    if p in r.s.captured {
      DropReads(r, p);
    }
  }

  lemma LastCapture(r: Run, start: Workspace, paths: seq<Path>)
    requires paths != [] && AllAllowed(r, CaptureOps(start, paths))
    ensures var n := |paths| - 1;
      var mid, op := Exec(r, CaptureOps(start, paths[..n])), CaptureOp(paths[n], Lookup(start, paths[n]));
      && Exec(r, CaptureOps(start, paths)) == Step(mid, op)
      && AllAllowed(r, CaptureOps(start, paths[..n])) && IndicesAllow(mid.s, op)
  {
    var ops := CaptureOps(start, paths);
    assert ops[..|ops| - 1] == CaptureOps(start, paths[..|paths| - 1]);
    PrefixAllowed(r, ops);
  }

  lemma LastDrop(r: Run, paths: seq<Path>)
    requires paths != [] && AllAllowed(r, DropOps(paths))
    ensures var n := |paths| - 1;
      var mid, op := Exec(r, DropOps(paths[..n])), UncaptureOp(paths[n]);
      && Exec(r, DropOps(paths)) == Step(mid, op)
      && AllAllowed(r, DropOps(paths[..n])) && IndicesAllow(mid.s, op)
  {
    var ops := DropOps(paths);
    assert ops[..|ops| - 1] == DropOps(paths[..|paths| - 1]);
    PrefixAllowed(r, ops);
  }

  lemma {:induction false} CapturesAdd(r: Run, start: Workspace, paths: seq<Path>)
    requires Inv(r) && r.s.hasActive && AllAllowed(r, CaptureOps(start, paths))
    ensures var r' := Exec(r, CaptureOps(start, paths));
      Inv(r') && SameTurn(r, r') && r'.s.captured == r.s.captured + Members(paths)
  {
    if paths != [] {
      var n := |paths| - 1;
      LastCapture(r, start, paths);
      CapturesAdd(r, start, paths[..n]);
      CaptureAdds(Exec(r, CaptureOps(start, paths[..n])), paths[n], Lookup(start, paths[n]));
      MembersSnoc(paths);
    }
  }

  lemma {:induction false} DropsRemove(r: Run, paths: seq<Path>)
    requires Inv(r) && r.s.hasActive && AllAllowed(r, DropOps(paths))
    ensures var r' := Exec(r, DropOps(paths));
      Inv(r') && SameTurn(r, r') && r'.s.captured == r.s.captured - Members(paths)
  {
    if paths != [] {
      var n := |paths| - 1;
      LastDrop(r, paths);
      DropsRemove(r, paths[..n]);
      DropRemoves(Exec(r, DropOps(paths[..n])), paths[n]);
      MembersSnoc(paths);
    }
  }

  lemma AllCapturedIsSettled(r: Run, t: nat)
    requires Inv(r) && r.s.hasActive && t < |r.hist|
    requires forall p :: p in r.s.captured <==> Lookup(r.s.work, p) != Lookup(r.hist[|r.hist| - 1], p)
    ensures Settled(r, t)
  {
    var last := |r.hist| - 1;
    forall p | p in r.s.captured ensures Recorded(r, t, p) {
      ReadPresent(r.s.metas[last], last, r.s.payload, p);
    }
  }

  lemma HookRuns(r: Run, start: Workspace, changed: seq<Path>, back: seq<Path>)
    requires Inv(r) && r.s.hasActive && AllAllowed(r, HookOps(start, changed, back))
    ensures var r' := Exec(r, HookOps(start, changed, back));
      Inv(r') && SameTurn(r, r') && r'.s.captured == r.s.captured + Members(changed) - Members(back)
  {
    var captures, drops := CaptureOps(start, changed), DropOps(back);
    AllowedParts(r, captures, drops);
    CapturesAdd(r, start, changed);
    DropsRemove(Exec(r, captures), back);
    ExecAppend(r, captures, drops);
  }

  /** Whatever was changed before, afterwards exactly the changed paths are captured, and
      nothing is left to record. */
  lemma HookRecordsTheChanges(r: Run, changed: seq<Path>, back: seq<Path>, t: nat)
    requires Inv(r) && r.s.hasActive && t < |r.hist|
    requires var start := r.hist[|r.hist| - 1];
      && (forall p :: p in changed <==> Lookup(r.s.work, p) != Lookup(start, p))
      && (forall p :: p in back <==> p in r.s.captured && p !in changed)
      && AllAllowed(r, HookOps(start, changed, back))
    ensures var r' := Exec(r, HookOps(r.hist[|r.hist| - 1], changed, back));
      && Inv(r') && SameTurn(r, r') && Settled(r', t)
      && forall p :: p in r'.s.captured <==> Lookup(r.s.work, p) != Lookup(r.hist[|r.hist| - 1], p)
  {
    var start := r.hist[|r.hist| - 1];
    var r' := Exec(r, HookOps(start, changed, back));
    HookRuns(r, start, changed, back);
    forall p ensures p in r'.s.captured <==> Lookup(r.s.work, p) != Lookup(start, p) {
      assert p in r'.s.captured <==> (p in r.s.captured || p in changed) && p !in back;
    }
    AllCapturedIsSettled(r', t);
  }

  lemma CaptureOpsAre(start: Workspace, paths: seq<Path>, i: nat)
    requires i < |CaptureOps(start, paths)|
    ensures var op := CaptureOps(start, paths)[i]; op.CaptureOp? && op.content == Lookup(start, op.path)
  {
    var n := |paths| - 1;
    if i < |CaptureOps(start, paths[..n])| {
      CaptureOpsAre(start, paths[..n], i);
    }
  }

  lemma DropOpsAre(paths: seq<Path>, i: nat)
    requires i < |DropOps(paths)|
    ensures DropOps(paths)[i].UncaptureOp?
  {
    var n := |paths| - 1;
    if i < |DropOps(paths[..n])| {
      DropOpsAre(paths[..n], i);
    }
  }

  lemma HookOpsAre(start: Workspace, changed: seq<Path>, back: seq<Path>, i: nat)
    requires i < |HookOps(start, changed, back)|
    ensures var op := HookOps(start, changed, back)[i];
      op.UncaptureOp? || (op.CaptureOp? && op.content == Lookup(start, op.path))
  {
    var captures := |CaptureOps(start, changed)|;
    if i < captures {
      CaptureOpsAre(start, changed, i);
    } else {
      DropOpsAre(back, i - captures);
    }
  }

  lemma HistoryStays(r: Run, start: Workspace, changed: seq<Path>, back: seq<Path>, i: nat)
    requires i <= |HookOps(start, changed, back)|
    ensures Exec(r, HookOps(start, changed, back)[..i]).hist == r.hist
  {
    if i > 0 {
      var ops := HookOps(start, changed, back);
      assert ops[..i][..i - 1] == ops[..i - 1];
      HistoryStays(r, start, changed, back, i - 1);
      HookOpsAre(start, changed, back, i - 1);
    }
  }

  /** Its steps meet the premise of the main result. */
  lemma HookIsDisciplined(r: Run, changed: seq<Path>, back: seq<Path>, t: nat, i: nat)
    requires r.hist != []
    requires i < |HookOps(r.hist[|r.hist| - 1], changed, back)|
    ensures var ops := HookOps(r.hist[|r.hist| - 1], changed, back); CallerKeepsTo(Exec(r, ops[..i]), ops[i], t)
  {
    HistoryStays(r, r.hist[|r.hist| - 1], changed, back, i);
    HookOpsAre(r.hist[|r.hist| - 1], changed, back, i);
  }
}
