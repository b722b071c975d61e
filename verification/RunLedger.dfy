/**
 What every interleaving of the steps in Lifecycle keeps: one live run per agent,
 histories that only grow, answers that do not change, cancellations that stick and
 one completion per accepted start.
 */
module RunLedger {
  import opened Wrappers
  import opened Messages
  import opened PendingTools
  import opened Transcript
  import opened ToolCeiling
  import opened Lifecycle

  // --------------------------------------------------- histories only grow

  predicate RunKept(a: Run, b: Run) {
    a.id == b.id && a.tools == b.tools && (a.ended ==> a == b)
  }

  predicate RunsGrow(a: seq<Run>, b: seq<Run>) {
    |a| <= |b| && forall i :: 0 <= i < |a| ==> RunKept(a[i], b[i])
  }

  predicate RecordGrows(a: AgentRecord, b: AgentRecord) {
    && RunsGrow(a.runs, b.runs)
    && (a.archived ==> b.archived)
    && a.fork == b.fork
    && Grows(a.transcript.messages, b.transcript.messages)
  }

  predicate DiskGrows(w: World, w': World) {
    forall id :: id in w.disk ==> id in w'.disk && RecordGrows(w.disk[id], w'.disk[id])
  }

  lemma RecordGrowsTransitive(a: AgentRecord, b: AgentRecord, c: AgentRecord)
    requires RecordGrows(a, b) && RecordGrows(b, c)
    ensures RecordGrows(a, c)
  {
    GrowsTransitive(a.transcript.messages, b.transcript.messages, c.transcript.messages);
    forall i | 0 <= i < |a.runs| ensures RunKept(a.runs[i], c.runs[i]) {
      assert RunKept(a.runs[i], b.runs[i]) && RunKept(b.runs[i], c.runs[i]);
    }
  }

  lemma DiskGrowsTransitive(u: World, v: World, w: World)
    requires DiskGrows(u, v) && DiskGrows(v, w)
    ensures DiskGrows(u, w)
  {
    forall id | id in u.disk ensures id in w.disk && RecordGrows(u.disk[id], w.disk[id]) {
      RecordGrowsTransitive(u.disk[id], v.disk[id], w.disk[id]);
    }
  }

  lemma FindRunIs(runs: seq<Run>, i: nat)
    requires i < |runs| && forall j, k :: 0 <= j < k < |runs| ==> runs[j].id != runs[k].id
    ensures FindRun(runs, runs[i].id) == Some(i)
  {
  }

  lemma FindRunGrows(a: seq<Run>, b: seq<Run>, runId: string)
    requires RunsGrow(a, b) && FindRun(a, runId).Some?
    ensures FindRun(b, runId).Some?
  {
    var i := FindRun(a, runId).value;
    assert RunKept(a[i], b[i]);
  }

  // ------------------------------------------------------ preparing a start

  lemma NarrowerTransitive(a: seq<string>, b: seq<string>, c: seq<string>)
    requires Narrower(a, b) && Narrower(b, c)
    ensures Narrower(a, c)
  {
  }

  lemma IntersectNarrows(ceiling: seq<string>, requested: seq<string>)
    ensures Narrower(Intersect(ceiling, requested), ceiling)
  {
    forall t | t != NO_TOOLS && Allows(Intersect(ceiling, requested), t) ensures Allows(ceiling, t) {
      IntersectMeans(ceiling, requested, t);
    }
  }

  lemma RepairEnds(runs: seq<Run>)
    requires RunsOk(runs)
    ensures RunsGrow(runs, Repair(runs)) && |Repair(runs)| == |runs|
    ensures forall i :: 0 <= i < |runs| ==> Repair(runs)[i].ended && RunOk(Repair(runs)[i])
  {
    var n := |runs| - 1;
    assert RunOk(runs[n]);
    forall i | 0 <= i < n ensures RunKept(runs[i], Repair(runs)[i]) && Repair(runs)[i].ended && RunOk(Repair(runs)[i]) {
      assert Repair(runs)[i] == runs[i] && RunOk(runs[i]);
    }
  }

  lemma AppendRun(before: seq<Run>, runs: seq<Run>, run: Run)
    requires RunsOk(before) && RunsGrow(before, runs) && |runs| == |before|
    requires forall i :: 0 <= i < |runs| ==> runs[i].ended && RunOk(runs[i])
    requires RunOk(run) && Narrower(run.tools, before[|before| - 1].tools)
    requires forall i :: 0 <= i < |before| ==> before[i].id != run.id
    ensures RunsOk(runs + [run])
  {
    var runs' := runs + [run];
    forall i, j | 0 <= i < j < |runs'| ensures runs'[i].id != runs'[j].id && Narrower(runs'[j].tools, runs'[i].tools) {
      assert RunKept(before[i], runs[i]);
      if j < |runs| {
        assert RunKept(before[j], runs[j]);
      } else if i < |runs| - 1 {
        NarrowerTransitive(run.tools, before[|before| - 1].tools, before[i].tools);
      }
    }
  }

  lemma AppendedRunOk(runs: seq<Run>, runId: string, tools: seq<string>)
    requires runs != [] ==> RunsOk(runs) && Narrower(tools, runs[|runs| - 1].tools)
    requires forall i :: 0 <= i < |runs| ==> runs[i].id != runId
    ensures var runs' := Repair(runs) + [Run(runId, tools, Running, false, NO_RESULT)];
      RunsOk(runs') && RunsGrow(runs, runs')
  {
    if runs != [] {
      RepairEnds(runs);
      AppendRun(runs, Repair(runs), Run(runId, tools, Running, false, NO_RESULT));
    }
  }

  lemma ContinueTranscript(base: AgentRecord, cfg: Config, runId: string)
    requires Whole(base.transcript, base.fork) && Continue(base, cfg, runId).Ok?
    ensures var r := Continue(base, cfg, runId).value;
      && Whole(r.transcript, r.fork) && Grows(base.transcript.messages, r.transcript.messages)
      && r == base.(runId := runId, transcript := r.transcript,
           runs := Repair(base.runs) + [Run(runId, base.tools, Running, false, NO_RESULT)])
  {
    var prev := Active(base.transcript, base.fork).value;
    AppliedIsWhole(base.transcript, prev, Checkpoint(Recovered(prev), base.transcript.workingSet, false), base.fork, 0);
  }

  /** Where no amendable message is shared, the start continues from the recovered context. */
  lemma ContinueExact(base: AgentRecord, cfg: Config, runId: string)
    requires Sound(base.transcript, base.fork) && Continue(base, cfg, runId).Ok?
    ensures var r := Continue(base, cfg, runId).value;
      && Sound(r.transcript, r.fork) && r.fork == base.fork
      && Active(r.transcript, r.fork) == Some(Recovered(Active(base.transcript, base.fork).value))
  {
    var prev := Active(base.transcript, base.fork).value;
    AppliedIsSound(base.transcript, prev, Checkpoint(Recovered(prev), base.transcript.workingSet, false), base.fork, 0);
  }

  /** A recovery that completes the last message adds the unknown results to it. */
  lemma CompletedLast(prev: seq<Message>)
    requires prev != [] && Recovered(prev)[|prev| - 1] != prev[|prev| - 1]
    ensures |Recovered(prev)| == |prev|
    ensures Recovered(prev)[|prev| - 1].content == prev[|prev| - 1].content + UnknownResults(Pending(prev))
  {
    RecoveryClosesEveryCall(prev);
  }

  lemma SharedPlace(r: Record, prev: seq<Message>, cp: Checkpoint, fork: seq<Message>, i: nat)
    requires Active(r, fork) == Some(prev) && |cp.messages| == |prev| && i < |prev|
    requires forall j :: 0 <= j < |prev| - 1 ==> cp.messages[j] == prev[j]
    ensures Meaning(r, prev, cp, i) == cp.messages[i] || (Meaning(r, prev, cp, i) == cp.messages[|prev| - 1] && prev[i] == prev[|prev| - 1])
  {
    var n := |prev| - 1;
    assert Resolve(r.messages, fork, r.context[i]) == Some(prev[i]) && Resolve(r.messages, fork, r.context[n]) == Some(prev[n]);
  }

  /** A start that completes a message other places share completes those places too. */
  lemma SharedRecovery(r: Record, prev: seq<Message>, cp: Checkpoint, fork: seq<Message>)
    requires Active(r, fork) == Some(prev) && cp.messages == Recovered(prev) && AmendsShared(r, prev, cp)
    ensures var r' := Applied(r, prev, cp, fork, 0);
      Active(r', fork).Some? && Pending(Active(r', fork).value) == []
  {
    var n, ids := |prev| - 1, Pending(prev);
    AppliedResolves(r, prev, cp, fork, 0);
    ApplyExactIff(r, prev, cp, fork, 0);
    var now := Active(Applied(r, prev, cp, fork, 0), fork).value;
    CompletedLast(prev);
    forall i | 0 <= i < |prev|
      ensures now[i].content == prev[i].content || now[i].content == prev[i].content + UnknownResults(ids)
      ensures i == n ==> now[i] == cp.messages[n]
    {
      SharedPlace(r, prev, cp, fork, i);
    }
    SupplementedRecovery(prev, now);
  }

  /** Whatever the record, a start that goes through leaves no tool call open. */
  lemma ContinueCloses(base: AgentRecord, cfg: Config, runId: string)
    requires Continue(base, cfg, runId).Ok?
    ensures var r := Continue(base, cfg, runId).value;
      Active(r.transcript, r.fork).Some? && Pending(Active(r.transcript, r.fork).value) == []
    ensures Active(base.transcript, base.fork).Some?
    ensures Pending(Active(base.transcript, base.fork).value) != [] ==> cfg.acknowledge
  {
    var prev := Active(base.transcript, base.fork).value;
    var cp := Checkpoint(Recovered(prev), base.transcript.workingSet, false);
    if AmendsShared(base.transcript, prev, cp) {
      SharedRecovery(base.transcript, prev, cp, base.fork);
    } else {
      ApplyExactIff(base.transcript, prev, cp, base.fork, 0);
      RecoveryClosesEveryCall(prev);
    }
  }

  /** Its runs: those so far, repaired, and the one that starts. */
  lemma ContinueRuns(base: AgentRecord, cfg: Config, runId: string)
    requires base.runs != [] ==> RunsOk(base.runs) && Narrower(base.tools, base.runs[|base.runs| - 1].tools)
    requires Continue(base, cfg, runId).Ok?
    ensures var runs := Repair(base.runs) + [Run(runId, base.tools, Running, false, NO_RESULT)];
      && Continue(base, cfg, runId).value.runs == runs
      && RunsOk(runs) && RunsGrow(base.runs, runs) && FindRun(base.runs, runId).None?
  {
    AppendedRunOk(base.runs, runId, base.tools);
  }

  /** The record a successful start saves. */
  lemma ContinueOk(base: AgentRecord, cfg: Config, runId: string)
    requires base.runs != [] ==> RunsOk(base.runs) && Narrower(base.tools, base.runs[|base.runs| - 1].tools)
    requires Whole(base.transcript, base.fork)
    requires Continue(base, cfg, runId).Ok?
    ensures var r := Continue(base, cfg, runId).value;
      && RecordOk(r) && r.runId == runId && !r.runs[|r.runs| - 1].ended
      && FindRun(base.runs, runId).None?
      && RecordGrows(base, r) && r.archived == base.archived
  {
    ContinueTranscript(base, cfg, runId);
    ContinueRuns(base, cfg, runId);
  }

  lemma {:induction false} RetooledContinues(found: AgentRecord, tools: seq<string>, cfg: Config, runId: string)
    requires RecordOk(found) && Narrower(tools, found.tools)
    requires Continue(found.(tools := tools), cfg, runId).Ok?
    ensures var r := Continue(found.(tools := tools), cfg, runId).value;
      && RecordOk(r) && r.runId == runId && !r.runs[|r.runs| - 1].ended
      && FindRun(found.runs, runId).None? && RecordGrows(found, r)
  {
    ContinueOk(found.(tools := tools), cfg, runId);
  }

  lemma {:induction false} ResumeOk(found: AgentRecord, cfg: Config, newRunId: string)
    requires RecordOk(found) && Prepare(Some(found), cfg, true, newRunId).Ok?
    ensures var r := Prepare(Some(found), cfg, true, newRunId).value;
      && RecordOk(r) && !r.runs[|r.runs| - 1].ended
      && FindRun(found.runs, r.runId).None? && RecordGrows(found, r) && !found.archived
  {
    IntersectNarrows(found.tools, cfg.tools);
    var runId := if cfg.runId == "" then newRunId else cfg.runId;
    RetooledContinues(found, Intersect(found.tools, cfg.tools), cfg, runId);
  }

  /** The record that a spawn continues from. */
  function NewRecord(cfg: Config): AgentRecord
    requires cfg.fork.Some?
  {
    AgentRecord(cfg.agentType, cfg.workDir, cfg.tools, "", false, [], Initial(cfg.fork.value), cfg.fork.value.messages)
  }

  lemma SpawnOk(cfg: Config, newRunId: string)
    requires Prepare(None, cfg, false, newRunId).Ok?
    ensures var r := Prepare(None, cfg, false, newRunId).value;
      RecordOk(r) && !r.runs[|r.runs| - 1].ended
  {
    InitialIsSound(cfg.fork.value);
    ContinueOk(NewRecord(cfg), cfg, if cfg.runId == "" then newRunId else cfg.runId);
  }

  lemma PrepareOk(found: Option<AgentRecord>, cfg: Config, resume: bool, newRunId: string)
    requires found.Some? ==> RecordOk(found.value)
    requires Prepare(found, cfg, resume, newRunId).Ok?
    ensures var r := Prepare(found, cfg, resume, newRunId).value;
      && RecordOk(r) && !r.runs[|r.runs| - 1].ended
      && (found.Some? ==> FindRun(found.value.runs, r.runId).None? && RecordGrows(found.value, r) && !found.value.archived)
      && found.Some? == resume
  {
    if resume {
      ResumeOk(found.value, cfg, newRunId);
    } else {
      SpawnOk(cfg, newRunId);
    }
  }

  /** What the new run's context is, when the found record shares nothing amendable. */
  lemma PrepareExact(found: Option<AgentRecord>, cfg: Config, resume: bool, newRunId: string)
    requires found.Some? ==> Sound(found.value.transcript, found.value.fork)
    requires Prepare(found, cfg, resume, newRunId).Ok?
    ensures var r := Prepare(found, cfg, resume, newRunId).value;
      && Sound(r.transcript, r.fork)
      && (resume ==> found.Some? && Active(found.value.transcript, found.value.fork).Some?
                     && Active(r.transcript, r.fork) == Some(Recovered(Active(found.value.transcript, found.value.fork).value)))
      && (!resume ==> cfg.fork.Some? && Active(r.transcript, r.fork) == Some(Recovered(cfg.fork.value.messages)) && r.fork == cfg.fork.value.messages)
  {
    var runId := if cfg.runId == "" then newRunId else cfg.runId;
    if resume {
      ContinueExact(found.value.(tools := Intersect(found.value.tools, cfg.tools)), cfg, runId);
    } else {
      InitialIsSound(cfg.fork.value);
      ContinueExact(NewRecord(cfg), cfg, runId);
    }
  }

  // --------------------------------------------- each step keeps the ledger

  lemma ActiveAgrees(w: World, at: Slot)
    requires LivesOk(w) && IsActive(w, at)
    ensures at.id in w.locks && w.locks[at.id] == at.pid
    ensures at.id in w.disk && w.live[at].record == w.disk[at.id] && w.disk[at.id].runs != []
    ensures var last := |w.disk[at.id].runs| - 1;
      w.disk[at.id].runs[last].id == w.live[at].runId && !w.disk[at.id].runs[last].ended
  {
    assert LiveOk(w, at);
  }

  /** At most one live run per agent, in all processes together. */
  lemma OneLiveRun(w: World, a: Slot, b: Slot)
    requires LivesOk(w) && IsActive(w, a) && IsActive(w, b) && a.id == b.id
    ensures a == b
  {
    ActiveAgrees(w, a);
    ActiveAgrees(w, b);
  }

  /** From w to w' only the entry `at` and its agent's record and lock change, and the
      runs of that record only grow. */
  ghost predicate Touches(w: World, w': World, at: Slot) {
    && (forall id :: id in w.disk ==> id in w'.disk)
    && (forall id :: id in w'.disk && id != at.id ==> id in w.disk && w'.disk[id] == w.disk[id])
    && (forall id :: id in w'.locks && id != at.id ==> id in w.locks && w'.locks[id] == w.locks[id])
    && (forall id :: id in w.locks && id != at.id ==> id in w'.locks)
    && (forall other :: other in w.live ==> other in w'.live)
    && (forall other :: other in w'.live && other != at ==> other in w.live && w'.live[other] == w.live[other])
    && at.id in w'.disk && (at.id in w.disk ==> RunsGrow(w.disk[at.id].runs, w'.disk[at.id].runs))
  }

  lemma LivesKept(w: World, w': World, at: Slot)
    requires LivesOk(w) && Touches(w, w', at)
    requires forall other :: other in w.live && other != at && other.id == at.id ==> w.live[other].done
    requires at in w'.live ==> LiveOk(w', at)
    ensures LivesOk(w')
  {
    forall other | other in w'.live ensures LiveOk(w', other) {
      if other != at {
        assert LiveOk(w, other);
      }
    }
  }

  lemma OthersAreDone(w: World, at: Slot)
    requires LivesOk(w) && (IsActive(w, at) || at.id !in w.locks)
    ensures forall other :: other in w.live && other != at && other.id == at.id ==> w.live[other].done
  {
    forall other | other in w.live && other != at && other.id == at.id ensures w.live[other].done {
      if !w.live[other].done {
        ActiveAgrees(w, other);
        if IsActive(w, at) {
          ActiveAgrees(w, at);
        }
      }
    }
  }

  lemma LocksKept(w: World, w': World, at: Slot)
    requires LocksOk(w) && Touches(w, w', at)
    requires at.id in w'.locks ==> w'.locks[at.id] == at.pid && IsActive(w', at)
    ensures LocksOk(w')
  {
    forall id | id in w'.locks ensures IsActive(w', At(w'.locks[id], id)) {
      if id != at.id { assert IsActive(w, At(w.locks[id], id)); }
    }
  }

  lemma {:induction false} DiskKept(w: World, w': World, at: Slot)
    requires DiskOk(w) && Touches(w, w', at) && RecordOk(w'.disk[at.id])
    requires at.id in w.disk ==> RecordGrows(w.disk[at.id], w'.disk[at.id])
    ensures DiskOk(w') && DiskGrows(w, w')
  {
    forall id | id in w'.disk ensures RecordOk(w'.disk[id]) {
    }
    RecordsGrow(w, w', at);
  }

  lemma RecordsGrow(w: World, w': World, at: Slot)
    requires Touches(w, w', at)
    requires at.id in w.disk ==> RecordGrows(w.disk[at.id], w'.disk[at.id])
    ensures DiskGrows(w, w')
  {
    NothingChanges(w);
  }

  lemma RunsStay(w: World, w': World, at: Slot, key: Key)
    requires Touches(w, w', at)
    requires key.slot.id in w.disk && FindRun(w.disk[key.slot.id].runs, key.runId).Some?
    ensures key.slot.id in w'.disk && FindRun(w'.disk[key.slot.id].runs, key.runId).Some?
  {
    if key.slot.id == at.id {
      FindRunGrows(w.disk[at.id].runs, w'.disk[at.id].runs, key.runId);
    }
  }

  /** Nothing is logged, and the entry is live before and after for the same run or
      not live at all. */
  lemma AccountsUntouched(w: World, w': World, at: Slot)
    requires AccountsOk(w) && Touches(w, w', at)
    requires w'.started == w.started && w'.lost == w.lost && w'.completed == w.completed && w'.mailbox == w.mailbox
    requires IsActive(w, at) <==> IsActive(w', at)
    requires IsActive(w, at) ==> w'.live[at].runId == w.live[at].runId && w'.live[at].detached == w.live[at].detached
    ensures AccountsOk(w')
  {
    forall key ensures Accounted(w', key) {
      assert Accounted(w, key);
      assert IsLive(w', key) <==> IsLive(w, key);
      if key in w.started {
        RunsStay(w, w', at, key);
      }
    }
  }

  lemma BeginAccounts(w: World, w': World, at: Slot, runId: string, detached: bool)
    requires AccountsOk(w) && Touches(w, w', at)
    requires !IsActive(w, at) && IsActive(w', at) && w'.live[at].runId == runId && w'.live[at].detached == detached
    requires at.id in w.disk ==> FindRun(w.disk[at.id].runs, runId).None?
    requires FindRun(w'.disk[at.id].runs, runId).Some?
    requires w'.started == w.started[Key(at, runId) := detached]
    requires w'.lost == w.lost && w'.completed == w.completed && w'.mailbox == w.mailbox
    ensures AccountsOk(w')
  {
    forall key ensures Accounted(w', key) {
      assert Accounted(w, key);
      if key in w.started {
        RunsStay(w, w', at, key);
      }
      assert IsLive(w', key) <==> key == Key(at, runId) || IsLive(w, key);
    }
  }

  lemma CompleteAccounts(w: World, w': World, at: Slot, event: Event)
    requires AccountsOk(w) && Touches(w, w', at)
    requires IsActive(w, at) && !IsActive(w', at) && event.key == Key(at, w.live[at].runId)
    requires event.detached == w.live[at].detached
    requires w'.started == w.started && w'.lost == w.lost && w'.completed == w.completed + [event]
    requires w'.mailbox == if event.detached then w.mailbox + [event] else w.mailbox
    ensures AccountsOk(w')
  {
    assert w'.completed[..|w.completed|] == w.completed;
    assert event.detached ==> w'.mailbox[..|w.mailbox|] == w.mailbox;
    forall key ensures Accounted(w', key) {
      assert Accounted(w, key);
      if key in w.started {
        RunsStay(w, w', at, key);
      }
      assert IsLive(w', key) <==> key != event.key && IsLive(w, key);
    }
  }

  lemma BeginKeeps(w: World, pid: Pid, cfg: Config, resume: bool, newRunId: string)
    requires Inv(w) && Begin(w, pid, cfg, resume, newRunId).Ok?
    ensures var w' := Begin(w, pid, cfg, resume, newRunId).value; Inv(w') && DiskGrows(w, w')
  {
    var w' := Begin(w, pid, cfg, resume, newRunId).value;
    var at := At(pid, cfg.id);
    var found := if cfg.id in w.disk then Some(w.disk[cfg.id]) else None;
    PrepareOk(found, cfg, resume, newRunId);
    Started(w, w', at, w'.disk[cfg.id], cfg.detached);
  }

  /** The record is saved, its lock taken and a live entry registered for it. */
  ghost predicate Starts(w: World, w': World, at: Slot, r: AgentRecord, detached: bool) {
    && !IsActive(w, at) && at.id !in w.locks
    && r.runs != [] && (at.id in w.disk ==> RunsGrow(w.disk[at.id].runs, r.runs))
    && var last := r.runs[|r.runs| - 1];
       && !last.ended && last.id == r.runId
       && w' == w.(
         disk := w.disk[at.id := r],
         locks := w.locks[at.id := at.pid],
         live := w.live[at := Live(r.runId, false, false, false, NO_RESULT, detached, r)],
         started := w.started[Key(at, r.runId) := detached])
  }

  lemma StartedIsOk(w: World, w': World, at: Slot, r: AgentRecord, detached: bool)
    requires Starts(w, w', at, r, detached)
    ensures Touches(w, w', at) && LiveOk(w', at)
  {
  }

  lemma {:induction false} StartedLives(w: World, w': World, at: Slot, r: AgentRecord, detached: bool)
    requires LivesOk(w) && LocksOk(w) && Starts(w, w', at, r, detached)
    ensures Touches(w, w', at) && LivesOk(w') && LocksOk(w')
  {
    OthersAreDone(w, at);
    StartedIsOk(w, w', at, r, detached);
    LivesKept(w, w', at);
    LocksKept(w, w', at);
  }

  lemma Started(w: World, w': World, at: Slot, r: AgentRecord, detached: bool)
    requires Inv(w) && Starts(w, w', at, r, detached) && RecordOk(r)
    requires at.id in w.disk ==> FindRun(w.disk[at.id].runs, r.runId).None? && RecordGrows(w.disk[at.id], r)
    ensures Inv(w') && DiskGrows(w, w')
  {
    StartedLives(w, w', at, r, detached);
    DiskKept(w, w', at);
    FindRunIs(r.runs, |r.runs| - 1);
    BeginAccounts(w, w', at, r.runId, detached);
  }

  lemma CheckpointRecord(r: AgentRecord, cp: Checkpoint, now: int)
    requires RecordOk(r)
    ensures Apply(r.transcript, cp, r.fork, now).Some?
    ensures var r' := r.(transcript := Apply(r.transcript, cp, r.fork, now).value);
      RecordOk(r') && RecordGrows(r, r')
  {
    AppliedIsWhole(r.transcript, Active(r.transcript, r.fork).value, cp, r.fork, now);
  }

  lemma {:induction false} CheckpointKeeps(w: World, at: Slot, cp: Checkpoint, now: int)
    requires Inv(w)
    ensures var w' := SaveCheckpoint(w, at, cp, now); Inv(w') && DiskGrows(w, w')
  {
    if IsActive(w, at) {
      ActiveAgrees(w, at);
      var r := w.disk[at.id];
      CheckpointRecord(r, cp, now);
      var r' := r.(transcript := Apply(r.transcript, cp, r.fork, now).value);
      StillLive(w, SaveCheckpoint(w, at, cp, now), at, w.live[at].(record := r'), r');
    } else {
      NothingChanges(w);
    }
  }

  lemma NothingChanges(w: World)
    ensures DiskGrows(w, w)
  {
  }

  /** The live entry and its record are replaced, the runs staying as they are. */
  ghost predicate Replaces(w: World, w': World, at: Slot, a': Live, r': AgentRecord) {
    && IsActive(w, at) && at.id in w.disk
    && w' == w.(disk := w.disk[at.id := r'], live := w.live[at := a'])
    && r'.runs == w.disk[at.id].runs
    && !a'.done && a'.runId == w.live[at].runId && a'.detached == w.live[at].detached && a'.record == r'
  }

  lemma ReplacedTouches(w: World, w': World, at: Slot, a': Live, r': AgentRecord)
    requires Replaces(w, w', at, a', r')
    ensures Touches(w, w', at)
  {
  }

  lemma {:induction false} ReplacedLives(w: World, w': World, at: Slot, a': Live, r': AgentRecord)
    requires LivesOk(w) && LocksOk(w) && Replaces(w, w', at, a', r')
    ensures Touches(w, w', at) && LivesOk(w') && LocksOk(w')
  {
    ReplacedTouches(w, w', at, a', r');
    ActiveAgrees(w, at);
    OthersAreDone(w, at);
    assert LiveOk(w', at);
    LivesKept(w, w', at);
    LocksKept(w, w', at);
  }

  lemma {:induction false} StillLive(w: World, w': World, at: Slot, a': Live, r': AgentRecord)
    requires Inv(w) && Replaces(w, w', at, a', r')
    requires RecordOk(r') && RecordGrows(w.disk[at.id], r')
    ensures Inv(w') && DiskGrows(w, w')
  {
    ReplacedLives(w, w', at, a', r');
    DiskKept(w, w', at);
    AccountsUntouched(w, w', at);
  }

  lemma {:induction false} FlagKeeps(w: World, at: Slot, cancelled: bool, ctxDone: bool)
    requires Inv(w) && IsActive(w, at)
    ensures var w' := w.(live := w.live[at := w.live[at].(cancelled := cancelled, ctxDone := ctxDone)]);
      Inv(w') && DiskGrows(w, w')
  {
    ActiveAgrees(w, at);
    var w' := w.(live := w.live[at := w.live[at].(cancelled := cancelled, ctxDone := ctxDone)]);
    assert w.disk[at.id := w.disk[at.id]] == w.disk;
    NothingChanges(w);
    StillLive(w, w', at, w'.live[at], w.disk[at.id]);
  }

  lemma EndedRunOk(runs: seq<Run>, state: RunState, result: RunResult)
    requires RunsOk(runs) && !runs[|runs| - 1].ended
    requires result.runId == runs[|runs| - 1].id && state != Running && state != WaitingPermission
    ensures var n := |runs| - 1;
      var runs' := runs[n := runs[n].(state := state, ended := true, result := result)];
      RunsOk(runs') && RunsGrow(runs, runs')
  {
  }

  /** The record that the end of execute saves. */
  function Ended(r: AgentRecord, a: Live, result: RunResult): AgentRecord {
    if r.runs == [] then r
    else
      var n := |r.runs| - 1;
      r.(runs := r.runs[n := r.runs[n].(state := FinalState(a, result), ended := true, result := FinalResult(a, result))])
  }

  lemma CompleteRecord(r: AgentRecord, a: Live, result: RunResult)
    requires RecordOk(r) && !r.runs[|r.runs| - 1].ended && a.runId == r.runId
    ensures var r' := Ended(r, a, result);
      && RecordOk(r') && RecordGrows(r, r')
      && |r'.runs| == |r.runs|
      && var last := r'.runs[|r.runs| - 1];
         last.ended && last.id == a.runId && last.state == FinalState(a, result) && last.result == FinalResult(a, result)
  {
    EndedRunOk(r.runs, FinalState(a, result), FinalResult(a, result));
  }

  /** The entry is done, its run ended in the record, its lock freed, its event logged. */
  ghost predicate Finishes(w: World, w': World, at: Slot, r': AgentRecord, event: Event) {
    && IsActive(w, at) && at.id in w.disk && r'.runs != []
    && RunsGrow(w.disk[at.id].runs, r'.runs)
    && var last := r'.runs[|r'.runs| - 1];
       && last.ended && last.id == w.live[at].runId
       && event.key == Key(at, last.id) && event.detached == w.live[at].detached
       && w' == w.(
         disk := w.disk[at.id := r'],
         locks := w.locks - {at.id},
         live := w.live[at := w.live[at].(done := true, result := last.result)],
         completed := w.completed + [event],
         mailbox := if event.detached then w.mailbox + [event] else w.mailbox)
  }

  lemma CompleteFinishes(w: World, at: Slot, result: RunResult, r': AgentRecord)
    requires LivesOk(w) && IsActive(w, at) && at.id in w.disk && r' == Ended(w.disk[at.id], w.live[at], result)
    requires r'.runs != [] && RunsGrow(w.disk[at.id].runs, r'.runs)
    ensures Finishes(w, Complete(w, at, result), at, r', Event(Key(at, w.live[at].runId), FinalState(w.live[at], result), w.live[at].detached))
  {
    ActiveAgrees(w, at);
  }

  lemma {:induction false} CompleteKeeps(w: World, at: Slot, result: RunResult)
    requires Inv(w)
    ensures Inv(Complete(w, at, result)) && DiskGrows(w, Complete(w, at, result))
  {
    if IsActive(w, at) {
      ActiveAgrees(w, at);
      var a, r := w.live[at], w.disk[at.id];
      assert RecordOk(r);
      CompleteRecord(r, a, result);
      CompleteFinishes(w, at, result, Ended(r, a, result));
      Finished(w, Complete(w, at, result), at, Ended(r, a, result), Event(Key(at, a.runId), FinalState(a, result), a.detached));
    } else {
      NothingChanges(w);
    }
  }

  lemma {:induction false} FinishedLives(w: World, w': World, at: Slot, r': AgentRecord, event: Event)
    requires LivesOk(w) && LocksOk(w) && Finishes(w, w', at, r', event)
    ensures Touches(w, w', at) && LivesOk(w') && LocksOk(w')
  {
    OthersAreDone(w, at);
    assert r'.runs[|r'.runs| - 1].ended;
    assert LiveOk(w', at);
    LivesKept(w, w', at);
    LocksKept(w, w', at);
  }

  lemma {:induction false} Finished(w: World, w': World, at: Slot, r': AgentRecord, event: Event)
    requires Inv(w) && Finishes(w, w', at, r', event)
    requires RecordOk(r') && RecordGrows(w.disk[at.id], r')
    ensures Inv(w') && DiskGrows(w, w')
  {
    FinishedLives(w, w', at, r', event);
    DiskKept(w, w', at);
    CompleteAccounts(w, w', at, event);
  }

  /** Archiving marks the record and hands its run id to the entry. */
  lemma ArchiveKeeps(w: World, at: Slot, workDir: string)
    requires Inv(w)
    ensures Inv(Archive(w, at, workDir)) && DiskGrows(w, Archive(w, at, workDir))
  {
    var w' := Archive(w, at, workDir);
    if CanArchive(w, at, workDir) {
      Reflexive(w.disk[at.id]);
      ArchivedLives(w, at, workDir);
      DiskKept(w, w', at);
      AccountsUntouched(w, w', at);
    } else {
      NothingChanges(w);
    }
  }

  lemma Reflexive(r: AgentRecord)
    ensures RecordGrows(r, r)
  {
  }

  lemma ArchivedLives(w: World, at: Slot, workDir: string)
    requires DiskOk(w) && LivesOk(w) && LocksOk(w) && CanArchive(w, at, workDir)
    ensures var w' := Archive(w, at, workDir); Touches(w, w', at) && LivesOk(w') && LocksOk(w')
  {
    var w' := Archive(w, at, workDir);
    OthersAreDone(w, at);
    Reflexive(w.disk[at.id]);
    assert RecordOk(w.disk[at.id]);
    LivesKept(w, w', at);
    LocksKept(w, w', at);
  }

  lemma CrashKeeps(w: World, pid: Pid)
    requires Inv(w)
    ensures Inv(Crash(w, pid)) && DiskGrows(w, Crash(w, pid))
  {
    NothingChanges(w);
    CrashKeepsLives(w, pid);
    CrashKeepsAccounts(w, pid);
  }

  lemma CrashKeepsLives(w: World, pid: Pid)
    requires LivesOk(w) && LocksOk(w)
    ensures LivesOk(Crash(w, pid)) && LocksOk(Crash(w, pid))
  {
    var w' := Crash(w, pid);
    forall at | at in w'.live ensures LiveOk(w', at) {
      assert LiveOk(w, at);
    }
    forall id | id in w'.locks ensures IsActive(w', At(w'.locks[id], id)) {
      assert IsActive(w, At(w.locks[id], id));
    }
  }

  lemma CrashKeepsAccounts(w: World, pid: Pid)
    requires AccountsOk(w)
    ensures AccountsOk(Crash(w, pid))
  {
    var w' := Crash(w, pid);
    forall key ensures Accounted(w', key) {
      assert Accounted(w, key);
      assert key in w'.lost <==> key in w.lost || (IsLive(w, key) && key.slot.pid == pid);
      assert IsLive(w', key) <==> IsLive(w, key) && key.slot.pid != pid;
    }
  }

  lemma CloseKeepsLives(w: World, pid: Pid)
    requires LivesOk(w) && LocksOk(w)
    ensures LivesOk(Close(w, pid)) && LocksOk(Close(w, pid))
  {
    var w' := Close(w, pid);
    forall at | at in w'.live ensures LiveOk(w', at) {
      assert LiveOk(w, at);
    }
    forall id | id in w'.locks ensures IsActive(w', At(w'.locks[id], id)) {
      assert IsActive(w, At(w.locks[id], id));
    }
  }

  lemma CloseKeeps(w: World, pid: Pid)
    requires Inv(w)
    ensures Inv(Close(w, pid)) && DiskGrows(w, Close(w, pid))
  {
    NothingChanges(w);
    CloseKeepsLives(w, pid);
    forall key ensures Accounted(Close(w, pid), key) {
      assert Accounted(w, key);
    }
  }

  lemma CancelKeeps(w: World, at: Slot, runId: string)
    requires Inv(w)
    ensures Inv(Cancel(w, at, runId)) && DiskGrows(w, Cancel(w, at, runId))
  {
    NothingChanges(w);
    if IsActive(w, at) {
      FlagKeeps(w, at, true, w.live[at].ctxDone);
    }
  }

  lemma EndContextKeeps(w: World, at: Slot)
    requires Inv(w)
    ensures Inv(EndContext(w, at)) && DiskGrows(w, EndContext(w, at))
  {
    NothingChanges(w);
    if IsActive(w, at) {
      FlagKeeps(w, at, w.live[at].cancelled, true);
    }
  }

  lemma {:induction false} StepKeeps(w: World, op: Op)
    requires Inv(w)
    ensures Inv(Step(w, op)) && DiskGrows(w, Step(w, op))
  {
    NothingChanges(w);
    match op
    case StartOp(pid, cfg, resume, newRunId) =>
      if Begin(w, pid, cfg, resume, newRunId).Ok? { BeginKeeps(w, pid, cfg, resume, newRunId); }
    case CheckpointOp(at, cp, now) => CheckpointKeeps(w, at, cp, now);
    case CancelOp(at, runId) => CancelKeeps(w, at, runId);
    case EndContextOp(at) => EndContextKeeps(w, at);
    case CompleteOp(at, result) => CompleteKeeps(w, at, result);
    case ArchiveOp(at, workDir) => ArchiveKeeps(w, at, workDir);
    case CloseOp(pid) => CloseKeeps(w, pid);
    case CrashOp(pid) => CrashKeeps(w, pid);
  }

  /** The ledger invariant holds in every reachable world, whatever the steps, and along
      the way records only grow and ended runs are never rewritten. */
  lemma {:induction false} LedgerHolds(w: World, ops: seq<Op>)
    requires Inv(w)
    ensures Inv(Exec(w, ops)) && DiskGrows(w, Exec(w, ops))
  {
    if ops == [] {
      forall id | id in w.disk ensures RecordGrows(w.disk[id], w.disk[id]) {
      }
    } else {
      var n := |ops| - 1;
      LedgerHolds(w, ops[..n]);
      StepKeeps(Exec(w, ops[..n]), ops[n]);
      DiskGrowsTransitive(w, Exec(w, ops[..n]), Exec(w, ops));
    }
  }

  lemma FreshHolds()
    ensures Inv(FRESH) && AnswersOk(FRESH) && TranscriptsSound(FRESH)
  {
  }

  // ------------------------------------------------------------ the answers

  /** An entry that was done before, or that this step completed, still answers truly. */
  lemma AnswerStays(w: World, w': World, at: Slot)
    requires at in w.live && w.live[at].done && AnswerOk(w, at) && DiskGrows(w, w')
    requires at in w'.live && w'.live[at] == w.live[at]
    ensures AnswerOk(w', at)
  {
    var a, runs := w.live[at], w.disk[at.id].runs;
    var i :| 0 <= i < |runs| && runs[i].id == a.runId && runs[i].ended && runs[i].result == a.result;
    assert RecordGrows(w.disk[at.id], w'.disk[at.id]) && RunKept(runs[i], w'.disk[at.id].runs[i]);
  }

  lemma CompletionAnswers(w: World, at: Slot, result: RunResult)
    requires DiskOk(w) && LivesOk(w) && IsActive(w, at)
    ensures at in Complete(w, at, result).live && AnswerOk(Complete(w, at, result), at)
  {
    ActiveAgrees(w, at);
    assert RecordOk(w.disk[at.id]);
    CompleteRecord(w.disk[at.id], w.live[at], result);
    CompleteFinishes(w, at, result, Ended(w.disk[at.id], w.live[at], result));
    assert Complete(w, at, result).disk[at.id].runs[|w.disk[at.id].runs| - 1].ended;
  }

  /** Which entries a step leaves as they were. */
  lemma EntriesStay(w: World, op: Op, at: Slot)
    requires !StaleArchive(w, op) && at in Step(w, op).live && Step(w, op).live[at].done
    ensures (op.CompleteOp? && op.at == at && IsActive(w, at)) || (at in w.live && Step(w, op).live[at] == w.live[at])
  {
  }

  /** Answers carry over where each entry is as before or answers truly. */
  lemma AnswersCarry(w: World, w': World)
    requires AnswersOk(w) && DiskGrows(w, w')
    requires forall at :: at in w'.live && w'.live[at].done ==>
      (at in w.live && w.live[at] == w'.live[at]) || AnswerOk(w', at)
    ensures AnswersOk(w')
  {
    forall at | at in w'.live && w'.live[at].done ensures AnswerOk(w', at) {
      if at in w.live && w.live[at] == w'.live[at] {
        assert AnswerOk(w, at);
        AnswerStays(w, w', at);
      }
    }
  }

  lemma EntryAnswers(w: World, op: Op, at: Slot)
    requires DiskOk(w) && LivesOk(w) && !StaleArchive(w, op)
    requires at in Step(w, op).live && Step(w, op).live[at].done
    ensures (at in w.live && w.live[at] == Step(w, op).live[at]) || AnswerOk(Step(w, op), at)
  {
    EntriesStay(w, op, at);
    if op.CompleteOp? && op.at == at && IsActive(w, at) {
      CompletionAnswers(w, at, op.result);
    }
  }

  lemma StepKeepsAnswers(w: World, op: Op)
    requires Inv(w) && AnswersOk(w) && !StaleArchive(w, op)
    ensures AnswersOk(Step(w, op))
  {
    var w' := Step(w, op);
    StepKeeps(w, op);
    forall at | at in w'.live && w'.live[at].done
      ensures (at in w.live && w.live[at] == w'.live[at]) || AnswerOk(w', at)
    {
      EntryAnswers(w, op, at);
    }
    AnswersCarry(w, w');
  }

  lemma {:induction false} AnswersHold(w: World, ops: seq<Op>)
    requires Inv(w) && AnswersOk(w) && NoStaleArchive(w, ops)
    ensures AnswersOk(Exec(w, ops))
  {
    if ops != [] {
      var n := |ops| - 1;
      forall i | 0 <= i < n ensures !StaleArchive(Exec(w, ops[..n][..i]), ops[..n][i]) {
        assert ops[..n][..i] == ops[..i];
      }
      AnswersHold(w, ops[..n]);
      LedgerHolds(w, ops[..n]);
      StepKeepsAnswers(Exec(w, ops[..n]), ops[n]);
    }
  }

  lemma AnswerIsRecorded(w: World, at: Slot, runId: string)
    requires DiskOk(w) && (at in w.live ==> AnswerOk(w, at)) && WaitRun(w, at, runId).Answer?
    ensures at.id in w.disk
    ensures var i := FindRun(w.disk[at.id].runs, runId);
      i.Some? && w.disk[at.id].runs[i.value].ended && WaitRun(w, at, runId).result == w.disk[at.id].runs[i.value].result
  {
    if at in w.live && w.live[at].runId == runId {
      var runs := w.disk[at.id].runs;
      var i :| 0 <= i < |runs| && runs[i].id == runId && runs[i].ended && runs[i].result == w.live[at].result;
      assert RecordOk(w.disk[at.id]);
      FindRunIs(runs, i);
    }
  }

  /** An answer taken from a sound entry or from the disk is the run's own. */
  lemma AnswerIsOwn(w: World, at: Slot, runId: string)
    requires DiskOk(w) && (at in w.live ==> AnswerOk(w, at)) && WaitRun(w, at, runId).Answer?
    ensures WaitRun(w, at, runId).result.runId == runId
  {
    AnswerIsRecorded(w, at, runId);
    var i := FindRun(w.disk[at.id].runs, runId).value;
    assert RecordOk(w.disk[at.id]) && RunOk(w.disk[at.id].runs[i]);
  }

  lemma EndedRunAnswers(w: World, at: Slot, i: nat)
    requires DiskOk(w) && LivesOk(w) && AnswersOk(w)
    requires at.id in w.disk && i < |w.disk[at.id].runs| && w.disk[at.id].runs[i].ended
    ensures WaitRun(w, at, w.disk[at.id].runs[i].id) == Answer(w.disk[at.id].runs[i].result)
  {
    var runs := w.disk[at.id].runs;
    assert RecordOk(w.disk[at.id]);
    FindRunIs(runs, i);
    if IsActive(w, at) {
      ActiveAgrees(w, at);
    } else if at in w.live && w.live[at].runId == runs[i].id {
      AnswerIsRecorded(w, at, runs[i].id);
    }
  }

  /** While no archive is stale: once a run is answered for, every process gives that
      answer from then on. */
  lemma {:induction false} WaitRunIsStable(w: World, ops: seq<Op>, at: Slot, at': Slot, runId: string)
    requires Inv(w) && AnswersOk(w) && NoStaleArchive(w, ops)
    requires at'.id == at.id && WaitRun(w, at, runId).Answer?
    ensures WaitRun(Exec(w, ops), at', runId) == WaitRun(w, at, runId)
  {
    AnswerIsRecorded(w, at, runId);
    LedgerHolds(w, ops);
    AnswersHold(w, ops);
    var w' := Exec(w, ops);
    var i := FindRun(w.disk[at.id].runs, runId).value;
    assert RecordGrows(w.disk[at.id], w'.disk[at.id]);
    assert RunKept(w.disk[at.id].runs[i], w'.disk[at.id].runs[i]);
    EndedRunAnswers(w', at', i);
  }

  /** Every process answers for a run with that run's own result. */
  ghost predicate AnswersTrue(w: World) {
    forall at, runId :: WaitRun(w, at, runId).Answer? ==> WaitRun(w, at, runId).result.runId == runId
  }

  /** A process that ran an older run takes over the newest run's id, but not its result:
      it then answers for the newest run, ended or not, with the older run's result. */
  lemma StaleArchiveMisreports(w: World, at: Slot, workDir: string)
    requires Inv(w) && AnswersOk(w) && StaleArchive(w, ArchiveOp(at, workDir))
    ensures var newest, w' := w.disk[at.id].runId, Archive(w, at, workDir);
      && WaitRun(w', at, newest) == Answer(w.live[at].result)
      && w.live[at].result.runId == w.live[at].runId != newest
      && var last := w.disk[at.id].runs[|w.disk[at.id].runs| - 1];
         WaitRun(w, at, newest) == if last.ended then Answer(last.result) else NoAnswer
  {
    var r := w.disk[at.id];
    var newest := |r.runs| - 1;
    assert RecordOk(r);
    FindRunIs(r.runs, newest);
    assert AnswerOk(w, at);
    AnswerIsOwn(w, at, w.live[at].runId);
  }

  /** In a world that answers truly, a step keeps every answer true if and only if it is
      not a stale archive. */
  lemma AnswersStayTrueIff(w: World, op: Op)
    requires Inv(w) && AnswersOk(w)
    ensures AnswersTrue(w)
    ensures AnswersTrue(Step(w, op)) <==> !StaleArchive(w, op)
  {
    OwnAnswers(w);
    if StaleArchive(w, op) {
      StaleArchiveMisreports(w, op.at, op.workDir);
    } else {
      StepKeeps(w, op);
      StepKeepsAnswers(w, op);
      OwnAnswers(Step(w, op));
    }
  }

  lemma OwnAnswers(w: World)
    requires DiskOk(w) && AnswersOk(w)
    ensures AnswersTrue(w)
  {
    forall at, runId | WaitRun(w, at, runId).Answer? ensures WaitRun(w, at, runId).result.runId == runId {
      AnswerIsOwn(w, at, runId);
    }
  }

  /** While no archive is stale, every answer in every reachable world is true. */
  lemma ReachableAnswersAreTrue(ops: seq<Op>)
    requires NoStaleArchive(FRESH, ops)
    ensures AnswersTrue(Exec(FRESH, ops))
  {
    FreshHolds();
    LedgerHolds(FRESH, ops);
    AnswersHold(FRESH, ops);
    OwnAnswers(Exec(FRESH, ops));
  }

  lemma HarmlessArchive(w: World, at: Slot, workDir: string, runId: string)
    requires Inv(w) && AnswersOk(w) && CanArchive(w, at, workDir)
    requires var r := w.disk[at.id]; at in w.live && w.live[at].runId != r.runId ==> !r.runs[|r.runs| - 1].ended
    requires WaitRun(w, at, runId).Answer?
    ensures WaitRun(Archive(w, at, workDir), at, runId) == WaitRun(w, at, runId)
  {
    var r := w.disk[at.id];
    assert at in w.live ==> AnswerOk(w, at);
    AnswerIsRecorded(w, at, runId);
    assert RecordOk(r);
    FindRunIs(r.runs, |r.runs| - 1);
  }

  lemma StaleArchiveChanges(w: World, at: Slot, workDir: string)
    requires Inv(w) && AnswersOk(w) && CanArchive(w, at, workDir)
    requires var r := w.disk[at.id]; r.runs != [] && at in w.live && w.live[at].runId != r.runId && r.runs[|r.runs| - 1].ended
    ensures var runId := w.disk[at.id].runId;
      WaitRun(w, at, runId).Answer? && WaitRun(Archive(w, at, workDir), at, runId) != WaitRun(w, at, runId)
  {
    var r := w.disk[at.id];
    assert RecordOk(r);
    StaleArchiveMisreports(w, at, workDir);
    FindRunIs(r.runs, |r.runs| - 1);
    AnswerIsOwn(w, at, r.runId);
  }

  /** Archiving never changes an answer that its process could already give, if and only
      if that process holds no entry for an older run while the newest run has ended. */
  lemma {:induction false} ArchiveKeepsAnswersIff(w: World, at: Slot, workDir: string)
    requires Inv(w) && AnswersOk(w) && CanArchive(w, at, workDir)
    ensures var w', r := Archive(w, at, workDir), w.disk[at.id];
      (forall runId :: WaitRun(w, at, runId).Answer? ==> WaitRun(w', at, runId) == WaitRun(w, at, runId))
      <==>
      (at in w.live && w.live[at].runId != r.runId ==> !r.runs[|r.runs| - 1].ended)
  {
    var r := w.disk[at.id];
    assert RecordOk(r);
    if at in w.live && w.live[at].runId != r.runId && r.runs[|r.runs| - 1].ended {
      StaleArchiveChanges(w, at, workDir);
    } else {
      forall runId | WaitRun(w, at, runId).Answer?
        ensures WaitRun(Archive(w, at, workDir), at, runId) == WaitRun(w, at, runId)
      {
        HarmlessArchive(w, at, workDir, runId);
      }
    }
  }

  // ----------------------------------------------------------- cancellation

  /** The run is live and its fate is sealed. */
  predicate Doomed(w: World, at: Slot, runId: string) {
    IsActive(w, at) && w.live[at].runId == runId && (w.live[at].cancelled || w.live[at].ctxDone)
  }

  /** The run is recorded as Cancelled, with an error and no retry, and reported so. */
  ghost predicate EndedCancelled(w: World, at: Slot, runId: string) {
    && at.id in w.disk
    && (var i := FindRun(w.disk[at.id].runs, runId);
        i.Some? && var run := w.disk[at.id].runs[i.value];
        run.ended && run.state == Cancelled && run.result.error != "" && run.result.noRetry && run.result.runId == runId)
    && exists e :: e in w.completed && e.key == Key(at, runId) && e.state == Cancelled
  }

  lemma CompleteCancels(w: World, at: Slot, runId: string, result: RunResult)
    requires DiskOk(w) && LivesOk(w) && Doomed(w, at, runId)
    ensures EndedCancelled(Complete(w, at, result), at, runId)
  {
    ActiveAgrees(w, at);
    var r, a := w.disk[at.id], w.live[at];
    assert RecordOk(r);
    CompleteRecord(r, a, result);
    FindRunIs(Complete(w, at, result).disk[at.id].runs, |r.runs| - 1);
    assert Event(Key(at, runId), Cancelled, a.detached) in Complete(w, at, result).completed;
  }

  /** Only its own completion or the death of its process ends a live run. */
  lemma OthersSpareIt(w: World, op: Op, at: Slot, runId: string)
    requires Doomed(w, at, runId) && op != CrashOp(at.pid)
    requires !(op.CompleteOp? && op.at == at)
    ensures Doomed(Step(w, op), at, runId)
  {
    match op
    case StartOp(pid, cfg, resume, newRunId) =>
      assert At(pid, cfg.id) == at ==> Begin(w, pid, cfg, resume, newRunId).Err?;
    case _ =>
  }

  lemma {:induction false} DoomedStep(w: World, op: Op, at: Slot, runId: string)
    requires DiskOk(w) && LivesOk(w) && Doomed(w, at, runId) && op != CrashOp(at.pid)
    ensures Doomed(Step(w, op), at, runId) || EndedCancelled(Step(w, op), at, runId)
  {
    if op.CompleteOp? && op.at == at {
      CompleteCancels(w, at, runId, op.result);
    } else {
      OthersSpareIt(w, op, at, runId);
    }
  }

  lemma {:induction false} CancelStep(mid: World, op: Op, at: Slot, runId: string)
    requires Inv(mid) && op != CrashOp(at.pid)
    requires Doomed(mid, at, runId) || EndedCancelled(mid, at, runId)
    ensures Doomed(Step(mid, op), at, runId) || EndedCancelled(Step(mid, op), at, runId)
  {
    if Doomed(mid, at, runId) {
      DoomedStep(mid, op, at, runId);
    } else {
      StepKeeps(mid, op);
      EventsStay(mid, op);
      EndedCancelledStays(mid, Step(mid, op), at, runId);
    }
  }

  /** Reported events stay reported. */
  lemma EventsStay(w: World, op: Op)
    ensures w.completed <= Step(w, op).completed
  {
  }

  lemma EndedCancelledStays(w: World, w': World, at: Slot, runId: string)
    requires DiskGrows(w, w') && DiskOk(w') && w.completed <= w'.completed && EndedCancelled(w, at, runId)
    ensures EndedCancelled(w', at, runId)
  {
    var i := FindRun(w.disk[at.id].runs, runId).value;
    assert RecordGrows(w.disk[at.id], w'.disk[at.id]) && RunKept(w.disk[at.id].runs[i], w'.disk[at.id].runs[i]);
    assert RecordOk(w'.disk[at.id]);
    FindRunIs(w'.disk[at.id].runs, i);
    var e :| e in w.completed && e.key == Key(at, runId) && e.state == Cancelled;
    assert e in w'.completed;
  }

  /** A cancelled live run, whatever happens short of its process dying, is either still
      live and doomed, or recorded as Cancelled with an error and no retry and reported
      as Cancelled. */
  lemma {:induction false} CancelIsFinal(w: World, at: Slot, runId: string, ops: seq<Op>)
    requires Inv(w) && Doomed(w, at, runId) && CrashOp(at.pid) !in ops
    ensures Doomed(Exec(w, ops), at, runId) || EndedCancelled(Exec(w, ops), at, runId)
  {
    if ops != [] {
      var n := |ops| - 1;
      CancelIsFinal(w, at, runId, ops[..n]);
      LedgerHolds(w, ops[..n]);
      CancelStep(Exec(w, ops[..n]), ops[n], at, runId);
    }
  }

  lemma LiveRunIsLast(w: World, at: Slot)
    requires DiskOk(w) && LivesOk(w) && IsActive(w, at)
    ensures at.id in w.disk
    ensures var runs := w.disk[at.id].runs;
      runs != [] && FindRun(runs, w.live[at].runId) == Some(|runs| - 1) && !runs[|runs| - 1].ended
  {
    ActiveAgrees(w, at);
    assert RecordOk(w.disk[at.id]);
    FindRunIs(w.disk[at.id].runs, |w.disk[at.id].runs| - 1);
  }

  /** Cancelling a live run dooms it; cancelling one that has ended changes nothing. */
  lemma CancelTakesEffect(w: World, at: Slot, runId: string)
    requires DiskOk(w) && LivesOk(w) && at.id in w.disk && FindRun(w.disk[at.id].runs, runId).Some? && runId != ""
    ensures IsLive(w, Key(at, runId)) ==> Doomed(Cancel(w, at, runId), at, runId)
    ensures w.disk[at.id].runs[FindRun(w.disk[at.id].runs, runId).value].ended ==> Cancel(w, at, runId) == w
  {
    if IsActive(w, at) {
      LiveRunIsLast(w, at);
    }
  }

  // ------------------------------------------------------------- completions

  /** An accepted start that is neither live nor lost has exactly one completion event,
      and one mailbox entry if it was detached, none otherwise; before that, and for
      starts that were never accepted, there is neither. */
  lemma {:induction false} EveryStartCompletesOnce(ops: seq<Op>, key: Key)
    ensures var w := Exec(FRESH, ops);
      if key in w.started && key !in w.lost && !IsLive(w, key) then
        Count(w.completed, key) == 1 && Count(w.mailbox, key) == (if w.started[key] then 1 else 0)
      else
        Count(w.completed, key) == 0 && Count(w.mailbox, key) == 0
  {
    FreshHolds();
    LedgerHolds(FRESH, ops);
    assert Accounted(Exec(FRESH, ops), key);
  }

  lemma NewStartIsNew(w: World, pid: Pid, cfg: Config, resume: bool, newRunId: string, key: Key)
    requires Inv(w) && key in w.started && Begin(w, pid, cfg, resume, newRunId).Ok?
    ensures var w' := Begin(w, pid, cfg, resume, newRunId).value;
      key in w'.started && w'.started[key] == w.started[key]
  {
    var found := if cfg.id in w.disk then Some(w.disk[cfg.id]) else None;
    PrepareOk(found, cfg, resume, newRunId);
    assert Accounted(w, key);
  }

  /** What was said of an accepted start is not changed later. */
  lemma StartsStay(w: World, op: Op, key: Key)
    requires Inv(w) && key in w.started
    ensures key in Step(w, op).started && Step(w, op).started[key] == w.started[key]
  {
    if op.StartOp? && Begin(w, op.pid, op.cfg, op.resume, op.newRunId).Ok? {
      NewStartIsNew(w, op.pid, op.cfg, op.resume, op.newRunId, key);
    }
  }

  /** An accepted start is logged under its own run with its caller's choice. */
  lemma StartIsLogged(w: World, pid: Pid, cfg: Config, resume: bool, newRunId: string)
    requires Begin(w, pid, cfg, resume, newRunId).Ok?
    ensures var w' := Begin(w, pid, cfg, resume, newRunId).value;
      var key := Key(At(pid, cfg.id), w'.disk[cfg.id].runId);
      && w'.started == w.started[key := cfg.detached] && IsLive(w', key)
      && key.runId == (if cfg.runId == "" then newRunId else cfg.runId)
  {
  }

  // ------------------------------------------------------- the ledger theorem

  /** In every reachable world: one live run per agent over all processes, distinct run
      ids, every run but the last ended, and an allow-list that no resume widened. */
  lemma {:induction false} LedgerTheorem(ops: seq<Op>)
    ensures var w := Exec(FRESH, ops);
      && (forall a, b :: IsActive(w, a) && IsActive(w, b) && a.id == b.id ==> a == b)
      && (forall id :: id in w.disk ==>
        var runs := w.disk[id].runs;
        && runs != []
        && (forall i, j :: 0 <= i < j < |runs| ==> runs[i].id != runs[j].id && runs[i].ended)
        && (forall i, j, t :: 0 <= i < j < |runs| && t != NO_TOOLS && Allows(runs[j].tools, t) ==> Allows(runs[i].tools, t)))
  {
    FreshHolds();
    LedgerHolds(FRESH, ops);
    var w := Exec(FRESH, ops);
    forall a, b | IsActive(w, a) && IsActive(w, b) && a.id == b.id ensures a == b {
      OneLiveRun(w, a, b);
    }
    forall id | id in w.disk ensures RecordOk(w.disk[id]) {
    }
  }

  /** r goes on from `before`: its archive and fork are kept, and so is its active
      context up to results added to the last message. */
  predicate Continues(before: AgentRecord, r: AgentRecord, acknowledged: bool) {
    && RecordGrows(before, r)
    && Active(before.transcript, before.fork).Some? && Active(r.transcript, r.fork).Some?
    && var old', now := Active(before.transcript, before.fork).value, Active(r.transcript, r.fork).value;
       && (Pending(old') != [] ==> acknowledged)
       && (Pending(old') == [] ==> now == old')
       && |old'| <= |now|
       && forall i :: 0 <= i < |old'| ==>
            now[i] == old'[i] || (i == |old'| - 1 && now[i].role == old'[i].role && old'[i].content < now[i].content)
  }

  /** Whatever happened before, an accepted start leaves no tool call open and keeps the
      fork and the archive, and it is refused when calls are open and the caller did not
      acknowledge it. */
  lemma StartClosesOpenCalls(w: World, pid: Pid, cfg: Config, resume: bool, newRunId: string)
    requires Inv(w) && Begin(w, pid, cfg, resume, newRunId).Ok?
    ensures var r := Begin(w, pid, cfg, resume, newRunId).value.disk[cfg.id];
      && Active(r.transcript, r.fork).Some? && Pending(Active(r.transcript, r.fork).value) == []
      && (resume ==>
            && cfg.id in w.disk && RecordGrows(w.disk[cfg.id], r)
            && var before := Active(w.disk[cfg.id].transcript, w.disk[cfg.id].fork);
               before.Some? && (Pending(before.value) != [] ==> cfg.acknowledge))
  {
    var found := if cfg.id in w.disk then Some(w.disk[cfg.id]) else None;
    var runId := if cfg.runId == "" then newRunId else cfg.runId;
    PrepareOk(found, cfg, resume, newRunId);
    if resume {
      ContinueCloses(found.value.(tools := Intersect(found.value.tools, cfg.tools)), cfg, runId);
    } else {
      ContinueCloses(NewRecord(cfg), cfg, runId);
    }
  }

  /** Where the found record shares nothing amendable, a resume also keeps the earlier
      messages of the context as they were, up to results added to the last one. */
  lemma ResumeContinues(w: World, pid: Pid, cfg: Config, newRunId: string)
    requires Inv(w) && Begin(w, pid, cfg, true, newRunId).Ok?
    requires cfg.id in w.disk && Sound(w.disk[cfg.id].transcript, w.disk[cfg.id].fork)
    ensures Continues(w.disk[cfg.id], Begin(w, pid, cfg, true, newRunId).value.disk[cfg.id], cfg.acknowledge)
  {
    var found := w.disk[cfg.id];
    PrepareOk(Some(found), cfg, true, newRunId);
    PrepareExact(Some(found), cfg, true, newRunId);
    RecoveryClosesEveryCall(Active(found.transcript, found.fork).value);
    StartClosesOpenCalls(w, pid, cfg, true, newRunId);
  }

  lemma OneRecordSound(w: World, w': World, id: AgentId)
    requires TranscriptsSound(w) && id in w'.disk && w'.disk == w.disk[id := w'.disk[id]]
    requires Sound(w'.disk[id].transcript, w'.disk[id].fork)
    ensures TranscriptsSound(w')
  {
  }

  lemma CheckpointKeepsSound(w: World, at: Slot, cp: Checkpoint, now: int)
    requires LivesOk(w) && DiskOk(w) && TranscriptsSound(w) && (cp.compacted ==> NoRepeatedResults(cp.messages))
    ensures TranscriptsSound(SaveCheckpoint(w, at, cp, now))
  {
    if IsActive(w, at) {
      ActiveAgrees(w, at);
      var r := w.disk[at.id];
      assert RecordOk(r);
      AppliedIsSound(r.transcript, Active(r.transcript, r.fork).value, cp, r.fork, now);
      OneRecordSound(w, SaveCheckpoint(w, at, cp, now), at.id);
    }
  }

  lemma StartKeepsSound(w: World, pid: Pid, cfg: Config, resume: bool, newRunId: string)
    requires TranscriptsSound(w) && Begin(w, pid, cfg, resume, newRunId).Ok?
    ensures TranscriptsSound(Begin(w, pid, cfg, resume, newRunId).value)
  {
    PrepareExact(if cfg.id in w.disk then Some(w.disk[cfg.id]) else None, cfg, resume, newRunId);
    OneRecordSound(w, Begin(w, pid, cfg, resume, newRunId).value, cfg.id);
  }

  lemma StepKeepsSound(w: World, op: Op)
    requires Inv(w) && TranscriptsSound(w) && CompactsCleanly(op)
    ensures TranscriptsSound(Step(w, op))
  {
    match op
    case StartOp(pid, cfg, resume, newRunId) =>
      if Begin(w, pid, cfg, resume, newRunId).Ok? {
        StartKeepsSound(w, pid, cfg, resume, newRunId);
      }
    case CheckpointOp(at, cp, now) => CheckpointKeepsSound(w, at, cp, now);
    case CompleteOp(at, result) =>
      if IsActive(w, at) {
        ActiveAgrees(w, at);
      }
    case _ =>
  }

  /** Where compactions never repeat a pure tool result, no reachable record shares an
      amendable message, so every resume continues as above. */
  lemma {:induction false} TranscriptsStaySound(w: World, ops: seq<Op>)
    requires Inv(w) && TranscriptsSound(w) && forall op :: op in ops ==> CompactsCleanly(op)
    ensures TranscriptsSound(Exec(w, ops))
  {
    if ops != [] {
      var n := |ops| - 1;
      TranscriptsStaySound(w, ops[..n]);
      LedgerHolds(w, ops[..n]);
      StepKeepsSound(Exec(w, ops[..n]), ops[n]);
    }
  }
}
