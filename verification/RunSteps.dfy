/**
 What the single steps of the ledger do, told by what callers can see: which starts are
 accepted and what the new run may use, what a checkpoint and a completion leave on disk,
 whose context may end, and what archiving, closing and dying bring about.
 */
module RunSteps {
  import opened Wrappers
  import opened Messages
  import opened PendingTools
  import opened Transcript
  import opened ToolCeiling
  import opened Lifecycle
  import opened RunLedger

  function LastRun(r: AgentRecord): Run
    requires r.runs != []
  {
    r.runs[|r.runs| - 1]
  }

  // ------------------------------------------------------------------ starts

  /** The run id that a start asks for, or else the fresh one. */
  function AskedId(cfg: Config, newRunId: string): string {
    if cfg.runId != "" then cfg.runId else newRunId
  }

  /** The messages of the agent that a start would go on from. */
  function Found(w: World, cfg: Config): Option<seq<Message>> {
    if cfg.id in w.disk then Active(w.disk[cfg.id].transcript, w.disk[cfg.id].fork)
    else if cfg.fork.Some? then Some(cfg.fork.value.messages)
    else None
  }

  /** Whoever starts may work on the agent, and nobody else does. */
  predicate FreeToStart(w: World, pid: Pid, cfg: Config) {
    ValidId(cfg.id) && pid !in w.closed && !IsActive(w, At(pid, cfg.id)) && cfg.id !in w.locks
  }

  /** A resume is for a known agent of the same project and type that is not archived; a
      spawn is for a new one and has something to start from. */
  predicate InScope(w: World, cfg: Config, resume: bool) {
    if resume then
      && cfg.id in w.disk && w.disk[cfg.id].workDir == cfg.workDir && !w.disk[cfg.id].archived
      && (cfg.agentType == "" || cfg.agentType == w.disk[cfg.id].agentType)
    else cfg.id !in w.disk && cfg.fork.Some?
  }

  predicate NewRunId(w: World, cfg: Config, runId: string) {
    cfg.id in w.disk ==> forall run :: run in w.disk[cfg.id].runs ==> run.id != runId
  }

  /** Open calls are acknowledged, and the stored context can be read. */
  predicate Reconciled(w: World, cfg: Config) {
    Found(w, cfg).Some? && (Pending(Found(w, cfg).value) != [] ==> cfg.acknowledge)
  }

  lemma InitialReads(s: Snapshot)
    ensures Active(Initial(s), s.messages) == Some(s.messages)
  {
    InitialIsSound(s);
  }

  /** Exactly these starts are accepted. */
  lemma StartIsAcceptedIff(w: World, pid: Pid, cfg: Config, resume: bool, newRunId: string)
    ensures Begin(w, pid, cfg, resume, newRunId).Ok? <==>
      && FreeToStart(w, pid, cfg) && InScope(w, cfg, resume)
      && Reconciled(w, cfg) && NewRunId(w, cfg, AskedId(cfg, newRunId))
  {
    if !resume && cfg.fork.Some? {
      InitialReads(cfg.fork.value);
    }
    if cfg.id in w.disk {
      var runs := w.disk[cfg.id].runs;
      assert forall i :: 0 <= i < |runs| ==> runs[i] in runs;
    }
  }

  /** A start that somebody else's work or a closed process speaks against says so before
      anything else is looked at. */
  lemma RefusalsInOrder(w: World, pid: Pid, cfg: Config, resume: bool, newRunId: string)
    requires ValidId(cfg.id)
    ensures var r := Begin(w, pid, cfg, resume, newRunId);
      && (r == Err(Closed) <==> pid in w.closed)
      && (r == Err(Busy) <==> pid !in w.closed && (IsActive(w, At(pid, cfg.id)) || cfg.id in w.locks))
      && (r == Err(NotFound) ==> resume && cfg.id !in w.disk)
      && (r == Err(Exists) ==> !resume && cfg.id in w.disk)
      && (r == Err(OutOfScope) ==> resume && cfg.id in w.disk && w.disk[cfg.id].workDir != cfg.workDir)
      && (r == Err(ArchivedAgent) ==> resume && cfg.id in w.disk && w.disk[cfg.id].archived)
      && (r == Err(TypeChange) ==> resume && cfg.id in w.disk && cfg.agentType != w.disk[cfg.id].agentType)
      && (r.Err? && r.error.Uncertain? ==> Found(w, cfg).Some? && r.error.ids == Pending(Found(w, cfg).value))
      && (r == Err(DuplicateRun) ==> !NewRunId(w, cfg, AskedId(cfg, newRunId)))
  {
    if !resume && cfg.fork.Some? {
      InitialReads(cfg.fork.value);
    }
    if Begin(w, pid, cfg, resume, newRunId) == Err(DuplicateRun) && cfg.id in w.disk {
      var i :| 0 <= i < |w.disk[cfg.id].runs| && w.disk[cfg.id].runs[i].id == AskedId(cfg, newRunId);
      assert w.disk[cfg.id].runs[i] in w.disk[cfg.id].runs;
    }
  }

  /** The new run may use a tool if and only if the agent could before and the caller of
      the resume allows it; a new agent may use what its caller allows. */
  lemma StartGivesTools(w: World, pid: Pid, cfg: Config, resume: bool, newRunId: string, t: string)
    requires Begin(w, pid, cfg, resume, newRunId).Ok?
    ensures var r := Begin(w, pid, cfg, resume, newRunId).value.disk[cfg.id];
      && r.runs != [] && r.tools == LastRun(r).tools
      && (resume ==> cfg.id in w.disk)
      && (resume && t != NO_TOOLS ==>
            (Allows(LastRun(r).tools, t) <==> Allows(w.disk[cfg.id].tools, t) && Allows(cfg.tools, t)))
      && (!resume ==> LastRun(r).tools == cfg.tools)
  {
    if resume && t != NO_TOOLS {
      IntersectMeans(w.disk[cfg.id].tools, cfg.tools, t);
    }
  }

  /** The new run comes last, running, under the id asked for; the agent keeps its type,
      its project and its earlier runs, the last of which is closed as interrupted if a
      dead process had left it running. */
  lemma StartAddsOneRun(w: World, pid: Pid, cfg: Config, resume: bool, newRunId: string)
    requires Inv(w) && Begin(w, pid, cfg, resume, newRunId).Ok?
    ensures var r := Begin(w, pid, cfg, resume, newRunId).value.disk[cfg.id];
      && r.runs != [] && LastRun(r).id == AskedId(cfg, newRunId) && LastRun(r).state == Running && !LastRun(r).ended
      && r.workDir == cfg.workDir && !r.archived
      && (!resume ==> |r.runs| == 1 && r.agentType == cfg.agentType)
      && (resume ==> cfg.id in w.disk && r.agentType == w.disk[cfg.id].agentType && GoesOn(w.disk[cfg.id].runs, r.runs))
  {
    if resume {
      assert RecordOk(w.disk[cfg.id]);
      RepairGoesOn(w.disk[cfg.id].runs, LastRun(Begin(w, pid, cfg, resume, newRunId).value.disk[cfg.id]));
    }
  }

  /** One more run than before; those that had ended are as they were. */
  predicate GoesOn(before: seq<Run>, after: seq<Run>) {
    && |after| == |before| + 1
    && forall i :: 0 <= i < |before| ==>
         if before[i].ended then after[i] == before[i] else Interruption(before[i], after[i])
  }

  lemma RepairGoesOn(runs: seq<Run>, run: Run)
    requires RunsOk(runs)
    ensures GoesOn(runs, Repair(runs) + [run])
  {
    assert forall i :: 0 <= i < |runs| ==> RunOk(runs[i]);
  }

  /** b closes run a, which never came to an end: nothing of it may be retried blindly. */
  predicate Interruption(a: Run, b: Run) {
    && b.id == a.id && b.tools == a.tools && b.ended && b.state == Interrupted
    && b.result.runId == a.id && b.result.output == "" && b.result.error != "" && b.result.noRetry
  }

  // ------------------------------------------------------- the run and its end

  /** A saved checkpoint is on disk: its working set unless it brings none, and its messages
      where it completes no message that other places share. */
  lemma CheckpointIsDurable(w: World, at: Slot, cp: Checkpoint, now: int)
    requires DiskOk(w) && LivesOk(w) && IsActive(w, at)
    ensures at.id in w.disk && at.id in SaveCheckpoint(w, at, cp, now).disk
    ensures var before, r := w.disk[at.id], SaveCheckpoint(w, at, cp, now).disk[at.id];
      && Active(before.transcript, before.fork).Some?
      && r == before.(transcript := r.transcript)
      && r.transcript.workingSet == (if cp.workingSet != "" then cp.workingSet else before.transcript.workingSet)
      && (!AmendsShared(before.transcript, Active(before.transcript, before.fork).value, cp) ==>
            Active(r.transcript, r.fork) == Some(cp.messages))
  {
    ActiveAgrees(w, at);
    assert RecordOk(w.disk[at.id]);
    AppliedSaves(w.disk[at.id].transcript, cp, w.disk[at.id].fork, now);
  }

  lemma AppliedSaves(r: Record, cp: Checkpoint, fork: seq<Message>, now: int)
    requires Active(r, fork).Some?
    ensures var prev := Active(r, fork).value;
      var r' := Applied(r, prev, cp, fork, now);
      && r'.workingSet == (if cp.workingSet != "" then cp.workingSet else r.workingSet)
      && (!AmendsShared(r, prev, cp) ==> Active(r', fork) == Some(cp.messages))
  {
    ApplyExactIff(r, Active(r, fork).value, cp, fork, now);
  }

  /** How a run ends: Cancelled if it was cancelled or its context had ended, and then with
      an error and without retry; otherwise Failed or Idle as its error says, with the
      runner's own result.  The lock is free and the event says the same. */
  lemma CompletionRecords(w: World, at: Slot, result: RunResult)
    requires Inv(w) && IsActive(w, at)
    ensures at.id in w.disk && at.id in Complete(w, at, result).disk && w.disk[at.id].runs != []
    ensures var w' := Complete(w, at, result);
      var a, before, r := w.live[at], w.disk[at.id], w'.disk[at.id];
      var stopped := a.cancelled || a.ctxDone;
      && |r.runs| == |before.runs| && r.runs[..|r.runs| - 1] == before.runs[..|r.runs| - 1]
      && LastRun(r).id == LastRun(before).id == a.runId && LastRun(r).ended && LastRun(r).tools == LastRun(before).tools
      && (LastRun(r).state == Cancelled <==> stopped)
      && (LastRun(r).state == Failed <==> !stopped && result.error != "")
      && (LastRun(r).state == Idle <==> !stopped && result.error == "")
      && LastRun(r).result.runId == a.runId && LastRun(r).result.output == result.output
      && (!stopped ==> LastRun(r).result == result.(runId := a.runId))
      && (stopped ==> LastRun(r).result.noRetry && LastRun(r).result.error == if result.error != "" then result.error else "context canceled")
      && at.id !in w'.locks && !IsActive(w', at) && WaitRun(w', at, a.runId) == Answer(LastRun(r).result)
      && w'.completed == w.completed + [Event(Key(at, a.runId), LastRun(r).state, a.detached)]
  {
    ActiveAgrees(w, at);
  }

  /** Whose context may have ended: a detached run's only if it was cancelled or its
      process has closed. */
  ghost predicate ContextsHold(w: World) {
    forall at :: at in w.live && w.live[at].detached && w.live[at].ctxDone && !w.live[at].done ==>
      w.live[at].cancelled || at.pid in w.closed
  }

  lemma StepHoldsContexts(w: World, op: Op)
    requires ContextsHold(w)
    ensures ContextsHold(Step(w, op))
  {
  }

  /** A detached run outlives its caller: in every reachable world its context has ended
      only if it was cancelled or its process is closed. */
  lemma {:induction false} DetachedRunsOutlive(ops: seq<Op>)
    ensures ContextsHold(Exec(FRESH, ops))
  {
    if ops != [] {
      DetachedRunsOutlive(ops[..|ops| - 1]);
      StepHoldsContexts(Exec(FRESH, ops[..|ops| - 1]), ops[|ops| - 1]);
    }
  }

  /** The context of a run that is not detached may end at any time, and so may that of a
      cancelled run or of a closed process. */
  lemma ContextsMayEnd(w: World, at: Slot)
    requires IsActive(w, at)
    ensures EndContext(w, at).live[at].ctxDone <==>
      w.live[at].ctxDone || !w.live[at].detached || w.live[at].cancelled || at.pid in w.closed
  {
  }

  // ------------------------------------------------- what becomes of an agent

  /** An archived agent stays archived, and no start is accepted for it any more. */
  lemma ArchiveIsFinal(w: World, at: Slot, workDir: string, ops: seq<Op>, pid: Pid, cfg: Config, resume: bool, newRunId: string)
    requires Inv(w) && CanArchive(w, at, workDir) && cfg.id == at.id
    ensures var w' := Exec(Step(w, ArchiveOp(at, workDir)), ops);
      && at.id in w'.disk && w'.disk[at.id].archived
      && Begin(w', pid, cfg, resume, newRunId).Err?
  {
    var mid := Step(w, ArchiveOp(at, workDir));
    ArchivingMarks(w, at, workDir);
    StepKeeps(w, ArchiveOp(at, workDir));
    ArchivedStays(mid, at.id, ops);
    ArchivedIsRefused(Exec(mid, ops), pid, cfg, resume, newRunId);
  }

  lemma ArchivingMarks(w: World, at: Slot, workDir: string)
    requires CanArchive(w, at, workDir)
    ensures var w' := Step(w, ArchiveOp(at, workDir)); at.id in w'.disk && w'.disk[at.id].archived
  {
  }

  lemma ArchivedStays(w: World, id: AgentId, ops: seq<Op>)
    requires Inv(w) && id in w.disk && w.disk[id].archived
    ensures id in Exec(w, ops).disk && Exec(w, ops).disk[id].archived
  {
    LedgerHolds(w, ops);
    assert RecordGrows(w.disk[id], Exec(w, ops).disk[id]);
  }

  lemma ArchivedIsRefused(w: World, pid: Pid, cfg: Config, resume: bool, newRunId: string)
    requires cfg.id in w.disk && w.disk[cfg.id].archived
    ensures Begin(w, pid, cfg, resume, newRunId).Err?
  {
    StartIsAcceptedIff(w, pid, cfg, resume, newRunId);
  }

  /** Archiving is refused, and changes nothing, while anybody works on the agent or from
      another project; it changes nothing on disk but the mark. */
  lemma ArchiveOnlyMarks(w: World, at: Slot, workDir: string)
    ensures !CanArchive(w, at, workDir) ==> Archive(w, at, workDir) == w
    ensures CanArchive(w, at, workDir) ==>
      Archive(w, at, workDir).disk == w.disk[at.id := w.disk[at.id].(archived := true)]
  {
  }

  /** A closed process accepts no start until it is gone. */
  lemma {:induction false} ClosedStaysClosed(w: World, ops: seq<Op>, pid: Pid, cfg: Config, resume: bool, newRunId: string)
    requires CrashOp(pid) !in ops
    ensures var w' := Exec(Step(w, CloseOp(pid)), ops);
      pid in w'.closed && Begin(w', pid, cfg, resume, newRunId).Err?
  {
    if ops != [] {
      var n := |ops| - 1;
      ClosedStaysClosed(w, ops[..n], pid, cfg, resume, newRunId);
      assert ops[n] in ops;
    }
  }

  /** A process that dies takes its entries and its locks with it, and no others. */
  lemma DeathFreesLocks(w: World, pid: Pid)
    ensures var w' := Crash(w, pid);
      && w'.disk == w.disk && w'.closed == w.closed - {pid} && w'.completed == w.completed && w'.mailbox == w.mailbox
      && (forall id :: id in w'.locks <==> id in w.locks && w.locks[id] != pid)
      && (forall id :: id in w'.locks ==> w'.locks[id] == w.locks[id])
      && (forall at :: at in w'.live <==> at in w.live && at.pid != pid)
      && (forall at :: at in w'.live ==> w'.live[at] == w.live[at])
      && (forall key :: key in w'.lost <==> key in w.lost || (IsLive(w, key) && key.slot.pid == pid))
  {
    forall key | IsLive(w, key) && key.slot.pid == pid ensures key in Crash(w, pid).lost {
      var at := key.slot;
      assert at in w.live && at.pid == pid && !w.live[at].done && Key(at, w.live[at].runId) == key;
    }
  }

  /** An entry of another process is about an older run. */
  lemma OtherEntriesAreOlder(w: World, at: Slot, other: Slot)
    requires Inv(w) && AnswersOk(w) && IsActive(w, at) && other.id == at.id && other != at && other in w.live
    ensures w.live[other].runId != w.live[at].runId
  {
    ActiveAgrees(w, at);
    OthersAreDone(w, at);
    assert RecordOk(w.disk[at.id]);
    assert AnswerOk(w, other);
    EndedIsOlder(w.disk[at.id].runs, w.live[other].runId, w.live[other].result);
  }

  lemma EndedIsOlder(runs: seq<Run>, runId: string, result: RunResult)
    requires RunsOk(runs) && Recorded(runs, runId, result) && !runs[|runs| - 1].ended
    ensures runId != runs[|runs| - 1].id
  {
    var i :| 0 <= i < |runs| && runs[i].id == runId && runs[i].ended && runs[i].result == result;
  }

  /** While a run is live its own process waits for it, and the others have no answer yet. */
  lemma LiveRunsHaveNoAnswer(w: World, at: Slot, other: Slot)
    requires Inv(w) && AnswersOk(w) && IsActive(w, at) && other.id == at.id
    ensures WaitRun(w, at, w.live[at].runId) == Blocks
    ensures other != at ==> WaitRun(w, other, w.live[at].runId) == NoAnswer
  {
    LiveRunIsLast(w, at);
    if other != at && other in w.live {
      OtherEntriesAreOlder(w, at, other);
    }
  }
}
