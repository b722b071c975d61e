/**
 The run ledger of internal/agent: several processes start, checkpoint, cancel,
 complete, archive and crash over shared agent records, each record guarded by a
 lock that its live run holds.  Every section of lifecycle.go and coordinator.go
 that runs under the registry mutex is one step; saves succeed.
 */
module Lifecycle {
  import opened Wrappers
  import opened Messages
  import opened PendingTools
  import opened Transcript
  import opened ToolCeiling

  type AgentId = string
  type Pid = nat

  datatype RunState = Running | WaitingPermission | Interrupted | Idle | Cancelled | Failed

  datatype RunResult = RunResult(runId: string, output: string, error: string, noRetry: bool)

  datatype Run = Run(id: string, tools: seq<string>, state: RunState, ended: bool, result: RunResult)

  /** `runId` is the status' run; `fork` is the snapshot that the fork id names. */
  datatype AgentRecord = AgentRecord(
    agentType: string, workDir: string, tools: seq<string>,
    runId: string, archived: bool, runs: seq<Run>,
    transcript: Record, fork: seq<Message>)

  /** An entry of a process' registry; `record` is meant only until `done`. */
  datatype Live = Live(
    runId: string, cancelled: bool, ctxDone: bool, done: bool, result: RunResult,
    detached: bool, record: AgentRecord)

  datatype Config = Config(
    id: AgentId, agentType: string, workDir: string, tools: seq<string>, runId: string,
    acknowledge: bool, detached: bool, fork: Option<Snapshot>)

  datatype StartError =
    | InvalidId | Closed | Busy | Exists | NotFound | OutOfScope | ArchivedAgent | TypeChange
    | InvalidFork | InvalidContext | Uncertain(ids: seq<string>) | DuplicateRun

  datatype Slot = At(pid: Pid, id: AgentId)
  datatype Key = Key(slot: Slot, runId: string)
  datatype Event = Event(key: Key, state: RunState, detached: bool)

  /** The last four fields are logs that no step reads; `started` holds whether each
      accepted start was detached. */
  datatype World = World(
    disk: map<AgentId, AgentRecord>,
    locks: map<AgentId, Pid>,
    live: map<Slot, Live>,
    closed: set<Pid>,
    started: map<Key, bool>, lost: set<Key>, completed: seq<Event>, mailbox: seq<Event>)

  const NO_RESULT := RunResult("", "", "", false)

  // ------------------------------------------------------------------ start

  predicate ValidId(id: string) {
    0 < |id| <= 128 &&
    forall i :: 0 <= i < |id| ==>
      'a' <= id[i] <= 'z' || 'A' <= id[i] <= 'Z' || '0' <= id[i] <= '9' || id[i] == '-' || id[i] == '_'
  }

  predicate IsActive(w: World, at: Slot) {
    at in w.live && !w.live[at].done
  }

  /** A run that a dead process left unfinished is closed as interrupted. */
  function Repair(runs: seq<Run>): seq<Run> {
    var n := |runs|;
    if n > 0 && (runs[n - 1].state == Running || runs[n - 1].state == WaitingPermission) then
      runs[n - 1 := runs[n - 1].(state := Interrupted, ended := true,
        result := RunResult(runs[n - 1].id, "", "run interrupted before completion; inspect history", true))]
    else runs
  }

  /** The record that start would save, with every refusal in the source's order. */
  function Prepare(found: Option<AgentRecord>, cfg: Config, resume: bool, newRunId: string): Result<AgentRecord, StartError> {
    if resume && found.None? then Err(NotFound)
    else if !resume && found.Some? then Err(Exists)
    else if resume && found.value.workDir != cfg.workDir then Err(OutOfScope)
    else if resume && found.value.archived then Err(ArchivedAgent)
    else if resume && cfg.agentType != "" && cfg.agentType != found.value.agentType then Err(TypeChange)
    else if !resume && cfg.fork.None? then Err(InvalidFork)
    else
      var base :=
        if resume then found.value.(tools := Intersect(found.value.tools, cfg.tools))
        else AgentRecord(cfg.agentType, cfg.workDir, cfg.tools, "", false, [], Initial(cfg.fork.value), cfg.fork.value.messages);
      Continue(base, cfg, if cfg.runId == "" then newRunId else cfg.runId)
  }

  function Continue(base: AgentRecord, cfg: Config, runId: string): Result<AgentRecord, StartError> {
    var snapshot := Active(base.transcript, base.fork);
    if snapshot.None? then Err(InvalidContext)
    else
      var pending := Pending(snapshot.value);
      if pending != [] && !cfg.acknowledge then Err(Uncertain(pending))
      else if exists i :: 0 <= i < |base.runs| && base.runs[i].id == runId then Err(DuplicateRun)
      else
        var messages := Recovered(snapshot.value);
        var transcript := Applied(base.transcript, snapshot.value,
          Checkpoint(messages, base.transcript.workingSet, false), base.fork, 0);
        Ok(base.(
          runId := runId,
          runs := Repair(base.runs) + [Run(runId, base.tools, Running, false, NO_RESULT)],
          transcript := transcript))
  }

  function Begin(w: World, pid: Pid, cfg: Config, resume: bool, newRunId: string): Result<World, StartError> {
    var at := At(pid, cfg.id);
    if !ValidId(cfg.id) then Err(InvalidId)
    else if pid in w.closed then Err(Closed)
    else if IsActive(w, at) || cfg.id in w.locks then Err(Busy)
    else
      match Prepare(if cfg.id in w.disk then Some(w.disk[cfg.id]) else None, cfg, resume, newRunId)
      case Err(e) => Err(e)
      case Ok(r) => Ok(w.(
        disk := w.disk[cfg.id := r],
        locks := w.locks[cfg.id := pid],
        live := w.live[at := Live(r.runId, false, false, false, NO_RESULT, cfg.detached, r)],
        started := w.started[Key(at, r.runId) := cfg.detached]))
  }

  // ---------------------------------------------------------- the live run

  function SaveCheckpoint(w: World, at: Slot, cp: Checkpoint, now: int): World {
    if !IsActive(w, at) then w
    else
      var a := w.live[at];
      var next := Apply(a.record.transcript, cp, a.record.fork, now);
      if next.None? then w
      else
        var r := a.record.(transcript := next.value);
        w.(disk := w.disk[at.id := r], live := w.live[at := a.(record := r)])
  }

  /** cancelRun; an empty run id cancels whatever the entry runs. */
  function Cancel(w: World, at: Slot, runId: string): World {
    if at !in w.live then w
    else if runId != "" && w.live[at].runId != runId then w
    else if w.live[at].done || w.live[at].cancelled then w
    else w.(live := w.live[at := w.live[at].(cancelled := true)])
  }

  /** The run's context ends: its caller's did, or cancel or Close ended it. */
  function EndContext(w: World, at: Slot): World {
    if IsActive(w, at) && (!w.live[at].detached || w.live[at].cancelled || at.pid in w.closed) then
      w.(live := w.live[at := w.live[at].(ctxDone := true)])
    else w
  }

  function FinalState(a: Live, result: RunResult): RunState {
    if a.ctxDone || a.cancelled then Cancelled else if result.error != "" then Failed else Idle
  }

  function FinalResult(a: Live, result: RunResult): RunResult {
    var named := result.(runId := a.runId);
    if a.ctxDone || a.cancelled then
      named.(error := if result.error == "" then "context canceled" else result.error, noRetry := true)
    else named
  }

  /** The end of execute: the runner returned `result`. */
  function Complete(w: World, at: Slot, result: RunResult): World {
    if !IsActive(w, at) || w.live[at].record.runs == [] then w
    else
      var a := w.live[at];
      var n := |a.record.runs| - 1;
      var final, state := FinalResult(a, result), FinalState(a, result);
      var r := a.record.(runs := a.record.runs[n := a.record.runs[n].(state := state, ended := true, result := final)]);
      var event := Event(Key(at, a.runId), state, a.detached);
      w.(disk := w.disk[at.id := r],
         locks := w.locks - {at.id},
         live := w.live[at := a.(done := true, result := final)],
         completed := w.completed + [event],
         mailbox := if a.detached then w.mailbox + [event] else w.mailbox)
  }

  // ----------------------------------------------------- the whole process

  /** The registry entry takes over the record's status, whoever ran it last. */
  function Archive(w: World, at: Slot, workDir: string): World {
    if IsActive(w, at) || at.id in w.locks || at.id !in w.disk || w.disk[at.id].workDir != workDir then w
    else
      var r := w.disk[at.id].(archived := true);
      w.(disk := w.disk[at.id := r],
         live := if at in w.live then w.live[at := w.live[at].(runId := r.runId)] else w.live)
  }

  function Close(w: World, pid: Pid): World {
    w.(closed := w.closed + {pid})
  }

  function Crash(w: World, pid: Pid): World {
    w.(locks := map id | id in w.locks && w.locks[id] != pid :: w.locks[id],
       live := map at | at in w.live && at.pid != pid :: w.live[at],
       closed := w.closed - {pid},
       lost := w.lost + set at | at in w.live && at.pid == pid && !w.live[at].done :: Key(at, w.live[at].runId))
  }

  datatype Answer = Blocks | Answer(result: RunResult) | NoAnswer

  function FindRun(runs: seq<Run>, runId: string): (i: Option<nat>)
    ensures i.Some? ==> i.value < |runs| && runs[i.value].id == runId
    ensures i.None? ==> forall k :: 0 <= k < |runs| ==> runs[k].id != runId
  {
    if runs == [] then None
    else
      var n := |runs| - 1;
      var earlier := FindRun(runs[..n], runId);
      if earlier.Some? then earlier else if runs[n].id == runId then Some(n) else None
  }

  function WaitRun(w: World, at: Slot, runId: string): Answer {
    if at in w.live && w.live[at].runId == runId then
      if w.live[at].done then Answer(w.live[at].result) else Blocks
    else if at.id !in w.disk then NoAnswer
    else
      var i := FindRun(w.disk[at.id].runs, runId);
      if i.None? || !w.disk[at.id].runs[i.value].ended then NoAnswer
      else Answer(w.disk[at.id].runs[i.value].result)
  }

  // ------------------------------------------------------------ whole runs

  datatype Op =
    | StartOp(pid: Pid, cfg: Config, resume: bool, newRunId: string)
    | CheckpointOp(at: Slot, cp: Checkpoint, now: int)
    | CancelOp(at: Slot, runId: string)
    | EndContextOp(at: Slot)
    | CompleteOp(at: Slot, result: RunResult)
    | ArchiveOp(at: Slot, workDir: string)
    | CloseOp(pid: Pid)
    | CrashOp(pid: Pid)

  function Step(w: World, op: Op): World {
    match op
    case StartOp(pid, cfg, resume, newRunId) =>
      (match Begin(w, pid, cfg, resume, newRunId) case Ok(w') => w' case Err(_) => w)
    case CheckpointOp(at, cp, now) => SaveCheckpoint(w, at, cp, now)
    case CancelOp(at, runId) => Cancel(w, at, runId)
    case EndContextOp(at) => EndContext(w, at)
    case CompleteOp(at, result) => Complete(w, at, result)
    case ArchiveOp(at, workDir) => Archive(w, at, workDir)
    case CloseOp(pid) => Close(w, pid)
    case CrashOp(pid) => Crash(w, pid)
  }

  const FRESH := World(map[], map[], map[], {}, map[], {}, [], [])

  ghost function Exec(w: World, ops: seq<Op>): World {
    if ops == [] then w else Step(Exec(w, ops[..|ops| - 1]), ops[|ops| - 1])
  }

  /** The archiving process does not hold an entry for an older run. */
  predicate ArchivesItsOwn(w: World, at: Slot) {
    at in w.live && at.id in w.disk ==> w.live[at].runId == w.disk[at.id].runId
  }

  /** Archiving will go through: nobody works on the agent, and it is in scope. */
  predicate CanArchive(w: World, at: Slot, workDir: string) {
    !IsActive(w, at) && at.id !in w.locks && at.id in w.disk && w.disk[at.id].workDir == workDir
  }

  /** An archive through a process whose entry is about an older run. */
  predicate StaleArchive(w: World, op: Op) {
    op.ArchiveOp? && CanArchive(w, op.at, op.workDir) && !ArchivesItsOwn(w, op.at)
  }

  ghost predicate NoStaleArchive(w: World, ops: seq<Op>) {
    forall i :: 0 <= i < |ops| ==> !StaleArchive(Exec(w, ops[..i]), ops[i])
  }

  /** A compaction does not repeat a pure tool result. */
  predicate CompactsCleanly(op: Op) {
    op.CheckpointOp? && op.cp.compacted ==> NoRepeatedResults(op.cp.messages)
  }

  /** An ended run carries its own result; any other is running. */
  predicate RunOk(run: Run) {
    if run.ended then run.result.runId == run.id && run.state != Running && run.state != WaitingPermission
    else run.state == Running
  }

  ghost predicate RunsOk(runs: seq<Run>) {
    && runs != []
    && (forall i, j :: 0 <= i < j < |runs| ==> runs[i].id != runs[j].id)
    && (forall i :: 0 <= i < |runs| - 1 ==> runs[i].ended)
    && (forall i :: 0 <= i < |runs| ==> RunOk(runs[i]))
    && (forall i, j :: 0 <= i < j < |runs| ==> Narrower(runs[j].tools, runs[i].tools))
  }

  ghost predicate RecordOk(r: AgentRecord) {
    && RunsOk(r.runs)
    && r.tools == r.runs[|r.runs| - 1].tools
    && r.runId == r.runs[|r.runs| - 1].id
    && Whole(r.transcript, r.fork)
  }

  /** A live entry and its record agree on the run it is about. */
  ghost predicate LiveOk(w: World, at: Slot)
    requires at in w.live
  {
    var a := w.live[at];
    && at.id in w.disk && w.disk[at.id].runs != []
    && (!a.done ==>
          var r := w.disk[at.id];
          var last := |r.runs| - 1;
          && at.id in w.locks && w.locks[at.id] == at.pid && a.record == r
          && r.runs[last].id == a.runId && !r.runs[last].ended)
  }

  /** One of the runs ended with this result. */
  ghost predicate Recorded(runs: seq<Run>, runId: string, result: RunResult) {
    exists i :: 0 <= i < |runs| && runs[i].id == runId && runs[i].ended && runs[i].result == result
  }

  /** What an entry answers with is what was recorded for the run it is about. */
  ghost predicate AnswerOk(w: World, at: Slot)
    requires at in w.live
  {
    var a := w.live[at];
    a.done ==> at.id in w.disk && Recorded(w.disk[at.id].runs, a.runId, a.result)
  }

  ghost function Count(events: seq<Event>, key: Key): nat {
    if events == [] then 0
    else Count(events[..|events| - 1], key) + (if events[|events| - 1].key == key then 1 else 0)
  }

  ghost predicate IsLive(w: World, key: Key) {
    IsActive(w, key.slot) && w.live[key.slot].runId == key.runId
  }

  /** Every accepted start is live, lost with its process, or completed exactly once,
      and its completion is in the mailbox exactly when the start was detached. */
  ghost predicate Accounted(w: World, key: Key) {
    var total := Count(w.completed, key) + (if key in w.lost then 1 else 0) + (if IsLive(w, key) then 1 else 0);
    if key in w.started then
      && total == 1 && key.slot.id in w.disk && FindRun(w.disk[key.slot.id].runs, key.runId).Some?
      && Count(w.mailbox, key) == (if w.started[key] then Count(w.completed, key) else 0)
      && (IsLive(w, key) ==> w.live[key.slot].detached == w.started[key])
    else total == 0 && Count(w.mailbox, key) == 0
  }

  function DetachedOf(events: seq<Event>): seq<Event> {
    if events == [] then []
    else DetachedOf(events[..|events| - 1]) + (if events[|events| - 1].detached then [events[|events| - 1]] else [])
  }

  ghost predicate DiskOk(w: World) {
    forall id :: id in w.disk ==> RecordOk(w.disk[id])
  }

  ghost predicate LivesOk(w: World) {
    forall at :: at in w.live ==> LiveOk(w, at)
  }

  /** Between steps a lock is held by a live run, never by anything else. */
  ghost predicate LocksOk(w: World) {
    forall id :: id in w.locks ==> IsActive(w, At(w.locks[id], id))
  }

  ghost predicate AccountsOk(w: World) {
    && (forall key :: Accounted(w, key))
    && w.mailbox == DetachedOf(w.completed)
  }

  ghost predicate Inv(w: World) {
    DiskOk(w) && LivesOk(w) && LocksOk(w) && AccountsOk(w)
  }

  /** Every entry answers truly; kept while no archive is stale. */
  ghost predicate AnswersOk(w: World) {
    forall at :: at in w.live ==> AnswerOk(w, at)
  }

  /** No two places share an amendable message; kept while compactions are clean. */
  ghost predicate TranscriptsSound(w: World) {
    forall id :: id in w.disk ==> Sound(w.disk[id].transcript, w.disk[id].fork)
  }
}
