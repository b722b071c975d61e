/**
 Two short histories, from nothing, after which a process answers for a run with the
 result of another: the answers that RunLedger.ReachableAnswersAreTrue secures go wrong
 through a stale archive, whether the newest run has ended or died.
 */
module StaleAnswers {
  import opened Wrappers
  import opened Messages
  import opened Transcript
  import opened Lifecycle
  import opened RunLedger

  /** Everyone starts the same agent, with nothing in its fork. */
  function Plain(id: AgentId, workDir: string, runId: string): Config {
    Config(id, "", workDir, [], runId, true, false, Some(Snapshot([], "")))
  }

  function SpawnOp(id: AgentId, workDir: string, first: string): Op {
    StartOp(1, Plain(id, workDir, first), false, "")
  }

  function ResumeOp(id: AgentId, workDir: string, second: string): Op {
    StartOp(2, Plain(id, workDir, second), true, "")
  }

  /** Process 1 runs first to its end, then process 2 resumes with second. */
  function Opening(id: AgentId, workDir: string, first: string, second: string, a: RunResult): seq<Op> {
    [SpawnOp(id, workDir, first)] + [CompleteOp(At(1, id), a)] + [ResumeOp(id, workDir, second)]
  }

  lemma ExecSnoc(w: World, ops: seq<Op>, op: Op)
    ensures Exec(w, ops + [op]) == Step(Exec(w, ops), op)
  {
    assert (ops + [op])[..|ops|] == ops;
  }

  /** The agent's record: in scope, not archived, of no special type. */
  predicate Usable(w: World, id: AgentId, workDir: string) {
    id in w.disk && !w.disk[id].archived && w.disk[id].workDir == workDir && w.disk[id].agentType == ""
  }

  /** Process 1 is running first; nobody else has touched the agent. */
  predicate Running1(w: World, id: AgentId, workDir: string, first: string) {
    && w.closed == {} && Usable(w, id, workDir)
    && IsActive(w, At(1, id)) && w.live[At(1, id)].runId == first && w.live.Keys == {At(1, id)}
    && |w.disk[id].runs| == 1
  }

  /** Process 1 has run first to its end. */
  predicate Ended1(w: World, id: AgentId, workDir: string, first: string, a: RunResult) {
    && w.closed == {} && Usable(w, id, workDir)
    && At(1, id) in w.live && w.live[At(1, id)].done && w.live[At(1, id)].runId == first
    && w.live[At(1, id)].result == a.(runId := first) && w.live.Keys == {At(1, id)}
    && id !in w.locks && |w.disk[id].runs| == 1 && w.disk[id].runs[0].id == first
  }

  /** Process 2 is running second; process 1 still holds its entry for first. */
  predicate Running2(w: World, id: AgentId, workDir: string, first: string, second: string, a: RunResult) {
    && At(1, id) in w.live && w.live[At(1, id)].done && w.live[At(1, id)].runId == first
    && w.live[At(1, id)].result == a.(runId := first)
    && IsActive(w, At(2, id)) && w.live[At(2, id)].runId == second
    && id in w.disk && w.disk[id].runId == second && w.disk[id].workDir == workDir
  }

  ghost predicate Good(w: World) { Inv(w) && AnswersOk(w) }

  lemma GoodStep(w: World, op: Op)
    requires Good(w) && !op.ArchiveOp?
    ensures Good(Step(w, op))
  {
    StepKeeps(w, op);
    StepKeepsAnswers(w, op);
  }

  lemma SpawnGoesThrough(id: AgentId, workDir: string, first: string)
    requires ValidId(id) && first != ""
    ensures var w := Step(FRESH, StartOp(1, Plain(id, workDir, first), false, ""));
      Running1(w, id, workDir, first) && !w.live[At(1, id)].cancelled && !w.live[At(1, id)].ctxDone
  {
    InitialIsSound(Snapshot([], ""));
  }

  lemma FirstRunEnds(w: World, id: AgentId, workDir: string, first: string, a: RunResult)
    requires Running1(w, id, workDir, first) && !w.live[At(1, id)].cancelled && !w.live[At(1, id)].ctxDone
    requires LivesOk(w)
    ensures Ended1(Complete(w, At(1, id), a), id, workDir, first, a)
  {
    ActiveAgrees(w, At(1, id));
  }

  /** A resume that nothing speaks against is accepted. */
  lemma ResumeAccepted(w: World, id: AgentId, workDir: string, second: string)
    requires DiskOk(w) && ValidId(id) && second != "" && w.closed == {} && Usable(w, id, workDir)
    requires id !in w.locks && At(2, id) !in w.live
    requires forall i :: 0 <= i < |w.disk[id].runs| ==> w.disk[id].runs[i].id != second
    ensures Begin(w, 2, Plain(id, workDir, second), true, "").Ok?
  {
    assert RecordOk(w.disk[id]);
  }

  lemma SecondRunStarts(w: World, id: AgentId, workDir: string, first: string, second: string, a: RunResult)
    requires Ended1(w, id, workDir, first, a) && Begin(w, 2, Plain(id, workDir, second), true, "").Ok? && second != ""
    ensures Running2(Begin(w, 2, Plain(id, workDir, second), true, "").value, id, workDir, first, second, a)
  {
  }

  lemma AfterSpawn(id: AgentId, workDir: string, first: string)
    requires ValidId(id) && first != ""
    ensures var w := Exec(FRESH, [SpawnOp(id, workDir, first)]);
      && Good(w) && Running1(w, id, workDir, first)
      && !w.live[At(1, id)].cancelled && !w.live[At(1, id)].ctxDone
  {
    var op := SpawnOp(id, workDir, first);
    ExecSnoc(FRESH, [], op);
    assert [op] == [] + [op];
    FreshHolds();
    SpawnGoesThrough(id, workDir, first);
    GoodStep(FRESH, op);
  }

  lemma GoodLives(w: World)
    requires Good(w)
    ensures LivesOk(w)
  {
  }

  lemma ThenEnds(w: World, id: AgentId, workDir: string, first: string, a: RunResult)
    requires LivesOk(w) && Running1(w, id, workDir, first)
    requires !w.live[At(1, id)].cancelled && !w.live[At(1, id)].ctxDone
    ensures Ended1(Step(w, CompleteOp(At(1, id), a)), id, workDir, first, a)
  {
    FirstRunEnds(w, id, workDir, first, a);
  }

  lemma AfterFirstRun(id: AgentId, workDir: string, first: string, a: RunResult)
    requires ValidId(id) && first != ""
    ensures var w := Exec(FRESH, [SpawnOp(id, workDir, first)] + [CompleteOp(At(1, id), a)]);
      Good(w) && Ended1(w, id, workDir, first, a)
  {
    var w, op := Exec(FRESH, [SpawnOp(id, workDir, first)]), CompleteOp(At(1, id), a);
    AfterSpawn(id, workDir, first);
    ExecSnoc(FRESH, [SpawnOp(id, workDir, first)], op);
    GoodLives(w);
    ThenEnds(w, id, workDir, first, a);
    GoodStep(w, op);
  }

  lemma ThenResumes(w: World, id: AgentId, workDir: string, first: string, second: string, a: RunResult)
    requires Good(w) && Ended1(w, id, workDir, first, a) && ValidId(id) && second != "" && first != second
    ensures var w' := Step(w, ResumeOp(id, workDir, second)); Good(w') && Running2(w', id, workDir, first, second, a)
  {
    ResumeAccepted(w, id, workDir, second);
    SecondRunStarts(w, id, workDir, first, second, a);
    GoodStep(w, ResumeOp(id, workDir, second));
  }

  /** After the opening, process 1 still holds its entry for the first run. */
  lemma Opened(id: AgentId, workDir: string, first: string, second: string, a: RunResult)
    requires ValidId(id) && first != "" && second != "" && first != second
    ensures var w := Exec(FRESH, Opening(id, workDir, first, second, a));
      Good(w) && Running2(w, id, workDir, first, second, a)
  {
    var ops := [SpawnOp(id, workDir, first)] + [CompleteOp(At(1, id), a)];
    AfterFirstRun(id, workDir, first, a);
    ExecSnoc(FRESH, ops, ResumeOp(id, workDir, second));
    ThenResumes(Exec(FRESH, ops), id, workDir, first, second, a);
  }

  /** Nobody runs the agent, second is its newest run, process 1 has its entry for first. */
  predicate Settled(w: World, id: AgentId, workDir: string, first: string, second: string, a: RunResult) {
    && CanArchive(w, At(1, id), workDir) && w.disk[id].runId == second
    && At(1, id) in w.live && w.live[At(1, id)].done && w.live[At(1, id)].runId == first
    && w.live[At(1, id)].result == a.(runId := first)
  }

  lemma SecondEnds(w: World, id: AgentId, workDir: string, first: string, second: string, a: RunResult, b: RunResult)
    requires LivesOk(w) && Running2(w, id, workDir, first, second, a)
    ensures Settled(Complete(w, At(2, id), b), id, workDir, first, second, a)
  {
    ActiveAgrees(w, At(2, id));
  }

  lemma SecondDies(w: World, id: AgentId, workDir: string, first: string, second: string, a: RunResult)
    requires LivesOk(w) && Running2(w, id, workDir, first, second, a)
    ensures Settled(Crash(w, 2), id, workDir, first, second, a)
  {
    ActiveAgrees(w, At(2, id));
  }

  /** When process 1 archives now, it answers for second with the result of first. */
  lemma ArchiveMisleads(w: World, id: AgentId, workDir: string, first: string, second: string, a: RunResult)
    requires Settled(w, id, workDir, first, second, a)
    ensures WaitRun(Step(w, ArchiveOp(At(1, id), workDir)), At(1, id), second) == Answer(a.(runId := first))
  {
  }

  lemma EndedAnswersOwn(w: World, at: Slot, i: nat)
    requires Good(w) && at.id in w.disk && i < |w.disk[at.id].runs| && w.disk[at.id].runs[i].ended
    ensures var runId := w.disk[at.id].runs[i].id;
      WaitRun(w, at, runId).Answer? && WaitRun(w, at, runId).result.runId == runId
  {
    EndedRunAnswers(w, at, i);
    assert RecordOk(w.disk[at.id]) && RunOk(w.disk[at.id].runs[i]);
  }

  /** The last run on disk is runId, and it has ended. */
  predicate LastEnded(w: World, id: AgentId, runId: string) {
    id in w.disk && w.disk[id].runs != [] &&
    var runs := w.disk[id].runs;
    runs[|runs| - 1].id == runId && runs[|runs| - 1].ended
  }

  lemma SecondRunEnds(w: World, id: AgentId, second: string, b: RunResult)
    requires LivesOk(w) && IsActive(w, At(2, id)) && w.live[At(2, id)].runId == second
    ensures LastEnded(Complete(w, At(2, id), b), id, second)
  {
    ActiveAgrees(w, At(2, id));
  }

  lemma LastAnswers(w: World, id: AgentId, second: string)
    requires Good(w) && LastEnded(w, id, second)
    ensures WaitRun(w, At(1, id), second).Answer? && WaitRun(w, At(1, id), second).result.runId == second
  {
    EndedAnswersOwn(w, At(1, id), |w.disk[id].runs| - 1);
  }

  lemma ThenSecondEnds(w: World, id: AgentId, second: string, b: RunResult)
    requires LivesOk(w) && IsActive(w, At(2, id)) && w.live[At(2, id)].runId == second
    ensures LastEnded(Step(w, CompleteOp(At(2, id), b)), id, second)
  {
    SecondRunEnds(w, id, second, b);
  }

  lemma SecondAnswers(w: World, id: AgentId, second: string, b: RunResult)
    requires Good(w) && IsActive(w, At(2, id)) && w.live[At(2, id)].runId == second
    ensures var w' := Step(w, CompleteOp(At(2, id), b));
      WaitRun(w', At(1, id), second).Answer? && WaitRun(w', At(1, id), second).result.runId == second
  {
    GoodLives(w);
    ThenSecondEnds(w, id, second, b);
    GoodStep(w, CompleteOp(At(2, id), b));
    LastAnswers(Step(w, CompleteOp(At(2, id), b)), id, second);
  }

  lemma SecondIsLost(w: World, id: AgentId, workDir: string, first: string, second: string, a: RunResult)
    requires DiskOk(w) && LivesOk(w) && Running2(w, id, workDir, first, second, a) && first != second
    ensures WaitRun(Step(w, CrashOp(2)), At(1, id), second) == NoAnswer
  {
    ActiveAgrees(w, At(2, id));
    assert RecordOk(w.disk[id]);
    FindRunIs(w.disk[id].runs, |w.disk[id].runs| - 1);
  }

  /** From the opening on: process 2 dies, then process 1 archives. */
  lemma DeathMisleads(w: World, id: AgentId, workDir: string, first: string, second: string, a: RunResult)
    requires LivesOk(w) && Running2(w, id, workDir, first, second, a)
    ensures WaitRun(Step(Step(w, CrashOp(2)), ArchiveOp(At(1, id), workDir)), At(1, id), second) == Answer(a.(runId := first))
  {
    SecondDies(w, id, workDir, first, second, a);
    ArchiveMisleads(Crash(w, 2), id, workDir, first, second, a);
  }

  /** From the opening on: process 2 completes, then process 1 archives. */
  lemma EndMisleads(w: World, id: AgentId, workDir: string, first: string, second: string, a: RunResult, b: RunResult)
    requires LivesOk(w) && Running2(w, id, workDir, first, second, a)
    ensures WaitRun(Step(Step(w, CompleteOp(At(2, id), b)), ArchiveOp(At(1, id), workDir)), At(1, id), second) == Answer(a.(runId := first))
  {
    SecondEnds(w, id, workDir, first, second, a, b);
    ArchiveMisleads(Complete(w, At(2, id), b), id, workDir, first, second, a);
  }

  lemma ExecTwo(ops: seq<Op>, x: Op, y: Op)
    ensures Exec(FRESH, ops + [x]) == Step(Exec(FRESH, ops), x)
    ensures Exec(FRESH, ops + [x, y]) == Step(Step(Exec(FRESH, ops), x), y)
  {
    ExecSnoc(FRESH, ops, x);
    ExecSnoc(FRESH, ops + [x], y);
    assert ops + [x, y] == (ops + [x]) + [y];
  }

  /** The newest run has ended, and process 1 comes to answer for it with the older run's
      result instead of its own. */
  lemma AnswersWithOlderResult(id: AgentId, workDir: string, first: string, second: string, a: RunResult, b: RunResult)
    requires ValidId(id) && first != "" && second != "" && first != second
    ensures var opening, end := Opening(id, workDir, first, second, a), CompleteOp(At(2, id), b);
      && WaitRun(Exec(FRESH, opening + [end]), At(1, id), second).Answer?
      && WaitRun(Exec(FRESH, opening + [end]), At(1, id), second).result.runId == second
      && WaitRun(Exec(FRESH, opening + [end, ArchiveOp(At(1, id), workDir)]), At(1, id), second) == Answer(a.(runId := first))
  {
    var opening := Opening(id, workDir, first, second, a);
    Opened(id, workDir, first, second, a);
    ExecTwo(opening, CompleteOp(At(2, id), b), ArchiveOp(At(1, id), workDir));
    EndMisleads(Exec(FRESH, opening), id, workDir, first, second, a, b);
    SecondAnswers(Exec(FRESH, opening), id, second, b);
  }

  /** The newest run died with its process and has no result; process 1 comes to answer
      for it all the same. */
  lemma AnswersForALostRun(id: AgentId, workDir: string, first: string, second: string, a: RunResult)
    requires ValidId(id) && first != "" && second != "" && first != second
    ensures var opening := Opening(id, workDir, first, second, a);
      && WaitRun(Exec(FRESH, opening + [CrashOp(2)]), At(1, id), second) == NoAnswer
      && WaitRun(Exec(FRESH, opening + [CrashOp(2), ArchiveOp(At(1, id), workDir)]), At(1, id), second) == Answer(a.(runId := first))
  {
    var opening := Opening(id, workDir, first, second, a);
    Opened(id, workDir, first, second, a);
    ExecTwo(opening, CrashOp(2), ArchiveOp(At(1, id), workDir));
    SecondIsLost(Exec(FRESH, opening), id, workDir, first, second, a);
    DeathMisleads(Exec(FRESH, opening), id, workDir, first, second, a);
  }
}
