/** Which runs can still be brought to final approval, and which never again. */
module FinalReach {
  import opened Wrappers
  import opened ChunkPlan
  import opened ApprovalGates
  import opened AttemptLedger
  import opened RunState
  import opened ChunkDriver
  import opened Orchestrator
  import opened RunInvariant
  import opened DriverSafety
  import opened DriverTrace
  import opened RunSafety
  import opened RunTheorems
  import opened RunProgress
  import opened StrandedChunks
  import opened DeadChunks

  // ----- decided final gates -----------------------------------------------------------------

  predicate Verdict(g: Gate) {
    g == Gate(ForRun, Approved) || g == Gate(ForRun, GateStatus.Rejected)
  }

  /** A final gate was approved or rejected. */
  predicate HasVerdict(gates: seq<Gate>) {
    exists g :: 0 <= g < |gates| && Verdict(gates[g])
  }

  predicate NoNewVerdict(before: seq<Gate>, after: seq<Gate>) {
    forall g :: 0 <= g < |after| && Verdict(after[g]) ==> g < |before| && after[g] == before[g]
  }

  lemma VerdictStays(before: seq<Gate>, after: seq<Gate>)
    requires Grows(before, after) && HasVerdict(before)
    ensures HasVerdict(after)
  {
    var g :| 0 <= g < |before| && Verdict(before[g]);
    assert after[g] == before[g];
  }

  lemma FrameVerdict(s: State, r: State, n: int)
    requires Frame(s, r, n)
    ensures NoNewVerdict(s.gates, r.gates)
  {}

  lemma FinalizeVerdict(s: State)
    ensures NoNewVerdict(s.gates, Finalize(s).state.gates)
  {}

  lemma {:induction false} ExecuteVerdict(s: State, todo: seq<int>, sheet: AnswerSheet)
    requires Inv(s) && Queue(s, todo)
    ensures NoNewVerdict(s.gates, ExecuteFrom(s, todo, sheet).state.gates)
    decreases |todo|
  {
    hide Inv, Drive, Finalize, Verdict;
    if todo == [] {
      FinalizeVerdict(s);
    } else {
      var n, e, o := todo[0], Entry(Fresh, None), AnswersFor(sheet, todo[0]);
      assert Queued(s, n);
      DriveInv(s, n, e, o);
      DriveFrame(s, n, e, o);
      FrameVerdict(s, Drive(s, n, e, o).state, n);
      if Drive(s, n, e, o).end == ChunkCommitted {
        QueueTail(s, Drive(s, n, e, o).state, todo);
        ExecuteVerdict(Drive(s, n, e, o).state, todo[1..], sheet);
      }
    }
  }

  lemma {:induction false} ResumeVerdict(s: State, todo: seq<int>, sheet: AnswerSheet)
    requires Inv(s) && Queue(s, todo)
    ensures NoNewVerdict(s.gates, ResumeFrom(s, todo, sheet).state.gates)
    decreases |todo|
  {
    hide Inv, ResumeDrive, Finalize, Verdict;
    if todo == [] {
      FinalizeVerdict(s);
    } else {
      var n, o := todo[0], AnswersFor(sheet, todo[0]);
      assert Queued(s, n);
      ResumeDriveInv(s, n, o);
      FrameVerdict(s, ResumeDrive(s, n, o).state, n);
      if ResumeDrive(s, n, o).end == Drove(ChunkCommitted) {
        QueueTail(s, ResumeDrive(s, n, o).state, todo);
        ResumeVerdict(ResumeDrive(s, n, o).state, todo[1..], sheet);
      }
    }
  }

  lemma BatchVerdict(s: State, op: Op)
    requires Inv(s) && (op.DoExecute? || op.DoResume?)
    ensures NoNewVerdict(s.gates, Step(s, op).state.gates)
  {
    hide Inv, ExecuteFrom, ResumeFrom, Queue, DriftGuardAccepts, Verdict;
    NothingRunning(s);
    if op.DoExecute? {
      if ExecutePrelude(s, op.echecks).Go? {
        PendingQueue(s);
        ExecuteVerdict(s, Select(s, |s.plan|, {PendingChunk}), op.sheet);
      }
    } else if ResumePrelude(s, op.rchecks).Go? {
      var started := s.(run := ResumeRunning);
      RunStatusInv(s, ResumeRunning);
      ResumeQueue(started);
      ResumeVerdict(started, Select(started, |started.plan|, RESUMABLE), op.sheet);
    }
  }

  lemma DecidedChunkVerdict(gates: seq<Gate>, n: int, verdict: GateStatus, after: seq<Gate>)
    requires HasPending(gates, ForChunk(n))
    requires NoNewVerdict(Decide(gates, NewestPending(gates, ForChunk(n)), verdict), after)
    ensures NoNewVerdict(gates, after)
  {}

  lemma ApproveVerdict(s: State, n: int, o: ApproveAnswers)
    ensures NoNewVerdict(s.gates, Approve(s, n, o).state.gates)
  {
    hide UndoRefinement, Finalize, NoNewVerdict, MaxAttempt, AllCompleted, Decide;
    SameVerdict(s.gates);
    if StatusIs(s, n, AwaitingChunk) && o.loads && HasPending(s.gates, ForChunk(n)) {
      var decided := s.(gates := Decide(s.gates, NewestPending(s.gates, ForChunk(n)), Approved));
      SameVerdict(decided.gates);
      if s.chunks[n].summary.Refinement? && (!o.touches || s.treeClean) {
        UndoVerdict(decided, n, s.chunks[n].summary, RefinementNoOp);
      } else if o.touches && !s.treeClean && o.commitWorks {
        FinalizeVerdict(ApprovedCommit(s, n, o.residue));
      }
      DecidedChunkVerdict(s.gates, n, Approved, Approve(s, n, o).state.gates);
    }
  }

  lemma SameVerdict(gates: seq<Gate>)
    ensures NoNewVerdict(gates, gates)
  {}

  lemma UndoVerdict(s: State, n: int, fallback: Summary, reply: Reply)
    requires n in s.chunks && s.chunks[n].summary.Refinement?
    ensures NoNewVerdict(s.gates, UndoRefinement(s, n, fallback, reply).state.gates)
  {
    hide AllCompleted;
  }

  lemma RejectVerdict(s: State, n: int, loads: bool, o: RollbackAnswer)
    ensures NoNewVerdict(s.gates, Reject(s, n, loads, o).state.gates)
  {
    hide UndoRefinement, NoNewVerdict, Decide;
    SameVerdict(s.gates);
    if StatusIs(s, n, AwaitingChunk) && loads && o.RolledBack? && HasPending(s.gates, ForChunk(n)) {
      var gates := Decide(s.gates, NewestPending(s.gates, ForChunk(n)), GateStatus.Rejected);
      SameVerdict(gates);
      if s.chunks[n].summary.Refinement? {
        UndoVerdict(s.(treeClean := true, gates := gates), n, RetainedNote, RefinementRejected);
      }
      DecidedChunkVerdict(s.gates, n, GateStatus.Rejected, Reject(s, n, loads, o).state.gates);
    }
  }

  lemma RetryVerdict(s: State, n: int, kind: RetryKind, admitted: bool, o: Answers)
    ensures NoNewVerdict(s.gates, Retry(s, n, kind, admitted, o).state.gates)
  {
    hide Drive, NoNewVerdict;
    SameVerdict(s.gates);
    if n in s.chunks && 1 <= n <= |s.plan| {
      var e := Entry(if kind == SteeredRetry then Steered else HumanRetry, None);
      DriveFrame(s, n, e, o);
      FrameVerdict(s, Drive(s, n, e, o).state, n);
    }
  }

  lemma RefineVerdict(s: State, n: int, admitted: bool, o: Answers)
    ensures NoNewVerdict(s.gates, Refine(s, n, admitted, o).state.gates)
  {
    hide Drive, NoNewVerdict, SupersedeFinal, RefineEligible;
    SameVerdict(s.gates);
    if n in s.chunks && 1 <= n <= |s.plan| && RefineEligible(s, n) {
      var ready, e := RefinementStart(s), RefinementEntry(s, n);
      DriveFrame(ready, n, e, o);
      FrameVerdict(ready, Drive(ready, n, e, o).state, n);
      SupersededVerdict(s, Drive(ready, n, e, o).state.gates);
    }
  }

  lemma SupersededVerdict(s: State, after: seq<Gate>)
    requires NoNewVerdict(RefinementStart(s).gates, after)
    ensures NoNewVerdict(s.gates, after)
  {}

  /** The operation decides a pending final gate, by the final-approval route or the generic one. */
  predicate DecidesFinal(s: State, op: Op) {
    || (op.DoDecideFinal? && op.admitted && HasPending(s.gates, ForRun))
    || (op.DoDecideGate? && 0 <= op.gate < |s.gates| && s.gates[op.gate] == Gate(ForRun, Pending))
  }

  lemma VerdictIff(s: State, op: Op)
    requires Inv(s)
    ensures HasVerdict(Step(s, op).state.gates) <==> HasVerdict(s.gates) || DecidesFinal(s, op)
  {
    hide Inv, ExecuteRun, ResumeRun, Approve, Reject, Retry, Refine, DecideGate, DecideFinal;
    hide NoNewVerdict, HasVerdict, DecidesFinal;
    StepInv(s, op);
    if HasVerdict(s.gates) {
      VerdictStays(s.gates, Step(s, op).state.gates);
    }
    SameVerdict(s.gates);
    match op
    case DoDecideGate(g, approve) => DecidedVerdict(s, op);
    case DoDecideFinal(approve, admitted) => DecidedVerdict(s, op);
    case _ =>
      match op {
        case DoExecute(_, _) => BatchVerdict(s, op);
        case DoResume(_, _) => BatchVerdict(s, op);
        case DoApprove(n, o) => ApproveVerdict(s, n, o);
        case DoReject(n, loads, o) => RejectVerdict(s, n, loads, o);
        case DoRetry(n, kind, admitted, o) => RetryVerdict(s, n, kind, admitted, o);
        case DoRefine(n, admitted, o) => RefineVerdict(s, n, admitted, o);
        case _ =>
      }
      OldVerdict(s, op);
  }

  lemma OldVerdict(s: State, op: Op)
    requires NoNewVerdict(s.gates, Step(s, op).state.gates) && !op.DoDecideGate? && !op.DoDecideFinal?
    ensures HasVerdict(Step(s, op).state.gates) ==> HasVerdict(s.gates)
    ensures !DecidesFinal(s, op)
  {
    hide Step;
  }

  lemma DecidedVerdict(s: State, op: Op)
    requires op.DoDecideGate? || op.DoDecideFinal?
    ensures HasVerdict(Step(s, op).state.gates) <==> HasVerdict(s.gates) || DecidesFinal(s, op)
  {
    hide HasVerdict;
    if op.DoDecideGate? {
      if 0 <= op.gate < |s.gates| {
        OneDecided(s.gates, op.gate, if op.approve then Approved else GateStatus.Rejected);
      }
    } else if HasPending(s.gates, ForRun) {
      OneDecided(s.gates, NewestPending(s.gates, ForRun), if op.approve then Approved else GateStatus.Rejected);
    }
  }

  lemma OneDecided(gates: seq<Gate>, g: int, verdict: GateStatus)
    requires 0 <= g < |gates| && (verdict == Approved || verdict == GateStatus.Rejected)
    ensures HasVerdict(Decide(gates, g, verdict)) <==> HasVerdict(gates) || gates[g] == Gate(ForRun, Pending)
  {
    var r := Decide(gates, g, verdict);
    if HasVerdict(gates) {
      var k :| 0 <= k < |gates| && Verdict(gates[k]);
      assert Verdict(r[k]);
    } else if gates[g] == Gate(ForRun, Pending) {
      assert Verdict(r[g]);
    }
  }

  // ----- shut runs -----------------------------------------------------------------------------

  predicate Stuck(s: State, n: int) {
    Stranded(s, n) || Dead(s, n)
  }

  /** A chunk is stranded or dead, or a final gate was decided. */
  ghost predicate Shut(s: State) {
    HasVerdict(s.gates) || exists n :: Stuck(s, n)
  }

  /** The step strands or kills a chunk or decides the final gate. */
  ghost predicate Shuts(s: State, op: Op) {
    DecidesFinal(s, op) || exists n :: n in s.chunks && (Strands(s, op, n) || Kills(s, op, n))
  }

  lemma StuckIsChunk(s: State, n: int)
    requires Stuck(s, n)
    ensures n in s.chunks && s.chunks[n].status != Completed
  {}

  /** A run is shut after a step exactly if it was before or the step shuts it. */
  lemma ShutIff(s: State, op: Op)
    requires Inv(s) && Checkpoints(s)
    ensures Shut(Step(s, op).state) <==> Shut(s) || Shuts(s, op)
  {
    hide Inv, Checkpoints, Step, HasVerdict, DecidesFinal, Strands, Kills, Stranded, Dead, Revives;
    var r := Step(s, op).state;
    VerdictIff(s, op);
    StepInv(s, op);
    forall n | n in s.chunks
      ensures Stranded(r, n) <==> Stranded(s, n) || Strands(s, op, n)
      ensures Dead(r, n) <==> (Dead(s, n) && !Revives(s, op, n)) || Kills(s, op, n)
    {
      StrandsIff(s, op, n);
      DeadIff(s, op, n);
    }
    forall n | n in s.chunks && (Strands(s, op, n) || Kills(s, op, n)) ensures Shut(r) {
      assert Stuck(r, n);
    }
    forall n | Stuck(s, n) ensures Shut(r) {
      StuckIsChunk(s, n);
      if Revives(s, op, n) {
        RevivesStranded(s, op, n);
        StrandedStays(s, op);
        var m :| Stranded(r, m);
        assert Stuck(r, m);
      } else {
        assert Stuck(r, n);
      }
    }
    forall n | Stuck(r, n) ensures Shut(s) || Shuts(s, op) {
      StuckIsChunk(r, n);
      assert n in s.chunks;
      if Stranded(s, n) || Dead(s, n) {
        assert Stuck(s, n);
      }
    }
  }

  lemma {:induction false} ShutForever(s: State, ops: seq<Op>)
    requires Inv(s) && Checkpoints(s) && Shut(s)
    ensures !HasPending(RunOps(s, ops).gates, ForRun)
    decreases |ops|
  {
    hide Inv, Checkpoints, Step, Shut, Shuts;
    if ops == [] {
      ShutMeans(s);
    } else {
      StepInv(s, ops[0]);
      ShutIff(s, ops[0]);
      DeadIff(s, ops[0], 1);
      ShutForever(Step(s, ops[0]).state, ops[1..]);
    }
  }

  /** A pending final gate means that every chunk is completed, and comes behind no decided one. */
  lemma ShutMeans(s: State)
    requires Inv(s) && Shut(s)
    ensures !HasPending(s.gates, ForRun)
  {
    hide HistoryOk, ApprovalsOk, ReopenOk, LedgerTracks, ChunksOk, Stuck;
    if exists n :: Stuck(s, n) {
      var n :| Stuck(s, n);
      StuckIsChunk(s, n);
    } else {
      VerdictNotPending(s.gates);
    }
  }

  lemma VerdictNotPending(gates: seq<Gate>)
    requires Disciplined(gates) && HasVerdict(gates)
    ensures !HasPending(gates, ForRun)
  {
    var g :| 0 <= g < |gates| && Verdict(gates[g]);
    if HasPending(gates, ForRun) {
      OneFinalDecision(gates, g, NewestPending(gates, ForRun));
    }
  }

  // ----- open runs can finish --------------------------------------------------------------------

  ghost predicate Open(s: State) {
    Inv(s) && Checkpoints(s) && !Shut(s)
  }

  lemma {:induction false} RunOpsConcat(s: State, a: seq<Op>, b: seq<Op>)
    ensures RunOps(s, a + b) == RunOps(RunOps(s, a), b)
    decreases |a|
  {
    if a == [] {
      assert a + b == b;
    } else {
      RunOpsConcat(Step(s, a[0]).state, a[1..], b);
      assert (a + b)[1..] == a[1..] + b;
    }
  }

  lemma RunTwo(s: State, a: Op, b: Op)
    ensures RunOps(s, [a, b]) == Step(Step(s, a).state, b).state
  {
    assert [a, b][1..] == [b] && [b][1..] == [];
    assert RunOps(Step(s, a).state, [b]) == RunOps(Step(Step(s, a).state, b).state, []);
  }

  lemma OpenStep(s: State, op: Op)
    requires Open(s) && !Shuts(s, op)
    ensures Open(Step(s, op).state) && Advances(s, Step(s, op).state)
  {
    hide Inv, Checkpoints, Step, Shut, Shuts, Advances;
    StepInv(s, op);
    ShutIff(s, op);
    DeadIff(s, op, 1);
  }

  lemma TreeStep(s: State, clean: bool)
    requires Open(s)
    ensures Open(s.(treeClean := clean)) && Step(s, HumanTouchesTree(clean)).state == s.(treeClean := clean)
  {
    hide Inv, Checkpoints, Shut, Stranded, Dead;
    assert !Shuts(s, HumanTouchesTree(clean));
    OpenStep(s, HumanTouchesTree(clean));
  }

  lemma OpenMeans(s: State, n: int)
    requires Open(s) && n in s.chunks
    ensures 1 <= n <= |s.plan| && !Stranded(s, n) && !Dead(s, n)
    ensures n in s.chunks && CheckpointOk(s, n) && s.chunks[n].status != Running
    ensures Committed(s.history, n) ==> s.chunks[n].status == Completed || s.chunks[n].status == AwaitingChunk
  {
    hide Stranded, Dead, CheckpointOk;
    assert !Stuck(s, n);
    assert ChunkOk(s.plan, s.history, n, s.chunks[n]);
  }

  const WELL_APPROVED := ApproveAnswers(true, true, true, false)

  /** Bring the patch into the tree and approve: the waiting chunk is committed. */
  lemma ApproveNext(s: State, n: int) returns (ops: seq<Op>)
    requires Open(s) && StatusIs(s, n, AwaitingChunk)
    ensures var r := RunOps(s, ops);
            && Open(r) && s.history <= r.history && Committed(r.history, n) && r.plan == s.plan
            && r.chunks.Keys == s.chunks.Keys && StatusIs(r, n, Completed)
            && forall m :: m in s.chunks && m != n ==> r.chunks[m] == s.chunks[m]
  {
    hide Inv, Checkpoints, Shut, Shuts, Open, Stranded, Dead, Approve;
    var ready, op := s.(treeClean := false), DoApprove(n, WELL_APPROVED);
    ops := [HumanTouchesTree(false), op];
    RunTwo(s, HumanTouchesTree(false), op);
    TreeStep(s, false);
    OpenMeans(s, n);
    NotStrandedWaits(s, n);
    ApprovalKeepsOpen(ready, n);
    OpenStep(ready, op);
    ApprovalCommits(ready, n);
  }

  lemma NotStrandedWaits(s: State, n: int)
    requires StatusIs(s, n, AwaitingChunk) && !Stranded(s, n)
    ensures HasPending(s.gates, ForChunk(n))
  {}

  lemma ApprovalKeepsOpen(s: State, n: int)
    requires !s.treeClean
    ensures !Shuts(s, DoApprove(n, WELL_APPROVED))
  {}

  lemma ApprovalCommits(s: State, n: int)
    requires StatusIs(s, n, AwaitingChunk) && HasPending(s.gates, ForChunk(n)) && !s.treeClean
    ensures var r := Approve(s, n, WELL_APPROVED).state;
            && s.history <= r.history && Committed(r.history, n) && r.plan == s.plan
            && r.chunks.Keys == s.chunks.Keys && StatusIs(r, n, Completed)
            && forall m :: m in s.chunks && m != n ==> r.chunks[m] == s.chunks[m]
  {
    hide AllCompleted, OpenFinalGate, MaxAttempt, Decide;
    var r := Approve(s, n, WELL_APPROVED).state;
    assert r.history == s.history + [r.history[|s.history|]];
    CommitAppended(s.history, r.history[|s.history|], n);
  }

  function Waiting(s: State): set<int> {
    set n | n in s.chunks && s.chunks[n].status == AwaitingChunk
  }

  /** Approve every waiting chunk. */
  lemma SettleWaiting(s: State) returns (ops: seq<Op>)
    requires Open(s)
    ensures var r := RunOps(s, ops);
            Open(r) && s.history <= r.history && r.chunks.Keys == s.chunks.Keys && Waiting(r) == {}
    decreases |Waiting(s)|
  {
    hide Open, RunOps;
    NoOps(s);
    if n :| n in Waiting(s) {
      var first := ApproveNext(s, n);
      var mid := RunOps(s, first);
      forall m ensures m in Waiting(mid) <==> m in Waiting(s) && m != n {
        assert m in mid.chunks <==> m in s.chunks;
      }
      assert Waiting(mid) == Waiting(s) - {n};
      var rest := SettleWaiting(mid);
      ops := first + rest;
      RunOpsConcat(s, first, rest);
    } else {
      ops := [];
      assert forall n :: n !in Waiting(s);
      assert Waiting(s) == {};
    }
  }

  lemma NoOps(s: State)
    ensures RunOps(s, []) == s
  {}

  // ----- helpful answers ---------------------------------------------------------------------------

  const PASSING := Attempt(CodeWritten, PreflightClear, Applied, TestsPassed(true))
  const HELPFUL := Answers(false, PASSING, PASSING, true, false, true, false)

  /** Given them, a pass over a chunk whose gate does not refuse commits or pauses. */
  lemma HelpfulPass(s: State, n: int, mode: EntryMode)
    requires n in s.chunks && 1 <= n <= |s.plan| && ReachesLoop(s, n, HELPFUL) && !GateRefuses(s.gates, n)
    ensures var d := Drive(s, n, Entry(mode, None), HELPFUL);
            d.end == if HumanMode(mode) || s.plan[n - 1].needsReview then ChunkPaused else ChunkCommitted
  {
    hide AttemptLoop, MaxAttempt, OpenChunkGate, GateRefuses, CommitChunk;
    var e, running := Entry(mode, None), SetStatus(s, n, Running).(run := RunningChunks);
    LoopSigns(running, n, e, HELPFUL);
    LoopDrive(s, n, e, HELPFUL);
    var looped := AttemptLoop(running, n, e, HELPFUL, mode, 0);
    PauseRefusedIff(looped.state, n);
    PauseRefusedIff(SetSummary(looped.state, n, Recovered), n);
  }

  // ----- the next chunk ------------------------------------------------------------------------------

  /** Chunk n is next: everything before it is completed and nothing waits. */
  ghost predicate NextUp(s: State, n: int) {
    && Waiting(s) == {} && n in s.chunks && s.chunks[n].status != Completed
    && forall m :: m in s.chunks && m < n ==> s.chunks[m].status == Completed
  }

  lemma DriftAccepts(s: State)
    requires Inv(s)
    ensures DriftGuardAccepts(s.ledger, s.history)
  {
    LatestIsTip(s.ledger, s.history);
  }

  lemma FirstListed(todo: seq<int>)
    ensures todo == [] || todo[0] in todo
  {}

  lemma NobodyWaits(s: State)
    requires Waiting(s) == {}
    ensures Select(s, |s.plan|, {AwaitingChunk}) == []
  {
    var waiting := Select(s, |s.plan|, {AwaitingChunk});
    FirstListed(waiting);
    assert forall n :: n in waiting ==> n in Waiting(s);
  }

  lemma ResumeStarts(s: State)
    requires Inv(s) && Waiting(s) == {} && s.treeClean
    ensures ResumePrelude(s, ResumeClear) == Go(s.(run := ResumeRunning))
  {
    hide Inv, DriftGuardAccepts;
    DriftAccepts(s);
    NobodyWaits(s);
    NothingRunning(s);
  }

  lemma DependenciesBefore(s: State, n: int)
    requires Inv(s) && NextUp(s, n)
    ensures 1 <= n <= |s.plan| && DependenciesMet(s, n)
  {
    forall d | d in DependenciesOf(s.plan, n) ensures StatusIs(s, d, Completed) {
      assert 1 <= d < n;
    }
  }

  /** Resume with helpful answers for the next chunk gets it committed or waiting. */
  lemma ResumeNext(s: State, n: int)
    requires Inv(s) && NextUp(s, n) && s.treeClean && Queued(s, n) && CheckpointOk(s, n) && !s.chunks[n].tested
    ensures var r := ResumeRun(s, ResumeClear, map[n := HELPFUL]).state;
            Committed(r.history, n) || StatusIs(r, n, AwaitingChunk)
  {
    hide Inv, Drive, CheckpointOk, NextUp;
    var sheet, start := map[n := HELPFUL], s.(run := ResumeRunning);
    var e := Entry(EntryMode.Resume, None);
    NextIsQueued(s, n);
    ResumeStarts(s);
    DependenciesBefore(s, n);
    RunStatusInv(s, ResumeRunning);
    ResumeQueue(start);
    FirstInLine(s, n);
    FreshHasNoGate(s, n);
    HelpfulPass(start, n, EntryMode.Resume);
    if Drive(start, n, e, HELPFUL).end == ChunkPaused {
      PausedPass(start, n, e, HELPFUL);
    } else {
      ResumeCommits(start, n, Select(start, |s.plan|, RESUMABLE), sheet);
    }
  }

  lemma ResumeCommits(s: State, n: int, todo: seq<int>, sheet: AnswerSheet)
    requires Inv(s) && Queue(s, todo) && todo != [] && todo[0] == n && Queued(s, n)
    requires AnswersFor(sheet, n) == HELPFUL && ResumeDrive(s, n, HELPFUL).end == Drove(ChunkCommitted)
    ensures Committed(ResumeFrom(s, todo, sheet).state.history, n)
  {
    hide Inv, Drive, Queue, Frame;
    PlanOfInv(s, n);
    CommittedPass(s, n, Entry(EntryMode.Resume, None), HELPFUL);
    ResumeDriveInv(s, n, HELPFUL);
    var d := ResumeDrive(s, n, HELPFUL);
    QueueTail(s, d.state, todo);
    ResumeFromInv(d.state, todo[1..], sheet);
    StaysCommitted(s.history, d.state.history, ResumeFrom(d.state, todo[1..], sheet).state.history, n);
  }

  lemma NextIsQueued(s: State, n: int)
    requires NextUp(s, n)
    ensures n in s.chunks && Waiting(s) == {}
  {}

  lemma StaysCommitted(before: History, mid: History, after: History, n: int)
    requires |mid| == |before| + 1 && mid[|before|].chunk == n && mid <= after
    ensures Committed(after, n)
  {
    assert after[|before|].chunk == n;
  }

  lemma FirstInLine(s: State, n: int)
    requires Inv(s) && NextUp(s, n) && Queued(s, n)
    ensures var todo := Select(s.(run := ResumeRunning), |s.plan|, RESUMABLE); todo != [] && todo[0] == n
  {
    var start := s.(run := ResumeRunning);
    hide HistoryOk, ApprovalsOk, GatesOk, ReopenOk, LedgerTracks, ChunksOk;
    var todo := Select(start, |s.plan|, RESUMABLE);
    assert n in todo;
    FirstListed(todo);
  }

  /** So does a retry of a tested chunk that is not dead. */
  lemma RetryNext(s: State, n: int)
    requires Inv(s) && NextUp(s, n) && s.treeClean && StatusIs(s, n, Failed)
    requires s.chunks[n].tested && !Dead(s, n)
    ensures StatusIs(Retry(s, n, PlainRetry, true, HELPFUL).state, n, AwaitingChunk)
  {
    hide Inv, Drive, NextUp, GateRefuses;
    DependenciesBefore(s, n);
    HelpfulPass(s, n, HumanRetry);
    PausedPass(s, n, Entry(HumanRetry, None), HELPFUL);
  }

  lemma ResumeKeepsOpen(s: State, n: int)
    requires Inv(s) && NextUp(s, n) && s.treeClean && Queued(s, n) && CheckpointOk(s, n) && !s.chunks[n].tested
    ensures !Shuts(s, DoResume(ResumeClear, map[n := HELPFUL]))
  {
    hide Inv, CheckpointOk, Drive, ResumeMeets, Select;
    ResumeStarts(s);
    NextIsQueued(s, n);
    var sheet, start := map[n := HELPFUL], s.(run := ResumeRunning);
    var todo := Select(start, |s.plan|, RESUMABLE);
    forall m ensures !ResumeKills(start, todo, sheet, m) {
      FirstInLine(s, n);
      if m == n {
        assert ResumeMeets(start, todo, sheet, n) == Some(start) by {
          MeetsFirst(start, todo, sheet);
        }
      }
    }
  }

  lemma MeetsFirst(s: State, todo: seq<int>, sheet: AnswerSheet)
    requires Todo(s, todo) && todo != []
    ensures ResumeMeets(s, todo, sheet, todo[0]) == Some(s)
  {}

  /** From an open run the next chunk can be committed. */
  lemma CommitNext(s: State, n: int) returns (ops: seq<Op>)
    requires Open(s) && NextUp(s, n)
    ensures var r := RunOps(s, ops);
            Open(r) && s.history <= r.history && Committed(r.history, n) && r.chunks.Keys == s.chunks.Keys
  {
    hide Inv, Checkpoints, Shut, Shuts, RunOps, Retry, ResumeRun, Dead, CheckpointOk, NextUp;
    var ready := s.(treeClean := true);
    TreeStep(s, true);
    NextStatus(s, n);
    SameNext(s, n);
    var op := if s.chunks[n].tested then DoRetry(n, PlainRetry, true, HELPFUL)
        else DoResume(ResumeClear, map[n := HELPFUL]);
    if s.chunks[n].tested {
      RetryNext(ready, n);
      RetryKeepsOpen(ready, n);
    } else {
      ResumeNext(ready, n);
      ResumeKeepsOpen(ready, n);
    }
    OpenStep(ready, op);
    var mid := Step(ready, op).state;
    RunTwo(s, HumanTouchesTree(true), op);
    ops := [HumanTouchesTree(true), op];
    if !Committed(mid.history, n) {
      var more := ApproveNext(mid, n);
      RunOpsConcat(s, ops, more);
      ops := ops + more;
    }
  }

  lemma NextStatus(s: State, n: int)
    requires Open(s) && NextUp(s, n)
    ensures n in s.chunks && !Dead(s, n) && CheckpointOk(s, n) && Queued(s, n)
    ensures s.chunks[n].tested ==> StatusIs(s, n, Failed)
  {
    hide Inv, Checkpoints, Shut, GateRefuses;
    OpenMeans(s, n);
    assert n !in Waiting(s);
  }

  /** A clean tree changes nothing about the chunk. */
  lemma SameNext(s: State, n: int)
    requires NextUp(s, n) && Queued(s, n) && CheckpointOk(s, n) && !Dead(s, n)
    ensures var r := s.(treeClean := true);
            NextUp(r, n) && Queued(r, n) && CheckpointOk(r, n) && !Dead(r, n)
  {
    assert Waiting(s.(treeClean := true)) == Waiting(s);
  }

  lemma RetryKeepsOpen(s: State, n: int)
    ensures !Shuts(s, DoRetry(n, PlainRetry, true, HELPFUL))
  {}

  // ----- the last step -----------------------------------------------------------------------------

  /** With every chunk completed, resume opens final approval. */
  lemma FinishCompleted(s: State) returns (ops: seq<Op>)
    requires Open(s) && AllCompleted(s)
    ensures HasPending(RunOps(s, ops).gates, ForRun)
  {
    hide Inv, Shut, Checkpoints, RunOps, HasPending, AllCompleted, ResumeFrom;
    var ready, op := s.(treeClean := true), DoResume(ResumeClear, map[]);
    ops := [HumanTouchesTree(true), op];
    RunTwo(s, HumanTouchesTree(true), op);
    TreeStep(s, true);
    NothingToResume(s);
    ResumeStarts(ready);
    OpenFacts(s);
    FinalOpens(ready.(run := ResumeRunning));
  }

  lemma NothingToResume(s: State)
    requires AllCompleted(s)
    ensures var ready := s.(treeClean := true);
            var start := ready.(run := ResumeRunning);
            && Waiting(ready) == {} && AllCompleted(start) && Select(start, |s.plan|, RESUMABLE) == []
            && forall sheet :: ResumeFrom(start, [], sheet) == Finalize(start)
  {
    FirstListed(Select(s.(treeClean := true, run := ResumeRunning), |s.plan|, RESUMABLE));
  }

  lemma OpenFacts(s: State)
    requires Open(s)
    ensures Disciplined(s.gates) && !HasVerdict(s.gates)
  {
    hide HistoryOk, ApprovalsOk, ReopenOk, LedgerTracks, ChunksOk, HasVerdict, Checkpoints;
  }

  lemma FinalOpens(s: State)
    requires AllCompleted(s) && s.treeClean && Disciplined(s.gates) && !HasVerdict(s.gates)
    ensures HasPending(Finalize(s).state.gates, ForRun)
  {
    hide AllCompleted, HasPending, Disciplined;
    var g := Newest(s.gates, ForRun);
    assert g >= 0 ==> !Verdict(s.gates[g]);
    OpenFinalGateKeeps(s.gates);
  }

  function Uncommitted(s: State): set<int> {
    set n | n in s.chunks && !Committed(s.history, n)
  }

  lemma CommittedGrows(before: History, after: History, n: int)
    requires before <= after && Committed(before, n)
    ensures Committed(after, n)
  {
    assert after[LastCommit(before, n)].chunk == n;
  }

  lemma FewerUncommitted(s: State, r: State)
    requires s.history <= r.history && r.chunks.Keys == s.chunks.Keys
    ensures Uncommitted(r) <= Uncommitted(s)
    ensures |Uncommitted(r)| <= |Uncommitted(s)|
    ensures forall n :: n in Uncommitted(s) && Committed(r.history, n) ==> |Uncommitted(r)| < |Uncommitted(s)|
  {
    forall n | n in Uncommitted(r) ensures n in Uncommitted(s) {
      if Committed(s.history, n) {
        CommittedGrows(s.history, r.history, n);
      }
    }
    SubsetSize(Uncommitted(r), Uncommitted(s));
    forall n | n in Uncommitted(s) && Committed(r.history, n) ensures |Uncommitted(r)| < |Uncommitted(s)| {
      SubsetSize(Uncommitted(r), Uncommitted(s) - {n});
    }
  }

  lemma SubsetSize(a: set<int>, b: set<int>)
    requires a <= b
    ensures |a| <= |b|
  {
    assert b == a + (b - a);
  }

  lemma LeastOpen(s: State, k: int) returns (n: int)
    requires Inv(s) && Waiting(s) == {} && !AllCompleted(s) && 1 <= k
    requires forall m :: m in s.chunks && m < k ==> s.chunks[m].status == Completed
    ensures NextUp(s, n)
    decreases |s.plan| - k
  {
    hide HistoryOk, ChunksOk, ApprovalsOk, GatesOk, ReopenOk, LedgerTracks, Waiting;
    if k in s.chunks && s.chunks[k].status != Completed {
      n := k;
    } else {
      n := LeastOpen(s, k + 1);
    }
  }

  /** Helpful answers bring every open run to a pending final gate. */
  lemma CanFinish(s: State) returns (ops: seq<Op>)
    requires Open(s)
    ensures HasPending(RunOps(s, ops).gates, ForRun)
    decreases |Uncommitted(s)|
  {
    hide Inv, Checkpoints, Shut, RunOps, HasPending, AllCompleted, Waiting, Uncommitted;
    var first := SettleWaiting(s);
    var mid := RunOps(s, first);
    FewerUncommitted(s, mid);
    var rest: seq<Op>;
    if AllCompleted(mid) {
      rest := FinishCompleted(mid);
    } else {
      FromOne(mid);
      var n := LeastOpen(mid, 1);
      var next := CommitNext(mid, n);
      var later := RunOps(mid, next);
      StillUncommitted(mid, n);
      FewerUncommitted(mid, later);
      var last := CanFinish(later);
      rest := next + last;
      RunOpsConcat(mid, next, last);
    }
    ops := first + rest;
    RunOpsConcat(s, first, rest);
  }

  lemma FromOne(s: State)
    requires Inv(s)
    ensures forall m :: m in s.chunks ==> 1 <= m
  {}

  lemma StillUncommitted(s: State, n: int)
    requires Open(s) && NextUp(s, n)
    ensures n in Uncommitted(s)
  {
    hide Inv, Checkpoints, Shut;
    OpenMeans(s, n);
    assert n !in Waiting(s);
  }

  /** Every reachable run can still be brought to a pending final gate exactly if none of its
      chunks is stranded or dead and no final gate was decided. */
  lemma FinalReachableIff(s: State)
    requires Reachable(s)
    ensures (exists ops :: HasPending(RunOps(s, ops).gates, ForRun)) <==> !Shut(s)
  {
    hide Inv, Checkpoints, Shut, RunOps, HasPending, Reachable;
    ReachableInv(s);
    ReachableCheckpoints(s);
    if Shut(s) {
      forall ops ensures !HasPending(RunOps(s, ops).gates, ForRun) {
        ShutForever(s, ops);
      }
    } else {
      var ops := CanFinish(s);
    }
  }

  // ----- a final gate decided behind the run's back ----------------------------------------------------

  predicate FinallyDecided(run: RunStatus) {
    run == FinalApproved || run == FinalRejected
  }

  /** All chunks are completed and the final gate is decided, but the run goes on waiting. */
  ghost predicate Frozen(s: State) {
    AllCompleted(s) && HasVerdict(s.gates) && s.run != ChunkApproved
  }

  /** The same rows, and no new decision of the run. */
  predicate OnlyRunChanged(s: State, r: State) {
    && r.chunks == s.chunks && r.history == s.history && r.gates == s.gates && r.ledger == s.ledger
    && r.plan == s.plan && (FinallyDecided(r.run) ==> FinallyDecided(s.run))
  }

  lemma NothingPending(s: State)
    requires Inv(s) && Frozen(s)
    ensures forall g :: 0 <= g < |s.gates| ==> s.gates[g].status != Pending
    ensures !HasPending(s.gates, ForRun) && Finalize(s) == Outcome(s, Raised)
    ensures forall run :: Finalize(s.(run := run)) == Outcome(s.(run := run), Raised)
  {
    hide HistoryOk, ApprovalsOk, ReopenOk, LedgerTracks, ChunksOk;
    VerdictNotPending(s.gates);
    NoPendingOutside(s.gates, ForRun);
    var g :| 0 <= g < |s.gates| && Verdict(s.gates[g]);
    NewestVerdict(s.gates, g);
  }

  lemma NewestVerdict(gates: seq<Gate>, g: int)
    requires Disciplined(gates) && 0 <= g < |gates| && Verdict(gates[g])
    ensures Newest(gates, ForRun) == g && OpenFinalGate(gates).None?
  {
    assert !Closed(gates[g]);
  }

  lemma NothingListed(s: State, wanted: set<ChunkStatus>)
    requires AllCompleted(s) && Completed !in wanted
    ensures Select(s, |s.plan|, wanted) == []
  {
    FirstListed(Select(s, |s.plan|, wanted));
  }

  lemma BatchFrozen(s: State, op: Op)
    requires Inv(s) && Frozen(s) && (op.DoExecute? || op.DoResume?)
    ensures OnlyRunChanged(s, Step(s, op).state) && Step(s, op).state.run != ChunkApproved
  {
    hide Inv, Finalize, HasVerdict, DriftGuardAccepts;
    NothingPending(s);
    NothingRunning(s);
    NothingListed(s, {PendingChunk});
    if op.DoResume? {
      NothingListed(s.(run := ResumeRunning), RESUMABLE);
    }
  }

  lemma FrozenStep(s: State, op: Op)
    requires Inv(s) && Frozen(s)
    ensures OnlyRunChanged(s, Step(s, op).state) && Frozen(Step(s, op).state)
  {
    hide Inv, HasVerdict, ExecuteRun, ResumeRun, Drive;
    NothingPending(s);
    if op.DoExecute? || op.DoResume? {
      BatchFrozen(s, op);
    }
  }

  lemma {:induction false} FrozenForever(s: State, ops: seq<Op>)
    requires Inv(s) && Frozen(s)
    ensures OnlyRunChanged(s, RunOps(s, ops))
    decreases |ops|
  {
    hide Inv, Frozen, Step;
    if ops != [] {
      StepInv(s, ops[0]);
      FrozenStep(s, ops[0]);
      FrozenForever(Step(s, ops[0]).state, ops[1..]);
    }
  }

  /** Deciding a pending final gate through the generic route freezes the run: whatever happens
      later, nothing is committed, refined or re-opened, and the run is never finally approved or
      rejected. */
  lemma GenericFinalDecisionFreezes(s: State, g: int, approve: bool, ops: seq<Op>)
    requires Reachable(s) && 0 <= g < |s.gates| && s.gates[g] == Gate(ForRun, Pending)
    ensures var decided := Step(s, DoDecideGate(g, approve));
            && decided.reply == GateDecided && decided.state.run == s.run
            && OnlyRunChanged(decided.state, RunOps(decided.state, ops))
  {
    hide Reachable, OnlyRunChanged, HistoryOk, ApprovalsOk, ReopenOk, LedgerTracks, ChunksOk;
    ReachableInv(s);
    var op := DoDecideGate(g, approve);
    StepInv(s, op);
    assert HasPending(s.gates, ForRun);
    OneDecided(s.gates, g, if approve then Approved else GateStatus.Rejected);
    FrozenForever(Step(s, op).state, ops);
  }
}
