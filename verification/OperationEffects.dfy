/** What each operation on a run does to the rows, said of the rows alone: when it is turned away,
    what it writes otherwise, and what it replies. */
module OperationEffects {
  import opened Wrappers
  import opened ChunkPlan
  import opened ApprovalGates
  import opened AttemptLedger
  import opened RunState
  import opened ChunkDriver
  import opened Orchestrator
  import opened RunInvariant
  import opened DriverSafety
  import opened DriverTrace
  import opened RunSafety
  import opened RunTheorems
  import opened RunProgress
  import opened StrandedChunks
  import opened DeadChunks
  import opened FinalReach

  /** No chunk, gate, commit or ledger row changed, nor did the tree. */
  predicate SameRows(s: State, r: State) {
    && r.plan == s.plan && r.chunks == s.chunks && r.gates == s.gates
    && r.history == s.history && r.ledger == s.ledger && r.treeClean == s.treeClean
  }

  /** The first new row of the ledger is chunk n's, under this mode. */
  predicate DrivesFirst(s: State, r: State, n: int, mode: EntryMode) {
    && |s.ledger| < |r.ledger| && s.ledger <= r.ledger
    && r.ledger[|s.ledger|].chunk == n && r.ledger[|s.ledger|].mode == mode
  }

  /** Every stage of the attempt answers well. */
  predicate AllPass(a: Attempt) {
    && a.code == CodeWritten && a.preflight == PreflightClear && a.apply == Applied
    && (a.tests == TestsPassed(true) || a.tests == TestsPassed(false))
  }

  /** Whether an attempt that began on a clean tree and did not pass leaves it clean. */
  predicate LeavesClean(a: Attempt) {
    if a.code != CodeWritten || a.preflight != PreflightClear then true
    else
      match a.apply
      case ApplyRaised(clean) => clean
      case ApplyBlocked(clean) => clean
      case Applied =>
        match a.tests
        case TestsPassed(leavesPatch) => !leavesPatch
        case TestsFailed(_, clean) => clean
        case TestsFailedRollbackRaised(clean) => clean
        case TestsRaised(clean) => clean
  }

  lemma PassesIff(a: Attempt)
    ensures Passes(a) <==> AllPass(a)
  {}

  lemma AttemptTree(s: State, n: int, a: Attempt)
    requires n in s.chunks && s.treeClean
    ensures RunAttempt(s, n, a).state.treeClean == LeavesClean(a)
  {}

  lemma HumanLoop(s: State, n: int, e: Entry, o: Answers)
    requires n in s.chunks && s.treeClean && HumanMode(e.mode)
    ensures var r := AttemptLoop(s, n, e, o, e.mode, 0);
            r.state.treeClean == LeavesClean(o.first) && (r.end == Verified <==> AllPass(o.first))
  {
    AttemptTree(s, n, o.first);
    AttemptSigns(s, n, o.first);
    PassesIff(o.first);
  }

  // ----- refine ------------------------------------------------------------------------------

  /** All that the door of a refinement asks for. */
  predicate RefineDoor(s: State, n: int) {
    && n in s.chunks && 1 <= n <= |s.plan| && s.chunks[n].status == Completed
    && (s.run == ChunkApproved || (s.run == AwaitingFinalApproval && HasPending(s.gates, ForRun)))
    && (forall d :: d in s.plan[n - 1].dependsOn ==> d in s.chunks && s.chunks[d].status == Completed)
    && s.treeClean && HumanRows(s.ledger, n) < 2
  }

  /** The positions of the chunk's rows that use up its human attempts. */
  function HumanAttempts(ledger: seq<Row>, n: int): set<nat> {
    set i: nat | i < |ledger| && ledger[i].chunk == n && ledger[i].status != AttemptCompleted
                 && (ledger[i].mode == HumanRetry || ledger[i].mode == Steered)
  }

  lemma {:induction false} HumanRowsAreCounted(ledger: seq<Row>, n: int)
    ensures HumanRows(ledger, n) == |HumanAttempts(ledger, n)|
    decreases |ledger|
  {
    if ledger != [] {
      var front := ledger[..|ledger| - 1];
      HumanRowsAreCounted(front, n);
      var last := HumanAttempts(ledger, n) - HumanAttempts(front, n);
      assert HumanAttempts(front, n) <= HumanAttempts(ledger, n);
      assert HumanAttempts(ledger, n) == HumanAttempts(front, n) + last;
      assert last == if |ledger| - 1 in HumanAttempts(ledger, n) then {|ledger| - 1} else {};
    }
  }

  /** A refinement that is turned away changes nothing; any other drives the chunk once. */
  lemma RefineTurnedAway(s: State, n: int, admitted: bool, o: Answers)
    ensures var r := Step(s, DoRefine(n, admitted, o));
            if admitted && RefineDoor(s, n) then r.reply == ChunkNotDone(n) && DrivesFirst(s, r.state, n, Steered)
            else r.state == s && (r.reply == Ineligible || r.reply == Raised)
  {
    hide Drive, RefineEligible, RefineDoor, DrivesFirst;
    DoorIff(s, n);
    if admitted && RefineDoor(s, n) {
      DriveTrace(RefinementStart(s), n, RefinementEntry(s, n), o);
      FirstRow(s, RefinementStart(s), n, RefinementEntry(s, n), o);
    }
  }

  lemma DoorIff(s: State, n: int)
    ensures RefineDoor(s, n) <==>
              n in s.chunks && 1 <= n <= |s.plan| && RefineEligible(s, n)
              && (s.run == AwaitingFinalApproval ==> HasPending(s.gates, ForRun))
  {
    if n in s.chunks && 1 <= n <= |s.plan| {
      assert DependenciesMet(s, n) <==>
               forall d :: d in s.plan[n - 1].dependsOn ==> d in s.chunks && s.chunks[d].status == Completed by {
        assert DependenciesOf(s.plan, n) == s.plan[n - 1].dependsOn;
      }
    }
  }

  lemma FirstRow(s: State, start: State, n: int, e: Entry, o: Answers)
    requires n in start.chunks && 1 <= n <= |start.plan| && start.ledger == s.ledger
    ensures DrivesFirst(s, Drive(start, n, e, o).state, n, e.mode)
  {
    hide Drive;
    DriveTrace(start, n, e, o);
  }

  /** How an admitted refinement ends: it waits for approval exactly if its attempt passes; else the
      commit stands with its summary, and the run goes back to where it was if the tree is clean
      and fails if it could not be cleaned. */
  lemma RefineEnds(s: State, n: int, o: Answers)
    requires Reachable(s) && RefineDoor(s, n)
    ensures var r := Step(s, DoRefine(n, true, o)).state;
            && n in r.chunks && r.history == s.history && r.chunks.Keys == s.chunks.Keys
            && (forall m :: m in s.chunks && m != n ==> r.chunks[m] == s.chunks[m])
            && (if !o.planRaises && AllPass(o.first) then
                  && r.chunks[n].status == AwaitingChunk && r.run == AwaitingChunkApproval
                  && HasPending(r.gates, ForChunk(n)) && !HasPending(r.gates, ForRun)
                  && r.treeClean == LeavesClean(o.first)
                else
                  && r.chunks[n].status == Completed && r.chunks[n].summary == s.chunks[n].summary
                  && r.treeClean == (o.planRaises || LeavesClean(o.first) || o.restoreCleans)
                  && (if r.treeClean then
                        r.run == s.run && (HasPending(r.gates, ForRun) <==> HasPending(s.gates, ForRun))
                      else r.run == RunFailed && !HasPending(r.gates, ForRun)))
  {
    hide Drive, Reachable, RefinementStart, RefinementEntry, Drivable, HasPending, Refine, LeavesClean;
    hide HistoryOk, ApprovalsOk, ReopenOk, LedgerTracks;
    ReachableInv(s);
    RefineAdmits(s, n, o);
    RefineIsDrive(s, n, o);
    RefineFrame(s, n, o);
    RefinementPass(s, n, o);
    if !o.planRaises && AllPass(o.first) {
      PausedRefinementEnds(s, n, o);
    } else {
      BrokenRefinementEnds(s, n, o);
      RefinementAdmitted(s, n, o);
      if Refine(s, n, true, o).state.treeClean {
        FailedRefinementIsUndo(s, n, o);
      }
    }
  }

  lemma PausedRefinementEnds(s: State, n: int, o: Answers)
    requires Inv(s) && RefineDoor(s, n)
    requires Refine(s, n, true, o).state == Drive(RefinementStart(s), n, RefinementEntry(s, n), o).state
    requires Drive(RefinementStart(s), n, RefinementEntry(s, n), o).end == ChunkPaused && AllPass(o.first)
    ensures var r := Refine(s, n, true, o).state;
            && n in r.chunks && r.chunks[n].status == AwaitingChunk && r.run == AwaitingChunkApproval
            && r.history == s.history && HasPending(r.gates, ForChunk(n)) && !HasPending(r.gates, ForRun)
            && r.treeClean == LeavesClean(o.first)
  {
    hide Drive, Refine, HasPending, Inv, SupersedeFinal;
    PausedPass(RefinementStart(s), n, RefinementEntry(s, n), o);
    RefineInv(s, n, true, o);
    WaitingNotFinal(Refine(s, n, true, o).state, n);
  }

  lemma RefineAdmits(s: State, n: int, o: Answers)
    requires RefineDoor(s, n)
    ensures Refine(s, n, true, o).reply == ChunkNotDone(n)
  {
    hide Drive;
  }

  lemma WaitingNotFinal(s: State, n: int)
    requires Inv(s) && StatusIs(s, n, AwaitingChunk)
    ensures !HasPending(s.gates, ForRun)
  {}

  /** The pass of an admitted refinement gets to its attempt. */
  lemma RefinementPass(s: State, n: int, o: Answers)
    requires Inv(s) && RefineDoor(s, n)
    ensures var start, e := RefinementStart(s), RefinementEntry(s, n);
            Drive(start, n, e, o).end == if !o.planRaises && AllPass(o.first) then ChunkPaused else ChunkBroken
  {
    hide AttemptLoop, RestoreCompleted, MaxAttempt, PauseAtGate, SupersedeFinal;
    hide HistoryOk, ApprovalsOk, ReopenOk, LedgerTracks, ChunksOk, HasPending, Disciplined;
    var start, e := RefinementStart(s), RefinementEntry(s, n);
    StartIsDisciplined(s);
    var running := SetStatus(start, n, Running).(run := RunningChunks);
    LoopSigns(running, n, e, o);
    HumanLoop(running, n, e, o);
    LoopGate(AttemptLoop(running, n, e, o, e.mode, 0).state, n, e.refinement.value);
    if ReachesLoop(start, n, o) {
      LoopDrive(start, n, e, o);
    }
  }

  lemma StartIsDisciplined(s: State)
    requires Disciplined(s.gates)
    ensures Disciplined(RefinementStart(s).gates)
  {
    SupersedeKeeps(s.gates);
  }

  /** The refinement opt-in opens a gate behind any decided one. */
  lemma LoopGate(s: State, n: int, ctx: RefinementContext)
    requires n in s.chunks && Disciplined(s.gates)
    ensures PauseAtGate(SetSummary(s, n, Refinement(ctx.priorRun, ctx.superseded, ctx.prior)), n, true).Some?
  {}

  /** A refinement that does not pause keeps commits, chunks and summaries, and fails the run if it
      leaves the tree dirty. */
  lemma BrokenRefinementEnds(s: State, n: int, o: Answers)
    requires Inv(s) && RefineDoor(s, n) && (o.planRaises || !AllPass(o.first))
    ensures var r := Drive(RefinementStart(s), n, RefinementEntry(s, n), o).state;
            && n in r.chunks && r.chunks[n].status == Completed && r.chunks[n].summary == s.chunks[n].summary
            && r.history == s.history
            && r.treeClean == (o.planRaises || LeavesClean(o.first) || o.restoreCleans)
            && (!r.treeClean ==> r.run == RunFailed && !HasPending(r.gates, ForRun))
  {
    hide AttemptLoop, RestoreCompleted, FinishVerified, HasPending;
    hide HistoryOk, ApprovalsOk, ReopenOk, LedgerTracks, ChunksOk, Disciplined, SupersedeFinal;
    var start, e := RefinementStart(s), RefinementEntry(s, n);
    StartHasNoFinal(s);
    var running := SetStatus(start, n, Running).(run := RunningChunks);
    var ctx := e.refinement.value;
    assert ReachesLoop(start, n, o) <==> !o.planRaises;
    if o.planRaises {
      RestoredRows(Record(running, n, e.mode, AttemptFailed), n, ctx, o.restoreCleans);
    } else {
      LoopSigns(running, n, e, o);
      HumanLoop(running, n, e, o);
      LoopDrive(start, n, e, o);
      var looped := AttemptLoop(running, n, e, o, e.mode, 0);
      RestoredRows(Record(looped.state, n, e.mode, AttemptFailed), n, ctx, o.restoreCleans);
      RestoredRows(Record(looped.state, n, looped.mode, AttemptFailed), n, ctx, o.restoreCleans);
    }
  }

  lemma RestoredRows(s: State, n: int, ctx: RefinementContext, restoreCleans: bool)
    requires n in s.chunks
    ensures var r := RestoreCompleted(s, n, ctx, restoreCleans);
            && n in r.chunks && r.chunks[n].status == Completed && r.chunks[n].summary == s.chunks[n].summary
            && r.history == s.history && r.treeClean == (s.treeClean || restoreCleans)
            && (!r.treeClean ==> r.run == RunFailed && r.gates == s.gates)
  {
    hide AllCompleted;
  }

  /** A refinement starts with final approval closed. */
  lemma StartHasNoFinal(s: State)
    requires Inv(s) && (s.run == ChunkApproved || s.run == AwaitingFinalApproval)
    ensures !HasPending(RefinementStart(s).gates, ForRun)
  {
    SupersedeKeeps(s.gates);
  }

  // ----- execute -----------------------------------------------------------------------------

  predicate SomeRunning(s: State) {
    exists n :: n in s.chunks && s.chunks[n].status == Running
  }

  /** The checks in front of the chunk loop, in order: any that is not clear, and a dirty tree, ends
      the execute before it touches a row. */
  lemma ExecuteChecked(s: State, checks: ExecuteChecks, sheet: AnswerSheet)
    ensures var r := Step(s, DoExecute(checks, sheet));
            var clear := !SomeRunning(s) && s.treeClean;
            && (SomeRunning(s) || !s.treeClean || checks != ExecuteClear ==> SameRows(s, r.state))
            && (SomeRunning(s) ==> r.state.run == s.run && r.reply == AlreadyRunning)
            && (!SomeRunning(s) && (!s.treeClean || checks == RepoInvalid) ==>
                  r.state.run == RunFailed && r.reply == Raised)
            && (clear && checks == MemoryConflict ==>
                  r.state.run == AwaitingMemoryConflict && r.reply == PausedForMemoryConflict)
            && (clear && checks == StartDrift ==> r.state.run == s.run && r.reply == StartDrifted)
            && (clear && checks == BranchRaises ==> r.state.run == s.run && r.reply == Raised)
            && (clear && checks == BaselineBad ==> r.state.run == RunFailed && r.reply == BaselineFailed)
  {}

  /** The lowest chunk with one of the statuses. */
  predicate Lowest(s: State, n: int, wanted: set<ChunkStatus>) {
    && n in s.chunks && s.chunks[n].status in wanted
    && forall m :: m in s.chunks && s.chunks[m].status in wanted ==> n <= m
  }

  lemma LowestIsFirst(s: State, n: int, wanted: set<ChunkStatus>)
    requires Inv(s) && Lowest(s, n, wanted)
    ensures var todo := Select(s, |s.plan|, wanted); todo != [] && todo[0] == n
  {
    hide HistoryOk, ApprovalsOk, GatesOk, ReopenOk, LedgerTracks, ChunksOk;
    var todo := Select(s, |s.plan|, wanted);
    assert n in todo;
    assert todo[0] in todo;
  }

  lemma NoneSelected(s: State, wanted: set<ChunkStatus>)
    requires forall m :: m in s.chunks ==> s.chunks[m].status !in wanted
    ensures Select(s, |s.plan|, wanted) == []
  {
    FirstListed(Select(s, |s.plan|, wanted));
  }

  /** With clear checks it does start: the lowest pending chunk is driven first. */
  lemma ExecuteStarts(s: State, sheet: AnswerSheet, n: int)
    requires Reachable(s) && s.treeClean && Lowest(s, n, {PendingChunk})
    ensures DrivesFirst(s, Step(s, DoExecute(ExecuteClear, sheet)).state, n, Fresh)
  {
    hide Reachable, Drive, Inv, DrivesFirst, Lowest, Select, Queue;
    ReachableInv(s);
    NothingRunning(s);
    NobodyRuns(s);
    LowestIsFirst(s, n, {PendingChunk});
    PendingQueue(s);
    PlanOfLowest(s, n, {PendingChunk});
    var todo := Select(s, |s.plan|, {PendingChunk});
    LoopDrivesFirst(s, todo, sheet);
  }

  lemma NobodyRuns(s: State)
    requires Inv(s)
    ensures !SomeRunning(s)
  {
    forall n | n in s.chunks ensures s.chunks[n].status != Running {
      assert ChunkOk(s.plan, s.history, n, s.chunks[n]);
    }
  }

  lemma PlanOfLowest(s: State, n: int, wanted: set<ChunkStatus>)
    requires Inv(s) && Lowest(s, n, wanted)
    ensures 1 <= n <= |s.plan| && n in s.chunks && s.chunks[n].status in wanted
  {}

  lemma LoopDrivesFirst(s: State, todo: seq<int>, sheet: AnswerSheet)
    requires Inv(s) && Queue(s, todo) && todo != []
    ensures DrivesFirst(s, ExecuteFrom(s, todo, sheet).state, todo[0], Fresh)
  {
    hide Inv, Drive;
    var n, e, o := todo[0], Entry(Fresh, None), AnswersFor(sheet, todo[0]);
    assert Queued(s, n);
    FirstRow(s, s, n, e, o);
    DriveInv(s, n, e, o);
    DriveFrame(s, n, e, o);
    var d := Drive(s, n, e, o);
    if d.end == ChunkCommitted {
      QueueTail(s, d.state, todo);
      ExecuteFromInv(d.state, todo[1..], sheet);
    }
  }

  /** Final approval opens, and otherwise nothing happens. */
  ghost predicate OpensFinal(s: State, r: Outcome) {
    if AllCompleted(s) && s.treeClean && FinalUndecided(s.gates) then
      && r.reply == FinalApprovalOpened && r.state.run == AwaitingFinalApproval && HasPending(r.state.gates, ForRun)
      && r.state.chunks == s.chunks && r.state.history == s.history && r.state.ledger == s.ledger
    else r.reply == Raised && SameRows(s, r.state)
  }

  lemma FinalizeOpens(s: State)
    requires Disciplined(s.gates)
    ensures OpensFinal(s, Finalize(s))
  {
    hide AllCompleted, Disciplined;
    if OpenFinalGate(s.gates).Some? {
      OpenFinalGateKeeps(s.gates);
    }
  }

  /** With nothing left to do, an execute or a resume on a clean tree opens final approval exactly
      if every chunk is completed and the final gate is not decided. */
  lemma NothingLeft(s: State, sheet: AnswerSheet)
    requires Reachable(s) && s.treeClean
    ensures (forall m :: m in s.chunks ==> s.chunks[m].status != PendingChunk) ==>
              OpensFinal(s, Step(s, DoExecute(ExecuteClear, sheet)))
    ensures (forall m :: m in s.chunks ==> s.chunks[m].status == Completed) ==>
              OpensFinal(s, Step(s, DoResume(ResumeClear, sheet)))
  {
    hide Reachable, Inv, Finalize, OpensFinal, FinalUndecided;
    ReachableInv(s);
    NobodyRuns(s);
    DisciplinedInv(s);
    FinalizeOpens(s);
    if forall m :: m in s.chunks ==> s.chunks[m].status != PendingChunk {
      NoneSelected(s, {PendingChunk});
    }
    if forall m :: m in s.chunks ==> s.chunks[m].status == Completed {
      NothingToResume(s, sheet);
    }
  }

  lemma NothingToResume(s: State, sheet: AnswerSheet)
    requires Inv(s) && s.treeClean && forall m :: m in s.chunks ==> s.chunks[m].status == Completed
    ensures OpensFinal(s, Step(s, DoResume(ResumeClear, sheet)))
  {
    hide Inv, Finalize, DriftGuardAccepts, FinalUndecided;
    var start := s.(run := ResumeRunning);
    AcceptsDrift(s);
    NothingRunning(s);
    NoneSelected(s, {AwaitingChunk});
    NoneSelected(start, RESUMABLE);
    DisciplinedInv(s);
    FinalizeOpens(start);
  }

  lemma AcceptsDrift(s: State)
    requires Inv(s)
    ensures DriftGuardAccepts(s.ledger, s.history)
  {
    LatestIsTip(s.ledger, s.history);
  }

  // ----- resume ------------------------------------------------------------------------------

  /** The lowest waiting chunk still has its gate pending. */
  predicate GateInTheWay(s: State, n: int) {
    Lowest(s, n, {AwaitingChunk}) && HasPending(s.gates, ForChunk(n))
  }

  /** The checks of a resume, in order; none of them touches a row. */
  lemma ResumeChecked(s: State, checks: ResumeChecks, sheet: AnswerSheet)
    requires Reachable(s)
    ensures var r := Step(s, DoResume(checks, sheet));
            && (checks != ResumeClear || !s.treeClean ==> SameRows(s, r.state))
            && (checks == BranchUnavailable ==> r.state.run == s.run && r.reply == Raised)
            && (forall n :: checks != BranchUnavailable && GateInTheWay(s, n) ==>
                  r.state == s && r.reply == StillAwaitingChunk(n))
            && (checks != BranchUnavailable && (forall n :: !GateInTheWay(s, n)) ==>
                  && (!s.treeClean ==> r.state.run == s.run && r.reply == Raised)
                  && (s.treeClean && checks == ResumeMemoryConflict ==>
                        r.state.run == AwaitingMemoryConflict && r.reply == PausedForMemoryConflict)
                  && (s.treeClean && checks == ResumeBaselineBad ==>
                        r.state.run == RunFailed && r.reply == BaselineFailed))
  {
    hide Reachable, Inv, Lowest, DriftGuardAccepts, ResumeFrom, Select, HasPending;
    ReachableInv(s);
    AcceptsDrift(s);
    NothingRunning(s);
    WaitingFirst(s);
    if forall n :: !GateInTheWay(s, n) {
      NoGateFirst(s);
    }
  }

  lemma WaitingFirst(s: State)
    requires Inv(s)
    ensures var waiting := Select(s, |s.plan|, {AwaitingChunk});
            && (forall n :: Lowest(s, n, {AwaitingChunk}) ==> waiting != [] && waiting[0] == n)
            && (waiting != [] ==> Lowest(s, waiting[0], {AwaitingChunk}))
  {
    hide Inv, Lowest;
    forall n | Lowest(s, n, {AwaitingChunk}) ensures |Select(s, |s.plan|, {AwaitingChunk})| > 0
      && Select(s, |s.plan|, {AwaitingChunk})[0] == n
    {
      LowestIsFirst(s, n, {AwaitingChunk});
    }
    FirstIsLowest(s, {AwaitingChunk});
  }

  lemma FirstIsLowest(s: State, wanted: set<ChunkStatus>)
    requires Inv(s)
    ensures var todo := Select(s, |s.plan|, wanted); todo != [] ==> Lowest(s, todo[0], wanted)
  {
    hide HistoryOk, ApprovalsOk, GatesOk, ReopenOk, LedgerTracks, ChunksOk;
    var todo := Select(s, |s.plan|, wanted);
    FirstListed(todo);
    forall m | m in s.chunks && s.chunks[m].status in wanted ensures todo != [] && todo[0] <= m {
      assert m in todo;
    }
  }

  /** With clear checks it does start, with the lowest resumable chunk: an untested one is driven,
      a tested one failed for its dependencies or raised on. */
  lemma ResumeStarts(s: State, sheet: AnswerSheet, n: int)
    requires Reachable(s) && s.treeClean && (forall m :: !GateInTheWay(s, m))
    requires Lowest(s, n, {PendingChunk, Failed, RejectedChunk})
    ensures 1 <= n <= |s.plan|
    ensures var r := Step(s, DoResume(ResumeClear, sheet));
            if !s.chunks[n].tested then DrivesFirst(s, r.state, n, EntryMode.Resume)
            else if forall d :: d in s.plan[n - 1].dependsOn ==> d in s.chunks && s.chunks[d].status == Completed then
              SameRows(s, r.state) && r.state.run == RunFailed && r.reply == Raised
            else
              && DrivesFirst(s, r.state, n, EntryMode.Resume) && r.state.run == RunFailed && r.reply == ChunkNotDone(n)
              && r.state.chunks == s.chunks[n := s.chunks[n].(status := Failed)] && r.state.history == s.history
  {
    hide Reachable, Inv, Drive, DriftGuardAccepts, Select, Queue, GateInTheWay, Lowest, ResumeFrom, HasPending;
    ReachableInv(s);
    AcceptsDrift(s);
    NothingRunning(s);
    NoGateFirst(s);
    PlanOfLowest(s, n, {PendingChunk, Failed, RejectedChunk});
    var start := s.(run := ResumeRunning);
    RunStatusInv(s, ResumeRunning);
    ResumeQueue(start);
    ResumableFirst(s, n);
    assert DependenciesOf(s.plan, n) == s.plan[n - 1].dependsOn;
    ResumeLoopFirst(start, Select(start, |start.plan|, RESUMABLE), sheet);
  }

  lemma NoGateFirst(s: State)
    requires Inv(s) && forall m :: !GateInTheWay(s, m)
    ensures var waiting := Select(s, |s.plan|, {AwaitingChunk});
            waiting == [] || !HasPending(s.gates, ForChunk(waiting[0]))
  {
    hide Inv, Lowest, HasPending;
    WaitingFirst(s);
    var waiting := Select(s, |s.plan|, {AwaitingChunk});
    if waiting != [] {
      assert !GateInTheWay(s, waiting[0]);
    }
  }

  lemma ResumableFirst(s: State, n: int)
    requires Inv(s) && Lowest(s, n, {PendingChunk, Failed, RejectedChunk})
    ensures var todo := Select(s.(run := ResumeRunning), |s.plan|, RESUMABLE); todo != [] && todo[0] == n
  {
    NobodyRuns(s);
    RunStatusInv(s, ResumeRunning);
    LowestIsFirst(s.(run := ResumeRunning), n, RESUMABLE);
  }

  lemma ResumeLoopFirst(s: State, todo: seq<int>, sheet: AnswerSheet)
    requires Inv(s) && Queue(s, todo) && todo != []
    ensures 1 <= todo[0] <= |s.plan| && todo[0] in s.chunks
    ensures var n, r := todo[0], ResumeFrom(s, todo, sheet);
            if !s.chunks[n].tested then DrivesFirst(s, r.state, n, EntryMode.Resume)
            else if DependenciesMet(s, n) then r == Outcome(s.(run := RunFailed), Raised)
            else
              && DrivesFirst(s, r.state, n, EntryMode.Resume) && r.state.run == RunFailed && r.reply == ChunkNotDone(n)
              && r.state.chunks == s.chunks[n := s.chunks[n].(status := Failed)] && r.state.history == s.history
  {
    hide Inv, Drive;
    var n, e, o := todo[0], Entry(EntryMode.Resume, None), AnswersFor(sheet, todo[0]);
    assert Queued(s, n);
    NeverSkips(s, n, o);
    if !s.chunks[n].tested {
      FirstRow(s, s, n, e, o);
      ResumeDriveInv(s, n, o);
      var d := ResumeDrive(s, n, o);
      if d.end == Drove(ChunkCommitted) {
        QueueTail(s, d.state, todo);
        ResumeFromInv(d.state, todo[1..], sheet);
      }
    }
  }

  // ----- one ordinary pass --------------------------------------------------------------------

  /** The attempt ended in a recorded failure, not in an exception. */
  predicate FailsInOrder(a: Attempt) {
    || a.code == CodeEmpty
    || (a.code == CodeWritten && a.preflight == PreflightBlocked)
    || (a.code == CodeWritten && a.preflight == PreflightClear && a.apply.ApplyBlocked?)
    || (a.code == CodeWritten && a.preflight == PreflightClear && a.apply == Applied && a.tests.TestsFailed?)
  }

  /** The attempt that counts: the second one if the first met a harness error, not a timeout, that
      left the tree clean, and no human asked for it. */
  function Counting(mode: EntryMode, o: Answers): Attempt {
    if o.first == Attempt(CodeWritten, PreflightClear, Applied, TestsFailed(HarnessError, true))
       && mode != HumanRetry && mode != Steered
    then o.second else o.first
  }

  /** The newest gate of the chunk is approved. */
  predicate NewestApproved(gates: seq<Gate>, n: int) {
    exists g :: 0 <= g < |gates| && gates[g] == Gate(ForChunk(n), Approved)
                && forall k :: g < k < |gates| ==> gates[k].kind != ForChunk(n)
  }

  lemma RefusesIff(gates: seq<Gate>, n: int)
    requires Disciplined(gates)
    ensures GateRefuses(gates, n) <==> NewestApproved(gates, n)
  {
    var g := Newest(gates, ForChunk(n));
    if NewestApproved(gates, n) {
      var k :| 0 <= k < |gates| && gates[k] == Gate(ForChunk(n), Approved)
               && forall j :: k < j < |gates| ==> gates[j].kind != ForChunk(n);
      assert k == g;
    }
  }

  predicate DependenciesDone(s: State, n: int)
    requires 1 <= n <= |s.plan|
  {
    forall d :: d in s.plan[n - 1].dependsOn ==> d in s.chunks && s.chunks[d].status == Completed
  }

  lemma DependenciesIff(s: State, n: int)
    requires 1 <= n <= |s.plan|
    ensures DependenciesDone(s, n) <==> DependenciesMet(s, n)
  {
    assert DependenciesOf(s.plan, n) == s.plan[n - 1].dependsOn;
  }

  lemma LoopEnds(s: State, n: int, e: Entry, o: Answers)
    requires n in s.chunks && s.treeClean && e.mode != AutoRetry
    ensures var r := AttemptLoop(s, n, e, o, e.mode, 0);
            && r.state.treeClean == LeavesClean(Counting(e.mode, o))
            && (r.end == Verified <==> AllPass(Counting(e.mode, o)))
            && (r.end.AttemptRejected? <==> FailsInOrder(Counting(e.mode, o)))
  {
    LoopTrace(s, n, e, o);
    AttemptEnds(s, n, o.first);
    var first := RunAttempt(s, n, o.first).state;
    var again := Record(first, n, e.mode, AutoRetrying);
    AttemptTrace(s, n, o.first);
    AttemptEnds(again, n, o.second);
    assert AttemptLoop(again, n, e, o, AutoRetry, 1) ==
           LoopResult(RunAttempt(again, n, o.second).state, RunAttempt(again, n, o.second).end, AutoRetry, 1);
  }

  lemma AttemptEnds(s: State, n: int, a: Attempt)
    requires n in s.chunks
    ensures var r := RunAttempt(s, n, a);
            && (s.treeClean ==> r.state.treeClean == LeavesClean(a))
            && (r.end == Verified <==> AllPass(a)) && (r.end.AttemptRejected? <==> FailsInOrder(a))
  {}

  /** How an ordinary pass ends, by the answers it gets: it commits, pauses or breaks, with the tree,
      the summary and the run status that go with it. */
  lemma PassEnds(s: State, n: int, mode: EntryMode, o: Answers)
    requires Reachable(s) && Ready(s, n, mode)
    ensures var d := Drive(s, n, Entry(mode, None), o);
            var last := Counting(mode, o);
            var human := mode == HumanRetry || mode == Steered;
            var reaches := DependenciesDone(s, n) && s.treeClean && !o.planRaises;
            var reported := DependenciesDone(s, n) && (!s.treeClean || (reaches && FailsInOrder(last)));
            && d.end == (if !reaches || !AllPass(last) then ChunkBroken
                         else if human || s.plan[n - 1].needsReview then
                           if NewestApproved(s.gates, n) then ChunkBroken else ChunkPaused
                         else if last.tests == TestsPassed(true) && o.commitWorks then ChunkCommitted
                         else ChunkBroken)
            && d.state.treeClean == (if !reaches then s.treeClean
                                     else if d.end == ChunkCommitted then !o.residue
                                     else LeavesClean(last))
            && (d.end == ChunkBroken ==>
                  && StatusIs(d.state, n, Failed)
                  && d.state.chunks[n].summary == (if reported then FailureReport
                                                   else if reaches && AllPass(last) && human then Recovered
                                                   else s.chunks[n].summary)
                  && d.state.run == if reported && o.scopeRequest then AwaitingScopeApproval else RunFailed)
  {
    hide AttemptLoop, FinishVerified, FinishFailure, GateRefuses, NewestApproved, Inv, Reachable, DependenciesDone;
    hide AllPass, LeavesClean, FailsInOrder, Counting, DependenciesMet;
    ReachableInv(s);
    DisciplinedInv(s);
    RefusesIff(s.gates, n);
    DependenciesIff(s, n);
    var e, running := Entry(mode, None), SetStatus(s, n, Running).(run := RunningChunks);
    if ReachesLoop(s, n, o) {
      LoopEnds(running, n, e, o);
      LoopSigns(running, n, e, o);
      LoopDrive(s, n, e, o);
      var looped := AttemptLoop(running, n, e, o, mode, 0);
      if AllPass(Counting(mode, o)) {
        CountingTests(running, n, e, o);
      }
      match looped.end {
        case Verified => VerifiedEnds(looped.state, n, e, o, looped.mode);
        case Crashed => BrokenRows(Record(looped.state, n, mode, AttemptFailed), n, e, o, false);
        case AttemptRejected(_) => BrokenRows(Record(looped.state, n, looped.mode, AttemptFailed), n, e, o, true);
      }
    } else {
      BrokenRows(Record(s, n, mode, AttemptFailed), n, e, o, false);
      BrokenRows(Record(running, n, mode, AttemptFailed), n, e, o, !s.treeClean);
    }
  }

  lemma CountingTests(s: State, n: int, e: Entry, o: Answers)
    requires n in s.chunks && e.mode != AutoRetry && AllPass(Counting(e.mode, o))
    ensures Counting(e.mode, o).tests == TestsPassed(true) <==> !LeavesClean(Counting(e.mode, o))
  {}

  lemma BrokenRows(s: State, n: int, e: Entry, o: Answers, hasReport: bool)
    requires n in s.chunks && e.refinement.None?
    ensures var r := FinishFailure(s, n, e, o, hasReport);
            && r.end == ChunkBroken && StatusIs(r.state, n, Failed) && r.state.treeClean == s.treeClean
            && r.state.chunks[n].summary == (if hasReport then FailureReport else s.chunks[n].summary)
            && r.state.run == if hasReport && o.scopeRequest then AwaitingScopeApproval else RunFailed
  {}

  lemma VerifiedEnds(s: State, n: int, e: Entry, o: Answers, mode: EntryMode)
    requires n in s.chunks && 1 <= n <= |s.plan| && e.refinement.None?
    ensures var d := FinishVerified(s, n, e, o, mode);
            var pauses := HumanMode(e.mode) || s.plan[n - 1].needsReview;
            && d.end == (if pauses then if GateRefuses(s.gates, n) then ChunkBroken else ChunkPaused
                         else if !s.treeClean && o.commitWorks then ChunkCommitted else ChunkBroken)
            && d.state.treeClean == (if d.end == ChunkCommitted then !o.residue else s.treeClean)
            && (d.end == ChunkBroken ==>
                  && StatusIs(d.state, n, Failed) && d.state.run == RunFailed
                  && d.state.chunks[n].summary == if HumanMode(e.mode) then Recovered else s.chunks[n].summary)
  {
    hide MaxAttempt, PauseAtGate, GateRefuses, PauseOrRaise;
    PauseEnds(s, n, e, o, mode);
    PauseEnds(SetSummary(s, n, Recovered), n, e, o, mode);
  }

  lemma PauseEnds(s: State, n: int, e: Entry, o: Answers, mode: EntryMode)
    requires n in s.chunks && e.refinement.None?
    ensures var d := PauseOrRaise(s, n, e, o, mode, false);
            && d.end == (if GateRefuses(s.gates, n) then ChunkBroken else ChunkPaused)
            && d.state.treeClean == s.treeClean
            && (d.end == ChunkBroken ==>
                  && StatusIs(d.state, n, Failed) && d.state.run == RunFailed
                  && d.state.chunks[n].summary == s.chunks[n].summary)
  {
    hide MaxAttempt, OpenChunkGate, GateRefuses;
    PauseRefusedIff(s, n);
  }

  // ----- retry, steer, scope retry -----------------------------------------------------------------

  /** All that the doors of a human retry ask for; the scope retry does not ask for dependencies. */
  predicate RetryDoor(s: State, n: int, kind: RetryKind) {
    && n in s.chunks && 1 <= n <= |s.plan| && s.chunks[n].status == Failed && s.chunks[n].summary == FailureReport
    && s.treeClean && (kind == ScopeRetry || DependenciesDone(s, n))
  }

  /** A retry that is turned away, from a dirty tree for instance, changes nothing; any other drives
      the chunk once, commits nothing, touches no other chunk and has it wait for approval exactly
      if its dependencies are done, the attempt passes and the newest gate is not approved. */
  lemma RetryEffect(s: State, n: int, kind: RetryKind, admitted: bool, o: Answers)
    requires Reachable(s)
    ensures var r := Step(s, DoRetry(n, kind, admitted, o));
            if admitted && RetryDoor(s, n, kind) then
              var passes := DependenciesDone(s, n) && !o.planRaises && AllPass(o.first) && !NewestApproved(s.gates, n);
              && r.reply == ChunkNotDone(n) && n in r.state.chunks
              && DrivesFirst(s, r.state, n, if kind == SteeredRetry then Steered else HumanRetry)
              && r.state.history == s.history && r.state.chunks.Keys == s.chunks.Keys
              && (forall m :: m in s.chunks && m != n ==> r.state.chunks[m] == s.chunks[m])
              && r.state.chunks[n].status == (if passes then AwaitingChunk else Failed)
              && (passes ==>
                    && r.state.chunks[n].summary == Recovered && HasPending(r.state.gates, ForChunk(n))
                    && r.state.run == AwaitingChunkApproval)
              && (!passes ==> r.state.run == RunFailed || (o.scopeRequest && r.state.run == AwaitingScopeApproval))
            else r.state == s && (r.reply == Ineligible || r.reply == Raised)
  {
    hide Drive, Reachable, Inv, DependenciesDone, DependenciesMet, AllPass, NewestApproved, HasPending, DrivesFirst;
    if n in s.chunks && 1 <= n <= |s.plan| {
      DependenciesIff(s, n);
      if admitted && RetryDoor(s, n, kind) {
        var e := Entry(if kind == SteeredRetry then Steered else HumanRetry, None);
        ReachableCheckpoints(s);
        CheckpointOf(s, n);
        FirstRow(s, s, n, e, o);
        PassEnds(s, n, e.mode, o);
        DriveFrame(s, n, e, o);
        HumanNeverCommits(s, n, e, o);
        if Drive(s, n, e, o).end == ChunkPaused {
          PausedPass(s, n, e, o);
        }
      }
    }
  }

  lemma HumanNeverCommits(s: State, n: int, e: Entry, o: Answers)
    requires n in s.chunks && 1 <= n <= |s.plan| && HumanMode(e.mode)
    ensures Drive(s, n, e, o).state.history == s.history
  {
    hide Drive;
    DriveTrace(s, n, e, o);
  }

  // ----- approve and reject --------------------------------------------------------------------------

  /** Gate g got its verdict, no other gate changed, and at most a final gate was opened. */
  predicate OneGateDecided(s: State, r: State, g: int, verdict: GateStatus)
    requires 0 <= g < |s.gates|
  {
    && |s.gates| <= |r.gates| && r.gates[g] == Gate(s.gates[g].kind, verdict)
    && (forall k :: 0 <= k < |s.gates| && k != g ==> r.gates[k] == s.gates[k])
    && (forall k :: |s.gates| <= k < |r.gates| ==> r.gates[k] == Gate(ForRun, Pending))
  }

  predicate OthersSame(s: State, r: State, n: int) {
    && n in r.chunks && r.chunks.Keys == s.chunks.Keys && r.plan == s.plan
    && forall m :: m in s.chunks && m != n ==> r.chunks[m] == s.chunks[m]
  }

  /** A refined chunk has its saved summary back and is completed; the run goes back to where it was,
      which is final approval if the refinement had closed it. A tree that is still dirty then stands
      in the way. */
  predicate PutBack(s: State, r: Outcome, n: int, reply: Reply)
    requires n in s.chunks && s.chunks[n].summary.Refinement?
  {
    var marker := s.chunks[n].summary;
    && r.state.history == s.history && r.state.ledger == s.ledger
    && marker.prior.Some? && r.state.chunks == s.chunks[n := Chunk(Completed, marker.prior.value, s.chunks[n].tested)]
    && (if !marker.superseded then r.state.run == marker.priorRun && r.reply == reply
        else if r.state.treeClean then
          r.state.run == AwaitingFinalApproval && HasPending(r.state.gates, ForRun) && r.reply == reply
        else r.state.run == s.run && r.reply == Raised)
  }

  /** Without a loaded checkpoint or a pending gate of a waiting chunk, approving and rejecting
      raise; a rejection may have cleaned the tree by then. */
  lemma ApprovalTurnedAway(s: State, n: int, o: ApproveAnswers, loads: bool, rollback: RollbackAnswer)
    ensures !StatusIs(s, n, AwaitingChunk) || !HasPending(s.gates, ForChunk(n)) || !o.loads ==>
              Step(s, DoApprove(n, o)) == Outcome(s, Raised)
    ensures !StatusIs(s, n, AwaitingChunk) || !loads ==> Step(s, DoReject(n, loads, rollback)) == Outcome(s, Raised)
    ensures StatusIs(s, n, AwaitingChunk) && loads ==>
              var r := Step(s, DoReject(n, loads, rollback));
              && r.state.treeClean == (if rollback.RollbackFailed? then rollback.clean else true)
              && (rollback.RollbackFailed? || !HasPending(s.gates, ForChunk(n)) ==>
                    SameRows(s.(treeClean := r.state.treeClean), r.state) && r.state.run == s.run && r.reply == Raised)
  {}

  lemma NewestIs(s: State, n: int, g: int)
    requires Inv(s) && 0 <= g < |s.gates| && s.gates[g] == Gate(ForChunk(n), Pending)
    ensures NewestPending(s.gates, ForChunk(n)) == g && StatusIs(s, n, AwaitingChunk)
    ensures s.chunks[n].summary.Refinement? ==> s.chunks[n].summary.prior.Some?
  {
    PendingIsNewest(s.gates, ForChunk(n), g);
    assert StatusIs(s, s.gates[g].kind.number, AwaitingChunk);
    assert ChunkOk(s.plan, s.history, n, s.chunks[n]);
  }

  /** Approving a pending gate, with its checkpoint loaded: a refinement that changed nothing is put
      back, an ordinary pause without a patch fails, a commit that fails leaves the chunk waiting,
      and one that works is recorded with its own gate, summary and completed row. */
  lemma ApproveEffect(s: State, n: int, o: ApproveAnswers, g: int)
    requires Reachable(s) && 0 <= g < |s.gates| && s.gates[g] == Gate(ForChunk(n), Pending) && o.loads
    ensures n in s.chunks
    ensures var r, c := Step(s, DoApprove(n, o)), s.chunks[n];
            var patch := o.touches && !s.treeClean;
            && OneGateDecided(s, r.state, g, Approved) && OthersSame(s, r.state, n)
            && (!patch || !o.commitWorks ==> r.state.treeClean == s.treeClean)
            && (!patch && c.summary.Refinement? ==> PutBack(s, r, n, RefinementNoOp))
            && (!patch && !c.summary.Refinement? ==>
                  && r.state.chunks[n] == c.(status := Failed) && r.state.run == RunFailed && r.reply == Raised
                  && r.state.history == s.history && r.state.ledger == s.ledger)
            && (patch && !o.commitWorks ==>
                  && r.state.chunks[n] == c && r.state.run == s.run && r.reply == Raised
                  && r.state.history == s.history && r.state.ledger == s.ledger)
            && (patch && o.commitWorks ==>
                  && r.state.history == s.history + [Commit(n, ByApproval(g))] && r.state.treeClean == !o.residue
                  && r.state.chunks[n] == Chunk(Completed, Success(|s.history|), c.tested)
                  && NewCompletion(s, r.state, n,
                                   if c.summary.Refinement? || c.summary.Recovered? then HumanRetry else Fresh))
  {
    hide Reachable, HasPending, AllCompleted, MaxAttempt, HistoryOk, ApprovalsOk, ReopenOk, LedgerTracks, ChunksOk;
    hide Disciplined, UndoRefinement, Finalize, ApprovedCommit, PutBack, Decide, Inv;
    ReachableInv(s);
    NewestIs(s, n, g);
    var decided := s.(gates := Decide(s.gates, g, Approved));
    DecidedOne(s, g, Approved);
    PendingHolds(s, n, g);
    if s.chunks[n].summary.Refinement? && (!o.touches || s.treeClean) {
      UndoEffect(s, decided, n, s.chunks[n].summary, RefinementNoOp, Approved, g);
    } else if o.touches && !s.treeClean && o.commitWorks {
      CommitEffect(s, n, o.residue, g);
      FinalizeRows(ApprovedCommit(s, n, o.residue));
    }
  }

  lemma CommitEffect(s: State, n: int, residue: bool, g: int)
    requires StatusIs(s, n, AwaitingChunk) && HasPending(s.gates, ForChunk(n))
    requires NewestPending(s.gates, ForChunk(n)) == g
    ensures var r, c := ApprovedCommit(s, n, residue), s.chunks[n];
            && OneGateDecided(s, r, g, Approved) && |r.gates| == |s.gates| && OthersSame(s, r, n)
            && r.history == s.history + [Commit(n, ByApproval(g))] && r.treeClean == !residue
            && r.chunks[n] == Chunk(Completed, Success(|s.history|), c.tested)
            && NewCompletion(s, r, n, if c.summary.Refinement? || c.summary.Recovered? then HumanRetry else Fresh)
  {
    hide MaxAttempt;
  }

  lemma PendingHolds(s: State, n: int, g: int)
    requires NewestPending(s.gates, ForChunk(n)) == g >= 0
    ensures HasPending(s.gates, ForChunk(n))
  {}

  /** One new ledger row: the completion of chunk n under this mode, with the new tip. */
  predicate NewCompletion(s: State, r: State, n: int, mode: EntryMode) {
    && |r.ledger| == |s.ledger| + 1 && s.ledger <= r.ledger
    && r.ledger[|s.ledger|].chunk == n && r.ledger[|s.ledger|].status == AttemptCompleted
    && r.ledger[|s.ledger|].mode == mode && r.ledger[|s.ledger|].head == r.history
  }

  lemma DecidedOne(s: State, g: int, verdict: GateStatus)
    requires 0 <= g < |s.gates| && s.gates[g].status == Pending
    ensures OneGateDecided(s, s.(gates := Decide(s.gates, g, verdict)), g, verdict)
  {}

  lemma FinalizeRows(s: State)
    ensures var r := Finalize(s).state;
            && r.chunks == s.chunks && r.history == s.history && r.ledger == s.ledger && r.plan == s.plan
            && r.treeClean == s.treeClean && |s.gates| <= |r.gates|
            && (forall k :: 0 <= k < |s.gates| ==> r.gates[k] == s.gates[k])
            && (forall k :: |s.gates| <= k < |r.gates| ==> r.gates[k] == Gate(ForRun, Pending))
  {
    hide AllCompleted;
  }

  /** Undoing a refinement from the state in which its gate is decided. */
  lemma UndoEffect(s: State, decided: State, n: int, fallback: Summary, reply: Reply, verdict: GateStatus, g: int)
    requires Inv(s) && StatusIs(s, n, AwaitingChunk) && s.chunks[n].summary.Refinement?
    requires 0 <= g < |s.gates| && s.gates[g] == Gate(ForChunk(n), Pending)
    requires verdict == Approved || verdict == GateStatus.Rejected
    requires decided == s.(gates := Decide(s.gates, g, verdict), treeClean := decided.treeClean)
    ensures var r := UndoRefinement(decided, n, fallback, reply);
            && PutBack(s, r, n, reply) && OneGateDecided(s, r.state, g, verdict)
            && r.state.treeClean == decided.treeClean && OthersSame(s, r.state, n)
  {
    hide Inv, Disciplined, FinalReopenable, UndoRefinement, Decide, HasPending;
    DecidedOne(s, g, verdict);
    UndoReady(s, n, g, verdict);
    UndoRows(decided, n, fallback, reply);
  }

  lemma UndoReady(s: State, n: int, g: int, verdict: GateStatus)
    requires Inv(s) && StatusIs(s, n, AwaitingChunk) && s.chunks[n].summary.Refinement? && 0 <= g < |s.gates|
    requires verdict == Approved || verdict == GateStatus.Rejected
    ensures s.chunks[n].summary.prior.Some? && Disciplined(Decide(s.gates, g, verdict))
    ensures s.chunks[n].summary.superseded ==>
              && FinalReopenable(Decide(s.gates, g, verdict))
              && forall m :: m in s.chunks && m != n ==> s.chunks[m].status == Completed
  {
    hide HistoryOk, ApprovalsOk, LedgerTracks, Disciplined, FinalReopenable, Decide;
    DecideKeeps(s.gates, g, verdict);
    ReopenStays(s.gates, g, verdict);
    assert ChunkOk(s.plan, s.history, n, s.chunks[n]);
  }

  lemma UndoRows(s: State, n: int, fallback: Summary, reply: Reply)
    requires StatusIs(s, n, AwaitingChunk) && s.chunks[n].summary.Refinement? && s.chunks[n].summary.prior.Some?
    requires Disciplined(s.gates)
    requires s.chunks[n].summary.superseded ==>
               FinalReopenable(s.gates) && forall m :: m in s.chunks && m != n ==> s.chunks[m].status == Completed
    ensures var r := UndoRefinement(s, n, fallback, reply);
            && PutBack(s, r, n, reply) && OthersSame(s, r.state, n) && r.state.treeClean == s.treeClean
            && |s.gates| <= |r.state.gates|
            && (forall k :: 0 <= k < |s.gates| ==> r.state.gates[k] == s.gates[k])
            && (forall k :: |s.gates| <= k < |r.state.gates| ==> r.state.gates[k] == Gate(ForRun, Pending))
  {
    hide HasPending, Disciplined;
    var restored := RestorePrior(s, n, fallback);
    if s.chunks[n].summary.superseded {
      assert AllCompleted(restored);
      OpenFinalGateKeeps(restored.gates);
    }
  }

  /** Rejecting a pending gate, once the patch is rolled back: an ordinary pause is rejected and the
      run fails, a refinement is put back. */
  lemma RejectEffect(s: State, n: int, g: int)
    requires Reachable(s) && 0 <= g < |s.gates| && s.gates[g] == Gate(ForChunk(n), Pending)
    ensures n in s.chunks
    ensures var r, c := Step(s, DoReject(n, true, RolledBack)), s.chunks[n];
            && OneGateDecided(s, r.state, g, GateStatus.Rejected) && OthersSame(s, r.state, n) && r.state.treeClean
            && r.state.history == s.history && r.state.ledger == s.ledger
            && (c.summary.Refinement? ==> PutBack(s, r, n, RefinementRejected))
            && (!c.summary.Refinement? ==>
                  && r.state.chunks[n] == c.(status := RejectedChunk) && r.state.run == RunFailed
                  && r.reply == ChunkRejectedReply)
  {
    hide Reachable, HasPending, HistoryOk, ApprovalsOk, ReopenOk, LedgerTracks, ChunksOk, Disciplined, UndoRefinement;
    ReachableInv(s);
    NewestIs(s, n, g);
    PendingHolds(s, n, g);
    DecidedOne(s, g, GateStatus.Rejected);
    if s.chunks[n].summary.Refinement? {
      var decided := s.(gates := Decide(s.gates, g, GateStatus.Rejected), treeClean := true);
      UndoEffect(s, decided, n, RetainedNote, RefinementRejected, GateStatus.Rejected, g);
    }
  }

  // ----- decisions ---------------------------------------------------------------------------------

  /** The final-approval routes set the pending final gate and the run to the same verdict, and change
      nothing else. */
  lemma FinalDecisionEffect(s: State, approve: bool, admitted: bool)
    requires Reachable(s)
    ensures var r := Step(s, DoDecideFinal(approve, admitted));
            && (!admitted || !HasPending(s.gates, ForRun) ==> r == Outcome(s, Raised))
            && (forall g :: admitted && 0 <= g < |s.gates| && s.gates[g] == Gate(ForRun, Pending) ==>
                  && OneGateDecided(s, r.state, g, if approve then Approved else GateStatus.Rejected)
                  && r.state.run == (if approve then FinalApproved else FinalRejected)
                  && SameRows(s.(gates := r.state.gates), r.state) && |r.state.gates| == |s.gates|
                  && r.reply == GateDecided)
  {
    hide Reachable, HistoryOk, ApprovalsOk, ReopenOk, LedgerTracks, ChunksOk, Disciplined;
    ReachableInv(s);
    forall g | 0 <= g < |s.gates| && s.gates[g] == Gate(ForRun, Pending) ensures g == NewestPending(s.gates, ForRun) {
      PendingIsNewest(s.gates, ForRun, g);
    }
  }

  /** The generic gate routes set one pending gate and nothing else. */
  lemma GateDecisionEffect(s: State, g: int, approve: bool)
    ensures var r := Step(s, DoDecideGate(g, approve));
            if 0 <= g < |s.gates| && s.gates[g].status == Pending then
              && OneGateDecided(s, r.state, g, if approve then Approved else GateStatus.Rejected)
              && SameRows(s.(gates := r.state.gates), r.state) && |r.state.gates| == |s.gates|
              && r.state.run == s.run && r.reply == GateDecided
            else r == Outcome(s, Raised)
  {}

  /** Memory conflicts, scope rejections and the human at the tree touch no row. */
  lemma OtherDecisions(s: State, approve: bool, clean: bool)
    ensures var r := Step(s, DoDecideMemoryConflict(approve)).state;
            SameRows(s, r) && r.run == if approve then PlanApproved else RunRejected
    ensures var r := Step(s, DoSettleScopeRejection).state;
            SameRows(s, r) && r.run == if s.run == AwaitingScopeApproval then RunFailed else s.run
    ensures var r := Step(s, HumanTouchesTree(clean)).state;
            SameRows(s.(treeClean := clean), r) && r.run == s.run
  {}
}
