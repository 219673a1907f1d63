/** A finally approved run has an approved final gate, a finally rejected one a rejected gate. */
module RunVerdicts {
  import opened Wrappers
  import opened ChunkPlan
  import opened ApprovalGates
  import opened AttemptLedger
  import opened RunState
  import opened ChunkDriver
  import opened Orchestrator
  import opened RunInvariant
  import opened DriverSafety
  import opened DriverTrace
  import opened RunSafety
  import opened RunTheorems
  import opened RunProgress
  import opened StrandedChunks
  import opened DeadChunks
  import opened FinalReach

  // ----- the run's final verdict -----------------------------------------------------------------------

  /** A refinement remembers a run that was not decided. */
  ghost predicate MarkersOk(s: State) {
    forall n :: n in s.chunks && s.chunks[n].summary.Refinement? ==> !FinallyDecided(s.chunks[n].summary.priorRun)
  }

  /** The run did not become finally decided, and markers are still fine. */
  ghost predicate Undecided(s: State, r: State) {
    MarkersOk(r) && (FinallyDecided(r.run) ==> r.run == s.run)
  }

  predicate PlainSummary(summary: Summary) {
    summary.Refinement? ==> !FinallyDecided(summary.priorRun)
  }

  lemma FrameUndecided(s: State, r: State, n: int)
    requires MarkersOk(s) && Frame(s, r, n) && n in s.chunks && PlainSummary(r.chunks[n].summary)
    requires FinallyDecided(r.run) ==> r.run == s.run
    ensures Undecided(s, r)
  {}

  /** A pass never decides the run, and a marker it leaves remembers the run it was given. */
  lemma DriveUndecided(s: State, n: int, e: Entry, o: Answers)
    requires MarkersOk(s) && n in s.chunks && 1 <= n <= |s.plan|
    requires e.refinement.Some? ==> !FinallyDecided(e.refinement.value.priorRun)
    ensures Undecided(s, Drive(s, n, e, o).state)
  {
    hide AttemptLoop, FinishVerified, FinishFailure, Frame, MarkersOk;
    DriveFrame(s, n, e, o);
    assert PlainSummary(s.chunks[n].summary) by {
      PlainHere(s, n);
    }
    var running := SetStatus(s, n, Running).(run := RunningChunks);
    FailureUndecided(Record(s, n, e.mode, AttemptFailed), n, e, o, false);
    if ReachesLoop(s, n, o) {
      LoopDrive(s, n, e, o);
      LoopSigns(running, n, e, o);
      var looped := AttemptLoop(running, n, e, o, e.mode, 0);
      FailureUndecided(Record(looped.state, n, e.mode, AttemptFailed), n, e, o, false);
      FailureUndecided(Record(looped.state, n, looped.mode, AttemptFailed), n, e, o, true);
      VerifiedUndecided(looped.state, n, e, o, looped.mode);
    } else {
      FailureUndecided(Record(running, n, e.mode, AttemptFailed), n, e, o, !s.treeClean);
    }
    FrameUndecided(s, Drive(s, n, e, o).state, n);
  }

  lemma PlainHere(s: State, n: int)
    requires MarkersOk(s) && n in s.chunks
    ensures PlainSummary(s.chunks[n].summary)
  {}

  lemma FailureUndecided(s: State, n: int, e: Entry, o: Answers, hasReport: bool)
    requires n in s.chunks && PlainSummary(s.chunks[n].summary)
    requires e.refinement.Some? ==> !FinallyDecided(e.refinement.value.priorRun)
    ensures var r := FinishFailure(s, n, e, o, hasReport).state;
            n in r.chunks && PlainSummary(r.chunks[n].summary) && (FinallyDecided(r.run) ==> r.run == s.run)
  {
    hide AllCompleted;
  }

  lemma VerifiedUndecided(s: State, n: int, e: Entry, o: Answers, mode: EntryMode)
    requires n in s.chunks && 1 <= n <= |s.plan| && PlainSummary(s.chunks[n].summary) && !FinallyDecided(s.run)
    requires e.refinement.Some? ==> !FinallyDecided(e.refinement.value.priorRun)
    ensures var r := FinishVerified(s, n, e, o, mode).state;
            n in r.chunks && PlainSummary(r.chunks[n].summary) && !FinallyDecided(r.run)
  {
    hide PauseOrRaise, FinishFailure, MaxAttempt;
    if e.refinement.Some? {
      var ctx := e.refinement.value;
      PauseUndecided(SetSummary(s, n, Refinement(ctx.priorRun, ctx.superseded, ctx.prior)), n, e, o, mode, true);
    } else if HumanMode(e.mode) {
      PauseUndecided(SetSummary(s, n, Recovered), n, e, o, mode, false);
    } else if s.plan[n - 1].needsReview {
      PauseUndecided(s, n, e, o, mode, false);
    } else if s.treeClean {
      FailureUndecided(Record(FailChunk(s, n), n, e.mode, AttemptFailed), n, e, o, false);
    } else if !o.commitWorks {
      FailureUndecided(Record(s, n, e.mode, AttemptFailed), n, e, o, false);
    }
  }

  lemma PauseUndecided(s: State, n: int, e: Entry, o: Answers, mode: EntryMode, after: bool)
    requires n in s.chunks && PlainSummary(s.chunks[n].summary) && !FinallyDecided(s.run)
    requires e.refinement.Some? ==> !FinallyDecided(e.refinement.value.priorRun)
    ensures var r := PauseOrRaise(s, n, e, o, mode, after).state;
            n in r.chunks && PlainSummary(r.chunks[n].summary) && !FinallyDecided(r.run)
  {
    hide FinishFailure, OpenChunkGate, MaxAttempt;
    FailureUndecided(Record(s, n, e.mode, AttemptFailed), n, e, o, false);
  }

  lemma FinalizeUndecided(s: State)
    requires MarkersOk(s)
    ensures Undecided(s, Finalize(s).state)
  {
    hide AllCompleted;
  }

  lemma {:induction false} ExecuteUndecided(s: State, todo: seq<int>, sheet: AnswerSheet)
    requires Inv(s) && MarkersOk(s) && Queue(s, todo)
    ensures Undecided(s, ExecuteFrom(s, todo, sheet).state)
    decreases |todo|
  {
    hide Inv, Drive, Finalize, MarkersOk;
    if todo == [] {
      FinalizeUndecided(s);
    } else {
      var n, e, o := todo[0], Entry(Fresh, None), AnswersFor(sheet, todo[0]);
      assert Queued(s, n);
      DriveInv(s, n, e, o);
      DriveFrame(s, n, e, o);
      DriveUndecided(s, n, e, o);
      if Drive(s, n, e, o).end == ChunkCommitted {
        QueueTail(s, Drive(s, n, e, o).state, todo);
        ExecuteUndecided(Drive(s, n, e, o).state, todo[1..], sheet);
      }
    }
  }

  lemma ResumedUndecided(s: State, n: int, o: Answers)
    requires Inv(s) && MarkersOk(s) && Queued(s, n)
    ensures Undecided(s, ResumeDrive(s, n, o).state)
  {
    hide Drive, HistoryOk, ApprovalsOk, GatesOk, ReopenOk, LedgerTracks, ChunksOk;
    NeverSkips(s, n, o);
    DriveUndecided(s, n, Entry(EntryMode.Resume, None), o);
  }

  lemma {:induction false} ResumeUndecided(s: State, todo: seq<int>, sheet: AnswerSheet)
    requires Inv(s) && MarkersOk(s) && Queue(s, todo)
    ensures Undecided(s, ResumeFrom(s, todo, sheet).state)
    decreases |todo|
  {
    hide Inv, ResumeDrive, Finalize, MarkersOk;
    if todo == [] {
      FinalizeUndecided(s);
    } else {
      var n, o := todo[0], AnswersFor(sheet, todo[0]);
      assert Queued(s, n);
      ResumeDriveInv(s, n, o);
      ResumedUndecided(s, n, o);
      if ResumeDrive(s, n, o).end == Drove(ChunkCommitted) {
        QueueTail(s, ResumeDrive(s, n, o).state, todo);
        ResumeUndecided(ResumeDrive(s, n, o).state, todo[1..], sheet);
      }
    }
  }

  lemma BatchUndecided(s: State, op: Op)
    requires Inv(s) && MarkersOk(s) && (op.DoExecute? || op.DoResume?)
    ensures Undecided(s, Step(s, op).state)
  {
    hide Inv, ExecuteFrom, ResumeFrom, Queue, DriftGuardAccepts, Select;
    NothingRunning(s);
    if op.DoExecute? {
      if ExecutePrelude(s, op.echecks).Go? {
        PendingQueue(s);
        ExecuteUndecided(s, Select(s, |s.plan|, {PendingChunk}), op.sheet);
      }
    } else if ResumePrelude(s, op.rchecks).Go? {
      var started := s.(run := ResumeRunning);
      RunStatusInv(s, ResumeRunning);
      ResumeQueue(started);
      ResumeUndecided(started, Select(started, |started.plan|, RESUMABLE), op.sheet);
    }
  }

  lemma UndoUndecided(s: State, n: int, fallback: Summary, reply: Reply)
    requires MarkersOk(s) && n in s.chunks && s.chunks[n].summary.Refinement?
    requires s.chunks[n].summary.prior.Some? && s.chunks[n].summary.prior.value.Success?
    ensures Undecided(s, UndoRefinement(s, n, fallback, reply).state)
  {
    hide AllCompleted;
  }

  lemma ApproveUndecided(s: State, n: int, o: ApproveAnswers)
    requires Inv(s) && MarkersOk(s)
    ensures Undecided(s, Approve(s, n, o).state)
  {
    hide UndoRefinement, Finalize, Decide, AllCompleted, MaxAttempt, MarkersOk, Inv;
    if StatusIs(s, n, AwaitingChunk) && o.loads && HasPending(s.gates, ForChunk(n)) {
      WaitingMarker(s, n);
      var decided := s.(gates := Decide(s.gates, NewestPending(s.gates, ForChunk(n)), Approved));
      SameMarkers(s, decided, n);
      if s.chunks[n].summary.Refinement? && (!o.touches || s.treeClean) {
        UndoUndecided(decided, n, s.chunks[n].summary, RefinementNoOp);
      } else {
        SameMarkers(s, Approve(s, n, o).state, n);
        if o.touches && !s.treeClean && o.commitWorks {
          SameMarkers(s, ApprovedCommit(s, n, o.residue), n);
          FinalizeUndecided(ApprovedCommit(s, n, o.residue));
        }
      }
    }
  }

  lemma WaitingMarker(s: State, n: int)
    requires Inv(s) && StatusIs(s, n, AwaitingChunk)
    ensures s.chunks[n].summary.Refinement? ==>
              s.chunks[n].summary.prior.Some? && s.chunks[n].summary.prior.value.Success?
  {
    assert ChunkOk(s.plan, s.history, n, s.chunks[n]);
  }

  /** Chunk n kept its summary or got one that is no marker. */
  lemma SameMarkers(s: State, r: State, n: int)
    requires MarkersOk(s)
    ensures n in s.chunks && n in r.chunks && r.chunks == s.chunks[n := r.chunks[n]]
            && (r.chunks[n].summary == s.chunks[n].summary || !r.chunks[n].summary.Refinement?)
            ==> MarkersOk(r)
  {}

  lemma RejectUndecided(s: State, n: int, loads: bool, o: RollbackAnswer)
    requires Inv(s) && MarkersOk(s)
    ensures Undecided(s, Reject(s, n, loads, o).state)
  {
    hide UndoRefinement, Decide, Inv;
    if StatusIs(s, n, AwaitingChunk) && loads && o.RolledBack? && HasPending(s.gates, ForChunk(n)) {
      WaitingMarker(s, n);
      if s.chunks[n].summary.Refinement? {
        var gates := Decide(s.gates, NewestPending(s.gates, ForChunk(n)), GateStatus.Rejected);
        UndoUndecided(s.(treeClean := true, gates := gates), n, RetainedNote, RefinementRejected);
      }
    }
  }

  lemma HumanUndecided(s: State, op: Op)
    requires MarkersOk(s) && (op.DoRetry? || op.DoRefine?)
    ensures Undecided(s, Step(s, op).state)
  {
    hide Drive, SupersedeFinal, HasPending, MarkersOk;
    var n := op.n;
    if n in s.chunks && 1 <= n <= |s.plan| {
      if op.DoRetry? {
        DriveUndecided(s, n, Entry(if op.kind == SteeredRetry then Steered else HumanRetry, None), op.answers);
      } else if RefineEligible(s, n) {
        StartMarkers(s);
        DriveUndecided(RefinementStart(s), n, RefinementEntry(s, n), op.answers);
      }
    }
  }

  lemma StartMarkers(s: State)
    requires MarkersOk(s)
    ensures MarkersOk(RefinementStart(s))
  {}

  lemma StepUndecided(s: State, op: Op)
    requires Inv(s) && MarkersOk(s)
    ensures MarkersOk(Step(s, op).state)
    ensures !op.DoDecideFinal? ==> Undecided(s, Step(s, op).state)
  {
    hide Inv, ExecuteRun, ResumeRun, Approve, Reject, Retry, Refine, Decide;
    match op
    case DoExecute(_, _) => BatchUndecided(s, op);
    case DoResume(_, _) => BatchUndecided(s, op);
    case DoApprove(n, o) => ApproveUndecided(s, n, o);
    case DoReject(n, loads, o) => RejectUndecided(s, n, loads, o);
    case DoRetry(_, _, _, _) => HumanUndecided(s, op);
    case DoRefine(_, _, _) => HumanUndecided(s, op);
    case _ =>
  }

  /** Some final gate has this verdict. */
  predicate FinalGate(gates: seq<Gate>, verdict: GateStatus) {
    exists g :: 0 <= g < |gates| && gates[g] == Gate(ForRun, verdict)
  }

  ghost predicate VerdictTracks(s: State) {
    && (s.run == FinalApproved ==> FinalGate(s.gates, Approved))
    && (s.run == FinalRejected ==> FinalGate(s.gates, GateStatus.Rejected))
  }

  lemma VerdictKept(s: State, r: State)
    requires VerdictTracks(s) && Grows(s.gates, r.gates) && (FinallyDecided(r.run) ==> r.run == s.run)
    ensures VerdictTracks(r)
  {
    forall verdict | FinalGate(s.gates, verdict) && verdict != Pending ensures FinalGate(r.gates, verdict) {
      var g :| 0 <= g < |s.gates| && s.gates[g] == Gate(ForRun, verdict);
      assert r.gates[g] == s.gates[g];
    }
  }

  lemma StepTracks(s: State, op: Op)
    requires Inv(s) && MarkersOk(s) && VerdictTracks(s)
    ensures VerdictTracks(Step(s, op).state)
  {
    hide Inv, MarkersOk, Step, VerdictTracks;
    StepInv(s, op);
    StepUndecided(s, op);
    if op.DoDecideFinal? {
      DecisionTracks(s, op.approve, op.admitted);
    } else {
      VerdictKept(s, Step(s, op).state);
    }
  }

  lemma DecisionTracks(s: State, approve: bool, admitted: bool)
    requires VerdictTracks(s)
    ensures VerdictTracks(Step(s, DoDecideFinal(approve, admitted)).state)
  {
    var g := NewestPending(s.gates, ForRun);
    if g >= 0 && admitted {
      var r := Step(s, DoDecideFinal(approve, admitted)).state;
      assert r.gates[g] == Gate(ForRun, if approve then Approved else GateStatus.Rejected);
    }
  }

  lemma {:induction false} RunTracks(s: State, ops: seq<Op>)
    requires Inv(s) && MarkersOk(s) && VerdictTracks(s)
    ensures VerdictTracks(RunOps(s, ops))
    decreases |ops|
  {
    hide Inv, MarkersOk, Step, VerdictTracks;
    if ops != [] {
      StepInv(s, ops[0]);
      StepUndecided(s, ops[0]);
      StepTracks(s, ops[0]);
      RunTracks(Step(s, ops[0]).state, ops[1..]);
    }
  }

  /** In every reachable state a finally approved run has an approved final gate and no rejected one,
      and a finally rejected run a rejected one and no approved one. */
  lemma FinalVerdictIsTheGates(s: State)
    requires Reachable(s)
    ensures s.run == FinalApproved ==> FinalGate(s.gates, Approved) && !FinalGate(s.gates, GateStatus.Rejected)
    ensures s.run == FinalRejected ==> FinalGate(s.gates, GateStatus.Rejected) && !FinalGate(s.gates, Approved)
  {
    var plan, clean, ops :| ValidPlan(plan) && s == RunOps(Start(plan, clean), ops);
    StartInv(plan, clean);
    RunTracks(Start(plan, clean), ops);
    RunInv(Start(plan, clean), ops);
    OneVerdict(s.gates);
  }

  lemma OneVerdict(gates: seq<Gate>)
    requires Disciplined(gates)
    ensures !(FinalGate(gates, Approved) && FinalGate(gates, GateStatus.Rejected))
  {
    if FinalGate(gates, Approved) && FinalGate(gates, GateStatus.Rejected) {
      var i :| 0 <= i < |gates| && gates[i] == Gate(ForRun, Approved);
      var j :| 0 <= j < |gates| && gates[j] == Gate(ForRun, GateStatus.Rejected);
      OneFinalDecision(gates, i, j);
    }
  }
}
