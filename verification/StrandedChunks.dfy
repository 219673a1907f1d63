/** Chunks that wait at a gate nobody can decide any more. */
module StrandedChunks {
  import opened Wrappers
  import opened ChunkPlan
  import opened ApprovalGates
  import opened AttemptLedger
  import opened RunState
  import opened ChunkDriver
  import opened Orchestrator
  import opened RunInvariant
  import opened DriverSafety
  import opened DriverTrace
  import opened RunSafety
  import opened RunTheorems
  import opened RunProgress

  /** The chunk awaits approval, but none of its gates is pending. */
  predicate Stranded(s: State, n: int) {
    StatusIs(s, n, AwaitingChunk) && !HasPending(s.gates, ForChunk(n))
  }

  /** Chunk n stands as before: same row, same pending gate if any. */
  ghost predicate SameSeat(s: State, r: State, n: int) {
    && n in s.chunks && n in r.chunks && r.chunks[n] == s.chunks[n]
    && (HasPending(r.gates, ForChunk(n)) <==> HasPending(s.gates, ForChunk(n)))
  }

  lemma PendingSomewhere(gates: seq<Gate>, kind: GateKind)
    ensures HasPending(gates, kind) <==> exists g :: 0 <= g < |gates| && gates[g] == Gate(kind, Pending)
  {}

  /** A pass over chunk m leaves every other chunk in its seat. */
  lemma FrameKeepsSeat(s: State, r: State, m: int, n: int)
    requires Frame(s, r, m) && n != m && n in s.chunks
    ensures SameSeat(s, r, n)
  {
    PendingSomewhere(s.gates, ForChunk(n));
    PendingSomewhere(r.gates, ForChunk(n));
    forall g | 0 <= g < |s.gates| && s.gates[g] == Gate(ForChunk(n), Pending)
      ensures r.gates[g] == Gate(ForChunk(n), Pending)
    {
      assert r.gates[g].kind == ForChunk(n);
    }
  }

  /** A pass never leaves its own chunk stranded: it pauses with its gate open, or not at all. */
  lemma PassNeverStrands(s: State, n: int, e: Entry, o: Answers)
    requires n in s.chunks && 1 <= n <= |s.plan|
    ensures !Stranded(Drive(s, n, e, o).state, n)
  {
    DriveTrace(s, n, e, o);
    var d := Drive(s, n, e, o);
    hide Drive;
    if d.end == ChunkCommitted {
      CommittedMeansCompleted(s, n, e, o);
    } else if d.end == ChunkBroken {
      BrokenNeverWaits(s, n, e, o);
    }
  }

  lemma BrokenNeverWaits(s: State, n: int, e: Entry, o: Answers)
    requires n in s.chunks && 1 <= n <= |s.plan| && Drive(s, n, e, o).end == ChunkBroken
    ensures !StatusIs(Drive(s, n, e, o).state, n, AwaitingChunk)
  {
    hide Drive, Reported;
    if e.refinement.Some? {
      RefinementDriveMarker(s, n, e, o);
    } else {
      BrokenPass(s, n, e, o);
    }
  }

  /** For any chunk: stranded after a pass exactly if stranded before it. */
  lemma DriveStrands(s: State, m: int, e: Entry, o: Answers, n: int)
    requires m in s.chunks && 1 <= m <= |s.plan| && n in s.chunks
    requires !StatusIs(s, m, AwaitingChunk)
    ensures Stranded(Drive(s, m, e, o).state, n) <==> Stranded(s, n)
  {
    hide Drive, Frame;
    if n == m {
      PassNeverStrands(s, m, e, o);
    } else {
      DriveFrame(s, m, e, o);
      FrameKeepsSeat(s, Drive(s, m, e, o).state, m, n);
    }
  }

  // ----- operation by operation ---------------------------------------------------------------

  /** Opening final approval touches no chunk gate. */
  lemma FinalizeStrands(s: State, n: int)
    ensures Stranded(Finalize(s).state, n) <==> Stranded(s, n)
    ensures Stranded(s, n) ==> Finalize(s).reply == Raised
  {
    var r := Finalize(s).state;
    PendingSomewhere(s.gates, ForChunk(n));
    PendingSomewhere(r.gates, ForChunk(n));
    assert forall g :: 0 <= g < |s.gates| ==> r.gates[g] == s.gates[g];
  }

  lemma ExecuteStrands(s: State, todo: seq<int>, sheet: AnswerSheet, n: int)
    requires Inv(s) && Queue(s, todo) && n in s.chunks
    ensures var r := ExecuteFrom(s, todo, sheet);
            (Stranded(r.state, n) <==> Stranded(s, n)) && (Stranded(s, n) ==> r.reply != FinalApprovalOpened)
    decreases |todo|
  {
    hide Inv, Drive, Stranded, Finalize;
    if todo == [] {
      FinalizeStrands(s, n);
    } else {
      var m, e, o := todo[0], Entry(Fresh, None), AnswersFor(sheet, todo[0]);
      assert Queued(s, m);
      DriveStrands(s, m, e, o, n);
      DriveInv(s, m, e, o);
      DriveFrame(s, m, e, o);
      var d := Drive(s, m, e, o);
      if d.end == ChunkCommitted {
        QueueTail(s, d.state, todo);
        ExecuteStrands(d.state, todo[1..], sheet, n);
      }
    }
  }

  lemma ResumedStrands(s: State, m: int, o: Answers, n: int)
    requires Inv(s) && Queued(s, m) && 1 <= m <= |s.plan| && n in s.chunks
    ensures Stranded(ResumeDrive(s, m, o).state, n) <==> Stranded(s, n)
  {
    hide Drive, HistoryOk, ApprovalsOk, GatesOk, ReopenOk, LedgerTracks;
    NeverSkips(s, m, o);
    DriveStrands(s, m, Entry(EntryMode.Resume, None), o, n);
  }

  lemma ResumeStrands(s: State, todo: seq<int>, sheet: AnswerSheet, n: int)
    requires Inv(s) && Queue(s, todo) && n in s.chunks
    ensures var r := ResumeFrom(s, todo, sheet);
            (Stranded(r.state, n) <==> Stranded(s, n)) && (Stranded(s, n) ==> r.reply != FinalApprovalOpened)
    decreases |todo|
  {
    hide Inv, ResumeDrive, Stranded, Finalize;
    if todo == [] {
      FinalizeStrands(s, n);
    } else {
      var m, o := todo[0], AnswersFor(sheet, todo[0]);
      assert Queued(s, m);
      ResumedStrands(s, m, o, n);
      ResumeDriveInv(s, m, o);
      var d := ResumeDrive(s, m, o);
      if d.end == Drove(ChunkCommitted) {
        QueueTail(s, d.state, todo);
        ResumeStrands(d.state, todo[1..], sheet, n);
      }
    }
  }

  lemma BatchStrands(s: State, op: Op, n: int)
    requires Inv(s) && n in s.chunks && (op.DoExecute? || op.DoResume?)
    ensures Stranded(Step(s, op).state, n) <==> Stranded(s, n)
    ensures Stranded(s, n) ==> Step(s, op).reply != FinalApprovalOpened
  {
    hide HistoryOk, ApprovalsOk, GatesOk, ReopenOk, LedgerTracks, ChunksOk, DriftGuardAccepts, ExecuteFrom,
        ResumeFrom, Queue;
    if op.DoExecute? {
      if ExecutePrelude(s, op.echecks).Go? {
        PendingQueue(s);
        ExecuteStrands(s, Select(s, |s.plan|, {PendingChunk}), op.sheet, n);
      }
    } else {
      NothingRunning(s);
      if ResumePrelude(s, op.rchecks).Go? {
        var started := s.(run := ResumeRunning);
        RunStatusInv(s, ResumeRunning);
        ResumeQueue(started);
        ResumeStrands(started, Select(started, |s.plan|, RESUMABLE), op.sheet, n);
      }
    }
  }

  lemma RetryStrands(s: State, m: int, kind: RetryKind, admitted: bool, o: Answers, n: int)
    requires n in s.chunks
    ensures var r := Retry(s, m, kind, admitted, o);
            (Stranded(r.state, n) <==> Stranded(s, n)) && r.reply != FinalApprovalOpened
  {
    hide Drive, Stranded;
    if StatusIs(s, m, Failed) && 1 <= m <= |s.plan| {
      DriveStrands(s, m, Entry(if kind == SteeredRetry then Steered else HumanRetry, None), o, n);
    }
  }

  lemma RefineStrands(s: State, m: int, admitted: bool, o: Answers, n: int)
    requires n in s.chunks
    ensures var r := Refine(s, m, admitted, o);
            (Stranded(r.state, n) <==> Stranded(s, n)) && r.reply != FinalApprovalOpened
  {
    hide Drive;
    if m in s.chunks && 1 <= m <= |s.plan| && RefineEligible(s, m) {
      var ready := RefinementStart(s);
      SupersedeKeepsSeats(s, n);
      DriveStrands(ready, m, RefinementEntry(s, m), o, n);
    }
  }

  lemma SupersedeKeepsSeats(s: State, n: int)
    ensures Stranded(RefinementStart(s), n) <==> Stranded(s, n)
  {
    PendingSomewhere(s.gates, ForChunk(n));
    PendingSomewhere(SupersedeFinal(s.gates), ForChunk(n));
  }

  /** Deciding one gate takes away at most the pending gate of its own chunk. */
  lemma DecideSeat(gates: seq<Gate>, g: int, verdict: GateStatus, n: int)
    requires 0 <= g < |gates| && verdict != Pending && Disciplined(gates)
    ensures HasPending(Decide(gates, g, verdict), ForChunk(n)) <==>
              HasPending(gates, ForChunk(n)) && gates[g] != Gate(ForChunk(n), Pending)
  {
    var r := Decide(gates, g, verdict);
    PendingSomewhere(gates, ForChunk(n));
    PendingSomewhere(r, ForChunk(n));
    forall k | 0 <= k < |gates| && gates[k] == Gate(ForChunk(n), Pending) ensures k == g || r[k] == gates[k] {}
    if gates[g] == Gate(ForChunk(n), Pending) {
      forall k | 0 <= k < |r| && r[k] == Gate(ForChunk(n), Pending) ensures false {
        PendingIsNewest(gates, ForChunk(n), k);
        PendingIsNewest(gates, ForChunk(n), g);
      }
    }
  }

  /** The one way an approval strands its chunk: the gate is approved, then the commit fails. */
  predicate ApprovalStrands(s: State, m: int, o: ApproveAnswers) {
    && StatusIs(s, m, AwaitingChunk) && HasPending(s.gates, ForChunk(m))
    && o.loads && o.touches && !s.treeClean && !o.commitWorks
  }

  /** Chunk m has left the waiting room, every other chunk is in its seat. */
  ghost predicate OnlyLeaves(s: State, r: State, m: int) {
    && !StatusIs(r, m, AwaitingChunk) && r.chunks.Keys == s.chunks.Keys
    && forall n :: n in s.chunks && n != m ==>
         r.chunks[n] == s.chunks[n] && (HasPending(r.gates, ForChunk(n)) <==> HasPending(s.gates, ForChunk(n)))
  }

  lemma UndoLeaves(s: State, m: int, fallback: Summary, reply: Reply)
    requires StatusIs(s, m, AwaitingChunk) && s.chunks[m].summary.Refinement?
    ensures OnlyLeaves(s, UndoRefinement(s, m, fallback, reply).state, m)
    ensures UndoRefinement(s, m, fallback, reply).reply == reply
              || UndoRefinement(s, m, fallback, reply).reply == Raised
  {
    hide OpenFinalGate, AllCompleted, HasPending;
    var restored := RestorePrior(s, m, fallback);
    var r := UndoRefinement(s, m, fallback, reply).state;
    forall n ensures HasPending(r.gates, ForChunk(n)) <==> HasPending(s.gates, ForChunk(n)) {
      FinalGateKeepsSeats(restored, n);
    }
  }

  lemma FinalGateKeepsSeats(s: State, n: int)
    ensures MarkAwaitingFinal(s).Some? ==>
              (HasPending(MarkAwaitingFinal(s).value.gates, ForChunk(n)) <==> HasPending(s.gates, ForChunk(n)))
  {
    if MarkAwaitingFinal(s).Some? {
      var r := MarkAwaitingFinal(s).value.gates;
      PendingSomewhere(s.gates, ForChunk(n));
      PendingSomewhere(r, ForChunk(n));
      assert forall g :: 0 <= g < |s.gates| ==> r[g] == s.gates[g];
    }
  }

  lemma CommitLeaves(s: State, m: int, residue: bool)
    requires StatusIs(s, m, AwaitingChunk) && HasPending(s.gates, ForChunk(m))
    ensures var decided := s.(gates := Decide(s.gates, NewestPending(s.gates, ForChunk(m)), Approved));
            var done := ApprovedCommit(s, m, residue);
            OnlyLeaves(decided, done, m) && OnlyLeaves(decided, Finalize(done).state, m)
  {
    var done := ApprovedCommit(s, m, residue);
    forall n ensures HasPending(Finalize(done).state.gates, ForChunk(n)) <==> HasPending(done.gates, ForChunk(n)) {
      FinalGateKeepsSeats(done, n);
    }
  }

  lemma LeavesStrands(s: State, decided: State, r: State, m: int, n: int)
    requires n in s.chunks && decided.chunks == s.chunks && StatusIs(s, m, AwaitingChunk)
    requires HasPending(s.gates, ForChunk(m)) && OnlyLeaves(decided, r, m)
    requires n != m ==> (HasPending(decided.gates, ForChunk(n)) <==> HasPending(s.gates, ForChunk(n)))
    ensures Stranded(r, n) <==> Stranded(s, n)
  {}

  lemma ApproveStrands(s: State, m: int, o: ApproveAnswers, n: int)
    requires Disciplined(s.gates) && n in s.chunks
    ensures var r := Approve(s, m, o);
            && (Stranded(r.state, n) <==> Stranded(s, n) || (n == m && ApprovalStrands(s, m, o)))
            && (Stranded(s, n) ==> r.reply != FinalApprovalOpened)
  {
    hide UndoRefinement, ApprovedCommit, Finalize, Disciplined;
    if StatusIs(s, m, AwaitingChunk) && o.loads && HasPending(s.gates, ForChunk(m)) {
      var g := NewestPending(s.gates, ForChunk(m));
      var decided := s.(gates := Decide(s.gates, g, Approved));
      var r := Approve(s, m, o);
      DecideSeat(s.gates, g, Approved, n);
      if s.chunks[m].summary.Refinement? && (!o.touches || s.treeClean) {
        UndoLeaves(decided, m, s.chunks[m].summary, RefinementNoOp);
        LeavesStrands(s, decided, r.state, m, n);
      } else if !o.touches || s.treeClean {
        LeavesStrands(s, decided, r.state, m, n);
      } else if o.commitWorks {
        CommitLeaves(s, m, o.residue);
        LeavesStrands(s, decided, r.state, m, n);
        StrandedNeverFinal(s, m, o, n);
      }
    }
  }

  lemma StrandedNeverFinal(s: State, m: int, o: ApproveAnswers, n: int)
    requires StatusIs(s, m, AwaitingChunk) && HasPending(s.gates, ForChunk(m)) && n in s.chunks
    ensures Stranded(s, n) ==> !AllCompleted(ApprovedCommit(s, m, o.residue))
  {
    assert n != m && Stranded(s, n) ==> StatusIs(ApprovedCommit(s, m, o.residue), n, AwaitingChunk);
  }

  lemma RejectStrands(s: State, m: int, loads: bool, o: RollbackAnswer, n: int)
    requires Disciplined(s.gates) && n in s.chunks
    ensures var r := Reject(s, m, loads, o);
            (Stranded(r.state, n) <==> Stranded(s, n)) && r.reply != FinalApprovalOpened
  {
    hide UndoRefinement, Disciplined;
    if StatusIs(s, m, AwaitingChunk) && loads && o.RolledBack? && HasPending(s.gates, ForChunk(m)) {
      var g := NewestPending(s.gates, ForChunk(m));
      var decided := s.(treeClean := true, gates := Decide(s.gates, g, GateStatus.Rejected));
      DecideSeat(s.gates, g, GateStatus.Rejected, n);
      if s.chunks[m].summary.Refinement? {
        UndoLeaves(decided, m, RetainedNote, RefinementRejected);
      }
      LeavesStrands(s, decided, Reject(s, m, loads, o).state, m, n);
    }
  }

  lemma FinalDecisionStrands(s: State, approve: bool, admitted: bool, n: int)
    requires Disciplined(s.gates)
    ensures Stranded(DecideFinal(s, approve, admitted).state, n) <==> Stranded(s, n)
  {
    var g := NewestPending(s.gates, ForRun);
    if g >= 0 {
      DecideSeat(s.gates, g, if approve then Approved else GateStatus.Rejected, n);
    }
  }

  // ----- every step, every run --------------------------------------------------------------------

  /** The operation decides the chunk's pending gate behind its back, or approves it and then
      fails to commit. */
  predicate Strands(s: State, op: Op, n: int) {
    || (op.DoApprove? && op.n == n && ApprovalStrands(s, n, op.approveAnswers))
    || (op.DoDecideGate? && 0 <= op.gate < |s.gates| && s.gates[op.gate] == Gate(ForChunk(n), Pending))
  }

  /** A chunk is stranded after a step exactly if it was before, or the step is one of the two
      that strand it. */
  lemma StrandsIff(s: State, op: Op, n: int)
    requires Inv(s) && n in s.chunks
    ensures Stranded(Step(s, op).state, n) <==> Stranded(s, n) || Strands(s, op, n)
    ensures Stranded(s, n) ==> Step(s, op).reply != FinalApprovalOpened
  {
    hide HistoryOk, ApprovalsOk, ReopenOk, LedgerTracks, ChunksOk, ExecuteRun, ResumeRun, Approve, Reject, Retry,
        Refine, DecideFinal;
    hide Disciplined;
    match op
    case DoExecute(_, _) => BatchStrands(s, op, n);
    case DoResume(_, _) => BatchStrands(s, op, n);
    case DoApprove(m, o) => ApproveStrands(s, m, o, n);
    case DoReject(m, loads, o) => RejectStrands(s, m, loads, o, n);
    case DoRetry(m, kind, admitted, o) => RetryStrands(s, m, kind, admitted, o, n);
    case DoRefine(m, admitted, o) => RefineStrands(s, m, admitted, o, n);
    case DoDecideGate(g, approve) =>
      if 0 <= g < |s.gates| && s.gates[g].status == Pending {
        DecideSeat(s.gates, g, if approve then Approved else GateStatus.Rejected, n);
      }
    case DoDecideFinal(approve, admitted) =>
      FinalDecisionStrands(s, approve, admitted, n);
      FinalReplies(s, approve, admitted);
    case _ =>
  }

  lemma FinalReplies(s: State, approve: bool, admitted: bool)
    ensures DecideFinal(s, approve, admitted).reply != FinalApprovalOpened
  {}

  /** There is no way back: a stranded chunk is never completed, retried, rejected or refined
      by any later operation, and its run never reaches final approval. */
  lemma {:induction false} StrandedForever(s: State, ops: seq<Op>, n: int)
    requires Inv(s) && Stranded(s, n)
    ensures var r := RunOps(s, ops);
            Stranded(r, n) && !HasPending(r.gates, ForRun)
    decreases |ops|
  {
    hide HistoryOk, ApprovalsOk, ReopenOk, LedgerTracks, ChunksOk, Step, Disciplined;
    if ops != [] {
      StepInv(s, ops[0]);
      StrandsIff(s, ops[0], n);
      StrandedForever(Step(s, ops[0]).state, ops[1..], n);
    }
  }

  /** It happens: whenever a chunk waits at its gate with its patch in the tree, an approval
      whose commit fails strands it. */
  lemma FailedCommitStrands(s: State, n: int, o: ApproveAnswers, ops: seq<Op>)
    requires Reachable(s) && ApprovalStrands(s, n, o)
    ensures Stranded(RunOps(Approve(s, n, o).state, ops), n)
  {
    hide Inv, Reachable, Stranded, ApprovalStrands;
    ReachableInv(s);
    WaitingIsChunk(s, n, o);
    var op := DoApprove(n, o);
    assert Strands(s, op, n);
    StrandsIff(s, op, n);
    StepInv(s, op);
    StrandedForever(Approve(s, n, o).state, ops, n);
  }

  lemma WaitingIsChunk(s: State, n: int, o: ApproveAnswers)
    requires ApprovalStrands(s, n, o)
    ensures n in s.chunks
  {}
}
