/** Every operation keeps the invariant, so every reachable state has it. */
module RunSafety {
  import opened ChunkPlan
  import opened Wrappers
  import opened ApprovalGates
  import opened AttemptLedger
  import opened RunState
  import opened ChunkDriver
  import opened Orchestrator
  import opened RunInvariant
  import opened DriverSafety

  // ----- finalize ------------------------------------------------------------------------

  lemma FinalizeInv(s: State)
    requires Inv(s)
    ensures Inv(Finalize(s).state) && Advances(s, Finalize(s).state)
  {
    if MarkAwaitingFinal(s).Some? {
      MarkFinalInv(s);
    }
  }

  lemma RunStatusInv(s: State, run: RunStatus)
    requires Inv(s) && run != ChunkApproved && run != AwaitingFinalApproval
    ensures Inv(s.(run := run))
  {}

  // ----- execute and resume ----------------------------------------------------------------

  /** The listed chunks are distinct and none of them is completed or waiting. */
  ghost predicate Queue(s: State, todo: seq<int>) {
    && Todo(s, todo)
    && (forall i, j :: 0 <= i < j < |todo| ==> todo[i] < todo[j])
    && (forall n :: n in todo ==> Queued(s, n))
  }

  ghost predicate Queued(s: State, n: int) {
    StatusIs(s, n, PendingChunk) || StatusIs(s, n, Failed) || StatusIs(s, n, RejectedChunk)
  }

  lemma QueueTail(s: State, r: State, todo: seq<int>)
    requires todo != [] && Queue(s, todo) && Frame(s, r, todo[0])
    ensures Queue(r, todo[1..])
  {
    forall n | n in todo[1..] ensures n in todo && n != todo[0] {
      var i :| 1 <= i < |todo| && todo[i] == n;
    }
  }

  lemma ExecuteFromInv(s: State, todo: seq<int>, sheet: AnswerSheet)
    requires Inv(s) && Queue(s, todo)
    ensures Inv(ExecuteFrom(s, todo, sheet).state) && Advances(s, ExecuteFrom(s, todo, sheet).state)
    decreases |todo|
  {
    if todo == [] {
      FinalizeInv(s);
    } else {
      var e, o := Entry(Fresh, None), AnswersFor(sheet, todo[0]);
      assert Queued(s, todo[0]);
      DriveInv(s, todo[0], e, o);
      DriveFrame(s, todo[0], e, o);
      var d := Drive(s, todo[0], e, o);
      if d.end == ChunkCommitted {
        QueueTail(s, d.state, todo);
        ExecuteFromInv(d.state, todo[1..], sheet);
        AdvancesTransitive(s, d.state, ExecuteFrom(s, todo, sheet).state);
      }
    }
  }

  /** No chunk resume picks up has a commit, so the checkpoint phase never skip-completes. */
  lemma NeverSkips(s: State, n: int, o: Answers)
    requires Inv(s) && Queued(s, n)
    ensures !Committed(s.history, n) && ResumeDrive(s, n, o).end != Skipped
  {
    assert ChunkOk(s.plan, s.history, n, s.chunks[n]);
  }

  lemma SkipBlockedInv(s: State, n: int)
    requires Inv(s) && Queued(s, n)
    ensures var r := Record(FailChunk(s, n), n, EntryMode.Resume, AttemptFailed); Inv(r) && Frame(s, r, n)
  {
    var e := Entry(EntryMode.Resume, None);
    RestHolds(s, n, e);
    assert ChunkOk(s.plan, s.history, n, s.chunks[n]);
    FailedIsOk(s, n, FailChunk(s, n).chunks[n], RunFailed);
    RecordInv(FailChunk(s, n), n, EntryMode.Resume, AttemptFailed);
    OwnFrame(s, FailChunk(s, n), n);
    RecordFrame(FailChunk(s, n), n, EntryMode.Resume, AttemptFailed);
  }

  lemma ResumeDriveInv(s: State, n: int, o: Answers)
    requires Inv(s) && Queued(s, n)
    ensures var r := ResumeDrive(s, n, o);
            Inv(r.state) && Frame(s, r.state, n) && r.end != Skipped
  {
    hide Drive, Frame, HistoryOk, ApprovalsOk, GatesOk, ReopenOk, LedgerTracks;
    NeverSkips(s, n, o);
    var e := Entry(EntryMode.Resume, None);
    assert Drivable(s, n, e);
    DriveInv(s, n, e, o);
    DriveFrame(s, n, e, o);
    SkipBlockedInv(s, n);
    RunStatusInv(s, RunFailed);
    OwnFrame(s, s.(run := RunFailed), n);
  }

  lemma ResumeFromInv(s: State, todo: seq<int>, sheet: AnswerSheet)
    requires Inv(s) && Queue(s, todo)
    ensures Inv(ResumeFrom(s, todo, sheet).state) && Advances(s, ResumeFrom(s, todo, sheet).state)
    decreases |todo|
  {
    hide Inv, ResumeDrive, Finalize, Advances;
    if todo == [] {
      FinalizeInv(s);
    } else {
      var o := AnswersFor(sheet, todo[0]);
      assert Queued(s, todo[0]);
      ResumeDriveInv(s, todo[0], o);
      var d := ResumeDrive(s, todo[0], o);
      if d.end == Drove(ChunkCommitted) {
        QueueTail(s, d.state, todo);
        ResumeFromInv(d.state, todo[1..], sheet);
        AdvancesTransitive(s, d.state, ResumeFrom(s, todo, sheet).state);
      }
    }
  }

  ghost function PreludeState(p: Prelude): State {
    if p.Stop? then p.outcome.state else p.state
  }

  lemma ExecutePreludeInv(s: State, checks: ExecuteChecks)
    requires Inv(s)
    ensures var r := PreludeState(ExecutePrelude(s, checks)); Inv(r) && Advances(s, r)
    ensures ExecutePrelude(s, checks).Go? ==> PreludeState(ExecutePrelude(s, checks)) == s
  {
    RunStatusInv(s, RunFailed);
    RunStatusInv(s, AwaitingMemoryConflict);
  }

  lemma ExecuteInv(s: State, checks: ExecuteChecks, sheet: AnswerSheet)
    requires Inv(s)
    ensures Inv(ExecuteRun(s, checks, sheet).state) && Advances(s, ExecuteRun(s, checks, sheet).state)
  {
    hide ExecuteFrom, HistoryOk, ApprovalsOk, GatesOk, ReopenOk, LedgerTracks;
    ExecutePreludeInv(s, checks);
    if ExecutePrelude(s, checks).Go? {
      ExecuteFromInv(s, Select(s, |s.plan|, {PendingChunk}), sheet);
    }
  }

  lemma NothingRunning(s: State)
    requires Inv(s)
    ensures ResetStaleRunning(s) == s
  {
    forall n | n in s.chunks ensures s.chunks[n].status != Running {
      assert ChunkOk(s.plan, s.history, n, s.chunks[n]);
    }
    assert ResetStaleRunning(s).chunks == s.chunks;
  }

  lemma ResumeQueue(s: State)
    requires Inv(s)
    ensures Queue(s, Select(s, |s.plan|, RESUMABLE))
  {
    var todo := Select(s, |s.plan|, RESUMABLE);
    forall n | n in todo ensures Queued(s, n) {
      assert ChunkOk(s.plan, s.history, n, s.chunks[n]);
    }
  }

  lemma ResumePreludeInv(s: State, checks: ResumeChecks)
    requires Inv(s)
    ensures var r := PreludeState(ResumePrelude(s, checks)); Inv(r) && Advances(s, r)
  {
    hide Inv, DriftGuardAccepts, Select;
    NothingRunning(s);
    RunStatusInv(s, ResumeRunning);
    RunStatusInv(s, AwaitingMemoryConflict);
    RunStatusInv(s, RunFailed);
  }

  lemma ResumeInv(s: State, checks: ResumeChecks, sheet: AnswerSheet)
    requires Inv(s)
    ensures Inv(ResumeRun(s, checks, sheet).state) && Advances(s, ResumeRun(s, checks, sheet).state)
  {
    ResumePreludeInv(s, checks);
    var p := ResumePrelude(s, checks);
    if p.Go? {
      ResumeQueue(p.state);
      ResumeFromInv(p.state, Select(p.state, |s.plan|, RESUMABLE), sheet);
      AdvancesTransitive(s, p.state, ResumeRun(s, checks, sheet).state);
    }
  }

  // ----- gate decisions ----------------------------------------------------------------------

  lemma DecideInv(s: State, g: int, verdict: GateStatus)
    requires Inv(s) && 0 <= g < |s.gates|
    requires verdict == Approved || verdict == GateStatus.Rejected
    ensures var r := s.(gates := Decide(s.gates, g, verdict)); Inv(r) && Advances(s, r)
  {
    var r := s.(gates := Decide(s.gates, g, verdict));
    DecideKeeps(s.gates, g, verdict);
    ApprovalsGrow(s.plan, s.history, s.gates, r.gates);
    NoPendingStays(s.gates, g, verdict);
    ReopenStays(s.gates, g, verdict);
  }

  lemma NoPendingStays(gates: seq<Gate>, g: int, verdict: GateStatus)
    requires 0 <= g < |gates| && verdict != Pending
    ensures HasPending(Decide(gates, g, verdict), ForRun) ==> HasPending(gates, ForRun)
  {
    var r := Decide(gates, g, verdict);
    var k := NewestPending(r, ForRun);
    assert k >= 0 ==> gates[k] == r[k];
  }

  lemma ReopenStays(gates: seq<Gate>, g: int, verdict: GateStatus)
    requires 0 <= g < |gates|
    ensures FinalReopenable(gates) ==> FinalReopenable(Decide(gates, g, verdict))
  {
    var r := Decide(gates, g, verdict);
    assert Newest(r, ForRun) == Newest(gates, ForRun) by {
      assert forall i :: 0 <= i < |gates| ==> gates[i].kind == r[i].kind;
    }
  }

  // ----- approve and reject ------------------------------------------------------------------

  /** After its gate is decided, the awaiting chunk's row is all the invariant waits for. */
  lemma DecidedRest(s: State, n: int, verdict: GateStatus)
    requires Inv(s) && StatusIs(s, n, AwaitingChunk)
    requires verdict == Approved || verdict == GateStatus.Rejected
    requires HasPending(s.gates, ForChunk(n))
    requires forall m :: m in s.chunks && m != n ==> !SupersededMarker(s.chunks[m])
    ensures Rest(s.(gates := Decide(s.gates, NewestPending(s.gates, ForChunk(n)), verdict)), n)
  {
    var g := NewestPending(s.gates, ForChunk(n));
    var r := s.(gates := Decide(s.gates, g, verdict));
    DecideInv(s, g, verdict);
    assert !AllCompleted(s);
    forall k | 0 <= k < |r.gates| && r.gates[k].status == Pending && r.gates[k].kind.ForChunk?
      ensures r.gates[k].kind.number != n
    {
      if r.gates[k].kind.number == n {
        PendingIsNewest(s.gates, ForChunk(n), k);
      }
    }
  }

  /** While one chunk waits, no other can carry a superseding refinement. */
  lemma OnlySuperseder(s: State, n: int)
    requires Inv(s) && StatusIs(s, n, AwaitingChunk)
    ensures forall m :: m in s.chunks && m != n ==> !SupersededMarker(s.chunks[m])
  {}

  lemma UndoInv(s: State, n: int, fallback: Summary, reply: Reply)
    requires Rest(s, n) && StatusIs(s, n, AwaitingChunk) && s.chunks[n].summary.Refinement?
    requires ChunkOk(s.plan, s.history, n, s.chunks[n])
    ensures var r := UndoRefinement(s, n, fallback, reply).state; Inv(r) && Advances(s, r)
  {
    hide ApprovalsOk, LedgerTracks, HistoryOk, GatesOk, ReopenOk;
    var restored := RestorePrior(s, n, fallback);
    RestIgnores(s, n, restored.chunks[n], s.treeClean, s.run);
    assert restored == SetChunk(s, n, restored.chunks[n]).(treeClean := s.treeClean, run := s.run);
    Rebuild(restored, n);
    SettleInv(restored, ContextOf(s.chunks[n].summary));
    if MarkAwaitingFinal(restored).Some? {
      OpenFinalGateKeeps(restored.gates);
    }
  }

  lemma ApproveInv(s: State, n: int, o: ApproveAnswers)
    requires Inv(s)
    ensures Inv(Approve(s, n, o).state) && Advances(s, Approve(s, n, o).state)
  {
    if StatusIs(s, n, AwaitingChunk) && o.loads && HasPending(s.gates, ForChunk(n)) {
      var c := s.chunks[n];
      var g := NewestPending(s.gates, ForChunk(n));
      var decided := s.(gates := Decide(s.gates, g, Approved));
      OnlySuperseder(s, n);
      DecidedRest(s, n, Approved);
      DecideInv(s, g, Approved);
      assert ChunkOk(s.plan, s.history, n, c);
      if c.summary.Refinement? && (!o.touches || s.treeClean) {
        UndoInv(decided, n, c.summary, RefinementNoOp);
        AdvancesTransitive(s, decided, Approve(s, n, o).state);
      } else if !o.touches || s.treeClean {
        FailedIsOk(decided, n, c.(status := Failed), RunFailed);
      } else if o.commitWorks {
        ApproveCommits(s, n, o);
      }
    }
  }

  lemma ApprovedCommitInv(s: State, n: int, residue: bool)
    requires Inv(s) && StatusIs(s, n, AwaitingChunk) && HasPending(s.gates, ForChunk(n))
    ensures Inv(ApprovedCommit(s, n, residue)) && Advances(s, ApprovedCommit(s, n, residue))
  {
    var c := s.chunks[n];
    var g := NewestPending(s.gates, ForChunk(n));
    var decided := s.(gates := Decide(s.gates, g, Approved));
    OnlySuperseder(s, n);
    DecidedRest(s, n, Approved);
    DecideInv(s, g, Approved);
    forall i | 0 <= i < |s.history| && s.history[i].origin.ByApproval? ensures s.history[i].origin.gate != g {
      assert ApprovedFor(s.gates, s.history[i]);
    }
    var mode := if c.summary.Refinement? || c.summary.Recovered? then HumanRetry else Fresh;
    assert ChunkOk(s.plan, s.history, n, c);
    CommitInv(decided, n, ByApproval(g), residue, mode, ChunkApproved);
  }

  lemma ApproveCommits(s: State, n: int, o: ApproveAnswers)
    requires Inv(s) && StatusIs(s, n, AwaitingChunk) && HasPending(s.gates, ForChunk(n))
    requires o == ApproveAnswers(true, true, true, o.residue) && !s.treeClean
    ensures Inv(Approve(s, n, o).state) && Advances(s, Approve(s, n, o).state)
  {
    var done := ApprovedCommit(s, n, o.residue);
    ApprovedCommitInv(s, n, o.residue);
    FinalizeInv(done);
    AdvancesTransitive(s, done, Finalize(done).state);
    assert Approve(s, n, o).state == done || Approve(s, n, o).state == Finalize(done).state;
  }

  lemma PlainRejection(s: State, n: int)
    requires Rest(s, n) && StatusIs(s, n, AwaitingChunk) && !s.chunks[n].summary.Refinement?
    requires ChunkOk(s.plan, s.history, n, s.chunks[n])
    ensures Inv(SetStatus(s, n, RejectedChunk).(run := RunFailed))
  {
    hide HistoryOk, ApprovalsOk, LedgerTracks;
    var r := SetStatus(s, n, RejectedChunk).(run := RunFailed);
    RestIgnores(s, n, r.chunks[n], s.treeClean, RunFailed);
    assert r == SetChunk(s, n, r.chunks[n]).(treeClean := s.treeClean, run := RunFailed);
    Rebuild(r, n);
  }

  lemma RejectInvariant(s: State, n: int, loads: bool, o: RollbackAnswer)
    requires Inv(s)
    ensures Inv(Reject(s, n, loads, o).state) && Advances(s, Reject(s, n, loads, o).state)
  {
    if StatusIs(s, n, AwaitingChunk) && loads && o.RolledBack? && HasPending(s.gates, ForChunk(n)) {
      hide HistoryOk, ApprovalsOk, GatesOk, ReopenOk, LedgerTracks, UndoRefinement, Grows;
      TreeInv(s, true);
      var c := s.chunks[n];
      var g := NewestPending(s.gates, ForChunk(n));
      var clean := s.(treeClean := true);
      var decided := clean.(gates := Decide(s.gates, g, GateStatus.Rejected));
      OnlySuperseder(s, n);
      DecidedRest(clean, n, GateStatus.Rejected);
      DecideInv(clean, g, GateStatus.Rejected);
      assert ChunkOk(s.plan, s.history, n, c);
      if c.summary.Refinement? {
        UndoInv(decided, n, RetainedNote, RefinementRejected);
        AdvancesTransitive(s, decided, Reject(s, n, loads, o).state);
      } else {
        PlainRejection(decided, n);
      }
    }
  }

  // ----- human attempts ------------------------------------------------------------------------

  lemma PlanOfInv(s: State, n: int)
    requires Inv(s) && n in s.chunks
    ensures 1 <= n <= |s.plan|
  {}

  lemma RetryInv(s: State, n: int, kind: RetryKind, admitted: bool, o: Answers)
    requires Inv(s)
    ensures Inv(Retry(s, n, kind, admitted, o).state) && Advances(s, Retry(s, n, kind, admitted, o).state)
  {
    hide Drive, Inv;
    if StatusIs(s, n, Failed) {
      PlanOfInv(s, n);
      var e := Entry(if kind == SteeredRetry then Steered else HumanRetry, None);
      DriveInv(s, n, e, o);
      DriveFrame(s, n, e, o);
    }
  }

  /** The state a superseding refinement starts from. */
  lemma SupersededReady(s: State)
    requires Inv(s) && s.run == AwaitingFinalApproval && HasPending(s.gates, ForRun)
    ensures var r := s.(gates := SupersedeFinal(s.gates), run := RunningChunks);
            && Inv(r) && Advances(s, r) && !HasPending(r.gates, ForRun) && FinalReopenable(r.gates)
  {
    var r := s.(gates := SupersedeFinal(s.gates), run := RunningChunks);
    SupersedeKeeps(s.gates);
    ApprovalsGrow(s.plan, s.history, s.gates, r.gates);
    var g := NewestPending(s.gates, ForRun);
    PendingIsNewest(s.gates, ForRun, g);
    assert Newest(r.gates, ForRun) == g;
  }

  lemma RefineInv(s: State, n: int, admitted: bool, o: Answers)
    requires Inv(s)
    ensures Inv(Refine(s, n, admitted, o).state) && Advances(s, Refine(s, n, admitted, o).state)
  {
    hide Drive, HistoryOk, ApprovalsOk, LedgerTracks;
    if n in s.chunks && 1 <= n <= |s.plan| && admitted && RefineEligible(s, n) {
      assert ChunkOk(s.plan, s.history, n, s.chunks[n]);
      var superseding := s.run == AwaitingFinalApproval;
      if !superseding || HasPending(s.gates, ForRun) {
        var ready := if superseding then s.(gates := SupersedeFinal(s.gates), run := RunningChunks) else s;
        var ctx := RefinementContext(s.run, superseding, PriorSummary(s.chunks[n].summary));
        if superseding {
          SupersededReady(s);
        }
        DriveInv(ready, n, Entry(Steered, Some(ctx)), o);
        DriveFrame(ready, n, Entry(Steered, Some(ctx)), o);
        AdvancesTransitive(s, ready, Refine(s, n, admitted, o).state);
      }
    }
  }

  // ----- every step, every run -------------------------------------------------------------------

  lemma StepInv(s: State, op: Op)
    requires Inv(s)
    ensures Inv(Step(s, op).state) && Advances(s, Step(s, op).state)
  {
    hide Inv, ExecuteRun, ResumeRun, Approve, Reject, Retry, Refine;
    match op
    case DoExecute(checks, sheet) => ExecuteInv(s, checks, sheet);
    case DoResume(checks, sheet) => ResumeInv(s, checks, sheet);
    case DoApprove(n, o) => ApproveInv(s, n, o);
    case DoReject(n, loads, o) => RejectInvariant(s, n, loads, o);
    case DoRetry(n, kind, admitted, o) => RetryInv(s, n, kind, admitted, o);
    case DoRefine(n, admitted, o) => RefineInv(s, n, admitted, o);
    case DoDecideGate(g, approve) =>
      if 0 <= g < |s.gates| {
        DecideInv(s, g, if approve then Approved else GateStatus.Rejected);
      }
    case DoDecideFinal(approve, admitted) =>
      var g := NewestPending(s.gates, ForRun);
      if g >= 0 {
        var verdict := if approve then Approved else GateStatus.Rejected;
        DecideInv(s, g, verdict);
        RunStatusInv(s.(gates := Decide(s.gates, g, verdict)), if approve then FinalApproved else FinalRejected);
      }
    case DoDecideMemoryConflict(approve) => RunStatusInv(s, if approve then PlanApproved else RunRejected);
    case DoSettleScopeRejection => RunStatusInv(s, RunFailed);
    case HumanTouchesTree(clean) => TreeInv(s, clean);
  }

  lemma TreeInv(s: State, clean: bool)
    requires Inv(s)
    ensures var r := s.(treeClean := clean); Inv(r) && Advances(s, r)
  {}

  function RunOps(s: State, ops: seq<Op>): State
    decreases |ops|
  {
    if ops == [] then s else RunOps(Step(s, ops[0]).state, ops[1..])
  }

  lemma StartInv(plan: seq<ChunkDefinition>, treeClean: bool)
    requires ValidPlan(plan)
    ensures Inv(Start(plan, treeClean))
  {
    var s := Start(plan, treeClean);
    forall n | 1 <= n <= |plan| ensures n in s.chunks {
      assert plan[n - 1].number == n;
    }
  }

  /** Safety over whole runs: whatever operations happen in whatever order with whatever
      answers, the invariant holds and nothing recorded is taken back. */
  lemma {:induction false} RunInv(s: State, ops: seq<Op>)
    requires Inv(s)
    ensures Inv(RunOps(s, ops)) && Advances(s, RunOps(s, ops))
    decreases |ops|
  {
    if ops != [] {
      StepInv(s, ops[0]);
      RunInv(Step(s, ops[0]).state, ops[1..]);
      AdvancesTransitive(s, Step(s, ops[0]).state, RunOps(s, ops));
    }
  }
}
