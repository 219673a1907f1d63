/** The run as the program keeps it: rows and a working tree that the operations change
    step by step (backend/pipeline/chunked_orchestrator.py, chunk_driver.py,
    approval_gate.py, chunk_attempt_store.py). Each method is proved to take the state
    exactly where the function of the same operation takes it, so every theorem about
    runs of those functions is a theorem about runs of these methods. */
module PipelineStore {
  import opened ChunkPlan
  import opened Wrappers
  import opened ApprovalGates
  import opened AttemptLedger
  import opened RunState
  import opened ChunkDriver
  import opened Orchestrator
  import opened DriverSafety
  import opened RunTheorems
  import opened RunSafety

  /** A local status map agrees with the rows about who is completed. */
  ghost predicate Agrees(s: State, statusByNumber: map<int, ChunkStatus>) {
    forall m :: (m in statusByNumber && statusByNumber[m] == Completed) <==> StatusIs(s, m, Completed)
  }

  lemma StillAgrees(s: State, r: State, n: int, statusByNumber: map<int, ChunkStatus>)
    requires Agrees(s, statusByNumber) && Frame(s, r, n) && StatusIs(r, n, Completed)
    ensures Agrees(r, statusByNumber[n := Completed])
  {}

  lemma StillTodo(s: State, r: State, n: int, todo: seq<int>)
    requires Todo(s, todo) && todo != [] && Frame(s, r, n)
    ensures Todo(r, todo[1..])
  {
    assert forall m :: m in todo[1..] ==> m in todo;
  }

  /** Whichever way resume got past a chunk, only that chunk changed and it is completed. */
  lemma ResumedIsCompleted(s: State, n: int, o: Answers)
    requires n in s.chunks && 1 <= n <= |s.plan|
    requires ResumeDrive(s, n, o).end == Skipped || ResumeDrive(s, n, o).end == Drove(ChunkCommitted)
    ensures var r := ResumeDrive(s, n, o).state; Frame(s, r, n) && StatusIs(r, n, Completed)
  {
    hide Drive;
    var e := Entry(EntryMode.Resume, None);
    if !s.chunks[n].tested {
      CommittedMeansCompleted(s, n, e, o);
      DriveFrame(s, n, e, o);
    }
  }

  class Store {
    const plan: seq<ChunkDefinition>
    var chunks: map<int, Chunk>
    var run: RunStatus
    var gates: seq<Gate>
    var treeClean: bool
    var history: History
    var ledger: seq<Row>

    constructor (plan: seq<ChunkDefinition>, treeClean: bool)
      ensures Snapshot() == Start(plan, treeClean)
    {
      this.plan := plan;
      var numbers := set i | 0 <= i < |plan| :: plan[i].number;
      chunks := map n | n in numbers :: Chunk(PendingChunk, NoSummary, false);
      run, gates, this.treeClean, history, ledger := PlanApproved, [], treeClean, [], [];
    }

    ghost function Snapshot(): State
      reads this
    {
      State(plan, chunks, run, gates, treeClean, history, ledger)
    }

    // ----- rows -----------------------------------------------------------------------

    method UpdateChunkStatus(n: int, status: ChunkStatus)
      requires n in chunks
      modifies `chunks
      ensures Snapshot() == SetStatus(old(Snapshot()), n, status)
    {
      chunks := chunks[n := chunks[n].(status := status)];
    }

    method SaveCompletionSummary(n: int, summary: Summary)
      requires n in chunks
      modifies `chunks
      ensures Snapshot() == SetSummary(old(Snapshot()), n, summary)
    {
      chunks := chunks[n := chunks[n].(summary := summary)];
    }

    /** The next attempt number is found by scanning the chunk's rows. */
    method RecordAttempt(n: int, mode: EntryMode, status: RowStatus)
      modifies `ledger
      ensures Snapshot() == Record(old(Snapshot()), n, mode, status)
    {
      var highest: nat := 0;
      for i := 0 to |ledger|
        invariant ledger == old(ledger) && highest == MaxAttempt(ledger[..i], n)
      {
        assert ledger[..i + 1][..i] == ledger[..i];
        if ledger[i].chunk == n && ledger[i].attempt > highest {
          highest := ledger[i].attempt;
        }
      }
      assert ledger[..|ledger|] == ledger;
      ledger := ledger + [Row(n, highest + 1, mode, status, history)];
    }

    /** The newest gate of a kind, scanning backwards. */
    method NewestGate(kind: GateKind) returns (g: int)
      ensures g == Newest(gates, kind)
    {
      g := |gates| - 1;
      while g >= 0 && gates[g].kind != kind
        invariant -1 <= g < |gates|
        invariant forall j :: g < j < |gates| ==> gates[j].kind != kind
      {
        g := g - 1;
      }
    }

    method NewestPendingGate(kind: GateKind) returns (g: int)
      ensures g == NewestPending(gates, kind)
    {
      g := |gates| - 1;
      while g >= 0 && gates[g] != Gate(kind, Pending)
        invariant -1 <= g < |gates|
        invariant forall j :: g < j < |gates| ==> gates[j] != Gate(kind, Pending)
      {
        g := g - 1;
      }
    }

    method AllChunksCompleted() returns (all: bool)
      ensures all == AllCompleted(Snapshot())
    {
      all := forall n :: n in chunks ==> chunks[n].status == Completed;
    }

    /** Chunk numbers with a wanted status, ascending. */
    method ChunksWith(wanted: set<ChunkStatus>) returns (numbers: seq<int>)
      ensures numbers == Select(Snapshot(), |plan|, wanted)
    {
      numbers := [];
      for k := 1 to |plan| + 1
        invariant numbers == Select(Snapshot(), k - 1, wanted)
      {
        if k in chunks && chunks[k].status in wanted {
          numbers := numbers + [k];
        }
      }
    }

    // ----- the local status map ---------------------------------------------------------

    /** The orchestrator's status_by_number agrees with the rows about who is completed. */
    ghost predicate InStep(statusByNumber: map<int, ChunkStatus>)
      reads this
    {
      Agrees(Snapshot(), statusByNumber)
    }

    method StatusByNumber() returns (statusByNumber: map<int, ChunkStatus>)
      ensures InStep(statusByNumber)
      ensures statusByNumber.Keys == chunks.Keys && forall n :: n in chunks ==> statusByNumber[n] == chunks[n].status
    {
      statusByNumber := map n | n in chunks :: chunks[n].status;
    }

    method UnmetDependencies(n: int, statusByNumber: map<int, ChunkStatus>) returns (unmet: seq<int>)
      requires 1 <= n <= |plan| && InStep(statusByNumber)
      ensures (unmet == []) == DependenciesMet(Snapshot(), n)
      ensures forall d :: d in unmet <==> d in DependenciesOf(plan, n) && !StatusIs(Snapshot(), d, Completed)
    {
      unmet := [];
      var dependsOn := DependenciesOf(plan, n);
      for i := 0 to |dependsOn|
        invariant forall d :: d in unmet <==> d in dependsOn[..i] && !StatusIs(Snapshot(), d, Completed)
      {
        if !(dependsOn[i] in statusByNumber && statusByNumber[dependsOn[i]] == Completed) {
          unmet := unmet + [dependsOn[i]];
        }
      }
      assert dependsOn[..|dependsOn|] == dependsOn;
      assert DependenciesOf(Snapshot().plan, n) == dependsOn;
      if unmet == [] {
        forall d | d in dependsOn ensures StatusIs(Snapshot(), d, Completed) {
          assert d !in unmet;
        }
        assert DependenciesMet(Snapshot(), n);
      } else {
        assert unmet[0] in unmet;
        assert !StatusIs(Snapshot(), unmet[0], Completed);
        assert !DependenciesMet(Snapshot(), n);
      }
    }

    // ----- gates ------------------------------------------------------------------------

    method DecideGateRow(g: int, verdict: GateStatus)
      requires 0 <= g < |gates|
      modifies `gates
      ensures gates == Decide(old(gates), g, verdict)
    {
      if gates[g].status == Pending {
        gates := gates[g := gates[g].(status := verdict)];
      }
    }

    /** Create or reuse the chunk gate and mark chunk and run; nothing is written on a raise. */
    method CreateChunkGateAndMark(n: int, allowAfterApproved: bool) returns (raised: bool)
      requires n in chunks
      modifies `gates, `chunks, `run
      ensures raised == PauseAtGate(old(Snapshot()), n, allowAfterApproved).None?
      ensures Snapshot() == if raised then old(Snapshot())
                else PauseAtGate(old(Snapshot()), n, allowAfterApproved).value
    {
      var g := NewestGate(ForChunk(n));
      if g < 0 || gates[g].status != Pending {
        if g >= 0 && gates[g].status == Superseded {
          return true;
        }
        if g >= 0 && gates[g].status == Approved && !allowAfterApproved {
          return true;
        }
        gates := gates + [Gate(ForChunk(n), Pending)];
      }
      UpdateChunkStatus(n, AwaitingChunk);
      run := AwaitingChunkApproval;
      raised := false;
    }

    method MarkAwaitingFinalApproval() returns (raised: bool)
      modifies `gates, `run
      ensures raised == MarkAwaitingFinal(old(Snapshot())).None?
      ensures Snapshot() == if raised then old(Snapshot()) else MarkAwaitingFinal(old(Snapshot())).value
    {
      var all := AllChunksCompleted();
      if !all || !treeClean {
        return true;
      }
      var g := NewestGate(ForRun);
      if g < 0 || gates[g].status != Pending {
        if g >= 0 && gates[g].status != Superseded {
          return true;
        }
        gates := gates + [Gate(ForRun, Pending)];
      }
      run := AwaitingFinalApproval;
      raised := false;
    }

    /** Supersede every pending final gate, one row at a time, and move the run back. */
    method SupersedeFinalGateAndMarkRun()
      modifies `gates, `run
      ensures Snapshot() == old(Snapshot()).(gates := SupersedeFinal(old(gates)), run := RunningChunks)
    {
      for i := 0 to |gates|
        invariant |gates| == |old(gates)| && run == old(run)
        invariant forall k :: 0 <= k < i ==> gates[k] == SupersedeFinal(old(gates))[k]
        invariant forall k :: i <= k < |gates| ==> gates[k] == old(gates)[k]
      {
        if gates[i] == Gate(ForRun, Pending) {
          gates := gates[i := Gate(ForRun, Superseded)];
        }
      }
      run := RunningChunks;
    }

    // ----- endings of a driver pass -------------------------------------------------------

    method SettleRun(ctx: RefinementContext) returns (raised: bool)
      modifies `gates, `run
      ensures raised == Settle(old(Snapshot()), ctx).None?
      ensures Snapshot() == if raised then old(Snapshot()) else Settle(old(Snapshot()), ctx).value
    {
      if ctx.superseded {
        raised := MarkAwaitingFinalApproval();
      } else {
        run := ctx.priorRun;
        raised := false;
      }
    }

    method FinalizeFailedRefinement(n: int, ctx: RefinementContext, restoreCleans: bool)
      requires n in chunks
      modifies `chunks, `gates, `run, `treeClean
      ensures Snapshot() == RestoreCompleted(old(Snapshot()), n, ctx, restoreCleans)
    {
      if !treeClean {
        treeClean := restoreCleans;
      }
      UpdateChunkStatus(n, Completed);
      if !treeClean {
        run := RunFailed;
      } else {
        var _ := SettleRun(ctx);
      }
    }

    method FinalizeFailure(n: int, e: Entry, o: Answers, hasReport: bool)
      requires n in chunks
      modifies this
      ensures DriveResult(Snapshot(), ChunkBroken, 0) == FinishFailure(old(Snapshot()), n, e, o, hasReport)
    {
      if e.refinement.Some? {
        FinalizeFailedRefinement(n, e.refinement.value, o.restoreCleans);
      } else {
        if hasReport {
          SaveCompletionSummary(n, FailureReport);
        }
        UpdateChunkStatus(n, Failed);
        run := if hasReport && o.scopeRequest then AwaitingScopeApproval else RunFailed;
      }
    }

    /** Commit, success summary, completed status and the refreshed tree. */
    method CommitAndComplete(n: int, origin: Origin, residue: bool)
      requires n in chunks
      modifies `history, `chunks, `treeClean
      ensures Snapshot() == CommitChunk(old(Snapshot()), n, origin, residue)
    {
      var commit := |history|;
      history := history + [Commit(n, origin)];
      treeClean := !residue;
      SaveCompletionSummary(n, Success(commit));
      UpdateChunkStatus(n, Completed);
    }

    // ----- one driver pass ------------------------------------------------------------------

    /** code -> preflight -> apply -> tests, each of which may fail or raise. */
    method RunStages(n: int, a: Attempt) returns (end: AttemptEnd)
      requires n in chunks
      modifies `treeClean, `chunks
      ensures AttemptResult(Snapshot(), end) == RunAttempt(old(Snapshot()), n, a)
    {
      if a.code == CodeRaised { return Crashed; }
      if a.code == CodeEmpty { return AttemptRejected(false); }
      if a.preflight == PreflightRaised { return Crashed; }
      if a.preflight == PreflightBlocked { return AttemptRejected(false); }
      match a.apply {
        case ApplyRaised(clean) =>
          treeClean := clean;
          return Crashed;
        case ApplyBlocked(clean) =>
          treeClean := clean;
          return AttemptRejected(false);
        case Applied =>
      }
      match a.tests {
        case TestsRaised(clean) =>
          treeClean := clean;
          return Crashed;
        case TestsFailedRollbackRaised(clean) =>
          treeClean := clean;
          return Crashed;
        case TestsFailed(failure, clean) =>
          treeClean := clean;
          return AttemptRejected(failure == HarnessError);
        case TestsPassed(leavesPatch) =>
          chunks := chunks[n := chunks[n].(tested := true)];
          treeClean := !leavesPatch;
          return Verified;
      }
    }

    /** The retry loop: runs until an attempt verifies, or fails in a way that is not
        repeated. */
    method AttemptUntilSettled(n: int, e: Entry, o: Answers) returns (end: AttemptEnd, mode: EntryMode, coderRuns: nat)
      requires n in chunks
      modifies `treeClean, `chunks, `ledger
      ensures LoopResult(Snapshot(), end, mode, coderRuns) == AttemptLoop(old(Snapshot()), n, e, o, e.mode, 0)
    {
      var autoRetriesSpent: nat := 0;
      mode := e.mode;
      coderRuns := 0;
      ghost var whole := AttemptLoop(Snapshot(), n, e, o, e.mode, 0);
      while true
        invariant n in chunks && autoRetriesSpent <= AUTO_RETRY_INFRA_BUDGET && coderRuns == autoRetriesSpent
        invariant gates == old(gates) && history == old(history) && run == old(run)
        invariant var rest := AttemptLoop(Snapshot(), n, e, o, mode, autoRetriesSpent);
                  whole == rest.(coderRuns := rest.coderRuns + coderRuns)
        decreases AUTO_RETRY_INFRA_BUDGET - autoRetriesSpent
      {
        end := RunStages(n, if autoRetriesSpent == 0 then o.first else o.second);
        coderRuns := coderRuns + 1;
        if end == AttemptRejected(true) && !HumanMode(e.mode) && autoRetriesSpent == 0
           && autoRetriesSpent < AUTO_RETRY_INFRA_BUDGET && treeClean
        {
          RecordAttempt(n, mode, AutoRetrying);
          autoRetriesSpent := autoRetriesSpent + 1;
          mode := AutoRetry;
          continue;
        }
        break;
      }
    }

    /** Pause at the chunk gate and record it; a gate that cannot be opened raises. */
    method PauseForApproval(n: int, mode: EntryMode, allowAfterApproved: bool) returns (raised: bool)
      requires n in chunks
      modifies this
      ensures var paused := PauseAtGate(old(Snapshot()), n, allowAfterApproved);
              raised == paused.None? &&
              Snapshot() == if raised then old(Snapshot()) else Record(paused.value, n, mode, AttemptAwaiting)
    {
      raised := CreateChunkGateAndMark(n, allowAfterApproved);
      if !raised {
        RecordAttempt(n, mode, AttemptAwaiting);
      }
    }

    /** What follows a verified attempt. A raise leaves its partial writes to the guard. */
    method FinishVerifiedAttempt(n: int, e: Entry, o: Answers, mode: EntryMode) returns (raised: bool, end: DriveEnd)
      requires n in chunks && 1 <= n <= |plan|
      modifies this
      ensures raised ==>
                n in chunks && FinishVerified(old(Snapshot()), n, e, o, mode) == FinishRaise(Snapshot(), n, e, o)
      ensures !raised ==> FinishVerified(old(Snapshot()), n, e, o, mode) == DriveResult(Snapshot(), end, 0)
    {
      hide FinishFailure, FinishRaise, PauseAtGate, MaxAttempt;
      end := ChunkPaused;
      if e.refinement.Some? {
        var ctx := e.refinement.value;
        SaveCompletionSummary(n, Refinement(ctx.priorRun, ctx.superseded, ctx.prior));
        raised := PauseForApproval(n, mode, true);
      } else if HumanMode(e.mode) {
        SaveCompletionSummary(n, Recovered);
        raised := PauseForApproval(n, mode, false);
      } else if plan[n - 1].needsReview {
        raised := PauseForApproval(n, mode, false);
      } else if treeClean {
        UpdateChunkStatus(n, Failed);
        run := RunFailed;
        raised := true;
      } else if !o.commitWorks {
        raised := true;
      } else {
        CommitAndComplete(n, ByDriver(mode), o.residue);
        RecordAttempt(n, mode, AttemptCompleted);
        raised, end := false, ChunkCommitted;
      }
    }

    /** The stage sequence. `raised` is an exception on its way to the per-chunk guard. */
    method DriveStages(n: int, e: Entry, o: Answers, statusByNumber: map<int, ChunkStatus>)
      returns (raised: bool, end: DriveEnd, coderRuns: nat)
      requires n in chunks && 1 <= n <= |plan| && InStep(statusByNumber)
      modifies this
      ensures raised ==>
                n in chunks && Drive(old(Snapshot()), n, e, o) ==
                    FinishRaise(Snapshot(), n, e, o).(coderRuns := coderRuns)
      ensures !raised ==> Drive(old(Snapshot()), n, e, o) == DriveResult(Snapshot(), end, coderRuns)
    {
      hide AttemptLoop, FinishVerified, FinishFailure, MaxAttempt;
      raised, end, coderRuns := false, ChunkBroken, 0;
      var unmet := UnmetDependencies(n, statusByNumber);
      if unmet != [] {
        RecordAttempt(n, e.mode, AttemptFailed);
        FinalizeFailure(n, e, o, false);
        return;
      }
      UpdateChunkStatus(n, Running);
      run := RunningChunks;
      ghost var running := SetStatus(old(Snapshot()), n, Running).(run := RunningChunks);
      assert Snapshot() == running;
      if !treeClean {
        RecordAttempt(n, e.mode, AttemptFailed);
        FinalizeFailure(n, e, o, true);
        return;
      }
      if o.planRaises {
        raised := true;
        return;
      }
      var attemptEnd, mode;
      attemptEnd, mode, coderRuns := AttemptUntilSettled(n, e, o);
      LoopFrame(running, n, e, o, e.mode, 0);
      match attemptEnd {
        case Crashed =>
          raised := true;
        case AttemptRejected(_) =>
          RecordAttempt(n, mode, AttemptFailed);
          FinalizeFailure(n, e, o, true);
        case Verified =>
          raised, end := FinishVerifiedAttempt(n, e, o, mode);
      }
    }

    /** One pass: the stages inside the guard that turns any exception into a failed chunk. */
    method DriveChunk(n: int, e: Entry, o: Answers, statusByNumber: map<int, ChunkStatus>)
      returns (end: DriveEnd, coderRuns: nat)
      requires n in chunks && 1 <= n <= |plan| && InStep(statusByNumber)
      modifies this
      ensures DriveResult(Snapshot(), end, coderRuns) == Drive(old(Snapshot()), n, e, o)
    {
      var raised;
      raised, end, coderRuns := DriveStages(n, e, o, statusByNumber);
      if raised {
        RecordAttempt(n, e.mode, AttemptFailed);
        FinalizeFailure(n, e, o, false);
        end := ChunkBroken;
      }
    }

    /** Resume's checkpoint phase, outside the guard: None means nothing to skip. */
    method ResumeSkipOrNone(n: int, statusByNumber: map<int, ChunkStatus>) returns (end: Option<ResumeEnd>)
      requires n in chunks && 1 <= n <= |plan| && InStep(statusByNumber)
      modifies this
      ensures end.None? <==> !old(chunks)[n].tested
      ensures end.None? ==> Snapshot() == old(Snapshot())
      ensures forall o :: end.Some? ==> ResumeDrive(old(Snapshot()), n, o) == ResumeResult(Snapshot(), end.value)
    {
      if !chunks[n].tested {
        return None;
      }
      var unmet := UnmetDependencies(n, statusByNumber);
      if unmet != [] {
        UpdateChunkStatus(n, Failed);
        run := RunFailed;
        RecordAttempt(n, EntryMode.Resume, AttemptFailed);
        return Some(SkipBlocked);
      }
      if LastCommit(history, n) < 0 || chunks[n].summary == NoSummary {
        run := RunFailed;
        return Some(RecoveryRaised);
      }
      UpdateChunkStatus(n, Completed);
      run := ResumeRunning;
      RecordAttempt(n, EntryMode.Resume, AttemptSkipped);
      return Some(Skipped);
    }

    method DriveResumedChunk(n: int, o: Answers, statusByNumber: map<int, ChunkStatus>) returns (end: ResumeEnd)
      requires n in chunks && 1 <= n <= |plan| && InStep(statusByNumber)
      modifies this
      ensures ResumeResult(Snapshot(), end) == ResumeDrive(old(Snapshot()), n, o)
    {
      var skip := ResumeSkipOrNone(n, statusByNumber);
      if skip.Some? {
        return skip.value;
      }
      var drove, _ := DriveChunk(n, Entry(EntryMode.Resume, None), o, statusByNumber);
      end := Drove(drove);
    }

    // ----- execute and resume -----------------------------------------------------------------

    method OpenFinalApproval() returns (reply: Reply)
      modifies this
      ensures Outcome(Snapshot(), reply) == Finalize(old(Snapshot()))
    {
      var raised := MarkAwaitingFinalApproval();
      reply := if raised then Raised else FinalApprovalOpened;
    }

    method ExecuteApprovedChunks(checks: ExecuteChecks, sheet: AnswerSheet) returns (reply: Reply)
      modifies this
      ensures Outcome(Snapshot(), reply) == ExecuteRun(old(Snapshot()), checks, sheet)
    {
      if exists n :: n in chunks && chunks[n].status == Running {
        return AlreadyRunning;
      }
      if checks == RepoInvalid || !treeClean {
        run := RunFailed;
        return Raised;
      }
      match checks {
        case MemoryConflict =>
          run := AwaitingMemoryConflict;
          return PausedForMemoryConflict;
        case StartDrift => return StartDrifted;
        case BranchRaises => return Raised;
        case BaselineBad =>
          run := RunFailed;
          return BaselineFailed;
        case ExecuteClear =>
      }
      var pending := ChunksWith({PendingChunk});
      var statusByNumber := StatusByNumber();
      reply := ExecutePending(pending, sheet, statusByNumber);
    }

    /** The chunk loop of execute, keeping the local status map in step. */
    method ExecutePending(pending: seq<int>, sheet: AnswerSheet, initial: map<int, ChunkStatus>) returns (reply: Reply)
      requires Todo(Snapshot(), pending) && InStep(initial)
      modifies this
      ensures Outcome(Snapshot(), reply) == ExecuteFrom(old(Snapshot()), pending, sheet)
    {
      hide Drive, Frame, Advances;
      var statusByNumber := initial;
      ghost var whole := ExecuteFrom(Snapshot(), pending, sheet);
      assert pending[0..] == pending;
      for i := 0 to |pending|
        invariant Todo(Snapshot(), pending[i..]) && InStep(statusByNumber)
        invariant ExecuteFrom(Snapshot(), pending[i..], sheet) == whole
      {
        var n, e := pending[i], Entry(Fresh, None);
        var o := AnswersFor(sheet, n);
        assert n == pending[i..][0] && pending[i..][1..] == pending[i + 1..];
        ghost var before := Snapshot();
        assert n in pending[i..];
        var end, _ := DriveChunk(n, e, o, statusByNumber);
        if end != ChunkCommitted {
          return ChunkNotDone(n);
        }
        CommittedMeansCompleted(before, n, e, o);
        DriveFrame(before, n, e, o);
        StillTodo(before, Snapshot(), n, pending[i..]);
        StillAgrees(before, Snapshot(), n, statusByNumber);
        statusByNumber := statusByNumber[n := Completed];
      }
      assert pending[|pending|..] == [];
      reply := OpenFinalApproval();
    }

    /** Chunks left running by a crash go back to pending. */
    method ResetStaleRunningChunks()
      modifies `chunks
      ensures Snapshot() == ResetStaleRunning(old(Snapshot()))
    {
      chunks := map n | n in chunks ::
        if chunks[n].status == Running then chunks[n].(status := PendingChunk) else chunks[n];
    }

    /** Resume refuses to run over a HEAD its newest completed row did not record. */
    method HeadMatchesLastAttempt() returns (ok: bool)
      ensures ok == DriftGuardAccepts(ledger, history)
    {
      var i := |ledger| - 1;
      while i >= 0 && ledger[i].status != AttemptCompleted
        invariant -1 <= i < |ledger|
        invariant forall j :: i < j < |ledger| ==> ledger[j].status != AttemptCompleted
      {
        i := i - 1;
      }
      ok := i < 0 || ledger[i].head == history;
    }

    method ResumeChunkedPipeline(checks: ResumeChecks, sheet: AnswerSheet) returns (reply: Reply)
      modifies this
      ensures Outcome(Snapshot(), reply) == ResumeRun(old(Snapshot()), checks, sheet)
    {
      if checks == BranchUnavailable {
        return Raised;
      }
      var matches := HeadMatchesLastAttempt();
      if !matches {
        return Raised;
      }
      var waiting := ChunksWith({AwaitingChunk});
      if waiting != [] {
        var g := NewestPendingGate(ForChunk(waiting[0]));
        if g >= 0 {
          return StillAwaitingChunk(waiting[0]);
        }
      }
      if !treeClean {
        return Raised;
      }
      ResetStaleRunningChunks();
      run := ResumeRunning;
      if checks == ResumeMemoryConflict {
        run := AwaitingMemoryConflict;
        return PausedForMemoryConflict;
      }
      if checks == ResumeBaselineBad {
        run := RunFailed;
        return BaselineFailed;
      }
      var resumable := ChunksWith(RESUMABLE);
      var statusByNumber := StatusByNumber();
      reply := ResumeChunks(resumable, sheet, statusByNumber);
    }

    /** The chunk loop of resume. */
    method ResumeChunks(resumable: seq<int>, sheet: AnswerSheet, initial: map<int, ChunkStatus>) returns (reply: Reply)
      requires Todo(Snapshot(), resumable) && InStep(initial)
      modifies this
      ensures Outcome(Snapshot(), reply) == ResumeFrom(old(Snapshot()), resumable, sheet)
    {
      hide ResumeDrive, Frame, Advances;
      var statusByNumber := initial;
      ghost var whole := ResumeFrom(Snapshot(), resumable, sheet);
      assert resumable[0..] == resumable;
      for i := 0 to |resumable|
        invariant Todo(Snapshot(), resumable[i..]) && InStep(statusByNumber)
        invariant ResumeFrom(Snapshot(), resumable[i..], sheet) == whole
      {
        var n := resumable[i];
        var o := AnswersFor(sheet, n);
        assert n == resumable[i..][0] && resumable[i..][1..] == resumable[i + 1..];
        ghost var before := Snapshot();
        assert n in resumable[i..];
        var end := DriveResumedChunk(n, o, statusByNumber);
        match end {
          case RecoveryRaised => return Raised;
          case SkipBlocked => return ChunkNotDone(n);
          case Skipped =>
          case Drove(drove) =>
            if drove != ChunkCommitted {
              return ChunkNotDone(n);
            }
        }
        ResumedIsCompleted(before, n, o);
        StillTodo(before, Snapshot(), n, resumable[i..]);
        StillAgrees(before, Snapshot(), n, statusByNumber);
        statusByNumber := statusByNumber[n := Completed];
      }
      assert resumable[|resumable|..] == [];
      reply := OpenFinalApproval();
    }

    // ----- approve and reject -------------------------------------------------------------------

    method RestorePriorSummary(n: int, fallback: Summary)
      requires n in chunks && chunks[n].summary.Refinement?
      modifies `chunks
      ensures Snapshot() == RestorePrior(old(Snapshot()), n, fallback)
    {
      var prior := chunks[n].summary.prior;
      SaveCompletionSummary(n, if prior.Some? then prior.value else fallback);
      UpdateChunkStatus(n, Completed);
    }

    /** Put a refined chunk back to completed with its committed summary and settle the run. */
    method RestoreRefinedChunk(n: int, fallback: Summary, done: Reply) returns (reply: Reply)
      requires n in chunks && chunks[n].summary.Refinement?
      modifies this
      ensures Outcome(Snapshot(), reply) == UndoRefinement(old(Snapshot()), n, fallback, done)
    {
      hide RestorePrior, Settle;
      var marker := chunks[n].summary;
      RestorePriorSummary(n, fallback);
      var raised := SettleRun(ContextOf(marker));
      reply := if raised then Raised else done;
    }

    method ApproveChunkAndCommit(n: int, o: ApproveAnswers) returns (reply: Reply)
      modifies this
      ensures Outcome(Snapshot(), reply) == Approve(old(Snapshot()), n, o)
    {
      if !(n in chunks && chunks[n].status == AwaitingChunk) || !o.loads {
        return Raised;
      }
      var summary := chunks[n].summary;
      var g := NewestPendingGate(ForChunk(n));
      if g < 0 {
        return Raised;
      }
      DecideGateRow(g, Approved);
      if summary.Refinement? && (!o.touches || treeClean) {
        reply := RestoreRefinedChunk(n, summary, RefinementNoOp);
        return;
      }
      if !o.touches || treeClean {
        UpdateChunkStatus(n, Failed);
        run := RunFailed;
        return Raised;
      }
      if !o.commitWorks {
        return Raised;
      }
      CommitAndComplete(n, ByApproval(g), o.residue);
      RecordAttempt(n, if summary.Refinement? || summary.Recovered? then HumanRetry else Fresh, AttemptCompleted);
      run := ChunkApproved;
      var all := AllChunksCompleted();
      if all {
        reply := OpenFinalApproval();
      } else {
        reply := ChunkApprovedReply;
      }
    }

    method RejectChunkAndRollback(n: int, loads: bool, o: RollbackAnswer) returns (reply: Reply)
      modifies this
      ensures Outcome(Snapshot(), reply) == Reject(old(Snapshot()), n, loads, o)
    {
      if !(n in chunks && chunks[n].status == AwaitingChunk) || !loads {
        return Raised;
      }
      if o.RollbackFailed? {
        treeClean := o.clean;
        return Raised;
      }
      treeClean := true;
      var g := NewestPendingGate(ForChunk(n));
      if g < 0 {
        return Raised;
      }
      DecideGateRow(g, GateStatus.Rejected);
      if chunks[n].summary.Refinement? {
        reply := RestoreRefinedChunk(n, RetainedNote, RefinementRejected);
        return;
      }
      UpdateChunkStatus(n, RejectedChunk);
      run := RunFailed;
      reply := ChunkRejectedReply;
    }

    // ----- human attempts -------------------------------------------------------------------------

    method RetryFailedChunk(n: int, kind: RetryKind, admitted: bool, o: Answers) returns (reply: Reply)
      modifies this
      ensures Outcome(Snapshot(), reply) == Retry(old(Snapshot()), n, kind, admitted, o)
    {
      if !(n in chunks && 1 <= n <= |plan|) {
        return Raised;
      }
      var statusByNumber := StatusByNumber();
      var unmet := UnmetDependencies(n, statusByNumber);
      if !admitted || chunks[n].status != Failed || !chunks[n].summary.FailureReport? || !treeClean
         || (kind != ScopeRetry && unmet != [])
      {
        return Ineligible;
      }
      var _, _ := DriveChunk(n, Entry(if kind == SteeredRetry then Steered else HumanRetry, None), o, statusByNumber);
      reply := ChunkNotDone(n);
    }

    /** count_human_attempt_ledger_rows over the rows of one chunk. */
    method CountHumanAttempts(n: int) returns (count: nat)
      ensures count == HumanRows(ledger, n)
    {
      count := 0;
      for i := 0 to |ledger|
        invariant count == HumanRows(ledger[..i], n)
      {
        assert ledger[..i + 1][..i] == ledger[..i];
        if ledger[i].chunk == n && HumanMode(ledger[i].mode) && ledger[i].status != AttemptCompleted {
          count := count + 1;
        }
      }
      assert ledger[..|ledger|] == ledger;
    }

    method RefineCompletedChunk(n: int, admitted: bool, o: Answers) returns (reply: Reply)
      modifies this
      ensures Outcome(Snapshot(), reply) == Refine(old(Snapshot()), n, admitted, o)
    {
      hide Drive;
      if !(n in chunks && 1 <= n <= |plan|) {
        return Raised;
      }
      var priorRun, prior := run, PriorSummary(chunks[n].summary);
      var statusByNumber := StatusByNumber();
      var unmet := UnmetDependencies(n, statusByNumber);
      var used := CountHumanAttempts(n);
      if !admitted || chunks[n].status != Completed || (run != AwaitingFinalApproval && run != ChunkApproved)
         || unmet != [] || !treeClean || used >= HUMAN_ATTEMPT_BUDGET
      {
        return Ineligible;
      }
      var superseded := false;
      if run == AwaitingFinalApproval {
        var g := NewestPendingGate(ForRun);
        if g < 0 {
          return Ineligible;
        }
        SupersedeFinalGateAndMarkRun();
        superseded := true;
      }
      var _, _ := DriveChunk(n, Entry(Steered, Some(RefinementContext(priorRun, superseded, prior))), o,
          statusByNumber);
      reply := ChunkNotDone(n);
    }

    // ----- gate decisions and whole steps ----------------------------------------------------------

    method DecideAnyGate(g: int, approve: bool) returns (reply: Reply)
      modifies `gates
      ensures Outcome(Snapshot(), reply) == DecideGate(old(Snapshot()), g, approve)
    {
      if !(0 <= g < |gates| && gates[g].status == Pending) {
        return Raised;
      }
      DecideGateRow(g, if approve then Approved else GateStatus.Rejected);
      reply := GateDecided;
    }

    method DecideFinalGate(approve: bool, admitted: bool) returns (reply: Reply)
      modifies `gates, `run
      ensures Outcome(Snapshot(), reply) == DecideFinal(old(Snapshot()), approve, admitted)
    {
      var g := NewestPendingGate(ForRun);
      if !admitted || g < 0 {
        return Raised;
      }
      DecideGateRow(g, if approve then Approved else GateStatus.Rejected);
      run := if approve then FinalApproved else FinalRejected;
      reply := GateDecided;
    }

    /** One operation from the outside. Every state the program reaches this way is one the
        theorems about runs speak of. */
    method Perform(op: Op) returns (reply: Reply)
      modifies this
      ensures Outcome(Snapshot(), reply) == Step(old(Snapshot()), op)
      ensures Reachable(old(Snapshot())) ==> Reachable(Snapshot())
    {
      hide ExecuteRun, ResumeRun, Approve, Reject, Retry, Refine, DecideGate, DecideFinal, Reachable;
      ghost var before := Snapshot();
      match op {
        case DoExecute(checks, sheet) => reply := ExecuteApprovedChunks(checks, sheet);
        case DoResume(checks, sheet) => reply := ResumeChunkedPipeline(checks, sheet);
        case DoApprove(n, o) => reply := ApproveChunkAndCommit(n, o);
        case DoReject(n, loads, o) => reply := RejectChunkAndRollback(n, loads, o);
        case DoRetry(n, kind, admitted, o) => reply := RetryFailedChunk(n, kind, admitted, o);
        case DoRefine(n, admitted, o) => reply := RefineCompletedChunk(n, admitted, o);
        case DoDecideGate(g, approve) => reply := DecideAnyGate(g, approve);
        case DoDecideFinal(approve, admitted) => reply := DecideFinalGate(approve, admitted);
        case DoDecideMemoryConflict(approve) =>
          run := if approve then PlanApproved else RunRejected;
          reply := GateDecided;
        case DoSettleScopeRejection =>
          if run == AwaitingScopeApproval {
            run := RunFailed;
          }
          reply := GateDecided;
        case HumanTouchesTree(clean) =>
          treeClean := clean;
          reply := GateDecided;
      }
      if Reachable(before) {
        ReachableAfter(before, op, Snapshot());
      }
    }
  }
}
