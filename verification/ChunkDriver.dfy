/** What one driver pass over one chunk does (backend/pipeline/chunk_driver.py), as a
    function of the state and of the answers its stages give. */
module ChunkDriver {
  import opened ChunkPlan
  import opened Wrappers
  import opened ApprovalGates
  import opened AttemptLedger
  import opened RunState

  const AUTO_RETRY_INFRA_BUDGET := 1

  // ----- stage answers ---------------------------------------------------------------

  datatype CodeAnswer = CodeWritten | CodeEmpty | CodeRaised
  datatype PreflightAnswer = PreflightClear | PreflightBlocked | PreflightRaised
  datatype ApplyAnswer = Applied | ApplyBlocked(clean: bool) | ApplyRaised(clean: bool)
  datatype TestFailure = Regression | HarnessError | HarnessTimeout
  datatype TestAnswer =
    | TestsPassed(leavesPatch: bool)
    | TestsFailed(failure: TestFailure, clean: bool)
    | TestsFailedRollbackRaised(clean: bool)
    | TestsRaised(clean: bool)

  datatype Attempt = Attempt(code: CodeAnswer, preflight: PreflightAnswer, apply: ApplyAnswer, tests: TestAnswer)

  /** Every answer one pass may get: the stages of both attempts, whether planning raises,
      whether the commit succeeds and leaves files behind, whether a defensive rollback
      cleans the tree and whether a scope request is surfaced. */
  datatype Answers = Answers(
    planRaises: bool,
    first: Attempt,
    second: Attempt,
    commitWorks: bool,
    residue: bool,
    restoreCleans: bool,
    scopeRequest: bool)

  // ----- entries ----------------------------------------------------------------------

  /** What a post-success refinement must be able to put back. */
  datatype RefinementContext = RefinementContext(priorRun: RunStatus, superseded: bool, prior: Option<Summary>)

  datatype Entry = Entry(mode: EntryMode, refinement: Option<RefinementContext>)

  predicate ValidEntry(e: Entry) {
    && e.mode != AutoRetry
    && (e.refinement.Some? ==> e.mode == Steered)
  }

  predicate HumanMode(mode: EntryMode) {
    mode == HumanRetry || mode == Steered
  }

  datatype DriveEnd = ChunkCommitted | ChunkPaused | ChunkBroken

  datatype DriveResult = DriveResult(state: State, end: DriveEnd, coderRuns: nat)

  // ----- one attempt --------------------------------------------------------------------

  datatype AttemptEnd = Verified | AttemptRejected(autoRetryable: bool) | Crashed

  datatype AttemptResult = AttemptResult(state: State, end: AttemptEnd)

  /** code -> preflight -> apply -> tests with rollback. */
  function RunAttempt(s: State, n: int, a: Attempt): AttemptResult
    requires n in s.chunks
  {
    match a.code
    case CodeRaised => AttemptResult(s, Crashed)
    case CodeEmpty => AttemptResult(s, AttemptRejected(false))
    case CodeWritten =>
      match a.preflight
      case PreflightRaised => AttemptResult(s, Crashed)
      case PreflightBlocked => AttemptResult(s, AttemptRejected(false))
      case PreflightClear =>
        match a.apply
        case ApplyRaised(clean) => AttemptResult(s.(treeClean := clean), Crashed)
        case ApplyBlocked(clean) => AttemptResult(s.(treeClean := clean), AttemptRejected(false))
        case Applied =>
          match a.tests
          case TestsRaised(clean) => AttemptResult(s.(treeClean := clean), Crashed)
          case TestsFailedRollbackRaised(clean) => AttemptResult(s.(treeClean := clean), Crashed)
          case TestsFailed(failure, clean) =>
            AttemptResult(s.(treeClean := clean), AttemptRejected(failure == HarnessError))
          case TestsPassed(leavesPatch) =>
            AttemptResult(SetChunk(s, n, s.chunks[n].(tested := true)).(treeClean := !leavesPatch), Verified)
  }

  datatype LoopResult = LoopResult(state: State, end: AttemptEnd, mode: EntryMode, coderRuns: nat)

  /** The attempt loop with its bounded retry of a non-timeout harness error. */
  function AttemptLoop(s: State, n: int, e: Entry, o: Answers, mode: EntryMode, spent: nat): LoopResult
    requires n in s.chunks && spent <= AUTO_RETRY_INFRA_BUDGET
    decreases AUTO_RETRY_INFRA_BUDGET - spent
  {
    var r := RunAttempt(s, n, if spent == 0 then o.first else o.second);
    if r.end == AttemptRejected(true) && !HumanMode(e.mode) && spent == 0
       && spent < AUTO_RETRY_INFRA_BUDGET && r.state.treeClean
    then
      var again := AttemptLoop(Record(r.state, n, mode, AutoRetrying), n, e, o, AutoRetry, spent + 1);
      again.(coderRuns := again.coderRuns + 1)
    else LoopResult(r.state, r.end, mode, 1)
  }

  // ----- endings ------------------------------------------------------------------------

  /** _settle_run_after_refinement_resolution: None where re-opening final approval raises. */
  function Settle(s: State, ctx: RefinementContext): Option<State> {
    if ctx.superseded then MarkAwaitingFinal(s) else Some(s.(run := ctx.priorRun))
  }

  /** _finalize_failed_refinement: the completed chunk survives. */
  function RestoreCompleted(s: State, n: int, ctx: RefinementContext, restoreCleans: bool): State
    requires n in s.chunks
  {
    var kept := SetStatus(s, n, Completed).(treeClean := s.treeClean || restoreCleans);
    if !kept.treeClean then kept.(run := RunFailed)
    else
      var settled := Settle(kept, ctx);
      if settled.Some? then settled.value else kept
  }

  /** How a recorded failure is finalized in each kind of entry. */
  function FinishFailure(s: State, n: int, e: Entry, o: Answers, hasReport: bool): (r: DriveResult)
    requires n in s.chunks
    ensures r.end == ChunkBroken && r.coderRuns == 0
  {
    DriveResult(
      if e.refinement.Some? then RestoreCompleted(s, n, e.refinement.value, o.restoreCleans)
      else if hasReport then FailWithReport(s, n, o.scopeRequest)
      else FailChunk(s, n),
      ChunkBroken, 0)
  }

  /** The per-chunk exception guard of drive_chunk. */
  function FinishRaise(s: State, n: int, e: Entry, o: Answers): DriveResult
    requires n in s.chunks
  {
    FinishFailure(Record(s, n, e.mode, AttemptFailed), n, e, o, false)
  }

  function PauseOrRaise(s: State, n: int, e: Entry, o: Answers, mode: EntryMode, allowAfterApproved: bool): DriveResult
    requires n in s.chunks
  {
    var paused := PauseAtGate(s, n, allowAfterApproved);
    if paused.Some? then DriveResult(Record(paused.value, n, mode, AttemptAwaiting), ChunkPaused, 0)
    else FinishRaise(s, n, e, o)
  }

  /** Everything after the tests passed: refinement pause, recovered pause, review pause,
      or commit. */
  function FinishVerified(s: State, n: int, e: Entry, o: Answers, mode: EntryMode): DriveResult
    requires n in s.chunks && 1 <= n <= |s.plan|
  {
    if e.refinement.Some? then
      var ctx := e.refinement.value;
      PauseOrRaise(SetSummary(s, n, Refinement(ctx.priorRun, ctx.superseded, ctx.prior)), n, e, o, mode, true)
    else if HumanMode(e.mode) then
      PauseOrRaise(SetSummary(s, n, Recovered), n, e, o, mode, false)
    else if s.plan[n - 1].needsReview then
      PauseOrRaise(s, n, e, o, mode, false)
    else if s.treeClean then
      FinishRaise(FailChunk(s, n), n, e, o)
    else if !o.commitWorks then
      FinishRaise(s, n, e, o)
    else
      DriveResult(Record(CommitChunk(s, n, ByDriver(mode), o.residue), n, mode, AttemptCompleted), ChunkCommitted, 0)
  }

  /** drive_chunk without the resume checkpoint phase. */
  function Drive(s: State, n: int, e: Entry, o: Answers): DriveResult
    requires n in s.chunks && 1 <= n <= |s.plan|
  {
    if !DependenciesMet(s, n) then
      FinishFailure(Record(s, n, e.mode, AttemptFailed), n, e, o, false)
    else
      var running := SetStatus(s, n, Running).(run := RunningChunks);
      if !running.treeClean then
        FinishFailure(Record(running, n, e.mode, AttemptFailed), n, e, o, true)
      else if o.planRaises then
        FinishRaise(running, n, e, o)
      else
        var looped := AttemptLoop(running, n, e, o, e.mode, 0);
        var finished :=
          match looped.end
          case Crashed => FinishRaise(looped.state, n, e, o)
          case AttemptRejected(_) => FinishFailure(Record(looped.state, n, looped.mode, AttemptFailed), n, e, o, true)
          case Verified => FinishVerified(looped.state, n, e, o, looped.mode);
        finished.(coderRuns := looped.coderRuns)
  }

  // ----- resume's checkpoint phase --------------------------------------------------------

  datatype ResumeEnd = Skipped | SkipBlocked | RecoveryRaised | Drove(end: DriveEnd)

  datatype ResumeResult = ResumeResult(state: State, end: ResumeEnd)

  /** drive_chunk in resume mode: a passing test checkpoint is skip-completed only when its
      commit and summary exist, and is never turned into a per-chunk failure otherwise. */
  function ResumeDrive(s: State, n: int, o: Answers): ResumeResult
    requires n in s.chunks && 1 <= n <= |s.plan|
  {
    if s.chunks[n].tested then
      if !DependenciesMet(s, n) then
        ResumeResult(Record(FailChunk(s, n), n, Resume, AttemptFailed), SkipBlocked)
      else if Committed(s.history, n) && s.chunks[n].summary != NoSummary then
        ResumeResult(Record(SetStatus(s, n, Completed).(run := ResumeRunning), n, Resume, AttemptSkipped), Skipped)
      else
        ResumeResult(s.(run := RunFailed), RecoveryRaised)
    else
      var d := Drive(s, n, Entry(Resume, None), o);
      ResumeResult(d.state, Drove(d.end))
  }

  // ----- a pass touches only its own chunk -------------------------------------------------

  predicate Frame(s: State, r: State, n: int) {
    && r.plan == s.plan
    && r.chunks.Keys == s.chunks.Keys
    && (forall m :: m in s.chunks && m != n ==> r.chunks[m] == s.chunks[m])
    && Advances(s, r)
    && OnlyOwnGates(s.gates, r.gates, n)
  }

  /** The gates of all other chunks are as they were and they got no new ones; so are the final
      gates, except that one may have been opened. */
  predicate OnlyOwnGates(before: seq<Gate>, after: seq<Gate>, n: int) {
    forall g :: 0 <= g < |after| && after[g].kind != ForChunk(n) && after[g] != Gate(ForRun, Pending) ==>
      g < |before| && before[g] == after[g]
  }

  /** Nothing recorded is ever taken back: the branch, the ledger and the gate table only
      grow, and decided gates stay as they were decided. */
  predicate Advances(s: State, r: State) {
    && r.plan == s.plan
    && r.chunks.Keys == s.chunks.Keys
    && s.history <= r.history
    && s.ledger <= r.ledger
    && Grows(s.gates, r.gates)
  }

  lemma AdvancesTransitive(a: State, b: State, c: State)
    requires Advances(a, b) && Advances(b, c)
    ensures Advances(a, c)
  {
    GrowsTransitive(a.gates, b.gates, c.gates);
  }

  lemma FrameTransitive(a: State, b: State, c: State, n: int)
    requires Frame(a, b, n) && Frame(b, c, n)
    ensures Frame(a, c, n)
  {
    AdvancesTransitive(a, b, c);
  }

  lemma RecordFrame(s: State, n: int, mode: EntryMode, status: RowStatus)
    ensures Frame(s, Record(s, n, mode, status), n)
  {}

  /** Rewriting chunk n's own row, the tree and the run status. */
  lemma OwnFrame(s: State, r: State, n: int)
    requires n in s.chunks && n in r.chunks && r == SetChunk(s, n, r.chunks[n]).(treeClean := r.treeClean, run := r.run)
    ensures Frame(s, r, n)
  {}

  lemma GateFrame(s: State, gates: seq<Gate>, n: int)
    requires gates == s.gates || (|gates| == |s.gates| + 1 && gates[..|s.gates|] == s.gates)
    requires |gates| > |s.gates| ==> gates[|s.gates|] == Gate(ForRun, Pending) || gates[|s.gates|].kind == ForChunk(n)
    ensures Frame(s, s.(gates := gates), n)
  {
    forall i | 0 <= i < |s.gates| ensures gates[i] == s.gates[i] {
      assert gates[..|s.gates|][i] == gates[i];
    }
  }

  lemma LoopFrame(s: State, n: int, e: Entry, o: Answers, mode: EntryMode, spent: nat)
    requires n in s.chunks && spent <= AUTO_RETRY_INFRA_BUDGET
    ensures Frame(s, AttemptLoop(s, n, e, o, mode, spent).state, n)
    decreases AUTO_RETRY_INFRA_BUDGET - spent
  {
    hide Frame;
    var a := if spent == 0 then o.first else o.second;
    AttemptFrame(s, n, a);
    var r := RunAttempt(s, n, a).state;
    if spent < AUTO_RETRY_INFRA_BUDGET {
      var recorded := Record(r, n, mode, AutoRetrying);
      RecordFrame(r, n, mode, AutoRetrying);
      LoopFrame(recorded, n, e, o, AutoRetry, spent + 1);
      FrameTransitive(s, r, recorded, n);
      FrameTransitive(s, recorded, AttemptLoop(recorded, n, e, o, AutoRetry, spent + 1).state, n);
    }
  }

  lemma AttemptFrame(s: State, n: int, a: Attempt)
    requires n in s.chunks
    ensures var r := RunAttempt(s, n, a).state; Frame(s, r, n) && n in r.chunks
  {
    assert s.chunks == s.chunks[n := s.chunks[n]];
    OwnFrame(s, RunAttempt(s, n, a).state, n);
  }

  lemma FailureFrame(s: State, n: int, e: Entry, o: Answers, hasReport: bool)
    requires n in s.chunks
    ensures Frame(s, FinishFailure(s, n, e, o, hasReport).state, n)
  {
    hide Frame, OpenFinalGate;
    if e.refinement.Some? {
      var kept := SetStatus(s, n, Completed).(treeClean := s.treeClean || o.restoreCleans);
      OwnFrame(s, kept, n);
      SettleFrame(kept, e.refinement.value, n);
      OwnFrame(kept, kept.(run := RunFailed), n);
      FrameTransitive(s, kept, FinishFailure(s, n, e, o, hasReport).state, n);
    } else {
      OwnFrame(s, FinishFailure(s, n, e, o, hasReport).state, n);
    }
  }

  lemma SettleFrame(s: State, ctx: RefinementContext, n: int)
    ensures Frame(s, s, n)
    ensures Settle(s, ctx).Some? ==> Frame(s, Settle(s, ctx).value, n)
  {
    if ctx.superseded && MarkAwaitingFinal(s).Some? {
      GateFrame(s, OpenFinalGate(s.gates).value, n);
    }
  }

  lemma RaiseFrame(s: State, n: int, e: Entry, o: Answers, mode: EntryMode, hasReport: bool)
    requires n in s.chunks
    ensures Frame(s, FinishFailure(Record(s, n, mode, AttemptFailed), n, e, o, hasReport).state, n)
  {
    hide Frame, FinishFailure;
    var recorded := Record(s, n, mode, AttemptFailed);
    RecordFrame(s, n, mode, AttemptFailed);
    FailureFrame(recorded, n, e, o, hasReport);
    FrameTransitive(s, recorded, FinishFailure(recorded, n, e, o, hasReport).state, n);
  }

  lemma GatePauseFrame(s: State, n: int, after: bool)
    requires n in s.chunks && PauseAtGate(s, n, after).Some?
    ensures Frame(s, PauseAtGate(s, n, after).value, n)
  {
    var gated := s.(gates := OpenChunkGate(s.gates, n, after).value);
    GateFrame(s, gated.gates, n);
    OwnFrame(gated, PauseAtGate(s, n, after).value, n);
    FrameTransitive(s, gated, PauseAtGate(s, n, after).value, n);
  }

  lemma PauseFrame(s: State, n: int, e: Entry, o: Answers, mode: EntryMode, after: bool)
    requires n in s.chunks
    ensures Frame(s, PauseOrRaise(s, n, e, o, mode, after).state, n)
  {
    hide Frame, FinishFailure, PauseAtGate;
    var paused := PauseAtGate(s, n, after);
    if paused.Some? {
      GatePauseFrame(s, n, after);
      RecordFrame(paused.value, n, mode, AttemptAwaiting);
      FrameTransitive(s, paused.value, Record(paused.value, n, mode, AttemptAwaiting), n);
    } else {
      RaiseFrame(s, n, e, o, e.mode, false);
    }
  }

  lemma MarkedPauseFrame(s: State, n: int, summary: Summary, e: Entry, o: Answers, mode: EntryMode, after: bool)
    requires n in s.chunks
    ensures Frame(s, PauseOrRaise(SetSummary(s, n, summary), n, e, o, mode, after).state, n)
  {
    hide Frame, PauseOrRaise;
    var marked := SetSummary(s, n, summary);
    OwnFrame(s, marked, n);
    PauseFrame(marked, n, e, o, mode, after);
    FrameTransitive(s, marked, PauseOrRaise(marked, n, e, o, mode, after).state, n);
  }

  lemma CommitFrame(s: State, n: int, origin: Origin, residue: bool, mode: EntryMode)
    requires n in s.chunks
    ensures Frame(s, Record(CommitChunk(s, n, origin, residue), n, mode, AttemptCompleted), n)
  {}

  lemma VerifiedFrame(s: State, n: int, e: Entry, o: Answers, mode: EntryMode)
    requires n in s.chunks && 1 <= n <= |s.plan|
    ensures Frame(s, FinishVerified(s, n, e, o, mode).state, n)
  {
    hide Frame, FinishFailure, PauseOrRaise;
    if e.refinement.Some? {
      var ctx := e.refinement.value;
      MarkedPauseFrame(s, n, Refinement(ctx.priorRun, ctx.superseded, ctx.prior), e, o, mode, true);
    } else if HumanMode(e.mode) {
      MarkedPauseFrame(s, n, Recovered, e, o, mode, false);
    } else if s.plan[n - 1].needsReview {
      PauseFrame(s, n, e, o, mode, false);
    } else if s.treeClean {
      OwnFrame(s, FailChunk(s, n), n);
      RaiseFrame(FailChunk(s, n), n, e, o, e.mode, false);
      FrameTransitive(s, FailChunk(s, n), FinishVerified(s, n, e, o, mode).state, n);
    } else if !o.commitWorks {
      RaiseFrame(s, n, e, o, e.mode, false);
    } else {
      CommitFrame(s, n, ByDriver(mode), o.residue, mode);
    }
  }

  /** A driver pass leaves the plan and every other chunk alone. */
  lemma DriveFrame(s: State, n: int, e: Entry, o: Answers)
    requires n in s.chunks && 1 <= n <= |s.plan|
    ensures Frame(s, Drive(s, n, e, o).state, n)
  {
    hide FinishFailure, AttemptLoop, FinishVerified, Frame;
    if !DependenciesMet(s, n) {
      RaiseFrame(s, n, e, o, e.mode, false);
    } else {
      var running := SetStatus(s, n, Running).(run := RunningChunks);
      OwnFrame(s, running, n);
      if !running.treeClean || o.planRaises {
        RaiseFrame(running, n, e, o, e.mode, !running.treeClean);
        FrameTransitive(s, running, Drive(s, n, e, o).state, n);
      } else {
        var looped := AttemptLoop(running, n, e, o, e.mode, 0);
        LoopFrame(running, n, e, o, e.mode, 0);
        FrameTransitive(s, running, looped.state, n);
        match looped.end {
          case Crashed => RaiseFrame(looped.state, n, e, o, e.mode, false);
          case AttemptRejected(_) => RaiseFrame(looped.state, n, e, o, looped.mode, true);
          case Verified => VerifiedFrame(looped.state, n, e, o, looped.mode);
        }
        FrameTransitive(s, looped.state, Drive(s, n, e, o).state, n);
      }
    }
  }
}
