/** The operations on a chunked run (backend/pipeline/chunked_orchestrator.py), each one
    atomic step under the project lock, as functions of the state and of the answers of
    everything outside it. */
module Orchestrator {
  import opened ChunkPlan
  import opened Wrappers
  import opened ApprovalGates
  import opened AttemptLedger
  import opened RunState
  import opened ChunkDriver

  /** What the caller of an operation gets back; `Raised` covers every exception. */
  datatype Reply =
    | Raised
    | AlreadyRunning
    | StartDrifted
    | Ineligible
    | PausedForMemoryConflict
    | BaselineFailed
    | StillAwaitingChunk(waiting: int)
    | ChunkNotDone(chunk: int)
    | FinalApprovalOpened
    | ChunkApprovedReply
    | ChunkRejectedReply
    | RefinementNoOp
    | RefinementRejected
    | GateDecided

  datatype Outcome = Outcome(state: State, reply: Reply)

  /** The chunks among 1..k whose status is wanted, in ascending order. */
  function Select(s: State, k: nat, wanted: set<ChunkStatus>): (r: seq<int>)
    ensures forall n :: n in r <==> 1 <= n <= k && n in s.chunks && s.chunks[n].status in wanted
    ensures forall i, j :: 0 <= i < j < |r| ==> r[i] < r[j]
  {
    if k == 0 then []
    else
      var front := Select(s, k - 1, wanted);
      assert forall i :: 0 <= i < |front| ==> front[i] in front;
      if k in s.chunks && s.chunks[k].status in wanted then front + [k] else front
  }

  // ----- execute ------------------------------------------------------------------------

  /** The checks execute makes before its first chunk, in order. */
  datatype ExecuteChecks = ExecuteClear | RepoInvalid | MemoryConflict | StartDrift | BranchRaises | BaselineBad

  /** Answers for each chunk the operation may drive. */
  type AnswerSheet = map<int, Answers>

  const DEFAULT_ANSWERS := Answers(true,
    Attempt(CodeRaised, PreflightRaised, ApplyRaised(true), TestsRaised(true)),
    Attempt(CodeRaised, PreflightRaised, ApplyRaised(true), TestsRaised(true)),
    false, false, false, false)

  function AnswersFor(sheet: AnswerSheet, n: int): Answers {
    if n in sheet then sheet[n] else DEFAULT_ANSWERS
  }

  function Finalize(s: State): Outcome {
    var marked := MarkAwaitingFinal(s);
    if marked.Some? then Outcome(marked.value, FinalApprovalOpened) else Outcome(s, Raised)
  }

  predicate Todo(s: State, todo: seq<int>) {
    forall n :: n in todo ==> n in s.chunks && 1 <= n <= |s.plan|
  }

  /** Drive the listed chunks in order until one does not complete. */
  function ExecuteFrom(s: State, todo: seq<int>, sheet: AnswerSheet): Outcome
    requires Todo(s, todo)
    decreases |todo|
  {
    if todo == [] then Finalize(s)
    else
      var d := Drive(s, todo[0], Entry(Fresh, None), AnswersFor(sheet, todo[0]));
      if d.end != ChunkCommitted then Outcome(d.state, ChunkNotDone(todo[0]))
      else
        DriveFrame(s, todo[0], Entry(Fresh, None), AnswersFor(sheet, todo[0]));
        assert forall n :: n in todo[1..] ==> n in todo;
        ExecuteFrom(d.state, todo[1..], sheet)
  }

  /** The checks in front of the chunk loop: either they end the operation or they let it go on. */
  datatype Prelude = Stop(outcome: Outcome) | Go(state: State)

  function ExecutePrelude(s: State, checks: ExecuteChecks): Prelude {
    if exists n :: n in s.chunks && s.chunks[n].status == Running then Stop(Outcome(s, AlreadyRunning))
    else if checks == RepoInvalid || !s.treeClean then Stop(Outcome(s.(run := RunFailed), Raised))
    else if checks == MemoryConflict then Stop(Outcome(s.(run := AwaitingMemoryConflict), PausedForMemoryConflict))
    else if checks == StartDrift then Stop(Outcome(s, StartDrifted))
    else if checks == BranchRaises then Stop(Outcome(s, Raised))
    else if checks == BaselineBad then Stop(Outcome(s.(run := RunFailed), BaselineFailed))
    else Go(s)
  }

  function ExecuteRun(s: State, checks: ExecuteChecks, sheet: AnswerSheet): Outcome {
    match ExecutePrelude(s, checks)
    case Stop(outcome) => outcome
    case Go(r) => ExecuteFrom(r, Select(r, |r.plan|, {PendingChunk}), sheet)
  }

  // ----- resume -------------------------------------------------------------------------

  datatype ResumeChecks = ResumeClear | BranchUnavailable | ResumeMemoryConflict | ResumeBaselineBad

  /** Chunks left running by a crash go back to pending. */
  function ResetStaleRunning(s: State): State {
    s.(chunks := map n | n in s.chunks ::
      if s.chunks[n].status == Running then s.chunks[n].(status := PendingChunk) else s.chunks[n])
  }

  function ResumeFrom(s: State, todo: seq<int>, sheet: AnswerSheet): Outcome
    requires Todo(s, todo)
    decreases |todo|
  {
    if todo == [] then Finalize(s)
    else
      var d := ResumeDrive(s, todo[0], AnswersFor(sheet, todo[0]));
      assert forall n :: n in todo[1..] ==> n in todo;
      match d.end
      case RecoveryRaised => Outcome(d.state, Raised)
      case SkipBlocked => Outcome(d.state, ChunkNotDone(todo[0]))
      case Skipped => ResumeFrom(d.state, todo[1..], sheet)
      case Drove(end) =>
        if end != ChunkCommitted then Outcome(d.state, ChunkNotDone(todo[0]))
        else
          DriveFrame(s, todo[0], Entry(EntryMode.Resume, None), AnswersFor(sheet, todo[0]));
          ResumeFrom(d.state, todo[1..], sheet)
  }

  const RESUMABLE := {PendingChunk, Failed, Running, RejectedChunk}

  function ResumePrelude(s: State, checks: ResumeChecks): Prelude {
    if checks == BranchUnavailable then Stop(Outcome(s, Raised))
    else if !DriftGuardAccepts(s.ledger, s.history) then Stop(Outcome(s, Raised))
    else
      var waiting := Select(s, |s.plan|, {AwaitingChunk});
      if waiting != [] && HasPending(s.gates, ForChunk(waiting[0])) then
        Stop(Outcome(s, StillAwaitingChunk(waiting[0])))
      else if !s.treeClean then Stop(Outcome(s, Raised))
      else
        var restarted := ResetStaleRunning(s).(run := ResumeRunning);
        if checks == ResumeMemoryConflict then
          Stop(Outcome(restarted.(run := AwaitingMemoryConflict), PausedForMemoryConflict))
        else if checks == ResumeBaselineBad then Stop(Outcome(restarted.(run := RunFailed), BaselineFailed))
        else Go(restarted)
  }

  function ResumeRun(s: State, checks: ResumeChecks, sheet: AnswerSheet): Outcome {
    match ResumePrelude(s, checks)
    case Stop(outcome) => outcome
    case Go(r) => ResumeFrom(r, Select(r, |r.plan|, RESUMABLE), sheet)
  }

  // ----- approve ------------------------------------------------------------------------

  /** Answers approval needs: repo and code checkpoint load, whether the checkpointed code
      touches any file, whether the commit works and leaves files behind. */
  datatype ApproveAnswers = ApproveAnswers(loads: bool, touches: bool, commitWorks: bool, residue: bool)

  function RestorePrior(s: State, n: int, fallback: Summary): State
    requires n in s.chunks && s.chunks[n].summary.Refinement?
  {
    var prior := s.chunks[n].summary.prior;
    SetStatus(SetSummary(s, n, if prior.Some? then prior.value else fallback), n, Completed)
  }

  function ContextOf(summary: Summary): RefinementContext
    requires summary.Refinement?
  {
    RefinementContext(summary.priorRun, summary.superseded, summary.prior)
  }

  /** Put a refined chunk back and settle the run; a settle that raises propagates. */
  function UndoRefinement(s: State, n: int, fallback: Summary, reply: Reply): Outcome
    requires n in s.chunks && s.chunks[n].summary.Refinement?
  {
    var restored := RestorePrior(s, n, fallback);
    var settled := Settle(restored, ContextOf(s.chunks[n].summary));
    if settled.Some? then Outcome(settled.value, reply) else Outcome(restored, Raised)
  }

  /** The approved gate, the commit it allows, its summary and its completed row. */
  function ApprovedCommit(s: State, n: int, residue: bool): State
    requires StatusIs(s, n, AwaitingChunk) && HasPending(s.gates, ForChunk(n))
  {
    var c := s.chunks[n];
    var g := NewestPending(s.gates, ForChunk(n));
    var decided := s.(gates := Decide(s.gates, g, Approved));
    var mode := if c.summary.Refinement? || c.summary.Recovered? then HumanRetry else Fresh;
    Record(CommitChunk(decided, n, ByApproval(g), residue), n, mode, AttemptCompleted).(run := ChunkApproved)
  }

  function Approve(s: State, n: int, o: ApproveAnswers): Outcome {
    if !StatusIs(s, n, AwaitingChunk) || !o.loads then Outcome(s, Raised)
    else
      var c := s.chunks[n];
      var g := NewestPending(s.gates, ForChunk(n));
      if g < 0 then Outcome(s, Raised)
      else
        var decided := s.(gates := Decide(s.gates, g, Approved));
        if c.summary.Refinement? && (!o.touches || s.treeClean) then
          UndoRefinement(decided, n, c.summary, RefinementNoOp)
        else if !o.touches || s.treeClean then Outcome(FailChunk(decided, n), Raised)
        else if !o.commitWorks then Outcome(decided, Raised)
        else
          var done := ApprovedCommit(s, n, o.residue);
          if AllCompleted(done) then Finalize(done) else Outcome(done, ChunkApprovedReply)
  }

  // ----- reject -------------------------------------------------------------------------

  datatype RollbackAnswer = RolledBack | RollbackFailed(clean: bool)

  function Reject(s: State, n: int, loads: bool, o: RollbackAnswer): Outcome {
    if !StatusIs(s, n, AwaitingChunk) || !loads then Outcome(s, Raised)
    else if o.RollbackFailed? then Outcome(s.(treeClean := o.clean), Raised)
    else
      var clean := s.(treeClean := true);
      var g := NewestPending(s.gates, ForChunk(n));
      if g < 0 then Outcome(clean, Raised)
      else
        var decided := clean.(gates := Decide(s.gates, g, GateStatus.Rejected));
        if s.chunks[n].summary.Refinement? then UndoRefinement(decided, n, RetainedNote, RefinementRejected)
        else Outcome(SetStatus(decided, n, RejectedChunk).(run := RunFailed), ChunkRejectedReply)
  }

  // ----- retry, steer, scope retry --------------------------------------------------------

  datatype RetryKind = PlainRetry | SteeredRetry | ScopeRetry

  /** `admitted`: branch, request id, failure type, budget and scope checks all pass. The
      scope-expansion door does not look at dependencies; the driver still does. */
  function Retry(s: State, n: int, kind: RetryKind, admitted: bool, o: Answers): Outcome {
    if !(n in s.chunks && 1 <= n <= |s.plan|) then Outcome(s, Raised)
    else if !admitted || !StatusIs(s, n, Failed) || !s.chunks[n].summary.FailureReport? || !s.treeClean
            || (kind != ScopeRetry && !DependenciesMet(s, n))
    then Outcome(s, Ineligible)
    else
      var d := Drive(s, n, Entry(if kind == SteeredRetry then Steered else HumanRetry, None), o);
      Outcome(d.state, ChunkNotDone(n))
  }

  // ----- refine -------------------------------------------------------------------------

  const HUMAN_ATTEMPT_BUDGET := 2

  /** count_human_attempt_ledger_rows over one chunk's rows. */
  function HumanRows(ledger: seq<Row>, n: int): nat {
    if ledger == [] then 0
    else
      var last := ledger[|ledger| - 1];
      HumanRows(ledger[..|ledger| - 1], n) +
      (if last.chunk == n && HumanMode(last.mode) && last.status != AttemptCompleted then 1 else 0)
  }

  predicate RefineEligible(s: State, n: int)
    requires n in s.chunks && 1 <= n <= |s.plan|
  {
    && s.chunks[n].status == Completed
    && (s.run == AwaitingFinalApproval || s.run == ChunkApproved)
    && DependenciesMet(s, n)
    && s.treeClean
    && HumanRows(s.ledger, n) < HUMAN_ATTEMPT_BUDGET
  }

  function PriorSummary(summary: Summary): Option<Summary> {
    if summary == NoSummary then None else Some(summary)
  }

  function Refine(s: State, n: int, admitted: bool, o: Answers): Outcome {
    if !(n in s.chunks && 1 <= n <= |s.plan|) then Outcome(s, Raised)
    else if !admitted || !RefineEligible(s, n) then Outcome(s, Ineligible)
    else
      var superseding := s.run == AwaitingFinalApproval;
      if superseding && !HasPending(s.gates, ForRun) then Outcome(s, Ineligible)
      else
        var ready := if superseding then s.(gates := SupersedeFinal(s.gates), run := RunningChunks) else s;
        var ctx := RefinementContext(s.run, superseding, PriorSummary(s.chunks[n].summary));
        var d := Drive(ready, n, Entry(Steered, Some(ctx)), o);
        Outcome(d.state, ChunkNotDone(n))
  }

  // ----- gate decisions and the world outside ----------------------------------------------

  /** The generic gate routes: decide one pending gate and nothing else. */
  function DecideGate(s: State, g: int, approve: bool): Outcome {
    if 0 <= g < |s.gates| && s.gates[g].status == Pending then
      Outcome(s.(gates := Decide(s.gates, g, if approve then Approved else GateStatus.Rejected)), GateDecided)
    else Outcome(s, Raised)
  }

  /** The final-approval routes; `admitted`: every required acknowledgement is in place. */
  function DecideFinal(s: State, approve: bool, admitted: bool): Outcome {
    var g := NewestPending(s.gates, ForRun);
    if !admitted || g < 0 then Outcome(s, Raised)
    else
      Outcome(s.(gates := Decide(s.gates, g, if approve then Approved else GateStatus.Rejected),
                 run := if approve then FinalApproved else FinalRejected), GateDecided)
  }

  datatype Op =
    | DoExecute(echecks: ExecuteChecks, sheet: AnswerSheet)
    | DoResume(rchecks: ResumeChecks, sheet: AnswerSheet)
    | DoApprove(n: int, approveAnswers: ApproveAnswers)
    | DoReject(n: int, loads: bool, rollback: RollbackAnswer)
    | DoRetry(n: int, kind: RetryKind, admitted: bool, answers: Answers)
    | DoRefine(n: int, admitted: bool, answers: Answers)
    | DoDecideGate(gate: int, approve: bool)
    | DoDecideFinal(approve: bool, admitted: bool)
    | DoDecideMemoryConflict(approve: bool)
    | DoSettleScopeRejection
    | HumanTouchesTree(clean: bool)

  /** One step of a run. */
  function Step(s: State, op: Op): Outcome {
    match op
    case DoExecute(checks, sheet) => ExecuteRun(s, checks, sheet)
    case DoResume(checks, sheet) => ResumeRun(s, checks, sheet)
    case DoApprove(n, o) => Approve(s, n, o)
    case DoReject(n, loads, o) => Reject(s, n, loads, o)
    case DoRetry(n, kind, admitted, o) => Retry(s, n, kind, admitted, o)
    case DoRefine(n, admitted, o) => Refine(s, n, admitted, o)
    case DoDecideGate(g, approve) => DecideGate(s, g, approve)
    case DoDecideFinal(approve, admitted) => DecideFinal(s, approve, admitted)
    case DoDecideMemoryConflict(approve) =>
      Outcome(s.(run := if approve then PlanApproved else RunRejected), GateDecided)
    case DoSettleScopeRejection =>
      Outcome(if s.run == AwaitingScopeApproval then s.(run := RunFailed) else s, GateDecided)
    case HumanTouchesTree(clean) => Outcome(s.(treeClean := clean), GateDecided)
  }
}
