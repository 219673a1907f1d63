/** What the invariant means for the people and processes around a run. */
module RunTheorems {
  import opened ChunkPlan
  import opened Wrappers
  import opened ApprovalGates
  import opened AttemptLedger
  import opened RunState
  import opened ChunkDriver
  import opened Orchestrator
  import opened RunInvariant
  import opened DriverSafety
  import opened RunSafety
  import opened DriverTrace

  /** A state some run of operations from a freshly approved plan ends in. */
  ghost predicate Reachable(s: State) {
    exists plan, clean, ops :: ValidPlan(plan) && s == RunOps(Start(plan, clean), ops)
  }

  lemma ReachableInv(s: State)
    requires Reachable(s)
    ensures Inv(s)
  {
    var plan, clean, ops :| ValidPlan(plan) && s == RunOps(Start(plan, clean), ops);
    StartInv(plan, clean);
    RunInv(Start(plan, clean), ops);
  }

  lemma {:induction false} RunOpsAppend(s: State, ops: seq<Op>, op: Op)
    ensures RunOps(s, ops + [op]) == Step(RunOps(s, ops), op).state
    decreases |ops|
  {
    if ops == [] {
      assert ops + [op] == [op];
    } else {
      RunOpsAppend(Step(s, ops[0]).state, ops[1..], op);
      assert (ops + [op])[1..] == ops[1..] + [op];
    }
  }

  lemma ReachableStep(s: State, op: Op)
    requires Reachable(s)
    ensures Reachable(Step(s, op).state)
  {
    var plan, clean, ops :| ValidPlan(plan) && s == RunOps(Start(plan, clean), ops);
    RunOpsAppend(Start(plan, clean), ops, op);
    assert Step(s, op).state == RunOps(Start(plan, clean), ops + [op]);
  }

  // ----- committed work survives ---------------------------------------------------------------

  /** Once a chunk is committed, then after any further operations it is completed or awaiting
      approval, its commits are still there in place, and whenever it is completed its summary
      is the one saved with its latest commit. */
  lemma CommittedChunkNeverLost(s: State, ops: seq<Op>, n: int)
    requires Reachable(s) && Committed(s.history, n)
    ensures var r := RunOps(s, ops);
            && s.history <= r.history
            && LastCommit(s.history, n) <= LastCommit(r.history, n)
            && n in r.chunks
            && (r.chunks[n].status == Completed || r.chunks[n].status == AwaitingChunk)
            && (r.chunks[n].status == Completed ==> r.chunks[n].summary == Success(LastCommit(r.history, n)))
  {
    ReachableInv(s);
    RunInv(s, ops);
    var r := RunOps(s, ops);
    var i := LastCommit(s.history, n);
    assert r.history[i] == s.history[i];
    assert n == s.history[i].chunk && n in r.chunks;
    assert ChunkOk(r.plan, r.history, n, r.chunks[n]);
  }

  /** A completed chunk has a commit: no path marks completion without one. */
  lemma CompletedMeansCommitted(s: State, n: int)
    requires Reachable(s) && StatusIs(s, n, Completed)
    ensures Committed(s.history, n)
  {
    ReachableInv(s);
    assert ChunkOk(s.plan, s.history, n, s.chunks[n]);
  }

  // ----- dependency order ----------------------------------------------------------------------

  lemma {:induction false} FirstInPrefix(history: History, k: nat, n: int)
    requires k <= |history| && Committed(history[..k], n)
    ensures 0 <= FirstCommit(history, n) < k
  {
    var j := LastCommit(history[..k], n);
    assert history[j].chunk == n;
  }

  /** The branch is a linear extension of the dependency graph: a chunk's first commit comes
      after the first commit of everything it depends on. */
  lemma HistoryRespectsDependencies(s: State, n: int, d: int)
    requires Reachable(s) && 1 <= n <= |s.plan| && d in DependenciesOf(s.plan, n)
    requires Committed(s.history, n)
    ensures 0 <= FirstCommit(s.history, d) < FirstCommit(s.history, n)
  {
    ReachableInv(s);
    var i := FirstCommit(s.history, n);
    assert s.history[LastCommit(s.history, n)].chunk == n;
    assert DepsCommitted(s.plan, s.history[..i], n);
    FirstInPrefix(s.history, i, d);
  }

  // ----- gates ---------------------------------------------------------------------------------

  /** Gates agree with chunks, and the two kinds of gate are never pending together. */
  lemma GatesAgreeWithChunks(s: State, n: int)
    requires Reachable(s)
    ensures HasPending(s.gates, ForRun) ==> AllCompleted(s)
    ensures HasPending(s.gates, ForChunk(n)) ==> StatusIs(s, n, AwaitingChunk) && !HasPending(s.gates, ForRun)
  {
    ReachableInv(s);
    var g := NewestPending(s.gates, ForChunk(n));
    assert g >= 0 ==> s.gates[g] == Gate(ForChunk(n), Pending);
  }

  /** Gate ledger discipline over a whole run: later operations never alter a decided gate;
      of one kind only the newest gate can be pending; every final gate but the newest is
      superseded and every chunk gate but the newest is approved or rejected. */
  lemma GateLedgerDiscipline(s: State, ops: seq<Op>, i: int)
    requires Reachable(s) && 0 <= i < |s.gates|
    ensures var r := RunOps(s, ops);
            && i < |r.gates| && r.gates[i].kind == s.gates[i].kind
            && (s.gates[i].status != Pending ==> r.gates[i] == s.gates[i])
            && (i != Newest(r.gates, r.gates[i].kind) ==> Closed(r.gates[i]))
  {
    ReachableInv(s);
    RunInv(s, ops);
    var r := RunOps(s, ops);
    var j := Newest(r.gates, r.gates[i].kind);
    assert i <= j;
  }

  // ----- the ledger ----------------------------------------------------------------------------

  /** The newest completed row holds the branch tip, so resume's drift guard accepts every
      state the pipeline made and turns away, untouched, every branch that is not the one
      it recorded; attempt numbers per chunk are 1, 2, 3, .... */
  lemma LedgerTracksTip(s: State, outside: History, checks: ResumeChecks, sheet: AnswerSheet)
    requires Reachable(s)
    ensures Numbered(s.ledger) && DriftGuardAccepts(s.ledger, s.history)
    ensures s.history != [] ==>
              var i := LatestCompleted(s.ledger); i >= 0 && s.ledger[i].head == s.history
    ensures s.history != [] && outside != s.history ==>
              var drifted := s.(history := outside);
              ResumeRun(drifted, checks, sheet) == Outcome(drifted, Raised)
  {
    ReachableInv(s);
    LatestIsTip(s.ledger, s.history);
  }

  /** Ordering by chunk number first would name a stale HEAD exactly when the newest commit is
      not of the highest chunk committed so far. */
  lemma ChunkNumberOrderBreaksIff(s: State)
    requires Reachable(s) && s.history != []
    ensures var i := HighestCompleted(s.ledger);
            && i >= 0
            && (s.ledger[i].head != s.history <==>
                exists k :: 0 <= k < |s.history| && s.history[k].chunk > s.history[|s.history| - 1].chunk)
  {
    ReachableInv(s);
    HighestIsTipIff(s.ledger, s.history);
  }

  /** In particular an approved refinement of any chunk but the highest committed one would
      brick resume under that order. */
  lemma RefinementBreaksChunkNumberOrder(s: State, n: int, o: ApproveAnswers, m: int)
    requires Reachable(s) && StatusIs(s, n, AwaitingChunk) && HasPending(s.gates, ForChunk(n))
    requires o.loads && o.touches && o.commitWorks && !s.treeClean
    requires m > n && Committed(s.history, m)
    ensures var r := Approve(s, n, o).state;
            && r.history == s.history + [Commit(n, ByApproval(NewestPending(s.gates, ForChunk(n))))]
            && s.ledger < r.ledger
            && HighestCompleted(r.ledger) >= 0
            && r.ledger[HighestCompleted(r.ledger)].head != r.history
            && r.ledger[LatestCompleted(r.ledger)].head == r.history
  {
    hide Inv, Reachable;
    ReachableInv(s);
    var r := Approve(s, n, o).state;
    ApproveInv(s, n, o);
    ApprovalAppends(s, n, o);
    TracksOf(r);
    LatestIsTip(r.ledger, r.history);
    HighestIsTipIff(r.ledger, r.history);
    var k := LastCommit(s.history, m);
    assert r.history[k].chunk == m;
  }

  lemma TracksOf(s: State)
    requires Inv(s)
    ensures LedgerTracks(s.ledger, s.history)
  {}

  lemma ApprovalAppends(s: State, n: int, o: ApproveAnswers)
    requires StatusIs(s, n, AwaitingChunk) && HasPending(s.gates, ForChunk(n))
    requires o.loads && o.touches && o.commitWorks && !s.treeClean
    ensures var r := Approve(s, n, o).state;
            r.history == s.history + [Commit(n, ByApproval(NewestPending(s.gates, ForChunk(n))))] && s.ledger < r.ledger
  {}

  // ----- approvals -----------------------------------------------------------------------------

  /** The gate each approved commit owns. */
  function GateOf(history: History, i: int): int
    requires 0 <= i < |history| && history[i].origin.ByApproval?
  {
    history[i].origin.gate
  }

  /** Every commit of a reviewed chunk owns an approved gate of that chunk, no two commits
      share one, and commits without a gate were made by the driver outside the human modes. */
  lemma EveryReviewedCommitHasItsApproval(s: State)
    requires Reachable(s)
    ensures forall i :: 0 <= i < |s.history| ==>
              if s.history[i].origin.ByApproval? then
                0 <= GateOf(s.history, i) < |s.gates|
                && s.gates[GateOf(s.history, i)] == Gate(ForChunk(s.history[i].chunk), Approved)
              else
                && 1 <= s.history[i].chunk <= |s.plan|
                && !s.plan[s.history[i].chunk - 1].needsReview
                && !HumanMode(s.history[i].origin.mode)
    ensures forall i, j ::
              0 <= i < j < |s.history| && s.history[i].origin.ByApproval? && s.history[j].origin.ByApproval? ==>
              GateOf(s.history, i) != GateOf(s.history, j)
  {
    ReachableInv(s);
    forall i | 0 <= i < |s.history| && s.history[i].origin.ByApproval?
      ensures 0 <= GateOf(s.history, i) < |s.gates|
      ensures s.gates[GateOf(s.history, i)] == Gate(ForChunk(s.history[i].chunk), Approved)
    {
      assert ApprovedFor(s.gates, s.history[i]);
    }
  }

  /** Commits a step adds, and the gates they use up. */
  ghost predicate CommitsAreLicensed(s: State, r: State, byDriver: bool) {
    forall i :: |s.history| <= i < |r.history| ==>
      if r.history[i].origin.ByDriver? then byDriver
      else
        var g := r.history[i].origin.gate;
        && 0 <= g < |s.gates| && g < |r.gates|
        && s.gates[g] == Gate(ForChunk(r.history[i].chunk), Pending)
        && r.gates[g].status == Approved
  }

  /** Only driver commits were added. */
  ghost predicate DriverCommitsOnly(before: History, after: History) {
    before <= after && forall i :: |before| <= i < |after| ==> after[i].origin.ByDriver?
  }

  lemma ExecuteCommits(s: State, todo: seq<int>, sheet: AnswerSheet)
    requires Todo(s, todo)
    ensures DriverCommitsOnly(s.history, ExecuteFrom(s, todo, sheet).state.history)
    decreases |todo|
  {
    hide Drive, OneTerminalRow, RetryThenTerminal;
    if todo != [] {
      var e, o := Entry(Fresh, None), AnswersFor(sheet, todo[0]);
      DriveTrace(s, todo[0], e, o);
      DriveFrame(s, todo[0], e, o);
      var d := Drive(s, todo[0], e, o);
      if d.end == ChunkCommitted {
        assert forall n :: n in todo[1..] ==> n in todo;
        ExecuteCommits(d.state, todo[1..], sheet);
      }
    }
  }

  lemma ResumeDriveCommits(s: State, n: int, o: Answers)
    requires n in s.chunks && 1 <= n <= |s.plan|
    ensures var r := ResumeDrive(s, n, o).state;
            DriverCommitsOnly(s.history, r.history) && r.plan == s.plan && r.chunks.Keys == s.chunks.Keys
  {
    hide Drive, OneTerminalRow, RetryThenTerminal;
    var e := Entry(EntryMode.Resume, None);
    DriveTrace(s, n, e, o);
    DriveFrame(s, n, e, o);
  }

  lemma ResumeCommits(s: State, todo: seq<int>, sheet: AnswerSheet)
    requires Todo(s, todo)
    ensures DriverCommitsOnly(s.history, ResumeFrom(s, todo, sheet).state.history)
    decreases |todo|
  {
    if todo != [] {
      var o := AnswersFor(sheet, todo[0]);
      ResumeDriveCommits(s, todo[0], o);
      var d := ResumeDrive(s, todo[0], o);
      assert forall n :: n in todo[1..] ==> n in todo;
      if d.end == Skipped || d.end == Drove(ChunkCommitted) {
        ResumeCommits(d.state, todo[1..], sheet);
      }
    }
  }

  /** Execute and resume add driver commits only. */
  lemma BatchCommits(s: State, op: Op)
    requires Inv(s) && (op.DoExecute? || op.DoResume?)
    ensures DriverCommitsOnly(s.history, Step(s, op).state.history)
  {
    hide ExecuteFrom, ResumeFrom, LedgerTracks, ApprovalsOk, HistoryOk, ReopenOk, GatesOk, DriftGuardAccepts;
    if op.DoExecute? {
      if ExecutePrelude(s, op.echecks).Go? {
        ExecuteCommits(s, Select(s, |s.plan|, {PendingChunk}), op.sheet);
      }
    } else {
      var p := ResumePrelude(s, op.rchecks);
      if p.Go? {
        ResumeCommits(p.state, Select(p.state, |p.state.plan|, RESUMABLE), op.sheet);
      }
    }
  }

  lemma RetryNeverCommits(s: State, n: int, kind: RetryKind, admitted: bool, o: Answers)
    ensures Retry(s, n, kind, admitted, o).state.history == s.history
  {
    if n in s.chunks && 1 <= n <= |s.plan| {
      DriveTrace(s, n, Entry(if kind == SteeredRetry then Steered else HumanRetry, None), o);
    }
  }

  /** The approval comes first: the gate a commit owns was still pending when the step that
      commits began; only execute and resume ever commit without one, and retries, steers and
      refinements never commit at all. */
  lemma StepCommitsAreLicensed(s: State, op: Op)
    requires Reachable(s)
    ensures CommitsAreLicensed(s, Step(s, op).state, op.DoExecute? || op.DoResume?)
    ensures |Step(s, op).state.history| > |s.history| ==> op.DoExecute? || op.DoResume? || op.DoApprove?
  {
    ReachableInv(s);
    match op
    case DoExecute(_, _) => BatchCommits(s, op);
    case DoResume(_, _) => BatchCommits(s, op);
    case DoRetry(n, kind, admitted, o) => RetryNeverCommits(s, n, kind, admitted, o);
    case DoRefine(n, admitted, o) => RefineNeverCommits(s, n, admitted, o);
    case DoApprove(n, o) => ApproveCommitsOne(s, n, o);
    case DoReject(n, loads, o) => RejectNeverCommits(s, n, loads, o);
    case _ =>
  }

  lemma RejectNeverCommits(s: State, n: int, loads: bool, o: RollbackAnswer)
    ensures Reject(s, n, loads, o).state.history == s.history
  {}

  lemma RefineNeverCommits(s: State, n: int, admitted: bool, o: Answers)
    ensures Refine(s, n, admitted, o).state.history == s.history
  {
    if n in s.chunks && 1 <= n <= |s.plan| {
      var superseding := s.run == AwaitingFinalApproval;
      var ready := if superseding then s.(gates := SupersedeFinal(s.gates), run := RunningChunks) else s;
      var ctx := RefinementContext(s.run, superseding, PriorSummary(s.chunks[n].summary));
      DriveTrace(ready, n, Entry(Steered, Some(ctx)), o);
    }
  }

  lemma ApproveCommitsOne(s: State, n: int, o: ApproveAnswers)
    requires Inv(s)
    ensures CommitsAreLicensed(s, Approve(s, n, o).state, false)
  {
    hide LedgerTracks, HistoryOk, ReopenOk, GatesOk, ChunksOk;
    ApproveInv(s, n, o);
    var r := Approve(s, n, o).state;
    if r.history != s.history {
      var g := NewestPending(s.gates, ForChunk(n));
      assert r.history == s.history + [Commit(n, ByApproval(g))];
      assert ApprovedFor(r.gates, r.history[|s.history|]);
    }
  }

  // ----- refinements ---------------------------------------------------------------------------

  /** Two states a human cannot tell apart at the gate screen. */
  ghost predicate SameStanding(s: State, r: State) {
    && r.history == s.history && r.run == s.run
    && r.chunks.Keys == s.chunks.Keys
    && (forall n :: n in s.chunks ==>
          r.chunks[n].status == s.chunks[n].status && r.chunks[n].summary == s.chunks[n].summary)
    && HasPending(r.gates, ForRun) == HasPending(s.gates, ForRun)
  }

  /** Wherever a refinement is waiting, rejecting it gives the chunk its committed summary
      back and settles the run: final approval is open again if the refinement closed it,
      and otherwise the run is where it was. */
  lemma RejectedRefinementSettles(s: State, n: int)
    requires Reachable(s) && StatusIs(s, n, AwaitingChunk) && s.chunks[n].summary.Refinement?
    requires HasPending(s.gates, ForChunk(n))
    ensures var marker := s.chunks[n].summary;
            var r := Reject(s, n, true, RolledBack);
            && r.reply == RefinementRejected
            && r.state.history == s.history
            && r.state.chunks == s.chunks[n := Chunk(Completed, Success(LastCommit(s.history, n)), s.chunks[n].tested)]
            && (if marker.superseded then
                  HasPending(r.state.gates, ForRun) && r.state.run == AwaitingFinalApproval && AllCompleted(r.state)
                else
                  !HasPending(r.state.gates, ForRun) && r.state.run == marker.priorRun)
  {
    ReachableInv(s);
    SettleAfterDecision(s.(treeClean := true), n, GateStatus.Rejected, RetainedNote, RefinementRejected);
  }

  /** Approving a refinement that changed nothing does the same, without a commit. */
  lemma NoOpRefinementSettles(s: State, n: int, o: ApproveAnswers)
    requires Reachable(s) && StatusIs(s, n, AwaitingChunk) && s.chunks[n].summary.Refinement?
    requires HasPending(s.gates, ForChunk(n)) && o.loads && s.treeClean
    ensures var marker := s.chunks[n].summary;
            var r := Approve(s, n, o);
            && r.reply == RefinementNoOp
            && r.state.history == s.history && r.state.ledger == s.ledger
            && r.state.chunks == s.chunks[n := Chunk(Completed, Success(LastCommit(s.history, n)), s.chunks[n].tested)]
            && (if marker.superseded then
                  HasPending(r.state.gates, ForRun) && r.state.run == AwaitingFinalApproval && AllCompleted(r.state)
                else
                  !HasPending(r.state.gates, ForRun) && r.state.run == marker.priorRun)
  {
    ReachableInv(s);
    SettleAfterDecision(s, n, Approved, s.chunks[n].summary, RefinementNoOp);
  }

  lemma SettleAfterDecision(s: State, n: int, verdict: GateStatus, fallback: Summary, reply: Reply)
    requires Inv(s) && StatusIs(s, n, AwaitingChunk) && s.chunks[n].summary.Refinement?
    requires HasPending(s.gates, ForChunk(n)) && s.treeClean
    requires verdict == Approved || verdict == GateStatus.Rejected
    ensures var marker := s.chunks[n].summary;
            var decided := s.(gates := Decide(s.gates, NewestPending(s.gates, ForChunk(n)), verdict));
            var r := UndoRefinement(decided, n, fallback, reply);
            && r.reply == reply
            && r.state.history == s.history && r.state.ledger == s.ledger
            && r.state.chunks == s.chunks[n := Chunk(Completed, Success(LastCommit(s.history, n)), s.chunks[n].tested)]
            && (if marker.superseded then
                  HasPending(r.state.gates, ForRun) && r.state.run == AwaitingFinalApproval && AllCompleted(r.state)
                else
                  !HasPending(r.state.gates, ForRun) && r.state.run == marker.priorRun)
  {
    hide LedgerTracks, HistoryOk, ApprovalsOk, UndoRefinement;
    var g := NewestPending(s.gates, ForChunk(n));
    var decided := s.(gates := Decide(s.gates, g, verdict));
    assert ChunkOk(s.plan, s.history, n, s.chunks[n]);
    assert !AllCompleted(s);
    NoPendingStays(s.gates, g, verdict);
    ReopenStays(s.gates, g, verdict);
    DecideKeeps(s.gates, g, verdict);
    UndoSettles(decided, n, fallback, reply);
  }

  /** Undoing a refinement whose gate is decided. */
  lemma UndoSettles(s: State, n: int, fallback: Summary, reply: Reply)
    requires StatusIs(s, n, AwaitingChunk) && s.chunks[n].summary.Refinement? && s.treeClean
    requires s.chunks[n].summary.prior.Some? && !HasPending(s.gates, ForRun) && Disciplined(s.gates)
    requires s.chunks[n].summary.superseded ==>
               FinalReopenable(s.gates) && forall m :: m in s.chunks && m != n ==> s.chunks[m].status == Completed
    ensures var marker := s.chunks[n].summary;
            var r := UndoRefinement(s, n, fallback, reply);
            && r.reply == reply
            && r.state.history == s.history && r.state.ledger == s.ledger
            && r.state.chunks == s.chunks[n := Chunk(Completed, marker.prior.value, s.chunks[n].tested)]
            && (if marker.superseded then
                  HasPending(r.state.gates, ForRun) && r.state.run == AwaitingFinalApproval && AllCompleted(r.state)
                else
                  !HasPending(r.state.gates, ForRun) && r.state.run == marker.priorRun)
  {
    var restored := RestorePrior(s, n, fallback);
    if s.chunks[n].summary.superseded {
      assert AllCompleted(restored);
      OpenFinalGateKeeps(restored.gates);
    }
  }

  /** A refinement that pauses leaves behind everything needed to undo it. */
  lemma PausedRefinementMarker(s: State, n: int, o: Answers)
    requires Inv(s) && n in s.chunks
    requires var r := Refine(s, n, true, o);
             r.reply == ChunkNotDone(n) && StatusIs(r.state, n, AwaitingChunk)
    ensures var r := Refine(s, n, true, o).state;
            && r.chunks[n].summary == Refinement(s.run, s.run == AwaitingFinalApproval, Some(s.chunks[n].summary))
            && HasPending(r.gates, ForChunk(n)) && r.history == s.history
  {
    assert ChunkOk(s.plan, s.history, n, s.chunks[n]);
    var superseding := s.run == AwaitingFinalApproval;
    var ready := if superseding then s.(gates := SupersedeFinal(s.gates), run := RunningChunks) else s;
    var e := Entry(Steered, Some(RefinementContext(s.run, superseding, PriorSummary(s.chunks[n].summary))));
    DriveTrace(ready, n, e, o);
    RefinementDriveMarker(ready, n, e, o);
  }

  /** The only way a refinement pass leaves its chunk waiting is the pause with its marker. */
  lemma RefinementDriveMarker(s: State, n: int, e: Entry, o: Answers)
    requires n in s.chunks && 1 <= n <= |s.plan| && e.refinement.Some?
    ensures var r := Drive(s, n, e, o);
            var ctx := e.refinement.value;
            if r.end == ChunkPaused then
              r.state.chunks[n].summary == Refinement(ctx.priorRun, ctx.superseded, ctx.prior)
            else StatusIs(r.state, n, Completed)
  {
    if ReachesLoop(s, n, o) {
      LoopDrive(s, n, e, o);
    }
  }

  /** Rejecting from a state that differs from `s` by a paused refinement of n leads back to
      the standing of `s`. */
  lemma RejectionStands(s: State, paused: State, n: int)
    requires Reachable(s) && PausedOver(s, paused, n)
    ensures SameStanding(s, Reject(paused, n, true, RolledBack).state)
  {
    ReachableInv(s);
    assert ChunkOk(s.plan, s.history, n, s.chunks[n]);
    RejectedRefinementSettles(paused, n);
  }

  /** What an admitted refinement has checked. */
  lemma RefinementAdmitted(s: State, n: int, o: Answers)
    requires Inv(s) && n in s.chunks && Refine(s, n, true, o).reply == ChunkNotDone(n)
    ensures RefineEligible(s, n) && HasPending(s.gates, ForRun) == (s.run == AwaitingFinalApproval)
  {}

  /** What a paused refinement changed, and what it left alone. */
  ghost predicate PausedOver(s: State, paused: State, n: int) {
    && Reachable(paused) && StatusIs(s, n, Completed) && StatusIs(paused, n, AwaitingChunk)
    && paused.chunks[n].summary == Refinement(s.run, s.run == AwaitingFinalApproval, Some(s.chunks[n].summary))
    && HasPending(paused.gates, ForChunk(n)) && paused.history == s.history
    && paused.chunks.Keys == s.chunks.Keys
    && (forall m :: m in s.chunks && m != n ==> paused.chunks[m] == s.chunks[m])
    && HasPending(s.gates, ForRun) == (s.run == AwaitingFinalApproval)
  }

  lemma RefinementPausesOver(s: State, n: int, o: Answers)
    requires Reachable(s) && n in s.chunks
    requires var r := Refine(s, n, true, o);
             r.reply == ChunkNotDone(n) && StatusIs(r.state, n, AwaitingChunk)
    ensures PausedOver(s, Refine(s, n, true, o).state, n)
  {
    RefineReachable(s, n, o);
    ReachableInv(s);
    RefinementAdmitted(s, n, o);
    PausedRefinementMarker(s, n, o);
    RefineFrame(s, n, o);
  }

  /** Refining and then rejecting is an undo: the run stands exactly where it stood. */
  lemma RefineThenRejectIsUndo(s: State, n: int, o: Answers, paused: State)
    requires Reachable(s) && n in s.chunks
    requires Refine(s, n, true, o) == Outcome(paused, ChunkNotDone(n)) && StatusIs(paused, n, AwaitingChunk)
    ensures SameStanding(s, Reject(paused, n, true, RolledBack).state)
  {
    RefinementPausesOver(s, n, o);
    RejectionStands(s, paused, n);
  }

  lemma RefineReachable(s: State, n: int, o: Answers)
    requires Reachable(s)
    ensures Reachable(Refine(s, n, true, o).state)
  {
    RefineIsStep(s, n, o);
    ReachableAfter(s, DoRefine(n, true, o), Refine(s, n, true, o).state);
  }

  lemma RefineIsStep(s: State, n: int, o: Answers)
    ensures Step(s, DoRefine(n, true, o)).state == Refine(s, n, true, o).state
  {}

  lemma ReachableAfter(s: State, op: Op, r: State)
    requires Reachable(s) && Step(s, op).state == r
    ensures Reachable(r)
  {
    ReachableStep(s, op);
  }

  lemma RefineFrame(s: State, n: int, o: Answers)
    requires n in s.chunks
    ensures var r := Refine(s, n, true, o).state;
            r.chunks.Keys == s.chunks.Keys &&
            forall m :: m in s.chunks && m != n ==> m in r.chunks && r.chunks[m] == s.chunks[m]
  {
    if 1 <= n <= |s.plan| {
      var superseding := s.run == AwaitingFinalApproval;
      var ready := if superseding then s.(gates := SupersedeFinal(s.gates), run := RunningChunks) else s;
      DriveFrame(ready, n, Entry(Steered,
          Some(RefinementContext(s.run, superseding, PriorSummary(s.chunks[n].summary)))), o);
    }
  }

  /** A refinement pass that breaks goes through the restore finalizer, from a state that
      still has the chunk's committed summary and the gates it started with. */
  lemma BrokenRefinement(s: State, n: int, e: Entry, o: Answers) returns (x: State)
    requires Rest(s, n) && e.refinement.Some? && Drive(s, n, e, o).end == ChunkBroken
    ensures Rest(x, n) && x.gates == s.gates && x.history == s.history
    ensures x.chunks[n].summary == s.chunks[n].summary
    ensures Drive(s, n, e, o).state == RestoreCompleted(x, n, e.refinement.value, o.restoreCleans)
  {
    var running := SetStatus(s, n, Running).(run := RunningChunks);
    RestIgnores(s, n, running.chunks[n], s.treeClean, RunningChunks);
    if !DependenciesMet(s, n) {
      x := Record(s, n, e.mode, AttemptFailed);
      RestRecord(s, n, n, e.mode, AttemptFailed);
    } else if !s.treeClean || o.planRaises {
      x := Record(running, n, e.mode, AttemptFailed);
      RestRecord(running, n, n, e.mode, AttemptFailed);
    } else {
      LoopRest(running, n, e, o, e.mode, 0);
      LoopDrive(s, n, e, o);
      var looped := AttemptLoop(running, n, e, o, e.mode, 0);
      match looped.end
      case Crashed =>
        x := Record(looped.state, n, e.mode, AttemptFailed);
        RestRecord(looped.state, n, n, e.mode, AttemptFailed);
      case AttemptRejected(_) =>
        x := Record(looped.state, n, looped.mode, AttemptFailed);
        RestRecord(looped.state, n, n, looped.mode, AttemptFailed);
      case Verified =>
        var ctx := e.refinement.value;
        var marked := SetSummary(looped.state, n, Refinement(ctx.priorRun, ctx.superseded, ctx.prior));
        RestIgnores(looped.state, n, marked.chunks[n], looped.state.treeClean, looped.state.run);
        assert marked == SetChunk(looped.state, n, marked.chunks[n]).(treeClean := looped.state.treeClean,
            run := looped.state.run);
        RefinementGateOpens(marked, n);
        x := s;
        assert false;
    }
  }

  /** The state an admitted refinement drives from, and the context it carries. */
  function RefinementStart(s: State): State {
    if s.run == AwaitingFinalApproval then s.(gates := SupersedeFinal(s.gates), run := RunningChunks) else s
  }

  function RefinementEntry(s: State, n: int): Entry
    requires n in s.chunks
  {
    Entry(Steered, Some(RefinementContext(s.run, s.run == AwaitingFinalApproval, PriorSummary(s.chunks[n].summary))))
  }

  lemma RefineIsDrive(s: State, n: int, o: Answers)
    requires Inv(s) && n in s.chunks && Refine(s, n, true, o).reply == ChunkNotDone(n)
    ensures Refine(s, n, true, o).state == Drive(RefinementStart(s), n, RefinementEntry(s, n), o).state
    ensures Inv(RefinementStart(s)) && Drivable(RefinementStart(s), n, RefinementEntry(s, n))
  {
    assert ChunkOk(s.plan, s.history, n, s.chunks[n]);
    if s.run == AwaitingFinalApproval {
      SupersededReady(s);
    }
  }

  /** A refinement that fails at any stage, with the tree brought back, leaves the run
      standing exactly where it stood. */
  lemma FailedRefinementIsUndo(s: State, n: int, o: Answers)
    requires Reachable(s) && n in s.chunks
    requires var r := Refine(s, n, true, o);
             r.reply == ChunkNotDone(n) && StatusIs(r.state, n, Completed) && r.state.treeClean
    ensures SameStanding(s, Refine(s, n, true, o).state)
  {
    hide Drive, Refine, Reachable, RefinementStart, RefinementEntry, Drivable;
    hide HistoryOk, ApprovalsOk, ReopenOk, LedgerTracks;
    ReachableInv(s);
    RefinementAdmitted(s, n, o);
    RefineIsDrive(s, n, o);
    RefineFrame(s, n, o);
    RefineInv(s, n, true, o);
    BrokenDriveStands(s, n, o);
  }

  lemma BrokenDriveStands(s: State, n: int, o: Answers)
    requires Inv(s) && StatusIs(s, n, Completed)
    requires HasPending(s.gates, ForRun) == (s.run == AwaitingFinalApproval)
    requires Inv(RefinementStart(s)) && Drivable(RefinementStart(s), n, RefinementEntry(s, n))
    requires var r := Drive(RefinementStart(s), n, RefinementEntry(s, n), o).state;
             StatusIs(r, n, Completed) && r.treeClean
    ensures var r := Drive(RefinementStart(s), n, RefinementEntry(s, n), o).state;
            && r.history == s.history && r.chunks[n].summary == s.chunks[n].summary && r.run == s.run
            && HasPending(r.gates, ForRun) == HasPending(s.gates, ForRun)
  {
    var start, e := RefinementStart(s), RefinementEntry(s, n);
    RestHolds(start, n, e);
    BrokenEnd(start, n, e, o);
    var x := BrokenRefinement(start, n, e, o);
    StillAllCompleted(start, n, e, o);
    RestoredStands(x, n, e.refinement.value, o.restoreCleans);
  }

  lemma BrokenEnd(s: State, n: int, e: Entry, o: Answers)
    requires n in s.chunks && 1 <= n <= |s.plan| && e.refinement.Some? && e.mode == Steered
    requires StatusIs(Drive(s, n, e, o).state, n, Completed)
    ensures Drive(s, n, e, o).end == ChunkBroken
  {
    DriveTrace(s, n, e, o);
  }

  lemma StillAllCompleted(s: State, n: int, e: Entry, o: Answers)
    requires n in s.chunks && 1 <= n <= |s.plan|
    requires StatusIs(Drive(s, n, e, o).state, n, Completed)
    ensures AllCompleted(s) ==> AllCompleted(Drive(s, n, e, o).state)
  {
    DriveFrame(s, n, e, o);
  }

  lemma RestoredStands(x: State, n: int, ctx: RefinementContext, restoreCleans: bool)
    requires Rest(x, n) && RestoreCompleted(x, n, ctx, restoreCleans).treeClean
    requires ctx.superseded ==>
               FinalReopenable(x.gates) && AllCompleted(RestoreCompleted(x, n, ctx, restoreCleans))
    ensures var r := RestoreCompleted(x, n, ctx, restoreCleans);
            && r.history == x.history && r.chunks[n].summary == x.chunks[n].summary
            && (if ctx.superseded then r.run == AwaitingFinalApproval && HasPending(r.gates, ForRun)
                else r.run == ctx.priorRun && !HasPending(r.gates, ForRun))
  {
    if ctx.superseded {
      OpenFinalGateKeeps(x.gates);
    }
  }

  // ----- the refinement budget -----------------------------------------------------------------

  lemma {:induction false} HumanRowsGrow(before: seq<Row>, after: seq<Row>, n: int)
    requires before <= after
    ensures HumanRows(before, n) <= HumanRows(after, n)
    decreases |after|
  {
    if |before| < |after| {
      HumanRowsGrow(before, after[..|after| - 1], n);
    } else {
      assert before == after;
    }
  }

  predicate AdmittedRefinement(s: State, op: Op, n: int) {
    op.DoRefine? && op.n == n && Step(s, op).reply == ChunkNotDone(n)
  }

  /** How many refinements of chunk n a run admits. */
  function Refinements(s: State, ops: seq<Op>, n: int): nat
    decreases |ops|
  {
    if ops == [] then 0
    else (if AdmittedRefinement(s, ops[0], n) then 1 else 0) + Refinements(Step(s, ops[0]).state, ops[1..], n)
  }

  /** Each admitted refinement writes a row that counts against the chunk's budget. */
  lemma RefinementUsesBudget(s: State, op: Op, n: int)
    requires Inv(s) && AdmittedRefinement(s, op, n)
    ensures HumanRows(s.ledger, n) < HUMAN_ATTEMPT_BUDGET
    ensures HumanRows(s.ledger, n) < HumanRows(Step(s, op).state.ledger, n)
  {
    hide Drive, Inv;
    var superseding := s.run == AwaitingFinalApproval;
    var ready := if superseding then s.(gates := SupersedeFinal(s.gates), run := RunningChunks) else s;
    var e := Entry(Steered, Some(RefinementContext(s.run, superseding, PriorSummary(s.chunks[n].summary))));
    DriveTrace(ready, n, e, op.answers);
    var r := Step(s, op).state.ledger;
    assert r[..|r| - 1] == s.ledger;
  }

  /** No run, however long, refines one chunk more often than the human-attempt budget has
      left for it. */
  lemma {:induction false} RefinementBudget(s: State, ops: seq<Op>, n: int)
    requires Inv(s)
    ensures Refinements(s, ops, n) <=
            if HumanRows(s.ledger, n) < HUMAN_ATTEMPT_BUDGET then HUMAN_ATTEMPT_BUDGET - HumanRows(s.ledger, n) else 0
    decreases |ops|
  {
    if ops != [] {
      var r := Step(s, ops[0]).state;
      StepInv(s, ops[0]);
      HumanRowsGrow(s.ledger, r.ledger, n);
      RefinementBudget(r, ops[1..], n);
      if AdmittedRefinement(s, ops[0], n) {
        RefinementUsesBudget(s, ops[0], n);
      }
    }
  }
}
