/** How far one execute or resume call gets, and in what state it leaves the chunks. */
module RunProgress {
  import opened Wrappers
  import opened ChunkPlan
  import opened ApprovalGates
  import opened AttemptLedger
  import opened RunState
  import opened ChunkDriver
  import opened Orchestrator
  import opened RunInvariant
  import opened DriverSafety
  import opened DriverTrace
  import opened RunSafety

  // ----- one pass --------------------------------------------------------------------------

  /** A pass that is not a refinement and breaks leaves its chunk failed and the run failed, or
      waiting for a scope decision; a failed attempt also leaves the report a retry needs. */
  lemma BrokenPass(s: State, n: int, e: Entry, o: Answers)
    requires n in s.chunks && 1 <= n <= |s.plan| && e.refinement.None?
    requires Drive(s, n, e, o).end == ChunkBroken
    ensures var r := Drive(s, n, e, o).state;
            && StatusIs(r, n, Failed)
            && (r.run == RunFailed || r.run == AwaitingScopeApproval)
            && (r.run == AwaitingScopeApproval ==> o.scopeRequest && r.chunks[n].summary == FailureReport)
            && (Reported(s, n, e, o) ==>
                  r.chunks[n].summary == FailureReport && (r.run == RunFailed <==> !o.scopeRequest))
  {
    hide AttemptLoop, RestoreCompleted, MaxAttempt, OpenChunkGate, CommitChunk;
    if ReachesLoop(s, n, o) {
      LoopDrive(s, n, e, o);
    }
  }

  /** The pass ended in a failure report: a dirty tree at the start or a rejected attempt. */
  predicate Reported(s: State, n: int, e: Entry, o: Answers)
    requires n in s.chunks && 1 <= n <= |s.plan|
  {
    && DependenciesMet(s, n)
    && (!s.treeClean || (!o.planRaises
         && AttemptLoop(SetStatus(s, n, Running).(run := RunningChunks), n, e, o, e.mode, 0).end.AttemptRejected?))
  }

  /** So a human may retry it, if the door admits the request and the tree is clean. */
  lemma ReportedFailureIsRetryable(s: State, n: int, e: Entry, o: Answers, kind: RetryKind, o': Answers)
    requires Inv(s) && n in s.chunks && 1 <= n <= |s.plan| && e.refinement.None?
    requires Drive(s, n, e, o).end == ChunkBroken && Reported(s, n, e, o) && Drive(s, n, e, o).state.treeClean
    ensures Retry(Drive(s, n, e, o).state, n, kind, true, o').reply == ChunkNotDone(n)
  {
    hide Drive, Inv, Reported;
    BrokenPass(s, n, e, o);
    DriveFrame(s, n, e, o);
    DependenciesStay(s, Drive(s, n, e, o).state, n, e, o);
  }

  lemma DependenciesStay(s: State, r: State, n: int, e: Entry, o: Answers)
    requires n in s.chunks && 1 <= n <= |s.plan| && Frame(s, r, n) && Reported(s, n, e, o)
    requires Inv(s)
    ensures DependenciesMet(r, n)
  {
    forall d | d in DependenciesOf(r.plan, n) ensures StatusIs(r, d, Completed) {
      assert 1 <= d < n;
    }
  }

  /** The last attempt a pass made. */
  function LastAttempt(e: Entry, o: Answers): Attempt {
    if RepeatableHarnessError(o.first) && !HumanMode(e.mode) then o.second else o.first
  }

  /** A pass that pauses has its chunk wait at a pending gate with the tested patch in the
      tree; nothing is committed, and a human attempt leaves its marker. */
  lemma PausedPass(s: State, n: int, e: Entry, o: Answers)
    requires n in s.chunks && 1 <= n <= |s.plan| && Drive(s, n, e, o).end == ChunkPaused
    ensures var r := Drive(s, n, e, o).state;
            && StatusIs(r, n, AwaitingChunk) && HasPending(r.gates, ForChunk(n))
            && r.run == AwaitingChunkApproval && r.history == s.history && r.chunks[n].tested
            && LastAttempt(e, o).tests.TestsPassed? && r.treeClean == !LastAttempt(e, o).tests.leavesPatch
            && r.chunks[n].summary ==
               (if e.refinement.Some? then
                  var ctx := e.refinement.value; Refinement(ctx.priorRun, ctx.superseded, ctx.prior)
                else if HumanMode(e.mode) then Recovered
                else s.chunks[n].summary)
  {
    hide AttemptLoop, RestoreCompleted, MaxAttempt, OpenChunkGate, CommitChunk, HasPending;
    DriveTrace(s, n, e, o);
    if ReachesLoop(s, n, o) {
      LoopDrive(s, n, e, o);
      LoopTrace(SetStatus(s, n, Running).(run := RunningChunks), n, e, o);
      LoopKeepsSummary(SetStatus(s, n, Running).(run := RunningChunks), n, e, o, e.mode, 0);
    }
  }

  lemma LoopKeepsSummary(s: State, n: int, e: Entry, o: Answers, mode: EntryMode, spent: nat)
    requires n in s.chunks && spent <= AUTO_RETRY_INFRA_BUDGET
    ensures LoopEffect(s, AttemptLoop(s, n, e, o, mode, spent).state, n)
    decreases AUTO_RETRY_INFRA_BUDGET - spent
  {
    var a := if spent == 0 then o.first else o.second;
    AttemptEffect(s, n, a);
    if spent < AUTO_RETRY_INFRA_BUDGET {
      LoopKeepsSummary(Record(RunAttempt(s, n, a).state, n, mode, AutoRetrying), n, e, o, AutoRetry, spent + 1);
    }
  }

  /** A pass that commits appends one commit of its chunk, saves the summary of that commit,
      records it as HEAD of the completed row and leaves the run driving on; the tree is dirty
      only with what the commit left behind. */
  lemma CommittedPass(s: State, n: int, e: Entry, o: Answers)
    requires n in s.chunks && 1 <= n <= |s.plan| && Drive(s, n, e, o).end == ChunkCommitted
    ensures var r := Drive(s, n, e, o).state;
            && |r.history| == |s.history| + 1 && s.history <= r.history && r.history[|s.history|].chunk == n
            && StatusIs(r, n, Completed) && r.chunks[n].summary == Success(LastCommit(r.history, n))
            && r.run == RunningChunks && r.treeClean == !o.residue && r.gates == s.gates
            && r.ledger != [] && r.ledger[|r.ledger| - 1].status == AttemptCompleted
            && r.ledger[|r.ledger| - 1].head == r.history
  {
    hide AttemptLoop, RestoreCompleted, MaxAttempt, OpenChunkGate;
    DriveTrace(s, n, e, o);
    if ReachesLoop(s, n, o) {
      LoopDrive(s, n, e, o);
      LoopKeepsSummary(SetStatus(s, n, Running).(run := RunningChunks), n, e, o, e.mode, 0);
    }
  }

  /** An approval that commits moves the run on: to final approval iff this was the last chunk
      outstanding, the commit left no files behind and final approval was not decided before. */
  lemma ApprovalMovesOn(s: State, n: int, o: ApproveAnswers)
    requires Inv(s) && StatusIs(s, n, AwaitingChunk) && HasPending(s.gates, ForChunk(n))
    requires o.loads && o.touches && !s.treeClean && o.commitWorks
    ensures var r := Approve(s, n, o);
            && StatusIs(r.state, n, Completed) && |r.state.history| == |s.history| + 1
            && r.state.treeClean == !o.residue
            && (if !OthersCompleted(s, n) then r.reply == ChunkApprovedReply && r.state.run == ChunkApproved
                else if !o.residue && FinalUndecided(s.gates) then
                  r.reply == FinalApprovalOpened && r.state.run == AwaitingFinalApproval
                      && HasPending(r.state.gates, ForRun)
                else r.reply == Raised && r.state.run == ChunkApproved && !HasPending(r.state.gates, ForRun))
  {
    hide HistoryOk, ApprovalsOk, ReopenOk, LedgerTracks, ChunksOk;
    var done := ApprovedCommit(s, n, o.residue);
    LastOutstanding(s, n, o.residue);
    var g := NewestPending(s.gates, ForChunk(n));
    SameNewestFinal(s.gates, g);
    DecideKeeps(s.gates, g, Approved);
    NoPendingStays(s.gates, g, Approved);
    if OpenFinalGate(done.gates).Some? {
      OpenFinalGateKeeps(done.gates);
    }
  }

  predicate OthersCompleted(s: State, n: int) {
    forall m :: m in s.chunks && m != n ==> s.chunks[m].status == Completed
  }

  lemma LastOutstanding(s: State, n: int, residue: bool)
    requires StatusIs(s, n, AwaitingChunk) && HasPending(s.gates, ForChunk(n))
    ensures AllCompleted(ApprovedCommit(s, n, residue)) <==> OthersCompleted(s, n)
  {
    var done := ApprovedCommit(s, n, residue);
    assert done.chunks == s.chunks[n := done.chunks[n]] && done.chunks[n].status == Completed;
    if AllCompleted(done) {
      forall m | m in s.chunks && m != n ensures s.chunks[m].status == Completed {
        assert m in done.chunks;
      }
    }
  }

  /** No final gate yet, or the newest one was superseded or is still pending. */
  predicate FinalUndecided(gates: seq<Gate>) {
    var g := Newest(gates, ForRun);
    g < 0 || gates[g].status == Superseded || gates[g].status == Pending
  }

  lemma SameNewestFinal(gates: seq<Gate>, g: int)
    requires 0 <= g < |gates| && gates[g].kind.ForChunk?
    ensures FinalUndecided(Decide(gates, g, Approved)) == FinalUndecided(gates)
  {
    var r := Decide(gates, g, Approved);
    assert forall i :: 0 <= i < |gates| ==> gates[i].kind == r[i].kind;
    assert Newest(r, ForRun) == Newest(gates, ForRun);
  }

  // ----- the chunk loops ---------------------------------------------------------------------

  /** Position k of the list is where the loop stopped: everything before is completed, the
      chunk there is not, and nothing behind it or outside the list was touched. A resume may
      also stop, with an error and before it touches the chunk, at a test checkpoint whose
      commit it cannot find. */
  ghost predicate StoppedAt(s: State, r: Outcome, todo: seq<int>, k: nat, resuming: bool) {
    && k <= |todo|
    && (forall j :: 0 <= j < k ==> StatusIs(r.state, todo[j], Completed))
    && (forall m :: m in s.chunks && m !in todo[..if k < |todo| then k + 1 else k] ==>
          m in r.state.chunks && r.state.chunks[m] == s.chunks[m])
    && (if k < |todo| then
          || (r.reply == ChunkNotDone(todo[k])
              && (StatusIs(r.state, todo[k], Failed) || StatusIs(r.state, todo[k], AwaitingChunk)))
          || (resuming && r.reply == Raised && r.state.run == RunFailed
              && todo[k] in s.chunks && s.chunks[todo[k]].tested
              && todo[k] in r.state.chunks && r.state.chunks[todo[k]] == s.chunks[todo[k]])
        else
          r.reply == FinalApprovalOpened || r.reply == Raised)
    && (r.reply == FinalApprovalOpened ==>
          AllCompleted(r.state) && HasPending(r.state.gates, ForRun) && r.state.run == AwaitingFinalApproval)
  }

  lemma StoppedFirst(s: State, n: int, o: Answers, mode: EntryMode, todo: seq<int>, resuming: bool)
    requires n in s.chunks && 1 <= n <= |s.plan| && todo != [] && todo[0] == n
    requires Drive(s, n, Entry(mode, None), o).end != ChunkCommitted
    ensures StoppedAt(s, Outcome(Drive(s, n, Entry(mode, None), o).state, ChunkNotDone(n)), todo, 0, resuming)
  {
    hide Drive;
    var e := Entry(mode, None);
    DriveFrame(s, n, e, o);
    DriveTrace(s, n, e, o);
    if Drive(s, n, e, o).end == ChunkBroken {
      BrokenPass(s, n, e, o);
    }
    assert n in todo[..1];
  }

  lemma StoppedLater(s: State, mid: State, r: Outcome, todo: seq<int>, k: nat, resuming: bool)
    requires todo != [] && todo[0] in s.chunks && Frame(s, mid, todo[0]) && StatusIs(mid, todo[0], Completed)
    requires todo[0] !in todo[1..] && StoppedAt(mid, r, todo[1..], k, resuming)
    ensures StoppedAt(s, r, todo, k + 1, resuming)
  {
    var rest := todo[1..];
    var cut := if k < |rest| then k + 1 else k;
    assert todo[..cut + 1] == [todo[0]] + rest[..cut];
    assert todo[0] !in rest[..cut];
    assert forall j :: 0 < j < |todo| ==> todo[j] == rest[j - 1];
  }

  lemma StoppedAtEnd(s: State, resuming: bool)
    requires Inv(s)
    ensures StoppedAt(s, Finalize(s), [], 0, resuming)
  {
    if MarkAwaitingFinal(s).Some? {
      OpenFinalGateKeeps(s.gates);
    }
  }

  /** Execute completes the pending chunks in ascending order up to the first one that fails
      or needs a human, and touches nothing behind it. */
  lemma ExecuteStopsAtFirst(s: State, todo: seq<int>, sheet: AnswerSheet) returns (k: nat)
    requires Inv(s) && Queue(s, todo)
    ensures StoppedAt(s, ExecuteFrom(s, todo, sheet), todo, k, false)
    decreases |todo|
  {
    hide Inv, Drive, StoppedAt, Finalize;
    if todo == [] {
      StoppedAtEnd(s, false);
      k := 0;
    } else {
      var n, e, o := todo[0], Entry(Fresh, None), AnswersFor(sheet, todo[0]);
      assert Queued(s, n);
      DriveInv(s, n, e, o);
      DriveFrame(s, n, e, o);
      var d := Drive(s, n, e, o);
      if d.end == ChunkCommitted {
        CommittedMeansCompleted(s, n, e, o);
        QueueTail(s, d.state, todo);
        var later := ExecuteStopsAtFirst(d.state, todo[1..], sheet);
        StoppedLater(s, d.state, ExecuteFrom(s, todo, sheet), todo, later, false);
        k := later + 1;
      } else {
        StoppedFirst(s, n, o, Fresh, todo, false);
        k := 0;
      }
    }
  }

  lemma ResumeStoppedFirst(s: State, n: int, o: Answers, todo: seq<int>)
    requires Inv(s) && Queued(s, n) && 1 <= n <= |s.plan| && todo != [] && todo[0] == n
    requires ResumeDrive(s, n, o).end != Drove(ChunkCommitted)
    ensures var d := ResumeDrive(s, n, o);
            var reply := if d.end == RecoveryRaised then Raised else ChunkNotDone(n);
            StoppedAt(s, Outcome(d.state, reply), todo, 0, true)
  {
    hide Drive, HistoryOk, ApprovalsOk, GatesOk, ReopenOk, LedgerTracks;
    NeverSkips(s, n, o);
    if s.chunks[n].tested {
      assert n in todo[..1];
    } else {
      StoppedFirst(s, n, o, EntryMode.Resume, todo, true);
    }
  }

  /** So does resume, over every chunk that is pending, failed, rejected or was left running. */
  lemma ResumeStopsAtFirst(s: State, todo: seq<int>, sheet: AnswerSheet) returns (k: nat)
    requires Inv(s) && Queue(s, todo)
    ensures StoppedAt(s, ResumeFrom(s, todo, sheet), todo, k, true)
    decreases |todo|
  {
    hide Inv, ResumeDrive, StoppedAt, Finalize, Drive;
    if todo == [] {
      StoppedAtEnd(s, true);
      k := 0;
    } else {
      var n, o := todo[0], AnswersFor(sheet, todo[0]);
      assert Queued(s, n);
      ResumeDriveInv(s, n, o);
      var d := ResumeDrive(s, n, o);
      if d.end == Drove(ChunkCommitted) {
        ResumedCompleted(s, n, o);
        QueueTail(s, d.state, todo);
        var later := ResumeStopsAtFirst(d.state, todo[1..], sheet);
        StoppedLater(s, d.state, ResumeFrom(s, todo, sheet), todo, later, true);
        k := later + 1;
      } else {
        ResumeStoppedFirst(s, n, o, todo);
        k := 0;
      }
    }
  }

  lemma ResumedCompleted(s: State, n: int, o: Answers)
    requires n in s.chunks && 1 <= n <= |s.plan| && ResumeDrive(s, n, o).end == Drove(ChunkCommitted)
    ensures StatusIs(ResumeDrive(s, n, o).state, n, Completed)
  {
    CommittedMeansCompleted(s, n, Entry(EntryMode.Resume, None), o);
  }

  /** The whole call: unless a check in front of the loop ends it, execute works through the
      pending chunks and resume through the resumable ones, in ascending order. */
  lemma BatchStopsAtFirst(s: State, op: Op) returns (k: nat)
    requires Inv(s) && (op.DoExecute? || op.DoResume?)
    ensures op.DoExecute? && ExecutePrelude(s, op.echecks).Go? ==>
              StoppedAt(s, Step(s, op), Select(s, |s.plan|, {PendingChunk}), k, false)
    ensures op.DoResume? && ResumePrelude(s, op.rchecks).Go? ==>
              StoppedAt(s.(run := ResumeRunning), Step(s, op), Select(s, |s.plan|, RESUMABLE), k, true)
  {
    hide StoppedAt, ExecuteFrom, ResumeFrom, Queue, DriftGuardAccepts, HasPending;
    hide HistoryOk, ApprovalsOk, GatesOk, ReopenOk, LedgerTracks, ChunksOk;
    k := 0;
    if op.DoExecute? && ExecutePrelude(s, op.echecks).Go? {
      PendingQueue(s);
      k := ExecuteStopsAtFirst(s, Select(s, |s.plan|, {PendingChunk}), op.sheet);
    }
    if op.DoResume? && ResumePrelude(s, op.rchecks).Go? {
      NothingRunning(s);
      var started := s.(run := ResumeRunning);
      RunStatusInv(s, ResumeRunning);
      ResumeQueue(started);
      SelectIgnoresRun(s, ResumeRunning, |s.plan|, RESUMABLE);
      k := ResumeStopsAtFirst(started, Select(started, |s.plan|, RESUMABLE), op.sheet);
    }
  }

  lemma PendingQueue(s: State)
    requires Inv(s)
    ensures Queue(s, Select(s, |s.plan|, {PendingChunk}))
  {
    hide HistoryOk, ApprovalsOk, GatesOk, ReopenOk, LedgerTracks, ChunksOk;
  }

  lemma {:induction false} SelectIgnoresRun(s: State, run: RunStatus, k: nat, wanted: set<ChunkStatus>)
    ensures Select(s.(run := run), k, wanted) == Select(s, k, wanted)
    decreases k
  {
    if k > 0 {
      SelectIgnoresRun(s, run, k - 1, wanted);
    }
  }
}
