/** What one driver pass leaves behind: how often the coder ran, which rows it wrote, and
    when it committed. */
module DriverTrace {
  import opened ChunkPlan
  import opened Wrappers
  import opened ApprovalGates
  import opened AttemptLedger
  import opened RunState
  import opened ChunkDriver

  /** The one kind of failed attempt the driver repeats by itself. */
  predicate RepeatableHarnessError(a: Attempt) {
    a == Attempt(CodeWritten, PreflightClear, Applied, TestsFailed(HarnessError, true))
  }

  predicate ReachesLoop(s: State, n: int, o: Answers)
    requires 1 <= n <= |s.plan|
  {
    DependenciesMet(s, n) && s.treeClean && !o.planRaises
  }

  function TerminalStatus(end: DriveEnd): RowStatus {
    match end
    case ChunkCommitted => AttemptCompleted
    case ChunkPaused => AttemptAwaiting
    case ChunkBroken => AttemptFailed
  }

  /** `r` is `s` plus one terminal row for chunk n, under one of the given modes. */
  predicate OneTerminalRow(s: seq<Row>, r: seq<Row>, n: int, status: RowStatus, modes: set<EntryMode>) {
    && |r| == |s| + 1 && s <= r
    && r[|s|].chunk == n && r[|s|].status == status && r[|s|].mode in modes
  }

  /** `r` is `s` plus one auto-retry row and one terminal row for chunk n. */
  predicate RetryThenTerminal(s: seq<Row>, r: seq<Row>, n: int, status: RowStatus, mode: EntryMode) {
    && |r| == |s| + 2 && s <= r
    && r[|s|].chunk == n && r[|s|].status == AutoRetrying && r[|s|].mode == mode
    && r[|s| + 1].chunk == n && r[|s| + 1].status == status && r[|s| + 1].mode in {mode, AutoRetry}
  }

  lemma FailureRows(s: State, n: int, e: Entry, o: Answers, hasReport: bool)
    requires n in s.chunks
    ensures var r := FinishFailure(s, n, e, o, hasReport);
            r.state.ledger == s.ledger && r.state.history == s.history && r.end == ChunkBroken
  {}

  lemma PauseRows(s: State, n: int, e: Entry, o: Answers, mode: EntryMode, after: bool)
    requires n in s.chunks
    ensures var r := PauseOrRaise(s, n, e, o, mode, after);
            && OneTerminalRow(s.ledger, r.state.ledger, n, TerminalStatus(r.end), {mode, e.mode})
            && r.end != ChunkCommitted && r.state.history == s.history
            && (r.end == ChunkPaused ==> StatusIs(r.state, n, AwaitingChunk) && HasPending(r.state.gates, ForChunk(n)))
  {
    hide FinishFailure;
    FailureRows(Record(s, n, e.mode, AttemptFailed), n, e, o, false);
    var g := OpenChunkGate(s.gates, n, after);
    if g.Some? {
      assert g.value[if g.value == s.gates then Newest(s.gates, ForChunk(n)) else |s.gates|] ==
          Gate(ForChunk(n), Pending);
    }
  }

  /** The commit of a pass, if any: unreviewed chunk, no human mode, patch in the tree. */
  predicate CommitsAlone(s: State, r: State, n: int, e: Entry, end: DriveEnd)
    requires 1 <= n <= |s.plan|
  {
    if end == ChunkCommitted then
      && e.refinement.None? && !HumanMode(e.mode) && !s.plan[n - 1].needsReview
      && |r.history| == |s.history| + 1 && s.history <= r.history
      && r.history[|s.history|].chunk == n
      && r.history[|s.history|].origin.ByDriver?
      && (r.history[|s.history|].origin.mode == e.mode || r.history[|s.history|].origin.mode == AutoRetry)
    else r.history == s.history
  }

  lemma VerifiedRows(s: State, n: int, e: Entry, o: Answers, mode: EntryMode)
    requires n in s.chunks && 1 <= n <= |s.plan| && (mode == e.mode || mode == AutoRetry)
    ensures var r := FinishVerified(s, n, e, o, mode);
            && OneTerminalRow(s.ledger, r.state.ledger, n, TerminalStatus(r.end), {mode, e.mode})
            && CommitsAlone(s, r.state, n, e, r.end)
            && (r.end == ChunkPaused ==> StatusIs(r.state, n, AwaitingChunk) && HasPending(r.state.gates, ForChunk(n)))
  {
    hide FinishFailure, PauseOrRaise, MaxAttempt;
    if e.refinement.Some? {
      var ctx := e.refinement.value;
      PauseRows(SetSummary(s, n, Refinement(ctx.priorRun, ctx.superseded, ctx.prior)), n, e, o, mode, true);
    } else if HumanMode(e.mode) {
      PauseRows(SetSummary(s, n, Recovered), n, e, o, mode, false);
    } else if s.plan[n - 1].needsReview {
      PauseRows(s, n, e, o, mode, false);
    } else if s.treeClean {
      FailureRows(Record(FailChunk(s, n), n, e.mode, AttemptFailed), n, e, o, false);
    } else if !o.commitWorks {
      FailureRows(Record(s, n, e.mode, AttemptFailed), n, e, o, false);
    }
  }

  lemma AttemptTrace(s: State, n: int, a: Attempt)
    requires n in s.chunks
    ensures var r := RunAttempt(s, n, a);
            && r.state.ledger == s.ledger && r.state.history == s.history && r.state.plan == s.plan
            && n in r.state.chunks
            && (r.end == AttemptRejected(true) && r.state.treeClean <==> RepeatableHarnessError(a))
            && (r.end == Verified ==> a.tests.TestsPassed? && r.state.chunks[n].tested
                                      && r.state.treeClean == !a.tests.leavesPatch)
  {}

  /** The loop runs the coder a second time exactly when the first attempt is a repeatable
      harness error outside the human modes, and then writes exactly the auto-retry row. */
  lemma LoopTrace(s: State, n: int, e: Entry, o: Answers)
    requires n in s.chunks
    ensures var r := AttemptLoop(s, n, e, o, e.mode, 0);
            var repeats := RepeatableHarnessError(o.first) && !HumanMode(e.mode);
            && n in r.state.chunks && r.state.plan == s.plan
            && r.coderRuns == (if repeats then 2 else 1)
            && r.mode == (if repeats then AutoRetry else e.mode)
            && r.state.history == s.history
            && r.state.ledger == (if repeats then Append(s.ledger, n, e.mode, AutoRetrying, s.history) else s.ledger)
            && (r.end == Verified ==>
                  var last := if repeats then o.second else o.first;
                  last.tests.TestsPassed? && r.state.chunks[n].tested && r.state.treeClean == !last.tests.leavesPatch)
  {
    AttemptTrace(s, n, o.first);
    var r := RunAttempt(s, n, o.first).state;
    var s2 := Record(r, n, e.mode, AutoRetrying);
    AttemptTrace(s2, n, o.second);
    assert AttemptLoop(s2, n, e, o, AutoRetry, 1) ==
           LoopResult(RunAttempt(s2, n, o.second).state, RunAttempt(s2, n, o.second).end, AutoRetry, 1);
  }

  /** How a pass ends once its attempts are over. */
  lemma FinishRows(s: State, n: int, e: Entry, o: Answers, looped: LoopResult)
    requires n in looped.state.chunks && looped.state.plan == s.plan && 1 <= n <= |s.plan|
    requires looped.mode == e.mode || looped.mode == AutoRetry
    ensures var before := looped.state;
            var r := match looped.end
                     case Crashed => FinishRaise(before, n, e, o)
                     case AttemptRejected(_) => FinishFailure(Record(before, n, looped.mode, AttemptFailed), n, e, o,
                         true)
                     case Verified => FinishVerified(before, n, e, o, looped.mode);
            && OneTerminalRow(before.ledger, r.state.ledger, n, TerminalStatus(r.end), {looped.mode, e.mode})
            && CommitsAlone(before, r.state, n, e, r.end)
            && (r.end == ChunkCommitted ==> looped.end == Verified && !before.treeClean && o.commitWorks)
            && (r.end == ChunkPaused ==> StatusIs(r.state, n, AwaitingChunk) && HasPending(r.state.gates, ForChunk(n)))
  {
    hide FinishFailure, FinishVerified;
    var before := looped.state;
    FailureRows(Record(before, n, e.mode, AttemptFailed), n, e, o, false);
    FailureRows(Record(before, n, looped.mode, AttemptFailed), n, e, o, true);
    VerifiedRows(before, n, e, o, looped.mode);
    if looped.end == Verified && FinishVerified(before, n, e, o, looped.mode).end == ChunkCommitted {
      CommitNeedsPatch(before, n, e, o, looped.mode);
    }
  }

  lemma CommitNeedsPatch(s: State, n: int, e: Entry, o: Answers, mode: EntryMode)
    requires n in s.chunks && 1 <= n <= |s.plan|
    requires FinishVerified(s, n, e, o, mode).end == ChunkCommitted
    ensures !s.treeClean && o.commitWorks
  {}

  /** The attempts and the ending of a pass that got as far as its coder. */
  lemma LoopDrive(s: State, n: int, e: Entry, o: Answers)
    requires n in s.chunks && 1 <= n <= |s.plan| && ReachesLoop(s, n, o)
    ensures var running := SetStatus(s, n, Running).(run := RunningChunks);
            var looped := AttemptLoop(running, n, e, o, e.mode, 0);
            && n in looped.state.chunks && looped.state.plan == s.plan
            && Drive(s, n, e, o) ==
               (match looped.end
                case Crashed => FinishRaise(looped.state, n, e, o)
                case AttemptRejected(_) => FinishFailure(Record(looped.state, n, looped.mode, AttemptFailed), n, e, o,
                    true)
                case Verified => FinishVerified(looped.state, n, e, o, looped.mode)).(coderRuns := looped.coderRuns)
  {
    LoopFrame(SetStatus(s, n, Running).(run := RunningChunks), n, e, o, e.mode, 0);
  }

  /** Rows and coder runs of a whole pass: one terminal row that names how the pass ended,
      preceded by one auto-retry row exactly when the coder ran twice. */
  lemma DriveTrace(s: State, n: int, e: Entry, o: Answers)
    requires n in s.chunks && 1 <= n <= |s.plan|
    ensures var r := Drive(s, n, e, o);
            var repeats := ReachesLoop(s, n, o) && RepeatableHarnessError(o.first) && !HumanMode(e.mode);
            && r.coderRuns == (if !ReachesLoop(s, n, o) then 0 else if repeats then 2 else 1)
            && (if repeats then RetryThenTerminal(s.ledger, r.state.ledger, n, TerminalStatus(r.end), e.mode)
                else OneTerminalRow(s.ledger, r.state.ledger, n, TerminalStatus(r.end), {e.mode}))
            && CommitsAlone(s, r.state, n, e, r.end)
            && (r.end == ChunkPaused ==> StatusIs(r.state, n, AwaitingChunk) && HasPending(r.state.gates, ForChunk(n)))
            && (r.end == ChunkCommitted ==>
                  && DependenciesMet(s, n)
                  && (if repeats then o.second else o.first).tests == TestsPassed(true))
  {
    hide FinishFailure, FinishVerified, AttemptLoop;
    var running := SetStatus(s, n, Running).(run := RunningChunks);
    if ReachesLoop(s, n, o) {
      LoopTrace(running, n, e, o);
      LoopDrive(s, n, e, o);
      FinishRows(running, n, e, o, AttemptLoop(running, n, e, o, e.mode, 0));
    } else {
      StoppedRows(s, n, e, o);
    }
  }

  lemma StoppedRows(s: State, n: int, e: Entry, o: Answers)
    requires n in s.chunks && 1 <= n <= |s.plan| && !ReachesLoop(s, n, o)
    ensures var r := Drive(s, n, e, o);
            && OneTerminalRow(s.ledger, r.state.ledger, n, AttemptFailed, {e.mode})
            && r.end == ChunkBroken && r.coderRuns == 0 && r.state.history == s.history
  {
    var running := SetStatus(s, n, Running).(run := RunningChunks);
    FailureRows(Record(s, n, e.mode, AttemptFailed), n, e, o, false);
    FailureRows(Record(running, n, e.mode, AttemptFailed), n, e, o, false);
    FailureRows(Record(running, n, e.mode, AttemptFailed), n, e, o, true);
  }
}
