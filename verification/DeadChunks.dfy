/** Chunks that failed or were rejected after their tests had passed: the passing checkpoint
    keeps resume from ever driving them again, and the human doors are closed too. */
module DeadChunks {
  import opened Wrappers
  import opened ChunkPlan
  import opened ApprovalGates
  import opened AttemptLedger
  import opened RunState
  import opened ChunkDriver
  import opened Orchestrator
  import opened RunInvariant
  import opened DriverSafety
  import opened DriverTrace
  import opened RunSafety
  import opened RunTheorems
  import opened RunProgress
  import opened StrandedChunks

  // ----- checkpoints agree with statuses ---------------------------------------------------

  predicate HasGate(gates: seq<Gate>, n: int) {
    Newest(gates, ForChunk(n)) >= 0
  }

  /** A pending chunk has no passing test checkpoint; a chunk that waits, was rejected, is
      completed or ever had a gate has one. */
  predicate CheckpointOk(s: State, n: int)
    requires n in s.chunks
  {
    var c := s.chunks[n];
    && (c.status == PendingChunk ==> !c.tested)
    && (c.status == AwaitingChunk || c.status == RejectedChunk || c.status == Completed || HasGate(s.gates, n) ==>
          c.tested)
  }

  ghost predicate Checkpoints(s: State) {
    forall n :: n in s.chunks ==> CheckpointOk(s, n)
  }

  /** The newest gate of the chunk is approved, so an ordinary pause may not open another one. */
  predicate GateRefuses(gates: seq<Gate>, n: int) {
    var g := Newest(gates, ForChunk(n));
    g >= 0 && gates[g].status != Pending && gates[g].status != GateStatus.Rejected
  }

  /** Rejected, or failed with its tests passed and no way back in: resume does not drive a tested
      chunk, and a human attempt needs a failed chunk, its report and a gate it can open. */
  predicate Dead(s: State, n: int) {
    || StatusIs(s, n, RejectedChunk)
    || (StatusIs(s, n, Failed) && s.chunks[n].tested
        && (s.chunks[n].summary != FailureReport || GateRefuses(s.gates, n)))
  }

  // ----- one pass ------------------------------------------------------------------------------

  /** The attempt goes all the way through its tests. */
  predicate Passes(a: Attempt) {
    a.code == CodeWritten && a.preflight == PreflightClear && a.apply == Applied && a.tests.TestsPassed?
  }

  /** What the attempt loop does to chunk n: a passing checkpoint exactly if it verified. */
  lemma LoopSigns(s: State, n: int, e: Entry, o: Answers)
    requires n in s.chunks
    ensures var r := AttemptLoop(s, n, e, o, e.mode, 0);
            && LoopEffect(s, r.state, n)
            && (r.end == Verified <==> Passes(LastAttempt(e, o)))
            && (r.state.chunks[n].tested <==> s.chunks[n].tested || r.end == Verified)
            && (r.end == Verified ==> r.state.treeClean == !LastAttempt(e, o).tests.leavesPatch)
  {
    LoopTrace(s, n, e, o);
    LoopKeepsSummary(s, n, e, o, e.mode, 0);
    AttemptSigns(s, n, o.first);
    var again := Record(RunAttempt(s, n, o.first).state, n, e.mode, AutoRetrying);
    AttemptSigns(again, n, o.second);
    assert AttemptLoop(again, n, e, o, AutoRetry, 1) ==
           LoopResult(RunAttempt(again, n, o.second).state, RunAttempt(again, n, o.second).end, AutoRetry, 1);
  }

  lemma AttemptSigns(s: State, n: int, a: Attempt)
    requires n in s.chunks
    ensures var r := RunAttempt(s, n, a);
            && n in r.state.chunks
            && (r.end == Verified <==> Passes(a))
            && (r.state.chunks[n].tested <==> s.chunks[n].tested || r.end == Verified)
  {}

  /** A pass of its own kills its chunk: the tests passed, and then there is nothing to commit, or
      the commit fails. Only the report of an earlier failure still lets a human in afterwards. */
  predicate PassKills(s: State, n: int, mode: EntryMode, o: Answers)
    requires n in s.chunks && 1 <= n <= |s.plan|
  {
    var last := LastAttempt(Entry(mode, None), o);
    && !HumanMode(mode) && ReachesLoop(s, n, o) && Passes(last)
    && s.chunks[n].summary != FailureReport && !s.plan[n - 1].needsReview
    && (!last.tests.leavesPatch || !o.commitWorks)
  }

  lemma PauseRefusedIff(s: State, n: int)
    requires n in s.chunks
    ensures PauseAtGate(s, n, false).None? <==> GateRefuses(s.gates, n)
  {}

  /** An ordinary pass may start: the checkpoint is missing, or a human retries a failed chunk
      that has its report. */
  predicate Ready(s: State, n: int, mode: EntryMode) {
    && n in s.chunks && 1 <= n <= |s.plan| && mode != AutoRetry && CheckpointOk(s, n)
    && (if HumanMode(mode) then StatusIs(s, n, Failed) && s.chunks[n].summary == FailureReport
        else !s.chunks[n].tested)
  }

  /** How a failure without or with a report leaves the chunk. */
  lemma FailureSigns(s: State, n: int, e: Entry, o: Answers, hasReport: bool)
    requires n in s.chunks && e.refinement.None?
    ensures var r := FinishFailure(s, n, e, o, hasReport).state;
            && StatusIs(r, n, Failed) && r.gates == s.gates && r.chunks[n].tested == s.chunks[n].tested
            && r.chunks[n].summary == if hasReport then FailureReport else s.chunks[n].summary
  {}

  /** A pause of a tested chunk kills it exactly if its gate refuses. */
  lemma PauseSigns(s: State, n: int, e: Entry, o: Answers, mode: EntryMode)
    requires n in s.chunks && s.chunks[n].tested && e.refinement.None?
    ensures var r := PauseOrRaise(s, n, e, o, mode, false).state;
            && n in r.chunks && r.chunks[n].tested
            && r.chunks[n].status == (if GateRefuses(s.gates, n) then Failed else AwaitingChunk)
            && (Dead(r, n) <==> GateRefuses(s.gates, n))
  {
    hide MaxAttempt, OpenChunkGate, GateRefuses;
    PauseRefusedIff(s, n);
  }

  /** How a pass fares after its tests passed. */
  lemma VerifiedSigns(s: State, n: int, e: Entry, o: Answers, mode: EntryMode)
    requires n in s.chunks && 1 <= n <= |s.plan| && s.chunks[n].tested && e.refinement.None?
    ensures var r := FinishVerified(s, n, e, o, mode).state;
            && n in r.chunks && r.chunks[n].tested
            && r.chunks[n].status != PendingChunk && r.chunks[n].status != RejectedChunk
            && (Dead(r, n) <==>
                  if HumanMode(e.mode) || s.plan[n - 1].needsReview then GateRefuses(s.gates, n)
                  else (s.treeClean || !o.commitWorks)
                       && (s.chunks[n].summary != FailureReport || GateRefuses(s.gates, n)))
  {
    hide MaxAttempt, PauseOrRaise, GateRefuses;
    PauseSigns(s, n, e, o, mode);
    PauseSigns(SetSummary(s, n, Recovered), n, e, o, mode);
  }

  /** How the chunk fares in an ordinary pass. */
  lemma PassSigns(s: State, n: int, mode: EntryMode, o: Answers)
    requires Ready(s, n, mode)
    ensures var r := Drive(s, n, Entry(mode, None), o).state;
            && n in r.chunks && CheckpointOk(r, n) && r.chunks[n].status != RejectedChunk
            && (Dead(r, n) <==> Dead(s, n) || PassKills(s, n, mode, o))
  {
    hide AttemptLoop, MaxAttempt, FinishVerified, FinishFailure, GateRefuses;
    var e := Entry(mode, None);
    var running := SetStatus(s, n, Running).(run := RunningChunks);
    FreshHasNoGate(s, n);
    if ReachesLoop(s, n, o) {
      LoopSigns(running, n, e, o);
      LoopDrive(s, n, e, o);
      var looped := AttemptLoop(running, n, e, o, mode, 0);
      match looped.end {
        case Verified => VerifiedSigns(looped.state, n, e, o, looped.mode);
        case Crashed => FailureSigns(Record(looped.state, n, mode, AttemptFailed), n, e, o, false);
        case AttemptRejected(_) => FailureSigns(Record(looped.state, n, looped.mode, AttemptFailed), n, e, o, true);
      }
    } else {
      FailureSigns(Record(s, n, mode, AttemptFailed), n, e, o, false);
      FailureSigns(Record(running, n, mode, AttemptFailed), n, e, o, !s.treeClean);
    }
  }

  lemma FreshHasNoGate(s: State, n: int)
    requires n in s.chunks && CheckpointOk(s, n)
    ensures GateRefuses(s.gates, n) ==> s.chunks[n].tested
  {}

  // ----- from chunk to chunk -------------------------------------------------------------------

  /** Checkpoints still agree, and chunk n is dead exactly if it was and was not revived, or was
      just killed. */
  ghost predicate Follows(s: State, r: State, n: int, killed: bool, revived: bool) {
    && Checkpoints(r)
    && (Dead(r, n) <==> (Dead(s, n) && !revived) || killed)
    && (StatusIs(r, n, RejectedChunk) ==> StatusIs(s, n, RejectedChunk) || StatusIs(s, n, AwaitingChunk))
  }

  /** The row of chunk m still agrees: nothing about it changed, or its checkpoint is there. */
  predicate RowAgrees(s: State, r: State, m: int)
    requires m in s.chunks && m in r.chunks
  {
    || (r.chunks[m] == s.chunks[m] && (HasGate(r.gates, m) ==> HasGate(s.gates, m)))
    || (r.chunks[m].tested && r.chunks[m].status != PendingChunk)
  }

  lemma CheckpointsKept(s: State, r: State)
    requires Checkpoints(s) && r.chunks.Keys == s.chunks.Keys
    requires forall m :: m in s.chunks ==> RowAgrees(s, r, m)
    ensures Checkpoints(r)
  {
    forall m | m in r.chunks ensures CheckpointOk(r, m) {
      assert CheckpointOk(s, m) && RowAgrees(s, r, m);
    }
  }

  /** No chunk has a gate it did not have before. */
  lemma OldGates(before: seq<Gate>, after: seq<Gate>, m: int)
    requires forall g :: 0 <= g < |after| && after[g].kind == ForChunk(m) ==>
               g < |before| && before[g].kind == after[g].kind
    ensures HasGate(after, m) ==> HasGate(before, m)
  {}

  /** The newest gate of the chunk is the same. */
  lemma SameRefusal(before: seq<Gate>, after: seq<Gate>, n: int)
    requires Grows(before, after)
    requires forall g :: 0 <= g < |after| && after[g].kind == ForChunk(n) ==> g < |before| && before[g] == after[g]
    ensures GateRefuses(after, n) <==> GateRefuses(before, n)
  {
    assert Newest(after, ForChunk(n)) == Newest(before, ForChunk(n));
  }

  lemma FrameFollows(s: State, r: State, m: int, n: int)
    requires Checkpoints(s) && m in s.chunks && Frame(s, r, m) && CheckpointOk(r, m)
    ensures Checkpoints(r) && (n != m ==> Follows(s, r, n, false, false))
  {
    hide GateRefuses;
    forall k | k in r.chunks ensures CheckpointOk(r, k) {
      if k != m {
        OldGates(s.gates, r.gates, k);
        assert CheckpointOk(s, k);
      }
    }
    if n != m {
      SameRefusal(s.gates, r.gates, n);
    }
  }

  lemma PassFollows(s: State, m: int, mode: EntryMode, o: Answers, n: int)
    requires Checkpoints(s) && Ready(s, m, mode)
    ensures Follows(s, Drive(s, m, Entry(mode, None), o).state, n, n == m && PassKills(s, m, mode, o), false)
  {
    hide Drive, Frame, PassKills, Dead;
    PassSigns(s, m, mode, o);
    DriveFrame(s, m, Entry(mode, None), o);
    FrameFollows(s, Drive(s, m, Entry(mode, None), o).state, m, n);
  }

  /** A refinement kills nobody: its chunk ends completed or waiting. */
  lemma RefinementFollows(s: State, m: int, e: Entry, o: Answers, n: int)
    requires Checkpoints(s) && StatusIs(s, m, Completed) && 1 <= m <= |s.plan| && e.refinement.Some?
    ensures Follows(s, Drive(s, m, e, o).state, n, false, false)
  {
    hide Drive, Frame;
    var r := Drive(s, m, e, o);
    assert CheckpointOk(s, m);
    RefinementKeepsCheckpoint(s, m, e, o);
    RefinementDriveMarker(s, m, e, o);
    if r.end == ChunkPaused {
      PausedPass(s, m, e, o);
    }
    DriveFrame(s, m, e, o);
    FrameFollows(s, r.state, m, n);
  }

  lemma RefinementKeepsCheckpoint(s: State, n: int, e: Entry, o: Answers)
    requires n in s.chunks && 1 <= n <= |s.plan| && s.chunks[n].tested && e.refinement.Some?
    ensures n in Drive(s, n, e, o).state.chunks && Drive(s, n, e, o).state.chunks[n].tested
  {
    hide AttemptLoop, OpenChunkGate, OpenFinalGate, AllCompleted, MaxAttempt;
    if ReachesLoop(s, n, o) {
      LoopSigns(SetStatus(s, n, Running).(run := RunningChunks), n, e, o);
      LoopDrive(s, n, e, o);
    }
  }

  // ----- execute --------------------------------------------------------------------------------

  /** The state in which execute gets to chunk n, if it does. */
  function ExecuteMeets(s: State, todo: seq<int>, sheet: AnswerSheet, n: int): (r: Option<State>)
    requires Todo(s, todo)
    ensures r.Some? ==> n in r.value.chunks && 1 <= n <= |r.value.plan|
    decreases |todo|
  {
    if todo == [] then None
    else if todo[0] == n then Some(s)
    else
      var d := Drive(s, todo[0], Entry(Fresh, None), AnswersFor(sheet, todo[0]));
      if d.end != ChunkCommitted then None
      else
        DriveFrame(s, todo[0], Entry(Fresh, None), AnswersFor(sheet, todo[0]));
        assert forall n :: n in todo[1..] ==> n in todo;
        ExecuteMeets(d.state, todo[1..], sheet, n)
  }

  predicate ExecuteKills(s: State, todo: seq<int>, sheet: AnswerSheet, n: int)
    requires Todo(s, todo)
  {
    var met := ExecuteMeets(s, todo, sheet, n);
    met.Some? && PassKills(met.value, n, Fresh, AnswersFor(sheet, n))
  }

  lemma {:induction false} ExecuteMeetsListed(s: State, todo: seq<int>, sheet: AnswerSheet, n: int)
    requires Todo(s, todo) && n !in todo
    ensures ExecuteMeets(s, todo, sheet, n).None?
    decreases |todo|
  {
    hide Drive;
    if todo != [] {
      var e, o := Entry(Fresh, None), AnswersFor(sheet, todo[0]);
      DriveFrame(s, todo[0], e, o);
      assert forall m :: m in todo[1..] ==> m in todo;
      if Drive(s, todo[0], e, o).end == ChunkCommitted {
        ExecuteMeetsListed(Drive(s, todo[0], e, o).state, todo[1..], sheet, n);
      }
    }
  }

  ghost predicate AllPending(s: State, todo: seq<int>) {
    forall m :: m in todo ==> StatusIs(s, m, PendingChunk)
  }

  /** A chunk dies in an execute exactly if the loop gets to it and the pass there kills it. */
  lemma {:induction false} ExecuteFollows(s: State, todo: seq<int>, sheet: AnswerSheet, n: int)
    requires Inv(s) && Checkpoints(s) && Queue(s, todo) && AllPending(s, todo)
    ensures Follows(s, ExecuteFrom(s, todo, sheet).state, n, ExecuteKills(s, todo, sheet, n), false)
    decreases |todo|
  {
    hide Inv, Drive, Checkpoints, Finalize, PassKills, Dead;
    if todo == [] {
      FinalizeFollows(s, n);
    } else {
      var m, e, o := todo[0], Entry(Fresh, None), AnswersFor(sheet, todo[0]);
      assert Queued(s, m);
      PendingIsReady(s, m);
      PassFollows(s, m, Fresh, o, n);
      DriveInv(s, m, e, o);
      DriveFrame(s, m, e, o);
      var d := Drive(s, m, e, o);
      if d.end == ChunkCommitted {
        QueueTail(s, d.state, todo);
        PendingTail(s, d.state, todo);
        CommittedMeansCompleted(s, m, e, o);
        ExecuteFollows(d.state, todo[1..], sheet, n);
        if n == m {
          ExecuteMeetsListed(d.state, todo[1..], sheet, n);
        }
      }
    }
  }

  lemma PendingIsReady(s: State, m: int)
    requires Checkpoints(s) && StatusIs(s, m, PendingChunk) && 1 <= m <= |s.plan|
    ensures Ready(s, m, Fresh)
  {
    assert CheckpointOk(s, m);
  }

  lemma PendingTail(s: State, r: State, todo: seq<int>)
    requires todo != [] && Queue(s, todo) && AllPending(s, todo) && Frame(s, r, todo[0])
    ensures AllPending(r, todo[1..]) && todo[0] !in todo[1..]
  {
    forall n | n in todo[1..] ensures n in todo && n != todo[0] {
      var i :| 1 <= i < |todo| && todo[i] == n;
    }
  }

  lemma FinalizeFollows(s: State, n: int)
    requires Checkpoints(s)
    ensures Follows(s, Finalize(s).state, n, false, false)
  {
    hide Finalize, Follows;
    FinalizeGates(s);
    FinalAdded(s, Finalize(s).state.gates);
    RowFollows(s, Finalize(s).state, n, n);
  }

  lemma FinalAdded(s: State, gates: seq<Gate>)
    requires OnlyFinalAdded(s.gates, gates)
    ensures WaitingGates(s, gates)
  {}

  // ----- resume ---------------------------------------------------------------------------------

  /** Resume drives the chunks without a passing checkpoint and only those: it stops in front of
      any other, commits nothing there and leaves its row as dead or alive as it was. */
  lemma ResumeDrivesIff(s: State, n: int, o: Answers)
    requires Reachable(s) && Queued(s, n)
    ensures 1 <= n <= |s.plan|
    ensures var r := ResumeDrive(s, n, o);
            && (r.end.Drove? <==> !s.chunks[n].tested)
            && (s.chunks[n].tested ==>
                  var status := if DependenciesMet(s, n) then s.chunks[n].status else Failed;
                  && r.end == (if DependenciesMet(s, n) then RecoveryRaised else SkipBlocked)
                  && r.state.history == s.history && r.state.run == RunFailed
                  && r.state.chunks == s.chunks[n := s.chunks[n].(status := status)])
  {
    ReachableInv(s);
    NeverSkips(s, n, o);
  }

  /** Resume fails a tested chunk whose dependencies are not met, so a rejected one that has its
      report and whose gate does not refuse becomes open to a human again. */
  predicate BlockRevives(s: State, n: int)
    requires n in s.chunks && 1 <= n <= |s.plan|
  {
    && s.chunks[n].status == RejectedChunk && !DependenciesMet(s, n)
    && s.chunks[n].summary == FailureReport && !GateRefuses(s.gates, n)
  }

  lemma ResumedFollows(s: State, m: int, o: Answers, n: int)
    requires Inv(s) && Checkpoints(s) && Queued(s, m)
    ensures 1 <= m <= |s.plan|
    ensures Follows(s, ResumeDrive(s, m, o).state, n,
                    n == m && !s.chunks[m].tested && PassKills(s, m, EntryMode.Resume, o),
                    n == m && BlockRevives(s, m))
  {
    hide Drive, PassKills, GateRefuses, HistoryOk, ApprovalsOk, GatesOk, ReopenOk, LedgerTracks, ChunksOk;
    NeverSkips(s, m, o);
    assert CheckpointOk(s, m);
    if s.chunks[m].tested {
      CheckpointsKept(s, ResumeDrive(s, m, o).state);
    } else {
      assert Ready(s, m, EntryMode.Resume);
      PassFollows(s, m, EntryMode.Resume, o, n);
    }
  }

  /** The state in which resume gets to chunk n, if it does. */
  function ResumeMeets(s: State, todo: seq<int>, sheet: AnswerSheet, n: int): (r: Option<State>)
    requires Todo(s, todo)
    ensures r.Some? ==> n in r.value.chunks && 1 <= n <= |r.value.plan|
    decreases |todo|
  {
    if todo == [] then None
    else if todo[0] == n then Some(s)
    else
      var d := ResumeDrive(s, todo[0], AnswersFor(sheet, todo[0]));
      if d.end != Skipped && d.end != Drove(ChunkCommitted) then None
      else
        DriveFrame(s, todo[0], Entry(EntryMode.Resume, None), AnswersFor(sheet, todo[0]));
        assert forall n :: n in todo[1..] ==> n in todo;
        ResumeMeets(d.state, todo[1..], sheet, n)
  }

  predicate ResumeKills(s: State, todo: seq<int>, sheet: AnswerSheet, n: int)
    requires Todo(s, todo)
  {
    var met := ResumeMeets(s, todo, sheet, n);
    met.Some? && !met.value.chunks[n].tested && PassKills(met.value, n, EntryMode.Resume, AnswersFor(sheet, n))
  }

  predicate ResumeRevives(s: State, todo: seq<int>, sheet: AnswerSheet, n: int)
    requires Todo(s, todo)
  {
    var met := ResumeMeets(s, todo, sheet, n);
    met.Some? && BlockRevives(met.value, n)
  }

  lemma {:induction false} ResumeMeetsListed(s: State, todo: seq<int>, sheet: AnswerSheet, n: int)
    requires Inv(s) && Queue(s, todo) && n !in todo
    ensures ResumeMeets(s, todo, sheet, n).None?
    decreases |todo|
  {
    hide Inv, ResumeDrive;
    if todo != [] {
      var o := AnswersFor(sheet, todo[0]);
      assert Queued(s, todo[0]);
      ResumeDriveInv(s, todo[0], o);
      assert forall m :: m in todo[1..] ==> m in todo;
      if ResumeDrive(s, todo[0], o).end == Drove(ChunkCommitted) {
        QueueTail(s, ResumeDrive(s, todo[0], o).state, todo);
        ResumeMeetsListed(ResumeDrive(s, todo[0], o).state, todo[1..], sheet, n);
      }
    }
  }

  /** So does one in a resume. */
  lemma {:induction false} ResumeFollows(s: State, todo: seq<int>, sheet: AnswerSheet, n: int)
    requires Inv(s) && Checkpoints(s) && Queue(s, todo)
    ensures Follows(s, ResumeFrom(s, todo, sheet).state, n, ResumeKills(s, todo, sheet, n),
                    ResumeRevives(s, todo, sheet, n))
    decreases |todo|
  {
    hide Inv, ResumeDrive, Checkpoints, Finalize, PassKills, BlockRevives, Dead;
    if todo == [] {
      FinalizeFollows(s, n);
    } else {
      var m, o := todo[0], AnswersFor(sheet, todo[0]);
      assert Queued(s, m);
      ResumedFollows(s, m, o, n);
      ResumeDriveInv(s, m, o);
      var d := ResumeDrive(s, m, o);
      if d.end == Drove(ChunkCommitted) {
        QueueTail(s, d.state, todo);
        ResumedCompleted(s, m, o);
        ResumeFollows(d.state, todo[1..], sheet, n);
        if n == m {
          OnceOnly(todo);
          ResumeMeetsListed(d.state, todo[1..], sheet, n);
        }
      }
    }
  }

  lemma OnceOnly(todo: seq<int>)
    requires todo != [] && forall i, j :: 0 <= i < j < |todo| ==> todo[i] < todo[j]
    ensures todo[0] !in todo[1..]
  {}
  // ----- every step -------------------------------------------------------------------------------

  /** Approving an ordinary pause whose patch is gone. */
  predicate ApproveKills(s: State, n: int, o: ApproveAnswers) {
    && StatusIs(s, n, AwaitingChunk) && HasPending(s.gates, ForChunk(n)) && o.loads
    && !s.chunks[n].summary.Refinement? && (!o.touches || s.treeClean)
  }

  /** Rejecting an ordinary pause. */
  predicate RejectKills(s: State, n: int, loads: bool, o: RollbackAnswer) {
    && StatusIs(s, n, AwaitingChunk) && HasPending(s.gates, ForChunk(n)) && loads && o.RolledBack?
    && !s.chunks[n].summary.Refinement?
  }

  /** Everything that kills chunk n. */
  predicate Kills(s: State, op: Op, n: int) {
    match op
    case DoExecute(checks, sheet) =>
      var p := ExecutePrelude(s, checks);
      p.Go? && ExecuteKills(p.state, Select(p.state, |p.state.plan|, {PendingChunk}), sheet, n)
    case DoResume(checks, sheet) =>
      var p := ResumePrelude(s, checks);
      p.Go? && ResumeKills(p.state, Select(p.state, |p.state.plan|, RESUMABLE), sheet, n)
    case DoApprove(m, o) => m == n && ApproveKills(s, n, o)
    case DoReject(m, loads, o) => m == n && RejectKills(s, n, loads, o)
    case _ => false
  }

  /** The one thing that revives a rejected chunk: a resume that gets to it and finds a dependency
      unmet. */
  predicate Revives(s: State, op: Op, n: int) {
    op.DoResume? &&
    var p := ResumePrelude(s, op.rchecks);
    p.Go? && ResumeRevives(p.state, Select(p.state, |p.state.plan|, RESUMABLE), op.sheet, n)
  }

  /** Only gates of waiting chunks and final gates changed, and only final gates were added. */
  predicate WaitingGates(s: State, gates: seq<Gate>) {
    && |s.gates| <= |gates|
    && (forall g :: 0 <= g < |s.gates| ==> gates[g].kind == s.gates[g].kind)
    && (forall g :: 0 <= g < |s.gates| && s.gates[g].kind.ForChunk? ==>
          gates[g] == s.gates[g] || StatusIs(s, s.gates[g].kind.number, AwaitingChunk))
    && (forall g :: |s.gates| <= g < |gates| ==> gates[g].kind == ForRun)
  }

  /** A change of run status, tree and such gates, and of one tested chunk that stays so. */
  lemma RowFollows(s: State, r: State, m: int, n: int)
    requires Checkpoints(s) && r.chunks.Keys == s.chunks.Keys && WaitingGates(s, r.gates)
    requires forall k :: k in s.chunks && k != m ==> r.chunks[k] == s.chunks[k]
    requires m in s.chunks ==>
               || r.chunks[m] == s.chunks[m]
               || (s.chunks[m].tested && r.chunks[m].tested && r.chunks[m].status != PendingChunk)
    ensures Checkpoints(r)
    ensures n != m || (n in s.chunks ==> r.chunks[n] == s.chunks[n]) ==> Follows(s, r, n, false, false)
  {
    hide GateRefuses;
    forall k | k in s.chunks ensures RowAgrees(s, r, k) {
      OldGates(s.gates, r.gates, k);
    }
    CheckpointsKept(s, r);
    if n in s.chunks && s.chunks[n].status == Failed {
      SameDecision(s, r.gates, n);
    }
  }

  lemma SameDecision(s: State, gates: seq<Gate>, n: int)
    requires WaitingGates(s, gates) && !StatusIs(s, n, AwaitingChunk)
    ensures GateRefuses(gates, n) <==> GateRefuses(s.gates, n)
  {
    assert Newest(gates, ForChunk(n)) == Newest(s.gates, ForChunk(n));
  }

  lemma UndoGates(s: State, m: int, fallback: Summary, reply: Reply)
    requires m in s.chunks && s.chunks[m].summary.Refinement?
    ensures var r := UndoRefinement(s, m, fallback, reply).state;
            && OnlyFinalAdded(s.gates, r.gates)
            && r.chunks == s.chunks[m := r.chunks[m]] && r.chunks[m].status == Completed
            && r.chunks[m].tested == s.chunks[m].tested
  {
    hide AllCompleted;
  }

  predicate OnlyFinalAdded(before: seq<Gate>, after: seq<Gate>) {
    && |before| <= |after|
    && (forall g :: 0 <= g < |before| ==> after[g] == before[g])
    && (forall g :: |before| <= g < |after| ==> after[g].kind == ForRun)
  }

  lemma FinalizeGates(s: State)
    ensures Finalize(s).state.chunks == s.chunks && OnlyFinalAdded(s.gates, Finalize(s).state.gates)
  {
    hide AllCompleted;
  }

  /** Deciding the gate of a waiting chunk, and a final gate opened after that. */
  lemma DecidedWaiting(s: State, m: int, verdict: GateStatus, gates: seq<Gate>)
    requires StatusIs(s, m, AwaitingChunk) && HasPending(s.gates, ForChunk(m))
    requires OnlyFinalAdded(Decide(s.gates, NewestPending(s.gates, ForChunk(m)), verdict), gates)
    ensures WaitingGates(s, gates)
  {}

  lemma WaitingIsTested(s: State, n: int)
    requires Checkpoints(s) && StatusIs(s, n, AwaitingChunk)
    ensures s.chunks[n].tested
  {
    assert CheckpointOk(s, n);
  }

  lemma ApprovedRefuses(gates: seq<Gate>, m: int)
    requires Disciplined(gates) && HasPending(gates, ForChunk(m))
    ensures GateRefuses(Decide(gates, NewestPending(gates, ForChunk(m)), Approved), m)
  {
    var g := NewestPending(gates, ForChunk(m));
    PendingIsNewest(gates, ForChunk(m), g);
    var r := Decide(gates, g, Approved);
    assert r[g] == Gate(ForChunk(m), Approved);
    assert forall j :: 0 <= j < |gates| ==> r[j].kind == gates[j].kind;
    assert Newest(r, ForChunk(m)) == g;
  }

  lemma ApproveFollows(s: State, m: int, o: ApproveAnswers, n: int)
    requires Inv(s) && Checkpoints(s)
    ensures Follows(s, Approve(s, m, o).state, n, n == m && ApproveKills(s, m, o), false)
  {
    hide UndoRefinement, Checkpoints, AllCompleted, Decide, MaxAttempt, Finalize, GateRefuses, Inv;
    var r := Approve(s, m, o).state;
    if StatusIs(s, m, AwaitingChunk) && o.loads && HasPending(s.gates, ForChunk(m)) {
      WaitingIsTested(s, m);
      DisciplinedInv(s);
      ApprovedRefuses(s.gates, m);
      var decided := s.(gates := Decide(s.gates, NewestPending(s.gates, ForChunk(m)), Approved));
      if s.chunks[m].summary.Refinement? && (!o.touches || s.treeClean) {
        UndoGates(decided, m, s.chunks[m].summary, RefinementNoOp);
      } else if o.touches && !s.treeClean && o.commitWorks {
        FinalizeGates(ApprovedCommit(s, m, o.residue));
      }
      DecidedWaiting(s, m, Approved, r.gates);
      RowFollows(s, r, m, n);
    }
  }

  lemma DisciplinedInv(s: State)
    requires Inv(s)
    ensures Disciplined(s.gates)
  {}

  lemma RejectFollows(s: State, m: int, loads: bool, o: RollbackAnswer, n: int)
    requires Checkpoints(s)
    ensures Follows(s, Reject(s, m, loads, o).state, n, n == m && RejectKills(s, m, loads, o), false)
  {
    hide UndoRefinement, Checkpoints, Decide, GateRefuses;
    var r := Reject(s, m, loads, o).state;
    if StatusIs(s, m, AwaitingChunk) && loads && o.RolledBack? && HasPending(s.gates, ForChunk(m)) {
      WaitingIsTested(s, m);
      var decided := Decide(s.gates, NewestPending(s.gates, ForChunk(m)), GateStatus.Rejected);
      if s.chunks[m].summary.Refinement? {
        UndoGates(s.(treeClean := true, gates := decided), m, RetainedNote, RefinementRejected);
      }
      DecidedWaiting(s, m, GateStatus.Rejected, r.gates);
    }
    RowFollows(s, r, m, n);
  }

  /** A human attempt kills nobody: a dead chunk stays dead, and any other pauses or fails with
      its report. */
  lemma RetryFollows(s: State, m: int, kind: RetryKind, admitted: bool, o: Answers, n: int)
    requires Checkpoints(s)
    ensures Follows(s, Retry(s, m, kind, admitted, o).state, n, false, false)
  {
    hide Drive, Checkpoints, Dead, CheckpointOk;
    if StatusIs(s, m, Failed) && 1 <= m <= |s.plan| && admitted && s.chunks[m].summary.FailureReport? {
      CheckpointOf(s, m);
      PassFollows(s, m, if kind == SteeredRetry then Steered else HumanRetry, o, n);
    }
  }

  lemma CheckpointOf(s: State, m: int)
    requires Checkpoints(s) && m in s.chunks
    ensures CheckpointOk(s, m)
  {}

  lemma RefineFollows(s: State, m: int, admitted: bool, o: Answers, n: int)
    requires Checkpoints(s)
    ensures Follows(s, Refine(s, m, admitted, o).state, n, false, false)
  {
    hide Drive, Checkpoints, SupersedeFinal, Dead;
    if m in s.chunks && 1 <= m <= |s.plan| && RefineEligible(s, m) {
      var ready := RefinementStart(s);
      SupersededGates(s);
      RowFollows(s, ready, m, n);
      RefinementFollows(ready, m, RefinementEntry(s, m), o, n);
    }
  }

  lemma SupersededGates(s: State)
    ensures WaitingGates(s, SupersedeFinal(s.gates)) && WaitingGates(s, s.gates)
  {}

  lemma ExecuteRunFollows(s: State, checks: ExecuteChecks, sheet: AnswerSheet, n: int)
    requires Inv(s) && Checkpoints(s)
    ensures Follows(s, ExecuteRun(s, checks, sheet).state, n, Kills(s, DoExecute(checks, sheet), n), false)
  {
    hide Inv, ExecuteFrom, ExecuteKills, Queue, Checkpoints, Dead;
    if ExecutePrelude(s, checks).Go? {
      PendingQueue(s);
      ExecuteFollows(s, Select(s, |s.plan|, {PendingChunk}), sheet, n);
    } else {
      SameGates(s);
      RowFollows(s, ExecuteRun(s, checks, sheet).state, n, n);
    }
  }

  lemma ResumeRunFollows(s: State, checks: ResumeChecks, sheet: AnswerSheet, n: int)
    requires Inv(s) && Checkpoints(s)
    ensures Follows(s, ResumeRun(s, checks, sheet).state, n, Kills(s, DoResume(checks, sheet), n),
                    Revives(s, DoResume(checks, sheet), n))
  {
    hide Inv, DriftGuardAccepts, ResumeFrom, ResumeKills, ResumeRevives, Queue, Checkpoints, Dead;
    NothingRunning(s);
    SameGates(s);
    if ResumePrelude(s, checks).Go? {
      var started := s.(run := ResumeRunning);
      RowFollows(s, started, n, n);
      RunStatusInv(s, ResumeRunning);
      ResumeQueue(started);
      ResumeFollows(started, Select(started, |s.plan|, RESUMABLE), sheet, n);
    } else {
      RowFollows(s, ResumeRun(s, checks, sheet).state, n, n);
    }
  }

  lemma SameGates(s: State)
    ensures WaitingGates(s, s.gates)
  {}

  /** A chunk is dead after a step exactly if it was before and was not revived, or the step killed
      it; and every step keeps checkpoints and statuses in agreement. */
  lemma DeadIff(s: State, op: Op, n: int)
    requires Inv(s) && Checkpoints(s)
    ensures Follows(s, Step(s, op).state, n, Kills(s, op, n), Revives(s, op, n))
    ensures Checkpoints(Step(s, op).state)
    ensures Dead(Step(s, op).state, n) <==> (Dead(s, n) && !Revives(s, op, n)) || Kills(s, op, n)
  {
    hide Inv, Checkpoints, Dead, ExecuteRun, ResumeRun, Approve, Reject, Retry, Refine, Decide;
    match op
    case DoExecute(checks, sheet) => ExecuteRunFollows(s, checks, sheet, n);
    case DoResume(checks, sheet) => ResumeRunFollows(s, checks, sheet, n);
    case DoApprove(m, o) => ApproveFollows(s, m, o, n);
    case DoReject(m, loads, o) => RejectFollows(s, m, loads, o, n);
    case DoRetry(m, kind, admitted, o) => RetryFollows(s, m, kind, admitted, o, n);
    case DoRefine(m, admitted, o) => RefineFollows(s, m, admitted, o, n);
    case _ => DecideFollows(s, op, n);
  }

  lemma DecideFollows(s: State, op: Op, n: int)
    requires Inv(s) && Checkpoints(s)
    requires op.DoDecideGate? || op.DoDecideFinal? || op.DoDecideMemoryConflict? || op.DoSettleScopeRejection?
             || op.HumanTouchesTree?
    ensures Follows(s, Step(s, op).state, n, false, false)
  {
    hide Checkpoints, Dead, HistoryOk, ApprovalsOk, ReopenOk, LedgerTracks, ChunksOk;
    SameGates(s);
    if op.DoDecideGate? && 0 <= op.gate < |s.gates| {
      DecidedPending(s, op.gate, if op.approve then Approved else GateStatus.Rejected);
    }
    if op.DoDecideFinal? && HasPending(s.gates, ForRun) {
      DecidedPending(s, NewestPending(s.gates, ForRun), if op.approve then Approved else GateStatus.Rejected);
    }
    RowFollows(s, Step(s, op).state, n, n);
  }

  lemma DecidedPending(s: State, g: int, verdict: GateStatus)
    requires GatesOk(s) && 0 <= g < |s.gates|
    ensures WaitingGates(s, Decide(s.gates, g, verdict))
  {}

  // ----- every run ----------------------------------------------------------------------------------

  lemma StartCheckpoints(plan: seq<ChunkDefinition>, treeClean: bool)
    ensures Checkpoints(Start(plan, treeClean))
  {}

  lemma {:induction false} RunCheckpoints(s: State, ops: seq<Op>)
    requires Inv(s) && Checkpoints(s)
    ensures Checkpoints(RunOps(s, ops))
    decreases |ops|
  {
    hide Inv, Checkpoints, Step;
    if ops != [] {
      StepInv(s, ops[0]);
      DeadIff(s, ops[0], 1);
      RunCheckpoints(Step(s, ops[0]).state, ops[1..]);
    }
  }

  /** In every reachable state a chunk that waits, was rejected or is completed has its passing
      test checkpoint, and a pending one has none. */
  lemma ReachableCheckpoints(s: State)
    requires Reachable(s)
    ensures Checkpoints(s)
  {
    hide Checkpoints;
    var plan, clean, ops :| ValidPlan(plan) && s == RunOps(Start(plan, clean), ops);
    StartInv(plan, clean);
    StartCheckpoints(plan, clean);
    RunCheckpoints(Start(plan, clean), ops);
  }

  // ----- reviving takes a stranded chunk --------------------------------------------------------------

  ghost predicate SomeStranded(s: State) {
    exists m :: Stranded(s, m)
  }

  /** What the loop of a resume has done to the run when it gets to chunk n: nobody new waits. */
  lemma {:induction false} ResumeMeetsFacts(s: State, todo: seq<int>, sheet: AnswerSheet, n: int)
    requires Inv(s) && Queue(s, todo)
    ensures var met := ResumeMeets(s, todo, sheet, n);
            met.Some? ==>
              && Inv(met.value) && n in s.chunks && met.value.chunks[n] == s.chunks[n]
              && forall m :: StatusIs(met.value, m, AwaitingChunk) ==> StatusIs(s, m, AwaitingChunk)
    decreases |todo|
  {
    hide Inv, ResumeDrive;
    if todo != [] && todo[0] != n {
      var o := AnswersFor(sheet, todo[0]);
      assert Queued(s, todo[0]);
      ResumeDriveInv(s, todo[0], o);
      var d := ResumeDrive(s, todo[0], o);
      if d.end == Drove(ChunkCommitted) {
        QueueTail(s, d.state, todo);
        ResumedCompleted(s, todo[0], o);
        ResumeMeetsFacts(d.state, todo[1..], sheet, n);
      }
    }
  }

  /** The dependencies of a rejected chunk were committed when it paused, so one that is not met
      waits for a refinement. */
  lemma UnmetWaits(s: State, n: int) returns (d: int)
    requires Inv(s) && StatusIs(s, n, RejectedChunk) && 1 <= n <= |s.plan| && !DependenciesMet(s, n)
    ensures StatusIs(s, d, AwaitingChunk)
  {
    d :| d in DependenciesOf(s.plan, n) && !StatusIs(s, d, Completed);
    assert ChunkOk(s.plan, s.history, n, s.chunks[n]);
    assert 1 <= d <= |s.plan|;
    assert ChunkOk(s.plan, s.history, d, s.chunks[d]);
  }

  /** Resume does not start while a chunk waits at a pending gate, so a chunk is revived only in a
      run in which another one is stranded. */
  lemma RevivesStranded(s: State, op: Op, n: int)
    requires Inv(s) && Revives(s, op, n)
    ensures SomeStranded(s) && StatusIs(s, n, RejectedChunk)
  {
    hide Inv, Queue, ResumeMeets, DependenciesMet, DriftGuardAccepts;
    NothingRunning(s);
    var started := s.(run := ResumeRunning);
    RunStatusInv(s, ResumeRunning);
    ResumeQueue(started);
    var todo := Select(started, |started.plan|, RESUMABLE);
    ResumeMeetsFacts(started, todo, op.sheet, n);
    var d := UnmetWaits(ResumeMeets(started, todo, op.sheet, n).value, n);
    WaitingListed(s, d);
    var waiting := Select(s, |s.plan|, {AwaitingChunk});
    assert waiting[0] in waiting;
    assert Stranded(s, waiting[0]);
  }

  lemma WaitingListed(s: State, d: int)
    requires Inv(s) && StatusIs(s, d, AwaitingChunk)
    ensures d in Select(s, |s.plan|, {AwaitingChunk})
  {
    PlanOfInv(s, d);
  }

  // ----- no way back --------------------------------------------------------------------------------

  lemma DeadMeans(s: State, n: int)
    requires Inv(s) && Dead(s, n)
    ensures !Committed(s.history, n) && !HasPending(s.gates, ForRun)
  {
    assert ChunkOk(s.plan, s.history, n, s.chunks[n]);
  }

  lemma StrandedStays(s: State, op: Op)
    requires Inv(s) && SomeStranded(s)
    ensures SomeStranded(Step(s, op).state)
  {
    hide Inv, Step, Strands, Stranded;
    var m :| Stranded(s, m);
    StrandedIsChunk(s, m);
    StrandsIff(s, op, m);
  }

  lemma StrandedIsChunk(s: State, m: int)
    requires Stranded(s, m)
    ensures m in s.chunks
  {}

  /** No later operation commits or completes a dead chunk, and none drives it except in vain, as
      long as no chunk of the run is stranded; a dead chunk that failed stays so in any case. */
  lemma {:induction false} DeadForever(s: State, ops: seq<Op>, n: int)
    requires Inv(s) && Checkpoints(s) && Dead(s, n)
    ensures var r := RunOps(s, ops);
            && (SomeStranded(r) || (Dead(r, n) && !Committed(r.history, n)))
            && (StatusIs(s, n, Failed) ==> Dead(r, n) && StatusIs(r, n, Failed) && !Committed(r.history, n))
    decreases |ops|
  {
    hide Inv, Checkpoints, Step, Kills, Revives, Stranded;
    if ops == [] {
      DeadMeans(s, n);
    } else {
      StepInv(s, ops[0]);
      DeadIff(s, ops[0], n);
      var r := Step(s, ops[0]).state;
      if Revives(s, ops[0], n) {
        RevivesStranded(s, ops[0], n);
        StrandedStays(s, ops[0]);
        StrandedStaysOn(r, ops[1..]);
        assert SomeStranded(RunOps(s, ops)) && !StatusIs(s, n, Failed);
      } else {
        DeadForever(r, ops[1..], n);
        DeadStatus(r, n);
      }
    }
  }

  lemma DeadStatus(s: State, n: int)
    requires Dead(s, n)
    ensures StatusIs(s, n, Failed) || StatusIs(s, n, RejectedChunk)
  {}

  lemma {:induction false} StrandedStaysOn(s: State, ops: seq<Op>)
    requires Inv(s) && SomeStranded(s)
    ensures SomeStranded(RunOps(s, ops))
    decreases |ops|
  {
    hide Inv, Step, SomeStranded;
    if ops != [] {
      StepInv(s, ops[0]);
      StrandedStays(s, ops[0]);
      StrandedStaysOn(Step(s, ops[0]).state, ops[1..]);
    }
  }

  lemma KilledForever(s: State, op: Op, n: int, ops: seq<Op>)
    requires Reachable(s) && Kills(s, op, n)
    ensures var r := RunOps(Step(s, op).state, ops);
            SomeStranded(r) || (Dead(r, n) && !Committed(r.history, n))
  {
    hide Inv, Checkpoints, Step, Dead, Kills, Reachable;
    ReachableInv(s);
    ReachableCheckpoints(s);
    StepInv(s, op);
    DeadIff(s, op, n);
    DeadForever(Step(s, op).state, ops, n);
  }

  /** Rejecting an ordinary pause rolls the patch back and fails the run, and the chunk is dead, with
      or without the report of an earlier failure: retries demand a failed chunk. */
  lemma RejectedIsDead(s: State, n: int, ops: seq<Op>)
    requires Reachable(s) && StatusIs(s, n, AwaitingChunk) && HasPending(s.gates, ForChunk(n))
    requires !s.chunks[n].summary.Refinement?
    ensures var r, later := Reject(s, n, true, RolledBack), RunOps(Reject(s, n, true, RolledBack).state, ops);
            && r.reply == ChunkRejectedReply && StatusIs(r.state, n, RejectedChunk) && r.state.run == RunFailed
            && r.state.treeClean && r.state.history == s.history && Dead(r.state, n)
            && (SomeStranded(later) || (Dead(later, n) && !Committed(later.history, n)))
  {
    hide Reachable, Checkpoints, RunOps, SomeStranded;
    KilledForever(s, DoReject(n, true, RolledBack), n, ops);
  }

  /** Approving one whose patch is gone fails the chunk, and its approved gate turns away every
      later pause, with or without a report. */
  lemma ApprovedWithoutPatchIsDead(s: State, n: int, o: ApproveAnswers, ops: seq<Op>)
    requires Reachable(s) && ApproveKills(s, n, o)
    ensures var r, later := Approve(s, n, o), RunOps(Approve(s, n, o).state, ops);
            && r.reply == Raised && StatusIs(r.state, n, Failed) && r.state.history == s.history
            && Dead(later, n) && StatusIs(later, n, Failed) && !Committed(later.history, n)
  {
    hide Reachable, Checkpoints, RunOps, GateRefuses, Dead;
    ReachableInv(s);
    ReachableCheckpoints(s);
    var op := DoApprove(n, o);
    StepInv(s, op);
    DeadIff(s, op, n);
    DeadForever(Step(s, op).state, ops, n);
  }

  /** It happens: the first pending chunk is driven to its review pause and rejected. */
  lemma FreshRejectionIsDead(s: State, n: int, o: Answers, ops: seq<Op>)
    requires Reachable(s) && NextPending(s, n) && s.chunks[n].summary == NoSummary
    requires Drive(s, n, Entry(Fresh, None), o).end == ChunkPaused
    ensures var paused := Step(s, DoExecute(ExecuteClear, map[n := o])).state;
            var r := RunOps(Step(paused, DoReject(n, true, RolledBack)).state, ops);
            SomeStranded(r) || (Dead(r, n) && !Committed(r.history, n))
  {
    hide Reachable, RunOps, Drive, SomeStranded;
    PausedPass(s, n, Entry(Fresh, None), o);
    ExecuteNext(s, n, o);
    var op := DoExecute(ExecuteClear, map[n := o]);
    ReachableStep(s, op);
    RejectedIsDead(Step(s, op).state, n, ops);
  }

  /** An execute would begin with chunk n. */
  predicate NextPending(s: State, n: int) {
    && s.treeClean && (forall m :: m in s.chunks ==> s.chunks[m].status != Running)
    && Select(s, |s.plan|, {PendingChunk}) != [] && Select(s, |s.plan|, {PendingChunk})[0] == n
    && StatusIs(s, n, PendingChunk) && 1 <= n <= |s.plan|
  }

  lemma ExecuteNext(s: State, n: int, o: Answers)
    requires NextPending(s, n) && Drive(s, n, Entry(Fresh, None), o).end != ChunkCommitted
    ensures Step(s, DoExecute(ExecuteClear, map[n := o])).state == Drive(s, n, Entry(Fresh, None), o).state
  {
    hide Drive;
  }

  /** So does this: the tests of an unreviewed chunk pass, and its commit fails. */
  lemma FailedDriverCommitIsDead(s: State, n: int, o: Answers, ops: seq<Op>)
    requires Reachable(s) && NextPending(s, n) && DependenciesMet(s, n) && !s.plan[n - 1].needsReview
    requires s.chunks[n].summary != FailureReport
    requires !o.planRaises && o.first == Attempt(CodeWritten, PreflightClear, Applied, TestsPassed(true))
    requires !o.commitWorks
    ensures Dead(RunOps(Step(s, DoExecute(ExecuteClear, map[n := o])).state, ops), n)
  {
    hide Reachable, RunOps, Drive, Step, Dead, Checkpoints, Inv;
    ReachableInv(s);
    ReachableCheckpoints(s);
    var op := DoExecute(ExecuteClear, map[n := o]);
    assert Kills(s, op, n);
    StepInv(s, op);
    DeadIff(s, op, n);
    NotRejected(s, op, n);
    DeadStatus(Step(s, op).state, n);
    DeadForever(Step(s, op).state, ops, n);
  }

  lemma NotRejected(s: State, op: Op, n: int)
    requires Inv(s) && Checkpoints(s) && StatusIs(s, n, PendingChunk)
    ensures !StatusIs(Step(s, op).state, n, RejectedChunk)
  {
    hide Inv, Checkpoints, Step, Dead, Kills, Revives;
    DeadIff(s, op, n);
  }
}
