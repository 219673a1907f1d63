/** A driver pass keeps the invariant of the run, whatever its stages answer. */
module DriverSafety {
  import opened ChunkPlan
  import opened Wrappers
  import opened ApprovalGates
  import opened AttemptLedger
  import opened RunState
  import opened ChunkDriver
  import opened Orchestrator
  import opened RunInvariant

  /** The facts about chunk n that hold from the dependency check to the end of a pass. */
  ghost predicate Underway(s: State, n: int, e: Entry) {
    && Rest(s, n) && ValidEntry(e)
    && DepsCommitted(s.plan, s.history, n)
    && (e.refinement.None? ==> !Committed(s.history, n) && !s.chunks[n].summary.Refinement?)
    && (e.refinement.Some? ==>
          var ctx := e.refinement.value;
          && Committed(s.history, n)
          && s.chunks[n].summary == Success(LastCommit(s.history, n))
          && ctx.prior == Some(s.chunks[n].summary)
          && (ctx.superseded ==>
                FinalReopenable(s.gates) && forall m :: m in s.chunks && m != n ==> s.chunks[m].status == Completed))
  }

  lemma DependenciesCommitted(s: State, n: int)
    requires Rest(s, n) && DependenciesMet(s, n)
    ensures DepsCommitted(s.plan, s.history, n)
  {
    forall d | d in DependenciesOf(s.plan, n) ensures Committed(s.history, d) {
      assert d != n;
      assert ChunkOk(s.plan, s.history, d, s.chunks[d]);
    }
  }

  lemma RaiseInv(s: State, n: int, e: Entry, o: Answers)
    requires Underway(s, n, e)
    ensures Inv(FinishRaise(s, n, e, o).state)
  {
    RestRecord(s, n, n, e.mode, AttemptFailed);
    FailureInv(Record(s, n, e.mode, AttemptFailed), n, e, o, false);
  }

  lemma RejectInv(s: State, n: int, e: Entry, o: Answers, mode: EntryMode)
    requires Underway(s, n, e)
    ensures Inv(FinishFailure(Record(s, n, mode, AttemptFailed), n, e, o, true).state)
  {
    RestRecord(s, n, n, mode, AttemptFailed);
    FailureInv(Record(s, n, mode, AttemptFailed), n, e, o, true);
  }

  lemma PlainPauseInv(s: State, n: int, e: Entry, o: Answers, mode: EntryMode)
    requires Underway(s, n, e) && e.refinement.None?
    ensures Inv(PauseOrRaise(s, n, e, o, mode, false).state)
  {
    if PauseAtGate(s, n, false).Some? {
      PauseInv(s, n, false);
      RecordInv(PauseAtGate(s, n, false).value, n, mode, AttemptAwaiting);
    } else {
      RaiseInv(s, n, e, o);
    }
  }

  lemma RefinementPauseInv(s: State, n: int, e: Entry, o: Answers, mode: EntryMode)
    requires Underway(s, n, e) && e.refinement.Some?
    ensures Inv(FinishVerified(s, n, e, o, mode).state)
  {
    var ctx := e.refinement.value;
    var marked := SetSummary(s, n, Refinement(ctx.priorRun, ctx.superseded, ctx.prior));
    RestIgnores(s, n, marked.chunks[n], s.treeClean, s.run);
    assert marked == SetChunk(s, n, marked.chunks[n]).(treeClean := s.treeClean, run := s.run);
    RefinementGateOpens(marked, n);
    PauseInv(marked, n, true);
    RecordInv(PauseAtGate(marked, n, true).value, n, mode, AttemptAwaiting);
  }

  lemma SummaryUnderway(s: State, n: int, e: Entry, c: Chunk, clean: bool, run: RunStatus)
    requires Underway(s, n, e)
    requires if e.refinement.Some? then c.summary == s.chunks[n].summary else !c.summary.Refinement?
    ensures Underway(SetChunk(s, n, c).(treeClean := clean, run := run), n, e)
  {
    RestIgnores(s, n, c, clean, run);
  }

  lemma VerifiedInv(s: State, n: int, e: Entry, o: Answers, mode: EntryMode)
    requires Underway(s, n, e) && (mode == e.mode || (mode == AutoRetry && !HumanMode(e.mode)))
    ensures Inv(FinishVerified(s, n, e, o, mode).state)
  {
    if e.refinement.Some? {
      RefinementPauseInv(s, n, e, o, mode);
    } else if HumanMode(e.mode) {
      var c := s.chunks[n].(summary := Recovered);
      SummaryUnderway(s, n, e, c, s.treeClean, s.run);
      assert SetSummary(s, n, Recovered) == SetChunk(s, n, c).(treeClean := s.treeClean, run := s.run);
      PlainPauseInv(SetSummary(s, n, Recovered), n, e, o, mode);
    } else if s.plan[n - 1].needsReview {
      PlainPauseInv(s, n, e, o, mode);
    } else if s.treeClean {
      var c := s.chunks[n].(status := Failed);
      SummaryUnderway(s, n, e, c, s.treeClean, RunFailed);
      assert FailChunk(s, n) == SetChunk(s, n, c).(treeClean := s.treeClean, run := RunFailed);
      RaiseInv(FailChunk(s, n), n, e, o);
    } else if !o.commitWorks {
      RaiseInv(s, n, e, o);
    } else {
      CommitInv(s, n, ByDriver(mode), o.residue, mode, s.run);
    }
  }

  lemma RunningUnderway(s: State, n: int, e: Entry)
    requires Inv(s) && Drivable(s, n, e) && DependenciesMet(s, n)
    ensures Underway(SetStatus(s, n, Running).(run := RunningChunks), n, e)
  {
    RestHolds(s, n, e);
    DependenciesCommitted(s, n);
    assert ChunkOk(s.plan, s.history, n, s.chunks[n]);
  }

  lemma UnmetInv(s: State, n: int, e: Entry, o: Answers)
    requires Inv(s) && Drivable(s, n, e)
    ensures Inv(FinishFailure(Record(s, n, e.mode, AttemptFailed), n, e, o, false).state)
  {
    hide FinishFailure, LedgerTracks;
    RestHolds(s, n, e);
    RestRecord(s, n, n, e.mode, AttemptFailed);
    assert ChunkOk(s.plan, s.history, n, s.chunks[n]);
    FailureInv(Record(s, n, e.mode, AttemptFailed), n, e, o, false);
  }

  /** Whatever the stages answer, fail or raise, a pass leaves the invariant standing. */
  lemma DriveInv(s: State, n: int, e: Entry, o: Answers)
    requires Inv(s) && Drivable(s, n, e)
    ensures Inv(Drive(s, n, e, o).state)
  {
    hide FinishFailure, AttemptLoop, FinishVerified, HistoryOk, ApprovalsOk, GatesOk, ReopenOk, LedgerTracks, Underway;
    var running := SetStatus(s, n, Running).(run := RunningChunks);
    if !DependenciesMet(s, n) {
      UnmetInv(s, n, e, o);
    } else {
      RunningUnderway(s, n, e);
      if !running.treeClean {
        RejectInv(running, n, e, o, e.mode);
      } else if o.planRaises {
        RaiseInv(running, n, e, o);
      } else {
        LoopUnderway(running, n, e, o);
        var looped := AttemptLoop(running, n, e, o, e.mode, 0);
        match looped.end
        case Crashed => RaiseInv(looped.state, n, e, o);
        case AttemptRejected(_) => RejectInv(looped.state, n, e, o, looped.mode);
        case Verified => VerifiedInv(looped.state, n, e, o, looped.mode);
      }
    }
  }

  lemma LoopUnderway(s: State, n: int, e: Entry, o: Answers)
    requires Underway(s, n, e)
    ensures var r := AttemptLoop(s, n, e, o, e.mode, 0);
            Underway(r.state, n, e) && (r.mode == e.mode || (r.mode == AutoRetry && !HumanMode(e.mode)))
  {
    LoopRest(s, n, e, o, e.mode, 0);
    LoopFrame(s, n, e, o, e.mode, 0);
  }

  /** A pass that reports its chunk committed left it completed. */
  lemma CommittedMeansCompleted(s: State, n: int, e: Entry, o: Answers)
    requires n in s.chunks && 1 <= n <= |s.plan|
    requires Drive(s, n, e, o).end == ChunkCommitted
    ensures StatusIs(Drive(s, n, e, o).state, n, Completed)
  {
    LoopFrame(SetStatus(s, n, Running).(run := RunningChunks), n, e, o, e.mode, 0);
  }
}
