/** The invariant every reachable state of a run satisfies, and its preservation by a
    driver pass. */
module RunInvariant {
  import opened ChunkPlan
  import opened Wrappers
  import opened ApprovalGates
  import opened AttemptLedger
  import opened RunState
  import opened ChunkDriver
  import opened Orchestrator

  // ----- the parts ----------------------------------------------------------------------

  ghost predicate PlanOk(s: State) {
    ValidPlan(s.plan) && forall n :: n in s.chunks <==> 1 <= n <= |s.plan|
  }

  ghost predicate DepsCommitted(plan: seq<ChunkDefinition>, history: History, n: int)
    requires 1 <= n <= |plan|
  {
    forall d :: d in DependenciesOf(plan, n) ==> Committed(history, d)
  }

  /** Every commit comes after commits of all the chunks it depends on. */
  ghost predicate HistoryOk(plan: seq<ChunkDefinition>, history: History) {
    forall i :: 0 <= i < |history| ==>
      1 <= history[i].chunk <= |plan| && DepsCommitted(plan, history[..i], history[i].chunk)
  }

  /** The row of one chunk agrees with the branch. */
  ghost predicate ChunkOk(plan: seq<ChunkDefinition>, history: History, n: int, c: Chunk)
    requires 1 <= n <= |plan|
  {
    var last := LastCommit(history, n);
    && c.status != Running
    && (c.summary.Refinement? ==> c.status == AwaitingChunk)
    && (last >= 0 ==> c.status == Completed || c.status == AwaitingChunk)
    && (c.status == Completed ==> last >= 0 && c.summary == Success(last))
    && (c.status == AwaitingChunk ==>
          && DepsCommitted(plan, history, n)
          && (c.summary.Refinement? <==> last >= 0)
          && (c.summary.Refinement? ==> c.summary.prior == Some(Success(last))))
    && (c.status == RejectedChunk ==> DepsCommitted(plan, history, n))
  }

  ghost predicate ApprovedFor(gates: seq<Gate>, commit: Commit) {
    commit.origin.ByApproval? ==>
      var g := commit.origin.gate;
      0 <= g < |gates| && gates[g] == Gate(ForChunk(commit.chunk), Approved)
  }

  /** Commits the driver makes alone are of unreviewed chunks in non-human modes; every
      other commit owns an approved gate of its chunk, and no two commits share one. */
  ghost predicate ApprovalsOk(plan: seq<ChunkDefinition>, history: History, gates: seq<Gate>)
    requires HistoryOk(plan, history)
  {
    && (forall i :: 0 <= i < |history| ==> ApprovedFor(gates, history[i]))
    && (forall i :: 0 <= i < |history| && history[i].origin.ByDriver? ==>
          !plan[history[i].chunk - 1].needsReview && !HumanMode(history[i].origin.mode))
    && (forall i, j :: 0 <= i < j < |history| && history[i].origin.ByApproval? && history[j].origin.ByApproval? ==>
          history[i].origin.gate != history[j].origin.gate)
  }

  /** A pending chunk gate belongs to a chunk awaiting approval; a pending final gate means
      every chunk is completed. */
  ghost predicate GatesOk(s: State) {
    && Disciplined(s.gates)
    && (forall g :: 0 <= g < |s.gates| && s.gates[g].status == Pending && s.gates[g].kind.ForChunk? ==>
          StatusIs(s, s.gates[g].kind.number, AwaitingChunk))
    && (HasPending(s.gates, ForRun) ==> AllCompleted(s) && s.run != ChunkApproved)
  }

  ghost predicate SupersededMarker(c: Chunk) {
    c.status == AwaitingChunk && c.summary.Refinement? && c.summary.superseded
  }

  ghost predicate FinalReopenable(gates: seq<Gate>) {
    var g := Newest(gates, ForRun);
    g >= 0 && gates[g].status == Superseded
  }

  /** While a refinement that superseded the final gate waits, every other chunk is
      completed, the final gate can be re-opened and no further refinement is admitted. */
  ghost predicate ReopenOk(s: State) {
    forall n :: n in s.chunks && SupersededMarker(s.chunks[n]) ==>
      && (forall m :: m in s.chunks && m != n ==> s.chunks[m].status == Completed)
      && FinalReopenable(s.gates)
      && s.run != AwaitingFinalApproval && s.run != ChunkApproved
  }

  ghost predicate ChunksOk(s: State)
    requires PlanOk(s)
  {
    forall n :: n in s.chunks ==> ChunkOk(s.plan, s.history, n, s.chunks[n])
  }

  ghost predicate Inv(s: State) {
    && PlanOk(s)
    && HistoryOk(s.plan, s.history)
    && ChunksOk(s)
    && ApprovalsOk(s.plan, s.history, s.gates)
    && GatesOk(s)
    && ReopenOk(s)
    && LedgerTracks(s.ledger, s.history)
  }

  // ----- inside a driver pass over chunk n --------------------------------------------------

  /** All of the invariant that does not look at chunk n's own row. */
  ghost predicate Rest(s: State, n: int) {
    && PlanOk(s) && n in s.chunks
    && HistoryOk(s.plan, s.history)
    && (forall m :: m in s.chunks && m != n ==>
          ChunkOk(s.plan, s.history, m, s.chunks[m]) && !SupersededMarker(s.chunks[m]))
    && ApprovalsOk(s.plan, s.history, s.gates)
    && Disciplined(s.gates)
    && (forall g :: 0 <= g < |s.gates| && s.gates[g].status == Pending && s.gates[g].kind.ForChunk? ==>
          s.gates[g].kind.number != n && StatusIs(s, s.gates[g].kind.number, AwaitingChunk))
    && !HasPending(s.gates, ForRun)
    && LedgerTracks(s.ledger, s.history)
  }

  /** What an operation has checked before it drives chunk n. */
  ghost predicate Drivable(s: State, n: int, e: Entry) {
    && n in s.chunks && ValidEntry(e)
    && match e.refinement
       case None =>
         s.chunks[n].status == PendingChunk || s.chunks[n].status == Failed || s.chunks[n].status == RejectedChunk
       case Some(ctx) =>
         && s.chunks[n].status == Completed
         && !HasPending(s.gates, ForRun)
         && (forall m :: m in s.chunks ==> !SupersededMarker(s.chunks[m]))
         && ctx.prior == Some(s.chunks[n].summary)
         && (ctx.superseded ==> AllCompleted(s) && FinalReopenable(s.gates))
  }

  lemma NoPendingOutside(gates: seq<Gate>, kind: GateKind)
    requires !HasPending(gates, kind)
    ensures forall g :: 0 <= g < |gates| ==> gates[g] != Gate(kind, Pending)
  {}

  lemma RestHolds(s: State, n: int, e: Entry)
    requires Inv(s) && Drivable(s, n, e)
    ensures Rest(s, n)
  {
    assert AllCompleted(s) ==> s.chunks[n].status == Completed;
  }

  /** Rest survives any rewrite of chunk n's row, of the tree and of the run status. */
  lemma RestIgnores(s: State, n: int, c: Chunk, clean: bool, run: RunStatus)
    requires Rest(s, n)
    ensures Rest(SetChunk(s, n, c).(treeClean := clean, run := run), n)
  {}

  lemma RestRecord(s: State, n: int, k: int, mode: EntryMode, status: RowStatus)
    requires Rest(s, n) && status != AttemptCompleted
    ensures Rest(Record(s, k, mode, status), n)
  {
    AppendOther(s.ledger, s.history, k, mode, status);
  }

  /** What the attempt loop changes: only chunk n's test checkpoint, the tree and rows that
      are not completions. */
  ghost predicate LoopEffect(s: State, r: State, n: int)
    requires n in s.chunks
  {
    && n in r.chunks
    && r.history == s.history && r.gates == s.gates && r.run == s.run && r.plan == s.plan
    && r.chunks[n].status == s.chunks[n].status && r.chunks[n].summary == s.chunks[n].summary
  }

  lemma AttemptEffect(s: State, n: int, a: Attempt)
    requires n in s.chunks
    ensures var r := RunAttempt(s, n, a).state;
            && LoopEffect(s, r, n)
            && r == SetChunk(s, n, r.chunks[n]).(treeClean := r.treeClean, run := s.run)
  {
    assert s.chunks == s.chunks[n := s.chunks[n]];
  }

  lemma LoopRest(s: State, n: int, e: Entry, o: Answers, mode: EntryMode, spent: nat)
    requires Rest(s, n) && spent <= AUTO_RETRY_INFRA_BUDGET
    ensures var r := AttemptLoop(s, n, e, o, mode, spent);
            Rest(r.state, n) && LoopEffect(s, r.state, n) && (r.mode == mode || r.mode == AutoRetry)
    decreases AUTO_RETRY_INFRA_BUDGET - spent
  {
    var a := if spent == 0 then o.first else o.second;
    AttemptEffect(s, n, a);
    var r := RunAttempt(s, n, a).state;
    RestIgnores(s, n, r.chunks[n], r.treeClean, s.run);
    if spent < AUTO_RETRY_INFRA_BUDGET {
      RestRecord(r, n, n, mode, AutoRetrying);
      LoopRest(Record(r, n, mode, AutoRetrying), n, e, o, AutoRetry, spent + 1);
    }
  }

  /** Approvals already given stay given while the gate table grows. */
  lemma ApprovalsGrow(plan: seq<ChunkDefinition>, history: History, before: seq<Gate>, after: seq<Gate>)
    requires HistoryOk(plan, history) && ApprovalsOk(plan, history, before)
    requires Grows(before, after)
    ensures ApprovalsOk(plan, history, after)
  {
    forall i | 0 <= i < |history| ensures ApprovedFor(after, history[i]) {
      assert ApprovedFor(before, history[i]);
    }
  }

  /** Rest and a good row for n make the invariant, when nothing final is pending. */
  lemma Rebuild(s: State, n: int)
    requires Rest(s, n)
    requires ChunkOk(s.plan, s.history, n, s.chunks[n])
    requires !SupersededMarker(s.chunks[n])
    ensures Inv(s)
  {
    NoPendingOutside(s.gates, ForRun);
  }

  lemma FailedIsOk(s: State, n: int, c: Chunk, run: RunStatus)
    requires Rest(s, n) && !Committed(s.history, n)
    requires c.status == Failed && !c.summary.Refinement?
    ensures Inv(SetChunk(s, n, c).(run := run))
  {
    RestIgnores(s, n, c, s.treeClean, run);
    Rebuild(SetChunk(s, n, c).(run := run), n);
  }

  /** Re-opening final approval is safe wherever it does not raise. */
  lemma MarkFinalInv(s: State)
    requires Inv(s) && MarkAwaitingFinal(s).Some?
    ensures Inv(MarkAwaitingFinal(s).value)
  {
    var r := MarkAwaitingFinal(s).value;
    OpenFinalGateKeeps(s.gates);
    ApprovalsGrow(s.plan, s.history, s.gates, r.gates);
  }

  /** A refined chunk put back with its own summary: the run keeps its invariant whatever
      happens to the run status and the final gate. */
  lemma RestoredIsOk(s: State, n: int, ctx: RefinementContext, restoreCleans: bool)
    requires Rest(s, n) && Committed(s.history, n)
    requires s.chunks[n].summary == Success(LastCommit(s.history, n))
    ensures Inv(RestoreCompleted(s, n, ctx, restoreCleans))
  {
    var clean := s.treeClean || restoreCleans;
    var kept := SetStatus(s, n, Completed).(treeClean := clean);
    RestIgnores(s, n, kept.chunks[n], clean, kept.run);
    assert kept == SetChunk(s, n, kept.chunks[n]).(treeClean := clean, run := kept.run);
    Rebuild(kept, n);
    SettleInv(kept, ctx);
    RestIgnores(s, n, kept.chunks[n], clean, RunFailed);
    Rebuild(kept.(run := RunFailed), n);
  }

  lemma SettleInv(s: State, ctx: RefinementContext)
    requires Inv(s) && !HasPending(s.gates, ForRun)
    requires forall m :: m in s.chunks ==> !SupersededMarker(s.chunks[m])
    ensures Settle(s, ctx).Some? ==> Inv(Settle(s, ctx).value)
  {
    if ctx.superseded && MarkAwaitingFinal(s).Some? {
      MarkFinalInv(s);
    }
  }

  lemma FailureInv(s: State, n: int, e: Entry, o: Answers, hasReport: bool)
    requires Rest(s, n)
    requires if e.refinement.Some? then
               Committed(s.history, n) && s.chunks[n].summary == Success(LastCommit(s.history, n))
             else !Committed(s.history, n) && !s.chunks[n].summary.Refinement?
    ensures Inv(FinishFailure(s, n, e, o, hasReport).state)
  {
    if e.refinement.Some? {
      RestoredIsOk(s, n, e.refinement.value, o.restoreCleans);
    } else if hasReport {
      var c := Chunk(Failed, FailureReport, s.chunks[n].tested);
      FailedIsOk(s, n, c, if o.scopeRequest then AwaitingScopeApproval else RunFailed);
      assert FailWithReport(s, n, o.scopeRequest).chunks == s.chunks[n := c];
    } else {
      FailedIsOk(s, n, s.chunks[n].(status := Failed), RunFailed);
    }
  }

  /** Pausing at a gate re-establishes the invariant. */
  lemma PauseInv(s: State, n: int, after: bool)
    requires Rest(s, n) && PauseAtGate(s, n, after).Some?
    requires ChunkOk(s.plan, s.history, n, s.chunks[n].(status := AwaitingChunk))
    requires SupersededMarker(s.chunks[n].(status := AwaitingChunk)) ==>
               FinalReopenable(s.gates) && forall m :: m in s.chunks && m != n ==> s.chunks[m].status == Completed
    ensures Inv(PauseAtGate(s, n, after).value)
  {
    hide LedgerTracks, ApprovalsOk, Disciplined, FinalReopenable, LastCommit;
    var r := PauseAtGate(s, n, after).value;
    OpenChunkGateKeeps(s.gates, n, after);
    ApprovalsGrow(s.plan, s.history, s.gates, r.gates);
    PauseGates(s, n, after);
  }

  lemma PauseGates(s: State, n: int, after: bool)
    requires Rest(s, n) && PauseAtGate(s, n, after).Some?
    ensures var r := PauseAtGate(s, n, after).value;
            GatesOk(r) && !HasPending(r.gates, ForRun) && FinalReopenable(r.gates) == FinalReopenable(s.gates)
  {
    var r := PauseAtGate(s, n, after).value;
    OpenChunkGateKeeps(s.gates, n, after);
    NoPendingOutside(s.gates, ForRun);
    assert Newest(r.gates, ForRun) == Newest(s.gates, ForRun);
  }

  /** A refinement's gate always opens: its chunk's newest gate is decided. */
  lemma RefinementGateOpens(s: State, n: int)
    requires Rest(s, n)
    ensures PauseAtGate(s, n, true).Some?
  {}

  lemma RecordInv(s: State, n: int, mode: EntryMode, status: RowStatus)
    requires Inv(s) && status != AttemptCompleted
    ensures Inv(Record(s, n, mode, status))
  {
    AppendOther(s.ledger, s.history, n, mode, status);
  }

  // ----- committing ------------------------------------------------------------------------

  lemma HistoryGrows(plan: seq<ChunkDefinition>, history: History, c: Commit)
    requires HistoryOk(plan, history)
    requires 1 <= c.chunk <= |plan| && DepsCommitted(plan, history, c.chunk)
    ensures HistoryOk(plan, history + [c])
  {
    var h := history + [c];
    forall i | 0 <= i < |h| ensures 1 <= h[i].chunk <= |plan| && DepsCommitted(plan, h[..i], h[i].chunk) {
      assert h[..i] == if i == |history| then history else history[..i];
    }
  }

  /** Another chunk's row stays good when chunk c commits. */
  lemma ChunkOkGrows(plan: seq<ChunkDefinition>, history: History, c: Commit, m: int, row: Chunk)
    requires 1 <= m <= |plan| && m != c.chunk
    requires ChunkOk(plan, history, m, row)
    ensures ChunkOk(plan, history + [c], m, row)
  {
    CommitAppended(history, c, m);
    forall d | d in DependenciesOf(plan, m) && Committed(history, d) ensures Committed(history + [c], d) {
      CommitAppended(history, c, d);
    }
  }

  lemma ApprovalsAppend(plan: seq<ChunkDefinition>, history: History, gates: seq<Gate>, c: Commit)
    requires HistoryOk(plan, history) && HistoryOk(plan, history + [c])
    requires ApprovalsOk(plan, history, gates)
    requires 1 <= c.chunk <= |plan| && ApprovedFor(gates, c)
    requires c.origin.ByDriver? ==> !plan[c.chunk - 1].needsReview && !HumanMode(c.origin.mode)
    requires c.origin.ByApproval? ==>
               forall i :: 0 <= i < |history| && history[i].origin.ByApproval? ==>
                   history[i].origin.gate != c.origin.gate
    ensures ApprovalsOk(plan, history + [c], gates)
  {}

  /** A commit with its completed row re-establishes the invariant. */
  lemma CommitInv(s: State, n: int, origin: Origin, residue: bool, mode: EntryMode, run: RunStatus)
    requires Rest(s, n) && DepsCommitted(s.plan, s.history, n)
    requires ApprovedFor(s.gates, Commit(n, origin))
    requires origin.ByDriver? ==> !s.plan[n - 1].needsReview && !HumanMode(origin.mode)
    requires origin.ByApproval? ==>
               forall i :: 0 <= i < |s.history| && s.history[i].origin.ByApproval? ==>
                   s.history[i].origin.gate != origin.gate
    ensures Inv(Record(CommitChunk(s, n, origin, residue), n, mode, AttemptCompleted).(run := run))
  {
    hide LedgerTracks, Disciplined, LastCommit, MaxAttempt;
    var c := Commit(n, origin);
    var r := Record(CommitChunk(s, n, origin, residue), n, mode, AttemptCompleted).(run := run);
    HistoryGrows(s.plan, s.history, c);
    CommitAppended(s.history, c, n);
    forall m | m in r.chunks ensures ChunkOk(r.plan, r.history, m, r.chunks[m]) {
      if m != n {
        ChunkOkGrows(s.plan, s.history, c, m, s.chunks[m]);
      }
    }
    ApprovalsAppend(s.plan, s.history, s.gates, c);
    AppendCompletion(s.ledger, s.history, c, mode);
    NoPendingOutside(s.gates, ForRun);
  }
}
