/** The rows of one chunked run and the small writes every operation is made of. */
module RunState {
  import opened ChunkPlan
  import opened Wrappers
  import opened ApprovalGates
  import opened AttemptLedger

  datatype ChunkStatus = PendingChunk | Running | Completed | Failed | RejectedChunk | AwaitingChunk

  datatype RunStatus =
    | PlanApproved
    | ResumeRunning
    | RunningChunks
    | RunFailed
    | RunRejected
    | AwaitingChunkApproval
    | AwaitingScopeApproval
    | AwaitingMemoryConflict
    | ChunkApproved
    | AwaitingFinalApproval
    | FinalApproved
    | FinalRejected

  /** What chunks.completion_summary holds. `Success(i)` is the summary saved with commit
      number `i` of the branch; `Refinement` is the recovered_patch_review marker with its
      restore block, `Recovered` the same marker without one. */
  datatype Summary =
    | NoSummary
    | Success(commit: int)
    | FailureReport
    | Recovered
    | Refinement(priorRun: RunStatus, superseded: bool, prior: Option<Summary>)
    | RetainedNote

  /** `tested`: a passing test checkpoint exists for the chunk. */
  datatype Chunk = Chunk(status: ChunkStatus, summary: Summary, tested: bool)

  datatype State = State(
    plan: seq<ChunkDefinition>,
    chunks: map<int, Chunk>,
    run: RunStatus,
    gates: seq<Gate>,
    treeClean: bool,
    history: History,
    ledger: seq<Row>)

  /** A freshly approved plan. */
  function Start(plan: seq<ChunkDefinition>, treeClean: bool): State {
    var numbers := set i | 0 <= i < |plan| :: plan[i].number;
    State(plan, map n | n in numbers :: Chunk(PendingChunk, NoSummary, false), PlanApproved, [], treeClean, [], [])
  }

  function SetChunk(s: State, n: int, c: Chunk): State
  {
    s.(chunks := s.chunks[n := c])
  }

  function SetStatus(s: State, n: int, status: ChunkStatus): State
    requires n in s.chunks
  {
    SetChunk(s, n, s.chunks[n].(status := status))
  }

  function SetSummary(s: State, n: int, summary: Summary): State
    requires n in s.chunks
  {
    SetChunk(s, n, s.chunks[n].(summary := summary))
  }

  function Record(s: State, n: int, mode: EntryMode, status: RowStatus): State {
    s.(ledger := Append(s.ledger, n, mode, status, s.history))
  }

  predicate StatusIs(s: State, n: int, status: ChunkStatus) {
    n in s.chunks && s.chunks[n].status == status
  }

  /** _unmet_dependencies is empty: a missing chunk number counts as unmet. */
  predicate DependenciesMet(s: State, n: int)
    requires 1 <= n <= |s.plan|
  {
    forall d :: d in DependenciesOf(s.plan, n) ==> StatusIs(s, d, Completed)
  }

  predicate AllCompleted(s: State) {
    forall n :: n in s.chunks ==> s.chunks[n].status == Completed
  }

  /** _mark_awaiting_final_approval: every chunk completed, clean tree, gate opened or
      reused, run marked; None where it raises, with nothing written. */
  function MarkAwaitingFinal(s: State): Option<State> {
    var gated := OpenFinalGate(s.gates);
    if AllCompleted(s) && s.treeClean && gated.Some? then
      Some(s.(gates := gated.value, run := AwaitingFinalApproval))
    else None
  }

  function FailChunk(s: State, n: int): State
    requires n in s.chunks
  {
    SetStatus(s, n, Failed).(run := RunFailed)
  }

  /** Failure with a stored report; an eligible scope violation surfaces on the run. */
  function FailWithReport(s: State, n: int, scopeRequest: bool): State
    requires n in s.chunks
  {
    SetStatus(SetSummary(s, n, FailureReport), n, Failed)
      .(run := if scopeRequest then AwaitingScopeApproval else RunFailed)
  }

  /** create_chunk_approval_gate_and_mark_chunk: one transaction, None where it raises. */
  function PauseAtGate(s: State, n: int, allowAfterApproved: bool): Option<State>
    requires n in s.chunks
  {
    var gated := OpenChunkGate(s.gates, n, allowAfterApproved);
    if gated.Some? then
      Some(SetStatus(s, n, AwaitingChunk).(gates := gated.value, run := AwaitingChunkApproval))
    else None
  }

  /** The commit, the saved success summary and the completed status. Files the commit
      leaves behind keep the tree dirty. */
  function CommitChunk(s: State, n: int, origin: Origin, residue: bool): State
    requires n in s.chunks
  {
    SetStatus(SetSummary(s, n, Success(|s.history|)), n, Completed)
      .(history := s.history + [Commit(n, origin)], treeClean := !residue)
  }
}
