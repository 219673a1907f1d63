# Pipewright verification model

A Dafny model of the logic that decides what happens to a Pipewright run, with proofs of
what that logic promises. Paths below are relative to the repository root.

The core is the chunked pipeline. A run owns the chunks of a validated plan, an append-only
branch history, chunk gates and final gates in order of creation, and a ledger of attempts.
Executing, resuming, approving, rejecting, retrying, steering and refining all work on these
rows and on the working tree, and every stage they call may succeed, fail or raise. The
smaller cores are the memory tables and their lifecycle, the selection of memory facts for a
prompt and its full-text index, the bounded edit-distance test, the event bus, and the
reading of file constraints from a request with their reconciliation into a plan.

## How the model is laid out

| files | what they hold |
|---|---|
| `ChunkPlan`, `ApprovalGates`, `AttemptLedger`, `RunState` | the plan, the gate table, the ledger with the branch, and the rows of a run |
| `ChunkDriver`, `Orchestrator` | one driver pass and every operation as functions of the state and of the answers of the stages |
| `RunInvariant`, `DriverSafety`, `DriverTrace`, `RunSafety` | the run invariant and its preservation; what one pass leaves behind |
| `RunTheorems`, `RunProgress`, `StrandedChunks`, `DeadChunks`, `FinalReach`, `RunVerdicts` | the results about whole runs |
| `OperationEffects` | what each operation on a run writes and replies, and when it is turned away, said of the rows alone |
| `PipelineStore` | the same operations as a class that changes rows step by step, each method proved to end exactly where its function does |
| `MemoryFacts`, `MemoryEffects`, `MemoryTheorems`, `MemoryStore` | memory operations as functions, what each leaves behind, the results, and the class over the two tables |
| `StableSort`, `PromptMemory`, `PromptTheorems`, `PromptOrder`, `MemoryIndex` | memory selection and the index |
| `Levenshtein`, `EventBus` | edit distance; event bus |
| `CueWords`, `FileMentions` | what the words of a request say about the files it names, and how they are read |
| `RepoPath`, `ScopeReconcile`, `ScopeOutcome`, `SecondPass` | path normalization, reconciliation, its outcome, and what reconciling again would change |

Code that updates rows, queues, tables or local variables in loops is modelled as classes and
methods; the functions they are proved against carry the theorems. `PipelineStore.Store.Perform`
and `MemoryStore.Store.Perform` tie the two together: a class that starts in a start state
only ever visits states that the theorems about runs cover.

## What the model takes as given

- Each operation is one atomic step under the project lock; row writes succeed and there is
  no crash inside an operation. Between steps a human may make the tree clean or dirty.
- Rows are kept in order of creation, which stands for their strictly increasing timestamps.
- A commit id fixes the history behind it, so the id of HEAD is modelled as the history itself.
  The base history and the chunk titles contain no `chunk n:` text, so that a search of the log
  for a chunk's commit finds exactly its commits. Reading HEAD after a commit does not raise,
  and neither does rolling the verification baseline forward.
- What a stage, a check or a human answers is a parameter (`Answers`, `ExecuteChecks`,
  `ApproveAnswers`, ...). `admitted` stands for the door checks of a request that do not look
  at the modelled rows: branch, request id, failure type, retry budget, mentioned paths.
- Row ids of memory facts and suggestions are chosen by the caller; an id in use is refused as
  the primary key refuses it. Text validation and hashing are parameters.
- The words of a request reach the scan already split, lowered and stripped, and recognised as file
  references or not; which paths are grounded is a parameter.

## What the proofs found

- A commit that fails after its gate was approved, and a chunk gate decided through the generic
  gate route, leave the chunk waiting for good: no later operation can move it and the run never
  reaches final approval. These are the only two ways (`StrandedChunks.StrandsIff`).
- A rejected chunk is lost, and so is a chunk that failed after its tests passed, unless it has a
  failure report and its newest gate is not approved: the passing checkpoint makes every resume
  block or raise before it, a retry demands a failed chunk with a report, and an approved gate
  turns the retry's pause away. Rejecting a review, approving one whose patch is gone and a driver
  commit that fails all end like this; `DeadChunks.DeadIff` names every such step. The one way out
  of a rejection takes another chunk of the run that is stranded.
- These and the stranded chunks are all that can close a run: a reachable run can still be brought
  to a pending final gate exactly if no chunk is stranded or dead and no final gate was decided
  (`FinalReach.FinalReachableIff`). The operations that bring it there assume helpful answers and a
  human who makes the tree clean for a pass and dirty, with the patch, for an approval.
- A final gate decided through the generic gate route freezes the run: it is never finally approved
  or rejected, refined or re-opened (`FinalReach.GenericFinalDecisionFreezes`).
- Resume's skip-complete of a tested chunk never fires in a reachable state, because every chunk
  with a commit is completed or waiting (`RunSafety.NeverSkips`).
- The last loop of the plan validator refuses nothing that the checks before it accept
  (`ChunkPlan.DependencyLoopIsRedundant`).
- A stored priority of 0, the strongest the store accepts, is read as 100.
- The websocket route replays first and subscribes afterwards; a client misses exactly what is
  published in between (`EventBus.Bus.StreamIsGaplessIff`).
- The bootstrap scan suggests declined content again; run outcomes never do.
- "only" is a filler of a file list as well as half of a cue, so in "update A and only modify B" it is
  swallowed by the first list and B is merely preferred (`FileMentions.OnlyInsideAListIsLost`).
- Path normalization is not idempotent, so reconciling a plan again can move a file, remove one
  and raise a risk, and a forbidden file can pass as a path that only a second normalization
  recognises. `SecondPass` has the exact condition for each, and a plan that meets none of them
  (`SecondPass.HiddenForbiddenFile`). In the program a plan is grounded before it is reconciled, so
  such a path gets that far only if its first normal form, "./a" there, is itself indexed or
  sanctioned.

## Model

| member | source | states |
|---|---|---|
| `ChunkPlan.ValidateChunk` | backend/models/chunk.py:32-49 | accepts a chunk iff its number is positive, all its dependencies lie below it and high risk comes with review |
| `ChunkPlan.ValidateTriage` | backend/models/chunk.py:61-85 | accepts a plan iff the count matches and the plan is numbered 1..N with backward-only dependencies |
| `ChunkPlan.DependencyLoopIsRedundant` | backend/models/chunk.py:75-83 | once every chunk passed its own validator and the numbers are 1..N, the dependency loop finds every dependency already seen, so it never rejects |
| `ApprovalGates.Newest` | backend/pipeline/approval_gate.py:100-141 | position of the newest gate of a kind, or -1 iff there is none |
| `ApprovalGates.NewestPending` | backend/pipeline/approval_gate.py:144-161 | position of the newest pending gate of a kind, or -1 iff none is pending |
| `ApprovalGates.OpenChunkGateKeeps` | backend/pipeline/approval_gate.py:164-232 | opening or reusing a chunk gate leaves exactly that chunk's newest gate pending, touches no other gate and keeps the discipline |
| `ApprovalGates.OpenFinalGateKeeps` | backend/pipeline/approval_gate.py:235-289 | opening or reusing the final gate leaves it pending, touches no other gate and keeps the discipline |
| `ApprovalGates.DecideKeeps` | backend/pipeline/approval_gate.py:810-868 | a guarded approve or reject never alters a decided gate and keeps the discipline |
| `ApprovalGates.SupersedeKeeps` | backend/pipeline/approval_gate.py:428-501 | superseding leaves no final gate pending and keeps the discipline |
| `ApprovalGates.PendingIsNewest` | backend/pipeline/approval_gate.py:112-161 | under the discipline a pending gate is the newest of its kind and the only pending one |
| `ApprovalGates.OneFinalDecision` | backend/pipeline/approval_gate.py:235-289 | of all final gates of a run at most one is not superseded, so at most one is ever approved or rejected |
| `AttemptLedger.MaxIsCount` | backend/pipeline/chunk_attempt_store.py:62-73 | in a well-numbered ledger MAX(attempt_number) of a chunk is the number of its rows |
| `AttemptLedger.AppendNumbered` | backend/pipeline/chunk_attempt_store.py:62-73 | appending with max+1 keeps the attempt numbers of every chunk exactly 1, 2, 3, ... |
| `AttemptLedger.LatestCompleted` | backend/pipeline/chunk_attempt_store.py:163-192 | position of the newest completed row, or -1 iff there is none |
| `AttemptLedger.LatestIsTip` | backend/pipeline/chunk_attempt_store.py:163-192 | when rows and commits correspond, the newest completed row holds the branch tip |
| `AttemptLedger.AppendOther` | backend/pipeline/chunk_attempt_store.py:42-141 | recording anything but a completion keeps rows and commits in correspondence |
| `AttemptLedger.AppendCompletion` | backend/pipeline/chunked_orchestrator.py:893-954 | a commit followed by its completed row keeps rows and commits in correspondence |
| `AttemptLedger.HighestIsTipIff` | backend/pipeline/chunk_attempt_store.py:163-192 | ordering by chunk number first would name the tip iff the newest commit is of the highest chunk committed |
| `ChunkDriver.DriveFrame` | backend/pipeline/chunk_driver.py:398-850 | a pass, whatever its stages do, touches no other chunk's row or gate and never shortens branch, ledger or gate table |
| `DriverTrace.AttemptTrace` | backend/pipeline/chunk_driver.py:557-723 | an attempt may be repeated iff it reached the tests and failed with a non-timeout harness error on a clean tree |
| `DriverTrace.LoopTrace` | backend/pipeline/chunk_driver.py:553-743 | the coder runs twice iff the first attempt is repeatable and the mode is not human, otherwise once; the repeat writes exactly one auto_retrying row |
| `DriverTrace.DriveTrace` | backend/pipeline/chunk_driver.py:398-1012 | every pass writes exactly one terminal row, of the status it ended with and under its own mode, preceded by one auto_retrying row iff the coder ran twice; it commits only with dependencies met and tests passed, and only an unreviewed chunk in a non-human mode |
| `DriverSafety.DriveInv` | backend/pipeline/chunk_driver.py:398-1012 | whatever any stage answers, fails or raises, a pass keeps the run invariant |
| `DriverSafety.CommittedMeansCompleted` | backend/pipeline/chunk_driver.py:817-850 | a pass that reports success leaves its chunk completed |
| `RunProgress.BrokenPass` | backend/pipeline/chunk_driver.py:340-394 | an ordinary pass that breaks leaves the chunk failed and the run failed or waiting for a scope decision; a failed attempt also leaves the report |
| `RunProgress.PausedPass` | backend/pipeline/chunk_driver.py:760-815 | a pass that pauses commits nothing, has the chunk wait at a pending gate with the tested patch in the tree, and leaves the marker of its kind |
| `RunProgress.CommittedPass` | backend/pipeline/chunk_driver.py:817-850 | a pass that commits appends one commit, saves that commit's summary, records it as HEAD of the completed row and opens no gate |
| `RunProgress.ApprovalMovesOn` | backend/pipeline/chunked_orchestrator.py:2295-2341 | a committing approval opens final approval iff no other chunk is outstanding, the commit left no files behind and final approval was not decided before; with other chunks outstanding it just moves on, otherwise it raises with the chunk committed and no final gate open |
| `RunProgress.ReportedFailureIsRetryable` | backend/pipeline/chunked_orchestrator.py:3108-3247 | after a reported failure on a clean tree, a retry, steer or scope retry that the door admits is never turned away |
| `PipelineStore.Store.constructor` | backend/models/chunk.py:52-85 | a fresh run is the start state of its plan |
| `PipelineStore.Store.RecordAttempt` | backend/pipeline/chunk_attempt_store.py:42-141 | appends one row numbered one above the chunk's highest, with HEAD as it is |
| `PipelineStore.Store.NewestGate` | backend/pipeline/approval_gate.py:100-141 | the backward scan finds the newest gate of a kind |
| `PipelineStore.Store.NewestPendingGate` | backend/pipeline/chunked_orchestrator.py:1402-1423 | the backward scan finds the newest pending gate of a kind |
| `PipelineStore.Store.AllChunksCompleted` | backend/pipeline/chunked_orchestrator.py:1027-1037 | true iff every chunk is completed |
| `PipelineStore.Store.ChunksWith` | backend/pipeline/chunked_orchestrator.py:436-450 | the chunk numbers with a wanted status, ascending, none missing |
| `PipelineStore.Store.StatusByNumber` | backend/pipeline/chunked_orchestrator.py:457-459 | the local status map has every chunk with the status of its row |
| `PipelineStore.Store.UnmetDependencies` | backend/pipeline/chunked_orchestrator.py:462-478 | over a local map in step with the rows: exactly the dependencies that are not completed |
| `PipelineStore.Store.CreateChunkGateAndMark` | backend/pipeline/approval_gate.py:332-391 | gate, chunk and run change together or, on a raise, not at all |
| `PipelineStore.Store.MarkAwaitingFinalApproval` | backend/pipeline/chunked_orchestrator.py:1058-1087 | opens final approval iff every chunk is completed, the tree is clean and no decided gate stands in the way; otherwise changes nothing |
| `PipelineStore.Store.SupersedeFinalGateAndMarkRun` | backend/pipeline/approval_gate.py:428-501 | row by row, all pending final gates become superseded and the run goes back to running chunks |
| `PipelineStore.Store.SettleRun` | backend/pipeline/chunked_orchestrator.py:3482-3522 | re-opens final approval if the refinement closed it, else restores the run status |
| `PipelineStore.Store.FinalizeFailedRefinement` | backend/pipeline/chunked_orchestrator.py:3525-3620 | the chunk stays completed with its summary; the run settles, or fails if the tree could not be cleaned |
| `PipelineStore.Store.FinalizeFailure` | backend/pipeline/chunk_driver.py:340-394 | a refinement restores its chunk, any other failure fails chunk and run, with a report where there is one |
| `PipelineStore.Store.CommitAndComplete` | backend/pipeline/chunked_orchestrator.py:833-890 | appends the commit, saves the summary of that very commit and completes the chunk |
| `PipelineStore.Store.RunStages` | backend/pipeline/chunk_driver.py:557-723 | code, preflight, apply and tests in order, with the tree each exit leaves behind |
| `PipelineStore.Store.AttemptUntilSettled` | backend/pipeline/chunk_driver.py:549-743 | the while-true loop ends, and where the recursive specification does, with the same rows and coder runs |
| `PipelineStore.Store.PauseForApproval` | backend/pipeline/chunked_orchestrator.py:758-798 | pauses with a pending gate and one awaiting row, or raises with nothing written |
| `PipelineStore.Store.FinishVerifiedAttempt` | backend/pipeline/chunk_driver.py:760-850 | refinement pause, recovered pause, review pause or commit, in that order of precedence |
| `PipelineStore.Store.DriveStages` | backend/pipeline/chunk_driver.py:398-850 | the stage sequence, with a raise passed on as it stands |
| `PipelineStore.Store.DriveChunk` | backend/pipeline/chunk_driver.py:853-1012 | the guard turns every raise into a failed or restored chunk |
| `PipelineStore.Store.ResumeSkipOrNone` | backend/pipeline/chunk_driver.py:284-337 | a tested chunk is skipped only with dependencies, commit and summary in place; otherwise blocked or raised |
| `PipelineStore.Store.DriveResumedChunk` | backend/pipeline/chunk_driver.py:922-956 | resume's checkpoint phase runs outside the guard |
| `PipelineStore.Store.OpenFinalApproval` | backend/pipeline/chunked_orchestrator.py:2075-2083 | final approval or a raise with nothing changed |
| `PipelineStore.Store.ExecuteApprovedChunks` | backend/pipeline/chunked_orchestrator.py:1976-2083 | the checks in their order, then the chunk loop |
| `PipelineStore.Store.ExecutePending` | backend/pipeline/chunked_orchestrator.py:2040-2073 | the loop with its own status map does what re-reading the rows every time would do |
| `PipelineStore.Store.ResetStaleRunningChunks` | backend/pipeline/chunked_orchestrator.py:1384-1399 | running chunks go back to pending, no other changes |
| `PipelineStore.Store.HeadMatchesLastAttempt` | backend/pipeline/chunked_orchestrator.py:1497-1525 | accepts iff there is no completed row or the newest one recorded today's HEAD |
| `PipelineStore.Store.ResumeChunkedPipeline` | backend/pipeline/chunked_orchestrator.py:2092-2198 | the checks of resume in their order, then the chunk loop |
| `PipelineStore.Store.ResumeChunks` | backend/pipeline/chunked_orchestrator.py:2154-2186 | the resume loop with its own status map does what re-reading the rows would do |
| `PipelineStore.Store.RestoreRefinedChunk` | backend/pipeline/chunked_orchestrator.py:2254-2286 | restore, then settle; a settle that raises keeps the restored chunk |
| `PipelineStore.Store.ApproveChunkAndCommit` | backend/pipeline/chunked_orchestrator.py:2207-2341 | no-op refinement, empty change, failed commit and commit, each with its writes |
| `PipelineStore.Store.RejectChunkAndRollback` | backend/pipeline/chunked_orchestrator.py:2350-2470 | rollback first, then the gate, then restore or reject |
| `PipelineStore.Store.RetryFailedChunk` | backend/pipeline/chunked_orchestrator.py:3108-3247 | eligibility, then one human pass |
| `PipelineStore.Store.CountHumanAttempts` | backend/pipeline/patch_failures.py:779-801 | counts the chunk's human rows that are not completions |
| `PipelineStore.Store.RefineCompletedChunk` | backend/pipeline/chunked_orchestrator.py:3623-3793 | eligibility and budget, supersede, then one pass that can restore everything |
| `PipelineStore.Store.Perform` | backend/pipeline/chunked_orchestrator.py:1976-3793 | every operation of the class is the step of the same name, so the class never leaves the reachable states |
| `Orchestrator.Select` | backend/pipeline/chunked_orchestrator.py:436-450 | the selection is ascending and contains exactly the chunks with a wanted status |
| `RunSafety.NeverSkips` | backend/pipeline/chunk_driver.py:284-337 | in reachable states resume's skip-complete never fires: no chunk it picks up has a commit |
| `RunSafety.ExecuteInv` | backend/pipeline/chunked_orchestrator.py:1976-2083 | execute keeps the invariant and takes nothing back |
| `RunSafety.ResumeInv` | backend/pipeline/chunked_orchestrator.py:2092-2198 | resume keeps the invariant and takes nothing back |
| `RunSafety.ApproveInv` | backend/pipeline/chunked_orchestrator.py:2207-2341 | approval keeps the invariant in all its branches |
| `RunSafety.RejectInvariant` | backend/pipeline/chunked_orchestrator.py:2350-2470 | rejection keeps the invariant in all its branches |
| `RunSafety.RetryInv` | backend/pipeline/chunked_orchestrator.py:3108-3247 | retries, steers and scope retries keep the invariant |
| `RunSafety.SupersededReady` | backend/pipeline/approval_gate.py:428-501 | superseding a pending final gate leaves a state from which it can be re-opened |
| `RunSafety.RefineInv` | backend/pipeline/chunked_orchestrator.py:3623-3793 | refinements keep the invariant in all their branches |
| `RunSafety.StartInv` | backend/models/chunk.py:52-85 | a valid plan starts in the invariant |
| `RunSafety.StepInv` | backend/pipeline/chunked_orchestrator.py:1976-3793 | every operation, with any answers, keeps the invariant and takes nothing recorded back |
| `RunSafety.RunInv` | backend/pipeline/chunked_orchestrator.py:1976-3793 | so does every sequence of operations |
| `RunTheorems.CommittedChunkNeverLost` | backend/pipeline/chunked_orchestrator.py:3525-3620 | a committed chunk is completed or awaiting approval after any further operations, its commits stay in place, and when completed its summary is that of its latest commit |
| `RunTheorems.CompletedMeansCommitted` | backend/pipeline/chunk_driver.py:307-337 | no path completes a chunk without a commit |
| `RunTheorems.HistoryRespectsDependencies` | backend/pipeline/chunked_orchestrator.py:462-478 | a chunk's first commit comes after the first commit of everything it depends on |
| `RunTheorems.GatesAgreeWithChunks` | backend/pipeline/approval_gate.py:332-501 | a pending final gate means all chunks are completed, a pending chunk gate means that chunk waits, and the two kinds are never pending together |
| `RunTheorems.GateLedgerDiscipline` | backend/pipeline/approval_gate.py:810-868 | over any run decided gates never change and only the newest gate of a kind can be open |
| `RunTheorems.LedgerTracksTip` | backend/pipeline/chunked_orchestrator.py:1497-1525 | resume's drift check accepts every state the pipeline made and, once there is a commit, refuses any other history with nothing changed |
| `RunTheorems.ChunkNumberOrderBreaksIff` | backend/pipeline/chunk_attempt_store.py:163-192 | ordering by chunk number would read a stale HEAD iff the newest commit is not of the highest committed chunk |
| `RunTheorems.RefinementBreaksChunkNumberOrder` | backend/pipeline/chunk_attempt_store.py:163-192 | an approved refinement of any chunk below the highest committed one makes that order fail, while the real order still reads HEAD |
| `RunTheorems.EveryReviewedCommitHasItsApproval` | backend/pipeline/chunked_orchestrator.py:2295-2303 | commits of reviewed chunks and of human attempts own pairwise different approved gates of their chunk; all others are driver commits of unreviewed chunks in non-human modes |
| `RunTheorems.StepCommitsAreLicensed` | backend/pipeline/chunked_orchestrator.py:2295-2303 | the gate a commit owns was still pending when the committing step began; retries, steers and refinements never commit |
| `RunTheorems.RejectedRefinementSettles` | backend/pipeline/chunked_orchestrator.py:2416-2457 | rejecting a waiting refinement restores summary and run, and final approval if it had been closed |
| `RunTheorems.NoOpRefinementSettles` | backend/pipeline/chunked_orchestrator.py:2254-2286 | approving a refinement that changed nothing does the same without a commit |
| `RunTheorems.PausedRefinementMarker` | backend/pipeline/chunked_orchestrator.py:3418-3479 | a paused refinement's marker holds the prior run status, whether final approval was closed and the committed summary |
| `RunTheorems.RefineThenRejectIsUndo` | backend/pipeline/chunked_orchestrator.py:2416-2457 | refine then reject is an undo: same commits, rows, run status and final approval as before |
| `RunTheorems.FailedRefinementIsUndo` | backend/pipeline/chunked_orchestrator.py:3525-3620 | a refinement that fails anywhere, with the tree brought back, is an undo as well |
| `RunTheorems.RefinementUsesBudget` | backend/pipeline/patch_failures.py:779-801 | every admitted refinement finds budget left and uses some of it |
| `RunTheorems.RefinementBudget` | backend/pipeline/patch_failures.py:804-866 | no run admits more refinements of a chunk than its human-attempt budget has left |
| `RunProgress.ExecuteStopsAtFirst` | backend/pipeline/chunked_orchestrator.py:2040-2083 | execute completes the pending chunks in order up to the first that fails or waits, and touches nothing behind it; final approval opens only with all completed |
| `RunProgress.ResumeStopsAtFirst` | backend/pipeline/chunked_orchestrator.py:2154-2198 | so does resume over the resumable chunks; it may also stop with an error before an unverifiable checkpoint |
| `RunProgress.BatchStopsAtFirst` | backend/pipeline/chunked_orchestrator.py:1976-2198 | the same for whole execute and resume calls whose checks pass |
| `OperationEffects.RefineTurnedAway` | backend/pipeline/chunked_orchestrator.py:3623-3793 | a refinement is turned away with nothing changed unless it is admitted and the chunk is completed, the run chunk-approved or at a pending final gate, the dependencies completed, the tree clean and fewer than two human rows are used up; otherwise its first new row is a steered one of that chunk |
| `OperationEffects.RefineEnds` | backend/pipeline/chunked_orchestrator.py:3525-3620 | an admitted refinement waits for approval iff planning and every stage pass; else commits, statuses and summaries are as before, and the run is where it was if the tree is clean, failed with final approval closed if it could not be cleaned |
| `OperationEffects.ExecuteChecked` | backend/pipeline/chunked_orchestrator.py:1976-2046 | every check of execute that is not clear, and a dirty tree, ends it with no row changed, each with its own run status and reply |
| `OperationEffects.ExecuteStarts` | backend/pipeline/chunked_orchestrator.py:2040-2073 | with clear checks and a clean tree the lowest pending chunk is driven first |
| `OperationEffects.NothingLeft` | backend/pipeline/chunked_orchestrator.py:2075-2083 | with nothing left to do execute and resume open final approval iff every chunk is completed and the final gate undecided; otherwise they raise with no row changed |
| `OperationEffects.ResumeChecked` | backend/pipeline/chunked_orchestrator.py:2092-2153 | so do the checks of resume, the pending gate of the lowest waiting chunk before the dirty tree |
| `OperationEffects.ResumeStarts` | backend/pipeline/chunked_orchestrator.py:2154-2186 | with clear checks resume begins with the lowest pending, failed or rejected chunk: an untested one is driven, a tested one failed for its dependencies or raised on |
| `OperationEffects.PassEnds` | backend/pipeline/chunk_driver.py:398-850 | how any ordinary pass ends by the answers of its stages: commit, pause or failure, with the tree, the summary, the report and the run status that go with it |
| `OperationEffects.RetryEffect` | backend/pipeline/chunked_orchestrator.py:3108-3247 | a retry is turned away with nothing changed unless it is admitted and the chunk failed with a report on a clean tree with its dependencies done, which a scope retry need not have; else it waits for approval iff the dependencies are done, the attempt passes and the newest gate is not approved, and it commits nothing |
| `OperationEffects.ApprovalTurnedAway` | backend/pipeline/chunked_orchestrator.py:2207-2253 | without a waiting chunk, its pending gate or its checkpoint, approve and reject raise with no row changed; a rejection may have cleaned the tree |
| `OperationEffects.ApproveEffect` | backend/pipeline/chunked_orchestrator.py:2254-2341 | approving decides that one gate, and then puts a refinement without change back, fails an ordinary chunk without patch, leaves the chunk waiting if the commit fails, or records commit, summary and completed row |
| `OperationEffects.RejectEffect` | backend/pipeline/chunked_orchestrator.py:2416-2470 | rejecting decides that one gate, cleans the tree and rejects the chunk and fails the run, or puts the refinement back |
| `OperationEffects.FinalDecisionEffect` | backend/routes/chunks.py:1164-1205 | an admitted final decision sets the pending final gate and the run to the same verdict and changes nothing else; any other raises with nothing changed |
| `OperationEffects.GateDecisionEffect` | backend/main.py:154-167 | the generic route sets one pending gate to the verdict asked for and nothing else |
| `OperationEffects.OtherDecisions` | backend/pipeline/chunked_orchestrator.py:1426-1480 | memory conflict, scope rejection and tree changes touch no row; the first two set the run status |
| `RunVerdicts.StepUndecided` | backend/routes/chunks.py:1164-1205 | no operation but the final decision makes a run finally approved or rejected, not even through the status a refinement remembers |
| `RunVerdicts.FinalVerdictIsTheGates` | backend/routes/chunks.py:1164-1205 | in every reachable state a finally approved run has an approved final gate and no rejected one, and the other way round |
| `DeadChunks.ReachableCheckpoints` | backend/checkpoint/checkpoint_store.py:135-168 | in reachable states a pending chunk has no passing test checkpoint, and one that waits, was rejected, is completed or ever had a gate has one |
| `DeadChunks.PassSigns` | backend/pipeline/chunk_driver.py:398-850 | an ordinary pass leaves its chunk dead iff it was dead before, or its tests passed without a human, it needs no review and no report is left, and then there was nothing to commit or the commit failed |
| `DeadChunks.ResumeDrivesIff` | backend/pipeline/chunk_driver.py:307-337 | in reachable states resume drives a queued chunk iff it has no passing test checkpoint; any other it only blocks, with unmet dependencies, or raises on, committing nothing |
| `DeadChunks.ExecuteFollows` | backend/pipeline/chunked_orchestrator.py:2040-2073 | a chunk is dead after an execute iff it was before, or the loop gets to it and the pass there kills it |
| `DeadChunks.ResumeFollows` | backend/pipeline/chunked_orchestrator.py:2154-2186 | a chunk is dead after a resume iff it was before and the loop did not fail it as a rejected chunk with a report over an unmet dependency, or the loop gets to it untested and the pass there kills it |
| `DeadChunks.DeadIff` | backend/pipeline/chunked_orchestrator.py:1976-3793 | a chunk is dead after a step (rejected, or failed after passing tests with no report or with its newest gate approved) iff it was before and was not revived, or the step rejects its ordinary pause, approves one without a patch, or drives a pass that kills it; human attempts and refinements kill nobody |
| `DeadChunks.RevivesStranded` | backend/pipeline/chunked_orchestrator.py:2092-2186 | a rejected chunk is revived only in a run in which another chunk is stranded |
| `DeadChunks.DeadForever` | backend/pipeline/chunked_orchestrator.py:1544-1562 | after any later operations a dead chunk is still dead and uncommitted unless some chunk of the run is stranded, and one that had failed is so in any case |
| `DeadChunks.KilledForever` | backend/pipeline/chunked_orchestrator.py:1544-1562 | so every step that kills a chunk in a reachable state does so for good, or until a chunk is stranded |
| `DeadChunks.RejectedIsDead` | backend/pipeline/chunked_orchestrator.py:2459-2470 | rejecting an ordinary pause cleans the tree, keeps the branch, fails the run and leaves the chunk dead, with or without the report of an earlier failure |
| `DeadChunks.ApprovedWithoutPatchIsDead` | backend/pipeline/chunked_orchestrator.py:2287-2303 | approving an ordinary pause whose patch is gone fails the chunk for good: after any later operations it is failed, dead and uncommitted |
| `DeadChunks.FreshRejectionIsDead` | backend/pipeline/chunked_orchestrator.py:2459-2470 | a first attempt that reaches its review pause and is rejected ends in a dead chunk |
| `DeadChunks.FailedDriverCommitIsDead` | backend/pipeline/chunked_orchestrator.py:833-890 | so does the first attempt of an unreviewed chunk whose tests pass and whose commit fails |
| `FinalReach.VerdictIff` | backend/pipeline/chunked_orchestrator.py:1426-1480 | a final gate becomes approved or rejected exactly when the final-approval route or the generic gate route decides a pending one |
| `FinalReach.ShutIff` | backend/pipeline/chunked_orchestrator.py:1976-3793 | a run is shut (a chunk stranded or dead, or a final gate decided) after a step iff it was before or the step strands a chunk, kills one or decides a pending final gate |
| `FinalReach.ShutForever` | backend/pipeline/chunked_orchestrator.py:1058-1087 | after any later operations a shut run has no pending final gate |
| `FinalReach.CommitNext` | backend/pipeline/chunked_orchestrator.py:2092-2198 | in a run that is not shut, with nothing waiting and everything before it completed, some operations commit the next chunk and leave the run not shut |
| `FinalReach.SettleWaiting` | backend/pipeline/chunked_orchestrator.py:2207-2341 | in a run that is not shut, some operations commit every waiting chunk and leave the run not shut |
| `FinalReach.CanFinish` | backend/pipeline/chunked_orchestrator.py:1976-3793 | some operations bring any run that is not shut to a pending final gate |
| `FinalReach.FinalReachableIff` | backend/pipeline/chunked_orchestrator.py:1976-3793 | a reachable run can still reach a pending final gate iff none of its chunks is stranded or dead and no final gate was approved or rejected |
| `FinalReach.FrozenForever` | backend/pipeline/chunked_orchestrator.py:3623-3793 | once all chunks are completed, the final gate is decided and the run status is not chunk_approved, no later operation changes a chunk, a gate, the branch or the ledger, or finally decides the run |
| `FinalReach.GenericFinalDecisionFreezes` | backend/main.py:154-167 | deciding a pending final gate through the generic route leaves the run status as it was and freezes the run in that way |
| `StrandedChunks.DriveStrands` | backend/pipeline/chunked_orchestrator.py:758-798 | a pass never leaves a chunk waiting without a pending gate |
| `StrandedChunks.ApproveStrands` | backend/pipeline/chunked_orchestrator.py:2295-2303 | an approval strands its chunk iff the commit fails after the gate was approved |
| `StrandedChunks.StrandsIff` | backend/pipeline/chunked_orchestrator.py:2295-2303 | a step strands a chunk iff it is such an approval or a generic decision of the chunk's pending gate |
| `StrandedChunks.StrandedForever` | backend/pipeline/chunked_orchestrator.py:1426-1480 | a stranded chunk waits through every later operation and its run never reaches final approval |
| `StrandedChunks.FailedCommitStrands` | backend/pipeline/chunked_orchestrator.py:2295-2303 | from every reachable state in which a chunk waits with its patch in the tree, a failing commit strands it for good |
| `Levenshtein.LengthBound` | backend/pipeline/implementation_guard.py:275-276 | the difference in length is a lower bound of the distance |
| `Levenshtein.OneEdit` | backend/pipeline/implementation_guard.py:278-296 | one insertion, deletion or substitution anywhere moves the distance by at most one |
| `Levenshtein.ScriptIsLongEnough` | backend/pipeline/implementation_guard.py:268-296 | no edit script is shorter than the recursive distance |
| `Levenshtein.Script` | backend/pipeline/implementation_guard.py:268-296 | some edit script is exactly as long as the recursive distance |
| `Levenshtein.DistanceIsShortest` | backend/pipeline/implementation_guard.py:268-296 | a script of at most k edits exists iff the recursive distance is at most k |
| `Levenshtein.CellStep` | backend/pipeline/implementation_guard.py:284-291 | the table recurrence computes the recursive distance of prefixes |
| `Levenshtein.NextRowAbove` | backend/pipeline/implementation_guard.py:292-294 | a row wholly above the bound keeps the next row above it |
| `Levenshtein.AboveToTheEnd` | backend/pipeline/implementation_guard.py:292-296 | so the early exit on the row minimum is safe |
| `Levenshtein.LevenshteinWithin` | backend/pipeline/implementation_guard.py:268-296 | returns true iff an edit script of at most max_distance single-character edits exists, for all strings and all integers |
| `Levenshtein.IsVagueWord` | backend/pipeline/implementation_guard.py:299-319 | a token is vague iff generic, or unprotected, at least four characters long and within its edit budget of a target |
| `Levenshtein.TranspositionIsTwoEdits` | backend/pipeline/implementation_guard.py:268-296 | two swapped neighbours are within two edits |
| `Levenshtein.Triangle` | backend/pipeline/implementation_guard.py:268-296 | edit distances obey the triangle inequality |
| `EventBus.GetBuffered` | backend/events/event_bus.py:59-67 | the page behind the first event with the cursor's id, or the whole buffer |
| `EventBus.PollIsSuffix` | backend/events/event_bus.py:59-67 | a poll with the id at log position p returns the log from max(p+1, n-500) on |
| `EventBus.RepeatedPolls` | backend/events/event_bus.py:59-67 | polling again with the last id repeats nothing and misses exactly the evicted events |
| `EventBus.Queue.constructor` | backend/events/event_bus.py:72-72 | an empty queue of the run that remembers where its log stood |
| `EventBus.Bus.constructor` | backend/events/event_bus.py:19-20 | no buffers and no subscribers |
| `EventBus.Queue.PutNowait` | backend/events/event_bus.py:33-35 | appends iff fewer than 200 events wait |
| `EventBus.OfferAll` | backend/events/event_bus.py:31-37 | every queue of the set is offered the event once; the full ones are returned |
| `EventBus.Bus.StoreEvent` | backend/events/event_bus.py:19-24 | the buffer is the last 500 of what it was plus the event |
| `EventBus.Bus.FanoutEvent` | backend/events/event_bus.py:27-43 | the run's queues get the event or, if full, leave the subscriber set; other runs are untouched |
| `EventBus.Bus.Publish` | backend/events/event_bus.py:46-56 | buffers stay the last 500 events of each log and queues contiguous blocks of it, complete while registered; dropped queues stay frozen |
| `EventBus.Bus.GetBufferedEvents` | backend/events/event_bus.py:59-67 | the poll over the last 500 events of the run's log |
| `EventBus.Bus.Subscribe` | backend/events/event_bus.py:71-75 | a fresh, empty, registered queue that starts at the log's end |
| `EventBus.Bus.Unsubscribe` | backend/events/event_bus.py:76-79 | removes this queue only and drops an empty set |
| `EventBus.Bus.Take` | backend/routes/ws_events.py:94-108 | takes the oldest waiting event and nothing else |
| `EventBus.Bus.ClientSeesNoGap` | backend/events/event_bus.py:27-79 | consumed plus waiting events are a contiguous block of the log, and reach its end while the queue is registered |
| `EventBus.Bus.StreamIsGaplessIff` | backend/routes/ws_events.py:83-108 | a page polled at one length of the log, followed by what a live queue was given, is the log from the cursor (or from the oldest buffered event) iff the queue subscribed at that same length; otherwise exactly what was published in between is missing |
| `EventBus.Bus.LiveSubscribersAgree` | backend/events/event_bus.py:27-79 | two live subscribers of a run agree on everything since the later one came |
| `MemoryFacts.FactInserted` | backend/memory/memory_store.py:430-503 | inserting an active fact without active duplicate keeps the invariant |
| `MemoryFacts.FactEdited` | backend/memory/memory_store.py:870-946 | updates, archiving and staling keep the invariant and change no pointer |
| `MemoryFacts.Superseded` | backend/memory/memory_store.py:777-842 | supersession keeps the pointer order: the new fact is active and so points nowhere yet |
| `MemoryFacts.FlagStaleInv` | backend/memory/memory_store.py:949-977 | the sweep only turns active facts stale |
| `MemoryFacts.BootstrapInv` | backend/memory/bootstrap.py:347-381 | a bootstrap scan keeps the invariant |
| `MemoryFacts.StepInv` | backend/memory/memory_store.py:430-977 | every memory operation keeps the invariant and takes nothing back |
| `MemoryFacts.RunInv` | backend/memory/memory_store.py:430-977 | so does every sequence of operations |
| `MemoryTheorems.ActiveFacts` | backend/memory/memory_store.py:773-842 | is_stale is 0 iff active, active facts have no pointer, pointers stay in the project, and a hash is active at most once per project |
| `MemoryTheorems.InactiveForGood` | backend/memory/memory_store.py:633-755 | a fact that left active never returns, a pointer once set never changes, no fact is deleted or moved |
| `MemoryTheorems.SupersessionTerminates` | backend/memory/memory_store.py:777-842 | following superseded_by_fact_id from any fact ends, inside its project, at an unsuperseded fact |
| `MemoryTheorems.SupersessionIsAcyclic` | backend/memory/memory_store.py:777-842 | no chain of supersessions passes a fact twice |
| `MemoryTheorems.ApproveAndSupersedeIsAtomic` | backend/memory/bootstrap.py:518-564 | exactly when approve-and-supersede succeeds, what it then changes, and that otherwise it changes nothing |
| `MemoryTheorems.SameContentNeverSupersedes` | backend/memory/bootstrap.py:404-441 | a fact can never be superseded by its own content, because the duplicate check runs while the old one is active |
| `MemoryTheorems.AcceptedSuggestionsOwnTheirFact` | backend/memory/bootstrap.py:404-468 | accepted suggestions name pairwise different facts of their project |
| `MemoryTheorems.DeclinedStaysOut` | backend/memory/bootstrap.py:257-295 | content once declined is suppressed by every later run-outcome suggestion |
| `MemoryTheorems.BootstrapRevivesIff` | backend/memory/bootstrap.py:347-381 | the bootstrap scan brings declined content back iff nothing with that hash is active or waiting |
| `MemoryStore.Store.constructor` | backend/memory/memory_store.py:430-503 | starts with empty tables |
| `MemoryStore.Store.InsertFactRow` | backend/memory/memory_store.py:430-503 | inserts iff no active duplicate and a new id |
| `MemoryStore.Store.UpdateFactRow` | backend/memory/memory_store.py:870-946 | field by field, after the duplicate check against active facts |
| `MemoryStore.Store.InsertSuggestionRow` | backend/memory/bootstrap.py:225-254 | inserts under the unique index on waiting suggestions |
| `MemoryStore.Store.InsertPendingSuggestion` | backend/memory/bootstrap.py:257-344 | suppressed by active, waiting, declined and same-run content |
| `MemoryStore.Store.GenerateBootstrapSuggestions` | backend/memory/bootstrap.py:347-381 | the loop with its set of seen hashes inserts what the specification inserts and reports exactly the ids that are new in the table, none twice |
| `MemoryStore.Store.ApproveInTransaction` | backend/memory/bootstrap.py:404-468 | validates, inserts the fact and accepts the suggestion, or does neither |
| `MemoryStore.Store.ApproveSuggestionAndSupersede` | backend/memory/bootstrap.py:518-564 | rolled back to the old rows whenever either step refuses |
| `MemoryStore.Store.Perform` | backend/memory/memory_store.py:430-977 | every operation of the class is the step of the same name, so the class never leaves the reachable tables |
| `StableSort.SortedIsOrdered` | backend/memory/prompt_builder.py:512-514 | sorting puts rows in key order |
| `StableSort.SortedIsStable` | backend/memory/prompt_builder.py:280-280 | rows with equal keys keep their order |
| `StableSort.SortedIsCanonical` | backend/memory/prompt_builder.py:512-514 | rows with different keys sort to the same list whatever order they came in |
| `PromptMemory.FindSignal` | backend/memory/prompt_builder.py:241-252 | true iff some fact has a path, token or index signal |
| `PromptMemory.SplitBySignal` | backend/memory/prompt_builder.py:292-299 | kept and omitted are the rows with and without a signal, in order |
| `PromptMemory.PartitionRelevanceRows` | backend/memory/prompt_builder.py:213-299 | the early returns, the scoring loop, the sort, the grace threshold and the partition loop |
| `PromptMemory.RenderMandatory` | backend/memory/prompt_builder.py:538-546 | renders every mandatory row and counts its cost with separators |
| `PromptMemory.FillBudget` | backend/memory/prompt_builder.py:554-569 | the greedy loop over the relevance tier with its running token count |
| `PromptMemory.BuildProjectMemoryBlock` | backend/memory/prompt_builder.py:502-575 | tiering, omission, mandatory rendering, overflow check and greedy fill |
| `PromptTheorems.GreedyConserves` | backend/memory/prompt_builder.py:554-569 | the greedy tier loses and adds nothing and keeps the mandatory tier in front |
| `PromptTheorems.DroppedNeverFits` | backend/memory/prompt_builder.py:554-569 | a dropped candidate would not fit behind the final block either |
| `PromptTheorems.SignalFirst` | backend/memory/prompt_builder.py:260-280 | a fact with a signal sorts strictly before one without, with and without index scores |
| `PromptTheorems.OmissionTruncatesSuffix` | backend/memory/prompt_builder.py:213-299 | kept rows are a prefix of the full relevance order, omitted rows the rest: those without a signal, and only when omission is active |
| `PromptTheorems.NothingOmitted` | backend/memory/prompt_builder.py:229-290 | nothing is omitted with the switch off, at or below the grace size, without a request or without any signal |
| `PromptTheorems.SelectionConserves` | backend/memory/prompt_builder.py:502-575 | every active fact lands in exactly one of included, budget-dropped, not-relevant and category-excluded |
| `PromptTheorems.BudgetRespected` | backend/memory/prompt_builder.py:538-569 | the error is raised iff the mandatory tier alone overflows; used tokens are line costs plus separators and within budget |
| `PromptTheorems.NoDroppedFactFits` | backend/memory/prompt_builder.py:554-569 | no budget-dropped fact would fit in the final leftover |
| `PromptTheorems.MandatoryTierIsFixed` | backend/memory/prompt_builder.py:155-174 | the mandatory lines open the block, in the same order for every request, score map and budget |
| `PromptTheorems.SafetyIsNeverDropped` | backend/memory/prompt_builder.py:60-126 | for every role, a security or forbidden_paths fact is in the block or there is no block |
| `PromptTheorems.FtsOnlyReorders` | backend/memory/prompt_builder.py:260-299 | with room for everything, to the token, and omission off, index scores change neither the mandatory tier nor the included set |
| `PromptTheorems.EverythingFitsIff` | backend/memory/prompt_builder.py:502-575 | with omission off nothing is dropped iff the budget covers all line costs and the separators between them |
| `PromptTheorems.PriorityZeroIsWeak` | backend/memory/prompt_builder.py:155-187 | a stored priority 0 reads as 100: it is never pinned and sorts behind priorities 1 to 99 |
| `PromptTheorems.RowOrderIsIrrelevant` | backend/memory/prompt_builder.py:512-514 | the selection does not depend on the order in which the database returns rows with different keys |
| `MemoryIndex.ActiveRows` | backend/memory/memory_retriever.py:58-67 | exactly the project's active, non-stale facts |
| `MemoryIndex.RetrieveDeterministic` | backend/memory/memory_retriever.py:48-80 | the active facts split by the role's categories, in table order |
| `MemoryIndex.RebuildIsExact` | backend/memory/memory_fts.py:33-80 | after a rebuild the project's index rows are its active facts, other projects are untouched, and a second rebuild changes nothing |
| `MemoryIndex.RebuiltHitsAreCurrent` | backend/memory/memory_fts.py:33-80 | right after a rebuild every hit names an active fact with its current hash |
| `MemoryIndex.AddScore` | backend/memory/memory_fts.py:160-175 | raises exactly this fact's score by the row's and no other's; every hit there was keeps its fact and hash, and a new one takes the row's hash |
| `MemoryIndex.AddToken` | backend/memory/memory_fts.py:150-175 | one token raises each fact's score by the sum over its matching rows and misses no matching row |
| `MemoryIndex.RankIndex` | backend/memory/memory_fts.py:119-180 | hits are distinct, come from the project's index rows, miss no matching row, each carries the sum over all tokens and all matching rows of its fact, and no fact with a non-zero sum is without a hit |
| `MemoryIndex.RetrieveWithIndex` | backend/memory/memory_retriever.py:94-146 | for any hits whatever: same rows as without the index, scores only for candidates vouched for by a hit with their hash, and for all of these |
| `MemoryIndex.BuildThroughIndex` | backend/memory/prompt_builder.py:474-575 | for any index contents the block is one of the deterministic candidates, with scores that are positive, the summed ones, and there for every fact whose index rows are current and sum to more than nothing |
| `FileMentions.Tokenize` | backend/pipeline/file_scope_intent.py:95-108 | the line loop yields the tokens of all lines without leading markers |
| `FileMentions.MarkerIsInvisibleIff` | backend/pipeline/file_scope_intent.py:88-108 | adding a marker to a line changes no token iff the line is not marked already |
| `FileMentions.MatchCue` | backend/pipeline/file_scope_intent.py:144-193 | a cue takes at least one token, all of them cue words, and never yields the uncertain role; which role, LeadIff says |
| `FileMentions.LeadIff` | backend/pipeline/file_scope_intent.py:144-193 | which spelled words lead to which role and how many of them the cue takes: do not, dont, doesnt, wont, without, never with or without a verb, and except forbid; similar to, look at, based on, refer to, as in, like and see refer; only next to a verb allows; a verb alone prefers |
| `FileMentions.ListedIff` | backend/pipeline/file_scope_intent.py:196-231 | a file is collected behind a cue iff at most three fillers lead to a first file and nothing but files, connectors and fillers lies between that and it |
| `FileMentions.ClearIsReached` | backend/pipeline/file_scope_intent.py:252-262 | the scan gets to every forbidding and referring cue, and to every other one that opens the text or follows a plain word |
| `FileMentions.CollectEnd` | backend/pipeline/file_scope_intent.py:196-231 | the list ends before the first token that is neither a file nor glue, and never in front of a file |
| `FileMentions.CollectFiles` | backend/pipeline/file_scope_intent.py:196-231 | the collecting loop gives the cue's role to exactly the file tokens of the list |
| `FileMentions.ScanCovers` | backend/pipeline/file_scope_intent.py:252-262 | the scan mentions every file token outside cue words exactly once, in order |
| `FileMentions.ExtractUserFileConstraints` | backend/pipeline/file_scope_intent.py:234-275 | a path is in a bucket iff that is the highest role among all its mentions; no bucket repeats a path; a file listed behind a forbidding cue is forbidden, one behind another clear cue is in its bucket or one of more authority, and nothing is in a bucket but the uncertain one without standing on such a list |
| `FileMentions.EveryFileIsClassified` | backend/pipeline/file_scope_intent.py:264-275 | every file token outside cue words ends in exactly one bucket |
| `FileMentions.ForbiddenWins` | backend/pipeline/file_scope_intent.py:72-79 | one forbidding mention outweighs all others |
| `FileMentions.CueGovernsItsList` | backend/pipeline/file_scope_intent.py:196-231 | a leading cue governs every file of the list behind it |
| `RepoPath.NormalizeTwiceIff` | backend/pipeline/plan_path_grounding.py:66-83 | a second normalization changes nothing iff the first left no surrounding space and no leading ./ |
| `RepoPath.HiddenDotSlash` | backend/pipeline/plan_path_grounding.py:66-83 | a ./ behind a leading backslash survives the first normalization |
| `RepoPath.NormalizeIsNotIdempotent` | backend/pipeline/plan_path_grounding.py:66-83 | the concrete path for which two passes differ from one |
| `ScopeReconcile.DedupeItems` | backend/pipeline/file_scope_intent.py:283-290 | first occurrences in order, without empty entries |
| `ScopeReconcile.ReconcileOne` | backend/pipeline/file_scope_intent.py:404-482 | forbidden removal, allowlist seed or cap, preferred additions, prose check and hardening of one chunk |
| `ScopeReconcile.ReconcileFileScope` | backend/pipeline/file_scope_intent.py:351-501 | the loops over the plan and the final check for allowed files no chunk has |
| `ScopeReconcile.ReconciledScopeIsSafe` | backend/pipeline/file_scope_intent.py:407-477 | no chunk lists a path of the forbidden set; under an allowlist every chunk is within its grounded entries, equal in a single-chunk plan; otherwise only grounded requested files of a single-chunk plan are added |
| `ScopeReconcile.ReconciledPlanIsValid` | backend/pipeline/file_scope_intent.py:324-348 | numbers and dependencies are kept, review and risk only rise, and a valid plan stays valid |
| `SecondPass.ListedIs` | backend/pipeline/file_scope_intent.py:407-477 | a path is listed after the first pass iff it is the normal form of a surviving planned file, a requested file of a single chunk, or an entry of the allowlist that seeded it |
| `SecondPass.SameFilesIff` | backend/pipeline/file_scope_intent.py:407-477 | as a set, the files of a chunk that was not seeded survive a second pass iff no listed path moves out of the list and every surviving planned file that was not requested is what some listed path moves to |
| `SecondPass.PassIsRising` | backend/pipeline/file_scope_intent.py:407-477 | a pass lists its files in the order of the first listed paths that move to them, with the added ones behind, in the order of the requests |
| `SecondPass.FilesStableIff` | backend/pipeline/file_scope_intent.py:407-477 | normalizing and reconciling one chunk's files again changes nothing iff they were seeded; or every surviving planned file is its own normal form after one normalization; or, where a requested file is not its own normal form, the set stays and the list stands in that order |
| `SecondPass.SecondPassKeepsFilesIff` | backend/pipeline/file_scope_intent.py:351-501 | the same for every chunk of a plan reconciled twice, whatever the prose has become |
| `SecondPass.ForbiddenPathRemainsIff` | backend/pipeline/file_scope_intent.py:407-423 | a chunk keeps a path that normalizes to a forbidden one iff the incoming lists hold a path that needs two normalizations to get there |
| `SecondPass.HardensAgainIff` | backend/pipeline/file_scope_intent.py:415-445 | a chunk the first pass did not harden is hardened by a second iff it lists a path whose normal form is forbidden or outside the allowlist |
| `SecondPass.EntryFixed` | backend/pipeline/file_scope_intent.py:484-499 | if every allowed path is the normal form of an allowed path, none of them can move |
| `SecondPass.NothingMissingAgain` | backend/pipeline/file_scope_intent.py:484-499 | so a second pass never finds an allowed file missing that the first one did not |
| `SecondPass.SecondPassKeepsRiskIff` | backend/pipeline/file_scope_intent.py:351-501 | a second pass keeps a chunk's risk iff it was high, the first pass raised it, or no path it lists breaks out when normalized again |
| `SecondPass.HiddenForbiddenFile` | backend/pipeline/file_scope_intent.py:407-423 | the concrete plan and index in which a forbidden file passes unrecognised at low risk and only a second pass removes it and raises the risk |
| `SecondPass.RequestIsPutBack` | backend/pipeline/file_scope_intent.py:447-455 | the concrete request that is dropped and put back in its place, so that the files are stable though one of them would move |
| `FileMentions.OnlyInsideAListIsLost` | backend/pipeline/file_scope_intent.py:196-231 | in 'update A and only modify B' the word only is swallowed as a filler, so B is preferred instead of allowed |
| `ScopeOutcome.ReconciledFilesIff` | backend/pipeline/file_scope_intent.py:391-477 | which files each chunk of the reconciled plan has, by the plan's count, the user's lists and what is grounded: the grounded allowlist in a single-chunk plan with one; otherwise the planned files that are not forbidden and not outside the allowlist, with the grounded requested files added in a single-chunk plan only |
| `ScopeOutcome.NothingAddedToLongerPlans` | backend/pipeline/file_scope_intent.py:429-455 | unless total and chunks are both one, every file of a chunk is the normal form of one of its planned files |
| `ScopeOutcome.ReconciledFlags` | backend/pipeline/file_scope_intent.py:415-499 | the flags of each chunk exactly: high risk and review iff a forbidden or extra file was taken out, or, on the first chunk, an allowed file is unknown or, in a longer plan, in no chunk; review alone iff its text names a file nobody has in scope |
| `MemoryEffects.AddEffect` | backend/memory/memory_store.py:430-503 | a fact is added, active, iff it is valid, its id new and its content not active in the project |
| `MemoryEffects.RetireEffect` | backend/memory/memory_store.py:633-755 | archiving and staling take any fact of the project whatever its status and set status and flag only |
| `MemoryEffects.SweepEffect` | backend/memory/memory_store.py:949-977 | the sweep stales exactly the active facts of the project created before the cutoff |
| `MemoryEffects.SweepIsComplete` | backend/memory/memory_store.py:949-977 | after it no active fact of the project is that old, all other active facts are still there, and a second sweep changes nothing |
| `MemoryEffects.SupersedeEffect` | backend/memory/memory_store.py:777-842 | supersession goes through iff both are different active facts of the project, and then changes the old one only |
| `MemoryEffects.UpdateEffect` | backend/memory/memory_store.py:870-946 | an update goes through iff it names something valid, the fact is in the project and no other active fact has the new content; it sets exactly what it names |
| `MemoryEffects.SuggestEffect` | backend/memory/bootstrap.py:257-344 | a run outcome is suggested iff it is valid and new by id, and its content neither active, waiting, declined nor suggested by the same run |
| `MemoryEffects.ApproveEffect` | backend/memory/bootstrap.py:404-468 | a waiting suggestion is approved iff valid, with a new fact id and content not active; fact and suggestion change together |
| `MemoryEffects.DeclineEffect` | backend/memory/bootstrap.py:567-602 | only a waiting suggestion of the project is declined, and only with a valid reason |
| `PromptTheorems.TierMembers` | backend/memory/prompt_builder.py:155-174 | which facts are in the mandatory tier and which are optional: safety categories, and under omission priorities up to 10, are mandatory |
| `PromptTheorems.OmittedIff` | backend/memory/prompt_builder.py:213-299 | exactly which facts are left out as not relevant: under omission and with a request, optional facts that do not answer to it, when some optional fact does and there are more than twelve |
| `PromptOrder.RankIsPlace` | backend/memory/prompt_builder.py:136-146 | categories rank in the order of the role's list, the reviewer's with its preferences directly behind the safety facts; anything unknown ranks with other |
| `PromptOrder.MemoryOrder` | backend/memory/prompt_builder.py:148-187 | one fact sorts before another iff it does by category, scope, priority and age, in this order |
| `PromptOrder.BlockOrder` | backend/memory/prompt_builder.py:502-546 | the mandatory lines of every block stand in that order |
| `PromptOrder.RequestOrder` | backend/memory/prompt_builder.py:260-280 | without index scores a request sorts by shared path words, then token overlap, then that order |
| `PromptOrder.ScoredOrder` | backend/memory/prompt_builder.py:260-280 | with index scores the sum of path words, overlap and score comes first |
| `OperationEffects.HumanRowsAreCounted` | backend/pipeline/patch_failures.py:779-801 | the budget counts the chunk's retried and steered rows that are not completions |
| `PromptOrder.Audience` | backend/memory/prompt_builder.py:60-125 | which roles see which category, category by category; safety facts and tests are for everyone |
| `PromptOrder.LineTokens` | backend/memory/prompt_builder.py:128-130 | a rendered line costs a quarter of its characters, rounded up |
| `RepoPath.NormalizeIsSafe` | backend/pipeline/plan_path_grounding.py:66-83 | a normalized path never climbs up, is relative and has forward slashes only, and an absolute path is refused; a settled relative path without backslashes is kept as it is unless it climbs up |
| `MemoryEffects.BootstrapEffect` | backend/memory/bootstrap.py:347-381 | the bootstrap scan suggests a candidate iff it is valid and new by id, no candidate before it had its content, and that is neither an active fact nor waiting; every other one leaves the tables alone |

## Left out

- Calls that overlap on one project: execute, resume, approve and reject read the plan before they take the lock, and nothing is claimed about races.
- Crashes inside an operation and startup recovery.
- Model calls, prompts, retry sleeps, HTTP handling, Git and SQL themselves: they are the answers and the atomic row updates above.
- The internals of the patch applier, the test runner, the scope guard, the review stage (which never changes a row) and the scope-expansion store.
- Memory-conflict gate rows and their signatures: only the run status they set is modelled. Their number is not limited, since a changed signature opens a second gate.
- The timeout of a gate: it belongs to the older pre-merge approval, not to chunk or final gates.
- Run step labels, status events, pull-request creation, index refresh and verification disclosures: written, but never read back by the modelled decisions.
- The HEAD comparison in the restore after a failed refinement: it only logs.
- RunSafety.RetryInv: the per-report retry budget of failed chunks is part of `admitted`; only the ledger budget of refinements is counted.
- EventBus.Bus.Publish: subscribers that fail with something other than a full queue, and errors swallowed by publish, are not modelled.
- EventBus.PollIsSuffix: takes event ids to be distinct, as generated ids are; `GetBuffered` states what happens for any ids.
- Verification stamps on facts (`verify_fact`), listing queries, the sweep of facts without a project and `load_hard_facts`, a simpler greedy fill without tiers.
- Redaction, content-safety patterns, detection rules, quality scores and schema migrations: flat rule tables.
- PromptTheorems.FtsOnlyReorders: with a binding budget or with omission on, scores do change which relevance facts are included; the mandatory tier stays fixed in every case.
- PromptMemory.BuildProjectMemoryBlock: the rendered header and footer text and the display order of excluded entries are not modelled; token counts are those of the fact lines.
- MemoryIndex.RankIndex: the final sort of the hits is not modelled, since the retriever does not depend on it; a failing query, which returns no hits, is the empty token list.
- Scores and overlaps are exact rationals; rounding of floating-point sums is not modelled.
- FileMentions.ExtractUserFileConstraints: buckets are in order of first mention; the alphabetical sort of each bucket is not modelled. Splitting text into lines and words, lowering and the recognition of file references are not modelled.
- FileMentions.EveryFileIsClassified: a token that is both a file reference and a cue word would be taken by the cue; the token classes keep the two apart.
- ScopeReconcile.ReconcileFileScope: the wording of the notes is not modelled; since notes feed the prose check of a second pass, review flags may rise again and only files and risk are stable.
- ScopeReconcile.ReconciledScopeIsSafe: speaks of the listed path itself, because a path that becomes forbidden only when normalized once more does remain; `SecondPass.ForbiddenPathRemainsIff` says exactly when.
- RepoPath.NormalizeTwiceIff: whitespace is ASCII whitespace, NEL and the no-break space.
