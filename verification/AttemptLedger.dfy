/** The append-only attempt ledger of one run and the run branch it describes
    (backend/pipeline/chunk_attempt_store.py). */
module AttemptLedger {

  datatype EntryMode = Fresh | Resume | AutoRetry | HumanRetry | Steered

  /** How a commit came about: by the driver itself, or by the approval of a chunk gate. */
  datatype Origin = ByDriver(mode: EntryMode) | ByApproval(gate: int)

  datatype Commit = Commit(chunk: int, origin: Origin)

  /** The run branch since its base, oldest commit first. A Git commit id fixes the whole
      history behind it, so the id of HEAD is modelled as the history itself. */
  type History = seq<Commit>

  datatype RowStatus = AutoRetrying | AttemptFailed | AttemptAwaiting | AttemptCompleted | AttemptSkipped

  datatype Row = Row(chunk: int, attempt: nat, mode: EntryMode, status: RowStatus, head: History)

  // ----- commits of a chunk --------------------------------------------------------

  function LastCommit(history: History, n: int): (i: int)
    ensures -1 <= i < |history|
    ensures i >= 0 ==> history[i].chunk == n
    ensures forall j :: i < j < |history| ==> history[j].chunk != n
  {
    if history == [] then -1
    else if history[|history| - 1].chunk == n then |history| - 1
    else LastCommit(history[..|history| - 1], n)
  }

  function FirstCommit(history: History, n: int): (i: int)
    ensures -1 <= i < |history|
    ensures i >= 0 ==> history[i].chunk == n
    ensures forall j :: 0 <= j < |history| && (i < 0 || j < i) ==> history[j].chunk != n
  {
    if history == [] then -1
    else
      var f := FirstCommit(history[..|history| - 1], n);
      if f >= 0 then f
      else if history[|history| - 1].chunk == n then |history| - 1
      else -1
  }

  predicate Committed(history: History, n: int) {
    LastCommit(history, n) >= 0
  }

  lemma CommitAppended(history: History, c: Commit, n: int)
    ensures LastCommit(history + [c], n) == if c.chunk == n then |history| else LastCommit(history, n)
  {
    assert (history + [c])[..|history|] == history;
  }

  // ----- rows ----------------------------------------------------------------------

  /** COALESCE(MAX(attempt_number), 0) over the rows of one chunk. */
  function MaxAttempt(ledger: seq<Row>, n: int): nat {
    if ledger == [] then 0
    else
      var m := MaxAttempt(ledger[..|ledger| - 1], n);
      var last := ledger[|ledger| - 1];
      if last.chunk == n && last.attempt > m then last.attempt else m
  }

  function Append(ledger: seq<Row>, n: int, mode: EntryMode, status: RowStatus, head: History): seq<Row> {
    ledger + [Row(n, MaxAttempt(ledger, n) + 1, mode, status, head)]
  }

  function RowCount(ledger: seq<Row>, n: int): nat {
    if ledger == [] then 0
    else RowCount(ledger[..|ledger| - 1], n) + (if ledger[|ledger| - 1].chunk == n then 1 else 0)
  }

  /** The attempt numbers of every chunk are exactly 1, 2, 3, ... in ledger order. */
  predicate Numbered(ledger: seq<Row>) {
    forall i :: 0 <= i < |ledger| ==> ledger[i].attempt == RowCount(ledger[..i], ledger[i].chunk) + 1
  }

  lemma {:induction false} MaxIsCount(ledger: seq<Row>, n: int)
    requires Numbered(ledger)
    ensures MaxAttempt(ledger, n) == RowCount(ledger, n)
  {
    if ledger != [] {
      var front := ledger[..|ledger| - 1];
      forall i | 0 <= i < |front| ensures front[i].attempt == RowCount(front[..i], front[i].chunk) + 1 {
        assert front[..i] == ledger[..i];
      }
      MaxIsCount(front, n);
    }
  }

  lemma AppendNumbered(ledger: seq<Row>, n: int, mode: EntryMode, status: RowStatus, head: History)
    requires Numbered(ledger)
    ensures Numbered(Append(ledger, n, mode, status, head))
  {
    MaxIsCount(ledger, n);
    var r := Append(ledger, n, mode, status, head);
    forall i | 0 <= i < |r| ensures r[i].attempt == RowCount(r[..i], r[i].chunk) + 1 {
      assert r[..i] == ledger[..i];
      assert ledger[..|ledger|] == ledger;
    }
  }

  /** The newest completed row by creation time, or -1: what resume compares HEAD with. */
  function LatestCompleted(ledger: seq<Row>): (i: int)
    ensures -1 <= i < |ledger|
    ensures i >= 0 ==> ledger[i].status == AttemptCompleted
    ensures forall j :: i < j < |ledger| ==> ledger[j].status != AttemptCompleted
  {
    if ledger == [] then -1
    else if ledger[|ledger| - 1].status == AttemptCompleted then |ledger| - 1
    else LatestCompleted(ledger[..|ledger| - 1])
  }

  /** The row an ORDER BY chunk_number DESC, created_at DESC would pick instead, or -1. */
  function HighestCompleted(ledger: seq<Row>): (i: int)
    ensures -1 <= i < |ledger|
    ensures i >= 0 ==> ledger[i].status == AttemptCompleted
    ensures forall j :: 0 <= j < |ledger| && ledger[j].status == AttemptCompleted ==>
              i >= 0 && (ledger[j].chunk < ledger[i].chunk || (ledger[j].chunk == ledger[i].chunk && j <= i))
  {
    if ledger == [] then -1
    else
      var last := ledger[|ledger| - 1];
      var i := HighestCompleted(ledger[..|ledger| - 1]);
      if last.status == AttemptCompleted && (i < 0 || last.chunk >= ledger[i].chunk) then |ledger| - 1 else i
  }

  /** A completed row records the commit it made: HEAD as it then was, ending in that
      chunk's commit and still a prefix of the branch; later rows record later HEADs. */
  predicate RowsTrackCommits(ledger: seq<Row>, history: History) {
    && (forall i :: 0 <= i < |ledger| && ledger[i].status == AttemptCompleted ==>
          && 0 < |ledger[i].head| <= |history|
          && ledger[i].head == history[..|ledger[i].head|]
          && ledger[i].head[|ledger[i].head| - 1].chunk == ledger[i].chunk)
    && (forall i, j ::
          0 <= i < j < |ledger| && ledger[i].status == AttemptCompleted && ledger[j].status == AttemptCompleted ==>
          |ledger[i].head| < |ledger[j].head|)
  }

  /** Every commit of the branch has its completed row. */
  predicate CommitsHaveRows(ledger: seq<Row>, history: History) {
    forall k :: 0 <= k < |history| ==> HasRow(ledger, history, k)
  }

  predicate HasRow(ledger: seq<Row>, history: History, k: int)
    requires 0 <= k < |history|
  {
    exists i :: 0 <= i < |ledger| && ledger[i].status == AttemptCompleted && ledger[i].head == history[..k + 1]
  }

  predicate LedgerTracks(ledger: seq<Row>, history: History) {
    Numbered(ledger) && RowsTrackCommits(ledger, history) && CommitsHaveRows(ledger, history)
  }

  /** Resume's drift guard: no completed row, or the newest one recorded today's HEAD. */
  predicate DriftGuardAccepts(ledger: seq<Row>, history: History) {
    var i := LatestCompleted(ledger);
    i >= 0 ==> ledger[i].head == history
  }

  /** The newest completed row holds the branch tip as soon as there is any commit. */
  lemma LatestIsTip(ledger: seq<Row>, history: History)
    requires RowsTrackCommits(ledger, history) && CommitsHaveRows(ledger, history)
    ensures var i := LatestCompleted(ledger);
            if history == [] then i == -1 else i >= 0 && ledger[i].head == history
  {
    var i := LatestCompleted(ledger);
    if history != [] {
      var k := |history| - 1;
      assert HasRow(ledger, history, k);
      var t :| 0 <= t < |ledger| && ledger[t].status == AttemptCompleted && ledger[t].head == history[..k + 1];
      assert history[..k + 1] == history;
      assert t <= i && |ledger[i].head| <= |history| == |ledger[t].head|;
    }
  }

  /** Recording any attempt that is not a completion keeps the ledger in step. */
  lemma AppendOther(ledger: seq<Row>, history: History, n: int, mode: EntryMode, status: RowStatus)
    requires LedgerTracks(ledger, history)
    requires status != AttemptCompleted
    ensures LedgerTracks(Append(ledger, n, mode, status, history), history)
  {
    hide Numbered, MaxAttempt;
    AppendNumbered(ledger, n, mode, status, history);
    var r := Append(ledger, n, mode, status, history);
    forall k | 0 <= k < |history| ensures HasRow(r, history, k) {
      assert HasRow(ledger, history, k);
      var i :| 0 <= i < |ledger| && ledger[i].status == AttemptCompleted && ledger[i].head == history[..k + 1];
      assert r[i] == ledger[i];
    }
  }

  /** A commit followed by its completed row keeps the ledger in step. */
  lemma AppendCompletion(ledger: seq<Row>, history: History, c: Commit, mode: EntryMode)
    requires LedgerTracks(ledger, history)
    ensures LedgerTracks(Append(ledger, c.chunk, mode, AttemptCompleted, history + [c]), history + [c])
  {
    AppendNumbered(ledger, c.chunk, mode, AttemptCompleted, history + [c]);
    CompletionRows(ledger, history, c, Append(ledger, c.chunk, mode, AttemptCompleted, history + [c]));
    CompletionCovers(ledger, history, c, Append(ledger, c.chunk, mode, AttemptCompleted, history + [c]));
  }

  lemma CompletionRows(ledger: seq<Row>, history: History, c: Commit, r: seq<Row>)
    requires RowsTrackCommits(ledger, history)
    requires |r| == |ledger| + 1 && r[..|ledger|] == ledger
    requires r[|ledger|].status == AttemptCompleted && r[|ledger|].chunk == c.chunk
    requires r[|ledger|].head == history + [c]
    ensures RowsTrackCommits(r, history + [c])
  {
    var h := history + [c];
    assert h[..|h|] == h;
    forall i | 0 <= i < |ledger| ensures r[i] == ledger[i] {
      assert r[i] == r[..|ledger|][i];
    }
    forall i | 0 <= i < |ledger| && ledger[i].status == AttemptCompleted
      ensures ledger[i].head == h[..|ledger[i].head|]
    {
      assert h[..|ledger[i].head|] == history[..|ledger[i].head|];
    }
  }

  lemma CompletionCovers(ledger: seq<Row>, history: History, c: Commit, r: seq<Row>)
    requires CommitsHaveRows(ledger, history)
    requires |r| == |ledger| + 1 && r[..|ledger|] == ledger
    requires r[|ledger|].status == AttemptCompleted && r[|ledger|].head == history + [c]
    ensures CommitsHaveRows(r, history + [c])
  {
    var h := history + [c];
    forall k | 0 <= k < |h| ensures HasRow(r, h, k) {
      if k == |history| {
        assert h[..k + 1] == h;
        assert r[|ledger|].head == h[..k + 1];
      } else {
        assert HasRow(ledger, history, k);
        var i :| 0 <= i < |ledger| && ledger[i].status == AttemptCompleted && ledger[i].head == history[..k + 1];
        assert h[..k + 1] == history[..k + 1];
        assert r[i] == r[..|ledger|][i];
      }
    }
  }

  /** Exactly when picking the highest chunk number first would still name the branch tip:
      when the newest commit belongs to the highest chunk ever committed. */
  lemma HighestIsTipIff(ledger: seq<Row>, history: History)
    requires RowsTrackCommits(ledger, history) && CommitsHaveRows(ledger, history)
    requires history != []
    ensures var i := HighestCompleted(ledger);
            && i >= 0
            && (ledger[i].head == history <==>
                forall k :: 0 <= k < |history| ==> history[k].chunk <= history[|history| - 1].chunk)
  {
    hide HighestCompleted, LatestCompleted, RowsTrackCommits, CommitsHaveRows;
    LatestIsTip(ledger, history);
    if forall k :: 0 <= k < |history| ==> history[k].chunk <= history[|history| - 1].chunk {
      NewestIsHighest(ledger, history);
    } else {
      var k :| 0 <= k < |history| && history[k].chunk > history[|history| - 1].chunk;
      HigherIsNotTip(ledger, history, k);
    }
  }

  lemma NewestIsHighest(ledger: seq<Row>, history: History)
    requires RowsTrackCommits(ledger, history) && CommitsHaveRows(ledger, history)
    requires history != [] && forall k :: 0 <= k < |history| ==> history[k].chunk <= history[|history| - 1].chunk
    ensures var i := HighestCompleted(ledger); i >= 0 && ledger[i].head == history
  {
    LatestIsTip(ledger, history);
    var i, t := HighestCompleted(ledger), LatestCompleted(ledger);
    assert ledger[t].chunk == history[|history| - 1].chunk;
    var p := |ledger[i].head| - 1;
    assert history[p].chunk == ledger[i].head[p].chunk;
  }

  lemma HigherIsNotTip(ledger: seq<Row>, history: History, k: nat)
    requires RowsTrackCommits(ledger, history) && CommitsHaveRows(ledger, history)
    requires k < |history| && history[k].chunk > history[|history| - 1].chunk
    ensures var i := HighestCompleted(ledger); i >= 0 && ledger[i].head != history
  {
    hide HighestCompleted, CommitsHaveRows;
    var j := RowOfCommit(ledger, history, k);
    assert HighestCompleted(ledger) >= 0 && ledger[HighestCompleted(ledger)].chunk >= ledger[j].chunk;
  }

  lemma RowOfCommit(ledger: seq<Row>, history: History, k: nat) returns (j: nat)
    requires RowsTrackCommits(ledger, history) && CommitsHaveRows(ledger, history) && k < |history|
    ensures j < |ledger| && ledger[j].status == AttemptCompleted && ledger[j].chunk == history[k].chunk
  {
    assert HasRow(ledger, history, k);
    j :| 0 <= j < |ledger| && ledger[j].status == AttemptCompleted && ledger[j].head == history[..k + 1];
  }
}
