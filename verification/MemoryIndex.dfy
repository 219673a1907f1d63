/** Candidate retrieval and the derived full-text index, which may only reorder
    (backend/memory/memory_retriever.py, backend/memory/memory_fts.py). */
module MemoryIndex {
  import opened Wrappers
  import opened StableSort
  import opened PromptMemory
  import opened PromptTheorems
  import MemoryFacts

  /** A row of memory_facts. */
  datatype Stored = Stored(row: Row, project: string, status: MemoryFacts.FactStatus, isStale: bool)

  predicate ActiveIn(s: Stored, project: string) {
    s.project == project && !s.isStale && s.status == MemoryFacts.Active
  }

  /** The active rows of a project, in table order. */
  function ActiveRows(table: seq<Stored>, project: string): (r: seq<Row>)
    ensures forall row :: row in r <==>
              exists i :: 0 <= i < |table| && table[i].row == row && table[i].project == project
                          && table[i].status == MemoryFacts.Active && !table[i].isStale
  {
    if table == [] then []
    else
      var front, last := table[..|table| - 1], table[|table| - 1];
      var r := ActiveRows(front, project);
      assert forall i :: 0 <= i < |front| ==> front[i] == table[i];
      if ActiveIn(last, project) then
        assert table[|table| - 1].row == last.row;
        r + [last.row]
      else r
  }

  datatype Candidates = Candidates(inPolicy: seq<Row>, outOfPolicy: seq<Row>, scores: Scores)

  /** The deterministic retriever: active rows, split by the role's categories. */
  method RetrieveDeterministic(table: seq<Stored>, project: string, p: Policy) returns (c: Candidates)
    ensures var rows := ActiveRows(table, project);
            c == Candidates(Filter(rows, InPolicy(p)), Filter(rows, Not(InPolicy(p))), map[])
  {
    var rows := ActiveRows(table, project);
    var inPolicy: seq<Row>, outOfPolicy: seq<Row> := [], [];
    for i := 0 to |rows|
      invariant inPolicy == Filter(rows[..i], InPolicy(p))
      invariant outOfPolicy == Filter(rows[..i], Not(InPolicy(p)))
    {
      FilterStep(rows, i, InPolicy(p));
      FilterStep(rows, i, Not(InPolicy(p)));
      if Category(rows[i]) in RoleCategories(p.role) {
        inPolicy := inPolicy + [rows[i]];
      } else {
        outOfPolicy := outOfPolicy + [rows[i]];
      }
    }
    assert rows[..|rows|] == rows;
    c := Candidates(inPolicy, outOfPolicy, map[]);
  }

  // ----- the index --------------------------------------------------------------------------

  datatype IndexRow = IndexRow(factId: string, project: string, hash: string, content: string)

  datatype Hit = Hit(factId: string, hash: string, score: real)

  predicate OfProject(r: IndexRow, project: string) {
    r.project == project
  }

  function Foreign(project: string): IndexRow -> bool {
    (r: IndexRow) => !OfProject(r, project)
  }

  function Own(project: string): IndexRow -> bool {
    (r: IndexRow) => OfProject(r, project)
  }

  function IndexOfFacts(rows: seq<Row>, project: string): (r: seq<IndexRow>)
    ensures |r| == |rows|
    ensures forall i :: 0 <= i < |rows| ==> r[i] == IndexRow(rows[i].id, project, rows[i].hash, rows[i].content)
  {
    seq(|rows|, i requires 0 <= i < |rows| => IndexRow(rows[i].id, project, rows[i].hash, rows[i].content))
  }

  /** Delete the project's index rows and insert its active facts again. */
  function Rebuild(index: seq<IndexRow>, table: seq<Stored>, project: string): seq<IndexRow> {
    Filter(index, Foreign(project)) + IndexOfFacts(ActiveRows(table, project), project)
  }

  lemma {:induction false} FilterAppend<T(!new)>(a: seq<T>, b: seq<T>, keep: T -> bool)
    ensures Filter(a + b, keep) == Filter(a, keep) + Filter(b, keep)
    decreases |b|
  {
    if b == [] {
      assert a + b == a;
    } else {
      var front := b[..|b| - 1];
      assert (a + b)[..|a + b| - 1] == a + front;
      FilterAppend(a, front, keep);
    }
  }

  /** After a rebuild the project's index rows are exactly its active facts, the rows of other
      projects are untouched, and rebuilding again changes nothing. */
  lemma RebuildIsExact(index: seq<IndexRow>, table: seq<Stored>, project: string)
    ensures var r := Rebuild(index, table, project);
            && Filter(r, Own(project)) == IndexOfFacts(ActiveRows(table, project), project)
            && Filter(r, Foreign(project)) == Filter(index, Foreign(project))
            && Rebuild(r, table, project) == r
  {
    hide Filter;
    var kept, rebuilt := Filter(index, Foreign(project)), IndexOfFacts(ActiveRows(table, project), project);
    FilterAppend(kept, rebuilt, Own(project));
    FilterAppend(kept, rebuilt, Foreign(project));
    FilterAll(kept, Own(project));
    FilterAll(kept, Foreign(project));
    FilterAll(rebuilt, Own(project));
    FilterAll(rebuilt, Foreign(project));
  }

  // ----- ranking ------------------------------------------------------------------------------

  /** Some hit comes from this index row. */
  predicate HitFor(hits: seq<Hit>, id: string) {
    exists k :: 0 <= k < |hits| && hits[k].factId == id
  }

  predicate FromIndex(hit: Hit, index: seq<IndexRow>, project: string) {
    exists i :: 0 <= i < |index| && OfProject(index[i], project) && index[i].factId == hit.factId
        && index[i].hash == hit.hash
  }

  ghost predicate RankOk(hits: seq<Hit>, index: seq<IndexRow>, project: string) {
    && (forall j, k :: 0 <= j < k < |hits| ==> hits[j].factId != hits[k].factId)
    && (forall k :: 0 <= k < |hits| ==> FromIndex(hits[k], index, project))
  }

  /** Right after a rebuild every hit names an active fact with its current hash. */
  lemma RebuiltHitsAreCurrent(index: seq<IndexRow>, table: seq<Stored>, project: string, hit: Hit)
    requires FromIndex(hit, Rebuild(index, table, project), project)
    ensures exists row :: row in ActiveRows(table, project) && row.id == hit.factId && row.hash == hit.hash
  {
    hide Filter;
    var r, rows := Rebuild(index, table, project), ActiveRows(table, project);
    var kept := Filter(index, Foreign(project));
    var i :| 0 <= i < |r| && OfProject(r[i], project) && r[i].factId == hit.factId && r[i].hash == hit.hash;
    assert forall k :: 0 <= k < |kept| ==> kept[k] in kept && Foreign(project)(kept[k]) && r[k] == kept[k];
    var row := rows[i - |kept|];
    assert row in rows && row.id == hit.factId && row.hash == hit.hash;
  }

  /** The score collected for a fact so far. */
  function ScoreOf(hits: seq<Hit>, id: string): real {
    if hits == [] then 0.0
    else if hits[|hits| - 1].factId == id then hits[|hits| - 1].score
    else ScoreOf(hits[..|hits| - 1], id)
  }

  lemma {:induction false} ScoreAt(hits: seq<Hit>, k: nat)
    requires k < |hits| && forall i, j :: 0 <= i < j < |hits| ==> hits[i].factId != hits[j].factId
    ensures ScoreOf(hits, hits[k].factId) == hits[k].score
    decreases |hits|
  {
    if k < |hits| - 1 {
      ScoreAt(hits[..|hits| - 1], k);
    }
  }

  lemma {:induction false} ScoreOfNone(hits: seq<Hit>, id: string)
    requires forall k :: 0 <= k < |hits| ==> hits[k].factId != id
    ensures ScoreOf(hits, id) == 0.0
    decreases |hits|
  {
    if hits != [] {
      ScoreOfNone(hits[..|hits| - 1], id);
    }
  }

  lemma {:induction false} ScoreElsewhere(hits: seq<Hit>, k: nat, hit: Hit, id: string)
    requires k < |hits| && hit.factId == hits[k].factId && id != hit.factId
    ensures ScoreOf(hits[k := hit], id) == ScoreOf(hits, id)
    decreases |hits|
  {
    if k < |hits| - 1 {
      ScoreElsewhere(hits[..|hits| - 1], k, hit, id);
      assert hits[k := hit][..|hits| - 1] == hits[..|hits| - 1][k := hit];
    } else {
      assert hits[k := hit][..|hits| - 1] == hits[..|hits| - 1];
    }
  }

  /** `more` has the score of `id` raised, and every hit there was keeps its fact and hash; a new
      one is last and has the row's hash. */
  ghost predicate Raised(hits: seq<Hit>, more: seq<Hit>, id: string, hash: string, score: real) {
    && (forall other :: ScoreOf(more, other) == ScoreOf(hits, other) + if other == id then score else 0.0)
    && |hits| <= |more| && (forall k :: 0 <= k < |hits| ==>
        more[k].factId == hits[k].factId && more[k].hash == hits[k].hash)
    && (if HitFor(hits, id) then |more| == |hits| else |more| == |hits| + 1 && more[|hits|] == Hit(id, hash, score))
  }

  lemma RaisedInPlace(hits: seq<Hit>, k: nat, id: string, hash: string, score: real)
    requires k < |hits| && hits[k].factId == id && forall i, j :: 0 <= i < j < |hits| ==>
               hits[i].factId != hits[j].factId
    ensures Raised(hits, hits[k := hits[k].(score := hits[k].score + score)], id, hash, score)
  {
    var hit := hits[k].(score := hits[k].score + score);
    forall other ensures ScoreOf(hits[k := hit], other) == ScoreOf(hits, other) + if other == id then score else 0.0 {
      if other == id {
        ScoreAt(hits, k);
        ScoreAt(hits[k := hit], k);
      } else {
        ScoreElsewhere(hits, k, hit, other);
      }
    }
  }

  lemma RaisedAtEnd(hits: seq<Hit>, id: string, hash: string, score: real)
    requires !HitFor(hits, id)
    ensures Raised(hits, hits + [Hit(id, hash, score)], id, hash, score)
  {
    ScoreOfNone(hits, id);
    assert (hits + [Hit(id, hash, score)])[..|hits|] == hits;
  }

  /** Add one row's score to its fact's hit; the first row seen for a fact fixes the hash. */
  method AddScore(hits: seq<Hit>, r: IndexRow, score: real, ghost index: seq<IndexRow>, ghost project: string)
    returns (more: seq<Hit>)
    requires RankOk(hits, index, project) && r in index && OfProject(r, project)
    ensures RankOk(more, index, project)
    ensures Raised(hits, more, r.factId, r.hash, score)
  {
    for k := 0 to |hits|
      invariant forall j :: 0 <= j < k ==> hits[j].factId != r.factId
    {
      if hits[k].factId == r.factId {
        more := hits[k := hits[k].(score := hits[k].score + score)];
        RaisedInPlace(hits, k, r.factId, r.hash, score);
        forall j | 0 <= j < |more| ensures FromIndex(more[j], index, project) {
          assert FromIndex(hits[j], index, project);
        }
        return;
      }
    }
    more := hits + [Hit(r.factId, r.hash, score)];
    RaisedAtEnd(hits, r.factId, r.hash, score);
    forall j | 0 <= j < |more| ensures FromIndex(more[j], index, project) {
      assert j < |hits| ==> FromIndex(hits[j], index, project);
    }
  }

  lemma RaisedHits(hits: seq<Hit>, more: seq<Hit>, id: string, hash: string, score: real)
    requires Raised(hits, more, id, hash, score)
    ensures HitFor(more, id) && forall other :: HitFor(hits, other) ==> HitFor(more, other)
  {
    forall other | HitFor(hits, other) ensures HitFor(more, other) {
      var k :| 0 <= k < |hits| && hits[k].factId == other;
      assert more[k].factId == other;
    }
  }

  predicate Matches(r: IndexRow, project: string, token: string, score: (IndexRow, string) -> Option<real>) {
    OfProject(r, project) && score(r, token).Some?
  }

  /** What the rows of one fact score for one token. */
  function TokenScore(index: seq<IndexRow>, project: string, token: string, score: (IndexRow,
          string) -> Option<real>, id: string): real {
    if index == [] then 0.0
    else
      var last := index[|index| - 1];
      TokenScore(index[..|index| - 1], project, token, score, id) +
      if Matches(last, project, token, score) && last.factId == id then score(last, token).value else 0.0
  }

  /** And for all tokens. */
  function TotalScore(index: seq<IndexRow>, project: string, tokens: seq<string>, score: (IndexRow,
          string) -> Option<real>, id: string): real {
    if tokens == [] then 0.0
    else
      TotalScore(index, project, tokens[..|tokens| - 1], score, id)
      + TokenScore(index, project, tokens[|tokens| - 1], score, id)
  }

  lemma TokenStep(index: seq<IndexRow>, i: nat, project: string, token: string,
      score: (IndexRow, string) -> Option<real>)
    requires i < |index|
    ensures forall id :: TokenScore(index[..i + 1], project, token, score, id) ==
              TokenScore(index[..i], project, token, score, id) +
              if Matches(index[i], project, token, score) && index[i].factId == id then score(index[i], token).value
                  else 0.0
  {
    assert index[..i + 1][..i] == index[..i];
  }

  lemma TotalStep(index: seq<IndexRow>, project: string, tokens: seq<string>, t: nat, score: (IndexRow,
          string) -> Option<real>)
    requires t < |tokens|
    ensures forall id :: TotalScore(index, project, tokens[..t + 1], score, id) ==
              TotalScore(index, project, tokens[..t], score, id) + TokenScore(index, project, tokens[t], score, id)
  {
    assert tokens[..t + 1][..t] == tokens[..t];
  }

  /** Probe the index for one token. */
  method AddToken(index: seq<IndexRow>, project: string, token: string, score: (IndexRow, string) -> Option<real>,
          before: seq<Hit>)
    returns (hits: seq<Hit>)
    requires RankOk(before, index, project)
    ensures RankOk(hits, index, project)
    ensures forall id :: ScoreOf(hits, id) == ScoreOf(before, id) + TokenScore(index, project, token, score, id)
    ensures forall id :: HitFor(before, id) ==> HitFor(hits, id)
    ensures forall r :: r in index && Matches(r, project, token, score) ==> HitFor(hits, r.factId)
  {
    hide RankOk, ScoreOf, TokenScore, Matches, HitFor, Raised;
    hits := before;
    TokenNone(project, token, score);
    for i := 0 to |index|
      invariant RankOk(hits, index, project)
      invariant forall id :: ScoreOf(hits, id) == ScoreOf(before, id) +
                  TokenScore(index[..i], project, token, score, id)
      invariant forall id :: HitFor(before, id) ==> HitFor(hits, id)
      invariant forall j :: 0 <= j < i && Matches(index[j], project, token, score) ==> HitFor(hits, index[j].factId)
    {
      TokenStep(index, i, project, token, score);
      var matched := score(index[i], token);
      MatchesIff(index[i], project, token, score);
      if OfProject(index[i], project) && matched.Some? {
        ghost var was := hits;
        hits := AddScore(hits, index[i], matched.value, index, project);
        RaisedScores(was, hits, index[i].factId, index[i].hash, matched.value);
        RaisedHits(was, hits, index[i].factId, index[i].hash, matched.value);
      }
    }
    assert index[..|index|] == index;
  }

  lemma TokenNone(project: string, token: string, score: (IndexRow, string) -> Option<real>)
    ensures forall index: seq<IndexRow>, id :: TokenScore(index[..0], project, token, score, id) == 0.0
  {}

  lemma MatchesIff(r: IndexRow, project: string, token: string, score: (IndexRow, string) -> Option<real>)
    ensures Matches(r, project, token, score) <==> OfProject(r, project) && score(r, token).Some?
  {}

  lemma RaisedScores(hits: seq<Hit>, more: seq<Hit>, id: string, hash: string, score: real)
    requires Raised(hits, more, id, hash, score)
    ensures forall other :: ScoreOf(more, other) == ScoreOf(hits, other) + if other == id then score else 0.0
  {}

  /** Probe the index once per query token and add up the scores. `score`: the engine's
      answer for one row and one token, None where they do not match. */
  method RankIndex(index: seq<IndexRow>, project: string, tokens: seq<string>, score: (IndexRow,
          string) -> Option<real>)
    returns (hits: seq<Hit>)
    ensures RankOk(hits, index, project)
    ensures forall k :: 0 <= k < |hits| ==> hits[k].score == TotalScore(index, project, tokens, score, hits[k].factId)
    ensures forall id :: TotalScore(index, project, tokens, score, id) != 0.0 ==> HitFor(hits, id)
    ensures forall r, token :: r in index && token in tokens && Matches(r, project, token, score) ==>
              HitFor(hits, r.factId)
  {
    hide ScoreOf, TotalScore, TokenScore, Matches, HitFor;
    hits := [];
    NoScores(index, project, tokens, score);
    for t := 0 to |tokens|
      invariant RankOk(hits, index, project)
      invariant forall id :: ScoreOf(hits, id) == TotalScore(index, project, tokens[..t], score, id)
      invariant forall r, token :: r in index && token in tokens[..t] && Matches(r, project, token, score) ==>
                  HitFor(hits, r.factId)
    {
      TotalStep(index, project, tokens, t, score);
      hits := AddToken(index, project, tokens[t], score, hits);
    }
    assert tokens[..|tokens|] == tokens;
    forall k | 0 <= k < |hits| ensures hits[k].score == TotalScore(index, project, tokens, score, hits[k].factId) {
      ScoreAt(hits, k);
    }
    forall id | !HitFor(hits, id) ensures TotalScore(index, project, tokens, score, id) == 0.0 {
      NoHitNoScore(hits, id);
    }
  }

  lemma NoHitNoScore(hits: seq<Hit>, id: string)
    requires !HitFor(hits, id)
    ensures ScoreOf(hits, id) == 0.0
  {
    ScoreOfNone(hits, id);
  }

  lemma NoScores(index: seq<IndexRow>, project: string, tokens: seq<string>, score: (IndexRow, string) -> Option<real>)
    ensures forall id :: ScoreOf([], id) == 0.0 == TotalScore(index, project, tokens[..0], score, id)
  {}

  /** The index-backed retriever: the same rows, plus scores for hits that name a candidate
      with its current hash. */
  method RetrieveWithIndex(base: Candidates, hits: seq<Hit>) returns (c: Candidates)
    ensures c.inPolicy == base.inPolicy && c.outOfPolicy == base.outOfPolicy
    ensures forall id :: id in c.scores ==>
              id in base.scores ||
              exists k, row :: 0 <= k < |hits| && row in base.inPolicy + base.outOfPolicy
                  && Vouches(hits[k], row, id, c.scores[id])
    ensures Positive(base.scores) ==> Positive(c.scores)
    ensures UniqueIds(base.inPolicy + base.outOfPolicy) ==>
              forall k, row :: 0 <= k < |hits| && row in base.inPolicy + base.outOfPolicy && Current(hits[k], row) ==>
                row.id in c.scores
  {
    var canonical := base.inPolicy + base.outOfPolicy;
    var scores: Scores := map[];
    for k := 0 to |hits|
      invariant Positive(scores)
      invariant forall id :: id in scores ==>
                  exists j, row :: 0 <= j < |hits| && row in canonical && Vouches(hits[j], row, id, scores[id])
      invariant UniqueIds(canonical) ==>
                  forall j, row :: 0 <= j < k && row in canonical && Current(hits[j], row) ==> row.id in scores
    {
      var row := LastWithId(canonical, hits[k].factId);
      if row.None? || row.value.hash != hits[k].hash || hits[k].score <= 0.0 {
        continue;
      }
      assert Vouches(hits[k], row.value, hits[k].factId, hits[k].score);
      scores := scores[hits[k].factId := hits[k].score];
    }
    if scores == map[] {
      return base;
    }
    c := Candidates(base.inPolicy, base.outOfPolicy, scores);
  }

  predicate UniqueIds(rows: seq<Row>) {
    forall a, b :: a in rows && b in rows && a.id == b.id ==> a == b
  }

  predicate Current(hit: Hit, row: Row) {
    hit.factId == row.id && hit.hash == row.hash && hit.score > 0.0
  }

  /** This hit and this candidate are why the fact has its score. */
  predicate Vouches(hit: Hit, row: Row, id: string, score: real) {
    hit.factId == row.id == id && hit.hash == row.hash && hit.score == score > 0.0
  }

  /** The dictionary from ids to rows: a later row wins. */
  function LastWithId(rows: seq<Row>, id: string): (r: Option<Row>)
    ensures r.Some? ==> r.value in rows && r.value.id == id
    ensures r.None? ==> forall row :: row in rows ==> row.id != id
  {
    if rows == [] then None
    else if rows[|rows| - 1].id == id then Some(rows[|rows| - 1])
    else
      assert rows == rows[..|rows| - 1] + [rows[|rows| - 1]];
      LastWithId(rows[..|rows| - 1], id)
  }

  /** A fact whose index rows are all current has a current hit, if it has one at all. */
  lemma CurrentHit(index: seq<IndexRow>, project: string, row: Row, hits: seq<Hit>, total: real)
    requires RankOk(hits, index, project) && HitFor(hits, row.id) && OnlyCurrent(index, project, row) && total > 0.0
    requires forall k :: 0 <= k < |hits| && hits[k].factId == row.id ==> hits[k].score == total
    ensures exists k :: 0 <= k < |hits| && Current(hits[k], row)
  {
    var k :| 0 <= k < |hits| && hits[k].factId == row.id;
    assert FromIndex(hits[k], index, project);
    assert Current(hits[k], row);
  }

  /** The block built through the index, for any index contents whatever. */
  method BuildThroughIndex(table: seq<Stored>, project: string, p: Policy, ctx: Context, index: seq<IndexRow>,
                           tokens: seq<string>, score: (IndexRow, string) -> Option<real>, budget: int)
    returns (r: Built, scores: Scores)
    ensures var rows := ActiveRows(table, project);
            && r == Build(rows, p, ctx, scores, budget) && Positive(scores)
            && (forall id :: id in scores ==>
                  && scores[id] == TotalScore(index, project, tokens, score, id)
                  && exists row :: row in rows && row.id == id && IndexedWithHash(index, project, row))
            && (UniqueIds(rows) ==>
                  forall row ::
                    row in rows && OnlyCurrent(index, project, row)
                    && TotalScore(index, project, tokens, score, row.id) > 0.0
                    ==> row.id in scores)
  {
    var base := RetrieveDeterministic(table, project, p);
    var hits := RankIndex(index, project, tokens, score);
    var c := RetrieveWithIndex(base, hits);
    scores := c.scores;
    forall id | id in scores
      ensures scores[id] == TotalScore(index, project, tokens, score, id)
      ensures exists row :: row in ActiveRows(table, project) && row.id == id && IndexedWithHash(index, project, row)
    {
      var k, row :| 0 <= k < |hits| && row in base.inPolicy + base.outOfPolicy && Vouches(hits[k], row, id, scores[id]);
      assert FromIndex(hits[k], index, project);
      assert row in ActiveRows(table, project) && row.id == id && IndexedWithHash(index, project, row);
      assert hits[k].score == TotalScore(index, project, tokens, score, hits[k].factId);
    }
    forall row | UniqueIds(ActiveRows(table, project)) && row in ActiveRows(table, project)
                 && OnlyCurrent(index, project, row) && TotalScore(index, project, tokens, score, row.id) > 0.0
      ensures row.id in scores
    {
      CurrentHit(index, project, row, hits, TotalScore(index, project, tokens, score, row.id));
      assert row in base.inPolicy + base.outOfPolicy;
    }
    r := BuildProjectMemoryBlock(c.inPolicy, c.outOfPolicy, p, ctx, c.scores, budget, ActiveRows(table, project));
  }

  /** Every index row of the fact has its current hash. */
  predicate OnlyCurrent(index: seq<IndexRow>, project: string, row: Row) {
    forall i :: 0 <= i < |index| && OfProject(index[i], project) && index[i].factId == row.id ==>
      index[i].hash == row.hash
  }

  predicate IndexedWithHash(index: seq<IndexRow>, project: string, row: Row) {
    exists i :: 0 <= i < |index| && OfProject(index[i], project) && index[i].factId == row.id
        && index[i].hash == row.hash
  }
}
