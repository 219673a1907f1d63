/** What the memory selection promises, for every store, role, request and index. */
module PromptTheorems {
  import opened Wrappers
  import opened StableSort
  import opened PromptMemory

  // ----- the greedy tier -------------------------------------------------------------------

  lemma Appended(rows: seq<Row>, row: Row)
    ensures multiset(rows + [row]) == multiset(rows) + multiset{row}
  {}

  lemma Cancel(a: multiset<Row>, b: multiset<Row>, row: Row)
    requires a + multiset{row} == b + multiset{row}
    ensures a == b
  {
    forall x ensures a[x] == b[x] {
      assert (a + multiset{row})[x] == (b + multiset{row})[x];
    }
  }

  /** Nothing is lost or added, and the start stays in front. */
  lemma {:induction false} GreedyConserves(start: seq<Row>, candidates: seq<Row>, budget: int)
    ensures var s := Greedy(start, candidates, budget);
            && start <= s.included
            && multiset(s.included) + multiset(s.dropped) == multiset(start) + multiset(candidates)
    decreases |candidates|
  {
    hide LineCost, BlockCost, SeparatorCost;
    if candidates != [] {
      var front, row := candidates[..|candidates| - 1], candidates[|candidates| - 1];
      GreedyConserves(start, front, budget);
      var before := Greedy(start, front, budget);
      var s := Greedy(start, candidates, budget);
      Appended(front, row);
      assert candidates == front + [row];
      assert multiset(candidates) == multiset(front) + multiset{row};
      if BlockCost(before.included) + SeparatorCost(before.included) + LineCost(row) > budget {
        Appended(before.dropped, row);
        assert s == Selection(before.included, before.dropped + [row]);
      } else {
        Appended(before.included, row);
        assert s == Selection(before.included + [row], before.dropped);
      }
      assert multiset(s.included) + multiset(s.dropped)
          == multiset(before.included) + multiset(before.dropped) + multiset{row}
          == multiset(start) + multiset(front) + multiset{row}
          == multiset(start) + multiset(candidates);
    }
  }

  /** What was chosen stays within budget if the start did. */
  lemma {:induction false} GreedyWithinBudget(start: seq<Row>, candidates: seq<Row>, budget: int)
    requires BlockCost(start) <= budget
    ensures BlockCost(Greedy(start, candidates, budget).included) <= budget
    decreases |candidates|
  {
    hide LineCost, BlockCost, SeparatorCost;
    if candidates != [] {
      var front, row := candidates[..|candidates| - 1], candidates[|candidates| - 1];
      GreedyWithinBudget(start, front, budget);
      BlockCostStep(Greedy(start, front, budget).included, row);
    }
  }

  /** A dropped candidate would not fit behind the final block either. */
  lemma {:induction false} DroppedNeverFits(start: seq<Row>, candidates: seq<Row>, budget: int, row: Row)
    requires row in Greedy(start, candidates, budget).dropped
    ensures var s := Greedy(start, candidates, budget);
            BlockCost(s.included) + SeparatorCost(s.included) + LineCost(row) > budget
    decreases |candidates|
  {
    hide LineCost, BlockCost;
    var front, last := candidates[..|candidates| - 1], candidates[|candidates| - 1];
    var before := Greedy(start, front, budget);
    if row in before.dropped {
      DroppedNeverFits(start, front, budget, row);
      BlockCostStep(before.included, last);
    }
  }

  /** With room for everything the greedy tier takes everything, in order. */
  lemma {:induction false} GreedyTakesAll(start: seq<Row>, candidates: seq<Row>, budget: int)
    requires BlockCost(start + candidates) <= budget
    ensures Greedy(start, candidates, budget) == Selection(start + candidates, [])
    decreases |candidates|
  {
    hide LineCost, BlockCost;
    if candidates == [] {
      assert start + candidates == start;
    } else {
      var front, row := candidates[..|candidates| - 1], candidates[|candidates| - 1];
      assert start + candidates == start + front + [row];
      BlockCostStep(start + front, row);
      GreedyTakesAll(start, front, budget);
    }
  }

  /** A block's cost does not depend on the order of its lines. */
  lemma {:induction false} BlockCostIsSum(rows: seq<Row>)
    ensures BlockCost(rows) == SumCost(rows) + (if rows == [] then 0 else |rows| - 1)
    decreases |rows|
  {
    hide LineCost;
    if rows != [] {
      BlockCostIsSum(rows[..|rows| - 1]);
    }
  }

  function SumCost(rows: seq<Row>): nat {
    if rows == [] then 0 else SumCost(rows[..|rows| - 1]) + LineCost(rows[|rows| - 1])
  }

  lemma {:induction false} SumCostInsert(a: seq<Row>, x: Row, b: seq<Row>)
    ensures SumCost(a + [x] + b) == SumCost(a + b) + LineCost(x)
    decreases |b|
  {
    hide LineCost;
    if b == [] {
      assert a + [x] + b == a + [x] && a + b == a && (a + [x])[..|a|] == a;
    } else {
      var front, last := b[..|b| - 1], b[|b| - 1];
      assert a + [x] + b == (a + [x] + front) + [last] && a + b == (a + front) + [last];
      assert ((a + [x] + front) + [last])[..|a| + 1 + |front|] == a + [x] + front;
      assert ((a + front) + [last])[..|a| + |front|] == a + front;
      SumCostInsert(a, x, front);
    }
  }

  lemma Removed(b: seq<Row>, i: nat)
    requires i < |b|
    ensures b == b[..i] + [b[i]] + b[i + 1..]
    ensures multiset(b) == multiset(b[..i] + b[i + 1..]) + multiset{b[i]}
  {
    assert b == b[..i] + [b[i]] + b[i + 1..];
  }

  lemma {:induction false} SameRowsSameCost(a: seq<Row>, b: seq<Row>)
    requires multiset(a) == multiset(b)
    ensures SumCost(a) == SumCost(b) && |a| == |b|
    decreases |a|
  {
    hide SumCost;
    assert |a| == |multiset(a)| == |multiset(b)| == |b|;
    if a != [] {
      var front, x := a[..|a| - 1], a[|a| - 1];
      assert a == front + [x];
      assert x in multiset(b);
      var i :| 0 <= i < |b| && b[i] == x;
      Removed(b, i);
      Appended(front, x);
      Cancel(multiset(front), multiset(b[..i] + b[i + 1..]), x);
      SameRowsSameCost(front, b[..i] + b[i + 1..]);
      SumCostInsert(b[..i], x, b[i + 1..]);
      SumCostInsert(front, x, []);
      assert front + [x] + [] == a && front + [] == front;
    } else {
      assert a == b;
    }
  }

  // ----- omission -----------------------------------------------------------------------------

  /** The retriever only ever scores above zero. */
  predicate Positive(scores: Scores) {
    forall id :: id in scores ==> scores[id] > 0.0
  }

  /** A fact with a signal sorts strictly before one without. */
  lemma SignalFirst(x: Row, y: Row, ctx: Context, scores: Scores, p: Policy)
    requires Positive(scores) && Signal(x, ctx, scores) && !Signal(y, ctx, scores)
    ensures Less(RelevanceKey(ctx, scores, p)(x), RelevanceKey(ctx, scores, p)(y))
  {
    hide PathOverlap, TokenOverlap, MemoryKey;
    var a, b := RelevanceKey(ctx, scores, p)(x), RelevanceKey(ctx, scores, p)(y);
    if scores != map[] {
      var fts := FtsScore(x, scores);
      assert fts >= 0.0 && FtsScore(y, scores) == 0.0;
      assert a[0] == -(PathOverlap(x, ctx) as real + TokenOverlap(x, ctx) + fts);
      assert b[0] == -(0.0 + 0.0 + 0.0);
    } else {
      assert FtsScore(x, scores) == 0.0;
      if PathOverlap(x, ctx) == 0 {
        assert a[0] == b[0] && a[1..][0] == a[1] && b[1..][0] == b[1];
      }
    }
  }

  /** In a list where everything kept comes before everything else, the two filters are a
      prefix and the rest. */
  lemma {:induction false} FiltersArePrefix(rows: seq<Row>, keep: Row -> bool)
    requires forall i, j :: 0 <= i < j < |rows| && keep(rows[j]) ==> keep(rows[i])
    ensures Filter(rows, keep) + Filter(rows, Not(keep)) == rows
    decreases |rows|
  {
    hide Sorted, Insert, Filter;
    if rows != [] {
      var front, last := rows[..|rows| - 1], rows[|rows| - 1];
      FiltersArePrefix(front, keep);
      FilterLast(rows, keep);
      assert rows == front + [last];
      if keep(last) {
        FilterAll(front, keep);
        FilterAll(front, Not(keep));
      }
    }
  }

  /** Kept rows are a prefix of the full relevance order and omitted rows the suffix behind
      it; a row is omitted exactly when omission is active and it has no signal. */
  lemma OmissionTruncatesSuffix(rows: seq<Row>, ctx: Context, scores: Scores, p: Policy)
    requires Positive(scores)
    ensures var t := PartitionRelevance(rows, ctx, scores, p);
            && t.kept + t.omitted == RelevanceOrder(rows, ctx, scores, p)
            && (forall x :: x in t.omitted <==>
                x in rows && OmissionActive(rows, ctx, scores, p) && !Signal(x, ctx, scores))
  {
    hide Less, Signal, Sorted, Filter, RelevanceKey;
    var ordered := RelevanceOrder(rows, ctx, scores, p);
    if OmissionActive(rows, ctx, scores, p) {
      var key := RelevanceKey(ctx, scores, p);
      SortedIsOrdered(rows, key);
      forall x ensures x in ordered <==> x in rows {
        assert x in multiset(ordered) <==> x in multiset(rows);
      }
      forall i, j | 0 <= i < j < |ordered| && HasSignal(ctx, scores)(ordered[j])
        ensures HasSignal(ctx, scores)(ordered[i])
      {
        if !Signal(ordered[i], ctx, scores) {
          SignalFirst(ordered[j], ordered[i], ctx, scores, p);
        }
      }
      FiltersArePrefix(ordered, HasSignal(ctx, scores));
    }
  }

  /** Nothing is omitted when the switch is off, the store is small, there is no request or
      no fact answers to it. */
  lemma NothingOmitted(rows: seq<Row>, ctx: Context, scores: Scores, p: Policy)
    requires !p.omission || |rows| <= MEMORY_SMALL_STORE_GRACE_THRESHOLD || ctx.NoContext?
             || (forall x :: x in rows ==> !Signal(x, ctx, scores))
    ensures PartitionRelevance(rows, ctx, scores, p).omitted == []
    ensures multiset(PartitionRelevance(rows, ctx, scores, p).kept) == multiset(rows)
  {
    hide Signal;
    if AnySignal(rows, ctx, scores) {
      var i :| 0 <= i < |rows| && Signal(rows[i], ctx, scores);
      assert rows[i] in rows;
    }
  }

  // ----- the whole block ----------------------------------------------------------------------------

  lemma TierRows(rows: seq<Row>, p: Policy)
    ensures multiset(MandatoryRows(rows, p)) + multiset(RelevanceRows(rows, p)) +
              multiset(Filter(rows, Not(InPolicy(p))))
            == multiset(rows)
  {
    FilterSplits(rows, InPolicy(p));
    FilterSplits(PolicyRows(rows, p), IsMandatory(p));
  }

  lemma PartitionConserves(rows: seq<Row>, ctx: Context, scores: Scores, p: Policy)
    ensures var t := PartitionRelevance(rows, ctx, scores, p); multiset(t.kept) + multiset(t.omitted) == multiset(rows)
  {
    FilterSplits(RelevanceOrder(rows, ctx, scores, p), HasSignal(ctx, scores));
  }

  /** Every active fact ends in exactly one of included, budget-dropped, not-relevant and
      category-excluded, as often as it came in. */
  lemma SelectionConserves(rows: seq<Row>, p: Policy, ctx: Context, scores: Scores, budget: int)
    ensures var r := Build(rows, p, ctx, scores, budget);
            r.Block? ==>
              multiset(r.included) + multiset(r.dropped) + multiset(r.notRelevant) +
                  multiset(r.excluded) == multiset(rows)
  {
    hide PartitionRelevance, Greedy, Sorted, BlockCost;
    var r := Build(rows, p, ctx, scores, budget);
    FilterSplits(rows, InPolicy(p));
    if r.Block? && Filter(rows, InPolicy(p)) != [] {
      TierRows(rows, p);
      PartitionConserves(RelevanceRows(rows, p), ctx, scores, p);
      GreedyConserves(MandatoryRows(rows, p), PartitionRelevance(RelevanceRows(rows, p), ctx, scores, p).kept, budget);
    }
  }

  /** The error is raised exactly when the mandatory tier alone is too big; otherwise the used
      tokens are the line costs plus separators and stay within the budget. */
  lemma BudgetRespected(rows: seq<Row>, p: Policy, ctx: Context, scores: Scores, budget: nat)
    ensures var r := Build(rows, p, ctx, scores, budget);
            && (r.OverBudget? <==> BlockCost(MandatoryRows(rows, p)) > budget)
            && (r.Block? ==>
                  && r.used <= budget
                  && r.used == SumCost(r.included) + (if r.included == [] then 0 else |r.included| - 1))
  {
    hide PartitionRelevance, Greedy;
    var r := Build(rows, p, ctx, scores, budget);
    if Filter(rows, InPolicy(p)) == [] {
      assert PolicyRows(rows, p) == [];
    } else if r.Block? {
      GreedyWithinBudget(MandatoryRows(rows, p), PartitionRelevance(RelevanceRows(rows, p), ctx, scores, p).kept,
          budget);
      BlockCostIsSum(r.included);
    }
  }

  /** No budget-dropped fact would fit in what is left at the end. */
  lemma NoDroppedFactFits(rows: seq<Row>, p: Policy, ctx: Context, scores: Scores, budget: int, row: Row)
    requires var r := Build(rows, p, ctx, scores, budget); r.Block? && row in r.dropped
    ensures var r := Build(rows, p, ctx, scores, budget);
            r.used + SeparatorCost(r.included) + LineCost(row) > budget
  {
    hide PartitionRelevance, Greedy, LineCost, BlockCost;
    DroppedNeverFits(MandatoryRows(rows, p), PartitionRelevance(RelevanceRows(rows, p), ctx, scores, p).kept, budget,
        row);
  }

  /** The mandatory lines and their order open the block and are the same for every request,
      every score map and every budget that admits a block. */
  lemma MandatoryTierIsFixed(rows: seq<Row>, p: Policy, ctx: Context, scores: Scores, budget: int)
    ensures var r := Build(rows, p, ctx, scores, budget);
            r.Block? ==> MandatoryRows(rows, p) <= r.included
  {
    hide PartitionRelevance, Greedy, BlockCost;
    if Filter(rows, InPolicy(p)) == [] {
      assert PolicyRows(rows, p) == [];
    } else {
      GreedyConserves(MandatoryRows(rows, p), PartitionRelevance(RelevanceRows(rows, p), ctx, scores, p).kept, budget);
    }
  }

  // ----- who is where, by the rows alone --------------------------------------------------------

  /** The fact is in the role's categories but neither about safety nor, under omission, pinned. */
  predicate Optional(row: Row, p: Policy) {
    && Category(row) in RoleCategories(p.role) && Category(row) != "security" && Category(row) != "forbidden_paths"
    && !(p.omission && Priority(row) <= 10)
  }

  function IsOptional(p: Policy): Row -> bool {
    row => Optional(row, p)
  }

  /** The request shares a path word or a token with the fact, or the index scored it. */
  predicate Answers(row: Row, ctx: Context, scores: Scores) {
    || (ctx.Context? && (row.words * ctx.pathTokens != {} || row.words * ctx.requestTokens != {}))
    || (row.id in scores && scores[row.id] != 0.0)
  }

  lemma AnswersIff(row: Row, ctx: Context, scores: Scores)
    ensures Signal(row, ctx, scores) <==> Answers(row, ctx, scores)
  {
    if ctx.Context? {
      PositiveSize(row.words * ctx.pathTokens);
      PositiveSize(row.words * ctx.requestTokens);
      PositiveSize(row.words + ctx.requestTokens);
    }
  }

  lemma PositiveSize(s: set<string>)
    ensures |s| != 0 <==> s != {}
  {}

  /** The mandatory tier: the facts in the role's categories that are not optional. */
  lemma TierMembers(rows: seq<Row>, p: Policy, x: Row)
    ensures x in MandatoryRows(rows, p) <==> x in rows && Category(x) in RoleCategories(p.role) && !Optional(x, p)
    ensures x in RelevanceRows(rows, p) <==> x in rows && Optional(x, p)
  {
    hide Sorted, Filter;
    var policy, sorted := Filter(rows, InPolicy(p)), PolicyRows(rows, p);
    assert x in sorted <==> x in policy by {
      assert x in multiset(sorted) <==> x in multiset(policy);
    }
    assert IsMandatory(p)(x) <==> Mandatory(x, p);
  }

  lemma {:induction false} FilterTwice(rows: seq<Row>, a: Row -> bool, b: Row -> bool, both: Row -> bool)
    requires forall x :: both(x) <==> a(x) && b(x)
    ensures Filter(Filter(rows, a), b) == Filter(rows, both)
    decreases |rows|
  {
    hide Filter;
    if rows == [] {
      FilterNothing(a);
      FilterNothing(b);
      FilterNothing(both);
    } else {
      var front, last := rows[..|rows| - 1], rows[|rows| - 1];
      assert rows == front + [last];
      FilterTwice(front, a, b, both);
      FilterSnoc(front, last, a);
      FilterSnoc(front, last, both);
      FilterSnoc(Filter(front, a), last, b);
      assert !a(last) ==> Filter(rows, a) == Filter(front, a);
      assert !both(last) ==> Filter(rows, both) == Filter(front, both);
    }
  }

  lemma FilterNothing(keep: Row -> bool)
    ensures Filter([], keep) == []
  {}

  lemma TierSize(rows: seq<Row>, p: Policy)
    ensures |RelevanceRows(rows, p)| == |Filter(rows, IsOptional(p))|
  {
    hide Sorted, Filter;
    var policy := Filter(rows, InPolicy(p));
    FilterMultiset(PolicyRows(rows, p), policy, Not(IsMandatory(p)));
    FilterTwice(rows, InPolicy(p), Not(IsMandatory(p)), IsOptional(p));
    assert |multiset(RelevanceRows(rows, p))| == |multiset(Filter(rows, IsOptional(p)))|;
  }

  /** Exactly which facts are left out as not relevant: under omission and with a request, the optional
      facts that do not answer to it, if some optional fact does and there are more than twelve. */
  lemma OmittedIff(rows: seq<Row>, p: Policy, ctx: Context, scores: Scores, budget: int, x: Row)
    requires Positive(scores) && Build(rows, p, ctx, scores, budget).Block?
    ensures x in Build(rows, p, ctx, scores, budget).notRelevant <==>
              && p.omission && ctx.Context? && x in rows && Optional(x, p) && !Answers(x, ctx, scores)
              && |Filter(rows, IsOptional(p))| > 12
              && exists y :: y in rows && Optional(y, p) && Answers(y, ctx, scores)
  {
    hide PartitionRelevance, Greedy, BlockCost, Filter, Optional, Answers, Signal, MandatoryRows, RelevanceRows;
    var tier := RelevanceRows(rows, p);
    TierSize(rows, p);
    forall y ensures y in tier <==> y in rows && Optional(y, p)
             ensures Signal(y, ctx, scores) <==> Answers(y, ctx, scores)
    {
      TierMembers(rows, p, y);
      AnswersIff(y, ctx, scores);
    }
    NobodyAsked(rows, p);
    OmissionTruncatesSuffix(tier, ctx, scores, p);
    ScoredIff(tier, ctx, scores);
  }

  lemma NobodyAsked(rows: seq<Row>, p: Policy)
    ensures Filter(rows, InPolicy(p)) == [] ==> RelevanceRows(rows, p) == []
  {
    hide Sorted;
    if Filter(rows, InPolicy(p)) == [] {
      assert |PolicyRows(rows, p)| == 0 by {
        assert |multiset(PolicyRows(rows, p))| == 0;
      }
    }
  }

  /** A signal means that there is something to compare with. */
  lemma ScoredIff(rows: seq<Row>, ctx: Context, scores: Scores)
    ensures Scored(rows, ctx, scores) <==> ctx.Context? && exists y :: y in rows && Signal(y, ctx, scores)
  {
    hide Signal;
    forall y | ctx.Context? && Signal(y, ctx, scores)
      ensures ctx.pathTokens != {} || ctx.requestTokens != {} || scores != map[]
    {
      AnswersIff(y, ctx, scores);
    }
    if y :| y in rows && Signal(y, ctx, scores) {
      var i :| 0 <= i < |rows| && rows[i] == y;
      assert AnySignal(rows, ctx, scores);
    }
    if AnySignal(rows, ctx, scores) {
      var i :| 0 <= i < |rows| && Signal(rows[i], ctx, scores);
      assert rows[i] in rows;
    }
  }

  lemma SafetyInEveryRole(row: Row, p: Policy)
    requires Category(row) in MANDATORY_CATEGORIES
    ensures InPolicy(p)(row) && IsMandatory(p)(row)
  {}

  /** Every role sees every safety fact: it is in the block or there is no block. */
  lemma SafetyIsNeverDropped(rows: seq<Row>, p: Policy, ctx: Context, scores: Scores, budget: int, row: Row)
    requires row in rows && Category(row) in MANDATORY_CATEGORIES
    ensures var r := Build(rows, p, ctx, scores, budget); r.Block? ==> row in r.included
  {
    hide PartitionRelevance, Greedy, BlockCost, Filter, Sorted;
    MandatoryTierIsFixed(rows, p, ctx, scores, budget);
    SafetyInEveryRole(row, p);
    assert row in Filter(rows, InPolicy(p));
    assert row in multiset(PolicyRows(rows, p));
    assert row in MandatoryRows(rows, p);
  }

  /** Room for every in-policy fact and the separators between them, in whatever order. */
  predicate RoomForAll(rows: seq<Row>, p: Policy, budget: int) {
    var all := Filter(rows, InPolicy(p));
    all == [] || SumCost(all) + |all| - 1 <= budget
  }

  /** With room for everything and omission off, an index changes neither the mandatory tier
      nor the set of included facts: it only reorders. */
  lemma FtsOnlyReorders(rows: seq<Row>, p: Policy, ctx: Context, scores: Scores, budget: int)
    requires RoomForAll(rows, p, budget) && !p.omission
    ensures var on, off := Build(rows, p, ctx, scores, budget), Build(rows, p, ctx, map[], budget);
            && on.Block? && off.Block?
            && multiset(on.included) == multiset(off.included) == multiset(Filter(rows, InPolicy(p)))
            && on.dropped == off.dropped == [] && on.notRelevant == off.notRelevant == []
            && MandatoryRows(rows, p) <= on.included && MandatoryRows(rows, p) <= off.included
  {
    hide PartitionRelevance, Greedy, LineCost, BlockCost;
    RoomIncludesAll(rows, p, ctx, scores, budget);
    RoomIncludesAll(rows, p, ctx, map[], budget);
    MandatoryTierIsFixed(rows, p, ctx, scores, budget);
    MandatoryTierIsFixed(rows, p, ctx, map[], budget);
  }

  lemma RoomIncludesAll(rows: seq<Row>, p: Policy, ctx: Context, scores: Scores, budget: int)
    requires RoomForAll(rows, p, budget) && !p.omission
    ensures var r := Build(rows, p, ctx, scores, budget);
            r.Block? && multiset(r.included) == multiset(Filter(rows, InPolicy(p))) && r.dropped == []
                && r.notRelevant == []
  {
    hide Greedy, LineCost, BlockCost, RelevanceOrder, Filter, Sorted, SumCost;
    var all := Filter(rows, InPolicy(p));
    if all != [] {
      var mandatory, kept := MandatoryRows(rows, p), PartitionRelevance(RelevanceRows(rows, p), ctx, scores, p).kept;
      FilterSplits(PolicyRows(rows, p), IsMandatory(p));
      PartitionConserves(RelevanceRows(rows, p), ctx, scores, p);
      NothingOmitted(RelevanceRows(rows, p), ctx, scores, p);
      assert multiset(mandatory + kept) == multiset(all);
      SameRowsSameCost(mandatory + kept, all);
      BlockCostIsSum(mandatory + kept);
      PrefixCostsLess(mandatory, kept);
      GreedyTakesAll(mandatory, kept, budget);
    }
  }

  /** With omission off, every in-policy fact is included exactly if there is room for all. */
  lemma EverythingFitsIff(rows: seq<Row>, p: Policy, ctx: Context, scores: Scores, budget: nat)
    requires !p.omission
    ensures var r := Build(rows, p, ctx, scores, budget);
            r.Block? && r.dropped == [] <==> RoomForAll(rows, p, budget)
  {
    hide Build, LineCost, BlockCost, SumCost, Filter, MandatoryRows;
    var r := Build(rows, p, ctx, scores, budget);
    if RoomForAll(rows, p, budget) {
      RoomIncludesAll(rows, p, ctx, scores, budget);
    } else if r.Block? && r.dropped == [] {
      BudgetRespected(rows, p, ctx, scores, budget);
      NothingDropped(rows, p, ctx, scores, budget);
      SameRowsSameCost(r.included, Filter(rows, InPolicy(p)));
    }
  }

  lemma NothingDropped(rows: seq<Row>, p: Policy, ctx: Context, scores: Scores, budget: nat)
    requires !p.omission
    requires var r := Build(rows, p, ctx, scores, budget); r.Block? && r.dropped == []
    ensures multiset(Build(rows, p, ctx, scores, budget).included) == multiset(Filter(rows, InPolicy(p)))
  {
    hide Greedy, LineCost, BlockCost, RelevanceOrder, Filter, Sorted;
    if Filter(rows, InPolicy(p)) != [] {
      var mandatory, kept := MandatoryRows(rows, p), PartitionRelevance(RelevanceRows(rows, p), ctx, scores, p).kept;
      FilterSplits(PolicyRows(rows, p), IsMandatory(p));
      PartitionConserves(RelevanceRows(rows, p), ctx, scores, p);
      NothingOmitted(RelevanceRows(rows, p), ctx, scores, p);
      GreedyConserves(mandatory, kept, budget);
    }
  }

  lemma {:induction false} PrefixCostsLess(a: seq<Row>, b: seq<Row>)
    ensures BlockCost(a) <= BlockCost(a + b)
    decreases |b|
  {
    hide LineCost, BlockCost;
    if b == [] {
      assert a + b == a;
    } else {
      PrefixCostsLess(a, b[..|b| - 1]);
      assert a + b == a + b[..|b| - 1] + [b[|b| - 1]];
      BlockCostStep(a + b[..|b| - 1], b[|b| - 1]);
    }
  }

  /** The strongest priority the store accepts, 0, reads as 100: such a fact is never pinned
      by its priority and sorts behind every fact of priority 1 to 99 of its category and
      scope. */
  lemma PriorityZeroIsWeak(row: Row, other: Row, p: Policy)
    requires row.priority == 0 && 1 <= other.priority < 100
    requires Category(row) == Category(other) && Scope(row) == Scope(other)
    ensures Mandatory(row, p) <==> Category(row) in MANDATORY_CATEGORIES
    ensures Less(MemoryKey(p)(other), MemoryKey(p)(row))
  {
    var a, b := MemoryKey(p)(other), MemoryKey(p)(row);
    assert a[1..][1..][0] == a[2] && b[1..][1..][0] == b[2];
    assert a[1..][0] == a[1] && b[1..][0] == b[1];
  }

  /** Facts with different sort keys give the same block in whatever order the database
      returns them. */
  lemma RowOrderIsIrrelevant(a: seq<Row>, b: seq<Row>, p: Policy, ctx: Context, scores: Scores, budget: int)
    requires multiset(a) == multiset(b) && DistinctKeys(a, MemoryKey(p))
    ensures var r, s := Build(a, p, ctx, scores, budget), Build(b, p, ctx, scores, budget);
            if r.Block? then
              s.Block? && r.included == s.included && r.dropped == s.dropped && r.notRelevant == s.notRelevant
                  && r.used == s.used
            else r == s
  {
    hide PartitionRelevance, Greedy, BlockCost, Sorted, Filter;
    SamePolicyRows(a, b, p);
  }

  lemma SamePolicyRows(a: seq<Row>, b: seq<Row>, p: Policy)
    requires multiset(a) == multiset(b) && DistinctKeys(a, MemoryKey(p))
    ensures PolicyRows(a, p) == PolicyRows(b, p)
    ensures Filter(a, InPolicy(p)) == [] <==> Filter(b, InPolicy(p)) == []
  {
    hide Filter, Sorted, MemoryKey;
    FilterMultiset(a, b, InPolicy(p));
    var x, y := Filter(a, InPolicy(p)), Filter(b, InPolicy(p));
    assert forall row :: row in x ==> row in a;
    SortedIsCanonical(x, y, MemoryKey(p));
    assert |x| == |multiset(x)| == |multiset(y)| == |y|;
  }

  lemma {:induction false} FilterCount(rows: seq<Row>, keep: Row -> bool, x: Row)
    ensures multiset(Filter(rows, keep))[x] == if keep(x) then multiset(rows)[x] else 0
    decreases |rows|
  {
    if rows != [] {
      FilterCount(rows[..|rows| - 1], keep, x);
      assert rows == rows[..|rows| - 1] + [rows[|rows| - 1]];
    }
  }

  lemma FilterMultiset(a: seq<Row>, b: seq<Row>, keep: Row -> bool)
    requires multiset(a) == multiset(b)
    ensures multiset(Filter(a, keep)) == multiset(Filter(b, keep))
  {
    forall x ensures multiset(Filter(a, keep))[x] == multiset(Filter(b, keep))[x] {
      FilterCount(a, keep, x);
      FilterCount(b, keep, x);
    }
  }
}
