/** In what order facts stand in a prompt, said of the facts alone
    (backend/memory/prompt_builder.py). */
module PromptOrder {
  import opened Wrappers
  import opened StableSort
  import opened PromptMemory
  import opened PromptTheorems

  const CATEGORIES := ["security", "forbidden_paths", "stack", "db", "test", "structure", "architecture", "style",
                       "deploy", "reviewer_pref", "other"]

  /** The reviewer reads its preferences directly behind the safety facts. */
  const REVIEWER_CATEGORIES := ["security", "forbidden_paths", "reviewer_pref", "stack", "db", "test", "structure",
                                "architecture", "style", "deploy", "other"]

  /** Position of the category on the list; anything unknown stands with "other". */
  function Place(list: seq<string>, category: string): nat {
    if list == [] || list[0] == category || |list| == 1 then 0 else 1 + Place(list[1..], category)
  }

  function RolePlace(role: string, category: string): nat {
    Place(if role == "reviewer" then REVIEWER_CATEGORIES else CATEGORIES, category)
  }

  lemma PlaceStep(list: seq<string>, category: string)
    requires |list| > 1
    ensures Place(list, category) == if list[0] == category then 0 else 1 + Place(list[1..], category)
  {}

  /** The second half of the list. */
  function TailOrder(category: string): nat {
    if category == "structure" then 0
    else if category == "architecture" then 1
    else if category == "style" then 2
    else if category == "deploy" then 3
    else if category == "reviewer_pref" then 4
    else 5
  }

  lemma PlainTail(category: string)
    ensures Place(CATEGORIES[5..], category) == TailOrder(category)
  {
    hide Place;
    PlaceStep(CATEGORIES[5..], category);
    PlaceStep(CATEGORIES[6..], category);
    PlaceStep(CATEGORIES[7..], category);
    PlaceStep(CATEGORIES[8..], category);
    PlaceStep(CATEGORIES[9..], category);
    LastPlace(CATEGORIES[10..], category);
    SliceTwice(CATEGORIES);
  }

  lemma PlainPlace(category: string)
    ensures Place(CATEGORIES, category) == CategoryOrder(category)
  {
    hide Place;
    PlaceStep(CATEGORIES, category);
    PlaceStep(CATEGORIES[1..], category);
    PlaceStep(CATEGORIES[2..], category);
    PlaceStep(CATEGORIES[3..], category);
    PlaceStep(CATEGORIES[4..], category);
    PlainTail(category);
    SliceTwice(CATEGORIES);
  }

  lemma LastPlace(list: seq<string>, category: string)
    requires |list| == 1
    ensures Place(list, category) == 0
  {}

  lemma SliceTwice(list: seq<string>)
    ensures forall k :: 0 <= k < |list| ==> list[k..][1..] == list[k + 1..]
  {}

  lemma ReviewerPlace(category: string)
    ensures Place(REVIEWER_CATEGORIES, category) ==
            if category == "reviewer_pref" then 2
            else if CategoryOrder(category) < 2 then CategoryOrder(category)
            else if CategoryOrder(category) < 9 then CategoryOrder(category) + 1 else 10
  {
    hide Place;
    PlaceStep(REVIEWER_CATEGORIES, category);
    PlaceStep(REVIEWER_CATEGORIES[1..], category);
    PlaceStep(REVIEWER_CATEGORIES[2..], category);
    PlaceStep(REVIEWER_CATEGORIES[3..], category);
    PlaceStep(REVIEWER_CATEGORIES[4..], category);
    PlaceStep(REVIEWER_CATEGORIES[5..], category);
    PlaceStep(REVIEWER_CATEGORIES[6..], category);
    PlaceStep(REVIEWER_CATEGORIES[7..], category);
    PlaceStep(REVIEWER_CATEGORIES[8..], category);
    PlaceStep(REVIEWER_CATEGORIES[9..], category);
    LastPlace(REVIEWER_CATEGORIES[10..], category);
    SliceTwice(REVIEWER_CATEGORIES);
  }

  lemma SafetyOrder(category: string)
    ensures category in MANDATORY_CATEGORIES <==> CategoryOrder(category) < 2
    ensures category == "reviewer_pref" <==> CategoryOrder(category) == 9
    ensures CategoryOrder(category) <= 10
  {}

  /** The rank the sort uses puts categories in the order of the role's list. */
  lemma RankIsPlace(role: string, a: string, b: string)
    ensures CategoryRank(a, role) < CategoryRank(b, role) <==> RolePlace(role, a) < RolePlace(role, b)
    ensures CategoryRank(a, role) == CategoryRank(b, role) <==> RolePlace(role, a) == RolePlace(role, b)
  {
    hide CategoryOrder, Place, CATEGORIES, REVIEWER_CATEGORIES, MANDATORY_CATEGORIES;
    PlainPlace(a);
    PlainPlace(b);
    ReviewerPlace(a);
    ReviewerPlace(b);
    SafetyOrder(a);
    SafetyOrder(b);
  }

  /** Global facts come first, then those of a preferred scope. */
  function ScopePlace(scope: string, preferred: set<string>): nat {
    if scope == "global" then 0 else if scope in preferred then 1 else 2
  }

  /** Fact a stands before fact b: by category, scope, priority and age, in this order. */
  predicate Precedes(a: Row, b: Row, p: Policy) {
    var ca, cb := RolePlace(p.role, Category(a)), RolePlace(p.role, Category(b));
    var sa, sb := ScopePlace(Scope(a), p.preferred), ScopePlace(Scope(b), p.preferred);
    || ca < cb
    || (ca == cb && (sa < sb || (sa == sb && (Priority(a) < Priority(b)
                                              || (Priority(a) == Priority(b) && a.createdAt < b.createdAt)))))
  }

  lemma LessStep(x: real, y: real, a: Key, b: Key)
    ensures Less([x] + a, [y] + b) <==> x < y || (x == y && Less(a, b))
  {
    assert ([x] + a)[1..] == a && ([y] + b)[1..] == b;
  }

  lemma LessOfFour(a0: real, a1: real, a2: real, a3: real, b0: real, b1: real, b2: real, b3: real)
    ensures Less([a0, a1, a2, a3], [b0, b1, b2, b3]) <==>
              a0 < b0 || (a0 == b0 && (a1 < b1 || (a1 == b1 && (a2 < b2 || (a2 == b2 && a3 < b3)))))
  {
    hide Less;
    LessStep(a0, b0, [a1, a2, a3], [b1, b2, b3]);
    LessStep(a1, b1, [a2, a3], [b2, b3]);
    LessStep(a2, b2, [a3], [b3]);
    LessStep(a3, b3, [], []);
    Irreflexive([]);
    assert [a0] + [a1, a2, a3] == [a0, a1, a2, a3] && [b0] + [b1, b2, b3] == [b0, b1, b2, b3];
    assert [a1] + [a2, a3] == [a1, a2, a3] && [b1] + [b2, b3] == [b1, b2, b3];
    assert [a2] + [a3] == [a2, a3] && [b2] + [b3] == [b2, b3];
    assert [a3] + [] == [a3] && [b3] + [] == [b3];
  }

  lemma MemoryOrder(a: Row, b: Row, p: Policy)
    ensures Less(MemoryKey(p)(a), MemoryKey(p)(b)) <==> Precedes(a, b, p)
  {
    hide Less, CategoryRank, RolePlace;
    RankIsPlace(p.role, Category(a), Category(b));
    LessOfFour(CategoryRank(Category(a), p.role) as real, ScopeRank(Scope(a), p.preferred) as real,
               Priority(a) as real, a.createdAt as real,
               CategoryRank(Category(b), p.role) as real, ScopeRank(Scope(b), p.preferred) as real,
               Priority(b) as real, b.createdAt as real);
  }

  lemma {:induction false} FilterOrdered<T(!new)>(rows: seq<T>, keep: T -> bool, key: T -> Key)
    requires Ordered(rows, key)
    ensures Ordered(Filter(rows, keep), key)
    decreases |rows|
  {
    hide Less, Filter;
    if rows == [] {
      FilterNone(keep);
    } else {
      var front, last := rows[..|rows| - 1], rows[|rows| - 1];
      assert rows == front + [last];
      FilterOrdered(front, keep, key);
      FilterSnoc(front, last, keep);
      if keep(last) {
        forall i | 0 <= i < |Filter(front, keep)| ensures !Less(key(last), key(Filter(front, keep)[i])) {
          assert Filter(front, keep)[i] in front;
          var k :| 0 <= k < |front| && front[k] == Filter(front, keep)[i];
          assert rows[k] == front[k] && rows[|front|] == last;
        }
        OrderedSnoc(Filter(front, keep), last, key);
      } else {
        assert Filter(front, keep) + [] == Filter(front, keep);
      }
    }
  }

  /** In every block the mandatory lines stand in that order. */
  lemma BlockOrder(rows: seq<Row>, p: Policy, ctx: Context, scores: Scores, budget: int, i: nat, j: nat)
    requires Build(rows, p, ctx, scores, budget).Block? && i < j < |MandatoryRows(rows, p)|
    ensures var included := Build(rows, p, ctx, scores, budget).included;
            j < |included| && !Precedes(included[j], included[i], p)
  {
    hide Less, Build, MemoryKey, Sorted, Filter, Precedes;
    var mandatory, included := MandatoryRows(rows, p), Build(rows, p, ctx, scores, budget).included;
    MandatoryTierIsFixed(rows, p, ctx, scores, budget);
    SortedIsOrdered(Filter(rows, InPolicy(p)), MemoryKey(p));
    FilterOrdered(PolicyRows(rows, p), IsMandatory(p), MemoryKey(p));
    assert included[i] == mandatory[i] && included[j] == mandatory[j];
    MemoryOrder(included[j], included[i], p);
  }

  /** Without index scores a request sorts the optional facts by shared path words, then by token
      overlap, and only then by category, scope, priority and age. */
  lemma RequestOrder(a: Row, b: Row, ctx: Context, p: Policy)
    requires ctx.Context?
    ensures var pa, pb := |a.words * ctx.pathTokens|, |b.words * ctx.pathTokens|;
            var ta, tb := Jaccard(a.words, ctx.requestTokens), Jaccard(b.words, ctx.requestTokens);
            Less(RelevanceKey(ctx, map[], p)(a), RelevanceKey(ctx, map[], p)(b)) <==>
              pa > pb || (pa == pb && (ta > tb || (ta == tb && Precedes(a, b, p))))
  {
    hide Less, MemoryKey, Precedes, Jaccard;
    var x, y := MemoryKey(p)(a), MemoryKey(p)(b);
    var pa, pb := PathOverlap(a, ctx), PathOverlap(b, ctx);
    var ta, tb := TokenOverlap(a, ctx), TokenOverlap(b, ctx);
    LessStep(-(pa as real), -(pb as real), [-ta] + x, [-tb] + y);
    LessStep(-ta, -tb, x, y);
    assert [-(pa as real), -ta] + x == [-(pa as real)] + ([-ta] + x);
    assert [-(pb as real), -tb] + y == [-(pb as real)] + ([-tb] + y);
    MemoryOrder(a, b, p);
  }

  /** With index scores the sum of all three comes first. */
  lemma ScoredOrder(a: Row, b: Row, ctx: Context, scores: Scores, p: Policy)
    requires ctx.Context? && scores != map[]
    ensures var pa, pb := |a.words * ctx.pathTokens|, |b.words * ctx.pathTokens|;
            var ta, tb := Jaccard(a.words, ctx.requestTokens), Jaccard(b.words, ctx.requestTokens);
            var fa := if a.id in scores then scores[a.id] else 0.0;
            var fb := if b.id in scores then scores[b.id] else 0.0;
            var all, bll := pa as real + ta + fa, pb as real + tb + fb;
            Less(RelevanceKey(ctx, scores, p)(a), RelevanceKey(ctx, scores, p)(b)) <==>
              all > bll || (all == bll && (pa > pb || (pa == pb && (ta > tb || (ta == tb && Precedes(a, b, p))))))
  {
    hide Less, MemoryKey, Precedes, Jaccard;
    var x, y := MemoryKey(p)(a), MemoryKey(p)(b);
    var pa, pb := PathOverlap(a, ctx), PathOverlap(b, ctx);
    var ta, tb := TokenOverlap(a, ctx), TokenOverlap(b, ctx);
    var sa, sb := pa as real + ta + FtsScore(a, scores) * 1.0, pb as real + tb + FtsScore(b, scores) * 1.0;
    LessStep(-sa, -sb, [-(pa as real)] + ([-ta] + x), [-(pb as real)] + ([-tb] + y));
    LessStep(-(pa as real), -(pb as real), [-ta] + x, [-tb] + y);
    LessStep(-ta, -tb, x, y);
    assert [-sa, -(pa as real), -ta] + x == [-sa] + ([-(pa as real)] + ([-ta] + x));
    assert [-sb, -(pb as real), -tb] + y == [-sb] + ([-(pb as real)] + ([-tb] + y));
    MemoryOrder(a, b, p);
  }

  // ----- who sees what, and what it costs -----------------------------------------------------------

  /** The roles that see a category; a role not listed here is the default one. */
  predicate Sees(role: string, category: string) {
    var known := role in {"triage", "planner", "coder", "architect", "reviewer", "summary"};
    var everything := role in {"planner", "coder"};
    || category in {"security", "forbidden_paths", "test"}
    || (category in {"stack", "db"} && role != "reviewer")
    || (category == "structure" && role != "reviewer" && role != "summary")
    || (category in {"architecture", "style"} && role != "triage" && role != "summary")
    || (category == "deploy" && role != "triage")
    || (category == "reviewer_pref" && (everything || role == "reviewer"))
    || (category == "other" && (everything || role == "reviewer" || !known))
  }

  lemma Audience(role: string, category: string)
    ensures category in RoleCategories(role) <==> Sees(role, category)
  {}

  /** A line costs a quarter of its characters, rounded up, and at least one token. */
  lemma LineTokens(row: Row)
    ensures var line := "[" + Category(row) + "/" + Scope(row) + "] " + row.content;
            4 * (LineCost(row) - 1) < |line| <= 4 * LineCost(row)
  {}
}
