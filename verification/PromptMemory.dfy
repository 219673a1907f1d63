/** Which memory facts go into a prompt: the mandatory tier, the relevance order, omission
    and the token budget (backend/memory/prompt_builder.py). */
module PromptMemory {
  import opened Wrappers
  import opened StableSort

  // ----- rows and policy -------------------------------------------------------------------

  /** An active fact as the builder reads it; "" and 0 stand for a missing value. `words` are
      the content's tokens. */
  datatype Row = Row(
    id: string,
    content: string,
    hash: string,
    category: string,
    scope: string,
    priority: int,
    createdAt: int,
    words: set<string>)

  const DEFAULT_PRIORITY := 100
  const MEMORY_PIN_PRIORITY_THRESHOLD := 10
  const MEMORY_SMALL_STORE_GRACE_THRESHOLD := 12
  const MEMORY_FTS_RELEVANCE_WEIGHT: real := 1.0
  const MANDATORY_CATEGORIES := {"security", "forbidden_paths"}

  function Category(row: Row): string {
    if row.category == "" then "other" else row.category
  }

  function Scope(row: Row): string {
    if row.scope == "" then "global" else row.scope
  }

  /** `priority or 100`: a stored 0 reads as 100. */
  function Priority(row: Row): int {
    if row.priority == 0 then DEFAULT_PRIORITY else row.priority
  }

  function CategoryOrder(category: string): nat {
    if category == "security" then 0
    else if category == "forbidden_paths" then 1
    else if category == "stack" then 2
    else if category == "db" then 3
    else if category == "test" then 4
    else if category == "structure" then 5
    else if category == "architecture" then 6
    else if category == "style" then 7
    else if category == "deploy" then 8
    else if category == "reviewer_pref" then 9
    else 10
  }

  function RoleCategories(role: string): set<string> {
    if role == "triage" then {"security", "forbidden_paths", "stack", "structure", "test", "db"}
    else if role == "planner" || role == "coder" then
      {"security", "forbidden_paths", "stack", "db", "test", "structure", "architecture", "style", "deploy",
          "reviewer_pref", "other"}
    else if role == "architect" then
      {"security", "forbidden_paths", "stack", "db", "test", "structure", "architecture", "style", "deploy"}
    else if role == "reviewer" then
      {"security", "forbidden_paths", "architecture", "test", "deploy", "style", "reviewer_pref", "other"}
    else if role == "summary" then {"security", "forbidden_paths", "stack", "db", "test", "deploy"}
    else {"security", "forbidden_paths", "stack", "db", "test", "structure", "architecture", "style", "deploy", "other"}
  }

  function CategoryRank(category: string, role: string): nat {
    if role == "reviewer" && category == "reviewer_pref" then 2
    else if role == "reviewer" && category !in MANDATORY_CATEGORIES && CategoryOrder(category) >= 2 then
      CategoryOrder(category) + 1
    else CategoryOrder(category)
  }

  function ScopeRank(scope: string, preferred: set<string>): nat {
    if scope == "global" then 0 else if scope in preferred then 1 else 2
  }

  /** Who asks, and whether request-aware omission and pinning are switched on. */
  datatype Policy = Policy(role: string, preferred: set<string>, omission: bool)

  predicate Mandatory(row: Row, p: Policy) {
    Category(row) in MANDATORY_CATEGORIES || (p.omission && Priority(row) <= MEMORY_PIN_PRIORITY_THRESHOLD)
  }

  function MemoryKey(p: Policy): Row -> Key {
    row => [CategoryRank(Category(row), p.role) as real, ScopeRank(Scope(row), p.preferred) as real,
            Priority(row) as real, row.createdAt as real]
  }

  function Line(row: Row): string {
    "[" + Category(row) + "/" + Scope(row) + "] " + row.content
  }

  function EstimateTokens(text: string): nat {
    if |text| == 0 then 1 else (|text| + 3) / 4
  }

  function LineCost(row: Row): nat {
    EstimateTokens(Line(row))
  }

  // ----- request signals ---------------------------------------------------------------------

  /** What the request offers to compare facts with. */
  datatype Context = NoContext | Context(pathTokens: set<string>, requestTokens: set<string>)

  type Scores = map<string, real>

  function PathOverlap(row: Row, ctx: Context): nat {
    if ctx.NoContext? then 0 else |row.words * ctx.pathTokens|
  }

  function Jaccard(left: set<string>, right: set<string>): (r: real)
    ensures r >= 0.0
  {
    if left == {} || right == {} || left + right == {} then 0.0
    else |left * right| as real / |left + right| as real
  }

  function TokenOverlap(row: Row, ctx: Context): (r: real)
    ensures r >= 0.0
  {
    if ctx.NoContext? then 0.0 else Jaccard(row.words, ctx.requestTokens)
  }

  function FtsScore(row: Row, scores: Scores): real {
    if row.id in scores then scores[row.id] else 0.0
  }

  predicate Signal(row: Row, ctx: Context, scores: Scores) {
    PathOverlap(row, ctx) != 0 || TokenOverlap(row, ctx) != 0.0 || FtsScore(row, scores) != 0.0
  }

  function HasSignal(ctx: Context, scores: Scores): Row -> bool {
    row => Signal(row, ctx, scores)
  }

  function RelevanceKey(ctx: Context, scores: Scores, p: Policy): Row -> Key {
    if scores != map[] then
      row => [-(PathOverlap(row, ctx) as real + TokenOverlap(row, ctx) +
          FtsScore(row, scores) * MEMORY_FTS_RELEVANCE_WEIGHT),
              -(PathOverlap(row, ctx) as real), -TokenOverlap(row, ctx)] + MemoryKey(p)(row)
    else
      row => [-(PathOverlap(row, ctx) as real), -TokenOverlap(row, ctx)] + MemoryKey(p)(row)
  }

  // ----- the relevance tier --------------------------------------------------------------------

  predicate AnySignal(rows: seq<Row>, ctx: Context, scores: Scores) {
    exists i :: 0 <= i < |rows| && Signal(rows[i], ctx, scores)
  }

  /** There is a request, it has something to compare with, and some fact answers to it. */
  predicate Scored(rows: seq<Row>, ctx: Context, scores: Scores) {
    && ctx.Context? && rows != []
    && (ctx.pathTokens != {} || ctx.requestTokens != {} || scores != map[])
    && AnySignal(rows, ctx, scores)
  }

  /** The full order of the relevance tier. */
  function RelevanceOrder(rows: seq<Row>, ctx: Context, scores: Scores, p: Policy): seq<Row> {
    if Scored(rows, ctx, scores) then Sorted(rows, RelevanceKey(ctx, scores, p)) else rows
  }

  predicate OmissionActive(rows: seq<Row>, ctx: Context, scores: Scores, p: Policy) {
    Scored(rows, ctx, scores) && p.omission && |rows| > MEMORY_SMALL_STORE_GRACE_THRESHOLD
  }

  datatype Partition = Partition(kept: seq<Row>, omitted: seq<Row>)

  function PartitionRelevance(rows: seq<Row>, ctx: Context, scores: Scores, p: Policy): Partition {
    var ordered := RelevanceOrder(rows, ctx, scores, p);
    if OmissionActive(rows, ctx, scores, p) then
      Partition(Filter(ordered, HasSignal(ctx, scores)), Filter(ordered, Not(HasSignal(ctx, scores))))
    else Partition(ordered, [])
  }

  lemma FilterStep(rows: seq<Row>, i: nat, keep: Row -> bool)
    requires i < |rows|
    ensures Filter(rows[..i + 1], keep) == Filter(rows[..i], keep) + (if keep(rows[i]) then [rows[i]] else [])
  {
    assert rows[..i + 1][..i] == rows[..i];
  }

  /** The partition loop. */
  method SplitBySignal(ordered: seq<Row>, ctx: Context, scores: Scores) returns (kept: seq<Row>, omitted: seq<Row>)
    ensures kept == Filter(ordered, HasSignal(ctx, scores))
    ensures omitted == Filter(ordered, Not(HasSignal(ctx, scores)))
  {
    hide Filter, Signal;
    kept, omitted := [], [];
    assert Filter([], HasSignal(ctx, scores)) == Filter([], Not(HasSignal(ctx, scores))) == [];
    for i := 0 to |ordered|
      invariant kept == Filter(ordered[..i], HasSignal(ctx, scores))
      invariant omitted == Filter(ordered[..i], Not(HasSignal(ctx, scores)))
    {
      FilterStep(ordered, i, HasSignal(ctx, scores));
      FilterStep(ordered, i, Not(HasSignal(ctx, scores)));
      if Signal(ordered[i], ctx, scores) {
        kept := kept + [ordered[i]];
      } else {
        omitted := omitted + [ordered[i]];
      }
    }
    assert ordered[..|ordered|] == ordered;
  }

  /** The scoring loop: does any fact answer to the request? */
  method FindSignal(rows: seq<Row>, ctx: Context, scores: Scores) returns (found: bool)
    ensures found == AnySignal(rows, ctx, scores)
  {
    hide Signal;
    found := false;
    for i := 0 to |rows|
      invariant found <==> exists k :: 0 <= k < i && Signal(rows[k], ctx, scores)
    {
      if Signal(rows[i], ctx, scores) {
        found := true;
      }
    }
  }

  method PartitionRelevanceRows(rows: seq<Row>, ctx: Context, scores: Scores, p: Policy) returns (kept: seq<Row>,
          omitted: seq<Row>)
    ensures Partition(kept, omitted) == PartitionRelevance(rows, ctx, scores, p)
  {
    hide Filter, Sorted, AnySignal;
    if ctx.NoContext? || rows == [] {
      return rows, [];
    }
    if ctx.pathTokens == {} && ctx.requestTokens == {} && scores == map[] {
      return rows, [];
    }
    var hasRelevanceSignal := FindSignal(rows, ctx, scores);
    if !hasRelevanceSignal {
      return rows, [];
    }
    var ordered := Sorted(rows, RelevanceKey(ctx, scores, p));
    if !(p.omission && |rows| > MEMORY_SMALL_STORE_GRACE_THRESHOLD) {
      return ordered, [];
    }
    kept, omitted := SplitBySignal(ordered, ctx, scores);
  }

  // ----- the whole block -------------------------------------------------------------------------

  function InPolicy(p: Policy): Row -> bool {
    row => Category(row) in RoleCategories(p.role)
  }

  function IsMandatory(p: Policy): Row -> bool {
    row => Mandatory(row, p)
  }

  function PolicyRows(rows: seq<Row>, p: Policy): seq<Row> {
    Sorted(Filter(rows, InPolicy(p)), MemoryKey(p))
  }

  function MandatoryRows(rows: seq<Row>, p: Policy): seq<Row> {
    Filter(PolicyRows(rows, p), IsMandatory(p))
  }

  function RelevanceRows(rows: seq<Row>, p: Policy): seq<Row> {
    Filter(PolicyRows(rows, p), Not(IsMandatory(p)))
  }

  /** Line costs plus one separator between neighbours. */
  function BlockCost(rows: seq<Row>): nat {
    if rows == [] then 0
    else BlockCost(rows[..|rows| - 1]) + LineCost(rows[|rows| - 1]) + (if |rows| > 1 then 1 else 0)
  }

  function SeparatorCost(rows: seq<Row>): nat {
    if rows == [] then 0 else 1
  }

  datatype Selection = Selection(included: seq<Row>, dropped: seq<Row>)

  /** Take each candidate that still fits, in order, behind what is already there. */
  function Greedy(start: seq<Row>, candidates: seq<Row>, budget: int): Selection
    decreases |candidates|
  {
    if candidates == [] then Selection(start, [])
    else
      var s := Greedy(start, candidates[..|candidates| - 1], budget);
      var row := candidates[|candidates| - 1];
      if BlockCost(s.included) + SeparatorCost(s.included) + LineCost(row) > budget then
          s.(dropped := s.dropped + [row])
      else s.(included := s.included + [row])
  }

  datatype Built =
    | OverBudget(used: nat)
    | Block(included: seq<Row>, dropped: seq<Row>, notRelevant: seq<Row>, excluded: seq<Row>, used: nat)

  function Build(rows: seq<Row>, p: Policy, ctx: Context, scores: Scores, budget: int): Built {
    var excluded := Filter(rows, Not(InPolicy(p)));
    if Filter(rows, InPolicy(p)) == [] then Block([], [], [], excluded, 0)
    else
      var mandatory := MandatoryRows(rows, p);
      if BlockCost(mandatory) > budget then OverBudget(BlockCost(mandatory))
      else
        var tier := PartitionRelevance(RelevanceRows(rows, p), ctx, scores, p);
        var chosen := Greedy(mandatory, tier.kept, budget);
        Block(chosen.included, chosen.dropped, tier.omitted, excluded, BlockCost(chosen.included))
  }

  lemma BlockCostStep(rows: seq<Row>, row: Row)
    ensures BlockCost(rows + [row]) == BlockCost(rows) + SeparatorCost(rows) + LineCost(row)
  {
    assert (rows + [row])[..|rows|] == rows;
  }

  /** Render the mandatory tier, whatever it costs. */
  method RenderMandatory(mandatory: seq<Row>) returns (included: seq<Row>, usedTokens: nat)
    ensures included == mandatory && usedTokens == BlockCost(mandatory)
  {
    hide LineCost, BlockCost;
    included, usedTokens := [], 0;
    assert BlockCost([]) == 0 by { BlockCostEmpty(); }
    for i := 0 to |mandatory|
      invariant included == mandatory[..i] && usedTokens == BlockCost(included)
    {
      BlockCostStep(included, mandatory[i]);
      var separatorTokens := if included != [] then 1 else 0;
      included := included + [mandatory[i]];
      usedTokens := usedTokens + separatorTokens + LineCost(mandatory[i]);
    }
  }

  lemma BlockCostEmpty()
    ensures BlockCost([]) == 0
  {}

  /** The greedy loop over the relevance tier. */
  method FillBudget(start: seq<Row>, used: nat, candidates: seq<Row>, budget: int)
    returns (included: seq<Row>, dropped: seq<Row>, usedTokens: nat)
    requires used == BlockCost(start)
    ensures Selection(included, dropped) == Greedy(start, candidates, budget)
    ensures usedTokens == BlockCost(included)
  {
    hide LineCost, BlockCost;
    included, dropped, usedTokens := start, [], used;
    for i := 0 to |candidates|
      invariant Selection(included, dropped) == Greedy(start, candidates[..i], budget)
      invariant usedTokens == BlockCost(included)
    {
      assert candidates[..i + 1][..i] == candidates[..i];
      var lineTokens, separatorTokens := LineCost(candidates[i]), if included != [] then 1 else 0;
      if usedTokens + separatorTokens + lineTokens > budget {
        dropped := dropped + [candidates[i]];
        continue;
      }
      BlockCostStep(included, candidates[i]);
      included := included + [candidates[i]];
      usedTokens := usedTokens + separatorTokens + lineTokens;
    }
    assert candidates[..|candidates|] == candidates;
  }

  method BuildProjectMemoryBlock(inPolicy: seq<Row>, outOfPolicy: seq<Row>, p: Policy, ctx: Context,
          scores: Scores, budget: int, ghost rows: seq<Row>)
    returns (r: Built)
    requires inPolicy == Filter(rows, InPolicy(p)) && outOfPolicy == Filter(rows, Not(InPolicy(p)))
    ensures r == Build(rows, p, ctx, scores, budget)
  {
    hide Filter, Sorted, PartitionRelevance, Greedy, BlockCost;
    if inPolicy == [] {
      return Block([], [], [], outOfPolicy, 0);
    }
    var sorted := Sorted(inPolicy, MemoryKey(p));
    var mandatory, relevance := Filter(sorted, IsMandatory(p)), Filter(sorted, Not(IsMandatory(p)));
    var kept, notRelevant := PartitionRelevanceRows(relevance, ctx, scores, p);
    var included, usedTokens := RenderMandatory(mandatory);
    if usedTokens > budget {
      return OverBudget(usedTokens);
    }
    var dropped;
    included, dropped, usedTokens := FillBudget(included, usedTokens, kept, budget);
    r := Block(included, dropped, notRelevant, outOfPolicy, usedTokens);
  }
}
