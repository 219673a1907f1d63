/** Chunk plans: the validators that give a plan its 1..N numbering and its
    backward-only dependencies (backend/models/chunk.py). */
module ChunkPlan {

  datatype Risk = Low | Medium | High

  datatype ChunkDefinition = ChunkDefinition(number: int, dependsOn: seq<int>, risk: Risk, needsReview: bool)

  /** What the two validators promise about an accepted plan, said without their loops. */
  predicate ValidPlan(plan: seq<ChunkDefinition>) {
    && |plan| >= 1
    && (forall i :: 0 <= i < |plan| ==> plan[i].number == i + 1)
    && (forall i :: 0 <= i < |plan| ==> forall d :: d in plan[i].dependsOn ==> 1 <= d <= i)
    && (forall i :: 0 <= i < |plan| ==> plan[i].risk == High ==> plan[i].needsReview)
  }

  /** The dependencies of chunk `n` of a valid plan. */
  function DependenciesOf(plan: seq<ChunkDefinition>, n: int): seq<int>
    requires 1 <= n <= |plan|
  {
    plan[n - 1].dependsOn
  }

  /** What the per-chunk validator accepts. */
  predicate ValidChunk(chunk: ChunkDefinition) {
    && chunk.number >= 1
    && (forall d :: d in chunk.dependsOn ==> 1 <= d < chunk.number)
    && (chunk.risk == High ==> chunk.needsReview)
  }

  /** The per-chunk validator: field bounds, then the dependency loop, then the risk rule. */
  method ValidateChunk(chunk: ChunkDefinition) returns (ok: bool)
    ensures ok <==> ValidChunk(chunk)
  {
    if chunk.number < 1 {
      return false;
    }
    for i := 0 to |chunk.dependsOn|
      invariant forall k :: 0 <= k < i ==> 1 <= chunk.dependsOn[k] < chunk.number
    {
      var dependency := chunk.dependsOn[i];
      assert dependency in chunk.dependsOn;
      if dependency >= chunk.number || dependency < 1 {
        return false;
      }
    }
    ok := chunk.risk != High || chunk.needsReview;
  }

  /** The whole-plan validator, with the growing set of chunk numbers already seen. */
  method ValidateTriage(totalChunks: int, plan: seq<ChunkDefinition>) returns (ok: bool)
    ensures ok <==> totalChunks == |plan| && ValidPlan(plan)
  {
    if totalChunks < 1 {
      return false;
    }
    for i := 0 to |plan|
      invariant forall k :: 0 <= k < i ==> ValidChunk(plan[k])
    {
      var chunkOk := ValidateChunk(plan[i]);
      if !chunkOk {
        return false;
      }
    }
    if totalChunks != |plan| {
      return false;
    }
    for i := 0 to |plan|
      invariant forall k :: 0 <= k < i ==> plan[k].number == k + 1
    {
      if plan[i].number != i + 1 {
        return false;
      }
    }
    var existing: set<int> := {};
    for i := 0 to |plan|
      invariant forall d :: d in existing <==> 1 <= d <= i
      invariant forall k :: 0 <= k < i ==> forall d :: d in plan[k].dependsOn ==> 1 <= d <= k
    {
      for j := 0 to |plan[i].dependsOn|
        invariant forall k :: 0 <= k < j ==> plan[i].dependsOn[k] in existing
      {
        var dependency := plan[i].dependsOn[j];
        assert dependency in plan[i].dependsOn && 1 <= dependency < plan[i].number;
        if dependency !in existing {
          return false;
        }
      }
      existing := existing + {plan[i].number};
    }
    ok := true;
  }

  /** The dependency loop of the whole-plan validator never rejects anything: once every chunk
      passed its own validator and the numbers are 1..N, each dependency has been seen. */
  lemma DependencyLoopIsRedundant(plan: seq<ChunkDefinition>, i: nat, d: int)
    requires forall k :: 0 <= k < |plan| ==> ValidChunk(plan[k]) && plan[k].number == k + 1
    requires i < |plan| && d in plan[i].dependsOn
    ensures exists k :: 0 <= k < i && plan[k].number == d
  {
    assert ValidChunk(plan[i]);
    assert plan[d - 1].number == d;
  }
}
