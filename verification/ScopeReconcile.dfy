/** Reconciling a triaged plan with the files the user named
    (backend/pipeline/file_scope_intent.py, the reconciliation half). */
module ScopeReconcile {
  import opened Wrappers
  import opened StableSort
  import opened ChunkPlan
  import opened RepoPath
  import FileMentions

  /** A chunk of the plan and its files_expected. */
  datatype ScopedChunk = ScopedChunk(plan: ChunkDefinition, files: seq<string>)

  // ----- lists of paths -----------------------------------------------------------------------

  /** The paths that normalize, normalized. */
  function Norms(paths: seq<string>): seq<string> {
    if paths == [] then []
    else
      var last := Normalize(paths[|paths| - 1]);
      Norms(paths[..|paths| - 1]) + (if last.Some? then [last.value] else [])
  }

  function NormSet(paths: seq<string>): set<string> {
    set p | p in Norms(paths)
  }

  /** First occurrences, without empty entries. */
  function Dedupe(items: seq<string>): (r: seq<string>)
    ensures forall x :: x in r <==> x in items && x != []
    ensures forall i, j :: 0 <= i < j < |r| ==> r[i] != r[j]
    ensures |r| <= |items|
  {
    if items == [] then []
    else
      var front, last := Dedupe(items[..|items| - 1]), items[|items| - 1];
      assert items == items[..|items| - 1] + [last];
      if last == [] || last in front then front else front + [last]
  }

  method DedupeItems(items: seq<string>) returns (distinct: seq<string>)
    ensures distinct == Dedupe(items)
  {
    var seen: set<string> := {};
    distinct := [];
    for i := 0 to |items|
      invariant distinct == Dedupe(items[..i])
      invariant forall x :: x in seen <==> x in distinct
    {
      assert items[..i + 1][..i] == items[..i];
      if items[i] != [] && items[i] !in seen {
        seen := seen + {items[i]};
        distinct := distinct + [items[i]];
      }
    }
    assert items[..|items|] == items;
  }

  function NormalForms(files: seq<string>): (r: seq<string>)
    ensures |r| == |files|
    ensures forall i :: 0 <= i < |files| ==> r[i] == NormalForm(files[i])
  {
    seq(|files|, i requires 0 <= i < |files| => NormalForm(files[i]))
  }

  function In(allowed: seq<string>): string -> bool {
    x => x in allowed
  }

  function InSet(allowed: set<string>): string -> bool {
    x => x in allowed
  }

  // ----- the constraints, grounded ----------------------------------------------------------------

  /** What the reconciliation works with. `grounded`: the path is indexed, lies in an indexed
      directory with a known extension, or is a sanctioned new file. */
  datatype Scope = Scope(
    forbidden: set<string>,
    reference: set<string>,
    allowAll: seq<string>,
    allow: seq<string>,
    preferred: seq<string>,
    single: bool)

  function MakeScope(total: int, count: nat, c: FileMentions.Constraints, grounded: string -> bool): Scope {
    var forbidden := NormSet(c.forbidden);
    var allowAll := Dedupe(Filter(Norms(c.allowlist), Not(InSet(forbidden))));
    Scope(forbidden, NormSet(c.reference), allowAll, Filter(allowAll, grounded),
          Dedupe(Filter(Filter(Norms(c.preferred), Not(InSet(forbidden))), grounded)),
          total == 1 && count == 1)
  }

  /** The files of any chunk of the incoming plan. */
  function RunScope(chunks: seq<ScopedChunk>): set<string> {
    if chunks == [] then {} else RunScope(chunks[..|chunks| - 1]) + NormSet(chunks[|chunks| - 1].files)
  }

  // ----- one chunk ------------------------------------------------------------------------------------

  /** The files without the forbidden ones. */
  function Permitted(files: seq<string>, s: Scope): seq<string> {
    Filter(Dedupe(NormalForms(files)), Not(InSet(s.forbidden)))
  }

  predicate RemovesForbidden(files: seq<string>, s: Scope) {
    exists x :: x in Dedupe(NormalForms(files)) && x in s.forbidden
  }

  predicate RemovesExtras(files: seq<string>, s: Scope) {
    s.allowAll != [] && exists x :: x in Permitted(files, s) && x !in s.allow
  }

  /** The files after the allowlist had its say: seeded in a single-chunk plan, capped in any
      other. */
  function Capped(files: seq<string>, s: Scope): seq<string> {
    if s.allowAll == [] then Permitted(files, s)
    else if s.single then s.allow
    else Filter(Permitted(files, s), In(s.allow))
  }

  /** Requested files the plan does not have yet. */
  function Added(files: seq<string>, s: Scope): seq<string> {
    if s.single && s.allowAll == [] then Filter(s.preferred, Not(In(Capped(files, s)))) else []
  }

  function FinalFiles(files: seq<string>, s: Scope): seq<string> {
    Dedupe(Capped(files, s) + Added(files, s))
  }

  predicate Hardens(files: seq<string>, first: bool, s: Scope) {
    || RemovesForbidden(files, s)
    || RemovesExtras(files, s)
    || (first && s.allowAll != [] && s.allowAll != s.allow)
  }

  /** Prose names a grounded file that is in nobody's scope. */
  predicate ProseMismatch(files: seq<string>, prose: seq<string>, s: Scope, runScope: set<string>) {
    exists p :: p in prose && p !in Capped(files, s) + Added(files, s) && p !in s.forbidden && p !in s.reference
        && p !in runScope
  }

  function Flagged(plan: ChunkDefinition, harden: bool, review: bool): ChunkDefinition {
    if harden then plan.(needsReview := true, risk := High)
    else if review then plan.(needsReview := true)
    else plan
  }

  function ReconcileChunk(c: ScopedChunk, prose: seq<string>, first: bool, s: Scope,
          runScope: set<string>): ScopedChunk {
    ScopedChunk(Flagged(c.plan, Hardens(c.files, first, s), ProseMismatch(c.files, prose, s, runScope)),
        FinalFiles(c.files, s))
  }

  // ----- the whole plan ------------------------------------------------------------------------------------

  function ReconcileAll(chunks: seq<ScopedChunk>, prose: seq<seq<string>>, s: Scope,
          runScope: set<string>): (r: seq<ScopedChunk>)
    requires |prose| == |chunks|
    ensures |r| == |chunks|
    ensures forall i :: 0 <= i < |chunks| ==> r[i] == ReconcileChunk(chunks[i], prose[i], i == 0, s, runScope)
  {
    seq(|chunks|, i requires 0 <= i < |chunks| => ReconcileChunk(chunks[i], prose[i], i == 0, s, runScope))
  }

  /** An allowed file that no chunk of a longer plan has. */
  predicate AllowedButMissing(chunks: seq<ScopedChunk>, s: Scope) {
    !s.single && exists x :: x in s.allow && x !in RunScope(chunks)
  }

  /** The reconciled plan. `prose[i]`: the grounded files named in chunk i's own text. */
  function Reconcile(total: int, chunks: seq<ScopedChunk>, c: FileMentions.Constraints, grounded: string -> bool,
          prose: seq<seq<string>>): (r: seq<ScopedChunk>)
    requires |prose| == |chunks|
    ensures |r| == |chunks|
  {
    var s := MakeScope(total, |chunks|, c, grounded);
    var r := ReconcileAll(chunks, prose, s, RunScope(chunks));
    if r != [] && AllowedButMissing(r, s) then r[0 := r[0].(plan := Flagged(r[0].plan, true, false))] else r
  }

  /** One chunk, step by step, as the loop body does it. */
  method ReconcileOne(c: ScopedChunk, prose: seq<string>, first: bool, s: Scope, runScope: set<string>)
    returns (r: ScopedChunk)
    ensures r == ReconcileChunk(c, prose, first, s, runScope)
  {
    hide Filter, NormalForm, Dedupe;
    var files := DedupeItems(NormalForms(c.files));
    var harden, needsReview := false, false;
    if exists x :: x in files && x in s.forbidden {
      harden := true;
    }
    files := Filter(files, Not(InSet(s.forbidden)));
    assert files == Permitted(c.files, s);
    if s.allowAll != [] {
      if exists x :: x in files && x !in s.allow {
        harden := true;
      }
      if s.single {
        files := s.allow;
      } else {
        files := Filter(files, In(s.allow));
      }
      if first && s.allowAll != s.allow {
        harden := true;
      }
    }
    assert files == Capped(c.files, s);
    assert harden == Hardens(c.files, first, s);
    var added: seq<string> := [];
    if s.single && s.allowAll == [] {
      added := Filter(s.preferred, Not(In(files)));
    }
    assert added == Added(c.files, s);
    files := files + added;
    if exists p :: p in prose && p !in files && p !in s.forbidden && p !in s.reference && p !in runScope {
      needsReview := true;
    }
    assert needsReview == ProseMismatch(c.files, prose, s, runScope);
    files := DedupeItems(files);
    r := ScopedChunk(Flagged(c.plan, harden, needsReview), files);
  }

  method ReconcileFileScope(total: int, chunks: seq<ScopedChunk>, c: FileMentions.Constraints,
          grounded: string -> bool, prose: seq<seq<string>>)
    returns (newChunks: seq<ScopedChunk>)
    requires |prose| == |chunks|
    ensures newChunks == Reconcile(total, chunks, c, grounded, prose)
  {
    hide ReconcileChunk, MakeScope, NormSet, Flagged;
    var s := MakeScope(total, |chunks|, c, grounded);
    var runScope: set<string> := {};
    for i := 0 to |chunks|
      invariant runScope == RunScope(chunks[..i])
    {
      assert chunks[..i + 1][..i] == chunks[..i];
      runScope := runScope + NormSet(chunks[i].files);
    }
    assert chunks[..|chunks|] == chunks;
    newChunks := [];
    for i := 0 to |chunks|
      invariant |newChunks| == i
      invariant forall k :: 0 <= k < i ==> newChunks[k] == ReconcileChunk(chunks[k], prose[k], k == 0, s, runScope)
    {
      var r := ReconcileOne(chunks[i], prose[i], i == 0, s, runScope);
      newChunks := newChunks + [r];
    }
    assert newChunks == ReconcileAll(chunks, prose, s, runScope);
    if newChunks != [] && !s.single && s.allow != [] {
      var present: set<string> := {};
      for i := 0 to |newChunks|
        invariant present == RunScope(newChunks[..i])
      {
        assert newChunks[..i + 1][..i] == newChunks[..i];
        present := present + NormSet(newChunks[i].files);
      }
      assert newChunks[..|newChunks|] == newChunks;
      if exists x :: x in s.allow && x !in present {
        newChunks := newChunks[0 := newChunks[0].(plan := Flagged(newChunks[0].plan, true, false))];
      }
    }
  }

  // ----- what the reconciliation promises ------------------------------------------------------------

  /** The reconciled plan's files, chunk by chunk. */
  lemma FilesOf(total: int, chunks: seq<ScopedChunk>, c: FileMentions.Constraints, grounded: string -> bool,
          prose: seq<seq<string>>, i: nat)
    requires |prose| == |chunks| && i < |chunks|
    ensures Reconcile(total, chunks, c, grounded, prose)[i].files ==
              FinalFiles(chunks[i].files, MakeScope(total, |chunks|, c, grounded))
  {
    hide FinalFiles, MakeScope;
  }

  /** A scope made from constraints: grounded and permitted entries only. */
  lemma ScopeFacts(total: int, count: nat, c: FileMentions.Constraints, grounded: string -> bool)
    ensures var s := MakeScope(total, count, c, grounded);
            && (forall x :: x in s.allow ==> x in s.allowAll && grounded(x) && x !in s.forbidden && x != [])
            && (forall x :: x in s.preferred ==>
                grounded(x) && x in NormSet(c.preferred) && x !in s.forbidden && x != [])
            && Dedupe(s.allow) == s.allow && Dedupe(s.preferred) == s.preferred
            && (s.allowAll == [] ==> s.allow == [])
  {
    var s := MakeScope(total, count, c, grounded);
    var permitted := Filter(Norms(c.allowlist), Not(InSet(s.forbidden)));
    forall x | x in s.allowAll ensures x !in s.forbidden {
      assert x in permitted && Not(InSet(s.forbidden))(x);
    }
    forall x | x in s.preferred ensures x !in s.forbidden && x in Norms(c.preferred) {
      assert x in Filter(Norms(c.preferred), Not(InSet(s.forbidden))) && Not(InSet(s.forbidden))(x);
    }
    FilterKeepsDistinct(s.allowAll, grounded);
    DedupeFixed(s.allow);
    DedupeFixed(s.preferred);
  }

  lemma {:induction false} FilterKeepsDistinct(s: seq<string>, keep: string -> bool)
    requires FileMentions.NoDuplicates(s)
    ensures FileMentions.NoDuplicates(Filter(s, keep))
    decreases |s|
  {
    if s != [] {
      FilterKeepsDistinct(s[..|s| - 1], keep);
      assert s[|s| - 1] !in s[..|s| - 1];
    }
  }

  lemma {:induction false} DedupeFixed(s: seq<string>)
    requires FileMentions.NoDuplicates(s) && [] !in s
    ensures Dedupe(s) == s
    decreases |s|
  {
    if s != [] {
      DedupeFixed(s[..|s| - 1]);
      assert s == s[..|s| - 1] + [s[|s| - 1]];
      assert s[|s| - 1] in s;
    }
  }

  /** Safety: no chunk keeps a forbidden file; under an allowlist every chunk stays within its
      grounded entries, and a single chunk gets exactly these; without one, the only files
      that were not in the plan are grounded requested ones of a single-chunk plan. Files that
      were only referred to, or only named in prose, are never added. */
  lemma ReconciledScopeIsSafe(total: int, chunks: seq<ScopedChunk>, c: FileMentions.Constraints,
          grounded: string -> bool, prose: seq<seq<string>>, i: nat)
    requires |prose| == |chunks| && i < |chunks|
    ensures var s := MakeScope(total, |chunks|, c, grounded);
            var files := Reconcile(total, chunks, c, grounded, prose)[i].files;
            && (forall x :: x in files ==> x !in NormSet(c.forbidden))
            && (s.allowAll != [] ==> forall x :: x in files ==> x in s.allow && grounded(x))
            && (s.allowAll != [] && s.single ==> files == s.allow)
            && (s.allowAll == [] ==>
                  forall x :: x in files && x !in NormalForms(chunks[i].files) ==>
                    s.single && x in NormSet(c.preferred) && grounded(x))
  {
    hide Filter, Dedupe, NormalForm, NormSet;
    FilesOf(total, chunks, c, grounded, prose, i);
    ScopeFacts(total, |chunks|, c, grounded);
    var s := MakeScope(total, |chunks|, c, grounded);
    CappedFacts(chunks[i].files, s);
  }

  lemma CappedFacts(files: seq<string>, s: Scope)
    requires forall x :: x in s.allow ==> x !in s.forbidden
    requires forall x :: x in s.preferred ==> x !in s.forbidden
    ensures forall x :: x in FinalFiles(files, s) ==> x !in s.forbidden
    ensures s.allowAll != [] ==> forall x :: x in FinalFiles(files, s) ==> x in s.allow
    ensures s.allowAll != [] && s.single && Dedupe(s.allow) == s.allow ==> FinalFiles(files, s) == s.allow
    ensures s.allowAll == [] ==>
              forall x :: x in FinalFiles(files, s) && x !in NormalForms(files) ==> s.single && x in s.preferred
  {
    hide Filter, Dedupe, NormalForm;
    forall x | x in Permitted(files, s) ensures x !in s.forbidden && x in NormalForms(files) {
      assert Not(InSet(s.forbidden))(x);
    }
    forall x | x in Capped(files, s) ensures x !in s.forbidden && (s.allowAll != [] ==> x in s.allow) {
      assert s.allowAll != [] && !s.single ==> In(s.allow)(x);
    }
    assert s.allowAll != [] ==> Capped(files, s) + Added(files, s) == Capped(files, s);
  }

  /** Numbers and dependencies are kept, review and risk only rise, and a valid plan stays
      valid: in particular a high-risk chunk still requires review. */
  lemma ReconciledPlanIsValid(total: int, chunks: seq<ScopedChunk>, c: FileMentions.Constraints,
          grounded: string -> bool, prose: seq<seq<string>>)
    requires |prose| == |chunks|
    ensures var r := Reconcile(total, chunks, c, grounded, prose);
            && (forall i :: 0 <= i < |chunks| ==>
                  && r[i].plan.number == chunks[i].plan.number && r[i].plan.dependsOn == chunks[i].plan.dependsOn
                  && (chunks[i].plan.needsReview ==> r[i].plan.needsReview)
                  && (r[i].plan.risk == chunks[i].plan.risk || r[i].plan.risk == High))
            && (ValidPlan(PlanOf(chunks)) ==> ValidPlan(PlanOf(r)))
  {
    hide Hardens, ProseMismatch, FinalFiles, MakeScope, AllowedButMissing;
    var r := Reconcile(total, chunks, c, grounded, prose);
    assert forall i :: 0 <= i < |chunks| ==> PlanOf(r)[i] == r[i].plan && PlanOf(chunks)[i] == chunks[i].plan;
  }

  function PlanOf(chunks: seq<ScopedChunk>): (r: seq<ChunkDefinition>)
    ensures |r| == |chunks| && forall i :: 0 <= i < |chunks| ==> r[i] == chunks[i].plan
  {
    seq(|chunks|, i requires 0 <= i < |chunks| => chunks[i].plan)
  }
}
