/** What reconciling a plan with the user's file lists does to it, said of the plan and the lists
    alone (backend/pipeline/file_scope_intent.py). */
module ScopeOutcome {
  import opened Wrappers
  import opened StableSort
  import opened ChunkPlan
  import opened RepoPath
  import opened ScopeReconcile
  import opened SecondPass
  import FileMentions

  /** Some entry of the list normalizes to this path. */
  predicate Names(list: seq<string>, x: string) {
    exists p :: p in list && Normalize(p) == Some(x)
  }

  /** The path is on the user's allowlist and not forbidden. */
  predicate Allowed(c: FileMentions.Constraints, x: string) {
    Names(c.allowlist, x) && !Names(c.forbidden, x)
  }

  /** The user gave an allowlist that has something to say. */
  predicate HasAllowlist(c: FileMentions.Constraints) {
    exists p :: p in c.allowlist && Normalize(p).Some? && !Names(c.forbidden, Normalize(p).value)
  }

  /** The user asked for the file, and it may be added. */
  predicate Wanted(c: FileMentions.Constraints, grounded: string -> bool, x: string) {
    Names(c.preferred, x) && !Names(c.forbidden, x) && grounded(x)
  }

  /** One chunk, and the plan says so. */
  predicate OneChunk(total: int, chunks: seq<ScopedChunk>) {
    total == 1 && |chunks| == 1
  }

  /** The path is the normal form of one of the planned files. */
  predicate Planned(files: seq<string>, x: string) {
    exists f :: f in files && NormalForm(f) == x
  }

  // ----- the scope, read off the lists ------------------------------------------------------------

  lemma NamesIff(list: seq<string>, x: string)
    ensures x in NormSet(list) <==> Names(list, x)
  {
    hide Normalize;
    NormsIff(list, x);
  }

  lemma ScopeIs(total: int, chunks: seq<ScopedChunk>, c: FileMentions.Constraints, grounded: string -> bool, x: string)
    ensures var s := MakeScope(total, |chunks|, c, grounded);
            && s.single == OneChunk(total, chunks)
            && (x in s.forbidden <==> Names(c.forbidden, x)) && (x in s.reference <==> Names(c.reference, x))
            && (x in s.allowAll <==> Allowed(c, x)) && (x in s.allow <==> Allowed(c, x) && grounded(x))
            && (x in s.preferred <==> Wanted(c, grounded, x))
  {
    hide Normalize, Filter, Dedupe, NormSet, Norms;
    NamesIff(c.forbidden, x);
    NamesIff(c.reference, x);
    NormsIff(c.allowlist, x);
    NormsIff(c.preferred, x);
    NamedIsSomething(c, x);
    var forbidden := NormSet(c.forbidden);
    assert Not(InSet(forbidden))(x) <==> x !in forbidden;
  }

  lemma NamedIsSomething(c: FileMentions.Constraints, x: string)
    ensures Names(c.allowlist, x) || Names(c.preferred, x) ==> x != []
  {}

  lemma AllowlistIff(total: int, chunks: seq<ScopedChunk>, c: FileMentions.Constraints, grounded: string -> bool)
    ensures MakeScope(total, |chunks|, c, grounded).allowAll != [] <==> HasAllowlist(c)
  {
    hide MakeScope, Normalize, Names;
    var s := MakeScope(total, |chunks|, c, grounded);
    HeadIsIn(s.allowAll);
    forall x ensures x in s.allowAll <==> Allowed(c, x) {
      ScopeIs(total, chunks, c, grounded, x);
    }
    AllowlistHas(c);
  }

  lemma AllowlistHas(c: FileMentions.Constraints)
    ensures HasAllowlist(c) <==> exists x :: Allowed(c, x)
  {
    hide Normalize;
    if HasAllowlist(c) {
      var p :| p in c.allowlist && Normalize(p).Some? && !Names(c.forbidden, Normalize(p).value);
      assert Allowed(c, Normalize(p).value);
    }
  }

  // ----- files -------------------------------------------------------------------------------------

  /** Which files chunk i of the reconciled plan has: in a plan of one chunk with an allowlist exactly
      its grounded entries; otherwise the planned files, without forbidden ones and without those
      outside the allowlist, and in a plan of one chunk also the grounded requested files. */
  lemma ReconciledFilesIff(total: int, chunks: seq<ScopedChunk>, c: FileMentions.Constraints,
          grounded: string -> bool, prose: seq<seq<string>>, i: nat, x: string)
    requires |prose| == |chunks| && i < |chunks|
    ensures x in Reconcile(total, chunks, c, grounded, prose)[i].files <==>
              if OneChunk(total, chunks) && HasAllowlist(c) then Allowed(c, x) && grounded(x)
              else
                || (Planned(chunks[i].files, x) && x != [] && !Names(c.forbidden, x)
                    && (HasAllowlist(c) ==> Allowed(c, x) && grounded(x)))
                || (OneChunk(total, chunks) && Wanted(c, grounded, x))
  {
    hide MakeScope, Reconcile, FinalFiles, Proper, NormalForm, Names, HasAllowlist, Allowed, Wanted;
    var s := MakeScope(total, |chunks|, c, grounded);
    MadeProper(total, |chunks|, c, grounded);
    FilesOf(total, chunks, c, grounded, prose, i);
    ListedIs(chunks[i].files, s, x);
    ScopeIs(total, chunks, c, grounded, x);
    AllowlistIff(total, chunks, c, grounded);
  }

  /** In any longer plan nothing is added: every file of a chunk is the normal form of one of its
      planned files. */
  lemma NothingAddedToLongerPlans(total: int, chunks: seq<ScopedChunk>, c: FileMentions.Constraints,
          grounded: string -> bool, prose: seq<seq<string>>, i: nat)
    requires |prose| == |chunks| && i < |chunks| && !(total == 1 && |chunks| == 1)
    ensures forall x :: x in Reconcile(total, chunks, c, grounded, prose)[i].files ==> Planned(chunks[i].files, x)
  {
    hide Reconcile, Planned, Names, HasAllowlist, Allowed, Wanted;
    forall x | x in Reconcile(total, chunks, c, grounded, prose)[i].files ensures Planned(chunks[i].files, x) {
      ReconciledFilesIff(total, chunks, c, grounded, prose, i, x);
    }
  }

  // ----- flags -------------------------------------------------------------------------------------

  /** A planned file was taken out because it is forbidden. */
  predicate TakesForbidden(files: seq<string>, c: FileMentions.Constraints) {
    exists x :: x in NormalForms(files) && x != [] && Names(c.forbidden, x)
  }

  /** A planned file is outside the allowlist. */
  predicate TakesExtra(files: seq<string>, c: FileMentions.Constraints, grounded: string -> bool) {
    HasAllowlist(c)
    && exists x :: x in NormalForms(files) && x != [] && !Names(c.forbidden, x) && !(Allowed(c, x) && grounded(x))
  }

  /** The allowlist has an entry the repository does not know. */
  ghost predicate UnknownAllowed(c: FileMentions.Constraints, grounded: string -> bool) {
    exists x :: Allowed(c, x) && !grounded(x)
  }

  /** A grounded entry of the allowlist that no chunk of the reconciled plan has. */
  ghost predicate AllowedNowhere(r: seq<ScopedChunk>, c: FileMentions.Constraints, grounded: string -> bool) {
    exists x :: Allowed(c, x) && grounded(x) && forall k :: 0 <= k < |r| ==> !Names(r[k].files, x)
  }

  /** The chunk's own text names a file that is in its scope neither before nor after, nor in that of
      any other chunk, and that the user neither forbade nor merely referred to. */
  predicate NamesUnscoped(chunks: seq<ScopedChunk>, files: seq<string>, prose: seq<string>,
          c: FileMentions.Constraints) {
    exists p :: p in prose && p !in files && !Names(c.forbidden, p) && !Names(c.reference, p)
                && forall k :: 0 <= k < |chunks| ==> !Names(chunks[k].files, p)
  }

  lemma TakesIff(total: int, chunks: seq<ScopedChunk>, c: FileMentions.Constraints, grounded: string -> bool,
          files: seq<string>)
    ensures var s := MakeScope(total, |chunks|, c, grounded);
            && (RemovesForbidden(files, s) <==> TakesForbidden(files, c))
            && (RemovesExtras(files, s) <==> TakesExtra(files, c, grounded))
  {
    hide MakeScope, NormalForms, Dedupe, Filter, Names, HasAllowlist, Allowed, Wanted;
    var s := MakeScope(total, |chunks|, c, grounded);
    AllowlistIff(total, chunks, c, grounded);
    forall x ensures x in s.forbidden <==> Names(c.forbidden, x)
             ensures x in s.allow <==> Allowed(c, x) && grounded(x)
             ensures x in Permitted(files, s) <==> x in NormalForms(files) && x != [] && x !in s.forbidden
    {
      ScopeIs(total, chunks, c, grounded, x);
      assert Not(InSet(s.forbidden))(x) <==> x !in s.forbidden;
    }
  }

  lemma UnknownIff(total: int, chunks: seq<ScopedChunk>, c: FileMentions.Constraints, grounded: string -> bool)
    ensures var s := MakeScope(total, |chunks|, c, grounded);
            s.allowAll != [] && s.allowAll != s.allow <==> UnknownAllowed(c, grounded)
  {
    hide Dedupe, Norms, NormSet, Filter, Allowed;
    var s := MakeScope(total, |chunks|, c, grounded);
    forall x ensures x in s.allowAll <==> Allowed(c, x)
             ensures x in s.allow <==> Allowed(c, x) && grounded(x)
    {
      ScopeIs(total, chunks, c, grounded, x);
    }
    FilterAll(s.allowAll, grounded);
    if UnknownAllowed(c, grounded) {
      var x :| Allowed(c, x) && !grounded(x);
      assert x in s.allowAll && x !in s.allow;
    }
  }

  lemma MissingNowhere(total: int, chunks: seq<ScopedChunk>, c: FileMentions.Constraints, grounded: string -> bool,
          r: seq<ScopedChunk>)
    ensures AllowedButMissing(r, MakeScope(total, |chunks|, c, grounded)) <==>
              !OneChunk(total, chunks) && AllowedNowhere(r, c, grounded)
  {
    hide MakeScope, RunScope, Normalize, Allowed;
    var s := MakeScope(total, |chunks|, c, grounded);
    forall x ensures s.single == OneChunk(total, chunks)
             ensures x in s.allow <==> Allowed(c, x) && grounded(x)
             ensures x in RunScope(r) <==> exists k :: 0 <= k < |r| && Names(r[k].files, x)
    {
      ScopeIs(total, chunks, c, grounded, x);
      InSomeChunk(r, x);
    }
  }

  lemma InSomeChunk(r: seq<ScopedChunk>, x: string)
    ensures x in RunScope(r) <==> exists k :: 0 <= k < |r| && Names(r[k].files, x)
  {
    hide RunScope, Normalize;
    RunScopeIff(r, x);
  }

  lemma ProseIff(total: int, chunks: seq<ScopedChunk>, c: FileMentions.Constraints, grounded: string -> bool,
          files: seq<string>, prose: seq<string>)
    ensures var s := MakeScope(total, |chunks|, c, grounded);
            ProseMismatch(files, prose, s, RunScope(chunks)) <==> NamesUnscoped(chunks, FinalFiles(files, s), prose, c)
  {
    hide MakeScope, RunScope, Capped, Added, FinalFiles, Names, Proper;
    var s := MakeScope(total, |chunks|, c, grounded);
    MadeProper(total, |chunks|, c, grounded);
    FinalIs(files, s);
    forall p ensures p in s.forbidden <==> Names(c.forbidden, p)
             ensures p in s.reference <==> Names(c.reference, p)
             ensures p in RunScope(chunks) <==> exists k :: 0 <= k < |chunks| && Names(chunks[k].files, p)
    {
      ScopeIs(total, chunks, c, grounded, p);
      InSomeChunk(chunks, p);
    }
  }

  /** Everything that raises chunk i to high risk. */
  ghost predicate Hardened(total: int, chunks: seq<ScopedChunk>, c: FileMentions.Constraints,
          grounded: string -> bool, r: seq<ScopedChunk>, i: nat)
    requires i < |chunks|
  {
    || TakesForbidden(chunks[i].files, c)
    || TakesExtra(chunks[i].files, c, grounded)
    || (i == 0 && UnknownAllowed(c, grounded))
    || (i == 0 && !OneChunk(total, chunks) && AllowedNowhere(r, c, grounded))
  }

  /** The flags of chunk i: high risk with review if a file was taken out, or if it is the first and
      an allowed file is unknown or in no chunk of a longer plan; review alone if its text names a
      file nobody has in scope; and as they were otherwise. */
  lemma ReconciledFlags(total: int, chunks: seq<ScopedChunk>, c: FileMentions.Constraints,
          grounded: string -> bool, prose: seq<seq<string>>, i: nat)
    requires |prose| == |chunks| && i < |chunks|
    ensures var r := Reconcile(total, chunks, c, grounded, prose);
            r[i].plan ==
            if Hardened(total, chunks, c, grounded, r, i) then chunks[i].plan.(needsReview := true, risk := High)
            else if NamesUnscoped(chunks, r[i].files, prose[i], c) then chunks[i].plan.(needsReview := true)
            else chunks[i].plan
  {
    hide MakeScope, FinalFiles, RemovesForbidden, RemovesExtras, TakesForbidden, TakesExtra, UnknownAllowed;
    hide AllowedNowhere, AllowedButMissing, ProseMismatch, NamesUnscoped, RunScope, OneChunk;
    var s := MakeScope(total, |chunks|, c, grounded);
    var all, r := ReconcileAll(chunks, prose, s, RunScope(chunks)), Reconcile(total, chunks, c, grounded, prose);
    TakesIff(total, chunks, c, grounded, chunks[i].files);
    UnknownIff(total, chunks, c, grounded);
    MissingNowhere(total, chunks, c, grounded, all);
    SameNowhere(all, r, c, grounded);
    ProseIff(total, chunks, c, grounded, chunks[i].files, prose[i]);
  }

  lemma SameNowhere(a: seq<ScopedChunk>, b: seq<ScopedChunk>, c: FileMentions.Constraints, grounded: string -> bool)
    requires |a| == |b| && forall k :: 0 <= k < |a| ==> a[k].files == b[k].files
    ensures AllowedNowhere(a, c, grounded) <==> AllowedNowhere(b, c, grounded)
  {
    hide Names, Allowed;
  }
}
