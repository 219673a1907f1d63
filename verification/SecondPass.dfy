/** What a second normalization of the reconciled files would change: which files move, which
    risks rise, and which forbidden paths the first pass did not recognise
    (backend/pipeline/file_scope_intent.py). */
module SecondPass {
  import opened Wrappers
  import opened StableSort
  import opened ChunkPlan
  import opened RepoPath
  import opened ScopeReconcile
  import FileMentions

  /** Normalizing it changes nothing. */
  predicate Fixed(path: string) {
    NormalForm(path) == path
  }

  /** The file's normal form is neither forbidden nor outside the allowlist. */
  predicate Survives(file: string, s: Scope) {
    NormalForm(file) != [] && NormalForm(file) !in s.forbidden && (s.allowAll != [] ==> NormalForm(file) in s.allow)
  }

  /** The single chunk gets the allowlist instead of its files. */
  predicate Seeded(s: Scope) {
    s.single && s.allowAll != []
  }

  /** What a scope made from constraints is like. */
  ghost predicate Proper(s: Scope) {
    && (forall x :: x in s.allow ==> x in s.allowAll && x !in s.forbidden && x != [])
    && (forall x :: x in s.preferred ==> x !in s.forbidden && x != [])
    && FileMentions.NoDuplicates(s.allow) && FileMentions.NoDuplicates(s.preferred)
  }

  lemma MadeProper(total: int, count: nat, c: FileMentions.Constraints, grounded: string -> bool)
    ensures Proper(MakeScope(total, count, c, grounded))
  {
    hide MakeScope, Dedupe;
    ScopeFacts(total, count, c, grounded);
    var s := MakeScope(total, count, c, grounded);
    assert FileMentions.NoDuplicates(Dedupe(s.allow)) && FileMentions.NoDuplicates(Dedupe(s.preferred));
  }

  // ----- the files of one chunk --------------------------------------------------------------

  /** Outside a seeded chunk, the planned files that stay are the normal forms that survive. */
  lemma CappedIff(files: seq<string>, s: Scope, x: string)
    requires !Seeded(s)
    ensures x in Capped(files, s) <==> exists f :: f in files && Survives(f, s) && NormalForm(f) == x
  {
    hide Filter, Dedupe, NormalForm;
    var forms := NormalForms(files);
    assert x in Permitted(files, s) <==> x in forms && x != [] && x !in s.forbidden by {
      assert x !in s.forbidden <==> Not(InSet(s.forbidden))(x);
    }
    assert x in s.allow <==> In(s.allow)(x);
    if x in forms {
      var i :| 0 <= i < |forms| && forms[i] == x;
      assert files[i] in files && NormalForm(files[i]) == x;
    }
    forall f | f in files ensures NormalForm(f) in forms {
      var i :| 0 <= i < |files| && files[i] == f;
      assert forms[i] == NormalForm(f);
    }
  }

  lemma {:induction false} FilterDistinct(s: seq<string>, keep: string -> bool)
    requires FileMentions.NoDuplicates(s)
    ensures FileMentions.NoDuplicates(Filter(s, keep))
  {
    FilterKeepsDistinct(s, keep);
  }

  lemma CappedDistinct(files: seq<string>, s: Scope)
    requires Proper(s)
    ensures FileMentions.NoDuplicates(Capped(files, s)) && [] !in Capped(files, s)
  {
    hide Filter, Dedupe, NormalForm;
    FilterDistinct(Dedupe(NormalForms(files)), Not(InSet(s.forbidden)));
    FilterDistinct(Permitted(files, s), In(s.allow));
  }

  lemma JoinedDistinct(a: seq<string>, b: seq<string>)
    requires FileMentions.NoDuplicates(a) && FileMentions.NoDuplicates(b) && forall x :: x in b ==> x !in a
    ensures FileMentions.NoDuplicates(a + b)
  {
    assert forall j :: 0 <= j < |b| ==> b[j] in b;
  }

  lemma HeadIsIn(s: seq<string>)
    ensures s == [] || s[0] in s
  {}

  /** No file twice, so the last deduplication finds nothing to do. */
  lemma FinalIs(files: seq<string>, s: Scope)
    requires Proper(s)
    ensures FinalFiles(files, s) == Capped(files, s) + Added(files, s)
    ensures forall x :: x in Added(files, s) <==>
              s.single && s.allowAll == [] && x in s.preferred && x !in Capped(files, s)
    ensures FileMentions.NoDuplicates(FinalFiles(files, s)) && [] !in FinalFiles(files, s)
  {
    hide Filter, Dedupe, NormalForm, Capped;
    CappedDistinct(files, s);
    FilterDistinct(s.preferred, Not(In(Capped(files, s))));
    forall x | x in s.preferred ensures x in Capped(files, s) <==> !Not(In(Capped(files, s)))(x) {}
    JoinedDistinct(Capped(files, s), Added(files, s));
    DedupeFixed(Capped(files, s) + Added(files, s));
  }

  /** Everything that may be listed after the first pass, by the incoming files and the scope. */
  ghost function Listed(files: seq<string>, s: Scope): set<string> {
    if Seeded(s) then set x | x in s.allow
    else (set f | f in files && Survives(f, s) :: NormalForm(f))
         + (if s.single then set x | x in s.preferred else {})
  }

  lemma ListedIs(files: seq<string>, s: Scope, x: string)
    requires Proper(s)
    ensures x in FinalFiles(files, s) <==> x in Listed(files, s)
    ensures x in FinalFiles(files, s) ==> x !in s.forbidden && x != [] && (s.allowAll != [] ==> x in s.allow)
  {
    hide Filter, Dedupe, NormalForm, Capped, Added, FinalFiles;
    FinalIs(files, s);
    CappedFacts(files, s);
    if Seeded(s) {
      SeededFiles(files, s);
    } else {
      CappedIff(files, s, x);
    }
  }

  lemma SeededFiles(files: seq<string>, s: Scope)
    requires Proper(s) && Seeded(s)
    ensures FinalFiles(files, s) == s.allow
  {
    hide Dedupe, Filter;
    DedupeFixed(s.allow);
    CappedFacts(files, s);
  }

  // ----- when the files are stable -----------------------------------------------------------

  /** No requested file that may be added would move by itself. */
  predicate RequestsFixed(s: Scope) {
    s.single && s.allowAll == [] ==> forall x :: x in s.preferred ==> Fixed(x)
  }

  /** The surviving files come out as their own normal forms. */
  predicate FilesSettle(files: seq<string>, s: Scope) {
    forall f :: f in files && Survives(f, s) ==> Fixed(NormalForm(f))
  }

  predicate AllFixed(files: seq<string>) {
    forall x :: x in files ==> Fixed(x)
  }

  lemma FixedStays(once: seq<string>, s: Scope)
    requires Proper(s) && !Seeded(s) && AllFixed(once) && FileMentions.NoDuplicates(once)
    requires forall x :: x in once ==> x != [] && x !in s.forbidden && (s.allowAll != [] ==> x in s.allow)
    ensures Capped(once, s) == once
  {
    hide Filter, Dedupe, NormalForm;
    assert NormalForms(once) == once by {
      assert forall i :: 0 <= i < |once| ==> once[i] in once && Fixed(once[i]);
    }
    DedupeFixed(once);
    FilterAll(once, Not(InSet(s.forbidden)));
    FilterAll(once, In(s.allow));
  }

  /** If the second pass changes nothing and no added file moves, no file moves. */
  lemma UnchangedMeansFixed(files: seq<string>, s: Scope)
    requires Proper(s) && !Seeded(s) && RequestsFixed(s)
    requires FinalFiles(FinalFiles(files, s), s) == FinalFiles(files, s)
    ensures AllFixed(FinalFiles(files, s))
  {
    hide Filter, Dedupe, NormalForm, Capped, Added, FinalFiles;
    var once := FinalFiles(files, s);
    FinalIs(once, s);
    forall x | x in Added(once, s) ensures false {
      assert x in once && Fixed(x);
      ListedIs(files, s, x);
      CappedIff(once, s, x);
    }
    HeadIsIn(Added(once, s));
    assert Capped(once, s) == once;
    FullyCapped(once, s);
  }

  /** None of the filters can have shortened the list. */
  lemma FullyCapped(files: seq<string>, s: Scope)
    requires Capped(files, s) == files && !Seeded(s)
    ensures AllFixed(files)
  {
    hide NormalForm, Dedupe, Filter;
    var forms := NormalForms(files);
    DedupeFull(forms);
    FilterFull(Dedupe(forms), Not(InSet(s.forbidden)));
    FilterFull(Permitted(files, s), In(s.allow));
    assert |files| <= |Permitted(files, s)| <= |Dedupe(forms)| <= |forms| == |files|;
    assert forms == files;
    forall x | x in files ensures Fixed(x) {
      var i :| 0 <= i < |files| && files[i] == x;
      assert forms[i] == x;
    }
  }

  lemma {:induction false} FilterFull(s: seq<string>, keep: string -> bool)
    ensures |Filter(s, keep)| == |s| ==> Filter(s, keep) == s
    decreases |s|
  {
    if s != [] {
      FilterFull(s[..|s| - 1], keep);
      assert s == s[..|s| - 1] + [s[|s| - 1]];
    }
  }

  lemma {:induction false} DedupeFull(s: seq<string>)
    ensures |Dedupe(s)| == |s| ==> Dedupe(s) == s
    decreases |s|
  {
    if s != [] {
      DedupeFull(s[..|s| - 1]);
      assert s == s[..|s| - 1] + [s[|s| - 1]];
    }
  }

  /** Settled files and fixed requests are all there is. */
  lemma SettledMeansFixed(files: seq<string>, s: Scope)
    requires Proper(s) && !Seeded(s) && RequestsFixed(s)
    ensures AllFixed(FinalFiles(files, s)) <==> FilesSettle(files, s)
  {
    hide Filter, Dedupe, NormalForm, Capped, Added, FinalFiles;
    forall x | x in FinalFiles(files, s) && FilesSettle(files, s) ensures Fixed(x) {
      ListedIs(files, s, x);
    }
    forall f | f in files && Survives(f, s) && AllFixed(FinalFiles(files, s)) ensures Fixed(NormalForm(f)) {
      ListedIs(files, s, NormalForm(f));
    }
  }

  lemma FixedIsStable(files: seq<string>, s: Scope)
    requires Proper(s) && !Seeded(s) && AllFixed(FinalFiles(files, s))
    ensures FinalFiles(FinalFiles(files, s), s) == FinalFiles(files, s)
  {
    hide Filter, Dedupe, NormalForm, Capped, Added, FinalFiles;
    var once := FinalFiles(files, s);
    FinalIs(files, s);
    FinalIs(once, s);
    forall x | x in once ensures x != [] && x !in s.forbidden && (s.allowAll != [] ==> x in s.allow) {
      ListedIs(files, s, x);
    }
    FixedStays(once, s);
    HeadIsIn(Added(once, s));
  }

  // ----- the same files -------------------------------------------------------------------------

  /** The list of a single chunk may get this file because it was requested. */
  predicate Requested(path: string, s: Scope) {
    s.single && path in s.preferred
  }

  /** No listed path moves out of the list, and every planned file that was not requested is what
      some listed path moves to. */
  ghost predicate SetStays(files: seq<string>, s: Scope) {
    && (forall x :: x in Listed(files, s) && Survives(x, s) ==> NormalForm(x) in Listed(files, s))
    && (forall f :: f in files && Survives(f, s) && !Requested(NormalForm(f), s) ==>
          exists x :: x in Listed(files, s) && NormalForm(x) == NormalForm(f))
  }

  ghost predicate SameFiles(a: seq<string>, b: seq<string>) {
    forall x :: x in a <==> x in b
  }

  /** As a set, a chunk's files survive a second pass exactly under that condition. */
  lemma SameFilesIff(files: seq<string>, s: Scope)
    requires Proper(s) && !Seeded(s)
    ensures SameFiles(FinalFiles(FinalFiles(files, s), s), FinalFiles(files, s)) <==> SetStays(files, s)
  {
    hide NormalForm, FinalFiles, Proper, Seeded;
    var once := FinalFiles(files, s);
    forall x
      ensures x in once <==> x in Listed(files, s)
      ensures x in FinalFiles(once, s) <==> x in Listed(once, s)
    {
      ListedIs(files, s, x);
      ListedIs(once, s, x);
    }
    ListedTwice(files, once, s);
  }

  /** Some file of the list survives as this path. */
  predicate ComesFrom(files: seq<string>, s: Scope, x: string) {
    exists f :: f in files && Survives(f, s) && NormalForm(f) == x
  }

  lemma ListedMeans(files: seq<string>, s: Scope, x: string)
    requires !Seeded(s)
    ensures x in Listed(files, s) <==> Requested(x, s) || ComesFrom(files, s, x)
  {
    hide NormalForm, Survives;
  }

  lemma ListedTwice(files: seq<string>, once: seq<string>, s: Scope)
    requires !Seeded(s) && forall x :: x in once <==> x in Listed(files, s)
    ensures (forall x :: x in Listed(once, s) <==> x in Listed(files, s)) <==> SetStays(files, s)
  {
    hide Listed, NormalForm, Seeded, Requested;
    forall x
      ensures x in Listed(files, s) <==> Requested(x, s) || ComesFrom(files, s, x)
      ensures x in Listed(once, s) <==> Requested(x, s) || ComesFrom(once, s, x)
    {
      ListedMeans(files, s, x);
      ListedMeans(once, s, x);
    }
    if SetStays(files, s) {
      forall x ensures x in Listed(once, s) <==> x in Listed(files, s) {
        TwiceStays(files, once, s, x);
      }
    } else if forall x :: x in Listed(once, s) <==> x in Listed(files, s) {
      StaysTwice(files, once, s);
    }
  }

  lemma TwiceStays(files: seq<string>, once: seq<string>, s: Scope, x: string)
    requires SetStays(files, s) && forall y :: y in once <==> y in Listed(files, s)
    requires x in Listed(files, s) <==> Requested(x, s) || ComesFrom(files, s, x)
    requires x in Listed(once, s) <==> Requested(x, s) || ComesFrom(once, s, x)
    ensures x in Listed(once, s) <==> x in Listed(files, s)
  {
    hide Listed, NormalForm, Requested;
    if ComesFrom(once, s, x) {
      var f :| f in once && Survives(f, s) && NormalForm(f) == x;
      assert f in Listed(files, s);
    }
    if ComesFrom(files, s, x) && !Requested(x, s) {
      var f :| f in files && Survives(f, s) && NormalForm(f) == x;
      var y :| y in Listed(files, s) && NormalForm(y) == x;
      assert y in once && Survives(y, s);
    }
  }

  lemma StaysTwice(files: seq<string>, once: seq<string>, s: Scope)
    requires forall y :: y in once <==> y in Listed(files, s)
    requires forall x :: x in Listed(files, s) <==> Requested(x, s) || ComesFrom(files, s, x)
    requires forall x :: x in Listed(once, s) <==> Requested(x, s) || ComesFrom(once, s, x)
    requires forall x :: x in Listed(once, s) <==> x in Listed(files, s)
    ensures SetStays(files, s)
  {
    hide Listed, NormalForm, Survives, Requested;
    forall x | x in Listed(files, s) && Survives(x, s) ensures NormalForm(x) in Listed(files, s) {
      assert x in once;
      assert ComesFrom(once, s, NormalForm(x));
    }
    forall f | f in files && Survives(f, s) && !Requested(NormalForm(f), s)
      ensures exists x :: x in Listed(files, s) && NormalForm(x) == NormalForm(f)
    {
      assert ComesFrom(files, s, NormalForm(f));
      assert NormalForm(f) in Listed(once, s);
      var x :| x in once && Survives(x, s) && NormalForm(x) == NormalForm(f);
      assert x in Listed(files, s);
    }
  }

  // ----- and in the same order --------------------------------------------------------------------

  /** Position of the first item, or the length if there is none. */
  function First(items: seq<string>, x: string): (i: nat)
    ensures i <= |items| && (i < |items| <==> x in items)
    ensures i < |items| ==> items[i] == x
    ensures forall k :: 0 <= k < i ==> items[k] != x
  {
    if items == [] then 0
    else
      var i := First(items[..|items| - 1], x);
      assert items == items[..|items| - 1] + [items[|items| - 1]];
      if i < |items| - 1 || items[i] == x then i else |items|
  }

  /** Where a path comes to stand: where the first listed path that moves to it stands, or behind
      all these, in the order of the requests. */
  function Place(listed: seq<string>, s: Scope, x: string): int {
    var i := First(NormalForms(listed), x);
    if i < |listed| then i else |listed| + First(s.preferred, x)
  }

  ghost predicate Rising(paths: seq<string>, key: string -> int) {
    forall i, j :: 0 <= i < j < |paths| ==> key(paths[i]) < key(paths[j])
  }

  function PlaceIn(listed: seq<string>, s: Scope): string -> int {
    x => Place(listed, s, x)
  }

  /** The planned files and the tail of added ones stand in the order of these places. */
  ghost predicate KeepsOrder(files: seq<string>, s: Scope) {
    var listed := Capped(files, s) + Added(files, s);
    Rising(listed, PlaceIn(listed, s))
  }

  lemma {:induction false} FilterRising(paths: seq<string>, keep: string -> bool, key: string -> int)
    requires Rising(paths, key)
    ensures Rising(Filter(paths, keep), key)
    decreases |paths|
  {
    if paths != [] {
      var front, last := paths[..|paths| - 1], paths[|paths| - 1];
      FilterRising(front, keep, key);
      forall x | x in Filter(front, keep) ensures key(x) < key(last) {
        var i :| 0 <= i < |front| && front[i] == x;
        assert paths[i] == x;
      }
    }
  }

  function FirstIn(items: seq<string>): string -> int {
    x => First(items, x)
  }

  lemma {:induction false} DedupeRising(items: seq<string>)
    ensures Rising(Dedupe(items), FirstIn(items))
    decreases |items|
  {
    if items != [] {
      var front, last := items[..|items| - 1], items[|items| - 1];
      assert items == front + [last];
      DedupeRising(front);
      forall x | x in front ensures First(items, x) == First(front, x) < |front| {}
      assert forall i :: 0 <= i < |Dedupe(front)| ==> Dedupe(front)[i] in front;
      if last != [] && last !in Dedupe(front) {
        assert last !in front;
        assert First(items, last) == |front|;
      }
    }
  }

  lemma {:induction false} RisingUnique(a: seq<string>, b: seq<string>, key: string -> int)
    requires Rising(a, key) && Rising(b, key) && SameFiles(a, b)
    ensures a == b
    decreases |a|
  {
    if a == [] {
      HeadIsIn(b);
    } else {
      var x := a[|a| - 1];
      assert x in a && x in b;
      var y := b[|b| - 1];
      assert y in b && y in a;
      var a', b' := a[..|a| - 1], b[..|b| - 1];
      assert a == a' + [x] && b == b' + [y];
      assert x == y;
      forall z ensures z in a' <==> z in b' {
        assert z in a <==> z in a' || z == x;
        assert z in b <==> z in b' || z == y;
        FrontLacksLast(a, key);
        FrontLacksLast(b, key);
      }
      RisingUnique(a', b', key);
    }
  }

  lemma FrontLacksLast(a: seq<string>, key: string -> int)
    requires a != [] && Rising(a, key)
    ensures a[|a| - 1] !in a[..|a| - 1]
  {}

  /** A pass lists what it keeps and adds in the order of the places. */
  lemma PassIsRising(once: seq<string>, s: Scope)
    requires Proper(s) && !Seeded(s)
    ensures Rising(FinalFiles(once, s), PlaceIn(once, s))
  {
    hide Filter, Dedupe, NormalForm, FinalFiles;
    var key, forms := PlaceIn(once, s), NormalForms(once);
    FinalIs(once, s);
    DedupeRising(forms);
    assert Rising(Dedupe(forms), key) by {
      assert forall i :: 0 <= i < |Dedupe(forms)| ==> Dedupe(forms)[i] in Dedupe(forms);
    }
    FilterRising(Dedupe(forms), Not(InSet(s.forbidden)), key);
    FilterRising(Permitted(once, s), In(s.allow), key);
    assert Rising(Capped(once, s), key);
    AddedRising(once, s);
    AddedBehind(once, s);
    JoinedRising(Capped(once, s), Added(once, s), key, |once|);
  }

  lemma JoinedRising(a: seq<string>, b: seq<string>, key: string -> int, bound: int)
    requires Rising(a, key) && Rising(b, key)
    requires (forall x :: x in a ==> key(x) < bound) && (forall x :: x in b ==> key(x) >= bound)
    ensures Rising(a + b, key)
  {
    var c := a + b;
    forall i, j | 0 <= i < j < |c| ensures key(c[i]) < key(c[j]) {
      if i < |a| <= j {
        assert c[i] in a && c[j] in b;
      }
    }
  }

  lemma AddedRising(once: seq<string>, s: Scope)
    requires Proper(s)
    ensures Rising(Added(once, s), FirstIn(s.preferred))
  {
    hide Filter, Capped;
    forall i | 0 <= i < |s.preferred| ensures First(s.preferred, s.preferred[i]) == i {}
    FilterRising(s.preferred, Not(In(Capped(once, s))), FirstIn(s.preferred));
  }

  /** What is kept stands where a listed path moves to, what is added behind all that. */
  lemma AddedBehind(once: seq<string>, s: Scope)
    requires Proper(s) && !Seeded(s)
    ensures forall x :: x in Capped(once, s) ==> Place(once, s, x) < |once|
    ensures forall x :: x in Added(once, s) ==> Place(once, s, x) == |once| + First(s.preferred, x)
  {
    hide Filter, Dedupe, NormalForm, Capped, Added, FinalFiles;
    var forms := NormalForms(once);
    FinalIs(once, s);
    forall x ensures x in Capped(once, s) <==> exists f :: f in once && Survives(f, s) && NormalForm(f) == x {
      CappedIff(once, s, x);
    }
    forall x | x in Capped(once, s) ensures x in forms {
      var f :| f in once && Survives(f, s) && NormalForm(f) == x;
      FormListed(once, f);
    }
    forall x | x in Added(once, s) ensures x !in forms {
      if x in forms {
        FormFrom(once, x);
      }
    }
  }

  lemma FormListed(files: seq<string>, f: string)
    requires f in files
    ensures NormalForm(f) in NormalForms(files)
  {
    hide NormalForm;
    var i :| 0 <= i < |files| && files[i] == f;
    assert NormalForms(files)[i] == NormalForm(f);
  }

  lemma FormFrom(files: seq<string>, x: string)
    requires x in NormalForms(files)
    ensures exists f :: f in files && NormalForm(f) == x
  {
    hide NormalForm;
    var i :| 0 <= i < |files| && NormalForms(files)[i] == x;
    assert files[i] in files;
  }

  /** When one chunk's files survive a second pass. */
  ghost predicate FilesStable(files: seq<string>, s: Scope) {
    || Seeded(s)
    || (if RequestsFixed(s) then FilesSettle(files, s) else SetStays(files, s) && KeepsOrder(files, s))
  }

  /** One chunk: a second pass changes no file exactly if the files were seeded; or every surviving
      planned file is its own normal form after one normalization; or, where a requested file is
      not, the listed paths move only among themselves and stand in the order they move to. */
  lemma FilesStableIff(files: seq<string>, s: Scope)
    requires Proper(s)
    ensures FinalFiles(FinalFiles(files, s), s) == FinalFiles(files, s) <==> FilesStable(files, s)
  {
    hide Filter, Dedupe, NormalForm, Capped, Added, FinalFiles, SetStays, KeepsOrder;
    var once := FinalFiles(files, s);
    if Seeded(s) {
      SeededFiles(files, s);
      SeededFiles(once, s);
    } else if RequestsFixed(s) {
      SettledMeansFixed(files, s);
      if AllFixed(once) {
        FixedIsStable(files, s);
      } else if FinalFiles(once, s) == once {
        UnchangedMeansFixed(files, s);
      }
    } else {
      SetAndOrder(files, s);
    }
  }

  lemma SetAndOrder(files: seq<string>, s: Scope)
    requires Proper(s) && !Seeded(s)
    ensures FinalFiles(FinalFiles(files, s), s) == FinalFiles(files, s) <==> SetStays(files, s) && KeepsOrder(files, s)
  {
    hide Filter, Dedupe, NormalForm, Capped, Added, FinalFiles, SetStays, Proper, Rising;
    var once := FinalFiles(files, s);
    FinalIs(files, s);
    SameFilesIff(files, s);
    PassIsRising(once, s);
    if SetStays(files, s) && KeepsOrder(files, s) {
      RisingUnique(FinalFiles(once, s), once, PlaceIn(once, s));
    }
  }

  // ----- the whole plan --------------------------------------------------------------------------

  /** Reconciling the result again, with whatever prose the notes have become, leaves the files
      of chunk i alone exactly under that condition on the incoming files. */
  lemma SecondPassKeepsFilesIff(total: int, chunks: seq<ScopedChunk>, c: FileMentions.Constraints,
          grounded: string -> bool, prose: seq<seq<string>>, prose': seq<seq<string>>, i: nat)
    requires |prose| == |chunks| == |prose'| && i < |chunks|
    ensures var once := Reconcile(total, chunks, c, grounded, prose);
            var twice := Reconcile(total, once, c, grounded, prose');
            twice[i].files == once[i].files <==> FilesStable(chunks[i].files, MakeScope(total, |chunks|, c, grounded))
  {
    hide FinalFiles, MakeScope, Reconcile, FilesStable, Proper;
    var once := Reconcile(total, chunks, c, grounded, prose);
    MadeProper(total, |chunks|, c, grounded);
    FilesOf(total, chunks, c, grounded, prose, i);
    FilesOf(total, once, c, grounded, prose', i);
    FilesStableIff(chunks[i].files, MakeScope(total, |chunks|, c, grounded));
  }

  // ----- forbidden paths that are not recognised ---------------------------------------------------

  /** One more normalization makes it a forbidden path. */
  predicate HidesForbidden(path: string, s: Scope) {
    NormalForm(path) in s.forbidden
  }

  /** By the paths' own identity a forbidden file stays in a chunk exactly if the incoming files,
      or the user's own lists, hold a path that needs two normalizations to become forbidden. */
  lemma ForbiddenPathRemainsIff(total: int, chunks: seq<ScopedChunk>, c: FileMentions.Constraints,
          grounded: string -> bool, prose: seq<seq<string>>, i: nat)
    requires |prose| == |chunks| && i < |chunks|
    ensures var s := MakeScope(total, |chunks|, c, grounded);
            var files := Reconcile(total, chunks, c, grounded, prose)[i].files;
            (exists x :: x in files && Normalize(x).Some? && Normalize(x).value in NormSet(c.forbidden)) <==>
            (exists x :: x in Listed(chunks[i].files, s) && HidesForbidden(x, s))
  {
    hide FinalFiles, Normalize, Reconcile, Listed, NormSet, Proper;
    var s := MakeScope(total, |chunks|, c, grounded);
    var files := Reconcile(total, chunks, c, grounded, prose)[i].files;
    MadeProper(total, |chunks|, c, grounded);
    FilesOf(total, chunks, c, grounded, prose, i);
    forall x ensures x in files <==> x in Listed(chunks[i].files, s)
             ensures x in files ==> x !in s.forbidden
    {
      ListedIs(chunks[i].files, s, x);
    }
  }

  // ----- when the risk rises -----------------------------------------------------------------------

  /** Normalized again, the path is forbidden or outside the allowlist. */
  predicate Breaks(path: string, s: Scope) {
    HidesForbidden(path, s) || (s.allowAll != [] && NormalForm(path) !in s.allow)
  }

  /** A chunk the first pass did not harden is hardened by the second exactly if it lists a path
      that breaks out. */
  lemma HardensAgainIff(files: seq<string>, first: bool, s: Scope)
    requires Proper(s) && !Hardens(files, first, s)
    ensures Hardens(FinalFiles(files, s), first, s) <==> exists x :: x in Listed(files, s) && Breaks(x, s)
  {
    hide Filter, Dedupe, NormalForm, FinalFiles, Listed;
    var once := FinalFiles(files, s);
    forall x ensures x in once <==> x in Listed(files, s)
             ensures x in once ==> x != []
    {
      ListedIs(files, s, x);
    }
    HardensIff(once, s);
    assert Hardens(once, first, s) <==> RemovesForbidden(once, s) || RemovesExtras(once, s);
  }

  lemma FormOf(path: string)
    ensures path != [] ==> NormalForm(path) != []
  {}

  lemma HardensIff(once: seq<string>, s: Scope)
    requires forall x :: x in once ==> x != []
    ensures RemovesForbidden(once, s) || RemovesExtras(once, s) <==> exists x :: x in once && Breaks(x, s)
  {
    hide Filter, Dedupe, NormalForm;
    var forms := NormalForms(once);
    forall y ensures y in Permitted(once, s) <==> y in forms && y != [] && y !in s.forbidden {
      assert y !in s.forbidden <==> Not(InSet(s.forbidden))(y);
    }
    forall y | y in forms ensures exists x :: x in once && NormalForm(x) == y {
      var i :| 0 <= i < |forms| && forms[i] == y;
      assert once[i] in once;
    }
    forall x | x in once ensures NormalForm(x) in forms && NormalForm(x) != [] {
      var i :| 0 <= i < |once| && once[i] == x;
      assert forms[i] == NormalForm(x);
      FormOf(x);
    }
  }

  // ----- allowed files no chunk has ------------------------------------------------------------------

  lemma {:induction false} NormsIff(paths: seq<string>, x: string)
    ensures x in Norms(paths) <==> exists p :: p in paths && Normalize(p) == Some(x)
    decreases |paths|
  {
    hide Normalize;
    if paths != [] {
      NormsIff(paths[..|paths| - 1], x);
      assert paths == paths[..|paths| - 1] + [paths[|paths| - 1]];
    }
  }

  lemma {:induction false} RunScopeIff(chunks: seq<ScopedChunk>, x: string)
    ensures x in RunScope(chunks) <==>
              exists k, p :: 0 <= k < |chunks| && p in chunks[k].files && Normalize(p) == Some(x)
    decreases |chunks|
  {
    hide Normalize;
    if chunks != [] {
      var front, last := chunks[..|chunks| - 1], chunks[|chunks| - 1];
      RunScopeIff(front, x);
      NormsIff(last.files, x);
      assert forall k :: 0 <= k < |front| ==> front[k] == chunks[k];
      if x in RunScope(front) {
        var k, p :| 0 <= k < |front| && p in front[k].files && Normalize(p) == Some(x);
        assert p in chunks[k].files;
      }
    }
  }

  /** The chunk's files bring the allowed path. */
  predicate Brings(c: ScopedChunk, s: Scope, x: string) {
    exists f :: f in c.files && Survives(f, s) && Normalize(NormalForm(f)) == Some(x)
  }

  /** In a plan of several chunks, no chunk brings some allowed path. */
  predicate Missing(chunks: seq<ScopedChunk>, s: Scope) {
    !s.single && exists x :: x in s.allow && forall k :: 0 <= k < |chunks| ==> !Brings(chunks[k], s, x)
  }

  /** `once` has the files of the first pass. */
  ghost predicate FirstPass(chunks: seq<ScopedChunk>, once: seq<ScopedChunk>, s: Scope) {
    |once| == |chunks| && forall k :: 0 <= k < |chunks| ==> once[k].files == FinalFiles(chunks[k].files, s)
  }

  lemma BringsIff(c: ScopedChunk, s: Scope, x: string)
    requires Proper(s) && !s.single && s.allowAll != []
    ensures Brings(c, s, x) <==> exists p :: p in FinalFiles(c.files, s) && Normalize(p) == Some(x)
  {
    hide Filter, Dedupe, NormalForm, Normalize, Capped, Added, FinalFiles;
    forall p ensures p in FinalFiles(c.files, s) <==> exists f :: f in c.files && Survives(f, s) && NormalForm(f) == p {
      ListedIs(c.files, s, p);
    }
  }

  lemma MissingIff(chunks: seq<ScopedChunk>, once: seq<ScopedChunk>, s: Scope)
    requires Proper(s) && FirstPass(chunks, once, s)
    ensures AllowedButMissing(once, s) <==> Missing(chunks, s)
  {
    hide FinalFiles, Brings, RunScope, Normalize;
    if !s.single && s.allow != [] {
      HeadIsIn(s.allow);
      forall x ensures x in RunScope(once) <==> exists k :: 0 <= k < |chunks| && Brings(chunks[k], s, x) {
        RunScopeIff(once, x);
        forall k | 0 <= k < |chunks|
          ensures Brings(chunks[k], s, x) <==> exists p :: p in once[k].files && Normalize(p) == Some(x)
        {
          BringsIff(chunks[k], s, x);
        }
      }
    }
  }

  /** Paths as normalization leaves them. */
  predicate Normalized(path: string) {
    path != [] && path[0] != '/' && '\\' !in path
  }

  lemma {:induction false} NormsNormalized(paths: seq<string>)
    ensures forall x :: x in Norms(paths) ==> Normalized(x)
    decreases |paths|
  {
    hide Bare, ClimbsUp;
    if paths != [] {
      NormsNormalized(paths[..|paths| - 1]);
    }
  }

  lemma AllowNormalized(total: int, count: nat, c: FileMentions.Constraints, grounded: string -> bool)
    ensures forall x :: x in MakeScope(total, count, c, grounded).allow ==> Normalized(x)
  {
    hide Norms, Normalized;
    NormsNormalized(c.allowlist);
  }

  function Longest(paths: seq<string>): (r: nat)
    ensures forall x :: x in paths ==> |x| <= r
  {
    if paths == [] then 0
    else
      var front := Longest(paths[..|paths| - 1]);
      assert paths == paths[..|paths| - 1] + [paths[|paths| - 1]];
      if |paths[|paths| - 1]| > front then |paths[|paths| - 1]| else front
  }

  /** If every allowed path is the normal form of an allowed path, none of them can move: each one
      that did would have a longer one that does. */
  lemma {:induction false} EntryFixed(allow: seq<string>, x: string)
    requires forall z :: z in allow ==> Normalized(z)
    requires forall y :: y in allow ==> exists z :: z in allow && Normalize(z) == Some(y)
    requires x in allow
    ensures Fixed(x)
    decreases Longest(allow) - |x|
  {
    hide Longest, Normalize, Normalized;
    if !Fixed(x) {
      var z :| z in allow && Normalize(z) == Some(x);
      GetsShorter(z, x);
      if z != x {
        EntryFixed(allow, z);
      }
    }
  }

  lemma GetsShorter(z: string, x: string)
    requires Normalized(z) && Normalize(z) == Some(x)
    ensures z == x || |x| < |z|
  {
    hide Bare, ClimbsUp;
    BareAgain(z);
  }

  /** A second pass never finds an allowed file missing that the first one did not. */
  lemma NothingMissingAgain(chunks: seq<ScopedChunk>, once: seq<ScopedChunk>, twice: seq<ScopedChunk>, s: Scope)
    requires Proper(s) && (forall z :: z in s.allow ==> Normalized(z))
    requires FirstPass(chunks, once, s) && FirstPass(once, twice, s)
    requires !AllowedButMissing(once, s)
    ensures !AllowedButMissing(twice, s)
  {
    hide FinalFiles, Normalize, RunScope, Normalized, Fixed;
    if !s.single && s.allow != [] {
      HeadIsIn(s.allow);
      forall y | y in s.allow ensures exists z :: z in s.allow && Normalize(z) == Some(y) {
        RunScopeIff(once, y);
        var k, p :| 0 <= k < |once| && p in once[k].files && Normalize(p) == Some(y);
        ListedIs(chunks[k].files, s, p);
      }
      forall k | 0 <= k < |once| ensures twice[k].files == once[k].files {
        forall x | x in once[k].files ensures Fixed(x) {
          ListedIs(chunks[k].files, s, x);
          EntryFixed(s.allow, x);
        }
        FixedIsStable(chunks[k].files, s);
      }
      SameFilesSameRunScope(twice, once);
    }
  }

  lemma {:induction false} SameFilesSameRunScope(a: seq<ScopedChunk>, b: seq<ScopedChunk>)
    requires |a| == |b| && forall k :: 0 <= k < |a| ==> a[k].files == b[k].files
    ensures RunScope(a) == RunScope(b)
    decreases |a|
  {
    hide NormSet;
    if a != [] {
      SameFilesSameRunScope(a[..|a| - 1], b[..|b| - 1]);
    }
  }

  // ----- the risk of a chunk ---------------------------------------------------------------------------

  /** What makes the first pass raise chunk i to high risk. */
  predicate Raises(chunks: seq<ScopedChunk>, s: Scope, i: nat)
    requires i < |chunks|
  {
    Hardens(chunks[i].files, i == 0, s) || (i == 0 && Missing(chunks, s))
  }

  lemma RiskOf(total: int, chunks: seq<ScopedChunk>, c: FileMentions.Constraints, grounded: string -> bool,
          prose: seq<seq<string>>, i: nat)
    requires |prose| == |chunks| && i < |chunks|
    ensures Reconcile(total, chunks, c, grounded, prose)[i].plan.risk ==
            if Raises(chunks, MakeScope(total, |chunks|, c, grounded), i) then High else chunks[i].plan.risk
  {
    hide FinalFiles, MakeScope, Hardens, ProseMismatch, AllowedButMissing, Missing, Proper;
    var s := MakeScope(total, |chunks|, c, grounded);
    MadeProper(total, |chunks|, c, grounded);
    MissingIff(chunks, ReconcileAll(chunks, prose, s, RunScope(chunks)), s);
  }

  /** Nor does reconciling again raise the risk of chunk i, exactly if the risk was high already,
      the first pass raised it, or no path it lists breaks out. */
  lemma SecondPassKeepsRiskIff(total: int, chunks: seq<ScopedChunk>, c: FileMentions.Constraints,
          grounded: string -> bool, prose: seq<seq<string>>, prose': seq<seq<string>>, i: nat)
    requires |prose| == |chunks| == |prose'| && i < |chunks|
    ensures var s := MakeScope(total, |chunks|, c, grounded);
            var once := Reconcile(total, chunks, c, grounded, prose);
            var twice := Reconcile(total, once, c, grounded, prose');
            twice[i].plan.risk == once[i].plan.risk <==>
              || chunks[i].plan.risk == High || Raises(chunks, s, i)
              || !exists x :: x in Listed(chunks[i].files, s) && Breaks(x, s)
  {
    hide FinalFiles, MakeScope, Hardens, Missing, Reconcile, Listed, Breaks, Proper, AllowedButMissing, Normalized;
    var s := MakeScope(total, |chunks|, c, grounded);
    var once := Reconcile(total, chunks, c, grounded, prose);
    MadeProper(total, |chunks|, c, grounded);
    RiskOf(total, chunks, c, grounded, prose, i);
    RiskOf(total, once, c, grounded, prose', i);
    FilesOf(total, chunks, c, grounded, prose, i);
    if !Raises(chunks, s, i) {
      HardensAgainIff(chunks[i].files, i == 0, s);
      if i == 0 {
        StillNothingMissing(total, chunks, c, grounded, prose, prose');
      }
    }
  }

  lemma StillNothingMissing(total: int, chunks: seq<ScopedChunk>, c: FileMentions.Constraints,
          grounded: string -> bool, prose: seq<seq<string>>, prose': seq<seq<string>>)
    requires |prose| == |chunks| == |prose'| && !Missing(chunks, MakeScope(total, |chunks|, c, grounded))
    ensures !Missing(Reconcile(total, chunks, c, grounded, prose), MakeScope(total, |chunks|, c, grounded))
  {
    hide FinalFiles, MakeScope, Missing, Reconcile, Proper, AllowedButMissing, Normalized;
    var s := MakeScope(total, |chunks|, c, grounded);
    var once := Reconcile(total, chunks, c, grounded, prose);
    var twice := Reconcile(total, once, c, grounded, prose');
    MadeProper(total, |chunks|, c, grounded);
    AllowNormalized(total, |chunks|, c, grounded);
    forall k | 0 <= k < |chunks|
      ensures once[k].files == FinalFiles(chunks[k].files, s) && twice[k].files == FinalFiles(once[k].files, s)
    {
      FilesOf(total, chunks, c, grounded, prose, k);
      FilesOf(total, once, c, grounded, prose', k);
    }
    MissingIff(chunks, once, s);
    MissingIff(once, twice, s);
    NothingMissingAgain(chunks, once, twice, s);
  }

  // ----- it happens --------------------------------------------------------------------------------------

  const FORBID_A := FileMentions.Constraints([], [], ["a"], [], [])

  /** The user forbids "a", the plan lists it behind a hidden "./": the first pass lets the file
      through as "./a" at low risk, a second one would take it out and raise the risk. The plan is
      grounded before it is reconciled, so this takes an index in which "./a" itself is known. */
  lemma HiddenForbiddenFile(plan: ChunkDefinition, grounded: string -> bool)
    requires plan.risk == Low && grounded("./a")
    ensures var once := Reconcile(1, [ScopedChunk(plan, ["\\./a"])], FORBID_A, grounded, [[]]);
            var twice := Reconcile(1, once, FORBID_A, grounded, [[]]);
            && once[0].files == ["./a"] && once[0].plan.risk == Low
            && Normalize("./a") == Some("a") && "a" in NormSet(["a"])
            && twice[0].files == [] && twice[0].plan.risk == High
  {
    hide NormalForm, FinalFiles, Normalize, Reconcile, MakeScope;
    var s := MakeScope(1, 1, FORBID_A, grounded);
    var chunk := ScopedChunk(plan, ["\\./a"]);
    var once := Reconcile(1, [chunk], FORBID_A, grounded, [[]]);
    NormalFormMoves();
    NormalizeIsNotIdempotent();
    ForbidAScope(grounded);
    FilesOf(1, [chunk], FORBID_A, grounded, [[]], 0);
    FilesOf(1, once, FORBID_A, grounded, [[]], 0);
    OneFile("\\./a", s);
    OneFile("./a", s);
    RiskOf(1, [chunk], FORBID_A, grounded, [[]], 0);
    RiskOf(1, once, FORBID_A, grounded, [[]], 0);
  }

  lemma ForbidAScope(grounded: string -> bool)
    ensures MakeScope(1, 1, FORBID_A, grounded) == Scope({"a"}, {}, [], [], [], true)
    ensures NormSet(["a"]) == {"a"}
  {
    hide Normalize;
    PlainA();
    assert Norms(["a"]) == ["a"];
  }

  lemma PlainA()
    ensures Normalize("a") == Some("a")
  {
    assert !ClimbsUp("a");
    BareAgain("a");
  }

  /** A single chunk with one file and nothing requested or allowed. */
  lemma OneFile(path: string, s: Scope)
    requires s.allowAll == [] && s.preferred == [] && NormalForm(path) != []
    ensures FinalFiles([path], s) == if NormalForm(path) in s.forbidden then [] else [NormalForm(path)]
    ensures Hardens([path], true, s) <==> NormalForm(path) in s.forbidden
  {
    hide NormalForm;
    var one := [NormalForm(path)];
    assert NormalForms([path]) == one;
    DedupeFixed(one);
    FilterAll(one, Not(InSet(s.forbidden)));
    HeadIsIn(Added([path], s));
    assert Capped([path], s) + Added([path], s) == Capped([path], s);
  }

  /** A requested path that would move does not unsettle the list if its normal form is planned:
      the second pass drops it and puts it back. */
  lemma RequestIsPutBack(s: Scope)
    requires s == Scope({}, {}, [], [], ["./a"], true)
    ensures FinalFiles(["a"], s) == ["a", "./a"] && FinalFiles(["a", "./a"], s) == ["a", "./a"]
    ensures !Fixed("./a") && SetStays(["a"], s) && KeepsOrder(["a"], s)
  {
    hide NormalForm, Dedupe, Filter, SetStays, KeepsOrder;
    PlainForm();
    NormalFormMoves();
    assert NormalForms(["a"]) == ["a"] && NormalForms(["a", "./a"]) == ["a", "a"];
    DedupeTwins("a");
    DedupeFixed(["a"]);
    FilterAll(["a"], Not(InSet({})));
    FilterAll(["./a"], Not(In(["a"])));
    assert Capped(["a"], s) == ["a"] == Capped(["a", "./a"], s);
    assert ["a"] + ["./a"] == ["a", "./a"];
    DedupeFixed(["a", "./a"]);
    SetAndOrder(["a"], s);
  }

  lemma PlainForm()
    ensures NormalForm("a") == "a"
  {
    hide Normalize;
    PlainA();
  }

  lemma DedupeTwins(x: string)
    requires x != []
    ensures Dedupe([x, x]) == [x]
  {
    hide Dedupe;
    DedupeFixed([x]);
    DedupeStep([x], x);
    assert [x] + [x] == [x, x];
  }

  lemma DedupeStep(items: seq<string>, x: string)
    ensures Dedupe(items + [x]) == if x == [] || x in Dedupe(items) then Dedupe(items) else Dedupe(items) + [x]
  {
    assert (items + [x])[..|items|] == items;
  }
}
