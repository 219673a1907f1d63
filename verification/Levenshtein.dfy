/** The bounded edit-distance test behind the vague-word check
    (backend/pipeline/implementation_guard.py). */
module Levenshtein {

  // ----- edit scripts -----------------------------------------------------------------

  datatype Edit = Insert(at: nat, c: char) | Delete(at: nat) | Substitute(at: nat, c: char)

  predicate Applies(s: string, e: Edit) {
    if e.Insert? then e.at <= |s| else e.at < |s|
  }

  function Apply(s: string, e: Edit): string
    requires Applies(s, e)
  {
    match e
    case Insert(at, c) => s[..at] + [c] + s[at..]
    case Delete(at) => s[..at] + s[at + 1..]
    case Substitute(at, c) => s[..at] + [c] + s[at + 1..]
  }

  /** The script, applied one edit after the other, turns `a` into `b`. */
  predicate Transforms(a: string, script: seq<Edit>, b: string)
    decreases |script|
  {
    if script == [] then a == b
    else Applies(a, script[0]) && Transforms(Apply(a, script[0]), script[1..], b)
  }

  /** Some script of at most k single-character edits turns `a` into `b`. */
  ghost predicate WithinEdits(a: string, b: string, k: int) {
    exists script :: |script| <= k && Transforms(a, script, b)
  }

  /** An edit never looks past the end of its text. */
  lemma ApplyBeforeSuffix(s: string, e: Edit, t: string)
    requires Applies(s, e)
    ensures Applies(s + t, e) && Apply(s + t, e) == Apply(s, e) + t
  {
    var at := e.at;
    assert (s + t)[..at] == s[..at] && (s + t)[at..] == s[at..] + t;
    if at < |s| {
      assert (s + t)[at + 1..] == s[at + 1..] + t;
    }
  }

  lemma ApplyAtEnd(s: string, c: char, d: char)
    ensures Apply(s, Insert(|s|, d)) == s + [d]
    ensures Apply(s + [c], Delete(|s|)) == s
    ensures Apply(s + [c], Substitute(|s|, d)) == s + [d]
  {
    assert (s + [c])[..|s|] == s && (s + [c])[|s| + 1..] == [] && s[|s|..] == [] && s[..|s|] == s;
  }

  // ----- the recursive distance ---------------------------------------------------------

  function Min(x: nat, y: nat): nat {
    if x <= y then x else y
  }

  function Cost(c: char, d: char): nat {
    if c == d then 0 else 1
  }

  /** Distance by the last characters, as the table computes it. */
  function Distance(a: string, b: string): nat
    decreases |a| + |b|
  {
    if a == [] then |b|
    else if b == [] then |a|
    else
      var a', b' := a[..|a| - 1], b[..|b| - 1];
      Min(Min(Distance(a', b) + 1, Distance(a, b') + 1), Distance(a', b') + Cost(a[|a| - 1], b[|b| - 1]))
  }

  lemma {:induction false} Reflexive(a: string)
    ensures Distance(a, a) == 0
    decreases |a|
  {
    if a != [] {
      Reflexive(a[..|a| - 1]);
    }
  }

  /** The difference in length is a lower bound. */
  lemma {:induction false} LengthBound(a: string, b: string)
    ensures Distance(a, b) >= |a| - |b| && Distance(a, b) >= |b| - |a|
    decreases |a| + |b|
  {
    if a != [] && b != [] {
      LengthBound(a[..|a| - 1], b);
      LengthBound(a, b[..|b| - 1]);
      LengthBound(a[..|a| - 1], b[..|b| - 1]);
    }
  }

  // ----- scripts no shorter than the distance --------------------------------------------

  /** One character added at the end moves the distance by at most one. */
  lemma {:induction false} LastInserted(a: string, c: char, b: string)
    ensures Distance(a, b) <= Distance(a + [c], b) + 1
    decreases |b|
  {
    assert (a + [c])[..|a|] == a;
    if b != [] {
      var b' := b[..|b| - 1];
      LastInserted(a, c, b');
      GrowTarget(a, b);
    } else {
      LengthBound(a, b);
    }
  }

  lemma GrowTarget(a: string, b: string)
    requires b != []
    ensures Distance(a, b) <= Distance(a, b[..|b| - 1]) + 1
  {}

  lemma {:induction false} LastSubstituted(a: string, c: char, d: char, b: string)
    ensures Distance(a + [c], b) <= Distance(a + [d], b) + 1
    decreases |b|
  {
    assert (a + [c])[..|a|] == a && (a + [d])[..|a|] == a;
    if b != [] {
      LastSubstituted(a, c, d, b[..|b| - 1]);
    }
  }

  lemma LastDeleted(a: string, b: string)
    requires a != []
    ensures Distance(a, b) <= Distance(a[..|a| - 1], b) + 1
  {}

  /** The definition, for a text written as a front and a last character. */
  lemma {:induction false} EndsWith(x: string, c: char, b: string)
    ensures Distance(x + [c], b) ==
            if b == [] then |x| + 1
            else Min(Min(Distance(x, b) + 1, Distance(x + [c], b[..|b| - 1]) + 1),
                     Distance(x, b[..|b| - 1]) + Cost(c, b[|b| - 1]))
    ensures b == [] ==> Distance(x, b) == |x|
  {
    hide Distance;
    var s := x + [c];
    assert s[..|s| - 1] == x && s[|s| - 1] == c;
    if b == [] {
      AgainstEmpty(s);
      AgainstEmpty(x);
    } else {
      Unfold(s, b, s[..|s| - 1], b[..|b| - 1]);
    }
  }

  lemma {:induction false} AgainstEmpty(a: string)
    ensures Distance(a, []) == |a|
  {}

  lemma {:induction false} Unfold(a: string, b: string, a': string, b': string)
    requires a != [] && b != [] && a' == a[..|a| - 1] && b' == b[..|b| - 1]
    ensures Distance(a, b) ==
            Min(Min(Distance(a', b) + 1, Distance(a, b') + 1), Distance(a', b') + Cost(a[|a| - 1], b[|b| - 1]))
  {
    hide Min, Cost;
  }

  /** One edit anywhere moves the distance by at most one. */
  lemma {:induction false} OneEdit(a: string, e: Edit, b: string)
    requires Applies(a, e)
    ensures Distance(a, b) <= Distance(Apply(a, e), b) + 1
    decreases |a| + |b|
  {
    hide Apply;
    var n := |a|;
    if e.Insert? && e.at == n {
      ApplyAtEnd(a, e.c, e.c);
      LastInserted(a, e.c, b);
    } else {
      var x, c := a[..n - 1], a[n - 1];
      assert a == x + [c];
      if e.at == n - 1 && e.Delete? {
        ApplyAtEnd(x, c, c);
        LastDeleted(a, b);
      } else if e.at == n - 1 && e.Substitute? {
        ApplyAtEnd(x, c, e.c);
        LastSubstituted(x, c, e.c, b);
      } else {
        ApplyBeforeSuffix(x, e, [c]);
        var y := Apply(x, e);
        if b == [] {
          OneEdit(x, e, b);
          EndsWith(x, c, b);
          EndsWith(y, c, b);
        } else {
          OneEdit(x, e, b);
          OneEdit(a, e, b[..|b| - 1]);
          OneEdit(x, e, b[..|b| - 1]);
          EndsWith(x, c, b);
          EndsWith(y, c, b);
        }
      }
    }
  }

  lemma {:induction false} ScriptIsLongEnough(a: string, script: seq<Edit>, b: string)
    requires Transforms(a, script, b)
    ensures Distance(a, b) <= |script|
    decreases |script|
  {
    if script == [] {
      Reflexive(a);
    } else {
      OneEdit(a, script[0], b);
      ScriptIsLongEnough(Apply(a, script[0]), script[1..], b);
    }
  }

  // ----- a script as short as the distance -------------------------------------------------

  /** A script never looks past the end of its text, so a common suffix may be added. */
  lemma {:induction false} Lift(a: string, script: seq<Edit>, b: string, t: string)
    requires Transforms(a, script, b)
    ensures Transforms(a + t, script, b + t)
    decreases |script|
  {
    hide Apply;
    if script != [] {
      var e := script[0];
      ApplyBeforeSuffix(a, e, t);
      Lift(Apply(a, e), script[1..], b, t);
    }
  }

  lemma {:induction false} Then(a: string, first: seq<Edit>, b: string, second: seq<Edit>, c: string)
    requires Transforms(a, first, b) && Transforms(b, second, c)
    ensures Transforms(a, first + second, c)
    decreases |first|
  {
    hide Apply;
    if first == [] {
      assert first + second == second;
    } else {
      Then(Apply(a, first[0]), first[1..], b, second, c);
      assert (first + second)[1..] == first[1..] + second;
    }
  }

  /** One more edit at the end of a script. */
  lemma Extend(a: string, script: seq<Edit>, b: string, e: Edit, c: string)
    requires Transforms(a, script, b) && Applies(b, e) && Apply(b, e) == c
    ensures Transforms(a, script + [e], c)
  {
    assert [e][1..] == [];
    assert Transforms(b, [e], c);
    Then(a, script, b, [e], c);
  }

  lemma {:induction false} Script(a: string, b: string) returns (script: seq<Edit>)
    ensures |script| == Distance(a, b) && Transforms(a, script, b)
    decreases |a| + |b|
  {
    hide Apply, Transforms;
    if a == [] && b == [] {
      script := [];
      assert Transforms(a, script, b) by { NoEdits(a); }
    } else if a == [] {
      var front := Script(a, b[..|b| - 1]);
      script := AddLast(a, front, b);
    } else if b == [] {
      var a', c := a[..|a| - 1], a[|a| - 1];
      var front := Script(a', b);
      script := DropLast(a, front, b);
      LengthBound(a', b);
    } else {
      var a', b', c, d := a[..|a| - 1], b[..|b| - 1], a[|a| - 1], b[|b| - 1];
      if Distance(a, b) == Distance(a', b) + 1 {
        var front := Script(a', b);
        script := DropLast(a, front, b);
      } else if Distance(a, b) == Distance(a, b') + 1 {
        var front := Script(a, b');
        script := AddLast(a, front, b);
      } else {
        var front := Script(a', b');
        script := MatchLast(a, front, b);
      }
    }
  }

  lemma NoEdits(a: string)
    ensures Transforms(a, [], a)
  {}

  /** Turn `a` into all but the last character of `b`, then add that one. */
  lemma AddLast(a: string, front: seq<Edit>, b: string) returns (script: seq<Edit>)
    requires b != [] && Transforms(a, front, b[..|b| - 1])
    ensures |script| == |front| + 1 && Transforms(a, script, b)
  {
    hide Transforms, Apply;
    var b', d := b[..|b| - 1], b[|b| - 1];
    ApplyAtEnd(b', d, d);
    assert b == b' + [d];
    Extend(a, front, b', Insert(|b'|, d), b);
    script := front + [Insert(|b'|, d)];
  }

  /** Turn the fronts into each other, then put the last character right if it is not. */
  lemma MatchLast(a: string, front: seq<Edit>, b: string) returns (script: seq<Edit>)
    requires a != [] && b != [] && Transforms(a[..|a| - 1], front, b[..|b| - 1])
    ensures |script| == |front| + Cost(a[|a| - 1], b[|b| - 1]) && Transforms(a, script, b)
  {
    hide Transforms, Apply;
    var a', b', c, d := a[..|a| - 1], b[..|b| - 1], a[|a| - 1], b[|b| - 1];
    Lift(a', front, b', [c]);
    assert a == a' + [c] && b == b' + [d];
    script := front;
    if c != d {
      ApplyAtEnd(b', c, d);
      Extend(a, front, b' + [c], Substitute(|b'|, d), b);
      script := front + [Substitute(|b'|, d)];
    }
  }

  /** Turn all but the last character into `b`, then delete the last one. */
  lemma DropLast(a: string, front: seq<Edit>, b: string) returns (script: seq<Edit>)
    requires a != [] && Transforms(a[..|a| - 1], front, b)
    ensures |script| == |front| + 1 && Transforms(a, script, b)
  {
    hide Transforms, Apply;
    var a', c := a[..|a| - 1], a[|a| - 1];
    Lift(a', front, b, [c]);
    assert a == a' + [c];
    ApplyAtEnd(b, c, c);
    Extend(a, front, b + [c], Delete(|b|), b);
    script := front + [Delete(|b|)];
  }

  /** The recursive distance is the length of a shortest edit script. */
  lemma DistanceIsShortest(a: string, b: string, k: int)
    ensures WithinEdits(a, b, k) <==> Distance(a, b) <= k
  {
    if Distance(a, b) <= k {
      var script := Script(a, b);
      assert |script| <= k && Transforms(a, script, b);
    }
    if WithinEdits(a, b, k) {
      var script :| |script| <= k && Transforms(a, script, b);
      ScriptIsLongEnough(a, script, b);
    }
  }

  // ----- rows of the table -------------------------------------------------------------------

  /** Cell (i, j) of the table. */
  function Cell(a: string, b: string, i: nat, j: nat): nat
    requires i <= |a| && j <= |b|
  {
    Distance(a[..i], b[..j])
  }

  lemma CellStep(a: string, b: string, i: nat, j: nat)
    requires i < |a| && j < |b|
    ensures Cell(a, b, i + 1, j + 1) ==
            Min(Min(Cell(a, b, i, j + 1) + 1, Cell(a, b, i + 1, j) + 1), Cell(a, b, i, j) + Cost(a[i], b[j]))
  {
    assert a[..i + 1][..i] == a[..i] && b[..j + 1][..j] == b[..j];
  }

  lemma CellEdge(a: string, b: string)
    ensures forall i :: 0 <= i <= |a| ==> Cell(a, b, i, 0) == i
    ensures forall j :: 0 <= j <= |b| ==> Cell(a, b, 0, j) == j
  {}

  ghost predicate RowAbove(a: string, b: string, i: nat, k: int)
    requires i <= |a|
  {
    forall j: nat :: j <= |b| ==> Cell(a, b, i, j) > k
  }

  /** Row minima never decrease: a row wholly above the bound keeps the next one above it. */
  lemma {:induction false} NextRowAbove(a: string, b: string, i: nat, j: nat, k: int)
    requires i < |a| && j <= |b| && RowAbove(a, b, i, k)
    ensures Cell(a, b, i + 1, j) > k
    decreases j
  {
    CellEdge(a, b);
    if j == 0 {
      assert Cell(a, b, i, 0) > k;
    } else {
      CellStep(a, b, i, j - 1);
      NextRowAbove(a, b, i, j - 1, k);
      assert Cell(a, b, i, j) > k && Cell(a, b, i, j - 1) > k;
    }
  }

  lemma {:induction false} AboveToTheEnd(a: string, b: string, i: nat, k: int)
    requires i <= |a| && RowAbove(a, b, i, k)
    ensures Distance(a, b) > k
    decreases |a| - i
  {
    if i == |a| {
      assert Cell(a, b, |a|, |b|) > k;
      assert a[..|a|] == a && b[..|b|] == b;
    } else {
      var next := i + 1;
      forall j: nat | j <= |b| ensures Cell(a, b, next, j) > k {
        NextRowAbove(a, b, i, j, k);
      }
      AboveToTheEnd(a, b, next, k);
    }
  }

  // ----- the test ------------------------------------------------------------------------------

  /** Row by row with both early exits. */
  method LevenshteinWithin(a: string, b: string, maxDistance: int) returns (within: bool)
    ensures within <==> WithinEdits(a, b, maxDistance)
  {
    hide Distance, WithinEdits;
    DistanceIsShortest(a, b, maxDistance);
    LengthBound(a, b);
    CellEdge(a, b);
    if (if |a| >= |b| then |a| - |b| else |b| - |a|) > maxDistance {
      return false;
    }
    if a == b {
      Reflexive(a);
      return true;
    }
    var previous: seq<nat> := seq(|b| + 1, j requires 0 <= j => j);
    for i := 0 to |a|
      invariant |previous| == |b| + 1
      invariant forall j :: 0 <= j <= |b| ==> previous[j] == Cell(a, b, i, j)
    {
      var current: seq<nat> := [i + 1];
      var rowMin: nat := i + 1;
      for j := 0 to |b|
        invariant |current| == j + 1
        invariant forall l :: 0 <= l <= j ==> current[l] == Cell(a, b, i + 1, l) && rowMin <= current[l]
      {
        CellStep(a, b, i, j);
        var value := Min(Min(previous[j + 1] + 1, current[j] + 1), previous[j] + Cost(a[i], b[j]));
        current := current + [value];
        rowMin := Min(rowMin, value);
      }
      if rowMin > maxDistance {
        ghost var row := i + 1;
        forall j: nat | j <= |b| ensures Cell(a, b, row, j) > maxDistance {
          assert current[j] == Cell(a, b, row, j);
        }
        AboveToTheEnd(a, b, row, maxDistance);
        return false;
      }
      previous := current;
    }
    assert a[..|a|] == a && b[..|b|] == b;
    within := previous[|b|] <= maxDistance;
  }

  // ----- what the vague-word check gets out of it --------------------------------------------------

  /** Edit budget by token length: short tokens match exactly or not at all. */
  function FuzzyThreshold(tokenLength: nat): nat {
    if tokenLength <= 3 then 0 else if tokenLength <= 5 then 1 else 2
  }

  /** Generic words are vague, protected file names are not, and any other token is vague
      exactly when it is long enough and a target lies within its edit budget. */
  method IsVagueWord(token: string, genericExact: set<string>, protectedAnchors: set<string>, fuzzyTargets: seq<string>)
    returns (vague: bool)
    ensures vague <==>
            token in genericExact ||
            (token !in protectedAnchors && |token| >= 4 &&
             exists i :: 0 <= i < |fuzzyTargets| && WithinEdits(token, fuzzyTargets[i], if |token| <= 5 then 1 else 2))
  {
    if token in genericExact {
      return true;
    }
    if token in protectedAnchors {
      return false;
    }
    var threshold := FuzzyThreshold(|token|);
    if threshold == 0 {
      return false;
    }
    for i := 0 to |fuzzyTargets|
      invariant forall l :: 0 <= l < i ==> !WithinEdits(token, fuzzyTargets[l], threshold)
    {
      var near := LevenshteinWithin(token, fuzzyTargets[i], threshold);
      if near {
        return true;
      }
    }
    vague := false;
  }

  /** Two swapped neighbours are two edits, so a transposed target of six or more characters
      is still recognised. */
  lemma TranspositionIsTwoEdits(x: string, c: char, d: char, y: string)
    ensures WithinEdits(x + [c, d] + y, x + [d, c] + y, 2)
  {
    var a, b := x + [c, d] + y, x + [d, c] + y;
    var first, second := Substitute(|x|, d), Substitute(|x| + 1, c);
    var mid := x + [d, d] + y;
    assert Apply(a, first) == mid;
    assert Apply(mid, second) == b;
    assert Transforms(b, [first, second][1..][1..], b);
    assert Transforms(mid, [first, second][1..], b);
    assert Transforms(a, [first, second], b);
  }

  lemma {:induction false} Symmetric(a: string, b: string)
    ensures Distance(a, b) == Distance(b, a)
    decreases |a| + |b|
  {
    if a != [] && b != [] {
      Symmetric(a[..|a| - 1], b);
      Symmetric(a, b[..|b| - 1]);
      Symmetric(a[..|a| - 1], b[..|b| - 1]);
    }
  }

  /** Edit scripts compose, so the distance obeys the triangle inequality. */
  lemma Triangle(a: string, b: string, c: string)
    ensures Distance(a, c) <= Distance(a, b) + Distance(b, c)
  {
    var first := Script(a, b);
    var second := Script(b, c);
    Then(a, first, b, second, c);
    ScriptIsLongEnough(a, first + second, c);
  }
}
