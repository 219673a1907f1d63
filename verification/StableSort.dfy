/** Sorting by tuple keys as Python's `sorted` does: lexicographic and stable. */
module StableSort {

  type Key = seq<real>

  predicate Less(a: Key, b: Key)
    decreases |a|
  {
    if a == [] then b != []
    else if b == [] then false
    else if a[0] == b[0] then Less(a[1..], b[1..])
    else a[0] < b[0]
  }

  lemma {:induction false} Irreflexive(a: Key)
    ensures !Less(a, a)
    decreases |a|
  {
    if a != [] {
      Irreflexive(a[1..]);
    }
  }

  /** Neither key is less only if they are the same key. */
  lemma {:induction false} Total(a: Key, b: Key)
    ensures Less(a, b) || Less(b, a) || a == b
    decreases |a|
  {
    if a != [] && b != [] && a[0] == b[0] {
      Total(a[1..], b[1..]);
      assert a == [a[0]] + a[1..] && b == [b[0]] + b[1..];
    }
  }

  lemma {:induction false} Transitive(a: Key, b: Key, c: Key)
    requires !Less(b, a) && !Less(c, b)
    ensures !Less(c, a)
    decreases |a|
  {
    if a != [] && b != [] && c != [] && a[0] == b[0] == c[0] {
      Transitive(a[1..], b[1..], c[1..]);
    }
  }

  /** Put x behind everything that is not greater. */
  function Insert<T>(x: T, sorted: seq<T>, key: T -> Key): (r: seq<T>)
    ensures multiset(r) == multiset(sorted) + multiset{x}
    ensures |r| == |sorted| + 1
  {
    if sorted == [] then [x]
    else
      var n := |sorted|;
      assert sorted == sorted[..n - 1] + [sorted[n - 1]];
      if Less(key(x), key(sorted[n - 1])) then Insert(x, sorted[..n - 1], key) + [sorted[n - 1]] else sorted + [x]
  }

  function Sorted<T>(rows: seq<T>, key: T -> Key): (r: seq<T>)
    ensures multiset(r) == multiset(rows)
    ensures |r| == |rows|
  {
    if rows == [] then []
    else
      assert rows == rows[..|rows| - 1] + [rows[|rows| - 1]];
      Insert(rows[|rows| - 1], Sorted(rows[..|rows| - 1], key), key)
  }

  predicate Ordered<T>(s: seq<T>, key: T -> Key) {
    forall i, j :: 0 <= i < j < |s| ==> !Less(key(s[j]), key(s[i]))
  }

  lemma {:induction false} InsertOrdered<T>(x: T, sorted: seq<T>, key: T -> Key)
    requires Ordered(sorted, key)
    ensures Ordered(Insert(x, sorted, key), key)
    decreases |sorted|
  {
    hide Less, Sorted, Insert;
    InsertStep(x, sorted, key);
    if sorted != [] {
      var front, last := sorted[..|sorted| - 1], sorted[|sorted| - 1];
      assert sorted == front + [last];
      if Less(key(x), key(last)) {
        InsertOrdered(x, front, key);
        NothingAfterLast(x, front, last, key);
        OrderedSnoc(Insert(x, front, key), last, key);
      } else {
        forall i | 0 <= i < |sorted| ensures !Less(key(x), key(sorted[i])) {
          if i < |sorted| - 1 {
            Transitive(key(sorted[i]), key(last), key(x));
          }
        }
        OrderedSnoc(sorted, x, key);
      }
    }
  }

  lemma OrderedSnoc<T>(s: seq<T>, x: T, key: T -> Key)
    requires Ordered(s, key) && forall i :: 0 <= i < |s| ==> !Less(key(x), key(s[i]))
    ensures Ordered(s + [x], key)
  {
    hide Less;
  }

  lemma NothingAfterLast<T>(x: T, front: seq<T>, last: T, key: T -> Key)
    requires Ordered(front + [last], key) && Less(key(x), key(last))
    ensures var r := Insert(x, front, key); forall i :: 0 <= i < |r| ==> !Less(key(last), key(r[i]))
  {
    hide Less, Insert;
    var r := Insert(x, front, key);
    forall i | 0 <= i < |r| ensures !Less(key(last), key(r[i])) {
      assert r[i] in multiset(r);
      if r[i] == x {
        if Less(key(last), key(x)) {
          Asymmetric(key(x), key(last));
        }
      } else {
        assert r[i] in front;
        var k :| 0 <= k < |front| && front[k] == r[i];
        assert (front + [last])[k] == r[i] && (front + [last])[|front|] == last;
      }
    }
  }

  lemma {:induction false} Asymmetric(a: Key, b: Key)
    requires Less(a, b)
    ensures !Less(b, a)
    decreases |a|
  {
    if a != [] && b != [] && a[0] == b[0] {
      Asymmetric(a[1..], b[1..]);
    }
  }

  lemma {:induction false} SortedIsOrdered<T>(rows: seq<T>, key: T -> Key)
    ensures Ordered(Sorted(rows, key), key)
    decreases |rows|
  {
    if rows != [] {
      SortedIsOrdered(rows[..|rows| - 1], key);
      InsertOrdered(rows[|rows| - 1], Sorted(rows[..|rows| - 1], key), key);
    }
  }

  function Filter<T(!new)>(rows: seq<T>, keep: T -> bool): (r: seq<T>)
    ensures forall x :: x in r <==> x in rows && keep(x)
    ensures |r| <= |rows|
  {
    if rows == [] then []
    else
      var front := Filter(rows[..|rows| - 1], keep);
      assert rows == rows[..|rows| - 1] + [rows[|rows| - 1]];
      if keep(rows[|rows| - 1]) then front + [rows[|rows| - 1]] else front
  }

  function Not<T>(keep: T -> bool): T -> bool {
    x => !keep(x)
  }

  lemma {:induction false} FilterAll<T(!new)>(rows: seq<T>, keep: T -> bool)
    ensures (forall x :: x in rows ==> keep(x)) ==> Filter(rows, keep) == rows
    ensures (forall x :: x in rows ==> !keep(x)) ==> Filter(rows, keep) == []
    decreases |rows|
  {
    hide Filter;
    if rows == [] {
      FilterNone(keep);
    } else {
      FilterAll(rows[..|rows| - 1], keep);
      FilterSnoc(rows[..|rows| - 1], rows[|rows| - 1], keep);
      assert rows == rows[..|rows| - 1] + [rows[|rows| - 1]];
    }
  }

  /** Filtering by a condition and by its opposite loses nothing. */
  lemma {:induction false} FilterSplits<T(!new)>(rows: seq<T>, keep: T -> bool)
    ensures multiset(Filter(rows, keep)) + multiset(Filter(rows, Not(keep))) == multiset(rows)
    decreases |rows|
  {
    hide Less, Sorted, Insert, Filter;
    if rows == [] {
      FilterNone(keep);
    } else {
      FilterSplits(rows[..|rows| - 1], keep);
      FilterLast(rows, keep);
      assert rows == rows[..|rows| - 1] + [rows[|rows| - 1]];
    }
  }

  lemma FilterNone<T(!new)>(keep: T -> bool)
    ensures Filter([], keep) == [] == Filter([], Not(keep))
  {}

  /** The last row goes to one of the two. */
  lemma FilterLast<T(!new)>(rows: seq<T>, keep: T -> bool)
    requires rows != []
    ensures var front, last := rows[..|rows| - 1], rows[|rows| - 1];
            && Filter(rows, keep) == (if keep(last) then Filter(front, keep) + [last] else Filter(front, keep))
            && Filter(rows, Not(keep)) == (if keep(last) then Filter(front, Not(keep))
                else Filter(front, Not(keep)) + [last])
  {
  }

  lemma {:induction false} FilterInsert<T(!new)>(x: T, sorted: seq<T>, key: T -> Key, keep: T -> bool)
    requires Ordered(sorted, key)
    requires forall y, z :: keep(y) && keep(z) ==> key(y) == key(z)
    ensures Filter(Insert(x, sorted, key), keep) == Filter(sorted, keep) + (if keep(x) then [x] else [])
    decreases |sorted|
  {
    hide Less, Sorted, Filter, Insert;
    InsertStep(x, sorted, key);
    FilterSnoc(sorted, x, keep);
    if sorted != [] {
      var front, last := sorted[..|sorted| - 1], sorted[|sorted| - 1];
      assert sorted == front + [last];
      if Less(key(x), key(last)) {
        FilterInsert(x, front, key, keep);
        FilterSnoc(front, last, keep);
        FilterSnoc(Insert(x, front, key), last, keep);
        if keep(x) && keep(last) {
          Irreflexive(key(x));
        }
      }
    }
  }

  lemma InsertStep<T>(x: T, sorted: seq<T>, key: T -> Key)
    ensures Insert(x, sorted, key) ==
            if sorted != [] && Less(key(x), key(sorted[|sorted| - 1])) then
              Insert(x, sorted[..|sorted| - 1], key) + [sorted[|sorted| - 1]]
            else sorted + [x]
  {
    hide Less;
  }

  lemma FilterSnoc<T(!new)>(rows: seq<T>, x: T, keep: T -> bool)
    ensures Filter(rows + [x], keep) == Filter(rows, keep) + (if keep(x) then [x] else [])
  {
    assert (rows + [x])[..|rows|] == rows;
  }

  /** Stability: rows with the same key stay in the order they came in. */
  lemma {:induction false} SortedIsStable<T(!new)>(rows: seq<T>, key: T -> Key, keep: T -> bool)
    requires forall y, z :: keep(y) && keep(z) ==> key(y) == key(z)
    ensures Filter(Sorted(rows, key), keep) == Filter(rows, keep)
    decreases |rows|
  {
    if rows != [] {
      SortedIsStable(rows[..|rows| - 1], key, keep);
      SortedIsOrdered(rows[..|rows| - 1], key);
      FilterInsert(rows[|rows| - 1], Sorted(rows[..|rows| - 1], key), key, keep);
    }
  }

  /** Different rows have different keys. */
  ghost predicate DistinctKeys<T(!new)>(s: seq<T>, key: T -> Key) {
    forall x, y :: x in s && y in s && key(x) == key(y) ==> x == y
  }

  lemma Front<T(!new)>(s: seq<T>, key: T -> Key)
    requires s != [] && Ordered(s, key) && DistinctKeys(s, key)
    ensures var front := s[..|s| - 1];
            && multiset(front) == multiset(s) - multiset{s[|s| - 1]}
            && Ordered(front, key) && DistinctKeys(front, key)
  {
    hide Less;
    var front := s[..|s| - 1];
    assert s == front + [s[|s| - 1]];
  }

  /** Rows that differ in their keys can be put in order in one way only. */
  lemma {:induction false} OneOrder<T(!new)>(s: seq<T>, t: seq<T>, key: T -> Key)
    requires Ordered(s, key) && Ordered(t, key) && multiset(s) == multiset(t)
    requires DistinctKeys(s, key) && DistinctKeys(t, key)
    ensures s == t
    decreases |s|
  {
    hide Less, Ordered, DistinctKeys;
    assert |s| == |multiset(s)| == |multiset(t)| == |t|;
    if s != [] {
      LastsAgree(s, t, key);
      Front(s, key);
      Front(t, key);
      OneOrder(s[..|s| - 1], t[..|t| - 1], key);
      assert s == s[..|s| - 1] + [s[|s| - 1]] && t == t[..|t| - 1] + [t[|t| - 1]];
    }
  }

  lemma LastsAgree<T(!new)>(s: seq<T>, t: seq<T>, key: T -> Key)
    requires Ordered(s, key) && Ordered(t, key) && multiset(s) == multiset(t) && s != [] && t != []
    requires DistinctKeys(s, key)
    ensures s[|s| - 1] == t[|t| - 1]
  {
    hide Less;
    var x, y := s[|s| - 1], t[|t| - 1];
    assert x in multiset(t) && y in multiset(s);
    NotAfterLast(s, y, key);
    NotAfterLast(t, x, key);
    Total(key(x), key(y));
  }

  lemma NotAfterLast<T(!new)>(s: seq<T>, x: T, key: T -> Key)
    requires Ordered(s, key) && x in s
    ensures !Less(key(s[|s| - 1]), key(x))
  {
    var i :| 0 <= i < |s| && s[i] == x;
    if i == |s| - 1 {
      Irreflexive(key(x));
    }
  }

  /** Sorting forgets the order the rows came in, if their keys differ. */
  lemma SortedIsCanonical<T(!new)>(a: seq<T>, b: seq<T>, key: T -> Key)
    requires multiset(a) == multiset(b) && DistinctKeys(a, key)
    ensures Sorted(a, key) == Sorted(b, key)
  {
    SortedIsOrdered(a, key);
    SortedIsOrdered(b, key);
    SameElements(a, Sorted(a, key), key);
    SameElements(a, Sorted(b, key), key);
    OneOrder(Sorted(a, key), Sorted(b, key), key);
  }

  lemma SameElements<T(!new)>(a: seq<T>, b: seq<T>, key: T -> Key)
    requires multiset(a) == multiset(b) && DistinctKeys(a, key)
    ensures DistinctKeys(b, key)
  {
    forall x | x in b ensures x in a {
      assert x in multiset(b);
    }
  }
}
