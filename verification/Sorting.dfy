/** Python's `sorted`: a stable insertion order for any strict comparison. */
module Sorting {

  ghost predicate StrictWeakOrder<T(!new)>(less: (T, T) -> bool) {
    && (forall a, b :: less(a, b) ==> !less(b, a))
    && (forall a, b, c :: less(a, b) && !less(c, b) ==> less(a, c))
  }

  ghost predicate Sorted<T>(s: seq<T>, less: (T, T) -> bool) {
    forall i, j :: 0 <= i < j < |s| ==> !less(s[j], s[i])
  }

  /** Places `x` behind every element that it is not strictly less than. */
  function Insert<T>(s: seq<T>, x: T, less: (T, T) -> bool): seq<T> {
    if s == [] || !less(x, s[|s| - 1]) then s + [x]
    else Insert(s[..|s| - 1], x, less) + [s[|s| - 1]]
  }

  function Sort<T>(s: seq<T>, less: (T, T) -> bool): seq<T> {
    if s == [] then [] else Insert(Sort(s[..|s| - 1], less), s[|s| - 1], less)
  }

  lemma {:induction false} InsertContents<T>(s: seq<T>, x: T, less: (T, T) -> bool)
    ensures multiset(Insert(s, x, less)) == multiset(s) + multiset{x}
    ensures |Insert(s, x, less)| == |s| + 1
  {
    if s == [] || !less(x, s[|s| - 1]) {
    } else {
      InsertContents(s[..|s| - 1], x, less);
      assert s == s[..|s| - 1] + [s[|s| - 1]];
    }
  }

  lemma {:induction false} InsertSorted<T(!new)>(s: seq<T>, x: T, less: (T, T) -> bool)
    requires StrictWeakOrder(less) && Sorted(s, less)
    ensures Sorted(Insert(s, x, less), less)
  {
    if s == [] || !less(x, s[|s| - 1]) {
      forall i | 0 <= i < |s| ensures !less(x, s[i]) {
      }
    } else {
      var front, last := s[..|s| - 1], s[|s| - 1];
      InsertSorted(front, x, less);
      InsertContents(front, x, less);
      var r := Insert(front, x, less);
      forall i | 0 <= i < |r| ensures !less(last, r[i]) {
        assert r[i] in multiset(r);
        assert r[i] in multiset(front) || r[i] == x;
        if r[i] in front {
          var k :| 0 <= k < |front| && front[k] == r[i];
          assert s[k] == r[i];
        }
      }
    }
  }

  /** `Sort` is a permutation of its input. */
  lemma {:induction false} SortContents<T>(s: seq<T>, less: (T, T) -> bool)
    ensures multiset(Sort(s, less)) == multiset(s)
    ensures |Sort(s, less)| == |s|
    ensures forall x :: x in Sort(s, less) <==> x in s
  {
    if s != [] {
      SortContents(s[..|s| - 1], less);
      InsertContents(Sort(s[..|s| - 1], less), s[|s| - 1], less);
      assert s == s[..|s| - 1] + [s[|s| - 1]];
    }
    forall x ensures x in Sort(s, less) <==> x in s {
      assert x in multiset(Sort(s, less)) <==> x in multiset(s);
    }
  }

  lemma {:induction false} SortSorted<T(!new)>(s: seq<T>, less: (T, T) -> bool)
    requires StrictWeakOrder(less)
    ensures Sorted(Sort(s, less), less)
  {
    if s != [] {
      SortSorted(s[..|s| - 1], less);
      InsertSorted(Sort(s[..|s| - 1], less), s[|s| - 1], less);
    }
  }

  ghost predicate Ordered<T>(items: seq<T>, before: (T, T) -> bool) {
    forall i, j :: 0 <= i < j < |items| ==> before(items[i], items[j])
  }

  lemma OrderedSnoc<T>(s: seq<T>, x: T, before: (T, T) -> bool)
    requires Ordered(s, before) && forall y :: y in s ==> before(y, x)
    ensures Ordered(s + [x], before)
  {
  }

  lemma OrderedSplit<T>(front: seq<T>, last: T, before: (T, T) -> bool)
    requires Ordered(front + [last], before)
    ensures Ordered(front, before) && forall y :: y in front ==> before(y, last)
  {
    var s := front + [last];
    forall i, j | 0 <= i < j < |front| ensures before(front[i], front[j]) {
      assert before(s[i], s[j]);
    }
    forall y | y in front ensures before(y, last) {
      var k :| 0 <= k < |front| && front[k] == y;
      assert before(s[k], s[|front|]);
    }
  }

  lemma {:induction false} InsertOrdered<T(!new)>(s: seq<T>, x: T, before: (T, T) -> bool)
    requires Ordered(s, before) && forall y :: y in s ==> before(x, y) || before(y, x)
    requires forall a, b, c :: before(a, b) && before(b, c) ==> before(a, c)
    ensures Ordered(Insert(s, x, before), before)
    ensures forall y :: y in Insert(s, x, before) <==> y in s || y == x
  {
    if s == [] {
      OrderedSnoc(s, x, before);
    } else {
      var front, last := s[..|s| - 1], s[|s| - 1];
      assert s == front + [last];
      OrderedSplit(front, last, before);
      if before(x, last) {
        InsertOrdered(front, x, before);
        OrderedSnoc(Insert(front, x, before), last, before);
      } else {
        OrderedSnoc(s, x, before);
      }
    }
  }
}
