/** Splitting a growing string at separators, for any way of recognising a separator. */
module Splitter {

  /** The length of the separator that starts at a position, or 0. */
  type Matcher = (string, nat) -> nat

  predicate Hit(m: Matcher, s: string, i: nat) {
    m(s, i) > 0 && i + m(s, i) <= |s|
  }

  /** The first separator at or after `i`, or `|s|`. */
  function FindSep(m: Matcher, s: string, i: nat): (k: nat)
    requires i <= |s|
    ensures i <= k <= |s| && (k < |s| ==> Hit(m, s, k))
    decreases |s| - i
  {
    if i == |s| || Hit(m, s, i) then i else FindSep(m, s, i + 1)
  }

  /** The pieces of `s` from `i` on that end at a separator. */
  function Cuts(m: Matcher, s: string, i: nat): seq<string>
    requires i <= |s|
    decreases |s| - i
  {
    var k := FindSep(m, s, i);
    if k == |s| then [] else [s[i..k]] + Cuts(m, s, k + m(s, k))
  }

  /** Where the piece after the last separator starts. */
  function Tail(m: Matcher, s: string, i: nat): (t: nat)
    requires i <= |s|
    ensures i <= t <= |s|
    decreases |s| - i
  {
    var k := FindSep(m, s, i);
    if k == |s| then i else Tail(m, s, k + m(s, k))
  }

  /** `y` is what is left of `s` from `p` on. */
  ghost predicate Remains(s: string, p: nat, y: string) {
    p <= |s| && y == s[p..]
  }

  ghost predicate Prefix(a: string, s: string) {
    a <= s
  }

  /** More text neither changes a complete separator nor completes one in front of it. */
  ghost predicate PrefixStable(m: Matcher) {
    && (forall a, s, j :: Prefix(a, s) && Hit(m, a, j) ==> m(s, j) == m(a, j) && Hit(m, s, j))
    && (forall a, s, j, k :: Prefix(a, s) && j < k && Hit(m, a, k) && !Hit(m, a, j) ==> !Hit(m, s, j))
  }

  /** A separator is recognised by its own text, wherever it stands. */
  ghost predicate Local(m: Matcher) {
    forall s, p: nat, y, j: nat :: Remains(s, p, y) ==> m(s, p + j) == m(y, j)
  }

  lemma Regroup<T>(x: seq<T>, y: seq<T>, z: seq<T>)
    ensures x + (y + z) == (x + y) + z
  {
  }

  lemma EmptyLeft<T>(y: seq<T>)
    ensures [] + y == y
  {
  }

  lemma CutOne(m: Matcher, s: string, i: nat, k: nat, n: nat)
    requires i <= k < |s| && k + n <= |s| && FindSep(m, s, i) == k && m(s, k) == n
    ensures Cuts(m, s, i) == [s[i..k]] + Cuts(m, s, k + n)
    ensures Tail(m, s, i) == Tail(m, s, k + n)
  {
  }

  lemma CutsEnd(m: Matcher, s: string, i: nat)
    requires i <= |s| && FindSep(m, s, i) == |s|
    ensures Cuts(m, s, i) == [] && Tail(m, s, i) == i
  {
  }

  lemma {:induction false} FindSepStable(m: Matcher, a: string, s: string, i: nat)
    requires PrefixStable(m) && Prefix(a, s) && i <= |a| && FindSep(m, a, i) < |a|
    ensures FindSep(m, s, i) == FindSep(m, a, i)
    ensures m(s, FindSep(m, a, i)) == m(a, FindSep(m, a, i))
    decreases |a| - i
  {
    if !Hit(m, a, i) {
      assert i < FindSep(m, a, i);
      assert !Hit(m, s, i);
      FindSepStable(m, a, s, i + 1);
    }
  }

  lemma SameSlice(a: string, s: string, i: nat, k: nat)
    requires Prefix(a, s) && i <= k <= |a|
    ensures s[i..k] == a[i..k]
  {
  }

  lemma {:induction false} CutsStable(m: Matcher, a: string, s: string, i: nat)
    requires PrefixStable(m) && Prefix(a, s) && i <= |a|
    ensures Cuts(m, s, i) == Cuts(m, a, i) + Cuts(m, s, Tail(m, a, i))
    ensures Tail(m, s, i) == Tail(m, s, Tail(m, a, i))
    decreases |a| - i
  {
    var k := FindSep(m, a, i);
    if k < |a| {
      var n := m(a, k);
      FindSepStable(m, a, s, i);
      SameSlice(a, s, i, k);
      CutOne(m, a, i, k, n);
      CutOne(m, s, i, k, n);
      CutsStable(m, a, s, k + n);
      Regroup([a[i..k]], Cuts(m, a, k + n), Cuts(m, s, Tail(m, a, k + n)));
    } else {
      CutsEnd(m, a, i);
      EmptyLeft(Cuts(m, s, i));
    }
  }

  /** From `p` on, `s` looks the same as `y` to the splitter. */
  ghost predicate Twin(m: Matcher, s: string, p: nat, y: string) {
    && |s| == p + |y|
    && (forall j: nat :: m(s, p + j) == m(y, j))
    && (forall i, k :: 0 <= i <= k <= |y| ==> s[p + i..p + k] == y[i..k])
  }

  lemma RemainsTwin(m: Matcher, s: string, p: nat, y: string)
    requires Local(m) && Remains(s, p, y)
    ensures Twin(m, s, p, y)
  {
  }

  lemma {:induction false} FindSepShift(m: Matcher, s: string, p: nat, y: string, j: nat)
    requires Twin(m, s, p, y) && j <= |y|
    ensures FindSep(m, s, p + j) == p + FindSep(m, y, j)
    decreases |y| - j
  {
    assert m(s, p + j) == m(y, j);
    if j < |y| && !Hit(m, y, j) {
      FindSepShift(m, s, p, y, j + 1);
    }
  }

  lemma CutBoth(m: Matcher, s: string, i: nat, l: nat, y: string, j: nat, k: nat, n: nat)
    requires i <= l < |s| && l + n <= |s| && FindSep(m, s, i) == l && m(s, l) == n
    requires j <= k < |y| && k + n <= |y| && FindSep(m, y, j) == k && m(y, k) == n
    requires s[i..l] == y[j..k] && Cuts(m, s, l + n) == Cuts(m, y, k + n)
    ensures Cuts(m, s, i) == Cuts(m, y, j)
    ensures Tail(m, s, i) == Tail(m, s, l + n) && Tail(m, y, j) == Tail(m, y, k + n)
  {
    CutOne(m, s, i, l, n);
    CutOne(m, y, j, k, n);
  }

  lemma {:induction false} CutsShift(m: Matcher, s: string, p: nat, y: string, j: nat)
    requires Twin(m, s, p, y) && j <= |y|
    ensures Cuts(m, s, p + j) == Cuts(m, y, j)
    ensures Tail(m, s, p + j) == p + Tail(m, y, j)
    decreases |y| - j
  {
    FindSepShift(m, s, p, y, j);
    var k := FindSep(m, y, j);
    if k < |y| {
      var n := m(y, k);
      assert m(s, p + k) == n;
      CutsShift(m, s, p, y, k + n);
      assert s[p + j..p + k] == y[j..k];
      CutBoth(m, s, p + j, p + k, y, j, k, n);
      assert p + k + n == p + (k + n);
    } else {
      CutsEnd(m, y, j);
      CutsEnd(m, s, p + j);
    }
  }

  /** The complete pieces of `s`, and the open piece behind them. */
  function Whole(m: Matcher, s: string): seq<string> {
    Cuts(m, s, 0)
  }

  function Open(m: Matcher, s: string): string {
    s[Tail(m, s, 0)..]
  }

  lemma DropConcat(a: string, b: string, t: nat)
    requires t <= |a|
    ensures Remains(a + b, t, a[t..] + b)
  {
  }

  lemma DropDrop(s: string, t: nat, y: string, u: nat)
    requires Remains(s, t, y) && u <= |y|
    ensures s[t + u..] == y[u..]
  {
  }

  /**
   Buffered splitting does not see chunk boundaries: handling the complete pieces of a
   prefix and keeping the open one gives the split of the whole string.
   */
  lemma SplitIncremental(m: Matcher, a: string, b: string)
    requires PrefixStable(m) && Local(m)
    ensures Whole(m, a + b) == Whole(m, a) + Whole(m, Open(m, a) + b)
    ensures Open(m, a + b) == Open(m, Open(m, a) + b)
  {
    var s, t := a + b, Tail(m, a, 0);
    var y := a[t..] + b;
    assert Prefix(a, s);
    CutsStable(m, a, s, 0);
    DropConcat(a, b, t);
    ShiftCuts(m, s, t, y);
    DropDrop(s, t, y, Tail(m, y, 0));
  }

  lemma {:induction false} FindFirst(m: Matcher, s: string, i: nat, k: nat)
    requires i <= k < |s| && Hit(m, s, k) && forall j :: i <= j < k ==> !Hit(m, s, j)
    ensures FindSep(m, s, i) == k
    decreases k - i
  {
    if i < k {
      FindFirst(m, s, i + 1, k);
    }
  }

  /** Text up to the first separator is one piece, and the rest splits on its own. */
  lemma SplitOff(m: Matcher, s: string, body: string, n: nat, more: string)
    requires Local(m) && |body| < |s| && m(s, |body|) == n > 0
    requires body == s[..|body|] && Remains(s, |body| + n, more)
    requires forall j :: 0 <= j < |body| ==> !Hit(m, s, j)
    ensures Whole(m, s) == [body] + Whole(m, more)
    ensures Open(m, s) == Open(m, more)
  {
    var k := |body|;
    FindFirst(m, s, 0, k);
    ShiftCuts(m, s, k + n, more);
    CutHead(m, s, body, n);
    DropDrop(s, k + n, more, Tail(m, more, 0));
  }

  lemma ShiftCuts(m: Matcher, s: string, p: nat, more: string)
    requires Local(m) && Remains(s, p, more)
    ensures Cuts(m, s, p) == Cuts(m, more, 0) && Tail(m, s, p) == p + Tail(m, more, 0)
  {
    RemainsTwin(m, s, p, more);
    CutsShift(m, s, p, more, 0);
  }

  lemma CutHead(m: Matcher, s: string, body: string, n: nat)
    requires |body| < |s| && |body| + n <= |s| && body == s[..|body|]
    requires FindSep(m, s, 0) == |body| && m(s, |body|) == n
    ensures Cuts(m, s, 0) == [body] + Cuts(m, s, |body| + n)
    ensures Tail(m, s, 0) == Tail(m, s, |body| + n)
  {
    assert s[0..|body|] == body;
    CutOne(m, s, 0, |body|, n);
  }

  lemma SplitNothing(m: Matcher)
    ensures Whole(m, "") == [] && Open(m, "") == ""
  {
  }
}
