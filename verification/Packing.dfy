/** First fit along a list of costs, and what makes it the best selection. */
module Packing {
  import opened Sorting

  /** Takes each item that still fits. */
  function Greedy(costs: seq<nat>, room: int): (mask: seq<bool>)
    ensures |mask| == |costs|
  {
    if costs == [] then []
    else if costs[0] <= room then [true] + Greedy(costs[1..], room - costs[0])
    else [false] + Greedy(costs[1..], room)
  }

  function Weight(costs: seq<nat>, mask: seq<bool>): nat
    requires |mask| == |costs|
  {
    if costs == [] then 0 else (if mask[0] then costs[0] else 0) + Weight(costs[1..], mask[1..])
  }

  function Select<T>(items: seq<T>, mask: seq<bool>, want: bool): seq<T>
    requires |mask| == |items|
  {
    if items == [] then []
    else (if mask[0] == want then [items[0]] else []) + Select(items[1..], mask[1..], want)
  }

  /** Where the two selections first differ, `b` takes the item and `a` does not. */
  ghost predicate Below(a: seq<bool>, b: seq<bool>) {
    exists d :: 0 <= d < |a| && d < |b| && a[..d] == b[..d] && !a[d] && b[d]
  }

  lemma {:induction false} GreedyFits(costs: seq<nat>, room: int)
    requires room >= 0
    ensures Weight(costs, Greedy(costs, room)) <= room
  {
    if costs != [] {
      GreedyFits(costs[1..], if costs[0] <= room then room - costs[0] else room);
    }
  }

  lemma BelowCons(x: bool, a: seq<bool>, b: seq<bool>)
    requires Below(a, b)
    ensures Below([x] + a, [x] + b)
  {
    var d :| 0 <= d < |a| && d < |b| && a[..d] == b[..d] && !a[d] && b[d];
    var p, q := [x] + a, [x] + b;
    assert p[..d + 1] == [x] + a[..d] && q[..d + 1] == [x] + b[..d];
    assert !p[d + 1] && q[d + 1];
  }

  /** Every other selection that fits is lexicographically below the greedy one. */
  lemma {:induction false} GreedyIsGreatest(costs: seq<nat>, room: int, mask: seq<bool>)
    requires |mask| == |costs| && Weight(costs, mask) <= room
    ensures mask == Greedy(costs, room) || Below(mask, Greedy(costs, room))
  {
    if costs != [] {
      var g := Greedy(costs, room);
      assert mask == [mask[0]] + mask[1..];
      if mask[0] == g[0] {
        GreedyIsGreatest(costs[1..], if g[0] then room - costs[0] else room, mask[1..]);
        assert g == [g[0]] + g[1..];
        if mask[1..] != g[1..] { BelowCons(mask[0], mask[1..], g[1..]); }
      } else {
        assert mask[..0] == g[..0];
      }
    }
  }

  // ----- Gaps --------------------------------------------------------------------------

  /** No item is taken after one that was left. */
  predicate Contiguous(mask: seq<bool>) {
    forall i, j :: 0 <= i < j < |mask| && mask[j] ==> mask[i]
  }

  function SumOf(costs: seq<nat>): nat {
    if costs == [] then 0 else costs[0] + SumOf(costs[1..])
  }

  /** How many leading items fit together. */
  function Lead(costs: seq<nat>, room: int): (k: nat)
    ensures k <= |costs|
  {
    if costs == [] || costs[0] > room then 0 else 1 + Lead(costs[1..], room - costs[0])
  }

  predicate AllAbove(costs: seq<nat>, room: int) {
    forall j :: 0 <= j < |costs| ==> costs[j] > room
  }

  predicate NoneTaken(mask: seq<bool>) {
    forall j :: 0 <= j < |mask| ==> !mask[j]
  }

  lemma AllAboveCons(costs: seq<nat>, room: int)
    requires costs != []
    ensures AllAbove(costs, room) <==> costs[0] > room && AllAbove(costs[1..], room)
  {
    assert costs == [costs[0]] + costs[1..];
    if AllAbove(costs, room) {
      forall j | 0 <= j < |costs[1..]| ensures costs[1..][j] > room { assert costs[j + 1] > room; }
    }
  }

  lemma {:induction false} NothingFits(costs: seq<nat>, room: int)
    ensures AllAbove(costs, room) <==> NoneTaken(Greedy(costs, room))
  {
    if costs != [] {
      AllAboveCons(costs, room);
      if costs[0] > room {
        NothingFits(costs[1..], room);
        var mask := Greedy(costs[1..], room);
        assert forall j :: 0 <= j < |mask| ==> ([false] + mask)[j + 1] == mask[j];
      } else {
        assert Greedy(costs, room)[0];
      }
    }
  }

  lemma ContiguousCons(x: bool, mask: seq<bool>)
    ensures Contiguous([x] + mask) <==> if x then Contiguous(mask) else NoneTaken(mask)
  {
    var m := [x] + mask;
    assert forall j :: 0 <= j < |mask| ==> m[j + 1] == mask[j];
    if Contiguous(m) && !x {
      forall j | 0 <= j < |mask| ensures !mask[j] { assert !m[0] && m[j + 1] == mask[j]; }
    }
    if Contiguous(m) && x {
      forall i, j | 0 <= i < j < |mask| && mask[j] ensures mask[i] { assert m[j + 1] && m[i + 1] == mask[i]; }
    }
    if x && Contiguous(mask) {
      forall i, j | 0 <= i < j < |m| && m[j] ensures m[i] { if i > 0 { assert mask[j - 1] && m[i] == mask[i - 1]; } }
    }
  }

  /** Every item after the leading ones is too big for what they leave. */
  ghost predicate NoneAfterLead(costs: seq<nat>, room: int) {
    forall j :: Lead(costs, room) <= j < |costs| ==> costs[j] > room - SumOf(costs[..Lead(costs, room)])
  }

  lemma NoneAfterLeadCons(costs: seq<nat>, room: int)
    requires costs != [] && costs[0] <= room
    ensures NoneAfterLead(costs, room) <==> NoneAfterLead(costs[1..], room - costs[0])
  {
    var rest, left := costs[1..], room - costs[0];
    var k := Lead(rest, left);
    assert Lead(costs, room) == k + 1;
    assert costs[..k + 1][1..] == rest[..k];
    assert SumOf(costs[..k + 1]) == costs[0] + SumOf(rest[..k]);
    assert forall j :: 0 <= j < |rest| ==> rest[j] == costs[j + 1];
    if NoneAfterLead(costs, room) {
      forall j | k <= j < |rest| ensures rest[j] > left - SumOf(rest[..k]) { assert costs[j + 1] == rest[j]; }
    }
  }

  /** First fit skips nothing exactly when no later item fits into what the leading run leaves. */
  lemma {:induction false} ContiguousIff(costs: seq<nat>, room: int)
    ensures Contiguous(Greedy(costs, room)) <==> NoneAfterLead(costs, room)
  {
    if costs != [] {
      if costs[0] <= room {
        ContiguousIff(costs[1..], room - costs[0]);
        ContiguousCons(true, Greedy(costs[1..], room - costs[0]));
        NoneAfterLeadCons(costs, room);
      } else {
        ContiguousCons(false, Greedy(costs[1..], room));
        NothingFits(costs[1..], room);
        AllAboveCons(costs, room);
        assert costs[..0] == [];
        assert NoneAfterLead(costs, room) <==> AllAbove(costs, room);
      }
    }
  }

  lemma MultisetCons<T>(x: T, s: seq<T>)
    ensures multiset([x] + s) == multiset{x} + multiset(s)
  {
  }

  /** Every item is taken or left, once. */
  lemma {:induction false} SelectPartitions<T>(items: seq<T>, mask: seq<bool>)
    requires |mask| == |items|
    ensures multiset(Select(items, mask, true)) + multiset(Select(items, mask, false)) == multiset(items)
  {
    if items != [] {
      var x, rest := items[0], items[1..];
      SelectPartitions(rest, mask[1..]);
      assert items == [x] + rest;
      MultisetCons(x, rest);
      MultisetCons(x, Select(rest, mask[1..], mask[0]));
      assert [] + Select(rest, mask[1..], !mask[0]) == Select(rest, mask[1..], !mask[0]);
      assert Select(items, mask, mask[0]) == [x] + Select(rest, mask[1..], mask[0]);
      assert Select(items, mask, !mask[0]) == Select(rest, mask[1..], !mask[0]);
    }
  }

  lemma {:induction false} SelectTakesFrom<T>(items: seq<T>, mask: seq<bool>, want: bool)
    requires |mask| == |items|
    ensures forall x :: x in Select(items, mask, want) ==> x in items
  {
    if items != [] { SelectTakesFrom(items[1..], mask[1..], want); }
  }

  /** What is selected keeps its order. */
  lemma {:induction false} SelectKeepsOrder<T>(items: seq<T>, mask: seq<bool>, want: bool, before: (T, T) -> bool)
    requires |mask| == |items| && Ordered(items, before)
    ensures Ordered(Select(items, mask, want), before)
  {
    if items != [] {
      var rest := items[1..];
      SelectKeepsOrder(rest, mask[1..], want, before);
      SelectTakesFrom(rest, mask[1..], want);
      forall x | x in rest ensures before(items[0], x) {
        var k :| 0 <= k < |rest| && rest[k] == x;
        assert before(items[0], items[k + 1]);
      }
    }
  }
}
