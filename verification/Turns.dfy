/**
 The turns of the prompt assembler: which are eligible, in what order they are walked,
 and which the remaining budget keeps.
 */
module Turns {
  import opened Text
  import opened Sorting
  import opened Estimator
  import opened Packing

  const PLACEHOLDER := "[tool result cleared; re-fetch on demand]"

  datatype Result<+T> = Ok(value: T) | BudgetExceeded | RedactionViolation

  /** An absent raw payload is the empty string. */
  datatype Turn = Turn(role: string, content: string, number: Option<int>, messageId: string, toolPayload: bool, raw: string)

  datatype Entry = Entry(turn: Turn, index: nat)

  datatype Rules = Rules(position: Option<int>, clear: bool)

  function Eligible(turns: seq<Turn>): seq<Entry> {
    if turns == [] then []
    else
      var n := |turns| - 1;
      Eligible(turns[..n]) + (if turns[n].role in {"user", "assistant"} then [Entry(turns[n], n)] else [])
  }

  function Rank(e: Entry): int {
    if e.turn.number.Some? then e.turn.number.value else 0
  }

  predicate Newer(a: Entry, b: Entry) {
    Rank(a) > Rank(b) || (Rank(a) == Rank(b) && a.index > b.index)
  }

  function RecentFirst(turns: seq<Turn>): seq<Entry> {
    Sort(Eligible(turns), Newer)
  }

  /** The turn is already told by the summary. */
  predicate Summarised(e: Entry, rules: Rules) {
    rules.position.Some? && e.turn.number.Some? && e.turn.number.value <= rules.position.value
  }

  function Shown(turn: Turn, rules: Rules): string {
    if rules.clear && turn.toolPayload then PLACEHOLDER else turn.content
  }

  predicate Violates(e: Entry, rules: Rules) {
    !Summarised(e, rules) && !(rules.clear && e.turn.toolPayload) && e.turn.content == "" && e.turn.raw != ""
  }

  predicate Offered(e: Entry, rules: Rules) {
    !Summarised(e, rules) && Shown(e.turn, rules) != ""
  }

  datatype Tail = Tail(kept: seq<Entry>, omitted: seq<Entry>, left: int)

  /** The newest-first walk. */
  function Walk(es: seq<Entry>, room: int, rules: Rules, cost: Cost): Tail {
    if es == [] then Tail([], [], room)
    else if !Offered(es[0], rules) then Walk(es[1..], room, rules, cost)
    else
      var price := cost(Shown(es[0].turn, rules));
      if price > room then
        var t := Walk(es[1..], room, rules, cost);
        t.(omitted := [es[0]] + t.omitted)
      else
        var t := Walk(es[1..], room - price, rules, cost);
        t.(kept := [es[0]] + t.kept)
  }

  function Join(kept: seq<Entry>, omitted: seq<Entry>, t: Tail): Tail {
    Tail(kept + t.kept, omitted + t.omitted, t.left)
  }

  lemma JoinOne(es: seq<Entry>, i: nat, room: int, rules: Rules, cost: Cost, kept: seq<Entry>, omitted: seq<Entry>)
    requires i < |es|
    ensures
      var price := cost(Shown(es[i].turn, rules));
      Join(kept, omitted, Walk(es[i..], room, rules, cost)) ==
      if !Offered(es[i], rules) then Join(kept, omitted, Walk(es[i + 1..], room, rules, cost))
      else if price > room then Join(kept, omitted + [es[i]], Walk(es[i + 1..], room, rules, cost))
      else Join(kept + [es[i]], omitted, Walk(es[i + 1..], room - price, rules, cost))
  {
    assert es[i..][1..] == es[i + 1..];
    var price := cost(Shown(es[i].turn, rules));
    var t := Walk(es[i + 1..], room, rules, cost);
    var u := Walk(es[i + 1..], room - price, rules, cost);
    assert omitted + ([es[i]] + t.omitted) == (omitted + [es[i]]) + t.omitted;
    assert kept + ([es[i]] + u.kept) == (kept + [es[i]]) + u.kept;
  }

  ghost predicate SomeViolation(es: seq<Entry>, rules: Rules) {
    exists i :: 0 <= i < |es| && Violates(es[i], rules)
  }

  ghost predicate IsWalk(r: Result<Tail>, es: seq<Entry>, room: int, rules: Rules, cost: Cost) {
    r == if SomeViolation(es, rules) then RedactionViolation else Ok(Walk(es, room, rules, cost))
  }

  method WalkTail(es: seq<Entry>, room: int, rules: Rules, cost: Cost) returns (r: Result<Tail>)
    ensures IsWalk(r, es, room, rules, cost)
  {
    var kept, omitted, remaining := [], [], room;
    assert es[0..] == es;
    for i := 0 to |es|
      invariant forall k :: 0 <= k < i ==> !Violates(es[k], rules)
      invariant Join(kept, omitted, Walk(es[i..], remaining, rules, cost)) == Walk(es, room, rules, cost)
    {
      JoinOne(es, i, remaining, rules, cost, kept, omitted);
      if Summarised(es[i], rules) {
        continue;
      }
      if Violates(es[i], rules) {
        return RedactionViolation;
      }
      var content := Shown(es[i].turn, rules);
      if content == "" {
        continue;
      }
      var price := cost(content);
      if price > remaining {
        omitted := omitted + [es[i]];
        continue;
      }
      kept := kept + [es[i]];
      remaining := remaining - price;
    }
    assert es[|es|..] == [];
    assert Join(kept, omitted, Tail([], [], remaining)) == Tail(kept, omitted, remaining);
    return Ok(Tail(kept, omitted, remaining));
  }

  // ----- The walk is the greedy selection among the turns on offer ------------------------------

  function OnOffer(es: seq<Entry>, rules: Rules): seq<Entry> {
    if es == [] then []
    else (if Offered(es[0], rules) then [es[0]] else []) + OnOffer(es[1..], rules)
  }

  function Prices(es: seq<Entry>, rules: Rules, cost: Cost): (p: seq<nat>)
    ensures |p| == |es|
  {
    if es == [] then [] else [cost(Shown(es[0].turn, rules))] + Prices(es[1..], rules, cost)
  }

  ghost predicate IsSelection(t: Tail, cs: seq<Entry>, mask: seq<bool>, costs: seq<nat>, room: int) {
    && |mask| == |cs| == |costs|
    && t == Tail(Select(cs, mask, true), Select(cs, mask, false), room - Weight(costs, mask))
  }

  lemma SelectCons<T>(x: T, items: seq<T>, b: bool, mask: seq<bool>, want: bool)
    requires |mask| == |items|
    ensures Select([x] + items, [b] + mask, want) == (if b == want then [x] else []) + Select(items, mask, want)
  {
    assert ([x] + items)[1..] == items && ([b] + mask)[1..] == mask;
  }

  lemma WeightCons(c: nat, costs: seq<nat>, b: bool, mask: seq<bool>)
    requires |mask| == |costs|
    ensures Weight([c] + costs, [b] + mask) == (if b then c else 0) + Weight(costs, mask)
  {
    assert ([c] + costs)[1..] == costs && ([b] + mask)[1..] == mask;
  }

  lemma GreedyCons(c: nat, costs: seq<nat>, room: int)
    ensures Greedy([c] + costs, room) == [c <= room] + Greedy(costs, if c <= room then room - c else room)
  {
    assert ([c] + costs)[1..] == costs;
  }

  lemma PricesCons(e: Entry, es: seq<Entry>, rules: Rules, cost: Cost)
    ensures Prices([e] + es, rules, cost) == [cost(Shown(e.turn, rules))] + Prices(es, rules, cost)
  {
    assert ([e] + es)[1..] == es;
  }

  lemma EmptyFirst<T>(s: seq<T>)
    ensures [] + s == s
  {
  }

  function ConsTail(e: Entry, take: bool, t: Tail): Tail {
    if take then t.(kept := [e] + t.kept) else t.(omitted := [e] + t.omitted)
  }

  lemma SelectionCons(t: Tail, cs: seq<Entry>, mask: seq<bool>, costs: seq<nat>, room: int, e: Entry, price: nat, take: bool)
    requires IsSelection(t, cs, mask, costs, if take then room - price else room)
    ensures IsSelection(ConsTail(e, take, t), [e] + cs, [take] + mask, [price] + costs, room)
  {
    SelectCons(e, cs, take, mask, true);
    SelectCons(e, cs, take, mask, false);
    WeightCons(price, costs, take, mask);
    EmptyFirst(Select(cs, mask, true));
    EmptyFirst(Select(cs, mask, false));
  }

  lemma {:induction false} WalkIsGreedy(es: seq<Entry>, room: int, rules: Rules, cost: Cost)
    ensures
      var cs := OnOffer(es, rules);
      var costs := Prices(cs, rules, cost);
      IsSelection(Walk(es, room, rules, cost), cs, Greedy(costs, room), costs, room)
  {
    if es != [] {
      var e, rest := es[0], OnOffer(es[1..], rules);
      if !Offered(e, rules) {
        EmptyFirst(rest);
        WalkIsGreedy(es[1..], room, rules, cost);
      } else {
        var price, prices := cost(Shown(e.turn, rules)), Prices(rest, rules, cost);
        var left := if price <= room then room - price else room;
        var t := Walk(es[1..], left, rules, cost);
        WalkIsGreedy(es[1..], left, rules, cost);
        SelectionCons(t, rest, Greedy(prices, left), prices, room, e, price, price <= room);
        assert OnOffer(es, rules) == [e] + rest && Walk(es, room, rules, cost) == ConsTail(e, price <= room, t);
        PricesCons(e, rest, rules, cost);
        GreedyCons(price, prices, room);
      }
    }
  }
}
