/** What an assembled prompt guarantees. */
module AssemblerSafety {
  import opened Sorting
  import opened Estimator
  import opened Packing
  import opened Turns
  import opened Assembler

  // ----- Accounting ---------------------------------------------------------------------------

  lemma SpentIsTotal(ms: seq<Message>, cost: Cost)
    ensures OrZero(Spent(ms, cost)) == Total(ms, cost)
  {
  }

  lemma PromptTotal(p: Parts, f: Filling, cost: Cost)
    ensures Total(Prompt(p, f), cost) == Sum(CountsOf(p, f, cost))
  {
    var tail := TailMessages(f.tail.kept, p.rules);
    TotalOne(p.system, cost);
    TotalOne(p.current, cost);
    TotalConcat([p.system], f.summary, cost);
    TotalConcat([p.system] + f.summary, f.memory, cost);
    TotalConcat([p.system] + f.summary + f.memory, tail, cost);
    TotalConcat([p.system] + f.summary + f.memory + tail, f.knowledge, cost);
    TotalConcat([p.system] + f.summary + f.memory + tail + f.knowledge, [p.current], cost);
    SpentIsTotal(f.summary, cost);
    SpentIsTotal(f.memory, cost);
    SpentIsTotal(tail, cost);
    SpentIsTotal(f.knowledge, cost);
  }

  /** The budget is what the filling uses plus what it leaves. */
  lemma FillBalances(p: Parts, cost: Cost)
    ensures
      var f := Fill(p, cost);
      p.budget == Total(Prompt(p, f), cost) - cost(p.current.content) + f.left
  {
    var f := Fill(p, cost);
    PromptTotal(p, f, cost);
    SpentIsTotal(f.summary, cost);
    SpentIsTotal(f.memory, cost);
    SpentIsTotal(TailMessages(f.tail.kept, p.rules), cost);
    SpentIsTotal(f.knowledge, cost);
    WalkBalances(p.turns, TailRoom(p, cost), p.rules, cost);
  }

  /** `total` is an independent count of the messages, and within the budget. */
  lemma Accounting(p: Parts, cost: Cost)
    requires Outcome(p, cost).Ok?
    ensures
      var ctx := Outcome(p, cost).value;
      ctx.total == Total(ctx.messages, cost) <= p.budget
  {
    PromptTotal(p, Fill(p, cost), cost);
    FillBalances(p, cost);
  }

  /** The same for a job under the length heuristic; the count also bounds the whole text. */
  lemma AccountingByLength(job: Job, per: real, block: Block)
    requires Outcome(PartsOf(job, block), ByLength(per)).Ok?
    ensures
      var ctx := Outcome(PartsOf(job, block), ByLength(per)).value;
      && Estimate(per, Concatenated(ctx.messages)) <= ctx.total == Total(ctx.messages, ByLength(per))
      && ctx.total <= job.Window() - job.reserve
  {
    Accounting(PartsOf(job, block), ByLength(per));
    PartsBoundWhole(per, Outcome(PartsOf(job, block), ByLength(per)).value.messages);
  }

  // ----- When assembly succeeds ----------------------------------------------------------------

  /** Success, told from the prompt that the filling would give. */
  lemma SucceedsIff(p: Parts, cost: Cost)
    ensures Outcome(p, cost).Ok? <==>
              p.budget > 0 && !SomeViolation(p.turns, p.rules) && Total(Prompt(p, Fill(p, cost)), cost) <= p.budget
  {
    FillBalances(p, cost);
    PromptTotal(p, Fill(p, cost), cost);
  }

  lemma {:induction false} WalkTakesAll(es: seq<Entry>, room: int, rules: Rules, cost: Cost)
    requires Demand(es, rules, cost) <= room
    ensures Walk(es, room, rules, cost).omitted == [] && Walk(es, room, rules, cost).left == room - Demand(es, rules, cost)
  {
    if es != [] {
      if Offered(es[0], rules) {
        WalkTakesAll(es[1..], room - cost(Shown(es[0].turn, rules)), rules, cost);
      } else {
        WalkTakesAll(es[1..], room, rules, cost);
      }
    }
  }

  /** The price of every turn on offer. */
  function Demand(es: seq<Entry>, rules: Rules, cost: Cost): nat {
    if es == [] then 0
    else (if Offered(es[0], rules) then cost(Shown(es[0].turn, rules)) else 0) + Demand(es[1..], rules, cost)
  }

  lemma {:induction false} TotalGrows(ms: seq<Message>, k: nat, cost: Cost)
    requires k <= |ms|
    ensures Total(ms[..k], cost) <= Total(ms, cost)
    decreases |ms| - k
  {
    if k < |ms| {
      TotalPrefix(ms, k, cost);
      TotalGrows(ms, k + 1, cost);
    } else {
      assert ms[..k] == ms;
    }
  }

  /** When all there is fits the budget, assembly succeeds and leaves nothing out. */
  lemma EverythingFits(p: Parts, cost: Cost)
    requires p.budget > 0 && !SomeViolation(p.turns, p.rules)
    requires cost(p.system.content) + Total(p.summary, cost) + Total(p.memory, cost) + Demand(p.turns, p.rules, cost)
               + Total(p.knowledge, cost) + cost(p.current.content) <= p.budget
    ensures Outcome(p, cost).Ok?
    ensures
      var ctx := Outcome(p, cost).value;
      ctx.omittedTurns == [] && ctx.omittedDocs == [] && ctx.omittedBlocks == []
  {
    var room := TailRoom(p, cost);
    WalkTakesAll(p.turns, room, p.rules, cost);
    var left := Walk(p.turns, room, p.rules, cost).left;
    FitIsLongest(p.knowledge, 0, left, cost);
    assert p.knowledge[..0] == [];
    var k := Fit(p.knowledge, 0, left, cost);
    if k < |p.knowledge| { TotalGrows(p.knowledge, k + 1, cost); }
    assert p.knowledge[..|p.knowledge|] == p.knowledge;
  }

  // ----- The recent turns ------------------------------------------------------------------------

  /** `best` fits, and every other selection that fits is below it. */
  ghost predicate IsBest(best: seq<bool>, costs: seq<nat>, room: int) {
    && |best| == |costs| && Weight(costs, best) <= room
    && forall mask :: |mask| == |costs| && Weight(costs, mask) <= room ==> mask == best || Below(mask, best)
  }

  lemma GreedyIsBest(costs: seq<nat>, room: int)
    requires room >= 0
    ensures IsBest(Greedy(costs, room), costs, room)
  {
    GreedyFits(costs, room);
    forall mask | |mask| == |costs| && Weight(costs, mask) <= room
      ensures mask == Greedy(costs, room) || Below(mask, Greedy(costs, room))
    {
      GreedyIsGreatest(costs, room, mask);
    }
  }

  /**
   Among all selections of the turns on offer that fit the room, the rendered one is the
   greatest when compared newest first; every turn on offer is rendered or reported, once.
   */
  lemma TailIsBest(p: Parts, cost: Cost) returns (best: seq<bool>)
    requires Outcome(p, cost).Ok?
    ensures
      var cs, t := OnOffer(p.turns, p.rules), Fill(p, cost).tail;
      var costs := Prices(cs, p.rules, cost);
      && IsBest(best, costs, TailRoom(p, cost))
      && t.kept == Select(cs, best, true) && t.omitted == Select(cs, best, false)
      && multiset(t.kept) + multiset(t.omitted) == multiset(cs)
      && Outcome(p, cost).value.omittedTurns == Labels(t.omitted)
  {
    var cs := OnOffer(p.turns, p.rules);
    var costs := Prices(cs, p.rules, cost);
    var room := TailRoom(p, cost);
    best := Greedy(costs, room);
    WalkIsGreedy(p.turns, room, p.rules, cost);
    RoomIsThere(p, cost);
    GreedyIsBest(costs, room);
    SelectPartitions(cs, best);
  }

  /**
   An older turn is rendered although a newer one was left out, unless every turn after
   the leading ones that fit together is too big for what those leave.
   */
  lemma NoGapIff(p: Parts, cost: Cost) returns (best: seq<bool>)
    requires Outcome(p, cost).Ok?
    ensures
      var cs := OnOffer(p.turns, p.rules);
      && |best| == |cs| && Fill(p, cost).tail.kept == Select(cs, best, true)
      && (Contiguous(best) <==> NoneAfterLead(Prices(cs, p.rules, cost), TailRoom(p, cost)))
  {
    var cs := OnOffer(p.turns, p.rules);
    var costs := Prices(cs, p.rules, cost);
    var room := TailRoom(p, cost);
    best := Greedy(costs, room);
    WalkIsGreedy(p.turns, room, p.rules, cost);
    ContiguousIff(costs, room);
  }

  lemma RoomIsThere(p: Parts, cost: Cost)
    requires cost(p.system.content) <= p.budget
    ensures TailRoom(p, cost) >= 0
  {
  }

  predicate Earlier(a: Entry, b: Entry) { a.index < b.index }

  lemma {:induction false} EligibleTurns(turns: seq<Turn>)
    ensures Ordered(Eligible(turns), Earlier)
    ensures forall e :: e in Eligible(turns) <==>
              e.index < |turns| && e.turn == turns[e.index] && e.turn.role in {"user", "assistant"}
  {
    if turns != [] {
      var n := |turns| - 1;
      EligibleTurns(turns[..n]);
      forall e ensures e in Eligible(turns) <==> e.index < |turns| && e.turn == turns[e.index] && e.turn.role in {"user", "assistant"} {
        assert e in Eligible(turns) <==> e in Eligible(turns[..n]) || (turns[n].role in {"user", "assistant"} && e == Entry(turns[n], n));
      }
    }
  }

  lemma {:induction false} SortNewer(s: seq<Entry>)
    requires Ordered(s, Earlier)
    ensures Ordered(Sort(s, Newer), Newer)
    ensures forall y :: y in Sort(s, Newer) <==> y in s
  {
    if s != [] {
      var front, last := s[..|s| - 1], s[|s| - 1];
      assert s == front + [last];
      OrderedSplit(front, last, Earlier);
      SortNewer(front);
      InsertOrdered(Sort(front, Newer), last, Newer);
    }
  }

  lemma {:induction false} OnOfferKeeps(es: seq<Entry>, rules: Rules)
    requires Ordered(es, Newer)
    ensures Ordered(OnOffer(es, rules), Newer)
    ensures forall e :: e in OnOffer(es, rules) <==> e in es && Offered(e, rules)
  {
    if es != [] {
      OnOfferKeeps(es[1..], rules);
      assert es == [es[0]] + es[1..];
      forall y | y in es[1..] ensures Newer(es[0], y) {
        var k :| 0 <= k < |es[1..]| && es[1..][k] == y;
      }
    }
  }

  lemma {:induction false} TailReverses(kept: seq<Entry>, rules: Rules)
    ensures |TailMessages(kept, rules)| == |kept|
    ensures forall i :: 0 <= i < |kept| ==> TailMessages(kept, rules)[i] == TurnMessage(kept[|kept| - 1 - i], rules)
  {
    if kept != [] { TailReverses(kept[1..], rules); }
  }

  /** The kept turns are real, unsummarised turns of the job, newest first; the messages show them oldest first. */
  lemma KeptTurns(job: Job, cost: Cost, block: Block)
    ensures
      var kept := Fill(PartsOf(job, block), cost).tail.kept;
      var ms := TailMessages(kept, job.rules);
      && |ms| == |kept|
      && (forall i :: 0 <= i < |kept| ==> ms[i] == TurnMessage(kept[|kept| - 1 - i], job.rules))
      && Ordered(kept, Newer)
      && (forall e :: e in kept ==> FromJob(job, e) && !Summarised(e, job.rules) && Shown(e.turn, job.rules) != "")
  {
    var p := PartsOf(job, block);
    EligibleTurns(job.turns);
    SortNewer(Eligible(job.turns));
    OnOfferKeeps(p.turns, job.rules);
    WalkIsGreedy(p.turns, TailRoom(p, cost), p.rules, cost);
    var cs := OnOffer(p.turns, p.rules);
    var mask := Greedy(Prices(cs, p.rules, cost), TailRoom(p, cost));
    SelectKeepsOrder(cs, mask, true, Newer);
    SelectTakesFrom(cs, mask, true);
    TailReverses(Select(cs, mask, true), job.rules);
  }

  ghost predicate FromJob(job: Job, e: Entry) {
    e.index < |job.turns| && e.turn == job.turns[e.index] && e.turn.role in {"user", "assistant"}
  }

  // ----- The knowledge block ------------------------------------------------------------------------

  /** Documents are ranked by score, and the block is the longest leading run that fits. */
  lemma KnowledgeIsLeadingRun(job: Job, cost: Cost, block: Block)
    requires Outcome(PartsOf(job, block), cost).Ok?
    ensures
      var p := PartsOf(job, block);
      var f, docs := Fill(p, cost), Sort(job.docs, HigherScore);
      && multiset(docs) == multiset(job.docs) && Sorted(docs, HigherScore)
      && f.knowledge == p.knowledge[..|f.knowledge|]
      && IsLongest(p.knowledge, |f.knowledge|, f.tail.left, cost)
      && Outcome(p, cost).value.omittedDocs == Range(|f.knowledge|, |p.knowledge|)
  {
    var p := PartsOf(job, block);
    SortContents(job.docs, HigherScore);
    SortSorted(job.docs, HigherScore);
    RoomIsThere(p, cost);
    WalkBalances(p.turns, TailRoom(p, cost), p.rules, cost);
    FitIsLongest(p.knowledge, 0, Fill(p, cost).tail.left, cost);
    assert p.knowledge[..0] == [];
  }
}
