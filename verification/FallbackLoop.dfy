/**
 The loop that both `_execute_chain` and `_stream_impl` run: attempt a deployment,
 and after a failure rebuild the target list from the class of that failure.
 */
module FallbackLoop {
  import opened Catalog
  import opened Fallback

  /** How one attempt leaves the loop: done, on to the next target, or out with an error. */
  datatype Fate = Won | Lost(cls: FailureClass) | Halted

  type Fates = Deployment -> Fate

  /** `chain.targets`: the ordered targets of each failure class. */
  type Plan = FailureClass -> seq<Deployment>

  function PlanOf(ch: Chain): Plan {
    c => Targets(ch, c)
  }

  function Reach(plan: Plan): (u: set<Deployment>)
    ensures forall c, d :: d in plan(c) ==> d in u
  {
    var u := Members(plan(General)) + Members(plan(ContentPolicy)) + Members(plan(ContextWindow));
    assert forall c, d :: d in plan(c) ==> c == General || c == ContentPolicy || c == ContextWindow;
    u
  }

  function Members(tried: seq<Deployment>): (s: set<Deployment>)
    ensures forall d :: d in s <==> d in tried
  {
    set d | d in tried
  }

  /** `[t for t in targets if t not in seen]`. */
  function Unseen(targets: seq<Deployment>, seen: seq<Deployment>): (r: seq<Deployment>)
    ensures forall d :: d in r <==> d in targets && d !in seen
  {
    if targets == [] then []
    else
      var rest := Unseen(targets[1..], seen);
      assert forall d :: d in targets <==> d == targets[0] || d in targets[1..];
      if targets[0] in seen then rest else [targets[0]] + rest
  }

  lemma UnseenEmpty(targets: seq<Deployment>, seen: seq<Deployment>)
    ensures Unseen(targets, seen) == [] <==> forall d :: d in targets ==> d in seen
  {
    var r := Unseen(targets, seen);
    assert r != [] ==> r[0] in r;
  }

  /** The attempts that follow once `tried` has been attempted, in order. */
  function Walk(plan: Plan, fates: Fates, tried: seq<Deployment>): (all: seq<Deployment>)
    requires tried != []
    ensures tried <= all
    decreases |Reach(plan) - Members(tried)|
  {
    match fates(tried[|tried| - 1])
    case Won => tried
    case Halted => tried
    case Lost(c) =>
      var rest := Unseen(plan(c), tried);
      if rest == [] then tried
      else
        WalkDecreases(plan, c, tried, rest[0]);
        Walk(plan, fates, tried + [rest[0]])
  }

  lemma WalkDecreases(plan: Plan, c: FailureClass, tried: seq<Deployment>, d: Deployment)
    requires d in plan(c) && d !in tried
    ensures |Reach(plan) - Members(tried + [d])| < |Reach(plan) - Members(tried)|
  {
    var before, after := Reach(plan) - Members(tried), Reach(plan) - Members(tried + [d]);
    assert d in before && d !in after;
    assert after <= before - {d};
    SubsetSize(after, before - {d});
  }

  lemma {:induction false} SubsetSize<T>(a: set<T>, b: set<T>)
    requires a <= b
    ensures |a| <= |b|
  {
    if a != {} {
      var x :| x in a;
      SubsetSize(a - {x}, b - {x});
    }
  }

  predicate Distinct(s: seq<Deployment>) {
    forall i, j :: 0 <= i < j < |s| ==> s[i] != s[j]
  }

  /** A maximal run of attempts, described without the loop. */
  ghost predicate CompleteWalk(plan: Plan, fates: Fates, first: Deployment, tried: seq<Deployment>) {
    && tried != [] && tried[0] == first
    && Distinct(tried)
    && (forall i :: 0 <= i < |tried| - 1 ==> Follows(plan, fates, tried, i))
    && (fates(tried[|tried| - 1]).Lost? ==>
          forall d :: d in plan(fates(tried[|tried| - 1]).cls) ==> d in tried)
  }

  /** Attempt `i` lost, and attempt `i + 1` is the first target of its class not tried before. */
  ghost predicate Follows(plan: Plan, fates: Fates, tried: seq<Deployment>, i: nat)
    requires i + 1 < |tried|
  {
    && fates(tried[i]).Lost?
    && var rest := Unseen(plan(fates(tried[i]).cls), tried[..i + 1]);
       rest != [] && rest[0] == tried[i + 1]
  }

  ghost predicate PartialWalk(plan: Plan, fates: Fates, first: Deployment, tried: seq<Deployment>) {
    && tried != [] && tried[0] == first
    && Distinct(tried)
    && forall i :: 0 <= i < |tried| - 1 ==> Follows(plan, fates, tried, i)
  }

  lemma ExtendPartial(plan: Plan, fates: Fates, first: Deployment, tried: seq<Deployment>, d: Deployment)
    requires PartialWalk(plan, fates, first, tried) && fates(tried[|tried| - 1]).Lost?
    requires
      var rest := Unseen(plan(fates(tried[|tried| - 1]).cls), tried);
      rest != [] && rest[0] == d
    ensures PartialWalk(plan, fates, first, tried + [d])
  {
    var more := tried + [d];
    assert d !in tried;
    forall i | 0 <= i < |more| - 1 ensures Follows(plan, fates, more, i) {
      if i < |tried| - 1 {
        assert Follows(plan, fates, tried, i);
        assert more[..i + 1] == tried[..i + 1];
      } else {
        assert more[..i + 1] == tried;
      }
    }
  }

  lemma StopsComplete(plan: Plan, fates: Fates, first: Deployment, tried: seq<Deployment>)
    requires PartialWalk(plan, fates, first, tried)
    requires fates(tried[|tried| - 1]).Lost? ==> Unseen(plan(fates(tried[|tried| - 1]).cls), tried) == []
    ensures CompleteWalk(plan, fates, first, tried)
  {
    var last := fates(tried[|tried| - 1]);
    if last.Lost? { UnseenEmpty(plan(last.cls), tried); }
  }

  lemma {:induction false} WalkFromPartial(plan: Plan, fates: Fates, first: Deployment, tried: seq<Deployment>)
    requires PartialWalk(plan, fates, first, tried)
    ensures CompleteWalk(plan, fates, first, Walk(plan, fates, tried))
    decreases |Reach(plan) - Members(tried)|
  {
    var last := fates(tried[|tried| - 1]);
    if last.Lost? && Unseen(plan(last.cls), tried) != [] {
      var d := Unseen(plan(last.cls), tried)[0];
      WalkDecreases(plan, last.cls, tried, d);
      ExtendPartial(plan, fates, first, tried, d);
      WalkFromPartial(plan, fates, first, tried + [d]);
      assert Walk(plan, fates, tried) == Walk(plan, fates, tried + [d]);
    } else {
      StopsComplete(plan, fates, first, tried);
      assert Walk(plan, fates, tried) == tried;
    }
  }

  /**
   Termination and coverage: no deployment is attempted twice, every attempt but the
   last lost, each next attempt is the first untried target of the latest failure
   class, and running out of targets for a class means all of them were tried.
   */
  lemma WalkIsComplete(plan: Plan, fates: Fates, first: Deployment)
    ensures CompleteWalk(plan, fates, first, Walk(plan, fates, [first]))
  {
    WalkFromPartial(plan, fates, first, [first]);
  }

  /** The description pins the run down: nothing but the walk satisfies it. */
  lemma {:induction false} WalkIsUnique(plan: Plan, fates: Fates, first: Deployment, other: seq<Deployment>, n: nat)
    requires CompleteWalk(plan, fates, first, other) && 1 <= n <= |other|
    ensures Walk(plan, fates, other[..n]) == other
    decreases |other| - n
  {
    if n < |other| {
      assert Follows(plan, fates, other, n - 1);
      assert other[..n - 1 + 1] == other[..n];
      WalkGoesOn(plan, fates, other[..n], other[n]);
      assert other[..n] + [other[n]] == other[..n + 1];
      WalkIsUnique(plan, fates, first, other, n + 1);
    } else {
      assert other[..n] == other;
      if fates(other[n - 1]).Lost? {
        UnseenEmpty(plan(fates(other[n - 1]).cls), other);
      }
      WalkEnds(plan, fates, other);
    }
  }

  lemma WalkEnds(plan: Plan, fates: Fates, tried: seq<Deployment>)
    requires tried != []
    requires fates(tried[|tried| - 1]).Lost? ==> Unseen(plan(fates(tried[|tried| - 1]).cls), tried) == []
    ensures Walk(plan, fates, tried) == tried
  {
  }

  lemma WalkGoesOn(plan: Plan, fates: Fates, tried: seq<Deployment>, d: Deployment)
    requires tried != [] && fates(tried[|tried| - 1]).Lost?
    requires
      var rest := Unseen(plan(fates(tried[|tried| - 1]).cls), tried);
      rest != [] && rest[0] == d
    ensures Walk(plan, fates, tried) == Walk(plan, fates, tried + [d])
  {
  }

  /** Every attempt is in the reachable universe, so their number is bounded by its size. */
  lemma AttemptsBounded(plan: Plan, fates: Fates, first: Deployment, tried: seq<Deployment>)
    requires CompleteWalk(plan, fates, first, tried) && first in Reach(plan)
    ensures |tried| <= |Reach(plan)|
  {
    forall d | d in tried ensures d in Reach(plan) {
      var i :| 0 <= i < |tried| && tried[i] == d;
      if i > 0 {
        assert Follows(plan, fates, tried, i - 1);
        var c := fates(tried[i - 1]).cls;
        assert d in Unseen(plan(c), tried[..i]);

      }
    }
    DistinctSize(tried);
    SubsetSize(Members(tried), Reach(plan));
  }

  lemma {:induction false} DistinctSize(s: seq<Deployment>)
    requires Distinct(s)
    ensures |Members(s)| == |s|
  {
    if s != [] {
      DistinctSize(s[1..]);
      assert Members(s) == Members(s[1..]) + {s[0]};
    }
  }

  /** For an unpinned request: at most the distinct candidates plus two attempts in all, from the router's pick on. */
  lemma UnpinnedAttemptsBounded(
    facts: Routing.Facts, r: Routing.Request, cfg: Routing.Config, catalog: seq<ModelSpec>, fates: Fates,
    available: Deployment -> bool)
    requires r.pinned.None?
    ensures
      var ch := BuildChain(facts, r, cfg, catalog);
      && ch.candidates != []
      && |Walk(PlanOf(ch), fates, [Routing.Decision(ch.candidates, available)])| <= |set d | d in ch.candidates| + 2
  {
    Routing.CandidatesNonEmpty(facts, r, cfg);
    var first := Routing.Decision(Routing.Candidates(facts, r, cfg), available);
    var ch := BuildChain(facts, r, cfg, catalog);
    var plan := PlanOf(ch);
    UnpinnedUniverseSize(facts, r, cfg, catalog);
    UniverseOfChain(ch);
    AddAllMembers([], ch.candidates, first);
    WalkIsComplete(plan, fates, first);
    AttemptsBounded(plan, fates, first, Walk(plan, fates, [first]));
    SubsetSize(Reach(plan), Fallback.Universe(ch));
  }

  lemma UniverseOfChain(ch: Chain)
    ensures Reach(PlanOf(ch)) <= Fallback.Universe(ch)
    ensures Members(Targets(ch, General)) <= Reach(PlanOf(ch))
  {
    var plan := PlanOf(ch);
    forall d | d in Reach(plan) ensures d in Fallback.Universe(ch) {
      var c :| d in plan(c);
      TargetsWithinUniverse(ch, c, d);
    }
    assert plan(General) == Targets(ch, General);
  }

  // ----- The loop's state between attempts ------------------------------------------

  /** The loop has made the attempts `tried` of the walk `all` and is about to use `targets`. */
  ghost predicate Midway(plan: Plan, fates: Fates, all: seq<Deployment>, tried: seq<Deployment>, targets: seq<Deployment>) {
    && tried <= all && all != []
    && if tried == [] then targets == [all[0]]
       else
         && fates(tried[|tried| - 1]).Lost?
         && targets == Unseen(plan(fates(tried[|tried| - 1]).cls), tried)
  }

  lemma StepOfWalk(plan: Plan, fates: Fates, first: Deployment, all: seq<Deployment>, n: nat)
    requires CompleteWalk(plan, fates, first, all) && 0 < n < |all|
    ensures fates(all[n - 1]).Lost?
    ensures
      var rest := Unseen(plan(fates(all[n - 1]).cls), all[..n]);
      rest != [] && rest[0] == all[n]
  {
    assert Follows(plan, fates, all, n - 1);
  }

  lemma EndOfWalk(plan: Plan, fates: Fates, first: Deployment, all: seq<Deployment>)
    requires CompleteWalk(plan, fates, first, all) && fates(all[|all| - 1]).Lost?
    ensures Unseen(plan(fates(all[|all| - 1]).cls), all) == []
  {
    UnseenEmpty(plan(fates(all[|all| - 1]).cls), all);
  }

  /** Taking the head of the target list is always a new attempt, and the walk's next one. */
  lemma Advance(plan: Plan, fates: Fates, first: Deployment, all: seq<Deployment>, tried: seq<Deployment>, targets: seq<Deployment>)
    requires CompleteWalk(plan, fates, first, all)
    requires Midway(plan, fates, all, tried, targets) && targets != []
    ensures |tried| < |all| && targets[0] == all[|tried|] && targets[0] !in tried
    ensures tried + [targets[0]] <= all
  {
    var n := |tried|;
    assert tried == all[..n];
    assert n == |all| ==> tried == all;
    if n == |all| {
      EndOfWalk(plan, fates, first, tried);
    } else if n > 0 {
      StepOfWalk(plan, fates, first, all, n);
    }
  }

  /** An attempt that does not lose ends the walk. */
  lemma StopsHere(plan: Plan, fates: Fates, first: Deployment, all: seq<Deployment>, tried: seq<Deployment>)
    requires CompleteWalk(plan, fates, first, all) && tried != [] && tried <= all
    requires !fates(tried[|tried| - 1]).Lost?
    ensures tried == all
  {
    var n := |tried|;
    if n < |all| { StepOfWalk(plan, fates, first, all, n); }
  }

  /** Running out of targets ends the walk. */
  lemma RunsDry(plan: Plan, fates: Fates, first: Deployment, all: seq<Deployment>, tried: seq<Deployment>)
    requires CompleteWalk(plan, fates, first, all) && Midway(plan, fates, all, tried, [])
    ensures tried != [] && tried == all
  {
    var n := |tried|;
    assert tried == all[..n];
    if 0 < n < |all| { StepOfWalk(plan, fates, first, all, n); }
  }
}
