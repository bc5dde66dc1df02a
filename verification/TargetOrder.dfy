/** In which order the deployments of a chain are tried. */
module TargetOrder {
  import opened Sorting
  import opened Catalog
  import Routing
  import opened Fallback
  import opened FallbackLoop

  /** The first place of `d` in `ds`, or `|ds|`. */
  function Place(ds: seq<Deployment>, d: Deployment): (i: nat)
    ensures i <= |ds| && (i < |ds| <==> d in ds)
    ensures i < |ds| ==> ds[i] == d
    ensures forall j :: 0 <= j < i ==> ds[j] != d
  {
    if ds == [] then 0 else if ds[0] == d then 0 else 1 + Place(ds[1..], d)
  }

  // ----- The candidates, once each in their order -----------------------------------------------

  /** `own` is `ds` with later repeats dropped. */
  ghost predicate Deduplicates(own: seq<Deployment>, ds: seq<Deployment>) {
    && (forall d :: d in own <==> d in ds)
    && forall i, j :: 0 <= i < j < |own| ==> Place(ds, own[i]) < Place(ds, own[j])
  }

  lemma PlaceSnoc(ds: seq<Deployment>, x: Deployment, d: Deployment)
    ensures Place(ds + [x], d) == if d in ds then Place(ds, d) else if d == x then |ds| else |ds| + 1
  {
    var p, q := Place(ds + [x], d), Place(ds, d);
    if d in ds {
      assert (ds + [x])[q] == d;
    } else if d == x {
      assert (ds + [x])[|ds|] == d;
    }
  }

  lemma DedupStep(own: seq<Deployment>, ds: seq<Deployment>, x: Deployment)
    requires Deduplicates(own, ds)
    ensures Deduplicates(Routing.AddNew(own, x), ds + [x])
  {
    var more := Routing.AddNew(own, x);
    forall d ensures Place(ds + [x], d) == if d in ds then Place(ds, d) else if d == x then |ds| else |ds| + 1 { PlaceSnoc(ds, x, d); }
    forall i, j | 0 <= i < j < |more| ensures Place(ds + [x], more[i]) < Place(ds + [x], more[j]) {
      assert more[i] in own;
    }
  }

  lemma MoveOne<T>(all: seq<T>, n: nat)
    requires n < |all|
    ensures all[..n + 1] == all[..n] + [all[n]] && all[n..][0] == all[n] && all[n..][1..] == all[n + 1..]
  {
  }

  lemma {:induction false} DedupAll(own: seq<Deployment>, all: seq<Deployment>, n: nat)
    requires n <= |all| && Deduplicates(own, all[..n])
    ensures Deduplicates(Routing.AddAll(own, all[n..]), all)
    decreases |all| - n
  {
    if n == |all| {
      assert all[..n] == all;
    } else {
      DedupStep(own, all[..n], all[n]);
      MoveOne(all, n);
      DedupAll(Routing.AddNew(own, all[n]), all, n + 1);
    }
  }

  /** How many targets are the candidates themselves. */
  function Own(ch: Chain): nat { |Routing.AddAll([], ch.candidates)| }

  /**
   Every class's list begins with the candidates, once each in the router's order, so no
   other deployment stands before a candidate.
   */
  lemma CandidatesComeFirst(ch: Chain, c: FailureClass)
    ensures Own(ch) <= |Targets(ch, c)| && Deduplicates(Targets(ch, c)[..Own(ch)], ch.candidates)
    ensures c == General ==> |Targets(ch, c)| == Own(ch)
  {
    var own := Routing.AddAll([], ch.candidates);
    DedupAll([], ch.candidates, 0);
    assert ch.candidates[0..] == ch.candidates;
    assert Targets(ch, c)[..|own|] == own;
  }

  lemma OwnAreCandidates(ch: Chain, c: FailureClass, k: nat)
    requires k < Own(ch)
    ensures k < |Targets(ch, c)| && Targets(ch, c)[k] in ch.candidates
  {
    CandidatesComeFirst(ch, c);
    assert Targets(ch, c)[..Own(ch)][k] in Targets(ch, c)[..Own(ch)];
  }

  /** What follows them is the tail of the class, if it has one. */
  lemma TailFollows(ch: Chain, c: FailureClass)
    ensures Own(ch) <= |Targets(ch, c)|
    ensures Targets(ch, c)[Own(ch)..] ==
              if c == ContentPolicy && ch.crossFamily then CrossFamily(ch) else if c == ContextWindow then LargeWindow(ch) else []
  {
  }

  // ----- The tails ----------------------------------------------------------------------------------

  /** The place of a family in the fallback order. */
  function FamilyPlace(families: seq<string>, provider: string): (i: nat)
    ensures i <= |families| && (i < |families| <==> provider in families)
    ensures i < |families| ==> families[i] == provider
  {
    if families == [] then 0 else if families[0] == provider then 0 else 1 + FamilyPlace(families[1..], provider)
  }

  ghost predicate ByFamily(ds: seq<Deployment>, families: seq<string>) {
    forall i, j :: 0 <= i < j < |ds| ==> FamilyPlace(families, ds[i].provider) <= FamilyPlace(families, ds[j].provider)
  }

  lemma {:induction false} AddAllExtends(ds: seq<Deployment>, more: seq<Deployment>)
    ensures ds <= Routing.AddAll(ds, more)
    ensures forall i :: |ds| <= i < |Routing.AddAll(ds, more)| ==> Routing.AddAll(ds, more)[i] in more
    decreases |more|
  {
    if more != [] {
      AddAllExtends(Routing.AddNew(ds, more[0]), more[1..]);
      var all, next := Routing.AddAll(ds, more), Routing.AddNew(ds, more[0]);
      forall i | |ds| <= i < |all| ensures all[i] in more {
        if i < |next| { assert all[i] == next[i]; } else { assert all[i] in more[1..]; }
      }
    }
  }

  /** A family's deployments are added behind what is there. */
  lemma FamilyExtends(ch: Chain, result: seq<Deployment>, p: string)
    ensures result <= AddFamily(ch, result, p)
    ensures forall i :: |result| <= i < |AddFamily(ch, result, p)| ==> AddFamily(ch, result, p)[i].provider == p
  {
    var own := Routing.AddAll(result, OfProvider(ch.candidates, p));
    var all := AddFamily(ch, result, p);
    AddAllExtends(result, OfProvider(ch.candidates, p));
    AddAllExtends(own, OfProvider(ch.tenant, p));
    forall i | |result| <= i < |all| ensures all[i].provider == p {
      if i < |own| { assert all[i] == own[i]; }
    }
  }

  lemma {:induction false} FamiliesInOrder(ch: Chain, result: seq<Deployment>, families: seq<string>, all: seq<string>, n: nat)
    requires n <= |all| && families == all[n..] && forall i, j :: 0 <= i < j < |all| ==> all[i] != all[j]
    requires ByFamily(result, all) && forall i :: 0 <= i < |result| ==> FamilyPlace(all, result[i].provider) < n
    ensures ByFamily(AddFamilies(ch, result, families), all)
    decreases |families|
  {
    if families != [] {
      var p := families[0];
      var next := AddFamily(ch, result, p);
      FamilyExtends(ch, result, p);
      assert all[n] == p && FamilyPlace(all, p) == n;
      forall i | 0 <= i < |next| ensures FamilyPlace(all, next[i].provider) < n + 1 {
        if i < |result| { assert next[i] == result[i]; }
      }
      forall i, j | 0 <= i < j < |next| ensures FamilyPlace(all, next[i].provider) <= FamilyPlace(all, next[j].provider) {
        if i < |result| { assert next[i] == result[i]; }
        if j < |result| { assert next[j] == result[j]; }
      }
      FamiliesInOrder(ch, next, families[1..], all, n + 1);
    }
  }

  /** In the cross-family tail earlier families come first. */
  lemma CrossFamilyInOrder(ch: Chain)
    ensures ByFamily(CrossFamily(ch), Families(ch.provider))
  {
    var all := Families(ch.provider);
    assert all[0..] == all;
    FamiliesInOrder(ch, [], all, all, 0);
  }

  /** `ds` are the deployments of the specs at increasing places `at`, all below `n`. */
  ghost predicate DrawnAt(specs: seq<ModelSpec>, n: nat, at: seq<nat>, ds: seq<Deployment>) {
    && |at| == |ds|
    && (forall i :: 0 <= i < |at| ==> at[i] < n && at[i] < |specs| && DeploymentOf(specs[at[i]]) == ds[i])
    && forall i, j :: 0 <= i < j < |at| ==> at[i] < at[j]
  }

  lemma DrawOne(specs: seq<ModelSpec>, n: nat, at: seq<nat>, ds: seq<Deployment>)
    requires n < |specs| && DrawnAt(specs, n, at, ds)
    ensures DrawnAt(specs, n + 1, at, ds)
    ensures DrawnAt(specs, n + 1, at + [n], ds + [DeploymentOf(specs[n])])
  {
  }

  lemma {:induction false} DrawnInOrder(ch: Chain, specs: seq<ModelSpec>, n: nat, at: seq<nat>, ds: seq<Deployment>)
    returns (places: seq<nat>)
    requires n <= |specs| && DrawnAt(specs, n, at, ds)
    ensures DrawnAt(specs, |specs|, places, TakeUnlisted(ch, specs[n..], ds))
    decreases |specs| - n
  {
    if n == |specs| || |ds| >= 2 {
      places := at;
    } else {
      var d := DeploymentOf(specs[n]);
      DrawOne(specs, n, at, ds);
      MoveOne(specs, n);
      if d in ch.candidates || d in ds {
        places := DrawnInOrder(ch, specs, n + 1, at, ds);
      } else {
        places := DrawnInOrder(ch, specs, n + 1, at + [n], ds + [d]);
      }
    }
  }

  /** `ds` are deployments of listed specs, wider windows first. */
  ghost predicate WiderFirst(ch: Chain, ds: seq<Deployment>, chosen: seq<ModelSpec>) {
    && |chosen| == |ds|
    && (forall i :: 0 <= i < |ds| ==> chosen[i] in ch.catalog && DeploymentOf(chosen[i]) == ds[i])
    && forall i, j :: 0 <= i < j < |ds| ==> chosen[i].window >= chosen[j].window
  }

  lemma WideByPlace(ch: Chain, specs: seq<ModelSpec>, at: seq<nat>, ds: seq<Deployment>) returns (chosen: seq<ModelSpec>)
    requires DrawnAt(specs, |specs|, at, ds) && forall s :: s in specs ==> s in ch.catalog
    requires forall i, j :: 0 <= i < j < |specs| ==> specs[i].window >= specs[j].window
    ensures WiderFirst(ch, ds, chosen)
  {
    chosen := seq(|at|, i requires 0 <= i < |at| => specs[at[i]]);
  }

  /** In the overflow tail wider windows come first. */
  lemma LargeWindowInOrder(ch: Chain) returns (chosen: seq<ModelSpec>)
    ensures WiderFirst(ch, LargeWindow(ch), chosen)
  {
    var specs := ByWindow(ch);
    SortContents(ch.catalog, WiderWindow);
    SortSorted(ch.catalog, WiderWindow);
    assert specs[0..] == specs;
    var at := DrawnInOrder(ch, specs, 0, [], []);
    forall i, j | 0 <= i < j < |specs| ensures specs[i].window >= specs[j].window {
      assert !WiderWindow(specs[j], specs[i]);
    }
    chosen := WideByPlace(ch, specs, at, LargeWindow(ch));
  }

  // ----- The walk -------------------------------------------------------------------------------------

  /** The first untried target is tried after all targets before it. */
  lemma {:induction false} FirstUnseen(targets: seq<Deployment>, seen: seq<Deployment>) returns (k: nat)
    requires Unseen(targets, seen) != []
    ensures k < |targets| && targets[k] == Unseen(targets, seen)[0]
    ensures forall i :: 0 <= i < k ==> targets[i] in seen
  {
    if targets[0] in seen {
      k := FirstUnseen(targets[1..], seen);
      assert forall i :: 0 < i < k + 1 ==> targets[i] == targets[1..][i - 1];
      k := k + 1;
    } else {
      k := 0;
    }
  }

  /** A deployment that is no candidate is attempted only after every candidate was. */
  lemma CandidatesAreTriedFirst(ch: Chain, fates: Fates, first: Deployment, i: nat, d: Deployment)
    requires first in ch.candidates && i < |Walk(PlanOf(ch), fates, [first])|
    requires Walk(PlanOf(ch), fates, [first])[i] !in ch.candidates && d in ch.candidates
    ensures d in Walk(PlanOf(ch), fates, [first])[..i]
  {
    var all := Walk(PlanOf(ch), fates, [first]);
    WalkIsComplete(PlanOf(ch), fates, first);
    assert all[0] == first && i > 0;
    StepOfWalk(PlanOf(ch), fates, first, all, i);
    var c := fates(all[i - 1]).cls;
    CandidatesComeFirst(ch, c);
    var k := FirstUnseen(Targets(ch, c), all[..i]);
    if k < Own(ch) { OwnAreCandidates(ch, c, k); }
    var own := Targets(ch, c)[..Own(ch)];
    assert d in own;
    var j :| 0 <= j < |own| && own[j] == d;
    assert Targets(ch, c)[j] == d;
  }
}
