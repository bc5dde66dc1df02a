/** The fallback chain of one request: an ordered deployment list per failure class. */
module Fallback {
  import opened Catalog
  import opened Sorting
  import Routing

  datatype FailureClass = General | ContentPolicy | ContextWindow

  /**
   `tenant` holds the tenant's `provider:model` entries, already split; `catalog` is
   the default catalog in the order of `list_all`.
   */
  datatype Chain = Chain(
    provider: string,
    candidates: seq<Deployment>,
    tenant: seq<Deployment>,
    crossFamily: bool,
    catalog: seq<ModelSpec>)

  function NamedEntries(entries: seq<string>): seq<Deployment> {
    if entries == [] then []
    else (if ':' in entries[0] then [Routing.SplitDeployment(entries[0])] else []) + NamedEntries(entries[1..])
  }

  function BuildChain(facts: Routing.Facts, r: Routing.Request, cfg: Routing.Config, catalog: seq<ModelSpec>): Chain {
    Chain(r.provider, Routing.Candidates(facts, r, cfg),
          NamedEntries(Routing.TenantFallbacks(cfg.fallbackModels)), cfg.crossFamily, catalog)
  }

  function Families(provider: string): seq<string> {
    if provider == "openai" then ["anthropic", "google"]
    else if provider == "anthropic" then ["openai", "google"]
    else if provider == "google" then ["openai", "anthropic"]
    else if provider == "azure" || provider == "custom" then ["openai"]
    else []
  }

  function OfProvider(ds: seq<Deployment>, provider: string): (r: seq<Deployment>)
    ensures forall d :: d in r <==> d in ds && d.provider == provider
  {
    if ds == [] then []
    else
      var rest := OfProvider(ds[..|ds| - 1], provider);
      assert ds == ds[..|ds| - 1] + [ds[|ds| - 1]];
      if ds[|ds| - 1].provider == provider then rest + [ds[|ds| - 1]] else rest
  }

  predicate Covers(ds: seq<Deployment>, provider: string) {
    exists i :: 0 <= i < |ds| && ds[i].provider == provider
  }

  /** One family of `_cross_family`: its candidates, else the tenant's entries for it. */
  function AddFamily(ch: Chain, result: seq<Deployment>, provider: string): seq<Deployment> {
    var own := Routing.AddAll(result, OfProvider(ch.candidates, provider));
    if Covers(own, provider) then own else Routing.AddAll(own, OfProvider(ch.tenant, provider))
  }

  function AddFamilies(ch: Chain, result: seq<Deployment>, families: seq<string>): seq<Deployment>
    decreases |families|
  {
    if families == [] then result else AddFamilies(ch, AddFamily(ch, result, families[0]), families[1..])
  }

  function CrossFamily(ch: Chain): seq<Deployment> {
    AddFamilies(ch, [], Families(ch.provider))
  }

  function DeploymentOf(s: ModelSpec): Deployment {
    Deployment(s.provider, s.model)
  }

  predicate WiderWindow(a: ModelSpec, b: ModelSpec) {
    a.window > b.window
  }

  /** The first specs, at most two in all, that are neither candidates nor already taken. */
  function TakeUnlisted(ch: Chain, specs: seq<ModelSpec>, result: seq<Deployment>): seq<Deployment>
    decreases |specs|
  {
    if specs == [] || |result| >= 2 then result
    else
      var d := DeploymentOf(specs[0]);
      TakeUnlisted(ch, specs[1..], if d in ch.candidates || d in result then result else result + [d])
  }

  function ByWindow(ch: Chain): seq<ModelSpec> {
    Sort(ch.catalog, WiderWindow)
  }

  function LargeWindow(ch: Chain): seq<Deployment> {
    TakeUnlisted(ch, ByWindow(ch), [])
  }

  function Targets(ch: Chain, c: FailureClass): seq<Deployment> {
    Routing.AddAll([], ch.candidates)
    + (if c == ContentPolicy && ch.crossFamily then CrossFamily(ch) else [])
    + (if c == ContextWindow then LargeWindow(ch) else [])
  }

  // ----- The list-building loops of the source ------------------------------------

  method ComputeLargeWindow(ch: Chain) returns (result: seq<Deployment>)
    ensures result == LargeWindow(ch)
  {
    var specs := ByWindow(ch);
    result := [];
    var i := 0;
    while i < |specs| && |result| < 2
      invariant 0 <= i <= |specs|
      invariant TakeUnlisted(ch, specs[i..], result) == LargeWindow(ch)
    {
      assert specs[i..][1..] == specs[i + 1..];
      var d := DeploymentOf(specs[i]);
      if d !in ch.candidates && d !in result {
        result := result + [d];
      }
      i := i + 1;
    }
  }

  method AppendNew(result: seq<Deployment>, more: seq<Deployment>) returns (r: seq<Deployment>)
    ensures r == Routing.AddAll(result, more)
  {
    r := result;
    var i := 0;
    while i < |more|
      invariant 0 <= i <= |more|
      invariant Routing.AddAll(r, more[i..]) == Routing.AddAll(result, more)
    {
      assert more[i..][1..] == more[i + 1..];
      if more[i] !in r {
        r := r + [more[i]];
      }
      i := i + 1;
    }
  }

  method ComputeCrossFamily(ch: Chain) returns (result: seq<Deployment>)
    ensures result == CrossFamily(ch)
  {
    var families := Families(ch.provider);
    result := [];
    var i := 0;
    while i < |families|
      invariant 0 <= i <= |families|
      invariant AddFamilies(ch, result, families[i..]) == CrossFamily(ch)
    {
      assert families[i..][1..] == families[i + 1..];
      result := AppendNew(result, OfProvider(ch.candidates, families[i]));
      if !Covers(result, families[i]) {
        result := AppendNew(result, OfProvider(ch.tenant, families[i]));
      }
      i := i + 1;
    }
  }

  method ComputeTargets(ch: Chain, c: FailureClass) returns (ordered: seq<Deployment>)
    ensures ordered == Targets(ch, c)
  {
    ordered := AppendNew([], ch.candidates);
    if c == ContentPolicy && ch.crossFamily {
      var tail := ComputeCrossFamily(ch);
      ordered := ordered + tail;
    }
    if c == ContextWindow {
      var tail := ComputeLargeWindow(ch);
      ordered := ordered + tail;
    }
  }

  // ----- What the lists contain ------------------------------------------------------

  lemma {:induction false} AddAllMembers(ds: seq<Deployment>, more: seq<Deployment>, d: Deployment)
    ensures d in Routing.AddAll(ds, more) <==> d in ds || d in more
    decreases |more|
  {
    if more != [] {
      AddAllMembers(Routing.AddNew(ds, more[0]), more[1..], d);
      assert d in more <==> d == more[0] || d in more[1..];
    }
  }

  /** A deployment that a listed family contributes: a candidate, else a tenant entry when no candidate is of that family. */
  predicate Contributes(ch: Chain, d: Deployment) {
    d in ch.candidates || (d in ch.tenant && !Covers(ch.candidates, d.provider))
  }

  predicate Apart(ds: seq<Deployment>, families: seq<string>) {
    forall d :: d in ds ==> d.provider !in families
  }

  lemma CoversMembers(ds: seq<Deployment>, provider: string)
    ensures Covers(ds, provider) <==> exists d :: d in ds && d.provider == provider
  {
    if d :| d in ds && d.provider == provider {
      var i :| 0 <= i < |ds| && ds[i] == d;
    }
  }

  lemma FamilyMembers(ch: Chain, result: seq<Deployment>, p: string, d: Deployment)
    requires Apart(result, [p])
    ensures d in AddFamily(ch, result, p) <==> d in result || (d.provider == p && Contributes(ch, d))
  {
    var own := Routing.AddAll(result, OfProvider(ch.candidates, p));
    forall e ensures e in own <==> e in result || (e in ch.candidates && e.provider == p) {
      AddAllMembers(result, OfProvider(ch.candidates, p), e);
    }
    CoversMembers(own, p);
    CoversMembers(ch.candidates, p);
    assert p in [p];
    AddAllMembers(own, OfProvider(ch.tenant, p), d);
  }

  lemma {:induction false} FamiliesMembers(ch: Chain, result: seq<Deployment>, families: seq<string>, d: Deployment)
    requires Apart(result, families) && forall i, j :: 0 <= i < j < |families| ==> families[i] != families[j]
    ensures d in AddFamilies(ch, result, families) <==> d in result || (d.provider in families && Contributes(ch, d))
    decreases |families|
  {
    if families != [] {
      var p, rest := families[0], families[1..];
      assert p in families && forall q :: q in families <==> q == p || q in rest;
      assert p !in rest;
      forall e ensures e in AddFamily(ch, result, p) <==> e in result || (e.provider == p && Contributes(ch, e)) {
        FamilyMembers(ch, result, p, e);
      }
      FamiliesMembers(ch, AddFamily(ch, result, p), rest, d);
    }
  }

  /** Exactly which deployments the cross-family tail holds. */
  lemma CrossFamilyMembers(ch: Chain, d: Deployment)
    ensures d in CrossFamily(ch) <==> d.provider in Families(ch.provider) && Contributes(ch, d)
  {
    FamiliesMembers(ch, [], Families(ch.provider), d);
  }

  /** The cross-family tail never returns to the family that refused. */
  lemma CrossFamilyLeavesFamily(ch: Chain, d: Deployment)
    requires d in CrossFamily(ch)
    ensures d.provider != ch.provider
  {
    CrossFamilyMembers(ch, d);
  }

  lemma {:induction false} NamedEntriesSplit(entries: seq<string>, d: Deployment)
    requires d in NamedEntries(entries)
    ensures exists i :: 0 <= i < |entries| && Routing.SplitDeployment(entries[i]) == d
  {
    if entries != [] {
      if d in NamedEntries(entries[1..]) {
        NamedEntriesSplit(entries[1..], d);
        var i :| 0 <= i < |entries[1..]| && Routing.SplitDeployment(entries[1..][i]) == d;
        assert entries[i + 1] == entries[1..][i];
      } else {
        assert Routing.SplitDeployment(entries[0]) == d;
      }
    }
  }

  /**
   For an unpinned request the cross-family tail only repeats candidates, so a
   content-policy failure explores exactly the deployments a general failure explores.
   */
  lemma UnpinnedCrossFamilyAddsNothing(
    facts: Routing.Facts, r: Routing.Request, cfg: Routing.Config, catalog: seq<ModelSpec>, d: Deployment)
    requires r.pinned.None?
    ensures
      var ch := BuildChain(facts, r, cfg, catalog);
      && (d in CrossFamily(ch) ==> d in ch.candidates)
      && (d in Targets(ch, ContentPolicy) <==> d in Targets(ch, General))
  {
    var ch := BuildChain(facts, r, cfg, catalog);
    if d in CrossFamily(ch) {
      CrossFamilyMembers(ch, d);
      if d in ch.tenant {
        var entries := Routing.TenantFallbacks(cfg.fallbackModels);
        NamedEntriesSplit(entries, d);
        var i :| 0 <= i < |entries| && Routing.SplitDeployment(entries[i]) == d;
        Routing.TenantEntriesAreCandidates(facts, r, cfg, i);
      }
    }
    AddAllMembers([], ch.candidates, d);
  }

  lemma {:induction false} TakeUnlistedShape(ch: Chain, specs: seq<ModelSpec>, result: seq<Deployment>)
    requires |result| <= 2
    ensures result <= TakeUnlisted(ch, specs, result) && |TakeUnlisted(ch, specs, result)| <= 2
    decreases |specs|
  {
    if specs != [] && |result| < 2 {
      var d := DeploymentOf(specs[0]);
      var next := if d in ch.candidates || d in result then result else result + [d];
      TakeUnlistedShape(ch, specs[1..], next);
    }
  }

  /** Each newly taken deployment has a window at least as wide as any spec left behind. */
  lemma {:induction false} TakeUnlistedWidest(ch: Chain, specs: seq<ModelSpec>, result: seq<Deployment>, d: Deployment, s: ModelSpec)
    requires |result| <= 2 && Sorted(specs, WiderWindow)
    requires d in TakeUnlisted(ch, specs, result) && d !in result
    requires s in specs && DeploymentOf(s) !in ch.candidates && DeploymentOf(s) !in TakeUnlisted(ch, specs, result)
    ensures d !in ch.candidates
    ensures exists t :: t in specs && DeploymentOf(t) == d && t.window >= s.window
    decreases |specs|
  {
    var head := DeploymentOf(specs[0]);
    var next := if head in ch.candidates || head in result then result else result + [head];
    TakeUnlistedShape(ch, specs[1..], next);
    var k :| 0 <= k < |specs| && specs[k] == s;
    assert specs[0].window >= s.window;
    if head == d && d in next {
      assert specs[0] in specs;
    } else {
      assert TakeUnlisted(ch, specs, result) == TakeUnlisted(ch, specs[1..], next);
      assert forall x :: x in next ==> x in TakeUnlisted(ch, specs[1..], next);
      assert k > 0;
      assert specs[1..][k - 1] == s;
      TakeUnlistedWidest(ch, specs[1..], next, d, s);
    }
  }

  /**
   The overflow tail holds at most two deployments, none of them a candidate, and no
   catalog model outside the candidates that was left out has a wider window.
   */
  lemma LargeWindowIsWidest(ch: Chain, d: Deployment, s: ModelSpec)
    requires d in LargeWindow(ch)
    requires s in ch.catalog && DeploymentOf(s) !in ch.candidates && DeploymentOf(s) !in LargeWindow(ch)
    ensures |LargeWindow(ch)| == 2 && d !in ch.candidates
    ensures exists t :: t in ch.catalog && DeploymentOf(t) == d && t.window >= s.window
  {
    SortContents(ch.catalog, WiderWindow);
    SortSorted(ch.catalog, WiderWindow);
    TakeUnlistedShape(ch, ByWindow(ch), []);
    TakeUnlistedWidest(ch, ByWindow(ch), [], d, s);
    TakeUnlistedFull(ch, ByWindow(ch), [], s);
    var t :| t in ByWindow(ch) && DeploymentOf(t) == d && t.window >= s.window;
    assert t in ch.catalog;
  }

  lemma {:induction false} TakeUnlistedFull(ch: Chain, specs: seq<ModelSpec>, result: seq<Deployment>, s: ModelSpec)
    requires |result| <= 2
    requires s in specs && DeploymentOf(s) !in ch.candidates && DeploymentOf(s) !in TakeUnlisted(ch, specs, result)
    ensures |TakeUnlisted(ch, specs, result)| == 2
    decreases |specs|
  {
    if |result| < 2 {
      var head := DeploymentOf(specs[0]);
      var next := if head in ch.candidates || head in result then result else result + [head];
      TakeUnlistedShape(ch, specs[1..], next);
      assert TakeUnlisted(ch, specs, result) == TakeUnlisted(ch, specs[1..], next);
      assert forall x :: x in next ==> x in TakeUnlisted(ch, specs[1..], next);
      assert s != specs[0];
      TakeUnlistedFull(ch, specs[1..], next, s);
    }
  }

  lemma {:induction false} TakeUnlistedFresh(ch: Chain, specs: seq<ModelSpec>, result: seq<Deployment>)
    requires forall d :: d in result ==> d !in ch.candidates
    ensures forall d :: d in TakeUnlisted(ch, specs, result) ==> d !in ch.candidates
    decreases |specs|
  {
    if specs != [] && |result| < 2 {
      var d := DeploymentOf(specs[0]);
      TakeUnlistedFresh(ch, specs[1..], if d in ch.candidates || d in result then result else result + [d]);
    }
  }

  lemma {:induction false} TakeUnlistedNone(ch: Chain, specs: seq<ModelSpec>)
    ensures TakeUnlisted(ch, specs, []) == [] <==> forall i :: 0 <= i < |specs| ==> DeploymentOf(specs[i]) in ch.candidates
    decreases |specs|
  {
    if specs != [] {
      var head := DeploymentOf(specs[0]);
      if head in ch.candidates {
        TakeUnlistedNone(ch, specs[1..]);
        assert forall i :: 1 <= i < |specs| ==> specs[i] == specs[1..][i - 1];
      } else {
        TakeUnlistedShape(ch, specs[1..], [head]);
        assert TakeUnlisted(ch, specs, []) == TakeUnlisted(ch, specs[1..], [head]) by { assert [] + [head] == [head]; }
        assert DeploymentOf(specs[0]) !in ch.candidates;
      }
    }
  }

  /** No failure class leads anywhere but to the pin. */
  ghost predicate PinHolds(ch: Chain, pin: Deployment) {
    forall c, d :: d in Targets(ch, c) ==> d == pin
  }

  /** The catalog lists a deployment other than the pin. */
  ghost predicate OverflowLeaves(ch: Chain, pin: Deployment) {
    exists s :: s in ch.catalog && DeploymentOf(s) != pin
  }

  /** A tenant entry names another family that the request's provider falls back to. */
  ghost predicate RefusalLeaves(ch: Chain, pin: Deployment) {
    ch.crossFamily && exists d :: d in ch.tenant && d.provider in Families(ch.provider) && d.provider != pin.provider
  }

  lemma PinnedOverflow(ch: Chain, pin: Deployment)
    requires ch.candidates == [pin]
    ensures LargeWindow(ch) == [] <==> !OverflowLeaves(ch, pin)
    ensures forall d :: d in LargeWindow(ch) ==> d != pin
  {
    SortContents(ch.catalog, WiderWindow);
    TakeUnlistedNone(ch, ByWindow(ch));
    TakeUnlistedFresh(ch, ByWindow(ch), []);
    assert pin in ch.candidates;
    forall s | s in ch.catalog ensures exists i :: 0 <= i < |ByWindow(ch)| && ByWindow(ch)[i] == s {
      assert s in ByWindow(ch);
    }
    forall i | 0 <= i < |ByWindow(ch)| ensures ByWindow(ch)[i] in ch.catalog {
    }
  }

  lemma PinnedRefusal(ch: Chain, pin: Deployment, d: Deployment)
    requires ch.candidates == [pin]
    ensures d in CrossFamily(ch) && d != pin <==> d in ch.tenant && d.provider in Families(ch.provider) && d.provider != pin.provider
  {
    CrossFamilyMembers(ch, d);
    assert Covers(ch.candidates, d.provider) <==> pin.provider == d.provider by {
      CoversMembers(ch.candidates, d.provider);
    }
  }

  /**
   A pin is not absolute: a failure leaves it exactly when the catalog lists another
   deployment, or cross-family fallback is on and a tenant entry names another listed family.
   */
  lemma PinHoldsIff(ch: Chain, pin: Deployment)
    requires ch.candidates == [pin]
    ensures PinHolds(ch, pin) <==> !OverflowLeaves(ch, pin) && !RefusalLeaves(ch, pin)
  {
    PinnedOverflow(ch, pin);
    forall d ensures d in Targets(ch, General) <==> d == pin { AddAllMembers([], [pin], d); }
    forall d ensures d in Targets(ch, ContextWindow) <==> d == pin || d in LargeWindow(ch) { AddAllMembers([], [pin], d); }
    forall d
      ensures d in Targets(ch, ContentPolicy) && d != pin <==>
                ch.crossFamily && d in ch.tenant && d.provider in Families(ch.provider) && d.provider != pin.provider
    {
      AddAllMembers([], [pin], d);
      PinnedRefusal(ch, pin, d);
    }
    if OverflowLeaves(ch, pin) {
      assert LargeWindow(ch)[0] in Targets(ch, ContextWindow);
    }
    if !OverflowLeaves(ch, pin) && !RefusalLeaves(ch, pin) {
      forall c, d | d in Targets(ch, c) ensures d == pin {
        assert c == General || c == ContextWindow || c == ContentPolicy;
      }
    }
  }

  /** The same for a pinned request. */
  lemma PinnedTargets(
    facts: Routing.Facts, r: Routing.Request, cfg: Routing.Config, catalog: seq<ModelSpec>)
    requires r.pinned.Some?
    ensures
      var ch := BuildChain(facts, r, cfg, catalog);
      var pin := Routing.SplitDeployment(r.pinned.value);
      PinHolds(ch, pin) <==> !OverflowLeaves(ch, pin) && !RefusalLeaves(ch, pin)
  {
    PinHoldsIff(BuildChain(facts, r, cfg, catalog), Routing.SplitDeployment(r.pinned.value));
  }

  /** Both ways out are real: a catalog with a second model, and a tenant entry of another family. */
  lemma PinsBreak(a: string, b: string)
    requires a != b
    ensures
      var pin := Deployment("openai", a);
      && !PinHolds(Chain("openai", [pin], [], false, [ModelSpec("openai", b, 1, 0.0, 0.0)]), pin)
      && !PinHolds(Chain("openai", [pin], [Deployment("google", b)], true, [ModelSpec("openai", a, 1, 0.0, 0.0)]), pin)
  {
    var pin := Deployment("openai", a);
    var wide := ModelSpec("openai", b, 1, 0.0, 0.0);
    var overflowing := Chain("openai", [pin], [], false, [wide]);
    var refusing := Chain("openai", [pin], [Deployment("google", b)], true, [ModelSpec("openai", a, 1, 0.0, 0.0)]);
    PinHoldsIff(overflowing, pin);
    assert wide in overflowing.catalog && DeploymentOf(wide) != pin;
    PinHoldsIff(refusing, pin);
    var other := Deployment("google", b);
    assert other in refusing.tenant;
    assert Families("openai")[1] == "google";
  }

  // ----- The deployments a request can ever reach --------------------------------------

  function Universe(ch: Chain): set<Deployment> {
    (set d | d in ch.candidates) + (set d | d in CrossFamily(ch)) + (set d | d in LargeWindow(ch))
  }

  lemma TargetsWithinUniverse(ch: Chain, c: FailureClass, d: Deployment)
    requires d in Targets(ch, c)
    ensures d in Universe(ch)
  {
    AddAllMembers([], ch.candidates, d);
  }

  lemma {:induction false} SetOfSeqSize(ds: seq<Deployment>)
    ensures |set d | d in ds| <= |ds|
  {
    if ds != [] {
      SetOfSeqSize(ds[1..]);
      assert (set d | d in ds) == (set d | d in ds[1..]) + {ds[0]};
    }
  }

  /** An unpinned request can reach at most two deployments beyond its distinct candidates. */
  lemma UnpinnedUniverseSize(
    facts: Routing.Facts, r: Routing.Request, cfg: Routing.Config, catalog: seq<ModelSpec>)
    requires r.pinned.None?
    ensures
      var ch := BuildChain(facts, r, cfg, catalog);
      |Universe(ch)| <= |set d | d in ch.candidates| + 2
  {
    var ch := BuildChain(facts, r, cfg, catalog);
    forall d | d in CrossFamily(ch) ensures d in ch.candidates {
      UnpinnedCrossFamilyAddsNothing(facts, r, cfg, catalog, d);
    }
    var cs, lw := (set d | d in ch.candidates), (set d | d in LargeWindow(ch));
    assert Universe(ch) == cs + lw;
    TakeUnlistedShape(ch, ByWindow(ch), []);
    SetOfSeqSize(LargeWindow(ch));
  }
}
