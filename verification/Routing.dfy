/** Candidate deployments of a request and the router's pick among them. */
module Routing {
  import opened Text
  import opened Catalog
  import opened Sorting

  datatype Strategy = Cost | Latency | Quality | Pinned

  datatype Request = Request(
    provider: string,
    model: string,                          // the requested model, or the provider's default
    strategy: Strategy,
    pinned: Option<string>,
    tieredSimple: bool,                     // tiered routing on, and the query is simple
    estimatedInput: Option<nat>)

  datatype Config = Config(cheapModel: string, fallbackModels: seq<string>, crossFamily: bool)

  /** What the router reads: price cards, measured latencies and the default catalog listing. */
  datatype Facts = Facts(specs: Specs, latency: map<Deployment, real>)

  function SplitDeployment(entry: string): Deployment {
    if ':' in entry then
      var i := Find(entry, ':');
      Deployment(Lower(Trim(entry[..i])), Trim(entry[i + 1..]))
    else Deployment(Lower(Trim(entry)), Trim(entry))
  }

  /** `tenant_fallback_candidates`: blank entries are dropped, the rest are stripped. */
  function TenantFallbacks(raw: seq<string>): seq<string> {
    if raw == [] then []
    else (if Trim(raw[0]) == "" then [] else [Trim(raw[0])]) + TenantFallbacks(raw[1..])
  }

  function DefaultFallback(provider: string): Option<string> {
    if provider == "openai" || provider == "azure" || provider == "custom" then Some("gpt-4o-mini")
    else if provider == "anthropic" then Some("claude-3-5-haiku")
    else if provider == "google" then Some("gemini-2.0-flash")
    else None
  }

  function AddNew(ds: seq<Deployment>, d: Deployment): seq<Deployment> {
    if d in ds then ds else ds + [d]
  }

  function AddAll(ds: seq<Deployment>, more: seq<Deployment>): seq<Deployment>
    decreases |more|
  {
    if more == [] then ds else AddAll(AddNew(ds, more[0]), more[1..])
  }

  function Splits(entries: seq<string>): (ds: seq<Deployment>)
    ensures |ds| == |entries|
  {
    seq(|entries|, i requires 0 <= i < |entries| => SplitDeployment(entries[i]))
  }

  /** The preferred deployment, and the cheap model, which is appended without a duplicate check. */
  function Tiered(r: Request, cfg: Config): seq<Deployment> {
    var preferred := [Deployment(r.provider, r.model)];
    if !r.tieredSimple then preferred
    else preferred + [if ':' in cfg.cheapModel then SplitDeployment(cfg.cheapModel) else Deployment(r.provider, cfg.cheapModel)]
  }

  function GatherFrom(tiered: seq<Deployment>, tenant: seq<Deployment>, extra: Option<Deployment>): seq<Deployment> {
    var withTenant := AddAll(tiered, tenant);
    if extra.None? then withTenant else AddNew(withTenant, extra.value)
  }

  /** The candidates before ranking. */
  function Gathered(r: Request, cfg: Config): seq<Deployment> {
    GatherFrom(Tiered(r, cfg), Splits(TenantFallbacks(cfg.fallbackModels)),
               match DefaultFallback(r.provider)
               case None => None
               case Some(m) => Some(Deployment(r.provider, m)))
  }

  /** A score; None is infinity. */
  function Score(facts: Facts, r: Request, d: Deployment): Option<real> {
    match r.strategy
    case Cost =>
      EstimateCost(facts.specs, d, if r.estimatedInput.Some? && r.estimatedInput.value != 0 then r.estimatedInput.value else 1000, 256)
    case Latency =>
      if d in facts.latency && facts.latency[d] > 0.0 then Some(facts.latency[d]) else None
    case _ => Some(0.0)
  }

  predicate Cheaper(a: Option<real>, b: Option<real>) {
    a.Some? && (b.None? || a.value < b.value)
  }

  /** What a call of a deployment is estimated to cost, or how it scores. */
  type Estimate = Deployment -> Option<real>

  function CheaperBy(score: Estimate): (Deployment, Deployment) -> bool {
    (a: Deployment, b: Deployment) => Cheaper(score(a), score(b))
  }

  function ByScore(facts: Facts, r: Request): (Deployment, Deployment) -> bool {
    CheaperBy(d => Score(facts, r, d))
  }

  lemma CheaperByOrders(score: Estimate)
    ensures StrictWeakOrder(CheaperBy(score))
  {
  }

  function Candidates(facts: Facts, r: Request, cfg: Config): seq<Deployment> {
    if r.pinned.Some? then [SplitDeployment(r.pinned.value)]
    else if r.strategy == Cost || r.strategy == Latency then
      Sort(Gathered(r, cfg), ByScore(facts, r))
    else Gathered(r, cfg)
  }

  lemma {:induction false} AddAllKeeps(ds: seq<Deployment>, more: seq<Deployment>)
    ensures forall d :: d in ds || d in more ==> d in AddAll(ds, more)
    decreases |more|
  {
    if more != [] {
      AddAllKeeps(AddNew(ds, more[0]), more[1..]);
      assert forall d :: d in more ==> d == more[0] || d in more[1..];
    }
  }

  /** Ranking keeps the gathered deployments, so an unpinned request can reach all of them. */
  lemma CandidatesAreGathered(facts: Facts, r: Request, cfg: Config, d: Deployment)
    requires r.pinned.None?
    ensures d in Candidates(facts, r, cfg) <==> d in Gathered(r, cfg)
  {
    SortContents(Gathered(r, cfg), ByScore(facts, r));
  }

  lemma GatherFromKeeps(tiered: seq<Deployment>, tenant: seq<Deployment>, extra: Option<Deployment>, d: Deployment)
    requires d in tiered || d in tenant
    ensures d in GatherFrom(tiered, tenant, extra)
  {
    AddAllKeeps(tiered, tenant);
  }

  lemma GatheredKeeps(r: Request, cfg: Config, d: Deployment)
    requires d in Tiered(r, cfg) || d in Splits(TenantFallbacks(cfg.fallbackModels))
    ensures d in Gathered(r, cfg)
  {
    GatherFromKeeps(Tiered(r, cfg), Splits(TenantFallbacks(cfg.fallbackModels)),
                    match DefaultFallback(r.provider)
                    case None => None
                    case Some(m) => Some(Deployment(r.provider, m)), d);
  }

  lemma TenantEntriesAreCandidates(facts: Facts, r: Request, cfg: Config, i: nat)
    requires r.pinned.None? && i < |TenantFallbacks(cfg.fallbackModels)|
    ensures SplitDeployment(TenantFallbacks(cfg.fallbackModels)[i]) in Candidates(facts, r, cfg)
  {
    var tenant := Splits(TenantFallbacks(cfg.fallbackModels));
    assert tenant[i] in tenant;
    GatheredKeeps(r, cfg, tenant[i]);
    CandidatesAreGathered(facts, r, cfg, tenant[i]);
  }

  lemma CandidatesNonEmpty(facts: Facts, r: Request, cfg: Config)
    ensures Candidates(facts, r, cfg) != []
  {
    if r.pinned.None? {
      var preferred := Deployment(r.provider, r.model);
      assert Tiered(r, cfg)[0] == preferred;
      GatheredKeeps(r, cfg, preferred);
      CandidatesAreGathered(facts, r, cfg, preferred);
    }
  }

  /** Under the cost and latency strategies no candidate scores strictly better than an earlier one. */
  lemma CandidatesRanked(facts: Facts, r: Request, cfg: Config)
    requires r.pinned.None? && (r.strategy == Cost || r.strategy == Latency)
    ensures Sorted(Candidates(facts, r, cfg), ByScore(facts, r))
  {
    CheaperByOrders(d => Score(facts, r, d));
    SortSorted(Gathered(r, cfg), ByScore(facts, r));
  }

  /** The first available candidate, or the first candidate when all are cooling down. */
  method Decide(cs: seq<Deployment>, available: Deployment -> bool) returns (d: Deployment)
    requires cs != []
    ensures d == Decision(cs, available)
  {
    var i := 0;
    while i < |cs|
      invariant 0 <= i <= |cs|
      invariant FirstAvailable(cs, available) == if FirstAvailable(cs[i..], available) == |cs| - i then |cs|
                                                 else i + FirstAvailable(cs[i..], available)
    {
      assert cs[i..][1..] == cs[i + 1..];
      if available(cs[i]) {
        return cs[i];
      }
      i := i + 1;
    }
    return cs[0];
  }

  function FirstAvailable(cs: seq<Deployment>, available: Deployment -> bool): (i: nat)
    ensures i <= |cs|
    ensures forall j :: 0 <= j < i ==> !available(cs[j])
    ensures i < |cs| ==> available(cs[i])
  {
    if cs == [] || available(cs[0]) then 0 else 1 + FirstAvailable(cs[1..], available)
  }

  function Decision(cs: seq<Deployment>, available: Deployment -> bool): (d: Deployment)
    requires cs != []
    ensures d in cs
    ensures (exists c :: c in cs && available(c)) ==> available(d)
  {
    var i := FirstAvailable(cs, available);
    if i < |cs| then cs[i] else cs[0]
  }

  lemma FirstIsBest(cs: seq<Deployment>, less: (Deployment, Deployment) -> bool, available: Deployment -> bool, c: Deployment)
    requires StrictWeakOrder(less) && Sorted(cs, less) && c in cs && available(c)
    ensures !less(c, Decision(cs, available))
  {
    var k :| 0 <= k < |cs| && cs[k] == c;
    var i := FirstAvailable(cs, available);
    assert i <= k;
    assert !less(cs[i], cs[i]);
  }

  /** The router's pick is best among the available: nothing available scores strictly better. */
  lemma DecisionIsBest(facts: Facts, r: Request, cfg: Config, available: Deployment -> bool, c: Deployment)
    requires r.pinned.None? && (r.strategy == Cost || r.strategy == Latency)
    ensures Candidates(facts, r, cfg) != []
    ensures c in Candidates(facts, r, cfg) && available(c) ==>
              !Cheaper(Score(facts, r, c), Score(facts, r, Decision(Candidates(facts, r, cfg), available)))
  {
    CandidatesNonEmpty(facts, r, cfg);
    if c in Candidates(facts, r, cfg) && available(c) {
      CandidatesRanked(facts, r, cfg);
      CheaperByOrders(d => Score(facts, r, d));
      FirstIsBest(Candidates(facts, r, cfg), ByScore(facts, r), available, c);
    }
  }

  function AtMost1024(specs: Specs, input: nat): Estimate {
    d => EstimateCost(specs, d, input, 1024)
  }

  function CostsOf(cost: Estimate, cs: seq<Deployment>): (costs: seq<Option<real>>)
    ensures |costs| == |cs|
  {
    seq(|cs|, i requires 0 <= i < |cs| => cost(cs[i]))
  }

  function Present(costs: seq<Option<real>>): seq<real> {
    if costs == [] then []
    else Present(costs[..|costs| - 1]) +
         match costs[|costs| - 1] { case None => [] case Some(c) => [c] }
  }

  /** `max(costs, default=0.0)`. */
  function Maximum(costs: seq<real>): real {
    if costs == [] then 0.0
    else if |costs| == 1 then costs[0]
    else
      var m := Maximum(costs[..|costs| - 1]);
      if m < costs[|costs| - 1] then costs[|costs| - 1] else m
  }

  /** `_estimate_max_spend`: the dearest candidate at the estimated input and 1024 output tokens. */
  function MaxSpend(specs: Specs, r: Request, cs: seq<Deployment>): real {
    if r.estimatedInput.None? || r.estimatedInput.value == 0 then 0.0
    else Maximum(Present(CostsOf(AtMost1024(specs, r.estimatedInput.value), cs)))
  }

  lemma {:induction false} MaximumBounds(costs: seq<real>, i: nat)
    requires i < |costs|
    ensures costs[i] <= Maximum(costs)
  {
    if |costs| > 1 && i < |costs| - 1 {
      MaximumBounds(costs[..|costs| - 1], i);
    }
  }

  lemma {:induction false} PresentContains(costs: seq<Option<real>>, i: nat)
    requires i < |costs| && costs[i].Some?
    ensures costs[i].value in Present(costs)
  {
    if i < |costs| - 1 {
      PresentContains(costs[..|costs| - 1], i);
    }
  }

  lemma {:induction false} PresentNonNegative(costs: seq<Option<real>>)
    requires forall i :: 0 <= i < |costs| && costs[i].Some? ==> costs[i].value >= 0.0
    ensures forall i :: 0 <= i < |Present(costs)| ==> Present(costs)[i] >= 0.0
  {
    if costs != [] {
      PresentNonNegative(costs[..|costs| - 1]);
    }
  }

  datatype Usage = Usage(input: nat, output: nat)

  /** `_result_usd`: what a completed call is charged; an unpriced model costs nothing. */
  function ResultUsd(specs: Specs, d: Deployment, u: Usage): real {
    match EstimateCost(specs, d, u.input, u.output)
    case None => 0.0
    case Some(c) => c
  }

  /** What is not dearer than one of the costs is within their maximum. */
  lemma WithinMaximum(costs: seq<Option<real>>, i: nat, actual: Option<real>)
    requires i < |costs| && NotDearer(actual, costs[i])
    requires forall k :: 0 <= k < |costs| && costs[k].Some? ==> costs[k].value >= 0.0
    ensures (if actual.None? then 0.0 else actual.value) <= Maximum(Present(costs))
  {
    var present := Present(costs);
    PresentNonNegative(costs);
    if actual.Some? {
      PresentContains(costs, i);
      var k :| 0 <= k < |present| && present[k] == costs[i].value;
      MaximumBounds(present, k);
    } else if present != [] {
      MaximumBounds(present, 0);
    }
  }

  lemma WithinCandidates(cost: Estimate, cs: seq<Deployment>, d: Deployment, actual: Option<real>)
    requires d in cs && NotDearer(actual, cost(d))
    requires forall c :: c in cs && cost(c).Some? ==> cost(c).value >= 0.0
    ensures (if actual.None? then 0.0 else actual.value) <= Maximum(Present(CostsOf(cost, cs)))
  {
    var costs := CostsOf(cost, cs);
    forall k | 0 <= k < |costs| && costs[k].Some? ensures costs[k].value >= 0.0 {
      assert cs[k] in cs;
    }
    var i :| 0 <= i < |cs| && cs[i] == d;
    WithinMaximum(costs, i, actual);
  }

  /**
   A call answered by a candidate, with input within the estimate and at most 1024
   output tokens, is never charged more than was reserved for it.
   */
  lemma ChargeWithinEstimate(specs: Specs, r: Request, cs: seq<Deployment>, d: Deployment, u: Usage)
    requires PricesNonNegative(specs) && d in cs
    requires r.estimatedInput.Some? && r.estimatedInput.value != 0
    requires u.input <= r.estimatedInput.value && u.output <= 1024
    ensures ResultUsd(specs, d, u) <= MaxSpend(specs, r, cs)
  {
    var cost := AtMost1024(specs, r.estimatedInput.value);
    forall c | c in cs && cost(c).Some? ensures cost(c).value >= 0.0 {
      CostMonotonic(specs, c, 0, 0, r.estimatedInput.value, 1024);
    }
    CostMonotonic(specs, d, u.input, u.output, r.estimatedInput.value, 1024);
    WithinCandidates(cost, cs, d, EstimateCost(specs, d, u.input, u.output));
  }
}
