/** What the router gathers and how it chooses, told without its own list building. */
module CandidateList {
  import opened Text
  import opened Catalog
  import opened Routing
  import Fallback
  import TargetOrder

  lemma {:induction false} FindFirst(s: string, c: char, k: nat)
    requires k < |s| && s[k] == c && forall j :: 0 <= j < k ==> s[j] != c
    ensures Find(s, c) == k
  {
    if k > 0 { FindFirst(s[1..], c, k - 1); }
  }

  /** An entry is split at its first colon; the model keeps any further ones. */
  lemma SplitPrinted(p: string, m: string)
    requires ColonFree(p)
    ensures SplitDeployment(p + ":" + m) == Deployment(Lower(Trim(p)), Trim(m))
  {
    var s := p + ":" + m;
    ColonAt(p, m);
    FindFirst(s, ':', |p|);
    assert s[|p|] in s;
    assert s[..|p|] == p && s[|p| + 1..] == m;
  }

  ghost predicate CameFrom(clean: string -> string, raw: seq<string>, e: string) {
    exists i :: 0 <= i < |raw| && clean(raw[i]) == e
  }

  lemma CameFromTail(clean: string -> string, raw: seq<string>, e: string)
    requires raw != [] && CameFrom(clean, raw[1..], e)
    ensures CameFrom(clean, raw, e)
  {
    var i :| 0 <= i < |raw[1..]| && clean(raw[1..][i]) == e;
    assert clean(raw[i + 1]) == e;
  }

  lemma CameFromParts(clean: string -> string, raw: seq<string>, e: string)
    requires raw != [] && CameFrom(clean, raw, e)
    ensures clean(raw[0]) == e || CameFrom(clean, raw[1..], e)
  {
    var i :| 0 <= i < |raw| && clean(raw[i]) == e;
    if i > 0 { assert clean(raw[1..][i - 1]) == e; }
  }

  const STRIP: string -> string := s => Trim(s)

  lemma InCons(head: string, rest: seq<string>, e: string)
    ensures e in (if head == "" then [] else [head]) + rest <==> (e == head && head != "") || e in rest
  {
  }

  /** The entries in use are the stripped texts of the configured ones that are not blank. */
  lemma {:induction false} TenantEntryIff(raw: seq<string>, e: string)
    ensures e in TenantFallbacks(raw) <==> e != "" && CameFrom(STRIP, raw, e)
  {
    if raw != [] {
      TenantEntryIff(raw[1..], e);
      if CameFrom(STRIP, raw[1..], e) { CameFromTail(STRIP, raw, e); }
      if CameFrom(STRIP, raw, e) { CameFromParts(STRIP, raw, e); }
      InCons(STRIP(raw[0]), TenantFallbacks(raw[1..]), e);
    }
  }

  /** The preferred deployment is gathered first; the default model of its provider comes last unless it is there already. */
  lemma GatheredEnds(r: Request, cfg: Config)
    ensures Gathered(r, cfg) != [] && Gathered(r, cfg)[0] == Deployment(r.provider, r.model)
    ensures
      DefaultFallback(r.provider).Some? ==>
        var d := Deployment(r.provider, DefaultFallback(r.provider).value);
        var ds := Gathered(r, cfg);
        d in ds && (ds[|ds| - 1] == d || d in Tiered(r, cfg) || d in Splits(TenantFallbacks(cfg.fallbackModels)))
  {
    var tiered, tenant := Tiered(r, cfg), Splits(TenantFallbacks(cfg.fallbackModels));
    TargetOrder.AddAllExtends(tiered, tenant);
    assert tiered[0] == Deployment(r.provider, r.model);
    forall d ensures d in AddAll(tiered, tenant) <==> d in tiered || d in tenant { Fallback.AddAllMembers(tiered, tenant, d); }
  }

  /** Under the cost strategy no available candidate is cheaper than the one chosen. */
  lemma CheapestIsPicked(facts: Facts, r: Request, cfg: Config, available: Deployment -> bool, c: Deployment, tokens: nat)
    requires r.pinned.None? && r.strategy == Cost && r.estimatedInput == Some(tokens) && tokens > 0
    requires c in Candidates(facts, r, cfg) && available(c) && EstimateCost(facts.specs, c, tokens, 256).Some?
    ensures
      Candidates(facts, r, cfg) != [] &&
      var best := EstimateCost(facts.specs, Decision(Candidates(facts, r, cfg), available), tokens, 256);
      best.Some? && best.value <= EstimateCost(facts.specs, c, tokens, 256).value
  {
    DecisionIsBest(facts, r, cfg, available, c);
  }

  /** Under the latency strategy no available candidate with a known latency is faster than the one chosen. */
  lemma FastestIsPicked(facts: Facts, r: Request, cfg: Config, available: Deployment -> bool, c: Deployment)
    requires r.pinned.None? && r.strategy == Latency
    requires c in Candidates(facts, r, cfg) && available(c) && c in facts.latency && facts.latency[c] > 0.0
    ensures
      Candidates(facts, r, cfg) != [] &&
      var d := Decision(Candidates(facts, r, cfg), available);
      d in facts.latency && 0.0 < facts.latency[d] <= facts.latency[c]
  {
    DecisionIsBest(facts, r, cfg, available, c);
  }
}
