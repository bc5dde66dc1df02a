/** The budget from end to end: estimates by the router, reservations by the quota. */
module Budget {
  import opened Catalog
  import opened Routing
  import opened Quota
  import QuotaMachine
  import QuotaAccounts

  /** The call was answered by a candidate, within the estimated input and 1024 output tokens. */
  ghost predicate InBounds(q: Routing.Request, cs: seq<Deployment>, d: Deployment, u: Usage) {
    && q.estimatedInput.Some? && q.estimatedInput.value != 0
    && d in cs
    && u.input <= q.estimatedInput.value && u.output <= 1024
  }

  /** A reservation made by `_estimate_max_spend` and not yet settled, released, or settled in bounds. */
  ghost predicate SettledInBounds(specs: Specs, r: QuotaMachine.Request) {
    r.Actual() == 0.0 ||
    exists q, cs, d, u :: InBounds(q, cs, d, u) && r.est == MaxSpend(specs, q, cs) && r.Actual() == ResultUsd(specs, d, u)
  }

  /**
   However the scripts of many requests interleave, a budget key never exceeds its limit
   by more than the estimates that were undone twice on it, as long as every settled call
   stayed within its own estimate's bounds.
   */
  lemma EndToEndCap(specs: Specs, actions: seq<QuotaMachine.Action>, limit: Key -> real, key: Key)
    requires PricesNonNegative(specs)
    requires QuotaMachine.Runs(QuotaMachine.INITIAL, actions) && QuotaAccounts.ActionsUnder(limit, actions) && limit(key) > 0.0
    requires forall r :: r in QuotaMachine.Run(QuotaMachine.INITIAL, actions).requests ==> SettledInBounds(specs, r)
    ensures
      var w := QuotaMachine.Run(QuotaMachine.INITIAL, actions);
      var c := Read(w.store, key);
      c.spent + c.reserved <= limit(key) + QuotaMachine.Doubled(w.requests, key)
  {
    var w := QuotaMachine.Run(QuotaMachine.INITIAL, actions);
    QuotaAccounts.ReachableAccounted(actions);
    forall r | r in w.requests ensures r.Actual() <= r.est {
      var i :| 0 <= i < |w.requests| && w.requests[i] == r;
      assert w.requests[i].Valid();
      if r.Actual() != 0.0 {
        var q, cs, d, u :| InBounds(q, cs, d, u) && r.est == MaxSpend(specs, q, cs) && r.Actual() == ResultUsd(specs, d, u);
        ChargeWithinEstimate(specs, q, cs, d, u);
      }
    }
    QuotaAccounts.BudgetCap(actions, limit, key);
    QuotaAccounts.NoOverrun(w.requests, key);
  }
}
