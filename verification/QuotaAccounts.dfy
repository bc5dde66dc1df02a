/** What the quota protocol keeps over whole runs, and exactly when its books balance. */
module QuotaAccounts {
  import opened Quota
  import opened QuotaMachine

  // ----- Bounds that hold in every run -----------------------------------------------------

  /**
   What a key holds: `spent` is the sum of exactly the settled costs, and `reserved` is at
   most the sum of the standing estimates and short of it by at most the estimates that
   were undone twice.
   */
  ghost predicate Accounted(w: World, key: Key) {
    var c := Read(w.store, key);
    && c.spent == Spent(w.requests, key)
    && Reserved(w.requests, key) - Doubled(w.requests, key) <= c.reserved <= Reserved(w.requests, key)
  }

  ghost predicate AllAccounted(w: World) {
    AllValid(w.requests) && forall key :: Accounted(w, key)
  }

  lemma StepAccounted(w: World, a: Action, key: Key)
    requires AllValid(w.requests) && Accounted(w, key) && Enabled(w, a)
    ensures Accounted(Next(w, a), key)
  {
    StepTotals(w, a, key);
    StoreStep(w, a, key);
    StepValid(w, a);
    TotalSigns(Next(w, a).requests, key);
  }

  lemma {:induction false} RunAccounted(w: World, actions: seq<Action>)
    requires AllAccounted(w) && Runs(w, actions)
    ensures AllAccounted(Run(w, actions))
    decreases |actions|
  {
    if actions != [] {
      StepValid(w, actions[0]);
      forall key ensures Accounted(Next(w, actions[0]), key) { StepAccounted(w, actions[0], key); }
      RunAccounted(Next(w, actions[0]), actions[1..]);
    }
  }

  lemma ReachableAccounted(actions: seq<Action>)
    requires Runs(INITIAL, actions)
    ensures AllAccounted(Run(INITIAL, actions))
  {
    RunAccounted(INITIAL, actions);
  }

  /**
   Conservation in every run: on a key on which nothing was undone twice, `reserved` is the
   sum of the estimates of exactly the standing charges, and `spent` the sum of exactly the
   settled costs.
   */
  lemma ReachableConserved(actions: seq<Action>, key: Key)
    requires Runs(INITIAL, actions) && Doubled(Run(INITIAL, actions).requests, key) == 0.0
    ensures
      var w := Run(INITIAL, actions);
      Read(w.store, key) == Cell(Reserved(w.requests, key), Spent(w.requests, key))
  {
    ReachableAccounted(actions);
    assert Accounted(Run(INITIAL, actions), key);
  }

  lemma Traceless(rs: seq<Request>, i: nat, key: Key)
    requires i < |rs| && rs[i].phase.Rejected?
    ensures TotalsChange(rs, rs[..i] + rs[i + 1..], key, NOTHING)
  {
    var r := rs[i];
    TallyNone(r.est, r.charges, key, (j: nat) => r.Stands(j));
    TallyNone(r.Actual(), r.charges, key, (j: nat) => r.IsPaid(j));
    TallyNone(Max(0.0, r.Actual() - r.est), r.charges, key, (j: nat) => r.IsPaid(j));
    TallyNone(r.est, r.charges, key, (j: nat) => r.IsDoubled(j));
    TotalWithout(rs, i, Standing(key));
    TotalWithout(rs, i, Paid(key));
    TotalWithout(rs, i, Over(key));
    TotalWithout(rs, i, Twice(key));
  }

  /** A rejected request leaves no trace: every total, and so every account, is that of the others alone. */
  lemma RejectedHasNoNetEffect(actions: seq<Action>, i: nat, key: Key)
    requires Runs(INITIAL, actions)
    requires i < |Run(INITIAL, actions).requests| && Run(INITIAL, actions).requests[i].phase.Rejected?
    ensures
      var w := Run(INITIAL, actions);
      var others := w.requests[..i] + w.requests[i + 1..];
      TotalsChange(w.requests, others, key, NOTHING) && Accounted(World(w.store, others), key)
  {
    ReachableAccounted(actions);
    Traceless(Run(INITIAL, actions).requests, i, key);
    assert Accounted(Run(INITIAL, actions), key);
  }

  // ----- Exactly when the books balance -------------------------------------------------------

  ghost predicate Conserved(w: World) {
    && AllValid(w.requests)
    && forall key :: Read(w.store, key) == Cell(Reserved(w.requests, key), Spent(w.requests, key))
  }

  /** The step undoes a charge that was undone before, on a key on which other charges stand. */
  ghost predicate Steals(w: World, a: Action)
    requires Enabled(w, a)
  {
    a.Uncharge? && w.requests[a.i].Doubles() && Reserved(w.requests, w.requests[a.i].NextUndo().key) > 0.0
  }

  lemma StandingCovers(w: World, i: nat)
    requires AllValid(w.requests) && Enabled(w, Uncharge(i)) && !w.requests[i].Doubles()
    ensures Reserved(w.requests, w.requests[i].NextUndo().key) >= w.requests[i].est
  {
    var r := w.requests[i];
    var key := r.NextUndo().key;
    UndoStanding(r, key);
    ShareSigns(AfterUncharge(r), key);
    forall k | 0 <= k < |w.requests| ensures Standing(key)(w.requests[k]) >= 0.0 { ShareSigns(w.requests[k], key); }
    TotalCovers(w.requests, i, Standing(key));
  }

  /** In balanced books the `max(0, ...)` of a reconcile script has an effect exactly on a second undo that nothing else covers. */
  lemma ClampBitesIff(w: World, i: nat)
    requires Conserved(w) && Enabled(w, Uncharge(i))
    ensures
      var r := w.requests[i];
      var key := r.NextUndo().key;
      Read(w.store, key).reserved < r.est <==> r.Doubles() && Reserved(w.requests, key) < r.est
  {
    if !w.requests[i].Doubles() { StandingCovers(w, i); }
  }

  /** A step keeps the books balanced exactly when it does not steal. */
  lemma StepConservesIff(w: World, a: Action)
    requires Conserved(w) && Enabled(w, a)
    ensures Conserved(Next(w, a)) <==> !Steals(w, a)
  {
    StepValid(w, a);
    if Steals(w, a) {
      var key := w.requests[a.i].NextUndo().key;
      StepTotals(w, a, key);
      StoreStep(w, a, key);
      assert w.requests[a.i].Valid();
      assert Read(Next(w, a).store, key).reserved < Reserved(Next(w, a).requests, key);
    } else {
      forall key ensures Read(Next(w, a).store, key) == Cell(Reserved(Next(w, a).requests, key), Spent(Next(w, a).requests, key)) {
        HonestStep(w, a, key);
      }
    }
  }

  lemma HonestStep(w: World, a: Action, key: Key)
    requires Conserved(w) && Enabled(w, a) && !Steals(w, a)
    ensures Read(Next(w, a).store, key) == Cell(Reserved(Next(w, a).requests, key), Spent(Next(w, a).requests, key))
  {
    StepTotals(w, a, key);
    StoreStep(w, a, key);
    TotalSigns(w.requests, key);
    if a.Uncharge? {
      assert w.requests[a.i].Valid();
      if !w.requests[a.i].Doubles() { StandingCovers(w, a.i); }
    }
  }

  ghost predicate AlwaysConserved(w: World, actions: seq<Action>)
    requires Runs(w, actions)
    decreases |actions|
  {
    Conserved(w) && (actions != [] ==> AlwaysConserved(Next(w, actions[0]), actions[1..]))
  }

  ghost predicate NeverSteals(w: World, actions: seq<Action>)
    requires Runs(w, actions)
    decreases |actions|
  {
    actions != [] ==> !Steals(w, actions[0]) && NeverSteals(Next(w, actions[0]), actions[1..])
  }

  /** A run keeps the books balanced throughout exactly when no step of it steals. */
  lemma {:induction false} RunConservesIff(w: World, actions: seq<Action>)
    requires Conserved(w) && Runs(w, actions)
    ensures AlwaysConserved(w, actions) <==> NeverSteals(w, actions)
    decreases |actions|
  {
    if actions != [] {
      StepConservesIff(w, actions[0]);
      if Conserved(Next(w, actions[0])) { RunConservesIff(Next(w, actions[0]), actions[1..]); }
    }
  }

  // ----- The budget cap -------------------------------------------------------------------------

  /** Every request is charged against the same limit for the same key. */
  ghost predicate FixedLimits(limit: Key -> real, charges: seq<Charge>) {
    forall i :: 0 <= i < |charges| ==> charges[i].limit == limit(charges[i].key)
  }

  ghost predicate ActionsUnder(limit: Key -> real, actions: seq<Action>) {
    forall i :: 0 <= i < |actions| && actions[i].Arrive? ==> FixedLimits(limit, actions[i].charges)
  }

  ghost predicate LimitsFixed(w: World, limit: Key -> real) {
    forall i :: 0 <= i < |w.requests| ==> FixedLimits(limit, w.requests[i].charges)
  }

  /** Spend and standing estimates are within the limit, but for overruns and double undos. */
  ghost predicate Capped(w: World, limit: Key -> real, key: Key) {
    && Accounted(w, key)
    && (limit(key) > 0.0 ==>
          Read(w.store, key).spent + Reserved(w.requests, key) <= limit(key) + Overrun(w.requests, key) + Doubled(w.requests, key))
  }

  lemma LimitsStay(w: World, a: Action, limit: Key -> real)
    requires LimitsFixed(w, limit) && Enabled(w, a) && (a.Arrive? ==> FixedLimits(limit, a.charges))
    ensures LimitsFixed(Next(w, a), limit)
  {
    var x := Next(w, a);
    forall j | 0 <= j < |x.requests| ensures FixedLimits(limit, x.requests[j].charges) {
      if j < |w.requests| { assert x.requests[j].charges == w.requests[j].charges; }
    }
  }

  lemma StepCapped(w: World, a: Action, limit: Key -> real, key: Key)
    requires AllValid(w.requests) && LimitsFixed(w, limit) && Capped(w, limit, key) && Enabled(w, a)
    ensures Capped(Next(w, a), limit, key)
  {
    StepAccounted(w, a, key);
    StepTotals(w, a, key);
    StoreStep(w, a, key);
    TotalSigns(w.requests, key);
    if a.TryCharge? {
      var r := w.requests[a.i];
      assert r.Valid() && FixedLimits(limit, r.charges);
    }
  }

  lemma {:induction false} RunCapped(w: World, actions: seq<Action>, limit: Key -> real, key: Key)
    requires AllValid(w.requests) && LimitsFixed(w, limit) && Capped(w, limit, key)
    requires Runs(w, actions) && ActionsUnder(limit, actions)
    ensures Capped(Run(w, actions), limit, key)
    decreases |actions|
  {
    if actions != [] {
      StepValid(w, actions[0]);
      LimitsStay(w, actions[0], limit);
      StepCapped(w, actions[0], limit, key);
      RunCapped(Next(w, actions[0]), actions[1..], limit, key);
    }
  }

  /**
   In every run, no key ever exceeds its limit by more than the overrun of settled requests
   and the estimates that were undone twice.
   */
  lemma BudgetCap(actions: seq<Action>, limit: Key -> real, key: Key)
    requires Runs(INITIAL, actions) && ActionsUnder(limit, actions) && limit(key) > 0.0
    ensures
      var w := Run(INITIAL, actions);
      Read(w.store, key).spent + Read(w.store, key).reserved <= limit(key) + Overrun(w.requests, key) + Doubled(w.requests, key)
  {
    RunCapped(INITIAL, actions, limit, key);
  }

  lemma NoOverrun(rs: seq<Request>, key: Key)
    requires forall r :: r in rs ==> r.Actual() <= r.est
    ensures Overrun(rs, key) == 0.0
  {
    forall r | r in rs ensures Over(key)(r) == 0.0 {
      TallyNone(Max(0.0, r.Actual() - r.est), r.charges, key, (j: nat) => r.IsPaid(j));
    }
    TotalZero(rs, Over(key));
  }

  /** With no settlement above its estimate and nothing undone twice on the key, its limit is a hard cap at every moment. */
  lemma HardCap(actions: seq<Action>, limit: Key -> real, key: Key)
    requires Runs(INITIAL, actions) && ActionsUnder(limit, actions) && limit(key) > 0.0
    requires forall r :: r in Run(INITIAL, actions).requests ==> r.Actual() <= r.est
    requires Doubled(Run(INITIAL, actions).requests, key) == 0.0
    ensures
      var c := Read(Run(INITIAL, actions).store, key);
      c.spent + c.reserved <= limit(key)
  {
    BudgetCap(actions, limit, key);
    NoOverrun(Run(INITIAL, actions).requests, key);
  }

  /** A settlement that was not cut, or not released far enough, undoes nothing twice. */
  lemma NothingTwice(rs: seq<Request>, key: Key)
    requires forall r :: r in rs && r.phase.Redoing? ==> r.phase.cut == 0 || r.phase.redo == 0
    ensures Doubled(rs, key) == 0.0
  {
    forall r | r in rs ensures Twice(key)(r) == 0.0 {
      TallyNone(r.est, r.charges, key, (j: nat) => r.IsDoubled(j));
    }
    TotalZero(rs, Twice(key));
  }

  // ----- The limit can be passed ------------------------------------------------------------------

  ghost predicate Reachable(w: World, limit: Key -> real) {
    exists actions :: Runs(INITIAL, actions) && ActionsUnder(limit, actions) && Run(INITIAL, actions) == w
  }

  lemma RunCons(w: World, a: Action, actions: seq<Action>)
    requires Enabled(w, a) && Runs(Next(w, a), actions)
    ensures Runs(w, [a] + actions) && Run(w, [a] + actions) == Run(Next(w, a), actions)
  {
    assert ([a] + actions)[1..] == actions;
  }

  lemma {:induction false} RunSnoc(w: World, actions: seq<Action>, a: Action)
    requires Runs(w, actions) && Enabled(Run(w, actions), a)
    ensures Runs(w, actions + [a]) && Run(w, actions + [a]) == Next(Run(w, actions), a)
    decreases |actions|
  {
    if actions == [] {
      RunCons(w, a, []);
      assert [] + [a] == [a] + [];
    } else {
      RunSnoc(Next(w, actions[0]), actions[1..], a);
      RunCons(w, actions[0], actions[1..] + [a]);
      assert actions + [a] == [actions[0]] + (actions[1..] + [a]);
    }
  }

  lemma ReachableStep(w: World, limit: Key -> real, a: Action) returns (x: World)
    requires Reachable(w, limit) && Enabled(w, a) && (a.Arrive? ==> FixedLimits(limit, a.charges))
    ensures x == Next(w, a) && Reachable(x, limit)
  {
    var actions :| Runs(INITIAL, actions) && ActionsUnder(limit, actions) && Run(INITIAL, actions) == w;
    RunSnoc(INITIAL, actions, a);
    assert ActionsUnder(limit, actions + [a]);
    x := Next(w, a);
  }

  function Ten(): Key -> real { _ => 10.0 }

  /** One request with one charge on `k`. */
  function One(est: real, phase: Phase): Request {
    Request(est, [Charge("k", 10.0)], phase)
  }

  function At(reserved: real, spent: real, requests: seq<Request>): World {
    World(map["k" := Cell(reserved, spent)], requests)
  }

  lemma TwoHold() returns (w: World)
    ensures w == At(10.0, 0.0, [One(4.0, Holding), One(6.0, Holding)]) && Reachable(w, Ten())
  {
    assert Runs(INITIAL, []) && ActionsUnder(Ten(), []) && Run(INITIAL, []) == INITIAL;
    w := ReachableStep(INITIAL, Ten(), Arrive(4.0, [Charge("k", 10.0)]));
    w := ReachableStep(w, Ten(), TryCharge(0));
    assert w == At(4.0, 0.0, [One(4.0, Holding)]);
    w := ReachableStep(w, Ten(), Arrive(6.0, [Charge("k", 10.0)]));
    w := ReachableStep(w, Ten(), TryCharge(1));
  }

  /** The first settlement is cut after its script, and released. */
  lemma CutAndReleased() returns (w: World)
    ensures w == At(2.0, 4.0, [One(4.0, Redoing(4.0, 1, 1)), One(6.0, Holding)]) && Reachable(w, Ten())
  {
    w := TwoHold();
    w := ReachableStep(w, Ten(), BeginSettle(0, 4.0));
    w := ReachableStep(w, Ten(), Uncharge(0));
    assert w == At(6.0, 4.0, [One(4.0, Settling(4.0, 1)), One(6.0, Holding)]);
    w := ReachableStep(w, Ten(), Cut(0));
    w := ReachableStep(w, Ten(), Uncharge(0));
  }

  lemma ThirdFits() returns (w: World)
    ensures w == At(6.0, 4.0, [One(4.0, Redoing(4.0, 1, 1)), One(6.0, Holding), One(4.0, Holding)]) && Reachable(w, Ten())
  {
    w := CutAndReleased();
    w := ReachableStep(w, Ten(), Arrive(4.0, [Charge("k", 10.0)]));
    w := ReachableStep(w, Ten(), TryCharge(2));
  }

  /**
   A cancellation inside one settlement lets a limit of 10 be passed by 4, although every
   request costs exactly what it was estimated at.
   */
  lemma LimitPassed() returns (w: World)
    ensures Reachable(w, Ten()) && Read(w.store, "k") == Cell(0.0, 14.0)
    ensures forall r :: r in w.requests ==> r.Actual() == r.est
  {
    w := ThirdFits();
    w := ReachableStep(w, Ten(), BeginSettle(1, 6.0));
    w := ReachableStep(w, Ten(), Uncharge(1));
    assert w == At(0.0, 10.0, [One(4.0, Redoing(4.0, 1, 1)), One(6.0, Settling(6.0, 1)), One(4.0, Holding)]);
    w := ReachableStep(w, Ten(), BeginSettle(2, 4.0));
    w := ReachableStep(w, Ten(), Uncharge(2));
    assert w == At(0.0, 14.0, [One(4.0, Redoing(4.0, 1, 1)), One(6.0, Settling(6.0, 1)), One(4.0, Settling(4.0, 1))]);
  }
}
