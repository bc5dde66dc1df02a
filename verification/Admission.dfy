/**
 The admission gate: in every worker a semaphore per tenant and one for the platform,
 and one Redis counter per tenant shared by all connected workers. Steps of any number
 of `admit` and `release` calls interleave; a call that stops stepping is a worker that
 hangs. Calls may be cancelled wherever they wait. Redis does not fail and counters do not
 expire.
 */
module Admission {
  type Worker = nat
  type Tenant = string

  datatype Phase =
    | Asking            // waits for the tenant semaphore
    | HasTenant         // waits for the platform semaphore
    | HasBoth           // about to increment the counter
    | Over              // its increment went past the cap and awaits its decrement
    | Refused           // decremented; the semaphores are still held
    | Granted           // the caller has its handle
    | Releasing         // `release` was called
    | Dropping          // decremented; the semaphores are still held
    | Gone
    | LeakTenant        // cancelled while waiting for the platform: the tenant permit stays taken
    | LeakLocal         // cancelled at a Redis command: both permits stay taken
    | LeakPending       // so does an increment that is not a slot
    | LeakSlot          // so does the slot

  datatype Call = Call(worker: Worker, tenant: Tenant, phase: Phase) {
    predicate HoldsTenant() { !phase.Asking? && !phase.Gone? }
    predicate HoldsPlatform() { HoldsTenant() && !phase.HasTenant? && !phase.LeakTenant? }
    predicate HoldsSlot() { phase.Granted? || phase.Releasing? || phase.LeakSlot? }
    predicate HoldsIncrement() { phase.Over? || phase.LeakPending? }
    predicate Leaked() { phase.LeakTenant? || phase.LeakLocal? || phase.LeakPending? || phase.LeakSlot? }
  }

  /** `connected` holds the workers whose gate found Redis when it started. */
  datatype Config = Config(perTenant: nat, platform: nat, connected: set<Worker>)

  datatype Place = Place(worker: Worker, tenant: Tenant)

  datatype Gates = Gates(counters: map<Tenant, int>, tenantFree: map<Place, int>, platformFree: map<Worker, int>, calls: seq<Call>) {
    function Counter(tenant: Tenant): int {
      if tenant in counters then counters[tenant] else 0
    }

    function TenantFree(c: Config, p: Place): int {
      if p in tenantFree then tenantFree[p] else c.perTenant
    }

    function PlatformFree(c: Config, worker: Worker): int {
      if worker in platformFree then platformFree[worker] else c.platform
    }

    function PlaceOf(t: nat): Place
      requires t < |calls|
    {
      Place(calls[t].worker, calls[t].tenant)
    }

    /** What one step of call `t` does to the accounts and to the call. */
    function Apply(c: Config, t: nat, m: Move): Gates
      requires t < |calls|
    {
      var x := calls[t];
      Gates(if m.counter != 0 && x.worker in c.connected then counters[x.tenant := Counter(x.tenant) + m.counter] else counters,
            if m.tenant != 0 then tenantFree[PlaceOf(t) := TenantFree(c, PlaceOf(t)) + m.tenant] else tenantFree,
            if m.platform != 0 then platformFree[x.worker := PlatformFree(c, x.worker) + m.platform] else platformFree,
            calls[t := x.(phase := m.phase)])
    }
  }

  /** The phase after a step, and what it adds to the Redis counter and to the free permits. */
  datatype Move = Move(phase: Phase, counter: int, tenant: int, platform: int)

  const OPEN := Gates(map[], map[], map[], [])

  datatype Step =
    | Arrive(worker: Worker, tenant: Tenant)
    | TakeTenant(t: nat)
    | TenantTimeout(t: nat)
    | TakePlatform(t: nat)
    | PlatformTimeout(t: nat)
    | Increment(t: nat)
    | Undo(t: nat)               // the decrement after an increment past the cap
    | Refuse(t: nat)
    | Release(t: nat)            // may be called again and again
    | Decrement(t: nat)
    | Drop(t: nat)
    | CancelAdmit(t: nat, applied: bool)     // Redis may have run the pending command
    | CancelRelease(t: nat, applied: bool)

  predicate Enabled(c: Config, g: Gates, e: Step) {
    match e
    case Arrive(_, _) => true
    case TakeTenant(t) => t < |g.calls| && g.calls[t].phase.Asking? && g.TenantFree(c, g.PlaceOf(t)) > 0
    case TenantTimeout(t) => t < |g.calls| && g.calls[t].phase.Asking?
    case TakePlatform(t) => t < |g.calls| && g.calls[t].phase.HasTenant? && g.PlatformFree(c, g.calls[t].worker) > 0
    case PlatformTimeout(t) => t < |g.calls| && g.calls[t].phase.HasTenant?
    case Increment(t) => t < |g.calls| && g.calls[t].phase.HasBoth?
    case Undo(t) => t < |g.calls| && g.calls[t].phase.Over?
    case Refuse(t) => t < |g.calls| && g.calls[t].phase.Refused?
    case Release(t) =>
      t < |g.calls| &&
      (g.calls[t].HoldsSlot() || g.calls[t].phase.Dropping? || g.calls[t].phase.Gone? || g.calls[t].Leaked())
    case Decrement(t) => t < |g.calls| && g.calls[t].phase.Releasing?
    case Drop(t) => t < |g.calls| && g.calls[t].phase.Dropping?
    case CancelAdmit(t, applied) =>
      t < |g.calls| &&
      if applied then g.calls[t].worker in c.connected && (g.calls[t].phase.HasBoth? || g.calls[t].phase.Over?)
      else
        || g.calls[t].phase.Asking? || g.calls[t].phase.HasTenant? || g.calls[t].phase.Over?
        || (g.calls[t].phase.HasBoth? && g.calls[t].worker in c.connected)
    case CancelRelease(t, _) => t < |g.calls| && g.calls[t].phase.Releasing? && g.calls[t].worker in c.connected
  }

  function MoveOf(c: Config, g: Gates, e: Step): Move
    requires Enabled(c, g, e) && !e.Arrive?
  {
    match e
    case TakeTenant(_) => Move(HasTenant, 0, -1, 0)
    case TenantTimeout(_) => Move(Gone, 0, 0, 0)
    case TakePlatform(_) => Move(HasBoth, 0, 0, -1)
    case PlatformTimeout(_) => Move(Gone, 0, 1, 0)
    case Increment(t) =>
      var over := g.calls[t].worker in c.connected && g.Counter(g.calls[t].tenant) + 1 > c.perTenant;
      Move(if over then Over else Granted, 1, 0, 0)
    case Undo(_) => Move(Refused, -1, 0, 0)
    case Refuse(_) => Move(Gone, 0, 1, 1)
    case Release(t) => Move(if g.calls[t].phase.Granted? then Releasing else g.calls[t].phase, 0, 0, 0)
    case Decrement(_) => Move(Dropping, -1, 0, 0)
    case Drop(_) => Move(Gone, 0, 1, 1)
    case CancelAdmit(t, applied) =>
      (match g.calls[t].phase
       case Asking => Move(Gone, 0, 0, 0)
       case HasTenant => Move(LeakTenant, 0, 0, 0)
       case HasBoth => if applied then Move(LeakPending, 1, 0, 0) else Move(LeakLocal, 0, 0, 0)
       case _ => if applied then Move(LeakLocal, -1, 0, 0) else Move(LeakPending, 0, 0, 0))
    case CancelRelease(_, applied) => if applied then Move(LeakLocal, -1, 0, 0) else Move(LeakSlot, 0, 0, 0)
  }

  function Next(c: Config, g: Gates, e: Step): Gates
    requires Enabled(c, g, e)
  {
    if e.Arrive? then g.(calls := g.calls + [Call(e.worker, e.tenant, Asking)]) else g.Apply(c, e.t, MoveOf(c, g, e))
  }

  ghost predicate Runs(c: Config, g: Gates, es: seq<Step>)
    decreases |es|
  {
    es == [] || (Enabled(c, g, es[0]) && Runs(c, Next(c, g, es[0]), es[1..]))
  }

  function Run(c: Config, g: Gates, es: seq<Step>): Gates
    requires Runs(c, g, es)
    decreases |es|
  {
    if es == [] then g else Run(c, Next(c, g, es[0]), es[1..])
  }

  // ----- Counting calls --------------------------------------------------------------------

  function Count(calls: seq<Call>, f: Call -> bool): nat {
    if calls == [] then 0
    else Count(calls[..|calls| - 1], f) + (if f(calls[|calls| - 1]) then 1 else 0)
  }

  lemma {:induction false} CountUpdate(calls: seq<Call>, t: nat, x: Call, f: Call -> bool)
    requires t < |calls|
    ensures Count(calls[t := x], f) - (if f(x) then 1 else 0) == Count(calls, f) - (if f(calls[t]) then 1 else 0)
  {
    var n := |calls| - 1;
    if t == n {
      assert calls[t := x][..n] == calls[..n];
    } else {
      CountUpdate(calls[..n], t, x, f);
      assert calls[t := x][..n] == calls[..n][t := x];
    }
  }

  lemma CountAppend(calls: seq<Call>, x: Call, f: Call -> bool)
    ensures Count(calls + [x], f) == Count(calls, f) + (if f(x) then 1 else 0)
  {
    assert (calls + [x])[..|calls|] == calls;
  }

  lemma {:induction false} CountMonotone(calls: seq<Call>, f: Call -> bool, h: Call -> bool)
    requires forall x :: f(x) ==> h(x)
    ensures Count(calls, f) <= Count(calls, h)
  {
    if calls != [] { CountMonotone(calls[..|calls| - 1], f, h); }
  }

  lemma {:induction false} CountNone(calls: seq<Call>, f: Call -> bool)
    requires forall i :: 0 <= i < |calls| ==> !f(calls[i])
    ensures Count(calls, f) == 0
  {
    if calls != [] { CountNone(calls[..|calls| - 1], f); }
  }

  /** Calls of connected workers that hold one of the tenant's shared slots. */
  function Slots(c: Config, tenant: Tenant): Call -> bool {
    (x: Call) => x.tenant == tenant && x.worker in c.connected && x.HoldsSlot()
  }

  /** Calls of connected workers whose increment is to be taken back, or was left behind. */
  function Pending(c: Config, tenant: Tenant): Call -> bool {
    (x: Call) => x.tenant == tenant && x.worker in c.connected && x.HoldsIncrement()
  }

  function Grants(c: Config, tenant: Tenant): Call -> bool {
    (x: Call) => x.tenant == tenant && x.worker in c.connected && x.phase.Granted?
  }

  function InTenant(p: Place): Call -> bool {
    (x: Call) => Place(x.worker, x.tenant) == p && x.HoldsTenant()
  }

  function InPlatform(worker: Worker): Call -> bool {
    (x: Call) => x.worker == worker && x.HoldsPlatform()
  }

  // ----- What every step keeps -------------------------------------------------------------

  ghost predicate CounterExact(c: Config, g: Gates, tenant: Tenant) {
    && g.Counter(tenant) == Count(g.calls, Slots(c, tenant)) + Count(g.calls, Pending(c, tenant))
    && Count(g.calls, Slots(c, tenant)) <= c.perTenant
  }

  ghost predicate TenantExact(c: Config, g: Gates, p: Place) {
    g.TenantFree(c, p) + Count(g.calls, InTenant(p)) == c.perTenant && g.TenantFree(c, p) >= 0
  }

  ghost predicate PlatformExact(c: Config, g: Gates, worker: Worker) {
    g.PlatformFree(c, worker) + Count(g.calls, InPlatform(worker)) == c.platform && g.PlatformFree(c, worker) >= 0
  }

  function Flag(b: bool): int { if b then 1 else 0 }

  /** A step pays for exactly what its call takes or gives back. */
  ghost predicate Balances(c: Config, x: Call, m: Move) {
    var y := x.(phase := m.phase);
    && m.tenant == Flag(x.HoldsTenant()) - Flag(y.HoldsTenant())
    && m.platform == Flag(x.HoldsPlatform()) - Flag(y.HoldsPlatform())
    && (x.worker in c.connected ==>
          m.counter == Flag(y.HoldsSlot()) - Flag(x.HoldsSlot()) + Flag(y.HoldsIncrement()) - Flag(x.HoldsIncrement()))
  }

  lemma MovesBalance(c: Config, g: Gates, e: Step)
    requires Enabled(c, g, e) && !e.Arrive?
    ensures Balances(c, g.calls[e.t], MoveOf(c, g, e))
  {
  }

  /** A move that gains a slot is an increment that stays within the cap. */
  lemma GainsWithinCap(c: Config, g: Gates, e: Step)
    requires Enabled(c, g, e) && !e.Arrive? && g.calls[e.t].worker in c.connected
    requires g.calls[e.t].(phase := MoveOf(c, g, e).phase).HoldsSlot() && !g.calls[e.t].HoldsSlot()
    ensures g.Counter(g.calls[e.t].tenant) < c.perTenant && MoveOf(c, g, e).phase.Granted?
  {
  }

  /** A move that takes a permit needs a free one. */
  lemma TakesWhatIsFree(c: Config, g: Gates, e: Step)
    requires Enabled(c, g, e) && !e.Arrive?
    ensures MoveOf(c, g, e).tenant >= 0 || (MoveOf(c, g, e).tenant == -1 && g.TenantFree(c, g.PlaceOf(e.t)) > 0)
    ensures MoveOf(c, g, e).platform >= 0 || (MoveOf(c, g, e).platform == -1 && g.PlatformFree(c, g.calls[e.t].worker) > 0)
  {
  }

  lemma TenantApply(c: Config, g: Gates, t: nat, m: Move, p: Place)
    requires t < |g.calls| && Balances(c, g.calls[t], m) && TenantExact(c, g, p)
    requires m.tenant >= 0 || (m.tenant == -1 && g.TenantFree(c, g.PlaceOf(t)) > 0)
    ensures TenantExact(c, g.Apply(c, t, m), p)
  {
    CountUpdate(g.calls, t, g.calls[t].(phase := m.phase), InTenant(p));
  }

  lemma PlatformApply(c: Config, g: Gates, t: nat, m: Move, worker: Worker)
    requires t < |g.calls| && Balances(c, g.calls[t], m) && PlatformExact(c, g, worker)
    requires m.platform >= 0 || (m.platform == -1 && g.PlatformFree(c, g.calls[t].worker) > 0)
    ensures PlatformExact(c, g.Apply(c, t, m), worker)
  {
    CountUpdate(g.calls, t, g.calls[t].(phase := m.phase), InPlatform(worker));
  }

  lemma CounterApply(c: Config, g: Gates, t: nat, m: Move, tenant: Tenant)
    requires t < |g.calls| && Balances(c, g.calls[t], m) && CounterExact(c, g, tenant)
    requires
      var x := g.calls[t];
      x.worker in c.connected && x.(phase := m.phase).HoldsSlot() && !x.HoldsSlot() ==>
        g.Counter(x.tenant) < c.perTenant
    ensures CounterExact(c, g.Apply(c, t, m), tenant)
  {
    CountUpdate(g.calls, t, g.calls[t].(phase := m.phase), Slots(c, tenant));
    CountUpdate(g.calls, t, g.calls[t].(phase := m.phase), Pending(c, tenant));
  }

  /** The three accounts of one worker and one tenant. */
  ghost predicate Balanced(c: Config, g: Gates, p: Place) {
    CounterExact(c, g, p.tenant) && TenantExact(c, g, p) && PlatformExact(c, g, p.worker)
  }

  lemma BalanceKept(c: Config, g: Gates, e: Step, p: Place)
    requires Enabled(c, g, e) && Balanced(c, g, p)
    ensures Balanced(c, Next(c, g, e), p)
  {
    if e.Arrive? {
      ArrivalBalanced(c, g, e, p);
    } else {
      MovesBalance(c, g, e);
      TakesWhatIsFree(c, g, e);
      var x := g.calls[e.t];
      if x.worker in c.connected && x.(phase := MoveOf(c, g, e).phase).HoldsSlot() && !x.HoldsSlot() { GainsWithinCap(c, g, e); }
      CounterApply(c, g, e.t, MoveOf(c, g, e), p.tenant);
      TenantApply(c, g, e.t, MoveOf(c, g, e), p);
      PlatformApply(c, g, e.t, MoveOf(c, g, e), p.worker);
    }
  }

  lemma ArrivalBalanced(c: Config, g: Gates, e: Step, p: Place)
    requires e.Arrive? && Balanced(c, g, p)
    ensures Balanced(c, Next(c, g, e), p)
  {
    var x := Call(e.worker, e.tenant, Asking);
    CountAppend(g.calls, x, Slots(c, p.tenant));
    CountAppend(g.calls, x, Pending(c, p.tenant));
    CountAppend(g.calls, x, InTenant(p));
    CountAppend(g.calls, x, InPlatform(p.worker));
  }

  lemma {:induction false} RunBalances(c: Config, g: Gates, es: seq<Step>, p: Place)
    requires Runs(c, g, es) && Balanced(c, g, p)
    ensures Balanced(c, Run(c, g, es), p)
    decreases |es|
  {
    if es != [] {
      BalanceKept(c, g, es[0], p);
      RunBalances(c, Next(c, g, es[0]), es[1..], p);
    }
  }

  ghost predicate Reachable(c: Config, g: Gates) {
    exists es :: Runs(c, OPEN, es) && Run(c, OPEN, es) == g
  }

  lemma ReachableBalanced(c: Config, g: Gates, p: Place)
    requires Reachable(c, g)
    ensures Balanced(c, g, p)
  {
    var es :| Runs(c, OPEN, es) && Run(c, OPEN, es) == g;
    RunBalances(c, OPEN, es, p);
  }

  // ----- Main results ----------------------------------------------------------------------

  /**
   In every reachable state: the tenant's counter is its held slots plus the increments
   still to be taken back, the slots never exceed the cap, and in every worker free and
   held permits add up to the configured size, per tenant and for the platform.
   */
  lemma AdmissionSafety(c: Config, g: Gates, worker: Worker, tenant: Tenant)
    requires Reachable(c, g)
    ensures g.Counter(tenant) == Count(g.calls, Slots(c, tenant)) + Count(g.calls, Pending(c, tenant))
    ensures Count(g.calls, Grants(c, tenant)) <= Count(g.calls, Slots(c, tenant)) <= c.perTenant
    ensures 0 <= g.TenantFree(c, Place(worker, tenant)) == c.perTenant - Count(g.calls, InTenant(Place(worker, tenant)))
    ensures 0 <= g.PlatformFree(c, worker) == c.platform - Count(g.calls, InPlatform(worker))
  {
    ReachableBalanced(c, g, Place(worker, tenant));
    CountMonotone(g.calls, Grants(c, tenant), Slots(c, tenant));
  }

  lemma {:induction false} CountSome(calls: seq<Call>, f: Call -> bool, i: nat)
    requires i < |calls| && f(calls[i])
    ensures Count(calls, f) > 0
  {
    if i < |calls| - 1 { CountSome(calls[..|calls| - 1], f, i); }
  }

  /** The tenant's counter is zero, and every permit of the worker is free. */
  predicate AtStart(c: Config, g: Gates, p: Place) {
    g.Counter(p.tenant) == 0 && g.TenantFree(c, p) == c.perTenant && g.PlatformFree(c, p.worker) == c.platform
  }

  /** Once every call is over, refused or not, the accounts are back at their start exactly when no call leaked. */
  lemma NothingLeaksIff(c: Config, g: Gates)
    requires Reachable(c, g) && forall i :: 0 <= i < |g.calls| ==> g.calls[i].phase.Gone? || g.calls[i].Leaked()
    ensures (forall p :: AtStart(c, g, p)) <==> forall i :: 0 <= i < |g.calls| ==> !g.calls[i].Leaked()
  {
    if i :| 0 <= i < |g.calls| && g.calls[i].Leaked() {
      LeakIsMissing(c, g, i);
    } else {
      forall p ensures AtStart(c, g, p) {
        AdmissionSafety(c, g, p.worker, p.tenant);
        CountNone(g.calls, Slots(c, p.tenant));
        CountNone(g.calls, Pending(c, p.tenant));
        CountNone(g.calls, InTenant(p));
        CountNone(g.calls, InPlatform(p.worker));
      }
    }
  }

  lemma LeakIsMissing(c: Config, g: Gates, i: nat)
    requires Reachable(c, g) && i < |g.calls| && g.calls[i].Leaked()
    ensures !AtStart(c, g, g.PlaceOf(i))
  {
    var p := g.PlaceOf(i);
    AdmissionSafety(c, g, p.worker, p.tenant);
    CountSome(g.calls, InTenant(p), i);
  }

  ghost predicate NoneLeaked(g: Gates) {
    forall i :: 0 <= i < |g.calls| ==> !g.calls[i].Leaked()
  }

  /** A cancellation behind the tenant semaphore. */
  predicate Harmful(c: Config, g: Gates, e: Step)
    requires Enabled(c, g, e)
  {
    e.CancelRelease? || (e.CancelAdmit? && !g.calls[e.t].phase.Asking?)
  }

  lemma LeakIff(c: Config, g: Gates, e: Step)
    requires Enabled(c, g, e)
    ensures NoneLeaked(Next(c, g, e)) <==> NoneLeaked(g) && !Harmful(c, g, e)
  {
    var x := Next(c, g, e);
    if e.Arrive? {
      assert forall i :: 0 <= i < |g.calls| ==> x.calls[i] == g.calls[i];
    } else {
      MoveLeaks(c, g, e);
      assert forall i :: 0 <= i < |g.calls| && i != e.t ==> x.calls[i] == g.calls[i];
      assert x.calls[e.t] == g.calls[e.t].(phase := MoveOf(c, g, e).phase);
    }
  }

  lemma MoveLeaks(c: Config, g: Gates, e: Step)
    requires Enabled(c, g, e) && !e.Arrive?
    ensures g.calls[e.t].(phase := MoveOf(c, g, e).phase).Leaked() <==> g.calls[e.t].Leaked() || Harmful(c, g, e)
  {
  }

  ghost predicate NeverHarmful(c: Config, g: Gates, es: seq<Step>)
    requires Runs(c, g, es)
    decreases |es|
  {
    es != [] ==> !Harmful(c, g, es[0]) && NeverHarmful(c, Next(c, g, es[0]), es[1..])
  }

  /** A call leaks exactly when it is cancelled, in `admit` or in `release`, behind the tenant semaphore. */
  lemma {:induction false} RunLeakIff(c: Config, g: Gates, es: seq<Step>)
    requires Runs(c, g, es)
    ensures NoneLeaked(Run(c, g, es)) <==> NoneLeaked(g) && NeverHarmful(c, g, es)
    decreases |es|
  {
    if es != [] {
      LeakIff(c, g, es[0]);
      RunLeakIff(c, Next(c, g, es[0]), es[1..]);
    }
  }

  /** It happens: a cancelled release keeps both permits, and a second release changes nothing. */
  lemma CancelledReleaseLeaks(c: Config, tenant: Tenant) returns (g: Gates)
    requires c.perTenant > 0 && c.platform > 0 && 0 in c.connected
    ensures Reachable(c, g) && g.calls == [Call(0, tenant, LeakLocal)]
    ensures !AtStart(c, g, Place(0, tenant)) && Enabled(c, g, Release(0)) && Next(c, g, Release(0)) == g
  {
    assert Runs(c, OPEN, []) && Run(c, OPEN, []) == OPEN;
    g := Approach(c, OPEN, 0, tenant);
    g := ReachableStep(c, g, Increment(0));
    assert g.calls == [Call(0, tenant, Granted)];
    g := ReachableStep(c, g, Release(0));
    assert g.calls == [Call(0, tenant, Releasing)];
    g := ReachableStep(c, g, CancelRelease(0, true));
    LeakIsMissing(c, g, 0);
  }

  /**
   A connected call is refused exactly when the held slots and the increments still to
   be taken back fill the cap; so refusals in flight can refuse a call with slots free.
   */
  lemma RefusedIff(c: Config, g: Gates, t: nat)
    requires Reachable(c, g) && Enabled(c, g, Increment(t))
    ensures
      var tenant := g.calls[t].tenant;
      Next(c, g, Increment(t)).calls[t].phase.Over? <==>
        g.calls[t].worker in c.connected &&
        Count(g.calls, Slots(c, tenant)) + Count(g.calls, Pending(c, tenant)) >= c.perTenant
  {
    AdmissionSafety(c, g, g.calls[t].worker, g.calls[t].tenant);
  }

  lemma RunCons(c: Config, g: Gates, e: Step, es: seq<Step>)
    requires Enabled(c, g, e) && Runs(c, Next(c, g, e), es)
    ensures Runs(c, g, [e] + es) && Run(c, g, [e] + es) == Run(c, Next(c, g, e), es)
  {
    assert ([e] + es)[1..] == es;
  }

  lemma {:induction false} RunSnoc(c: Config, g: Gates, es: seq<Step>, e: Step)
    requires Runs(c, g, es) && Enabled(c, Run(c, g, es), e)
    ensures Runs(c, g, es + [e]) && Run(c, g, es + [e]) == Next(c, Run(c, g, es), e)
    decreases |es|
  {
    if es == [] {
      RunCons(c, g, e, []);
      assert [] + [e] == [e] + [];
    } else {
      RunSnoc(c, Next(c, g, es[0]), es[1..], e);
      RunCons(c, g, es[0], es[1..] + [e]);
      assert es + [e] == [es[0]] + (es[1..] + [e]);
    }
  }

  lemma ReachableStep(c: Config, g: Gates, e: Step) returns (x: Gates)
    requires Reachable(c, g) && Enabled(c, g, e)
    ensures x == Next(c, g, e) && Reachable(c, x)
  {
    var es :| Runs(c, OPEN, es) && Run(c, OPEN, es) == g;
    RunSnoc(c, OPEN, es, e);
    x := Next(c, g, e);
  }

  /** A worker nobody has used yet brings a call up to its increment. */
  lemma Approach(c: Config, g: Gates, worker: Worker, tenant: Tenant) returns (x: Gates)
    requires Reachable(c, g) && c.perTenant > 0 && c.platform > 0
    requires Place(worker, tenant) !in g.tenantFree && worker !in g.platformFree
    ensures Reachable(c, x) && x.calls == g.calls + [Call(worker, tenant, HasBoth)] && x.counters == g.counters
    ensures x.tenantFree.Keys == g.tenantFree.Keys + {Place(worker, tenant)} && x.platformFree.Keys == g.platformFree.Keys + {worker}
  {
    var t := |g.calls|;
    x := ReachableStep(c, g, Arrive(worker, tenant));
    x := ReachableStep(c, x, TakeTenant(t));
    x := ReachableStep(c, x, TakePlatform(t));
  }

  ghost predicate Stage(c: Config, g: Gates, tenant: Tenant, calls: seq<Call>, count: int) {
    && Reachable(c, g) && g.calls == calls && g.counters == map[tenant := count]
    && g.tenantFree.Keys == (set x | x in calls :: Place(x.worker, x.tenant))
    && g.platformFree.Keys == (set x | x in calls :: x.worker)
  }

  const THREE := Config(1, 1, {0, 1, 2})

  lemma FirstGranted(tenant: Tenant) returns (g: Gates)
    ensures Stage(THREE, g, tenant, [Call(0, tenant, Granted)], 1)
  {
    assert Runs(THREE, OPEN, []) && Run(THREE, OPEN, []) == OPEN;
    g := Approach(THREE, OPEN, 0, tenant);
    g := ReachableStep(THREE, g, Increment(0));
  }

  lemma SecondOver(tenant: Tenant) returns (g: Gates)
    ensures Stage(THREE, g, tenant, [Call(0, tenant, Granted), Call(1, tenant, Over)], 2)
  {
    g := FirstGranted(tenant);
    g := Approach(THREE, g, 1, tenant);
    g := ReachableStep(THREE, g, Increment(1));
  }

  lemma ThirdArrives(tenant: Tenant) returns (g: Gates)
    ensures Reachable(THREE, g) && g.counters == map[tenant := 2]
    ensures g.calls == [Call(0, tenant, Granted), Call(1, tenant, Over), Call(2, tenant, HasBoth)]
  {
    g := SecondOver(tenant);
    g := Approach(THREE, g, 2, tenant);
  }

  /** It happens: three workers, a cap of one, no slot held, and the third call is refused. */
  lemma RefusedWithSlotsFree(tenant: Tenant) returns (g: Gates)
    ensures Reachable(THREE, g) && Count(g.calls, Slots(THREE, tenant)) == 0 < THREE.perTenant
    ensures Enabled(THREE, g, Increment(2)) && g.calls[2].tenant == tenant && Next(THREE, g, Increment(2)).calls[2].phase.Over?
  {
    g := ThirdArrives(tenant);
    g := ReachableStep(THREE, g, Release(0));
    g := ReachableStep(THREE, g, Decrement(0));
    assert g.calls == [Call(0, tenant, Dropping), Call(1, tenant, Over), Call(2, tenant, HasBoth)];
    CountNone(g.calls, Slots(THREE, tenant));
  }
}
