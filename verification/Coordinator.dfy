/**
 The per-thread lock: local locks inside each process, one Redis key with a lease
 per thread, and any number of processes whose steps interleave. Every Redis command
 is one atomic step; its reply may be lost. Processes may crash and calls may be
 cancelled. Times are milliseconds on one clock.
 */
module Coordinator {
  import opened Text

  type Key = string
  type Proc = nat

  // ----- The Redis side ------------------------------------------------------------------

  datatype Cell = Cell(token: nat, expires: int)
  type Cells = map<Key, Cell>

  /** The token that Redis reports for `key`: an expired cell is absent. */
  function Owner(cells: Cells, key: Key, now: int): Option<nat> {
    if key in cells && now < cells[key].expires then Some(cells[key].token) else None
  }

  /** `SET key token NX PX lease`. */
  function SetNx(cells: Cells, key: Key, token: nat, now: int, lease: int): Cells {
    if Owner(cells, key, now) == None then cells[key := Cell(token, now + lease)] else cells
  }

  function RenewScript(cells: Cells, key: Key, token: nat, now: int, lease: int): Cells {
    if Owner(cells, key, now) == Some(token) then cells[key := Cell(token, now + lease)] else cells
  }

  function ReleaseScript(cells: Cells, key: Key, token: nat, now: int): Cells {
    if Owner(cells, key, now) == Some(token) then cells - {key} else cells
  }

  // ----- Calls ----------------------------------------------------------------------------

  datatype Phase =
    | Waiting(deadline: int)      // queued on the local lock
    | Polling(deadline: int)      // has the local lock, wants the Redis key
    | Held(until: int)            // the caller has its lease; Redis confirmed it up to `until`
    | Releasing(at: int)          // `release` was called
    | Unlocking(at: int)          // the Redis part of `release` is over
    | Abandoned(at: int)          // cancelled while polling Redis, or inside `release`: the local lock stays taken
    | Gone(at: int)               // finished, timed out or crashed

  /** A call of `acquire` and what follows it. Its position in the table is its token. */
  datatype Call = Call(proc: Proc, key: Key, phase: Phase) {
    predicate HoldsLocal() {
      phase.Polling? || phase.Held? || phase.Releasing? || phase.Unlocking? || phase.Abandoned?
    }

    predicate Stopped() {
      phase.Releasing? || phase.Unlocking? || phase.Abandoned? || phase.Gone?
    }
  }

  datatype Slot = Slot(proc: Proc, key: Key)

  /** `down` holds the processes that have marked Redis unavailable. */
  datatype World = World(now: int, cells: Cells, locks: map<Slot, nat>, down: set<Proc>, calls: seq<Call>) {
    predicate Is(t: nat) { t < |calls| }

    function Place(t: nat): Slot
      requires Is(t)
    {
      Slot(calls[t].proc, calls[t].key)
    }

    /** Redis has confirmed the lease of `t` up to some time after now. */
    predicate Confirmed(t: nat) {
      Is(t) && calls[t].phase.Held? && now < calls[t].phase.until
    }
  }

  const START := World(0, map[], map[], {}, [])

  datatype Step =
    | Arrive(proc: Proc, key: Key, wait: int)
    | TakeLocal(t: nat)
    | LocalTimeout(t: nat)
    | TrySet(t: nat)
    | SetFails(t: nat, applied: bool)        // the reply is lost; Redis may have run the command
    | PollTimeout(t: nat)
    | Renew(t: nat, heard: bool)
    | Release(t: nat)                        // may be called again and again
    | ReleaseKey(t: nat, applied: bool)
    | ReleaseLocal(t: nat)
    | Cancel(t: nat, applied: bool)          // inside `acquire`; Redis may have run a pending SET
    | CancelRelease(t: nat, applied: bool)   // inside the awaited release script, which Redis may have run
    | Crash(proc: Proc)
    | Reconnect(proc: Proc)
    | Tick(ms: nat)

  predicate FirstInLine(w: World, t: nat)
    requires w.Is(t)
  {
    forall u :: 0 <= u < t && w.Place(u) == w.Place(t) ==> !w.calls[u].phase.Waiting?
  }

  predicate Enabled(w: World, e: Step) {
    match e
    case Arrive(_, _, _) => true
    case TakeLocal(t) => w.Is(t) && w.calls[t].phase.Waiting? && w.Place(t) !in w.locks && FirstInLine(w, t)
    case LocalTimeout(t) => w.Is(t) && w.calls[t].phase.Waiting? && w.now >= w.calls[t].phase.deadline
    case TrySet(t) => w.Is(t) && w.calls[t].phase.Polling? && w.now < w.calls[t].phase.deadline
    case SetFails(t, _) => w.Is(t) && w.calls[t].phase.Polling? && w.now < w.calls[t].phase.deadline
    case PollTimeout(t) => w.Is(t) && w.calls[t].phase.Polling? && w.now >= w.calls[t].phase.deadline
    case Renew(t, _) => w.Is(t) && w.calls[t].phase.Held?
    case Release(t) => w.Is(t) && !w.calls[t].phase.Waiting? && !w.calls[t].phase.Polling?
    case ReleaseKey(t, _) => w.Is(t) && w.calls[t].phase.Releasing?
    case ReleaseLocal(t) => w.Is(t) && w.calls[t].phase.Unlocking?
    case Cancel(t, applied) =>
      && w.Is(t) && (w.calls[t].phase.Waiting? || w.calls[t].phase.Polling?)
      && (applied ==> w.calls[t].phase.Polling? && w.now < w.calls[t].phase.deadline)
    case CancelRelease(t, _) => w.Is(t) && w.calls[t].phase.Releasing? && w.calls[t].proc !in w.down
    case Crash(_) => true
    case Reconnect(_) => true
    case Tick(_) => true
  }

  function Moved(w: World, t: nat, phase: Phase): World
    requires w.Is(t)
  {
    w.(calls := w.calls[t := w.calls[t].(phase := phase)])
  }

  function Ended(now: int, p: Proc, c: Call): Call {
    if c.proc != p || c.phase.Gone? then c else c.(phase := Gone(if c.Stopped() then c.phase.at else now))
  }

  function Crashed(w: World, p: Proc): World {
    w.(locks := map s | s in w.locks && s.proc != p :: w.locks[s],
       down := w.down - {p},
       calls := seq(|w.calls|, i requires 0 <= i < |w.calls| => Ended(w.now, p, w.calls[i])))
  }

  function Next(lease: nat, w: World, e: Step): World
    requires Enabled(w, e)
  {
    match e
    case Arrive(p, key, wait) => w.(calls := w.calls + [Call(p, key, Waiting(w.now + wait))])
    case TakeLocal(t) =>
      Moved(w, t, Polling(w.calls[t].phase.deadline)).(locks := w.locks[w.Place(t) := t])
    case LocalTimeout(t) => Moved(w, t, Gone(w.now))
    case TrySet(t) =>
      var key := w.calls[t].key;
      if Owner(w.cells, key, w.now) == None then
        Moved(w, t, Held(w.now + lease)).(cells := SetNx(w.cells, key, t, w.now, lease))
      else w
    case SetFails(t, applied) =>
      Moved(w, t, Held(w.now))
        .(cells := if applied then SetNx(w.cells, w.calls[t].key, t, w.now, lease) else w.cells,
          down := w.down + {w.calls[t].proc})
    case PollTimeout(t) => Moved(w, t, Gone(w.now)).(locks := w.locks - {w.Place(t)})
    case Renew(t, heard) =>
      var key := w.calls[t].key;
      var w1 := if heard && Owner(w.cells, key, w.now) == Some(t) then Moved(w, t, Held(w.now + lease)) else w;
      w1.(cells := RenewScript(w.cells, key, t, w.now, lease))
    case Release(t) => if w.calls[t].phase.Held? then Moved(w, t, Releasing(w.now)) else w
    case ReleaseKey(t, applied) =>
      Moved(w, t, Unlocking(w.calls[t].phase.at))
        .(cells := if applied && w.calls[t].proc !in w.down then ReleaseScript(w.cells, w.calls[t].key, t, w.now) else w.cells)
    case ReleaseLocal(t) => Moved(w, t, Gone(w.calls[t].phase.at)).(locks := w.locks - {w.Place(t)})
    case Cancel(t, applied) =>
      Moved(w, t, if w.calls[t].phase.Waiting? then Gone(w.now) else Abandoned(w.now))
        .(cells := if applied then SetNx(w.cells, w.calls[t].key, t, w.now, lease) else w.cells)
    case CancelRelease(t, applied) =>
      Moved(w, t, Abandoned(w.calls[t].phase.at))
        .(cells := if applied then ReleaseScript(w.cells, w.calls[t].key, t, w.now) else w.cells)
    case Crash(p) => Crashed(w, p)
    case Reconnect(p) => w.(down := w.down - {p})
    case Tick(ms) => w.(now := w.now + ms)
  }

  ghost predicate Runs(lease: nat, w: World, es: seq<Step>)
    decreases |es|
  {
    es == [] || (Enabled(w, es[0]) && Runs(lease, Next(lease, w, es[0]), es[1..]))
  }

  function Run(lease: nat, w: World, es: seq<Step>): World
    requires Runs(lease, w, es)
    decreases |es|
  {
    if es == [] then w else Run(lease, Next(lease, w, es[0]), es[1..])
  }

  // ----- What every step keeps -------------------------------------------------------------

  /** A call that holds its local lock is the one that the lock table names. */
  ghost predicate CallLocked(w: World, t: nat)
    requires w.Is(t)
  {
    w.calls[t].HoldsLocal() ==> w.Place(t) in w.locks && w.locks[w.Place(t)] == t
  }

  ghost predicate LockUsed(w: World, s: Slot)
    requires s in w.locks
  {
    w.Is(w.locks[s]) && w.Place(w.locks[s]) == s && w.calls[w.locks[s]].HoldsLocal()
  }

  ghost predicate LocksMatch(w: World) {
    (forall t :: 0 <= t < |w.calls| ==> CallLocked(w, t)) && (forall s :: s in w.locks ==> LockUsed(w, s))
  }

  /** Redis still has the key of a confirmed lease, for at least as long as it confirmed. */
  ghost predicate Backed(w: World, t: nat)
    requires w.Is(t)
  {
    w.Confirmed(t) ==>
      var key := w.calls[t].key;
      key in w.cells && w.cells[key].token == t && w.calls[t].phase.until <= w.cells[key].expires
  }

  ghost predicate LeasesBacked(w: World) {
    forall t :: 0 <= t < |w.calls| ==> Backed(w, t)
  }

  /** A cell belongs to a call on its key, and outlives the call's last touch by one lease at most. */
  ghost predicate CellBounded(lease: nat, w: World, key: Key) {
    key in w.cells ==>
      var c := w.cells[key];
      && w.Is(c.token) && w.calls[c.token].key == key && !w.calls[c.token].phase.Waiting?
      && c.expires <= w.now + lease
      && (w.calls[c.token].Stopped() ==> c.expires <= w.calls[c.token].phase.at + lease)
  }

  ghost predicate CellsBounded(lease: nat, w: World) {
    forall key :: CellBounded(lease, w, key)
  }

  /** A call that arrived after `u` has not got the lock while `u` waits. */
  ghost predicate NotOvertaken(w: World, u: nat, t: nat)
    requires w.Is(u) && w.Is(t)
  {
    u < t && w.Place(u) == w.Place(t) && w.calls[t].HoldsLocal() ==> !w.calls[u].phase.Waiting?
  }

  ghost predicate InOrder(w: World) {
    forall t, u :: 0 <= u < |w.calls| && 0 <= t < |w.calls| ==> NotOvertaken(w, u, t)
  }

  ghost predicate Inv(lease: nat, w: World) {
    LocksMatch(w) && LeasesBacked(w) && CellsBounded(lease, w) && InOrder(w)
  }

  lemma CallLockedKept(lease: nat, w: World, e: Step, t: nat)
    requires LocksMatch(w) && Enabled(w, e) && Next(lease, w, e).Is(t)
    ensures CallLocked(Next(lease, w, e), t)
  {
    if w.Is(t) { assert CallLocked(w, t); }
    if e.PollTimeout? || e.ReleaseLocal? { assert CallLocked(w, e.t); }
  }

  lemma LockUsedKept(lease: nat, w: World, e: Step, s: Slot)
    requires (s in w.locks ==> LockUsed(w, s)) && Enabled(w, e) && s in Next(lease, w, e).locks
    ensures LockUsed(Next(lease, w, e), s)
  {
  }

  lemma BackedKept(lease: nat, w: World, e: Step, t: nat)
    requires w.Is(t) && Backed(w, t) && CellBounded(lease, w, w.calls[t].key) && Enabled(w, e)
    ensures Next(lease, w, e).Is(t) && Backed(Next(lease, w, e), t)
  {
  }

  lemma CellBoundedKept(lease: nat, w: World, e: Step, key: Key)
    requires CellBounded(lease, w, key) && Enabled(w, e)
    ensures CellBounded(lease, Next(lease, w, e), key)
  {
  }

  lemma OrderKept(lease: nat, w: World, e: Step, u: nat, t: nat)
    requires Enabled(w, e) && Next(lease, w, e).Is(u) && Next(lease, w, e).Is(t)
    requires w.Is(u) && w.Is(t) ==> NotOvertaken(w, u, t)
    ensures NotOvertaken(Next(lease, w, e), u, t)
  {
  }

  lemma NewCallBacked(lease: nat, w: World, e: Step, t: nat)
    requires Enabled(w, e) && !w.Is(t) && Next(lease, w, e).Is(t)
    ensures Backed(Next(lease, w, e), t)
  {
  }

  lemma InvKept(lease: nat, w: World, e: Step)
    requires Inv(lease, w) && Enabled(w, e)
    ensures Inv(lease, Next(lease, w, e))
  {
    var x := Next(lease, w, e);
    forall t | 0 <= t < |x.calls| ensures CallLocked(x, t) && Backed(x, t) {
      CallLockedKept(lease, w, e, t);
      if w.Is(t) { BackedKept(lease, w, e, t); } else { NewCallBacked(lease, w, e, t); }
    }
    forall s | s in x.locks ensures LockUsed(x, s) { LockUsedKept(lease, w, e, s); }
    forall key ensures CellBounded(lease, x, key) { CellBoundedKept(lease, w, e, key); }
    forall t, u | 0 <= u < |x.calls| && 0 <= t < |x.calls| ensures NotOvertaken(x, u, t) { OrderKept(lease, w, e, u, t); }
  }

  lemma {:induction false} RunsKeepInv(lease: nat, w: World, es: seq<Step>)
    requires Inv(lease, w) && Runs(lease, w, es)
    ensures Inv(lease, Run(lease, w, es))
    decreases |es|
  {
    if es != [] {
      InvKept(lease, w, es[0]);
      RunsKeepInv(lease, Next(lease, w, es[0]), es[1..]);
    }
  }

  ghost predicate Reachable(lease: nat, w: World) {
    exists es :: Runs(lease, START, es) && Run(lease, START, es) == w
  }

  lemma ReachableInv(lease: nat, w: World)
    requires Reachable(lease, w)
    ensures Inv(lease, w)
  {
    var es :| Runs(lease, START, es) && Run(lease, START, es) == w;
    RunsKeepInv(lease, START, es);
  }

  // ----- Main results ----------------------------------------------------------------------

  /**
   In every reachable state: no two confirmed leases on one thread; no two live leases
   on one thread inside one process, whatever Redis does; local waiters are served in
   the order they arrived.
   */
  lemma MutualExclusion(lease: nat, w: World, t: nat, u: nat)
    requires Reachable(lease, w) && w.Is(t) && w.Is(u) && w.calls[t].key == w.calls[u].key
    ensures w.Confirmed(t) && w.Confirmed(u) ==> t == u
    ensures w.Place(t) == w.Place(u) && w.calls[t].HoldsLocal() && w.calls[u].HoldsLocal() ==> t == u
    ensures w.Place(t) == w.Place(u) && w.calls[t].HoldsLocal() && w.calls[u].phase.Waiting? ==> t < u
  {
    ReachableInv(lease, w);
    assert Backed(w, t) && Backed(w, u);
    assert CallLocked(w, t) && CallLocked(w, u) && NotOvertaken(w, u, t);
  }

  /** The Redis key of a call that has stopped, for whatever reason, is gone one lease later. */
  lemma FreeWithinLease(lease: nat, w: World, t: nat)
    requires Reachable(lease, w) && w.Is(t) && w.calls[t].Stopped() && w.now >= w.calls[t].phase.at + lease
    ensures Owner(w.cells, w.calls[t].key, w.now) != Some(t)
  {
    ReachableInv(lease, w);
    assert CellBounded(lease, w, w.calls[t].key);
  }

  predicate ActsFor(e: Step, t: nat) {
    match e
    case TrySet(u) => u == t
    case SetFails(u, _) => u == t
    case Renew(u, _) => u == t
    case ReleaseKey(u, _) => u == t
    case Cancel(u, _) => u == t
    case CancelRelease(u, _) => u == t
    case _ => false
  }

  /** A key that Redis reports as owned by `t` is changed by no step but those of `t`. */
  lemma OthersCannotTouch(lease: nat, w: World, e: Step, key: Key, t: nat)
    requires Enabled(w, e) && Owner(w.cells, key, w.now) == Some(t) && !ActsFor(e, t)
    ensures key in Next(lease, w, e).cells && Next(lease, w, e).cells[key] == w.cells[key]
  {
  }

  lemma RunCons(lease: nat, w: World, e: Step, es: seq<Step>)
    requires Enabled(w, e) && Runs(lease, Next(lease, w, e), es)
    ensures Runs(lease, w, [e] + es) && Run(lease, w, [e] + es) == Run(lease, Next(lease, w, e), es)
  {
    assert ([e] + es)[1..] == es;
  }

  lemma ReleaseSequence(lease: nat, w: World, t: nat)
    requires w.Is(t) && w.calls[t].phase.Held?
    ensures Runs(lease, w, [Release(t), ReleaseKey(t, true), ReleaseLocal(t)])
    ensures
      Run(lease, w, [Release(t), ReleaseKey(t, true), ReleaseLocal(t)]) ==
      Moved(w, t, Gone(w.now))
        .(cells := if w.calls[t].proc !in w.down then ReleaseScript(w.cells, w.calls[t].key, t, w.now) else w.cells,
          locks := w.locks - {w.Place(t)})
  {
    var w1 := Next(lease, w, Release(t));
    var w2 := Next(lease, w1, ReleaseKey(t, true));
    RunCons(lease, w2, ReleaseLocal(t), []);
    RunCons(lease, w1, ReleaseKey(t, true), [ReleaseLocal(t)] + []);
    RunCons(lease, w, Release(t), [ReleaseKey(t, true)] + ([ReleaseLocal(t)] + []));
    assert [Release(t), ReleaseKey(t, true), ReleaseLocal(t)] == [Release(t)] + ([ReleaseKey(t, true)] + ([ReleaseLocal(t)] + []));
    var w3 := Next(lease, w2, ReleaseLocal(t));
    assert w3.calls == Moved(w, t, Gone(w.now)).calls;
  }

  /**
   A released thread can be taken at once exactly when the process has not marked Redis
   as unavailable; after that mark it leaves its keys to expire even when Redis is back.
   */
  lemma HandOver(lease: nat, w: World, t: nat)
    requires Reachable(lease, w) && w.Confirmed(t)
    ensures
      var steps := [Release(t), ReleaseKey(t, true), ReleaseLocal(t)];
      && Runs(lease, w, steps)
      && var after := Run(lease, w, steps);
         && (Owner(after.cells, w.calls[t].key, after.now) == None <==> w.calls[t].proc !in w.down)
         && w.Place(t) !in after.locks
  {
    ReachableInv(lease, w);
    assert Backed(w, t);
    ReleaseSequence(lease, w, t);
  }

  lemma {:induction false} RunSnoc(lease: nat, w: World, es: seq<Step>, e: Step)
    requires Runs(lease, w, es) && Enabled(Run(lease, w, es), e)
    ensures Runs(lease, w, es + [e]) && Run(lease, w, es + [e]) == Next(lease, Run(lease, w, es), e)
    decreases |es|
  {
    if es == [] {
      assert [] + [e] == [e] + [];
      RunCons(lease, w, e, []);
      assert [e] == [e] + [];
    } else {
      RunSnoc(lease, Next(lease, w, es[0]), es[1..], e);
      RunCons(lease, w, es[0], es[1..] + [e]);
      assert es + [e] == [es[0]] + (es[1..] + [e]);
    }
  }

  lemma ReachableStep(lease: nat, w: World, e: Step) returns (x: World)
    requires Reachable(lease, w) && Enabled(w, e)
    ensures x == Next(lease, w, e) && Reachable(lease, x)
  {
    var es :| Runs(lease, START, es) && Run(lease, START, es) == w;
    RunSnoc(lease, START, es, e);
    x := Next(lease, w, e);
  }

  lemma StartReachable(lease: nat)
    ensures Reachable(lease, START)
  {
    assert Runs(lease, START, []) && Run(lease, START, []) == START;
  }

  /**
   One generation per thread holds only while leases are confirmed: a lease that nobody
   renews lapses, and a second process then gets the thread while the first still runs.
   */
  lemma LapsedLeasesOverlap(lease: nat) returns (w: World)
    ensures Reachable(lease, w) && |w.calls| == 2 && w.calls[0].key == w.calls[1].key
    ensures w.calls[0].phase.Held? && w.calls[1].phase.Held? && !w.Confirmed(0)
  {
    StartReachable(lease);
    w := ReachableStep(lease, START, Arrive(0, "k", 1));
    w := ReachableStep(lease, w, TakeLocal(0));
    w := ReachableStep(lease, w, TrySet(0));
    assert w == World(0, map["k" := Cell(0, lease)], map[Slot(0, "k") := 0], {}, [Call(0, "k", Held(lease))]);
    w := ReachableStep(lease, w, Tick(lease));
    w := ReachableStep(lease, w, Arrive(1, "k", 1));
    w := ReachableStep(lease, w, TakeLocal(1));
    w := ReachableStep(lease, w, TrySet(1));
  }
}
