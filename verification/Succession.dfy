/** Who can get a thread next: after a lapse, after a release, and after a cancellation. */
module Succession {
  import opened Text
  import opened Coordinator

  // ----- Cancellation -----------------------------------------------------------------------

  /** The local lock is held by a call that was cancelled while it polled Redis or inside its release. */
  predicate Stuck(w: World, s: Slot) {
    s in w.locks && w.Is(w.locks[s]) && w.calls[w.locks[s]].phase.Abandoned?
  }

  predicate Holds(w: World, u: nat, s: Slot) {
    w.Is(u) && w.Place(u) == s && w.calls[u].HoldsLocal()
  }

  /** Some run from `w` to `x` in which process `p` does not crash. */
  ghost predicate Leads(lease: nat, w: World, x: World, p: Proc) {
    exists es :: Runs(lease, w, es) && Crash(p) !in es && Run(lease, w, es) == x
  }

  /** Without a crash of the process, some call that does not hold the thread there can come to hold it. */
  ghost predicate CanPass(lease: nat, w: World, s: Slot) {
    exists x, u :: Leads(lease, w, x, s.proc) && Holds(x, u, s) && !Holds(w, u, s)
  }

  lemma LeadsNowhere(lease: nat, w: World, p: Proc)
    ensures Leads(lease, w, w, p)
  {
    assert Runs(lease, w, []) && Run(lease, w, []) == w;
  }

  lemma LeadsStep(lease: nat, w: World, x: World, p: Proc, e: Step) returns (y: World)
    requires Leads(lease, w, x, p) && Enabled(x, e) && e != Crash(p)
    ensures y == Next(lease, x, e) && Leads(lease, w, y, p)
  {
    var es :| Runs(lease, w, es) && Crash(p) !in es && Run(lease, w, es) == x;
    RunSnoc(lease, w, es, e);
    assert Crash(p) !in es + [e];
    y := Next(lease, x, e);
  }

  lemma AbandonedStays(lease: nat, w: World, e: Step, t: nat)
    requires Enabled(w, e) && w.Is(t) && w.calls[t].phase.Abandoned? && e != Crash(w.calls[t].proc)
    ensures Next(lease, w, e).Is(t) && Next(lease, w, e).calls[t] == w.calls[t]
  {
  }

  lemma {:induction false} AbandonedForever(lease: nat, w: World, es: seq<Step>, t: nat)
    requires Inv(lease, w) && Runs(lease, w, es) && w.Is(t) && w.calls[t].phase.Abandoned?
    requires Crash(w.calls[t].proc) !in es
    ensures
      var after := Run(lease, w, es);
      after.Is(t) && after.calls[t] == w.calls[t] && Inv(lease, after)
    decreases |es|
  {
    if es != [] {
      InvKept(lease, w, es[0]);
      AbandonedStays(lease, w, es[0], t);
      AbandonedForever(lease, Next(lease, w, es[0]), es[1..], t);
    }
  }

  lemma StuckStays(lease: nat, w: World, s: Slot)
    requires Inv(lease, w) && Stuck(w, s)
    ensures !CanPass(lease, w, s)
  {
    var t := w.locks[s];
    assert LockUsed(w, s);
    forall x, u | Leads(lease, w, x, s.proc) && Holds(x, u, s) ensures Holds(w, u, s) {
      var es :| Runs(lease, w, es) && Crash(s.proc) !in es && Run(lease, w, es) == x;
      AbandonedForever(lease, w, es, t);
      assert CallLocked(x, t) && CallLocked(x, u);
    }
  }

  /** `x` follows from `w` with the lock free, and nobody has joined the waiters. */
  ghost predicate Freed(lease: nat, w: World, x: World, s: Slot) {
    && Leads(lease, w, x, s.proc) && s !in x.locks && |x.calls| == |w.calls|
    && forall u :: 0 <= u < |w.calls| ==> x.Place(u) == w.Place(u) && (x.calls[u].phase.Waiting? ==> w.calls[u].phase.Waiting?)
  }

  lemma PollerGivesUp(lease: nat, w: World, v: nat) returns (x: World)
    requires w.Is(v) && w.calls[v].phase.Polling?
    ensures Freed(lease, w, x, w.Place(v))
  {
    var p := w.calls[v].proc;
    LeadsNowhere(lease, w, p);
    x := w;
    if w.now < w.calls[v].phase.deadline { x := LeadsStep(lease, w, x, p, Tick(w.calls[v].phase.deadline - w.now)); }
    x := LeadsStep(lease, w, x, p, PollTimeout(v));
  }

  lemma HolderReleases(lease: nat, w: World, v: nat) returns (x: World)
    requires w.Is(v) && (w.calls[v].phase.Held? || w.calls[v].phase.Releasing? || w.calls[v].phase.Unlocking?)
    ensures Freed(lease, w, x, w.Place(v))
  {
    var p := w.calls[v].proc;
    LeadsNowhere(lease, w, p);
    x := w;
    if x.calls[v].phase.Held? { x := LeadsStep(lease, w, x, p, Release(v)); }
    if x.calls[v].phase.Releasing? { x := LeadsStep(lease, w, x, p, ReleaseKey(v, true)); }
    x := LeadsStep(lease, w, x, p, ReleaseLocal(v));
  }

  /** The holder of a lock, unless it is stuck, can give it back. */
  lemma FreeTheLock(lease: nat, w: World, s: Slot) returns (x: World)
    requires Inv(lease, w) && !Stuck(w, s)
    ensures Freed(lease, w, x, s)
  {
    if s in w.locks {
      assert LockUsed(w, s);
      var v := w.locks[s];
      if w.calls[v].phase.Polling? { x := PollerGivesUp(lease, w, v); } else { x := HolderReleases(lease, w, v); }
    } else {
      LeadsNowhere(lease, w, s.proc);
      x := w;
    }
  }

  /** The first waiter at a place, if there is one up to `n`. */
  lemma {:induction false} FirstWaiter(w: World, s: Slot, n: nat) returns (u: Option<nat>)
    requires n <= |w.calls|
    ensures u.Some? ==> u.value < n && w.Place(u.value) == s && w.calls[u.value].phase.Waiting? && FirstInLine(w, u.value)
    ensures u.None? ==> forall v :: 0 <= v < n && w.Place(v) == s ==> !w.calls[v].phase.Waiting?
  {
    if n == 0 {
      u := None;
    } else {
      u := FirstWaiter(w, s, n - 1);
      if u.None? && w.Place(n - 1) == s && w.calls[n - 1].phase.Waiting? { u := Some(n - 1); }
    }
  }

  /** Exactly when a thread can still change hands inside a process. */
  lemma PassesIff(lease: nat, w: World, s: Slot)
    requires Reachable(lease, w)
    ensures CanPass(lease, w, s) <==> !Stuck(w, s)
  {
    ReachableInv(lease, w);
    if Stuck(w, s) {
      StuckStays(lease, w, s);
    } else {
      var x := FreeTheLock(lease, w, s);
      var first := FirstWaiter(x, s, |x.calls|);
      var u := if first.Some? then first.value else |x.calls|;
      if first.None? { x := LeadsStep(lease, w, x, s.proc, Arrive(s.proc, s.key, 0)); }
      x := LeadsStep(lease, w, x, s.proc, TakeLocal(u));
      assert Holds(x, u, s) && !Holds(w, u, s);
    }
  }

  /** A cancellation of call `t`, in `acquire` or in `release`. */
  predicate Cancels(e: Step, t: nat) {
    (e.Cancel? || e.CancelRelease?) && e.t == t
  }

  /**
   A cancellation is clean exactly while the call waits for the local lock. Once it polls
   Redis, or awaits the release script, the cancellation leaves the lock taken and no call
   of the process gets the thread again, in every run without a crash of the process.
   */
  lemma CancelIff(lease: nat, w: World, e: Step, t: nat)
    requires Reachable(lease, w) && Cancels(e, t) && Enabled(w, e)
    ensures CanPass(lease, Next(lease, w, e), w.Place(t)) <==>
              w.calls[t].phase.Waiting? && CanPass(lease, w, w.Place(t))
  {
    ReachableInv(lease, w);
    var x := ReachableStep(lease, w, e);
    PassesIff(lease, w, w.Place(t));
    PassesIff(lease, x, w.Place(t));
    assert CallLocked(w, t);
    if w.Place(t) in w.locks { assert LockUsed(w, w.Place(t)); }
  }

  /** Such cancellations are reachable: here inside `acquire`. */
  lemma CancelledPollBlocks(lease: nat) returns (w: World)
    ensures Reachable(lease, w) && !CanPass(lease, w, Slot(0, "k"))
  {
    StartReachable(lease);
    w := ReachableStep(lease, START, Arrive(0, "k", 1));
    w := ReachableStep(lease, w, TakeLocal(0));
    CancelIff(lease, w, Cancel(0, false), 0);
    w := ReachableStep(lease, w, Cancel(0, false));
  }

  /** And inside `release`, whose key Redis has deleted; a second `release` changes nothing. */
  lemma CancelledReleaseBlocks(lease: nat) returns (w: World)
    ensures Reachable(lease, w) && !CanPass(lease, w, Slot(0, "k")) && Owner(w.cells, "k", w.now) == None
    ensures Enabled(w, Release(0)) && Next(lease, w, Release(0)) == w
  {
    StartReachable(lease);
    w := ReachableStep(lease, START, Arrive(0, "k", 1));
    w := ReachableStep(lease, w, TakeLocal(0));
    w := ReachableStep(lease, w, TrySet(0));
    w := ReachableStep(lease, w, Release(0));
    CancelIff(lease, w, CancelRelease(0, true), 0);
    w := ReachableStep(lease, w, CancelRelease(0, true));
  }

  // ----- After a Redis error ---------------------------------------------------------------------

  /** One failed command, and the process's next confirmed lease is not deleted when it is released. */
  lemma KeyLeftBehind(lease: nat) returns (w: World)
    requires lease > 0
    ensures Reachable(lease, w) && w.Confirmed(1)
    ensures
      var steps := [Release(1), ReleaseKey(1, true), ReleaseLocal(1)];
      Runs(lease, w, steps) && Owner(Run(lease, w, steps).cells, "k", w.now) == Some(1)
  {
    StartReachable(lease);
    w := ReachableStep(lease, START, Arrive(0, "a", 1));
    w := ReachableStep(lease, w, TakeLocal(0));
    w := ReachableStep(lease, w, SetFails(0, false));
    assert w == World(0, map[], map[Slot(0, "a") := 0], {0}, [Call(0, "a", Held(0))]);
    w := ReachableStep(lease, w, Arrive(0, "k", 1));
    w := ReachableStep(lease, w, TakeLocal(1));
    w := ReachableStep(lease, w, TrySet(1));
    ReleaseSequence(lease, w, 1);
  }

  // ----- Another process --------------------------------------------------------------------------

  /** A step that process `q` takes by itself, while time stands still. */
  predicate TakenBy(w: World, q: Proc, e: Step) {
    match e
    case Arrive(p, _, _) => p == q
    case Reconnect(p) => p == q
    case Crash(_) => false
    case Tick(_) => false
    case _ => w.Is(e.t) && w.calls[e.t].proc == q
  }

  ghost predicate RunsAlone(lease: nat, w: World, q: Proc, es: seq<Step>)
    decreases |es|
  {
    es == [] || (Enabled(w, es[0]) && TakenBy(w, q, es[0]) && RunsAlone(lease, Next(lease, w, es[0]), q, es[1..]))
  }

  lemma {:induction false} AloneRuns(lease: nat, w: World, q: Proc, es: seq<Step>)
    requires RunsAlone(lease, w, q, es)
    ensures Runs(lease, w, es)
    decreases |es|
  {
    if es != [] { AloneRuns(lease, Next(lease, w, es[0]), q, es[1..]); }
  }

  /** Process `q`, acting by itself and at once, can be granted the thread by Redis. */
  ghost predicate CanEnter(lease: nat, w: World, q: Proc, key: Key) {
    exists es, u :: RunsAlone(lease, w, q, es) && Runs(lease, w, es) && Granted(Run(lease, w, es), q, key, u)
  }

  predicate Granted(w: World, q: Proc, key: Key, u: nat) {
    w.Confirmed(u) && w.calls[u].proc == q && w.calls[u].key == key
  }

  /** As long as others step, a live key stays with its owner. */
  lemma {:induction false} OwnerStays(lease: nat, w: World, q: Proc, es: seq<Step>, key: Key, v: nat)
    requires Inv(lease, w) && RunsAlone(lease, w, q, es) && Runs(lease, w, es)
    requires Owner(w.cells, key, w.now) == Some(v) && w.Is(v) && w.calls[v].proc != q
    ensures
      var x := Run(lease, w, es);
      Inv(lease, x) && Owner(x.cells, key, x.now) == Some(v) && x.Is(v) && x.calls[v].proc != q
    decreases |es|
  {
    if es != [] {
      InvKept(lease, w, es[0]);
      OthersCannotTouch(lease, w, es[0], key, v);
      OwnerStep(lease, w, q, es[0], v);
      OwnerStays(lease, Next(lease, w, es[0]), q, es[1..], key, v);
    }
  }

  lemma OwnerStep(lease: nat, w: World, q: Proc, e: Step, v: nat)
    requires Enabled(w, e) && TakenBy(w, q, e) && w.Is(v) && w.calls[v].proc != q
    ensures Next(lease, w, e).Is(v) && Next(lease, w, e).calls[v] == w.calls[v] && Next(lease, w, e).now == w.now
  {
  }

  /**
   While a call holds its lease, another process can be granted the thread exactly when
   Redis has no live key for it; and a confirmed lease has one.
   */
  lemma EntersIff(lease: nat, w: World, t: nat, q: Proc)
    requires lease > 0 && Reachable(lease, w) && w.Is(t) && w.calls[t].phase.Held?
    requires forall u :: 0 <= u < |w.calls| ==> w.calls[u].proc != q
    ensures CanEnter(lease, w, q, w.calls[t].key) <==> Owner(w.cells, w.calls[t].key, w.now) == None
    ensures w.Confirmed(t) ==> Owner(w.cells, w.calls[t].key, w.now) == Some(t)
  {
    ReachableInv(lease, w);
    assert Backed(w, t);
    var key := w.calls[t].key;
    if Owner(w.cells, key, w.now) == None {
      EnterNow(lease, w, q, key);
    } else {
      NoEntry(lease, w, q, key);
    }
  }

  lemma NoEntry(lease: nat, w: World, q: Proc, key: Key)
    requires Inv(lease, w) && Owner(w.cells, key, w.now).Some?
    requires forall u :: 0 <= u < |w.calls| ==> w.calls[u].proc != q
    ensures !CanEnter(lease, w, q, key)
  {
    var v := Owner(w.cells, key, w.now).value;
    assert CellBounded(lease, w, key);
    forall es, u | RunsAlone(lease, w, q, es) && Runs(lease, w, es) ensures !Granted(Run(lease, w, es), q, key, u) {
      OwnerStays(lease, w, q, es, key, v);
      var x := Run(lease, w, es);
      if x.Is(u) { assert Backed(x, u); }
    }
  }

  lemma EnterNow(lease: nat, w: World, q: Proc, key: Key)
    requires lease > 0 && Inv(lease, w) && Owner(w.cells, key, w.now) == None
    requires forall u :: 0 <= u < |w.calls| ==> w.calls[u].proc != q
    ensures CanEnter(lease, w, q, key)
  {
    var u := |w.calls|;
    var w1 := Next(lease, w, Arrive(q, key, 1));
    assert Slot(q, key) !in w.locks;
    assert Enabled(w1, TakeLocal(u));
    var w2 := Next(lease, w1, TakeLocal(u));
    var w3 := Next(lease, w2, TrySet(u));
    assert Granted(w3, q, key, u);
    assert RunsAlone(lease, w3, q, []) && Run(lease, w3, []) == w3;
    AloneStep(lease, w2, q, TrySet(u), []);
    AloneStep(lease, w1, q, TakeLocal(u), [TrySet(u)] + []);
    AloneStep(lease, w, q, Arrive(q, key, 1), [TakeLocal(u)] + ([TrySet(u)] + []));
  }

  lemma AloneStep(lease: nat, w: World, q: Proc, e: Step, es: seq<Step>)
    requires Enabled(w, e) && TakenBy(w, q, e) && RunsAlone(lease, Next(lease, w, e), q, es) && Runs(lease, Next(lease, w, e), es)
    ensures RunsAlone(lease, w, q, [e] + es) && Runs(lease, w, [e] + es)
    ensures Run(lease, w, [e] + es) == Run(lease, Next(lease, w, e), es)
  {
    assert ([e] + es)[1..] == es;
    RunCons(lease, w, e, es);
  }
}
