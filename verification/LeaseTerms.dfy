/** How long a thread lock is waited for and how long a lease is good. */
module LeaseTerms {
  import opened Text
  import opened Coordinator

  /** The Redis key of a thread. */
  function LockKey(prefix: string, tenant: string, thread: string): Key {
    prefix + tenant + ":" + thread
  }

  /** With tenant ids that hold no colon, two threads share a lock exactly when they are the same thread. */
  lemma LockKeysEqualIff(prefix: string, tenant: string, thread: string, other: string, thread': string)
    requires ColonFree(tenant) && ColonFree(other)
    ensures LockKey(prefix, tenant, thread) == LockKey(prefix, other, thread') <==> tenant == other && thread == thread'
  {
    var a, b := LockKey(prefix, tenant, thread), LockKey(prefix, other, thread');
    assert a[|prefix|..] == tenant + ":" + thread && b[|prefix|..] == other + ":" + thread';
    if a == b { FirstColon(tenant, thread, other, thread'); }
  }

  /** A polled key that is free becomes a lease of its full term, confirmed until the term is over. */
  lemma GrantLasts(lease: nat, w: World, t: nat, ms: nat)
    requires Enabled(w, TrySet(t)) && Owner(w.cells, w.calls[t].key, w.now) == None
    ensures
      var later := Next(lease, Next(lease, w, TrySet(t)), Tick(ms));
      && (later.Confirmed(t) <==> ms < lease)
      && (ms < lease ==> Owner(later.cells, w.calls[t].key, later.now) == Some(t))
  {
  }

  /** A poll of a key that someone has changes nothing. */
  lemma PollWaits(lease: nat, w: World, t: nat)
    requires Enabled(w, TrySet(t)) && Owner(w.cells, w.calls[t].key, w.now) != None
    ensures Next(lease, w, TrySet(t)) == w
  {
  }

  /** A heard renewal of a confirmed lease counts its term from now on; an unheard one leaves what was confirmed. */
  lemma RenewalExtends(lease: nat, w: World, t: nat, heard: bool, ms: nat)
    requires Inv(lease, w) && w.Confirmed(t)
    ensures Enabled(w, Renew(t, heard))
    ensures
      var later := Next(lease, Next(lease, w, Renew(t, heard)), Tick(ms));
      && (later.Confirmed(t) <==> if heard then ms < lease else w.now + ms < w.calls[t].phase.until)
      && (ms < lease ==> Owner(later.cells, w.calls[t].key, later.now) == Some(t))
  {
    assert Backed(w, t);
  }

  // ----- Waiting ------------------------------------------------------------------------------

  /** Call `t` has stopped waiting, or still waits with its deadline. */
  ghost predicate Due(w: World, t: nat, deadline: int)
    requires w.Is(t)
  {
    match w.calls[t].phase
    case Waiting(d) => d == deadline
    case Polling(d) => d == deadline
    case _ => true
  }

  lemma DueKept(lease: nat, w: World, e: Step, t: nat, deadline: int)
    requires w.Is(t) && Enabled(w, e) && Due(w, t, deadline)
    ensures Next(lease, w, e).Is(t) && Due(Next(lease, w, e), t, deadline)
  {
  }

  lemma {:induction false} DueInRuns(lease: nat, w: World, es: seq<Step>, t: nat, deadline: int)
    requires Runs(lease, w, es) && w.Is(t) && Due(w, t, deadline)
    ensures Run(lease, w, es).Is(t) && Due(Run(lease, w, es), t, deadline)
    decreases |es|
  {
    if es != [] {
      DueKept(lease, w, es[0], t, deadline);
      DueInRuns(lease, Next(lease, w, es[0]), es[1..], t, deadline);
    }
  }

  /** The steps in which call `t` gives up waiting. */
  predicate GivesUp(e: Step, t: nat) {
    e == LocalTimeout(t) || e == PollTimeout(t)
  }

  /**
   Whatever happens in between, both parts of `acquire` share the wait that the caller
   asked for: the call gives up no earlier than that and sends no SET after it.
   */
  lemma WaitIsShared(lease: nat, w: World, proc: Proc, key: Key, wait: int, es: seq<Step>, e: Step)
    requires Runs(lease, Next(lease, w, Arrive(proc, key, wait)), es)
    ensures
      var t, x := |w.calls|, Run(lease, Next(lease, w, Arrive(proc, key, wait)), es);
      && (GivesUp(e, t) && Enabled(x, e) ==> x.now >= w.now + wait)
      && (e == TrySet(t) && Enabled(x, e) ==> x.now < w.now + wait)
  {
    DueInRuns(lease, Next(lease, w, Arrive(proc, key, wait)), es, |w.calls|, w.now + wait);
  }
}
