/** Failure counters that expire, one per deployment. Times are milliseconds. */
module Cooldown {
  import opened Text

  // ----- One counter ------------------------------------------------------------------------

  datatype Counter = Counter(count: int, expires: int)

  datatype Mark = Fail(at: int) | Clear(at: int)

  function Live(cell: Option<Counter>, now: int): Option<Counter> {
    if cell.Some? && now < cell.value.expires then cell else None
  }

  /** The failure script: INCR, and PEXPIRE when the count is 1. */
  function FailScript(cell: Option<Counter>, now: int, period: int): Counter {
    match Live(cell, now)
    case Some(c) => Counter(c.count + 1, c.expires)
    case None => Counter(1, now + period)
  }

  /** The cell that the first `n` marks of one deployment's history leave in Redis. */
  function CellAfter(h: seq<Mark>, n: nat, period: int): Option<Counter>
    requires n <= |h|
  {
    if n == 0 then None
    else
      match h[n - 1]
      case Fail(at) => Some(FailScript(CellAfter(h, n - 1, period), at, period))
      case Clear(_) => None
  }

  // ----- The same, told from the history alone -----------------------------------------------

  /** Marks `i` up to `n` are failures. */
  ghost predicate Unbroken(h: seq<Mark>, i: nat, n: nat)
    requires n <= |h|
  {
    forall k :: i <= k < n ==> h[k].Fail?
  }

  /** Failure `i` starts a period: no period that started earlier, and was not cleared, still covers it. */
  ghost predicate Opens(h: seq<Mark>, i: nat, period: int)
    requires i < |h|
    decreases i
  {
    h[i].Fail? && forall j :: 0 <= j < i && Opens(h, j, period) && h[i].at < h[j].at + period ==> !Unbroken(h, j, i)
  }

  /** Failure `i` started the period that covers `now`, and nothing among the first `n` marks has cleared it. */
  ghost predicate Covers(h: seq<Mark>, n: nat, i: nat, period: int, now: int)
    requires n <= |h|
  {
    i < n && Opens(h, i, period) && Unbroken(h, i, n) && now < h[i].at + period
  }

  ghost predicate Timed(h: seq<Mark>) {
    forall i, j :: 0 <= i < j < |h| ==> h[i].at <= h[j].at
  }

  /** Nothing among the first `n` marks lies after `now`. */
  ghost predicate Before(h: seq<Mark>, n: nat, now: int)
    requires n <= |h|
  {
    forall i :: 0 <= i < n ==> h[i].at <= now
  }

  /** What the cell says about the history: its count gives the failure that opened the period. */
  ghost predicate CellTells(h: seq<Mark>, n: nat, period: int)
    requires n <= |h|
  {
    match CellAfter(h, n, period)
    case None => n == 0 || h[n - 1].Clear?
    case Some(c) =>
      && 1 <= c.count <= n
      && var i := n - c.count;
         && Opens(h, i, period) && Unbroken(h, i, n) && c.expires == h[i].at + period
         && forall k :: i < k < n ==> h[k].at < c.expires
  }

  lemma PeriodsApart(h: seq<Mark>, i: nat, j: nat, period: int)
    requires i < j < |h| && Opens(h, i, period) && Opens(h, j, period) && Unbroken(h, i, j)
    ensures h[i].at + period <= h[j].at
  {
  }

  /** A period that covers `now` is the one in the cell. */
  lemma OnlyOnePeriod(h: seq<Mark>, n: nat, j: nat, period: int, now: int)
    requires n <= |h| && Before(h, n, now) && CellTells(h, n, period) && Covers(h, n, j, period, now)
    ensures Live(CellAfter(h, n, period), now).Some? && j == n - CellAfter(h, n, period).value.count
  {
    var i := n - CellAfter(h, n, period).value.count;
    assert !(j < i);
    assert !(i < j);
  }

  lemma FreshPeriod(h: seq<Mark>, m: nat, period: int)
    requires m < |h| && Before(h, m, h[m].at) && h[m].Fail?
    requires CellTells(h, m, period) && Live(CellAfter(h, m, period), h[m].at) == None
    ensures Opens(h, m, period)
  {
    forall j | 0 <= j < m && Opens(h, j, period) && h[m].at < h[j].at + period ensures !Unbroken(h, j, m) {
      if Unbroken(h, j, m) { OnlyOnePeriod(h, m, j, period, h[m].at); }
    }
  }

  lemma FailureTells(h: seq<Mark>, m: nat, period: int)
    requires m < |h| && h[m].Fail? && CellTells(h, m, period)
    requires Live(CellAfter(h, m, period), h[m].at) == None ==> Opens(h, m, period)
    ensures CellTells(h, m + 1, period)
  {
  }

  lemma {:induction false} CellAlwaysTells(h: seq<Mark>, n: nat, period: int)
    requires Timed(h) && n <= |h|
    ensures CellTells(h, n, period)
  {
    if n > 0 && h[n - 1].Fail? {
      CellAlwaysTells(h, n - 1, period);
      if Live(CellAfter(h, n - 1, period), h[n - 1].at) == None { FreshPeriod(h, n - 1, period); }
      FailureTells(h, n - 1, period);
    }
  }

  /** The cell is live with count `c` exactly when the `c`-th failure from the end opened the period that covers now. */
  lemma CounterMeans(h: seq<Mark>, period: int, now: int, i: nat)
    requires Timed(h) && Before(h, |h|, now)
    ensures Covers(h, |h|, i, period, now) <==>
              Live(CellAfter(h, |h|, period), now).Some? && i == |h| - Live(CellAfter(h, |h|, period), now).value.count
  {
    CellAlwaysTells(h, |h|, period);
    if Covers(h, |h|, i, period, now) { OnlyOnePeriod(h, |h|, i, period, now); }
  }

  predicate Available(cell: Option<Counter>, now: int, allowed: int) {
    match Live(cell, now)
    case None => true
    case Some(c) => c.count < allowed
  }

  /** `allowed` failures at least, from the one that opened the current period on, and nothing between that cleared them. */
  ghost predicate CoolingDown(h: seq<Mark>, period: int, allowed: int, now: int) {
    exists i: nat :: Covers(h, |h|, i, period, now) && |h| - i >= allowed
  }

  /** The counter test refines the history: unavailable exactly while cooling down. */
  lemma UnavailableIff(h: seq<Mark>, period: int, allowed: int, now: int)
    requires Timed(h) && Before(h, |h|, now)
    ensures !Available(CellAfter(h, |h|, period), now, allowed) <==> CoolingDown(h, period, allowed, now)
  {
    var cell := Live(CellAfter(h, |h|, period), now);
    if cell.Some? {
      CellAlwaysTells(h, |h|, period);
      CounterMeans(h, period, now, |h| - cell.value.count);
    }
    if CoolingDown(h, period, allowed, now) {
      var i: nat :| Covers(h, |h|, i, period, now) && |h| - i >= allowed;
      CounterMeans(h, period, now, i);
    }
  }

  /** `allowed` failures in the last period with no clearing since the first of them. */
  lemma UnavailableOnlyIf(h: seq<Mark>, period: int, allowed: int, now: int) returns (i: nat)
    requires Timed(h) && Before(h, |h|, now) && !Available(CellAfter(h, |h|, period), now, allowed)
    ensures i < |h| && |h| - i >= allowed
    ensures forall k :: i <= k < |h| ==> h[k].Fail? && now - period < h[k].at <= now
  {
    UnavailableIff(h, period, allowed, now);
    i :| Covers(h, |h|, i, period, now) && |h| - i >= allowed;
  }

  /**
   However many failures follow before the period of failure `i` ends, the deployment is
   available at its end. (A clearing makes it available at once and starts afresh.)
   */
  lemma AvailableAgain(h: seq<Mark>, n: nat, i: nat, period: int, allowed: int, now: int)
    requires Timed(h) && n <= |h| && Covers(h, n, i, period, now)
    requires forall k :: n <= k < |h| ==> h[k].Fail? && h[k].at < h[i].at + period
    requires Before(h, n, now)
    ensures Available(CellAfter(h, |h|, period), h[i].at + period, allowed)
  {
    var end := h[i].at + period;
    assert Unbroken(h, i, |h|);
    UnavailableIff(h, period, allowed, end);
    forall j: nat | j < |h| ensures !Covers(h, |h|, j, period, end) {
      if j < i && Opens(h, j, period) && Unbroken(h, j, |h|) {
        PeriodsApart(h, j, i, period);
      } else if i < j && Opens(h, j, period) {
        PeriodsApart(h, i, j, period);
      }
    }
  }

  lemma {:induction false} CellOfPrefix(h: seq<Mark>, m: Mark, n: nat, period: int)
    requires n <= |h|
    ensures CellAfter(h + [m], n, period) == CellAfter(h, n, period)
  {
    if n > 0 { CellOfPrefix(h, m, n - 1, period); }
  }

  lemma AppendMark(h: seq<Mark>, m: Mark, period: int)
    requires Timed(h) && Before(h, |h|, m.at)
    ensures Timed(h + [m]) && Before(h + [m], |h| + 1, m.at)
    ensures CellAfter(h + [m], |h| + 1, period) ==
              match m { case Fail(at) => Some(FailScript(CellAfter(h, |h|, period), at, period)) case Clear(_) => None }
  {
    CellOfPrefix(h, m, |h|, period);
  }

  /** The last `count` marks are failures, from the one that opened the current period on. */
  ghost predicate CountsFrom(h: seq<Mark>, count: int, period: int, now: int) {
    1 <= count <= |h| && (period > 0 ==> Covers(h, |h|, |h| - count, period, now))
  }

  lemma FailureCounts(h: seq<Mark>, now: int, period: int)
    requires Timed(h) && Before(h, |h|, now)
    ensures
      var g := h + [Fail(now)];
      var c := FailScript(CellAfter(h, |h|, period), now, period);
      && Timed(g) && Before(g, |g|, now) && CellAfter(g, |g|, period) == Some(c)
      && CountsFrom(g, c.count, period, now)
  {
    var g := h + [Fail(now)];
    var c := FailScript(CellAfter(h, |h|, period), now, period);
    AppendMark(h, Fail(now), period);
    CellAlwaysTells(g, |g|, period);
    if period > 0 { CounterMeans(g, period, now, |g| - c.count); }
  }

  function DeploymentKey(provider: string, model: string): string {
    Lower(Trim(provider)) + ":" + Lower(Trim(model))
  }

  /** Python truth of an optional string. */
  predicate Given(s: Option<string>) { s.Some? && s.value != "" }

  /** The keys that a reset removes. */
  predicate InScope(provider: Option<string>, model: Option<string>, key: string) {
    if Given(provider) && Given(model) then key == DeploymentKey(provider.value, model.value)
    else if Given(provider) then Lower(Trim(provider.value)) + ":" <= key
    else true
  }

  /** The cooldown cache, with the history of every deployment beside the counters. */
  class CooldownCache {
    const period: int
    const allowed: int
    var counters: map<string, Counter>
    ghost var log: string -> seq<Mark>

    function Cell(key: string): Option<Counter>
      reads this
    {
      if key in counters then Some(counters[key]) else None
    }

    ghost predicate Valid()
      reads this
    {
      forall key :: Timed(log(key)) && Cell(key) == CellAfter(log(key), |log(key)|, period)
    }

    /** No recorded call lies in the future. */
    ghost predicate Clock(now: int)
      reads this
    {
      forall key :: Before(log(key), |log(key)|, now)
    }

    constructor (period: int, allowed: int)
      ensures Valid() && (forall key :: log(key) == []) && this.period == period && this.allowed == allowed
    {
      this.period, this.allowed, counters, log := period, allowed, map[], key => [];
    }

    method RecordFailure(now: int, provider: string, model: string) returns (count: int)
      requires Valid() && Clock(now)
      modifies this
      ensures Valid() && Clock(now)
      ensures var k := DeploymentKey(provider, model);
              forall key :: log(key) == if key == k then old(log)(key) + [Fail(now)] else old(log)(key)
      ensures CountsFrom(log(DeploymentKey(provider, model)), count, period, now)
    {
      count := Increment(now, DeploymentKey(provider, model));
    }

    method Increment(now: int, k: string) returns (count: int)
      requires Valid() && Clock(now)
      modifies this
      ensures Valid() && Clock(now)
      ensures forall key :: log(key) == if key == k then old(log)(key) + [Fail(now)] else old(log)(key)
      ensures CountsFrom(log(k), count, period, now)
    {
      ghost var before := log;
      var c := FailScript(Cell(k), now, period);
      FailureCounts(before(k), now, period);
      counters := counters[k := c];
      log := key => if key == k then before(key) + [Fail(now)] else before(key);
      count := c.count;
    }

    method RecordSuccess(now: int, provider: string, model: string)
      requires Valid() && Clock(now)
      modifies this
      ensures Valid() && Clock(now)
      ensures var k := DeploymentKey(provider, model);
              forall key :: log(key) == if key == k then old(log)(key) + [Clear(now)] else old(log)(key)
    {
      var k := DeploymentKey(provider, model);
      Delete(now, {k}, key => key == k);
    }

    /** Deletes the counters in `hit`, which are all those in scope. */
    method Delete(now: int, hit: set<string>, ghost scope: string -> bool)
      requires Valid() && Clock(now) && forall key :: key in counters ==> (key in hit <==> scope(key))
      modifies this
      ensures Valid() && Clock(now)
      ensures forall key :: log(key) == if scope(key) then old(log)(key) + [Clear(now)] else old(log)(key)
    {
      ghost var before := log;
      forall key { AppendMark(before(key), Clear(now), period); }
      counters := counters - hit;
      log := key => if scope(key) then before(key) + [Clear(now)] else before(key);
    }

    method IsAvailable(now: int, provider: string, model: string) returns (ok: bool)
      requires Valid() && Clock(now)
      ensures ok <==> !CoolingDown(log(DeploymentKey(provider, model)), period, allowed, now)
    {
      var k := DeploymentKey(provider, model);
      ok := Available(Cell(k), now, allowed);
      UnavailableIff(log(k), period, allowed, now);
    }

    method Reset(now: int, provider: Option<string>, model: Option<string>) returns (cleared: nat)
      requires Valid() && Clock(now)
      modifies this
      ensures Valid() && Clock(now)
      ensures forall key :: log(key) == if InScope(provider, model, key) then old(log)(key) + [Clear(now)] else old(log)(key)
      ensures cleared ==
              if Given(provider) && Given(model) then 1
              else |set key | key in old(counters) && InScope(provider, model, key) && now < old(counters)[key].expires|
    {
      var hit := set key | key in counters && InScope(provider, model, key);
      var live := set key | key in hit && now < counters[key].expires;
      cleared := if Given(provider) && Given(model) then 1 else |live|;
      assert live == set key | key in counters && InScope(provider, model, key) && now < counters[key].expires;
      Delete(now, hit, key => InScope(provider, model, key));
    }
  }
}
