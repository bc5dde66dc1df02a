/**
 The USD quota of the gateway: a four-level, all-or-nothing reservation built
 from atomic per-key Redis scripts.

 `QuotaService` is the service run by one request on its own; `QuotaMachine` is the
 same protocol when the scripts of many requests interleave.
 */
module Quota {

  type Key = string

  /** The `reserved` and `spent` fields of one Redis hash, in exact USD. */
  datatype Cell = Cell(reserved: real, spent: real)

  type Store = map<Key, Cell>

  /** `tonumber(...) or 0`: a missing hash reads as zero. */
  function Read(store: Store, key: Key): Cell {
    if key in store then store[key] else Cell(0.0, 0.0)
  }

  // ----- The two Lua scripts -------------------------------------------------

  datatype Reply = Reply(ok: bool, cell: Cell)

  function ReserveScript(c: Cell, limit: real, est: real): Reply {
    if limit > 0.0 && c.spent + c.reserved + est > limit then Reply(false, c)
    else Reply(true, Cell(c.reserved + est, c.spent))
  }

  function Max(a: real, b: real): real {
    if a < b then b else a
  }

  function ReconcileScript(c: Cell, est: real, actual: real): Cell {
    Cell(Max(0.0, c.reserved - est), c.spent + actual)
  }

  // ----- Budget levels and their keys ----------------------------------------

  datatype Level = Platform | Tenant | Surface | EndUser

  const LEVELS: seq<Level> := [Platform, Tenant, Surface, EndUser]

  /** The position of a level in the charging order. */
  function Rank(level: Level): (i: nat)
    ensures i < |LEVELS| && LEVELS[i] == level
    ensures forall j :: 0 <= j < |LEVELS| && LEVELS[j] == level ==> j == i
  {
    match level
    case Platform => 0
    case Tenant => 1
    case Surface => 2
    case EndUser => 3
  }

  datatype Limits = Limits(platform: real, tenant: real, surface: real, endUser: real) {
    function Of(level: Level): real {
      match level
      case Platform => platform
      case Tenant => tenant
      case Surface => surface
      case EndUser => endUser
    }
  }

  /** Who is charged, and in which accounting window. */
  datatype Scope = Scope(prefix: string, tenant: string, surface: string, endUser: string, window: string)

  function LevelKey(level: Level, s: Scope): Key {
    match level
    case Platform => s.prefix + "platform:" + s.window
    case Tenant => s.prefix + "t:" + s.tenant + ":" + s.window
    case Surface => s.prefix + "t:" + s.tenant + ":s:" + s.surface + ":" + s.window
    case EndUser => s.prefix + "t:" + s.tenant + ":u:" + s.endUser + ":" + s.window
  }

  lemma PlatformApart(s: Scope, level: Level)
    requires level != Platform
    ensures LevelKey(level, s) != LevelKey(Platform, s)
  {
    var n := |s.prefix|;
    assert LevelKey(Platform, s)[n] == 'p';
    assert LevelKey(level, s)[n] == 't';
  }

  lemma TenantShorter(s: Scope, level: Level)
    requires level == Surface || level == EndUser
    ensures LevelKey(level, s) != LevelKey(Tenant, s)
  {
    assert |LevelKey(level, s)| > |LevelKey(Tenant, s)|;
  }

  lemma SurfaceApart(s: Scope)
    ensures LevelKey(Surface, s) != LevelKey(EndUser, s)
  {
    var head := s.prefix + "t:" + s.tenant + ":";
    assert LevelKey(Surface, s) == head + ("s:" + s.surface + ":" + s.window);
    assert LevelKey(EndUser, s) == head + ("u:" + s.endUser + ":" + s.window);
    assert LevelKey(Surface, s)[|head|] == 's';
    assert LevelKey(EndUser, s)[|head|] == 'u';
  }

  /** Two levels of one request never share a key, whatever the identifiers contain. */
  lemma LevelKeysDistinct(s: Scope, a: Level, b: Level)
    ensures LevelKey(a, s) == LevelKey(b, s) <==> a == b
  {
    if a != b {
      if a == Platform { PlatformApart(s, b); }
      else if b == Platform { PlatformApart(s, a); }
      else if a == Tenant { TenantShorter(s, b); }
      else if b == Tenant { TenantShorter(s, a); }
      else { SurfaceApart(s); }
    }
  }

  // ----- One request on its own ------------------------------------------------

  datatype Reservation = Reservation(est: real, keys: seq<Key>)

  datatype Outcome =
    | NoHold                                  // nothing to enforce: the source returns None
    | Held(reservation: Reservation)
    | Refused(level: Level)                   // GatewayQuotaExceeded

  /** The keys of the limited levels among the first `n`, in charging order. */
  function LimitedKeys(limits: Limits, s: Scope, n: nat): (keys: seq<Key>)
    requires n <= |LEVELS|
  {
    if n == 0 then []
    else if limits.Of(LEVELS[n - 1]) <= 0.0 then LimitedKeys(limits, s, n - 1)
    else LimitedKeys(limits, s, n - 1) + [LevelKey(LEVELS[n - 1], s)]
  }

  /** A level lets the request through when it is unlimited or has room for the estimate. */
  predicate Fits(store: Store, limits: Limits, s: Scope, level: Level, est: real) {
    var c := Read(store, LevelKey(level, s));
    limits.Of(level) <= 0.0 || c.spent + c.reserved + est <= limits.Of(level)
  }

  ghost predicate NonNegative(store: Store) {
    forall k :: k in store ==> store[k].reserved >= 0.0
  }

  /** Every key in `keys` carries `est` more reservation than before; nothing else differs. */
  ghost predicate ChargedBy(before: Store, after: Store, keys: seq<Key>, est: real) {
    forall k :: Read(after, k) ==
      if k in keys then Cell(Read(before, k).reserved + est, Read(before, k).spent) else Read(before, k)
  }

  ghost predicate SameReadings(before: Store, after: Store) {
    forall k :: Read(after, k) == Read(before, k)
  }

  lemma LimitedKeysOf(limits: Limits, s: Scope, n: nat, level: Level)
    requires n <= |LEVELS|
    ensures LevelKey(level, s) in LimitedKeys(limits, s, n) <==> level in LEVELS[..n] && limits.Of(level) > 0.0
  {
    if n > 0 {
      LimitedKeysOf(limits, s, n - 1, level);
      LevelKeysDistinct(s, level, LEVELS[n - 1]);
      assert LEVELS[..n] == LEVELS[..n - 1] + [LEVELS[n - 1]];
    }
  }

  lemma LimitedKeysUnique(limits: Limits, s: Scope, n: nat)
    requires n <= |LEVELS|
    ensures forall i, j :: 0 <= i < j < |LimitedKeys(limits, s, n)| ==>
              LimitedKeys(limits, s, n)[i] != LimitedKeys(limits, s, n)[j]
  {
    if n > 0 {
      LimitedKeysUnique(limits, s, n - 1);
      LimitedKeysOf(limits, s, n - 1, LEVELS[n - 1]);
    }
  }

  class QuotaService {
    var store: Store

    constructor ()
      ensures store == map[]
    {
      store := map[];
    }

    /**
     Charges the limited levels in order and undoes the charges made so far when
     one of them has no room. Success is decided by the state before the call, and
     a refusal leaves every level as it was.
     */
    method Reserve(limits: Limits, s: Scope, est: real) returns (r: Outcome)
      requires NonNegative(store)
      modifies this
      ensures NonNegative(store)
      ensures r.NoHold? <==> est <= 0.0
      ensures r.NoHold? ==> store == old(store)
      ensures forall k :: k !in LimitedKeys(limits, s, |LEVELS|) ==> Read(store, k) == Read(old(store), k)
      ensures r.Held? <==> est > 0.0 && forall level :: Fits(old(store), limits, s, level, est)
      ensures r.Held? ==>
                && r.reservation == Reservation(est, LimitedKeys(limits, s, |LEVELS|))
                && ChargedBy(old(store), store, r.reservation.keys, est)
      ensures r.Refused? ==>
                && SameReadings(old(store), store)
                && !Fits(old(store), limits, s, r.level, est)
                && forall level :: Rank(level) < Rank(r.level) ==> Fits(old(store), limits, s, level, est)
    {
      if est <= 0.0 {
        return NoHold;
      }
      var acquired: seq<Key> := [];
      var i := 0;
      while i < |LEVELS|
        invariant 0 <= i <= |LEVELS|
        invariant acquired == LimitedKeys(limits, s, i)
        invariant ChargedBy(old(store), store, acquired, est)
        invariant NonNegative(store)
        invariant forall level :: Rank(level) < i ==> Fits(old(store), limits, s, level, est)
      {
        var level := LEVELS[i];
        var limit := limits.Of(level);
        if limit > 0.0 {
          var key := LevelKey(level, s);
          LimitedKeysOf(limits, s, i, level);
          assert level !in LEVELS[..i];
          assert Read(store, key) == Read(old(store), key);
          var reply := ReserveScript(Read(store, key), limit, est);
          if !reply.ok {
            assert !Fits(old(store), limits, s, level, est);
            LimitedKeysUnique(limits, s, i);
            Uncharge(acquired, est, old(store));
            return Refused(level);
          }
          store := store[key := reply.cell];
          acquired := acquired + [key];
        }
        i := i + 1;
      }
      return Held(Reservation(est, acquired));
    }

    /** `_rollback`: reconcile every acquired key with an actual spend of zero. */
    method Uncharge(keys: seq<Key>, est: real, ghost before: Store)
      requires est > 0.0 && NonNegative(before)
      requires ChargedBy(before, store, keys, est)
      requires forall i, j :: 0 <= i < j < |keys| ==> keys[i] != keys[j]
      modifies this
      ensures SameReadings(before, store)
      ensures NonNegative(store)
    {
      var i := 0;
      while i < |keys|
        invariant 0 <= i <= |keys|
        invariant ChargedBy(before, store, keys[i..], est)
      {
        var k := keys[i];
        assert keys[i..] == [k] + keys[i + 1..];
        assert k !in keys[i + 1..];
        assert Read(before, k).reserved >= 0.0;
        store := store[k := ReconcileScript(Read(store, k), est, 0.0)];
        i := i + 1;
      }
      forall k | k in store ensures store[k].reserved >= 0.0 {
        assert Read(store, k) == Read(before, k);
      }
    }

    /** Moves a reservation into `spent`; `Release` is the same with nothing spent. */
    method Reconcile(r: Reservation, actual: real)
      requires forall i, j :: 0 <= i < j < |r.keys| ==> r.keys[i] != r.keys[j]
      modifies this
      ensures forall k :: Read(store, k) ==
                if k in r.keys then ReconcileScript(Read(old(store), k), r.est, actual) else Read(old(store), k)
    {
      var i := 0;
      while i < |r.keys|
        invariant 0 <= i <= |r.keys|
        invariant forall k :: Read(store, k) ==
                    if k in r.keys[..i] then ReconcileScript(Read(old(store), k), r.est, actual) else Read(old(store), k)
      {
        var k := r.keys[i];
        assert r.keys[..i + 1] == r.keys[..i] + [k];
        assert k !in r.keys[..i];
        store := store[k := ReconcileScript(Read(store, k), r.est, actual)];
        i := i + 1;
      }
      assert r.keys[..i] == r.keys;
    }

    /** Reserving and then releasing gives back exactly the state before, whatever the outcome. */
    method ReserveThenRelease(limits: Limits, s: Scope, est: real)
      requires NonNegative(store)
      modifies this
      ensures SameReadings(old(store), store)
    {
      var r := Reserve(limits, s, est);
      if r.Held? {
        LimitedKeysUnique(limits, s, |LEVELS|);
        Reconcile(r.reservation, 0.0);
      }
    }
  }
}
