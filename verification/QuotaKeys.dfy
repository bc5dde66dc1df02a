/** Which requests share a budget: the key formats across tenants, levels and windows. */
module QuotaKeys {
  import opened Text
  import opened Quota

  // ----- Texts joined by colons ---------------------------------------------------------------

  function Joined(fields: seq<string>): string
    requires fields != []
  {
    if |fields| == 1 then fields[0] else fields[0] + ":" + Joined(fields[1..])
  }

  predicate AllPlain(fields: seq<string>) {
    forall i :: 0 <= i < |fields| ==> ColonFree(fields[i])
  }

  lemma PlainIff(fields: seq<string>)
    requires fields != [] && AllPlain(fields)
    ensures ColonFree(Joined(fields)) <==> |fields| == 1
  {
    if |fields| > 1 { ColonAt(fields[0], Joined(fields[1..])); }
  }

  /** Fields without colons can be read back from their join. */
  lemma {:induction false} JoinedInjective(f: seq<string>, g: seq<string>)
    requires f != [] && g != [] && AllPlain(f) && AllPlain(g)
    ensures Joined(f) == Joined(g) <==> f == g
    decreases |f|
  {
    PlainIff(f);
    PlainIff(g);
    assert f == [f[0]] + f[1..] && g == [g[0]] + g[1..];
    if Joined(f) == Joined(g) && |f| > 1 {
      FirstColon(f[0], Joined(f[1..]), g[0], Joined(g[1..]));
      JoinedInjective(f[1..], g[1..]);
    }
  }

  // ----- Keys -----------------------------------------------------------------------------------

  /** What tells the keys of a level apart, as the key format lists it. */
  function Fields(level: Level, s: Scope): seq<string> {
    match level
    case Platform => ["platform", s.window]
    case Tenant => ["t", s.tenant, s.window]
    case Surface => ["t", s.tenant, "s", s.surface, s.window]
    case EndUser => ["t", s.tenant, "u", s.endUser, s.window]
  }

  predicate PlainScope(s: Scope) {
    ColonFree(s.tenant) && ColonFree(s.surface) && ColonFree(s.endUser) && ColonFree(s.window)
  }

  lemma Join2(a: string, b: string)
    ensures Joined([a, b]) == a + ":" + b
  {
    assert [a, b][1..] == [b];
  }

  lemma Join3(a: string, b: string, c: string)
    ensures Joined([a, b, c]) == a + ":" + (b + ":" + c)
  {
    assert [a, b, c][1..] == [b, c];
    Join2(b, c);
  }

  lemma Join5(a: string, b: string, c: string, d: string, e: string)
    ensures Joined([a, b, c, d, e]) == a + ":" + (b + ":" + (c + ":" + (d + ":" + e)))
  {
    assert [a, b, c, d, e][1..] == [b, c, d, e];
    assert [b, c, d, e][1..] == [c, d, e];
    Join3(c, d, e);
  }

  lemma KeyIsJoined(level: Level, s: Scope)
    ensures LevelKey(level, s) == s.prefix + Joined(Fields(level, s))
  {
    match level
    case Platform =>
      Join2("platform", s.window);
      assert LevelKey(level, s) == s.prefix + ("platform" + ":" + s.window);
    case Tenant =>
      Join3("t", s.tenant, s.window);
      assert LevelKey(level, s) == s.prefix + ("t" + ":" + (s.tenant + ":" + s.window));
    case Surface =>
      Join5("t", s.tenant, "s", s.surface, s.window);
      assert LevelKey(level, s) == s.prefix + ("t" + ":" + (s.tenant + ":" + ("s" + ":" + (s.surface + ":" + s.window))));
    case EndUser =>
      Join5("t", s.tenant, "u", s.endUser, s.window);
      assert LevelKey(level, s) == s.prefix + ("t" + ":" + (s.tenant + ":" + ("u" + ":" + (s.endUser + ":" + s.window))));
  }

  lemma SamePrefix(p: string, x: string, y: string)
    ensures p + x == p + y <==> x == y
  {
    if p + x == p + y {
      assert x == (p + x)[|p|..] && y == (p + y)[|p|..];
    }
  }

  /** The identifiers that a level's budget belongs to are the same. */
  predicate SameBudget(level: Level, s: Scope, t: Scope) {
    && s.window == t.window
    && (level != Platform ==> s.tenant == t.tenant)
    && (level == Surface ==> s.surface == t.surface)
    && (level == EndUser ==> s.endUser == t.endUser)
  }

  lemma SameFields(a: Level, s: Scope, b: Level, t: Scope)
    ensures Fields(a, s) == Fields(b, t) <==> a == b && SameBudget(a, s, t)
  {
    var f, g := Fields(a, s), Fields(b, t);
    if f == g {
      assert |f| == |g| && f[0] == g[0] && f[1] == g[1];
      if |f| == 5 {
        assert f[2] == g[2] && f[3] == g[3] && f[4] == g[4];
        assert "s"[0] != "u"[0];
      }
      if |f| == 3 { assert f[2] == g[2]; }
    }
  }

  lemma FieldsColonFree(level: Level, s: Scope)
    requires PlainScope(s)
    ensures AllPlain(Fields(level, s))
  {
  }

  /**
   Two requests share a key exactly when it is the same level of the same tenant, surface or
   end user in the same window, provided no identifier contains a colon.
   */
  lemma KeysEqualIff(a: Level, s: Scope, b: Level, t: Scope)
    requires s.prefix == t.prefix && PlainScope(s) && PlainScope(t)
    ensures LevelKey(a, s) == LevelKey(b, t) <==> a == b && SameBudget(a, s, t)
  {
    KeyIsJoined(a, s);
    KeyIsJoined(b, t);
    SamePrefix(s.prefix, Joined(Fields(a, s)), Joined(Fields(b, t)));
    FieldsColonFree(a, s);
    FieldsColonFree(b, t);
    JoinedInjective(Fields(a, s), Fields(b, t));
    SameFields(a, s, b, t);
  }

  /** Without that, a tenant can share a key with a surface of another tenant. */
  lemma ColonsCollide(prefix: string, tenant: string, surface: string, user: string, window: string)
    ensures
      LevelKey(Tenant, Scope(prefix, tenant + ":s:" + surface, surface, user, window)) ==
      LevelKey(Surface, Scope(prefix, tenant, surface, user, window))
  {
    var s := Scope(prefix, tenant + ":s:" + surface, surface, user, window);
    assert LevelKey(Tenant, s) == prefix + "t:" + tenant + ":s:" + surface + ":" + window;
  }

  // ----- What one request cannot touch --------------------------------------------------------

  /** A budget of another tenant, or of another window. */
  predicate Foreign(s: Scope, level: Level, t: Scope) {
    s.prefix == t.prefix && PlainScope(s) && PlainScope(t) && (s.window != t.window || (level != Platform && s.tenant != t.tenant))
  }

  lemma {:induction false} ForeignKeys(limits: Limits, s: Scope, n: nat, level: Level, t: Scope)
    requires n <= |LEVELS| && Foreign(s, level, t)
    ensures LevelKey(level, t) !in LimitedKeys(limits, s, n)
  {
    if n > 0 {
      ForeignKeys(limits, s, n - 1, level, t);
      KeysEqualIff(LEVELS[n - 1], s, level, t);
    }
  }

  /** Reserving for one scope leaves the readings and the room of every foreign budget as they were. */
  method ReserveElsewhere(q: QuotaService, limits: Limits, s: Scope, est: real) returns (r: Outcome)
    requires NonNegative(q.store)
    modifies q
    ensures NonNegative(q.store)
    ensures forall level, t :: Foreign(s, level, t) ==> Read(q.store, LevelKey(level, t)) == Read(old(q.store), LevelKey(level, t))
    ensures r.Held? <==> est > 0.0 && forall level :: Fits(old(q.store), limits, s, level, est)
    ensures r.Held? ==> r.reservation == Reservation(est, LimitedKeys(limits, s, |LEVELS|))
  {
    r := q.Reserve(limits, s, est);
    forall level, t | Foreign(s, level, t) ensures Read(q.store, LevelKey(level, t)) == Read(old(q.store), LevelKey(level, t)) {
      ForeignKeys(limits, s, |LEVELS|, level, t);
    }
  }

  /** So does settling its reservation. */
  method ReconcileElsewhere(q: QuotaService, limits: Limits, s: Scope, est: real, actual: real)
    modifies q
    ensures forall level, t :: Foreign(s, level, t) ==> Read(q.store, LevelKey(level, t)) == Read(old(q.store), LevelKey(level, t))
  {
    LimitedKeysUnique(limits, s, |LEVELS|);
    q.Reconcile(Reservation(est, LimitedKeys(limits, s, |LEVELS|)), actual);
    forall level, t | Foreign(s, level, t) ensures Read(q.store, LevelKey(level, t)) == Read(old(q.store), LevelKey(level, t)) {
      ForeignKeys(limits, s, |LEVELS|, level, t);
    }
  }

  /** With no platform limit, one tenant's reservation never decides another's. */
  method TwoTenants(q: QuotaService, limits: Limits, s: Scope, t: Scope, first: real, second: real) returns (a: Outcome, b: Outcome)
    requires NonNegative(q.store) && limits.platform <= 0.0
    requires s.prefix == t.prefix && PlainScope(s) && PlainScope(t) && s.tenant != t.tenant
    modifies q
    ensures a.Held? <==> first > 0.0 && forall level :: Fits(old(q.store), limits, s, level, first)
    ensures b.Held? <==> second > 0.0 && forall level :: Fits(old(q.store), limits, t, level, second)
  {
    a := ReserveElsewhere(q, limits, s, first);
    forall level ensures Fits(q.store, limits, t, level, second) <==> Fits(old(q.store), limits, t, level, second) {
      if level != Platform { assert Foreign(s, level, t); }
    }
    b := ReserveElsewhere(q, limits, t, second);
  }

  /** The four limits, level by level. */
  lemma FitsEach(store: Store, limits: Limits, s: Scope, est: real)
    ensures
      (forall level :: Fits(store, limits, s, level, est)) <==>
        && Room(Read(store, LevelKey(Platform, s)), limits.platform, est)
        && Room(Read(store, LevelKey(Tenant, s)), limits.tenant, est)
        && Room(Read(store, LevelKey(Surface, s)), limits.surface, est)
        && Room(Read(store, LevelKey(EndUser, s)), limits.endUser, est)
  {
    assert Fits(store, limits, s, Platform, est) <==> Room(Read(store, LevelKey(Platform, s)), limits.platform, est);
    assert Fits(store, limits, s, Tenant, est) <==> Room(Read(store, LevelKey(Tenant, s)), limits.tenant, est);
    assert Fits(store, limits, s, Surface, est) <==> Room(Read(store, LevelKey(Surface, s)), limits.surface, est);
    assert Fits(store, limits, s, EndUser, est) <==> Room(Read(store, LevelKey(EndUser, s)), limits.endUser, est);
  }

  predicate Room(c: Cell, limit: real, est: real) {
    limit <= 0.0 || c.spent + c.reserved + est <= limit
  }
}
