/** How long a stored answer can be found. */
module CacheLife {
  import opened Text
  import opened SemanticCache

  /** A stored entry lives until its time to live has passed; the store changes no other entry. */
  lemma EntryLives(s: Shelf, m: Member, item: Item, now: int, ttl: int, capacity: nat, t: int)
    ensures
      var e := Stored(s, m, item, now, ttl, capacity).LiveEntry(m.id, t);
      && (e.Some? <==> t < now + ttl)
      && (e.Some? ==> e.value.item == item && e.value.stamp == m.stamp)
    ensures forall id :: id != m.id ==> Stored(s, m, item, now, ttl, capacity).LiveEntry(id, t) == s.LiveEntry(id, t)
  {
  }

  /** `m` ranks behind every other live member. */
  ghost predicate RanksLast(s: Shelf, m: Member, now: int) {
    forall x :: x in s.LiveIndex(now) && x.id != m.id ==> Ranks(x, m)
  }

  /** The index in use has no time to live that ends by `t`. */
  predicate IndexOutlives(s: Shelf, now: int, t: int) {
    s.LiveIndex(now) == [] || s.indexExpires.None? || t < s.indexExpires.value
  }

  /** A new member that ranks last is the last of the index, whatever gives way to it. */
  lemma NewIsLast(s: Shelf, m: Member, item: Item, now: int, ttl: int, capacity: nat)
    requires Ranked(s.index) && RanksLast(s, m, now) && capacity > 0
    ensures var index := Stored(s, m, item, now, ttl, capacity).index; index != [] && index[|index| - 1] == m
  {
    var live := s.LiveIndex(now);
    WithoutKeeps(live, m.id);
    var others := Without(live, m.id);
    if others != [] {
      var x := others[|others| - 1];
      assert x in live && x.id != m.id && Ranks(x, m);
    }
    assert Added(live, m) == others + [m];
  }

  /** No other indexed entry that is live at `t` is closer to the query than `top`. */
  ghost predicate NoneCloser(s: Shelf, id: Id, t: int, sim: Similarity, top: real) {
    forall x :: x in s.index && x.id != id && s.LiveEntry(x.id, t).Some? ==> sim(s.LiveEntry(x.id, t).value.item.vector) <= top
  }

  lemma NewQualifies(s: Shelf, m: Member, item: Item, now: int, ttl: int, capacity: nat, t: int, sim: Similarity, threshold: real)
    requires Ranked(s.index) && RanksLast(s, m, now) && capacity > 0
    requires now <= t < now + ttl && IndexOutlives(s, now, t) && sim(item.vector) >= threshold
    ensures
      var after := Stored(s, m, item, now, ttl, capacity);
      var last := |after.index| - 1;
      && after.LiveIndex(t) == after.index
      && Qualifies(after, last, t, sim, threshold)
      && after.index[last] == m
      && ScoreAt(after, last, t, sim) == sim(item.vector)
  {
    NewIsLast(s, m, item, now, ttl, capacity);
    EntryLives(s, m, item, now, ttl, capacity, t);
  }

  lemma NewIsBest(s: Shelf, m: Member, item: Item, now: int, ttl: int, capacity: nat, t: int, sim: Similarity, threshold: real)
    requires Ranked(s.index) && RanksLast(s, m, now) && capacity > 0
    requires now <= t < now + ttl && IndexOutlives(s, now, t) && sim(item.vector) >= threshold
    requires NoneCloser(s, m.id, t, sim, sim(item.vector))
    ensures
      var after := Stored(s, m, item, now, ttl, capacity);
      forall best :: IsBest(after, best, 0, t, sim, threshold) ==> best == Some(|after.index| - 1)
  {
    var after := Stored(s, m, item, now, ttl, capacity);
    NewQualifies(s, m, item, now, ttl, capacity, t, sim, threshold);
    StoreBoundsIndex(s, m, item, now, ttl, capacity);
    EntryLives(s, m, item, now, ttl, capacity, t);
    var last := |after.index| - 1;
    forall i | 0 <= i && Qualifies(after, i, t, sim, threshold) ensures ScoreAt(after, i, t, sim) <= sim(item.vector) {
      var x := after.index[i];
      assert x in after.index;
    }
    forall best | IsBest(after, best, 0, t, sim, threshold) ensures best == Some(last) {
      assert best.Some?;
    }
  }

  /**
   A store and a lookup within its time to live, with nothing in between. The stored
   answer is found unless the index itself has lapsed, since a store does not renew the
   index; it is the answer given when nothing else is closer.
   */
  method StoreThenFind(c: Cache, m: Member, item: Item, now: int, sim: Similarity, t: int) returns (r: Option<string>)
    requires c.Valid() && c.capacity > 0 && RanksLast(c.shelf, m, now)
    requires now <= t < now + c.ttl && sim(item.vector) >= c.threshold
    modifies c
    ensures c.Valid()
    ensures r.Some? <==> IndexOutlives(old(c.shelf), now, t)
    ensures r.Some? && NoneCloser(old(c.shelf), m.id, t, sim, sim(item.vector)) ==> r == Some(item.answer)
  {
    ghost var s := c.shelf;
    c.Store(m, item, now);
    NewIsLast(s, m, item, now, c.ttl, c.capacity);
    ghost var after := c.shelf;
    ghost var best;
    r, best := c.FindSimilar(sim, t);
    if IndexOutlives(s, now, t) {
      NewQualifies(s, m, item, now, c.ttl, c.capacity, t, sim, c.threshold);
      if NoneCloser(s, m.id, t, sim, sim(item.vector)) {
        NewIsBest(s, m, item, now, c.ttl, c.capacity, t, sim, c.threshold);
      }
    }
  }

  /** A hit keeps the entry it found and the index for another time to live, and touches nothing else. */
  lemma HitExtends(s: Shelf, id: Id, now: int, ttl: int, t: int)
    requires s.LiveEntry(id, now).Some? && s.LiveIndex(now) != []
    ensures
      var after := IndexTouched(EntryTouched(s, id, now, ttl), now, ttl);
      && after.index == s.index
      && (after.LiveEntry(id, t).Some? <==> t < now + ttl)
      && (after.LiveEntry(id, t).Some? ==> after.LiveEntry(id, t).value.item == s.entries[id].item)
      && (after.LiveIndex(t) != [] <==> t < now + ttl)
      && forall other :: other != id ==> after.LiveEntry(other, t) == s.LiveEntry(other, t)
  {
  }

  // ----- Whose keys ---------------------------------------------------------------------------

  function IndexKey(prefix: string, tenant: string): string {
    prefix + tenant + ":index"
  }

  function EntryKey(prefix: string, tenant: string, id: string): string {
    prefix + tenant + ":entry:" + id
  }

  lemma KeyTail(prefix: string, tenant: string, rest: string)
    ensures (prefix + tenant + ":" + rest)[|prefix|..] == tenant + ":" + rest
  {
  }

  lemma TailsEqual(prefix: string, tenant: string, rest: string, other: string, rest': string)
    requires ColonFree(tenant) && ColonFree(other)
    ensures prefix + tenant + ":" + rest == prefix + other + ":" + rest' <==> tenant == other && rest == rest'
  {
    if prefix + tenant + ":" + rest == prefix + other + ":" + rest' {
      KeyTail(prefix, tenant, rest);
      KeyTail(prefix, other, rest');
      FirstColon(tenant, rest, other, rest');
    }
  }

  lemma KeyForms(prefix: string, tenant: string, id: string)
    ensures IndexKey(prefix, tenant) == prefix + tenant + ":" + "index"
    ensures EntryKey(prefix, tenant, id) == prefix + tenant + ":" + ("entry:" + id)
    ensures "entry:" + id != "index" && ("entry:" + id)[6..] == id
  {
    assert ("entry:" + id)[0] == 'e';
  }

  /** With tenant ids that hold no colon, tenants share neither an index nor an entry. */
  lemma TenantsAreApart(prefix: string, tenant: string, id: string, other: string, id': string)
    requires ColonFree(tenant) && ColonFree(other)
    ensures IndexKey(prefix, tenant) == IndexKey(prefix, other) <==> tenant == other
    ensures EntryKey(prefix, tenant, id) == EntryKey(prefix, other, id') <==> tenant == other && id == id'
    ensures IndexKey(prefix, tenant) != EntryKey(prefix, other, id')
  {
    KeyForms(prefix, tenant, id);
    KeyForms(prefix, other, id');
    TailsEqual(prefix, tenant, "index", other, "index");
    TailsEqual(prefix, tenant, "entry:" + id, other, "entry:" + id');
    TailsEqual(prefix, tenant, "index", other, "entry:" + id');
  }
}
