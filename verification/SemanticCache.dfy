/**
 The semantic cache of one tenant: entries that expire, and an index ordered by store
 time. The first 16 hex digits of the query's hash are the id. Every stored entry and
 index member carries the number of the store that wrote it.
 */
module SemanticCache {
  import opened Text
  import opened Sorting

  type Id = nat

  datatype Item = Item(vector: seq<real>, answer: string)

  datatype Entry = Entry(item: Item, expires: int, stamp: nat)

  datatype Member = Member(id: Id, score: real, stamp: nat)

  /** `index` is in rank order, lowest first; it has a time to live only after a hit. */
  datatype Shelf = Shelf(entries: map<Id, Entry>, index: seq<Member>, indexExpires: Option<int>) {
    function LiveIndex(now: int): seq<Member> {
      if indexExpires.Some? && indexExpires.value <= now then [] else index
    }

    function LiveEntry(id: Id, now: int): Option<Entry> {
      if id in entries && now < entries[id].expires then Some(entries[id]) else None
    }
  }

  const EMPTY := Shelf(map[], [], None)

  predicate Ranks(a: Member, b: Member) {
    a.score < b.score || (a.score == b.score && a.id < b.id)
  }

  function Without(ms: seq<Member>, id: Id): seq<Member> {
    if ms == [] then []
    else Without(ms[..|ms| - 1], id) + (if ms[|ms| - 1].id == id then [] else [ms[|ms| - 1]])
  }

  /** ZADD. */
  function Added(ms: seq<Member>, m: Member): seq<Member> {
    Insert(Without(ms, m.id), m, Ranks)
  }

  /** ZREMRANGEBYRANK 0 to -capacity - 1. */
  function Trimmed(ms: seq<Member>, capacity: nat): seq<Member> {
    if |ms| > capacity then ms[|ms| - capacity..] else ms
  }

  /** The transaction of `store`. */
  function Stored(s: Shelf, m: Member, item: Item, now: int, ttl: int, capacity: nat): Shelf {
    var live := s.LiveIndex(now);
    Shelf(s.entries[m.id := Entry(item, now + ttl, m.stamp)], Trimmed(Added(live, m), capacity),
          if live == [] then None else s.indexExpires)
  }

  function Ids(ms: seq<Member>): set<Id> {
    set m | m in ms :: m.id
  }

  function EntriesDeleted(s: Shelf, ids: set<Id>): Shelf {
    s.(entries := s.entries - ids)
  }

  function IndexDeleted(s: Shelf): Shelf {
    s.(index := [], indexExpires := None)
  }

  function EntryTouched(s: Shelf, id: Id, now: int, ttl: int): Shelf {
    if s.LiveEntry(id, now).Some? then s.(entries := s.entries[id := s.entries[id].(expires := now + ttl)]) else s
  }

  function IndexTouched(s: Shelf, now: int, ttl: int): Shelf {
    if s.LiveIndex(now) == [] then s else s.(indexExpires := Some(now + ttl))
  }

  // ----- The index after a store ---------------------------------------------------------------

  /** Each id once, in rank order. */
  ghost predicate Ranked(ms: seq<Member>) {
    Ordered(ms, Ranks) && forall a, b :: a in ms && b in ms && a.id == b.id ==> a == b
  }

  lemma {:induction false} WithoutKeeps(ms: seq<Member>, id: Id)
    requires Ordered(ms, Ranks)
    ensures Ordered(Without(ms, id), Ranks)
    ensures forall m :: m in Without(ms, id) <==> m in ms && m.id != id
  {
    if ms != [] {
      var front, last := ms[..|ms| - 1], ms[|ms| - 1];
      assert ms == front + [last];
      OrderedSplit(front, last, Ranks);
      WithoutKeeps(front, id);
      if last.id != id { OrderedSnoc(Without(front, id), last, Ranks); }
    }
  }

  lemma AddedKeeps(ms: seq<Member>, x: Member)
    requires Ranked(ms)
    ensures Ranked(Added(ms, x))
    ensures forall m :: m in Added(ms, x) <==> m == x || (m in ms && m.id != x.id)
  {
    WithoutKeeps(ms, x.id);
    InsertOrdered(Without(ms, x.id), x, Ranks);
  }

  lemma TrimmedKeeps(ms: seq<Member>, capacity: nat)
    requires Ranked(ms)
    ensures Ranked(Trimmed(ms, capacity)) && |Trimmed(ms, capacity)| <= capacity
    ensures forall m :: m in Trimmed(ms, capacity) ==> m in ms
    ensures forall a, b :: a in ms && a !in Trimmed(ms, capacity) && b in Trimmed(ms, capacity) ==> Ranks(a, b)
    ensures |ms| <= capacity || |Trimmed(ms, capacity)| == capacity
  {
    var t := Trimmed(ms, capacity);
    forall a, b | a in ms && a !in t && b in t ensures Ranks(a, b) {
      var i :| 0 <= i < |ms| && ms[i] == a;
      var j :| 0 <= j < |t| && t[j] == b;
      var d := |ms| - |t|;
      assert i < d;
      assert t[j] == ms[d + j];
    }
  }

  /**
   After a store the index holds the new member and the old ones, each id once, except
   that the lowest ranks give way once the capacity is exceeded.
   */
  lemma StoreBoundsIndex(s: Shelf, m: Member, item: Item, now: int, ttl: int, capacity: nat)
    requires Ranked(s.index)
    ensures
      var live, index := s.LiveIndex(now), Stored(s, m, item, now, ttl, capacity).index;
      && Ranked(index) && |index| <= capacity
      && (forall x :: x in index ==> x == m || (x in live && x.id != m.id))
      && (forall x, y :: (x == m || (x in live && x.id != m.id)) && x !in index && y in index ==> Ranks(x, y))
      && (forall x :: (x == m || (x in live && x.id != m.id)) && x !in index ==> |index| == capacity)
  {
    var live := s.LiveIndex(now);
    AddedKeeps(live, m);
    TrimmedKeeps(Added(live, m), capacity);
  }

  // ----- Looking up --------------------------------------------------------------------------------

  /** The similarity of the query to a stored vector. */
  type Similarity = seq<real> -> real

  /** The indexed entry at rank `i` is live and similar enough. */
  predicate Qualifies(s: Shelf, i: int, now: int, sim: Similarity, threshold: real) {
    0 <= i < |s.LiveIndex(now)| &&
    var e := s.LiveEntry(s.LiveIndex(now)[i].id, now);
    e.Some? && sim(e.value.item.vector) >= threshold
  }

  function ScoreAt(s: Shelf, i: int, now: int, sim: Similarity): real
    requires 0 <= i < |s.LiveIndex(now)| && s.LiveEntry(s.LiveIndex(now)[i].id, now).Some?
  {
    sim(s.LiveEntry(s.LiveIndex(now)[i].id, now).value.item.vector)
  }

  /** The best qualifying rank; among equals the newest. */
  ghost predicate IsBest(s: Shelf, best: Option<nat>, from: nat, now: int, sim: Similarity, threshold: real) {
    match best
    case None => forall i :: from <= i ==> !Qualifies(s, i, now, sim, threshold)
    case Some(b) =>
      && from <= b && Qualifies(s, b, now, sim, threshold)
      && forall i :: from <= i && Qualifies(s, i, now, sim, threshold) ==>
           ScoreAt(s, i, now, sim) < ScoreAt(s, b, now, sim) || (ScoreAt(s, i, now, sim) == ScoreAt(s, b, now, sim) && i <= b)
  }

  /** The scan of `find_similar`, newest first. */
  method FindBest(s: Shelf, now: int, sim: Similarity, threshold: real) returns (best: Option<nat>)
    ensures IsBest(s, best, 0, now, sim, threshold)
  {
    var candidates := s.LiveIndex(now);
    best := None;
    var i := |candidates|;
    while i > 0
      invariant 0 <= i <= |candidates|
      invariant IsBest(s, best, i, now, sim, threshold)
    {
      i := i - 1;
      var e := s.LiveEntry(candidates[i].id, now);
      if e.Some? {
        var score := sim(e.value.item.vector);
        if score >= threshold && (best.None? || score > ScoreAt(s, best.value, now, sim)) {
          best := Some(i);
        }
      }
    }
  }

  class Cache {
    const ttl: int
    const capacity: nat
    const threshold: real
    var shelf: Shelf

    ghost predicate Valid()
      reads this
    {
      Ranked(shelf.index)
    }

    constructor (ttl: int, capacity: nat, threshold: real)
      ensures Valid() && shelf == EMPTY && this.ttl == ttl && this.capacity == capacity && this.threshold == threshold
    {
      this.ttl, this.capacity, this.threshold, shelf := ttl, capacity, threshold, EMPTY;
    }

    method Store(m: Member, item: Item, now: int)
      requires Valid()
      modifies this
      ensures Valid() && |shelf.index| <= capacity
      ensures shelf == Stored(old(shelf), m, item, now, ttl, capacity)
    {
      StoreBoundsIndex(shelf, m, item, now, ttl, capacity);
      shelf := Stored(shelf, m, item, now, ttl, capacity);
    }

    /** With no other client between its steps, a purge leaves nothing to find. */
    method PurgeTenant(now: int) returns (count: nat)
      requires Valid()
      modifies this
      ensures Valid() && shelf.index == [] && count == |old(shelf).LiveIndex(now)|
      ensures shelf.entries == old(shelf.entries) - Ids(old(shelf).LiveIndex(now))
    {
      var members := shelf.LiveIndex(now);
      if members != [] {
        shelf := EntriesDeleted(shelf, Ids(members));
      }
      shelf := IndexDeleted(shelf);
      count := |members|;
    }

    /** With no other client between its steps, the answer is that of the best live entry. */
    method FindSimilar(sim: Similarity, now: int) returns (r: Option<string>, ghost best: Option<nat>)
      requires Valid()
      modifies this
      ensures Valid() && IsBest(old(shelf), best, 0, now, sim, threshold)
      ensures best == None ==> r == None && shelf == old(shelf)
      ensures best.Some? ==>
                var id := old(shelf).LiveIndex(now)[best.value].id;
                && r == Some(old(shelf).entries[id].item.answer)
                && shelf == IndexTouched(EntryTouched(old(shelf), id, now, ttl), now, ttl)
    {
      var b := FindBest(shelf, now, sim, threshold);
      best := b;
      if b == None {
        return None, best;
      }
      var id := shelf.LiveIndex(now)[b.value].id;
      r := Some(shelf.entries[id].item.answer);
      shelf := EntryTouched(shelf, id, now, ttl);
      shelf := IndexTouched(shelf, now, ttl);
    }
  }
}
