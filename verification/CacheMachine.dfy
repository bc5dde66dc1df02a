/**
 The semantic cache under interleaving: a store is one atomic step, purges and lookups
 take one step for each Redis command. Steps are numbered; a store stamps what it
 writes with its number.
 */
module CacheMachine {
  import opened Text
  import opened SemanticCache

  datatype Purge =
    | Deleting(ids: set<Id>)      // has read the index
    | Unindexing                  // the entries it read are deleted
    | Purged(at: nat)             // the index was deleted at step `at`

  datatype Phase =
    | Scanning(next: nat, best: Option<Id>)
    | TouchEntry(id: Id, e: Entry)
    | TouchIndex(e: Entry)
    | Finished(result: Option<Entry>)

  /** `candidates` is what the lookup read from the index at step `start`. */
  datatype Lookup = Lookup(start: nat, candidates: seq<Member>, phase: Phase)

  datatype World = World(step: nat, now: int, shelf: Shelf, purges: seq<Purge>, lookups: seq<Lookup>)

  const START := World(0, 0, EMPTY, [], [])

  datatype Config = Config(ttl: int, capacity: nat)

  datatype Step =
    | Store(id: Id, item: Item, score: real)
    | PurgeRead
    | PurgeEntries(p: nat)
    | PurgeIndex(p: nat)
    | LookupRead
    | LookupScan(l: nat, take: bool)         // whether a live candidate becomes the best so far
    | LookupFetch(l: nat)
    | LookupTouchEntry(l: nat)
    | LookupTouchIndex(l: nat)
    | Tick(ms: nat)

  predicate Enabled(w: World, e: Step) {
    match e
    case Store(_, _, _) => true
    case PurgeRead => true
    case PurgeEntries(p) => p < |w.purges| && w.purges[p].Deleting?
    case PurgeIndex(p) => p < |w.purges| && w.purges[p].Unindexing?
    case LookupRead => true
    case LookupScan(l, _) => l < |w.lookups| && w.lookups[l].phase.Scanning? && w.lookups[l].phase.next < |w.lookups[l].candidates|
    case LookupFetch(l) => l < |w.lookups| && w.lookups[l].phase.Scanning? && w.lookups[l].phase.next >= |w.lookups[l].candidates|
    case LookupTouchEntry(l) => l < |w.lookups| && w.lookups[l].phase.TouchEntry?
    case LookupTouchIndex(l) => l < |w.lookups| && w.lookups[l].phase.TouchIndex?
    case Tick(_) => true
  }

  function Reversed(ms: seq<Member>): seq<Member> {
    seq(|ms|, i requires 0 <= i < |ms| => ms[|ms| - 1 - i])
  }

  function Scanned(w: World, l: Lookup, take: bool): Lookup
    requires l.phase.Scanning? && l.phase.next < |l.candidates|
  {
    var c := l.candidates[l.phase.next];
    var best := if take && w.shelf.LiveEntry(c.id, w.now).Some? then Some(c.id) else l.phase.best;
    l.(phase := Scanning(l.phase.next + 1, best))
  }

  /** The best entry is read again; when it is gone by now, the lookup ends in its error path. */
  function Fetched(w: World, l: Lookup): Lookup
    requires l.phase.Scanning?
  {
    if l.phase.best == None || w.shelf.LiveEntry(l.phase.best.value, w.now) == None then l.(phase := Finished(None))
    else l.(phase := TouchEntry(l.phase.best.value, w.shelf.LiveEntry(l.phase.best.value, w.now).value))
  }

  function Effect(c: Config, w: World, e: Step): World
    requires Enabled(w, e)
  {
    match e
    case Store(id, item, score) =>
      w.(shelf := Stored(w.shelf, Member(id, score, w.step + 1), item, w.now, c.ttl, c.capacity))
    case PurgeRead =>
      var live := w.shelf.LiveIndex(w.now);
      w.(purges := w.purges + [if live == [] then Unindexing else Deleting(Ids(live))])
    case PurgeEntries(p) =>
      w.(shelf := EntriesDeleted(w.shelf, w.purges[p].ids), purges := w.purges[p := Unindexing])
    case PurgeIndex(p) =>
      w.(shelf := IndexDeleted(w.shelf), purges := w.purges[p := Purged(w.step + 1)])
    case LookupRead =>
      w.(lookups := w.lookups + [Lookup(w.step + 1, Reversed(w.shelf.LiveIndex(w.now)), Scanning(0, None))])
    case LookupScan(l, take) => w.(lookups := w.lookups[l := Scanned(w, w.lookups[l], take)])
    case LookupFetch(l) => w.(lookups := w.lookups[l := Fetched(w, w.lookups[l])])
    case LookupTouchEntry(l) =>
      w.(shelf := EntryTouched(w.shelf, w.lookups[l].phase.id, w.now, c.ttl),
         lookups := w.lookups[l := w.lookups[l].(phase := TouchIndex(w.lookups[l].phase.e))])
    case LookupTouchIndex(l) =>
      w.(shelf := IndexTouched(w.shelf, w.now, c.ttl),
         lookups := w.lookups[l := w.lookups[l].(phase := Finished(Some(w.lookups[l].phase.e)))])
    case Tick(ms) => w.(now := w.now + ms)
  }

  function Next(c: Config, w: World, e: Step): World
    requires Enabled(w, e)
  {
    Effect(c, w, e).(step := w.step + 1)
  }

  ghost predicate Runs(c: Config, w: World, es: seq<Step>)
    decreases |es|
  {
    es == [] || (Enabled(w, es[0]) && Runs(c, Next(c, w, es[0]), es[1..]))
  }

  function Run(c: Config, w: World, es: seq<Step>): World
    requires Runs(c, w, es)
    decreases |es|
  {
    if es == [] then w else Run(c, Next(c, w, es[0]), es[1..])
  }

  // ----- What every step keeps -----------------------------------------------------------------

  /** `stamp` is later than every purge that completed before step `bound`. */
  ghost predicate Fresh(purges: seq<Purge>, stamp: nat, bound: nat) {
    forall i :: 0 <= i < |purges| && purges[i].Purged? && purges[i].at < bound ==> purges[i].at < stamp
  }

  /** While the entry of an index member exists, it is the member's or a later one. */
  ghost predicate Backed(entries: map<Id, Entry>, m: Member) {
    m.id in entries ==> m.stamp <= entries[m.id].stamp
  }

  ghost predicate PurgesPast(w: World) {
    forall i :: 0 <= i < |w.purges| && w.purges[i].Purged? ==> w.purges[i].at <= w.step
  }

  ghost predicate MemberOk(w: World, m: Member, bound: nat) {
    Backed(w.shelf.entries, m) && m.stamp <= w.step && Fresh(w.purges, m.stamp, bound)
  }

  ghost predicate IndexOk(w: World) {
    forall m :: m in w.shelf.index ==> MemberOk(w, m, w.step + 1)
  }

  ghost predicate PhaseOk(w: World, l: Lookup) {
    match l.phase
    case Scanning(_, None) => true
    case Scanning(_, Some(id)) => exists m :: m in l.candidates && m.id == id
    case TouchEntry(_, e) => Fresh(w.purges, e.stamp, l.start)
    case TouchIndex(e) => Fresh(w.purges, e.stamp, l.start)
    case Finished(r) => r.Some? ==> Fresh(w.purges, r.value.stamp, l.start)
  }

  ghost predicate LookupOk(w: World, l: Lookup) {
    l.start <= w.step && (forall m :: m in l.candidates ==> MemberOk(w, m, l.start)) && PhaseOk(w, l)
  }

  ghost predicate Inv(w: World) {
    && Ranked(w.shelf.index)
    && PurgesPast(w) && IndexOk(w)
    && forall i :: 0 <= i < |w.lookups| ==> LookupOk(w, w.lookups[i])
  }

  /** A purge that completes now is later than every lookup that has started. */
  lemma FreshKept(c: Config, w: World, e: Step, stamp: nat, bound: nat)
    requires Enabled(w, e) && Fresh(w.purges, stamp, bound) && bound <= w.step + 1
    ensures Fresh(Next(c, w, e).purges, stamp, bound)
  {
  }

  lemma BackedKept(c: Config, w: World, e: Step, m: Member)
    requires Enabled(w, e) && Backed(w.shelf.entries, m) && m.stamp <= w.step
    ensures Backed(Next(c, w, e).shelf.entries, m)
  {
  }

  lemma MemberKept(c: Config, w: World, e: Step, m: Member, bound: nat)
    requires Enabled(w, e) && MemberOk(w, m, bound) && bound <= w.step + 1
    ensures MemberOk(Next(c, w, e), m, bound)
  {
    FreshKept(c, w, e, m.stamp, bound);
    BackedKept(c, w, e, m);
  }

  lemma PurgesKept(c: Config, w: World, e: Step)
    requires Enabled(w, e) && PurgesPast(w)
    ensures PurgesPast(Next(c, w, e))
  {
  }

  lemma IndexSources(c: Config, w: World, e: Step, m: Member)
    requires Enabled(w, e) && Ranked(w.shelf.index) && m in Next(c, w, e).shelf.index
    ensures (m in w.shelf.index && !e.PurgeIndex?) || (e.Store? && m == Member(e.id, e.score, w.step + 1))
  {
    if e.Store? {
      StoreBoundsIndex(w.shelf, Member(e.id, e.score, w.step + 1), e.item, w.now, c.ttl, c.capacity);
    }
  }

  lemma IndexKept(c: Config, w: World, e: Step)
    requires Enabled(w, e) && Ranked(w.shelf.index) && PurgesPast(w) && IndexOk(w)
    ensures IndexOk(Next(c, w, e))
  {
    var x := Next(c, w, e);
    PurgesKept(c, w, e);
    forall m | m in x.shelf.index ensures MemberOk(x, m, x.step + 1) {
      IndexSources(c, w, e, m);
      if m in w.shelf.index && !e.PurgeIndex? {
        MemberKept(c, w, e, m, w.step + 1);
        NoNewPurge(c, w, e, m.stamp);
      } else {
        NewMember(c, w, e);
      }
    }
  }

  lemma NoNewPurge(c: Config, w: World, e: Step, stamp: nat)
    requires Enabled(w, e) && !e.PurgeIndex? && PurgesPast(w) && Fresh(w.purges, stamp, w.step + 1)
    ensures Fresh(Next(c, w, e).purges, stamp, w.step + 2)
  {
  }

  lemma NewMember(c: Config, w: World, e: Step)
    requires Enabled(w, e) && e.Store? && PurgesPast(w)
    ensures MemberOk(Next(c, w, e), Member(e.id, e.score, w.step + 1), w.step + 2)
  {
  }

  lemma RankedKept(c: Config, w: World, e: Step)
    requires Enabled(w, e) && Ranked(w.shelf.index)
    ensures Ranked(Next(c, w, e).shelf.index)
  {
    if e.Store? {
      StoreBoundsIndex(w.shelf, Member(e.id, e.score, w.step + 1), e.item, w.now, c.ttl, c.capacity);
    } else {
      var index := Next(c, w, e).shelf.index;
      assert index == w.shelf.index || index == [];
    }
  }

  lemma CandidatesKept(c: Config, w: World, e: Step, l: Lookup)
    requires Enabled(w, e) && LookupOk(w, l)
    ensures forall m :: m in l.candidates ==> MemberOk(Next(c, w, e), m, l.start)
  {
    forall m | m in l.candidates ensures MemberOk(Next(c, w, e), m, l.start) { MemberKept(c, w, e, m, l.start); }
  }

  lemma PhaseKept(c: Config, w: World, e: Step, l: Lookup)
    requires Enabled(w, e) && LookupOk(w, l)
    ensures LookupOk(Next(c, w, e), l)
  {
    CandidatesKept(c, w, e, l);
    match l.phase
    case Scanning(_, _) =>
    case TouchEntry(_, x) => FreshKept(c, w, e, x.stamp, l.start);
    case TouchIndex(x) => FreshKept(c, w, e, x.stamp, l.start);
    case Finished(r) => if r.Some? { FreshKept(c, w, e, r.value.stamp, l.start); }
  }

  lemma ScanKept(w: World, l: Lookup, take: bool)
    requires LookupOk(w, l) && l.phase.Scanning? && l.phase.next < |l.candidates|
    ensures LookupOk(w, Scanned(w, l, take))
  {
    assert l.candidates[l.phase.next] in l.candidates;
  }

  lemma FetchKept(w: World, l: Lookup)
    requires LookupOk(w, l) && l.phase.Scanning?
    ensures LookupOk(w, Fetched(w, l))
  {
    if l.phase.best.Some? && w.shelf.LiveEntry(l.phase.best.value, w.now).Some? {
      var m :| m in l.candidates && m.id == l.phase.best.value;
      assert MemberOk(w, m, l.start);
    }
  }

  lemma StartKept(w: World)
    requires IndexOk(w) && PurgesPast(w)
    ensures LookupOk(w.(step := w.step + 1), Lookup(w.step + 1, Reversed(w.shelf.LiveIndex(w.now)), Scanning(0, None)))
  {
    var l := Lookup(w.step + 1, Reversed(w.shelf.LiveIndex(w.now)), Scanning(0, None));
    forall m | m in l.candidates ensures MemberOk(w.(step := w.step + 1), m, w.step + 1) {
      assert m in w.shelf.index;
      assert MemberOk(w, m, w.step + 1);
    }
  }

  /** A lookup after a step is a new one, an unchanged one, or one that took a step of its own. */
  lemma LookupKept(c: Config, w: World, e: Step, i: nat)
    requires Inv(w) && Enabled(w, e) && i < |Next(c, w, e).lookups|
    ensures LookupOk(Next(c, w, e), Next(c, w, e).lookups[i])
  {
    var x := Next(c, w, e);
    if i == |w.lookups| {
      StartKept(w);
    } else {
      var l := w.lookups[i];
      assert LookupOk(w, l);
      if e.LookupScan? && e.l == i {
        ScanKept(w, l, e.take);
      } else if e.LookupFetch? && e.l == i {
        FetchKept(w, l);
      }
      assert LookupOk(w, x.lookups[i]);
      PhaseKept(c, w, e, x.lookups[i]);
    }
  }

  lemma InvKept(c: Config, w: World, e: Step)
    requires Inv(w) && Enabled(w, e)
    ensures Inv(Next(c, w, e))
  {
    RankedKept(c, w, e);
    PurgesKept(c, w, e);
    IndexKept(c, w, e);
    forall i | 0 <= i < |Next(c, w, e).lookups| ensures LookupOk(Next(c, w, e), Next(c, w, e).lookups[i]) {
      LookupKept(c, w, e, i);
    }
  }

  lemma {:induction false} RunKeepsInv(c: Config, w: World, es: seq<Step>)
    requires Inv(w) && Runs(c, w, es)
    ensures Inv(Run(c, w, es))
    decreases |es|
  {
    if es != [] {
      InvKept(c, w, es[0]);
      RunKeepsInv(c, Next(c, w, es[0]), es[1..]);
    }
  }

  // ----- Main result ---------------------------------------------------------------------------

  /**
   Whatever else runs, a lookup that starts after a purge has completed returns nothing
   that was stored before the purge completed, whichever candidate it prefers and in spite
   of entries left behind by trimming, by the expiry of the index or by a racing store.
   */
  lemma PurgedIsGone(c: Config, es: seq<Step>, l: nat, p: nat)
    requires Runs(c, START, es)
    ensures
      var w := Run(c, START, es);
      l < |w.lookups| && p < |w.purges| && w.purges[p].Purged? && w.purges[p].at < w.lookups[l].start &&
      w.lookups[l].phase.Finished? && w.lookups[l].phase.result.Some? ==>
        w.purges[p].at < w.lookups[l].phase.result.value.stamp
  {
    RunKeepsInv(c, START, es);
    var w := Run(c, START, es);
    if l < |w.lookups| { assert LookupOk(w, w.lookups[l]); }
  }
}
