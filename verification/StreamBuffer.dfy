/** The server-side chunk buffer behind `Last-Event-ID` replay. */
module StreamBuffer {
  import opened Sorting
  import opened Client

  /** One buffered event; only a `delta` has text that the widget shows. */
  datatype Record = Record(id: nat, event: string, payload: Payload)

  predicate Ascending(rs: seq<Record>) {
    forall i, j :: 0 <= i < j < |rs| ==> rs[i].id < rs[j].id
  }

  /** The records with an id above `after`, in order. */
  function Newer(rs: seq<Record>, after: int): seq<Record> {
    if rs == [] then []
    else Newer(rs[..|rs| - 1], after) + (if rs[|rs| - 1].id > after then [rs[|rs| - 1]] else [])
  }

  predicate Earlier(a: Record, b: Record) {
    a.id < b.id
  }

  predicate Knows(rs: seq<Record>, id: nat) {
    exists i :: 0 <= i < |rs| && rs[i].id == id
  }

  /** `setdefault` over the hot records, after the overflow rows. */
  function Merge(seen: seq<Record>, hot: seq<Record>): seq<Record> {
    if hot == [] then seen
    else
      var m := Merge(seen, hot[..|hot| - 1]);
      if Knows(m, hot[|hot| - 1].id) then m else m + [hot[|hot| - 1]]
  }

  lemma {:induction false} NewerConcat(a: seq<Record>, b: seq<Record>, after: int)
    ensures Newer(a + b, after) == Newer(a, after) + Newer(b, after)
  {
    if b == [] {
      assert a + b == a;
    } else {
      NewerConcat(a, b[..|b| - 1], after);
      assert (a + b)[..|a + b| - 1] == a + b[..|b| - 1];
    }
  }

  /** The newer part of an ascending log is a suffix of it. */
  lemma {:induction false} NewerIsSuffix(rs: seq<Record>, after: int, n: nat)
    requires n <= |rs|
    requires forall i :: 0 <= i < |rs| ==> (rs[i].id > after <==> i >= n)
    ensures Newer(rs, after) == rs[n..]
  {
    if rs != [] {
      var last := |rs| - 1;
      assert forall i :: 0 <= i < last ==> rs[..last][i] == rs[i];
      NewerIsSuffix(rs[..last], after, if n == |rs| then last else n);
      SuffixSnoc(rs, n);
    }
  }

  lemma SuffixSnoc(rs: seq<Record>, n: nat)
    requires rs != [] && n <= |rs|
    ensures n == |rs| ==> rs[..|rs| - 1][|rs| - 1..] + [] == rs[n..]
    ensures n < |rs| ==> rs[..|rs| - 1][n..] + [rs[|rs| - 1]] == rs[n..]
  {
  }

  lemma {:induction false} NewerMembers(rs: seq<Record>, after: int, r: Record)
    ensures r in Newer(rs, after) <==> r in rs && r.id > after
  {
    if rs != [] {
      NewerMembers(rs[..|rs| - 1], after, r);
      assert rs == rs[..|rs| - 1] + [rs[|rs| - 1]];
    }
  }

  lemma {:induction false} NewerAscending(rs: seq<Record>, after: int)
    requires Ascending(rs)
    ensures Ascending(Newer(rs, after))
  {
    if rs != [] {
      var n := |rs| - 1;
      NewerAscending(rs[..n], after);
      forall i | 0 <= i < |Newer(rs[..n], after)| ensures Newer(rs[..n], after)[i].id < rs[n].id {
        var r := Newer(rs[..n], after)[i];
        NewerMembers(rs[..n], after, r);
        var k :| 0 <= k < n && rs[..n][k] == r;
        assert rs[k] == r;
      }
    }
  }

  lemma {:induction false} SortKeepsAscending(rs: seq<Record>)
    requires Ascending(rs)
    ensures Sort(rs, Earlier) == rs
  {
    if rs != [] {
      var n := |rs| - 1;
      SortKeepsAscending(rs[..n]);
      assert rs[..n] + [rs[n]] == rs;
    }
  }

  lemma {:induction false} MergeDisjoint(seen: seq<Record>, hot: seq<Record>)
    requires Ascending(seen + hot)
    ensures Merge(seen, hot) == seen + hot
  {
    if hot != [] {
      var n := |hot| - 1;
      var all := seen + hot;
      assert all[..|all| - 1] == seen + hot[..n];
      MergeDisjoint(seen, hot[..n]);
      assert forall i :: 0 <= i < |all| - 1 ==> (seen + hot[..n])[i] == all[i];
      assert all[|all| - 1] == hot[n];
      assert (seen + hot[..n]) + [hot[n]] == seen + hot;
    }
  }

  /** The hot list and the overflow rows of one stream. */
  datatype Tiers = Tiers(hot: seq<Record>, overflow: seq<Record>) {
    function Log(): seq<Record> {
      overflow + hot
    }
  }

  /** A new record goes to the hot list; the oldest beyond the cap spill, or are lost without an overflow table. */
  function Push(t: Tiers, r: Record, durable: bool, cap: nat): Tiers {
    var all := t.hot + [r];
    if cap > 0 && |all| > cap then
      var excess := |all| - cap;
      Tiers(all[excess..], if durable then t.overflow + all[..excess] else t.overflow)
    else Tiers(all, t.overflow)
  }

  /** Spilling loses nothing: the log grows by exactly the new record. */
  lemma {:induction false} PushKeepsLog(t: Tiers, r: Record, durable: bool, cap: nat)
    requires durable || cap == 0
    ensures Push(t, r, durable, cap).Log() == t.Log() + [r]
    ensures cap > 0 ==> |Push(t, r, durable, cap).hot| <= cap
  {
    var all := t.hot + [r];
    if cap > 0 && |all| > cap {
      var excess := |all| - cap;
      assert all[..excess] + all[excess..] == all;
      Three(t.overflow, all[..excess], all[excess..]);
    }
    Three(t.overflow, t.hot, [r]);
  }

  lemma Three(x: seq<Record>, y: seq<Record>, z: seq<Record>)
    ensures x + y + z == x + (y + z)
  {
  }

  /** Without an overflow table the hot list is the newest part of what was sent. */
  lemma PushWithoutTable(t: Tiers, r: Record, cap: nat)
    requires t.overflow == []
    ensures Push(t, r, false, cap).overflow == []
    ensures
      var all := t.Log() + [r];
      exists k: nat :: k <= |all| && Push(t, r, false, cap).Log() == all[k..]
  {
    var all := t.hot + [r];
    assert t.Log() + [r] == all;
    var k := if cap > 0 && |all| > cap then |all| - cap else 0;
    assert Push(t, r, false, cap).Log() == all[k..];
  }

  lemma AscendingSnoc(rs: seq<Record>, r: Record)
    requires Ascending(rs) && forall i :: 0 <= i < |rs| ==> rs[i].id < r.id
    ensures Ascending(rs + [r])
  {
  }

  lemma AscendingSuffix(rs: seq<Record>, k: nat)
    requires Ascending(rs) && k <= |rs|
    ensures Ascending(rs[k..])
  {
  }

  /** What `replay` collects before sorting. */
  function Collect(t: Tiers, redis: bool, after: int): seq<Record> {
    Merge(Newer(t.overflow, after), if redis then t.hot else Newer(t.hot, after))
  }

  function ReplayOf(t: Tiers, redis: bool, after: int): seq<Record> {
    Sort(Collect(t, redis, after), Earlier)
  }

  /** The process-memory tier replays exactly the newer records, whatever has spilled. */
  lemma MemoryReplay(t: Tiers, after: int)
    requires Ascending(t.Log())
    ensures ReplayOf(t, false, after) == Newer(t.Log(), after)
  {
    MergedAscending(t.overflow, t.hot, after);
    MergeDisjoint(Newer(t.overflow, after), Newer(t.hot, after));
    NewerConcat(t.overflow, t.hot, after);
    SortKeepsAscending(Newer(t.overflow, after) + Newer(t.hot, after));
  }

  /** The Redis tier replays its whole list. */
  lemma RedisReplay(t: Tiers, after: int)
    requires Ascending(t.Log())
    ensures ReplayOf(t, true, after) == Newer(t.overflow, after) + t.hot
  {
    MergedAscending(t.overflow, t.hot, after);
    MergeDisjoint(Newer(t.overflow, after), t.hot);
    SortKeepsAscending(Newer(t.overflow, after) + t.hot);
  }

  /**
   The documented replay, ids strictly greater than `after`, is met exactly when the hot
   tier is process memory or holds nothing the client already saw.
   */
  lemma ReplayIff(t: Tiers, redis: bool, after: int)
    requires Ascending(t.Log())
    ensures ReplayOf(t, redis, after) == Newer(t.Log(), after) <==>
              !redis || forall i :: 0 <= i < |t.hot| ==> t.hot[i].id > after
  {
    if redis {
      RedisReplay(t, after);
      NewerConcat(t.overflow, t.hot, after);
      if forall i :: 0 <= i < |t.hot| ==> t.hot[i].id > after {
        NewerAll(t.hot, after);
      } else {
        NewerSome(t.hot, after);
        Longer(Newer(t.overflow, after), t.hot, Newer(t.hot, after));
      }
    } else {
      MemoryReplay(t, after);
    }
  }

  lemma Longer(x: seq<Record>, y: seq<Record>, z: seq<Record>)
    requires |y| != |z|
    ensures x + y != x + z
  {
    assert |x + y| != |x + z|;
  }

  /** Ids increase through the log and stay within what has been handed out. */
  ghost predicate WellKept(t: Tiers, lastId: nat, durable: bool) {
    && Ascending(t.Log())
    && AtMost(t.Log(), lastId)
    && (!durable ==> t.overflow == [])
  }

  ghost predicate AtMost(rs: seq<Record>, id: nat) {
    forall i :: 0 <= i < |rs| ==> rs[i].id <= id
  }

  lemma PushWellKept(t: Tiers, r: Record, durable: bool, cap: nat)
    requires r.id > 0 && WellKept(t, r.id - 1, durable)
    ensures WellKept(Push(t, r, durable, cap), r.id, durable)
  {
    var all := t.Log() + [r];
    AscendingSnoc(t.Log(), r);
    assert AtMost(all, r.id);
    if durable {
      PushKeepsLog(t, r, durable, cap);
    } else {
      PushWithoutTable(t, r, cap);
      var k: nat :| k <= |all| && Push(t, r, false, cap).Log() == all[k..];
      AscendingSuffix(all, k);
      assert AtMost(all[k..], r.id);
    }
  }

  class Buffer {
    const redis: bool           // the hot tier is the Redis list, else process memory
    const durable: bool         // an overflow table is configured
    const cap: nat              // 0 is no cap
    var hot: seq<Record>
    var overflow: seq<Record>
    var lastId: nat

    constructor (redis: bool, durable: bool, cap: nat, firstId: nat)
      ensures Valid() && State().Log() == [] && lastId == firstId
      ensures this.redis == redis && this.durable == durable && this.cap == cap
    {
      this.redis, this.durable, this.cap := redis, durable, cap;
      hot, overflow, lastId := [], [], firstId;
    }

    function State(): Tiers
      reads this
    {
      Tiers(hot, overflow)
    }

    ghost predicate Valid()
      reads this
    {
      WellKept(State(), lastId, durable)
    }

    /** `append`: a fresh, larger id for every record. */
    method Append(event: string, payload: Payload) returns (id: nat)
      requires Valid()
      modifies this
      ensures Valid()
      ensures id == lastId == old(lastId) + 1
      ensures State() == Push(old(State()), Record(id, event, payload), durable, cap)
    {
      lastId := lastId + 1;
      id := lastId;
      var r := Record(id, event, payload);
      PushWellKept(State(), r, durable, cap);
      var all := hot + [r];
      if cap > 0 && |all| > cap {
        var excess := |all| - cap;
        overflow := if durable then overflow + all[..excess] else overflow;
        hot := all[excess..];
      } else {
        hot := all;
      }
    }

    /** `replay`: merge both tiers by id and sort. */
    method Replay(after: nat) returns (r: seq<Record>)
      requires Valid()
      ensures r == ReplayOf(State(), redis, after)
      ensures !redis ==> r == Newer(State().Log(), after)
      ensures redis ==> r == Newer(overflow, after) + hot
    {
      var current := if redis then hot else Newer(hot, after);
      var rows := if durable then Newer(overflow, after) else [];
      r := Sort(Merge(rows, current), Earlier);
      if redis { RedisReplay(State(), after); } else { MemoryReplay(State(), after); }
    }
  }

  lemma MergedAscending(overflow: seq<Record>, hot: seq<Record>, after: int)
    requires Ascending(overflow + hot)
    ensures Ascending(Newer(overflow, after) + hot)
    ensures Ascending(Newer(overflow, after) + Newer(hot, after))
  {
    NewerConcat(overflow, hot, after);
    NewerAscending(overflow + hot, after);
    var all, rows := overflow + hot, Newer(overflow, after);
    assert forall i :: 0 <= i < |overflow| ==> all[i] == overflow[i];
    assert forall i :: 0 <= i < |hot| ==> all[|overflow| + i] == hot[i];
    NewerAscending(overflow, after);
    forall i, j | 0 <= i < |rows| && 0 <= j < |hot| ensures rows[i].id < hot[j].id {
      NewerMembers(overflow, after, rows[i]);
      var k :| 0 <= k < |overflow| && overflow[k] == rows[i];
      assert all[k].id < all[|overflow| + j].id;
    }
  }

  lemma {:induction false} NewerAll(rs: seq<Record>, after: int)
    requires forall i :: 0 <= i < |rs| ==> rs[i].id > after
    ensures Newer(rs, after) == rs
  {
    if rs != [] {
      var front, last := rs[..|rs| - 1], rs[|rs| - 1];
      assert forall i :: 0 <= i < |front| ==> front[i] == rs[i];
      NewerAll(front, after);
      assert rs == front + [last];
    }
  }

  lemma {:induction false} NewerLength(rs: seq<Record>, after: int)
    ensures |Newer(rs, after)| <= |rs|
  {
    if rs != [] { NewerLength(rs[..|rs| - 1], after); }
  }

  lemma {:induction false} NewerSome(rs: seq<Record>, after: int)
    requires exists i :: 0 <= i < |rs| && rs[i].id <= after
    ensures |Newer(rs, after)| < |rs|
  {
    var n := |rs| - 1;
    NewerLength(rs[..n], after);
    if rs[n].id > after {
      var i :| 0 <= i < |rs| && rs[i].id <= after;
      assert rs[..n][i].id <= after;
      NewerSome(rs[..n], after);
    }
  }
}
