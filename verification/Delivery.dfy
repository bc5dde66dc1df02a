/**
 Delivery across reconnects: a server log, connections that break at any character,
 and the widget on the other side.
 */
module Delivery {
  import opened Text
  import opened Splitter
  import opened Sse
  import opened Widget
  import opened Client
  import opened StreamBuffer

  type Encoder = Payload -> string

  /** JSON text: one line, no outer white space, and decoding undoes encoding. */
  ghost predicate Codec(encode: Encoder, decode: Decoder) {
    forall p :: decode(encode(p)) == Some(p) && OneLine(encode(p)) && Tight(encode(p)) && encode(p) != "[DONE]"
  }

  predicate Plain(r: Record) {
    OneLine(r.event) && Tight(r.event) && r.event != "retraction"
  }

  function FrameOf(encode: Encoder, r: Record): Frame {
    Frame(Some(r.id), r.event, encode(r.payload))
  }

  /** A frame without an id that does not touch the text: session, heartbeat, guardrails, the live result. */
  predicate Quiet(decode: Decoder, f: Frame) {
    f.id.None? && f.event != "delta" && f.event != "retraction" && decode(f.data).Some? && Printable(f)
  }

  /** The frames of a connection are the given records in order, with quiet frames in between. */
  ghost predicate Carries(encode: Encoder, decode: Decoder, sent: seq<Frame>, rs: seq<Record>)
    decreases |sent|
  {
    if sent == [] then rs == []
    else
      var n := |sent| - 1;
      if sent[n].id.None? then Quiet(decode, sent[n]) && Carries(encode, decode, sent[..n], rs)
      else
        && rs != [] && Plain(rs[|rs| - 1]) && sent[n] == FrameOf(encode, rs[|rs| - 1])
        && Carries(encode, decode, sent[..n], rs[..|rs| - 1])
  }

  predicate Shows(r: Record) {
    r.event == "delta" && r.payload.content != ""
  }

  /** How ids are written; the server uses `Dec`. */
  type Naming = nat -> string

  /** The deltas in a stretch of the log, as the widget keeps them. */
  function ReleasedOf(name: Naming, rs: seq<Record>): seq<Released> {
    if rs == [] then []
    else
      var r := rs[|rs| - 1];
      ReleasedOf(name, rs[..|rs| - 1]) + (if Shows(r) then [Released(name(r.id), r.payload.content)] else [])
  }

  function TextOf(rs: seq<Record>): string {
    if rs == [] then ""
    else TextOf(rs[..|rs| - 1]) + (if Shows(rs[|rs| - 1]) then rs[|rs| - 1].payload.content else "")
  }

  /** `w` is `v` after taking in exactly the records `rs`. */
  predicate Gained(name: Naming, v: View, w: View, rs: seq<Record>) {
    && w.released == v.released + ReleasedOf(name, rs)
    && w.text == v.text + TextOf(rs)
    && w.lastEventId == (if rs == [] then v.lastEventId else name(rs[|rs| - 1].id))
  }

  lemma JoinOne(data: string)
    ensures JoinLines([data]) == data
  {
  }

  /** One record frame adds its delta and moves the id. */
  lemma TakeRecord(encode: Encoder, decode: Decoder, v: View, r: Record)
    requires Codec(encode, decode) && Plain(r)
    ensures
      var w := Dispatch(decode, v, Expected(FrameOf(encode, r)));
      && w.released == v.released + (if Shows(r) then [Released(Dec(r.id), r.payload.content)] else [])
      && w.text == v.text + (if Shows(r) then r.payload.content else "")
      && w.lastEventId == Dec(r.id)
  {
    JoinOne(encode(r.payload));
    assert decode(encode(r.payload)) == Some(r.payload);
  }

  lemma TakeQuiet(decode: Decoder, v: View, f: Frame)
    requires Quiet(decode, f)
    ensures
      var w := Dispatch(decode, v, Expected(f));
      w.released == v.released && w.text == v.text && w.lastEventId == v.lastEventId
  {
    JoinOne(f.data);
  }

  function Readings(sent: seq<Frame>): (ps: seq<Parsed>)
    ensures |ps| == |sent|
  {
    seq(|sent|, i requires 0 <= i < |sent| => Expected(sent[i]))
  }

  lemma ReadingsSnoc(sent: seq<Frame>)
    requires sent != []
    ensures Readings(sent)[..|sent| - 1] == Readings(sent[..|sent| - 1])
    ensures Readings(sent)[|sent| - 1] == Expected(sent[|sent| - 1])
  {
  }

  lemma GainMore(name: Naming, v: View, u: View, w: View, rs: seq<Record>)
    requires rs != [] && Gained(name, v, u, rs[..|rs| - 1])
    requires
      var r := rs[|rs| - 1];
      && w.released == u.released + (if Shows(r) then [Released(name(r.id), r.payload.content)] else [])
      && w.text == u.text + (if Shows(r) then r.payload.content else "")
      && w.lastEventId == name(r.id)
    ensures Gained(name, v, w, rs)
  {
  }

  lemma {:induction false} CarriedFramesGain(encode: Encoder, decode: Decoder, v: View, sent: seq<Frame>, rs: seq<Record>)
    requires Codec(encode, decode) && Carries(encode, decode, sent, rs)
    ensures Gained(Dec, v, Fold(Reactor(decode), v, Readings(sent)), rs)
    decreases |sent|
  {
    if sent != [] {
      var n := |sent| - 1;
      ReadingsSnoc(sent);
      var u := Fold(Reactor(decode), v, Readings(sent[..n]));
      var w := Fold(Reactor(decode), v, Readings(sent));
      assert w == Dispatch(decode, u, Expected(sent[n]));
      if sent[n].id.None? {
        CarriedFramesGain(encode, decode, v, sent[..n], rs);
        TakeQuiet(decode, u, sent[n]);
      } else {
        CarriedFramesGain(encode, decode, v, sent[..n], rs[..|rs| - 1]);
        TakeRecord(encode, decode, u, rs[|rs| - 1]);
        GainMore(Dec, v, u, w, rs);
      }
    }
  }

  /** The first frames of a connection carry the first records. */
  lemma {:induction false} CarriesPrefix(encode: Encoder, decode: Decoder, sent: seq<Frame>, rs: seq<Record>, k: nat) returns (m: nat)
    requires Carries(encode, decode, sent, rs) && k <= |sent|
    ensures m <= |rs| && Carries(encode, decode, sent[..k], rs[..m])
    decreases |sent|
  {
    if k == |sent| {
      m := |rs|;
      assert sent[..k] == sent && rs[..m] == rs;
    } else {
      var n := |sent| - 1;
      var less := if sent[n].id.None? then rs else rs[..|rs| - 1];
      m := CarriesPrefix(encode, decode, sent[..n], less, k);
      assert sent[..n][..k] == sent[..k] && less[..m] == rs[..m];
    }
  }

  lemma {:induction false} CarriesPrintable(encode: Encoder, decode: Decoder, sent: seq<Frame>, rs: seq<Record>)
    requires Codec(encode, decode) && Carries(encode, decode, sent, rs)
    ensures AllPrintable(sent)
    decreases |sent|
  {
    if sent != [] {
      var n := |sent| - 1;
      if sent[n].id.None? {
        CarriesPrintable(encode, decode, sent[..n], rs);
      } else {
        CarriesPrintable(encode, decode, sent[..n], rs[..|rs| - 1]);
        var r := rs[|rs| - 1];
        assert Printable(FrameOf(encode, r)) by { assert decode(encode(r.payload)) == Some(r.payload); }
      }
      assert forall i :: 0 <= i < n ==> sent[..n][i] == sent[i];
    }
  }

  lemma BodiesRead(sent: seq<Frame>)
    requires AllPrintable(sent)
    ensures ReadAll(Bodies(sent)) == Readings(sent)
  {
    forall i | 0 <= i < |sent| ensures ReadAll(Bodies(sent))[i] == Readings(sent)[i] {
      ReadPrinted(sent[i]);
    }
  }

  /**
   The wire round trip: print any frames, cut the text into any chunks, and the widget
   reacts to exactly the same ids, event names and data in the same order, with nothing
   left in its buffer.
   */
  lemma WireRoundTrip(decode: Decoder, v: View, sent: seq<Frame>, chunks: seq<string>)
    requires AllPrintable(sent) && Received(chunks) == PrintAll(sent)
    ensures Feed(Handler(decode), v, "", chunks) == (Fold(Reactor(decode), v, Readings(sent)), "")
  {
    WholeText(Handler(decode), v, chunks);
    PrintedReads(decode, v, sent);
  }

  lemma PrintedReads(decode: Decoder, v: View, sent: seq<Frame>)
    requires AllPrintable(sent)
    ensures Fold(Handler(decode), v, Frames(PrintAll(sent))) == Fold(Reactor(decode), v, Readings(sent))
    ensures Rest(PrintAll(sent)) == ""
  {
    FramesPrintAll(sent);
    HandlerReads(decode, v, Bodies(sent));
    BodiesRead(sent);
  }

  /** What the widget holds after a connection that broke after the given chunks. */
  function AfterConnection(decode: Decoder, v: View, chunks: seq<string>): View {
    Feed(Handler(decode), v, "", chunks).0
  }

  /**
   A connection that is cut at any character, in any chunks, delivers exactly the first
   few of the records it carries.
   */
  lemma ConnectionDelivers(encode: Encoder, decode: Decoder, v: View, sent: seq<Frame>, rs: seq<Record>, chunks: seq<string>)
    returns (m: nat)
    requires Codec(encode, decode) && Carries(encode, decode, sent, rs)
    requires Received(chunks) <= PrintAll(sent)
    ensures m <= |rs| && Gained(Dec, v, AfterConnection(decode, v, chunks), rs[..m])
  {
    CarriesPrintable(encode, decode, sent, rs);
    WholeText(Handler(decode), v, chunks);
    PrefixOfPrinted(sent, Received(chunks));
    var k := |Frames(Received(chunks))|;
    m := CarriesPrefix(encode, decode, sent, rs, k);
    FramesGain(encode, decode, v, sent[..k], rs[..m]);
  }

  lemma WholeText(step: Step<string>, v: View, chunks: seq<string>)
    ensures Feed(step, v, "", chunks) == (Fold(step, v, Frames(Received(chunks))), Rest(Received(chunks)))
  {
    SplitNothing(BLANK);
    ChunkingIrrelevant(step, v, "", chunks);
    EmptyLeft(Received(chunks));
  }

  lemma FramesGain(encode: Encoder, decode: Decoder, v: View, sent: seq<Frame>, rs: seq<Record>)
    requires Codec(encode, decode) && Carries(encode, decode, sent, rs)
    ensures Gained(Dec, v, Fold(Handler(decode), v, Bodies(sent)), rs)
  {
    CarriesPrintable(encode, decode, sent, rs);
    HandlerReads(decode, v, Bodies(sent));
    BodiesRead(sent);
    CarriedFramesGain(encode, decode, v, sent, rs);
  }

  // ----- Whole sessions -----------------------------------------------------------------

  /** How the `Last-Event-ID` header is read; the server uses `HeaderId`. */
  type Parsing = string -> int

  /** `int(raw)`, 0 when the header is absent or not a number. */
  function HeaderId(raw: string): int {
    match ParseInt(raw) case None => 0 case Some(n) => n
  }

  ghost predicate Faithful(name: Naming, parse: Parsing) {
    parse("") == 0 && forall id: nat :: parse(name(id)) == id
  }

  lemma HeaderIsFaithful()
    ensures Faithful(Dec, HeaderId)
  {
    assert ParseInt("") == None;
    forall id: nat ensures HeaderId(Dec(id)) == id {
      ParseDec(id);
    }
  }

  /** The widget has taken in exactly the first `n` records of the log. */
  predicate Synced(name: Naming, v: View, log: seq<Record>, n: nat) {
    n <= |log| && Gained(name, BLANK_VIEW, v, log[..n])
  }

  ghost predicate ProperLog(log: seq<Record>) {
    Ascending(log) && forall i :: 0 <= i < |log| ==> log[i].id > 0
  }

  /** The records that the server considers newer are exactly those the widget has not taken in. */
  lemma NewerThanSeen(name: Naming, parse: Parsing, v: View, log: seq<Record>, n: nat)
    requires Faithful(name, parse) && ProperLog(log) && Synced(name, v, log, n)
    ensures Newer(log, parse(v.lastEventId)) == log[n..]
  {
    if n == 0 {
      assert log[..0] == [];
      assert v.lastEventId == "";
    } else {
      assert log[..n][n - 1] == log[n - 1];
      assert parse(v.lastEventId) == log[n - 1].id;
    }
    NewerIsSuffix(log, parse(v.lastEventId), n);
  }

  lemma {:induction false} ReleasedConcat(name: Naming, a: seq<Record>, b: seq<Record>)
    ensures ReleasedOf(name, a + b) == ReleasedOf(name, a) + ReleasedOf(name, b)
  {
    if b == [] {
      assert a + b == a;
    } else {
      ReleasedConcat(name, a, b[..|b| - 1]);
      assert (a + b)[..|a + b| - 1] == a + b[..|b| - 1];
    }
  }

  lemma {:induction false} TextConcat(a: seq<Record>, b: seq<Record>)
    ensures TextOf(a + b) == TextOf(a) + TextOf(b)
  {
    if b == [] {
      assert a + b == a;
    } else {
      TextConcat(a, b[..|b| - 1]);
      assert (a + b)[..|a + b| - 1] == a + b[..|b| - 1];
    }
  }

  lemma GainedTwice(name: Naming, u: View, v: View, w: View, a: seq<Record>, b: seq<Record>)
    requires Gained(name, u, v, a) && Gained(name, v, w, b)
    ensures Gained(name, u, w, a + b)
  {
    ReleasedConcat(name, a, b);
    TextConcat(a, b);
    Regroup(u.released, ReleasedOf(name, a), ReleasedOf(name, b));
    Regroup(u.text, TextOf(a), TextOf(b));
    LastOfConcat(a, b);
  }

  lemma LastOfConcat(a: seq<Record>, b: seq<Record>)
    ensures b != [] ==> (a + b)[|a + b| - 1] == b[|b| - 1]
    ensures b == [] ==> a + b == a
  {
  }

  lemma SyncedBy(name: Naming, v: View, w: View, log: seq<Record>, n: nat, k: nat)
    requires Synced(name, v, log, n) && n + k <= |log| && Gained(name, v, w, log[n..][..k])
    ensures Synced(name, w, log, n + k)
  {
    GainedTwice(name, BLANK_VIEW, v, w, log[..n], log[n..][..k]);
    TakeMore(log, n, k);
  }

  lemma TakeMore(log: seq<Record>, n: nat, k: nat)
    requires n + k <= |log|
    ensures log[..n] + log[n..][..k] == log[..n + k]
  {
  }

  lemma SyncedGrows(name: Naming, v: View, log: seq<Record>, next: seq<Record>, n: nat)
    requires Synced(name, v, log, n) && log <= next
    ensures Synced(name, v, next, n)
  {
    assert log[..n] == next[..n];
  }

  /** What a connection may do to the widget: the records `rs` are on offer. */
  type Outcomes = (View, seq<Record>, View) -> bool

  /** A connection delivers some first part of what it offers. */
  ghost predicate Honest(name: Naming, may: Outcomes) {
    forall v, rs, w :: may(v, rs, w) ==> exists m: nat :: m <= |rs| && Gained(name, v, w, rs[..m])
  }

  /** One connection: the log at that time, and the widget afterwards. */
  datatype Link = Link(log: seq<Record>, after: View)

  /**
   A widget and its connections. The log only grows, each connection offers what is
   newer than the last id, and a reconnect happens only after some id was seen and
   while the stream is open.
   */
  ghost predicate Session(may: Outcomes, parse: Parsing, v: View, log: seq<Record>, links: seq<Link>)
    decreases |links|
  {
    links == [] ||
    (var l := links[0];
     && ProperLog(l.log) && log <= l.log
     && may(v, Newer(l.log, parse(v.lastEventId)), l.after)
     && (|links| > 1 ==> l.after.lastEventId != "" && !l.after.closed)
     && Session(may, parse, l.after, l.log, links[1..]))
  }

  function FinalView(v: View, links: seq<Link>): View {
    if links == [] then v else links[|links| - 1].after
  }

  function FinalLog(log: seq<Record>, links: seq<Link>): seq<Record> {
    if links == [] then log else links[|links| - 1].log
  }

  lemma Delivers(name: Naming, may: Outcomes, v: View, rs: seq<Record>, w: View) returns (m: nat)
    requires Honest(name, may) && may(v, rs, w)
    ensures m <= |rs| && Gained(name, v, w, rs[..m])
  {
    m :| m <= |rs| && Gained(name, v, w, rs[..m]);
  }

  lemma LinkKeepsSync(name: Naming, parse: Parsing, may: Outcomes, v: View, n: nat, l: Link) returns (m: nat)
    requires Faithful(name, parse) && Honest(name, may)
    requires ProperLog(l.log) && Synced(name, v, l.log, n) && may(v, Newer(l.log, parse(v.lastEventId)), l.after)
    ensures n <= m && Synced(name, l.after, l.log, m)
  {
    NewerThanSeen(name, parse, v, l.log, n);
    var rest := l.log[n..];
    var k := Delivers(name, may, v, rest, l.after);
    m := n + k;
    SyncedBy(name, v, l.after, l.log, n, k);
  }

  lemma {:induction false} SessionKeepsSync(
    name: Naming, parse: Parsing, may: Outcomes, v: View, log: seq<Record>, n: nat, links: seq<Link>) returns (m: nat)
    requires Faithful(name, parse) && Honest(name, may)
    requires Session(may, parse, v, log, links) && Synced(name, v, log, n)
    ensures n <= m && Synced(name, FinalView(v, links), FinalLog(log, links), m)
    decreases |links|
  {
    if links == [] {
      m := n;
    } else {
      var l := links[0];
      SyncedGrows(name, v, log, l.log, n);
      var k := LinkKeepsSync(name, parse, may, v, n, l);
      m := SessionKeepsSync(name, parse, may, l.after, l.log, k, links[1..]);
      FinalStep(v, log, links);
    }
  }

  lemma FinalStep(v: View, log: seq<Record>, links: seq<Link>)
    requires links != []
    ensures FinalView(v, links) == FinalView(links[0].after, links[1..])
    ensures FinalLog(log, links) == FinalLog(links[0].log, links[1..])
  {
  }

  /** Over the wire: frames are printed, and the text arrives in chunks up to some character. */
  ghost predicate OverTheWire(encode: Encoder, decode: Decoder, v: View, rs: seq<Record>, w: View) {
    exists sent: seq<Frame>, chunks: seq<string> ::
      && Carries(encode, decode, sent, rs)
      && Received(chunks) <= PrintAll(sent)
      && w == AfterConnection(decode, v, chunks)
  }

  lemma WireIsHonest(encode: Encoder, decode: Decoder, v: View, rs: seq<Record>, w: View)
    requires Codec(encode, decode) && OverTheWire(encode, decode, v, rs, w)
    ensures exists m: nat :: m <= |rs| && Gained(Dec, v, w, rs[..m])
  {
    var sent: seq<Frame>, chunks: seq<string> :|
      Carries(encode, decode, sent, rs) && Received(chunks) <= PrintAll(sent) && w == AfterConnection(decode, v, chunks);
    var m := ConnectionDelivers(encode, decode, v, sent, rs, chunks);
  }

  /**
   Exactly-once delivery: however often, wherever and in whatever chunks the connections
   break, the widget's deltas are a gap-free, duplicate-free prefix of the server's log.
   */
  lemma ExactlyOnce(encode: Encoder, decode: Decoder, may: Outcomes, links: seq<Link>) returns (m: nat)
    requires Codec(encode, decode)
    requires forall v, rs, w :: may(v, rs, w) ==> OverTheWire(encode, decode, v, rs, w)
    requires Session(may, HeaderId, BLANK_VIEW, [], links)
    ensures
      var log := FinalLog([], links);
      var view := FinalView(BLANK_VIEW, links);
      m <= |log| && view.released == ReleasedOf(Dec, log[..m]) && view.text == TextOf(log[..m])
  {
    HeaderIsFaithful();
    forall v, rs, w | may(v, rs, w) ensures exists m: nat :: m <= |rs| && Gained(Dec, v, w, rs[..m]) {
      WireIsHonest(encode, decode, v, rs, w);
    }
    StartSynced(Dec);
    m := SessionKeepsSync(Dec, HeaderId, may, BLANK_VIEW, [], 0, links);
    FromBlank(Dec, FinalView(BLANK_VIEW, links), FinalLog([], links)[..m]);
  }

  lemma StartSynced(name: Naming)
    ensures Synced(name, BLANK_VIEW, [], 0)
  {
  }

  lemma FromBlank(name: Naming, v: View, rs: seq<Record>)
    requires Gained(name, BLANK_VIEW, v, rs)
    ensures v.released == ReleasedOf(name, rs) && v.text == TextOf(rs)
  {
    EmptyLeft(ReleasedOf(name, rs));
    EmptyLeft(TextOf(rs));
  }

  // ----- The Redis tier ------------------------------------------------------------------

  /** Ids strictly increase along `rs`, and none is above `top`. */
  ghost predicate Climbs(parse: Parsing, rs: seq<Released>, top: int) {
    (forall i :: 0 <= i < |rs| ==> parse(rs[i].id) <= top) &&
    forall i, j :: 0 <= i < j < |rs| ==> parse(rs[i].id) < parse(rs[j].id)
  }

  lemma ClimbsOn(parse: Parsing, rs: seq<Released>, top: int, r: Released)
    requires Climbs(parse, rs, top) && top < parse(r.id)
    ensures Climbs(parse, rs + [r], parse(r.id))
  {
  }

  lemma {:induction false} ReleasedAscends(name: Naming, parse: Parsing, rs: seq<Record>)
    requires Faithful(name, parse) && ProperLog(rs)
    ensures Climbs(parse, ReleasedOf(name, rs), if rs == [] then 0 else rs[|rs| - 1].id)
  {
    if rs != [] {
      var n := |rs| - 1;
      var earlier := rs[..n];
      ReleasedAscends(name, parse, earlier);
      var top := if n == 0 then 0 else rs[n - 1].id;
      assert top < rs[n].id;
      if Shows(rs[n]) {
        ClimbsOn(parse, ReleasedOf(name, earlier), top, Released(name(rs[n].id), rs[n].payload.content));
      } else {
        assert ReleasedOf(name, rs) == ReleasedOf(name, earlier);
      }
    }
  }

  /** A delta that occurs twice is in no prefix of the log. */
  lemma NoRepeats(name: Naming, parse: Parsing, log: seq<Record>, j: nat, rs: seq<Released>, x: nat, y: nat)
    requires Faithful(name, parse) && ProperLog(log) && j <= |log| && x < y < |rs| && rs[x] == rs[y]
    ensures rs != ReleasedOf(name, log[..j])
  {
    assert ProperLog(log[..j]);
    ReleasedAscends(name, parse, log[..j]);
  }

  lemma Parts(log: seq<Record>, lo: nat, mid: nat, hi: nat)
    requires lo <= mid <= hi <= |log|
    ensures log[lo..mid] + log[mid..hi] == log[lo..hi]
  {
  }

  lemma ReleasedSplit(name: Naming, log: seq<Record>, lo: nat, mid: nat, hi: nat)
    requires lo <= mid <= hi <= |log|
    ensures ReleasedOf(name, log[lo..hi]) == ReleasedOf(name, log[lo..mid]) + ReleasedOf(name, log[mid..hi])
  {
    Parts(log, lo, mid, hi);
    ReleasedConcat(name, log[lo..mid], log[mid..hi]);
  }

  function Min(a: nat, b: nat): nat { if a < b then a else b }

  ghost predicate ShowsPrefix(name: Naming, rs: seq<Released>, log: seq<Record>) {
    exists j: nat :: j <= |log| && rs == ReleasedOf(name, log[..j])
  }

  lemma RepeatShows(name: Naming, parse: Parsing, log: seq<Record>, n: nat, q: nat, k: nat)
    requires Faithful(name, parse) && ProperLog(log) && q <= n <= |log| && q <= k <= |log|
    requires ReleasedOf(name, log[q..Min(n, k)]) != []
    ensures !ShowsPrefix(name, ReleasedOf(name, log[..n]) + ReleasedOf(name, log[q..k]), log)
  {
    var c := Min(n, k);
    var head, over := ReleasedOf(name, log[..q]), ReleasedOf(name, log[q..c]);
    var shown, again := ReleasedOf(name, log[..n]), ReleasedOf(name, log[q..k]);
    assert log[0..q] == log[..q] && log[0..n] == log[..n];
    ReleasedSplit(name, log, 0, q, n);
    ReleasedSplit(name, log, q, c, n);
    ReleasedSplit(name, log, q, c, k);
    var rs := shown + again;
    assert shown[|head|] == over[0] && again[0] == over[0];
    assert rs[|head|] == rs[|shown|];
    forall j: nat | j <= |log| ensures rs != ReleasedOf(name, log[..j]) {
      NoRepeats(name, parse, log, j, rs, |head|, |shown|);
    }
  }

  lemma NoRepeatShows(name: Naming, log: seq<Record>, n: nat, q: nat, k: nat)
    requires q <= n <= |log| && q <= k <= |log| && ReleasedOf(name, log[q..Min(n, k)]) == []
    ensures ShowsPrefix(name, ReleasedOf(name, log[..n]) + ReleasedOf(name, log[q..k]), log)
  {
    var shown := ReleasedOf(name, log[..n]);
    if k <= n {
      assert shown + [] == shown;
    } else {
      ReleasedSplit(name, log, q, n, k);
      EmptyLeft(ReleasedOf(name, log[n..k]));
      assert log[0..n] == log[..n] && log[0..k] == log[..k];
      ReleasedSplit(name, log, 0, n, k);
    }
  }

  /** The Redis tier replays the log from its first hot record on, or from the widget's position if that is earlier. */
  lemma RedisOffers(name: Naming, parse: Parsing, v: View, t: Tiers, n: nat)
    requires Faithful(name, parse) && ProperLog(t.Log()) && Synced(name, v, t.Log(), n)
    ensures ReplayOf(t, true, parse(v.lastEventId)) == t.Log()[Min(n, |t.overflow|)..]
  {
    var log, o, after := t.Log(), |t.overflow|, parse(v.lastEventId);
    RedisReplay(t, after);
    assert log[..o] == t.overflow && log[o..] == t.hot;
    if n > 0 { assert log[..n][n - 1] == log[n - 1]; } else { assert log[..0] == []; }
    NewerIsSuffix(t.overflow, after, Min(n, o));
    assert t.overflow[Min(n, o)..] + t.hot == log[Min(n, o)..];
  }

  /**
   The widget holds the deltas of its first `n` records followed by those of `log[q..k]`,
   and that is a prefix of the log's deltas exactly when the stretch repeats none.
   */
  ghost predicate Resumed(name: Naming, w: View, log: seq<Record>, n: nat, q: nat, k: nat) {
    && q <= n <= |log| && q <= k <= |log|
    && w.released == ReleasedOf(name, log[..n]) + ReleasedOf(name, log[q..k])
    && (ShowsPrefix(name, w.released, log) <==> ReleasedOf(name, log[q..Min(n, k)]) == [])
  }

  lemma ResumeIff(name: Naming, parse: Parsing, v: View, w: View, log: seq<Record>, n: nat, q: nat, m: nat)
    requires Faithful(name, parse) && ProperLog(log) && Synced(name, v, log, n)
    requires q <= n && m <= |log[q..]| && Gained(name, v, w, log[q..][..m])
    ensures Resumed(name, w, log, n, q, q + m)
  {
    var k := q + m;
    assert log[q..][..m] == log[q..k];
    FromBlank(name, v, log[..n]);
    if ReleasedOf(name, log[q..Min(n, k)]) == [] {
      NoRepeatShows(name, log, n, q, k);
    } else {
      RepeatShows(name, parse, log, n, q, k);
    }
  }

  lemma ResumeFrom(
    name: Naming, parse: Parsing, may: Outcomes, v: View, w: View, log: seq<Record>, n: nat, q: nat) returns (k: nat)
    requires Faithful(name, parse) && Honest(name, may) && ProperLog(log) && Synced(name, v, log, n) && q <= n
    requires may(v, log[q..], w)
    ensures Resumed(name, w, log, n, q, k)
  {
    var m := Delivers(name, may, v, log[q..], w);
    ResumeIff(name, parse, v, w, log, n, q, m);
    k := q + m;
  }

  /**
   What the widget shows after a reconnect to the Redis tier, cut anywhere and in any
   chunks. The replay starts at the first hot record, so deltas between that and the
   widget's position are shown twice.
   */
  lemma RedisReconnectIff(encode: Encoder, decode: Decoder, may: Outcomes, v: View, w: View, t: Tiers, n: nat) returns (k: nat)
    requires Codec(encode, decode) && ProperLog(t.Log()) && Synced(Dec, v, t.Log(), n)
    requires forall v, rs, w :: may(v, rs, w) ==> OverTheWire(encode, decode, v, rs, w)
    requires may(v, ReplayOf(t, true, HeaderId(v.lastEventId)), w)
    ensures Resumed(Dec, w, t.Log(), n, Min(n, |t.overflow|), k)
  {
    HeaderIsFaithful();
    forall v, rs, w | may(v, rs, w) ensures exists m: nat :: m <= |rs| && Gained(Dec, v, w, rs[..m]) {
      WireIsHonest(encode, decode, v, rs, w);
    }
    RedisOffers(Dec, HeaderId, v, t, n);
    k := ResumeFrom(Dec, HeaderId, may, v, w, t.Log(), n, Min(n, |t.overflow|));
  }

  // ----- It happens -----------------------------------------------------------------------

  lemma DeltaOnce(name: Naming, r: Record)
    requires Shows(r)
    ensures ReleasedOf(name, [r]) == [Released(name(r.id), r.payload.content)]
  {
    assert [r][..0] == [];
    assert ReleasedOf(name, []) == [];
  }

  lemma TwiceShown(name: Naming, v: View, w: View, r: Record)
    requires Shows(r) && Synced(name, v, [r], 1) && w.released == v.released + [Released(name(r.id), r.payload.content)]
    ensures w.released == [Released(name(r.id), r.payload.content), Released(name(r.id), r.payload.content)]
  {
    assert [r][..1] == [r];
    FromBlank(name, v, [r]);
    DeltaOnce(name, r);
  }

  lemma OneChunk(s: string)
    ensures Received([s]) == s
  {
    assert [s][1..] == [];
    assert Received([]) == "";
  }

  lemma PrintOne(f: Frame)
    ensures PrintAll([f]) == Print(f)
  {
    assert [f][1..] == [];
    assert PrintAll([]) == "";
  }

  lemma OneReading(decode: Decoder, v: View, f: Frame)
    ensures Fold(Reactor(decode), v, Readings([f])) == Dispatch(decode, v, Expected(f))
  {
    var ps := Readings([f]);
    assert ps == [Expected(f)];
    assert ps[..0] == [];
    assert Fold(Reactor(decode), v, []) == v;
  }

  lemma OneFrame(decode: Decoder, v: View, f: Frame)
    requires Printable(f)
    ensures AfterConnection(decode, v, [Print(f)]) == Dispatch(decode, v, Expected(f))
  {
    OneChunk(Print(f));
    PrintOne(f);
    assert AllPrintable([f]);
    WireRoundTrip(decode, v, [f], [Print(f)]);
    OneReading(decode, v, f);
  }

  /** A widget that has shown the one delta of a Redis stream reconnects, and the replay shows it again. */
  lemma DeltaShownTwice(encode: Encoder, decode: Decoder, v: View, r: Record)
    requires Codec(encode, decode) && r.id > 0 && Plain(r) && Shows(r) && Synced(Dec, v, [r], 1)
    ensures ReplayOf(Tiers([r], []), true, HeaderId(v.lastEventId)) == [r]
    ensures
      AfterConnection(decode, v, [Print(FrameOf(encode, r))]).released ==
      [Released(Dec(r.id), r.payload.content), Released(Dec(r.id), r.payload.content)]
  {
    ReplayOne(v, r);
    TakeRecord(encode, decode, v, r);
    OneFrame(decode, v, FrameOf(encode, r));
    TwiceShown(Dec, v, Dispatch(decode, v, Expected(FrameOf(encode, r))), r);
  }

  lemma ReplayOne(v: View, r: Record)
    requires r.id > 0 && Synced(Dec, v, [r], 1)
    ensures ReplayOf(Tiers([r], []), true, HeaderId(v.lastEventId)) == [r]
  {
    var t := Tiers([r], []);
    assert t.Log() == [r];
    HeaderIsFaithful();
    RedisOffers(Dec, HeaderId, v, t, 1);
    assert [r][0..] == [r];
  }
}
