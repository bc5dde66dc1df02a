/** The widget's state: what one frame changes, and what any sequence of frames keeps. */
module Client {
  import opened Text
  import opened Sse
  import opened Widget

  // ----- Numbers in ids -----------------------------------------------------------------

  predicate IsDigit(c: char) {
    '0' <= c <= '9'
  }

  function LeadingDigits(s: string): string {
    if s != [] && IsDigit(s[0]) then [s[0]] + LeadingDigits(s[1..]) else ""
  }

  function Value(digits: string): nat
    requires forall i :: 0 <= i < |digits| ==> IsDigit(digits[i])
  {
    if digits == [] then 0
    else
      var last := digits[|digits| - 1];
      assert IsDigit(last);
      Value(digits[..|digits| - 1]) * 10 + (last as int - '0' as int)
  }

  lemma {:induction false} LeadingAllDigits(s: string)
    requires forall i :: 0 <= i < |s| ==> IsDigit(s[i])
    ensures LeadingDigits(s) == s
  {
    if s != [] {
      LeadingAllDigits(s[1..]);
    }
  }

  lemma {:induction false} LeadingAreDigits(s: string)
    ensures forall i :: 0 <= i < |LeadingDigits(s)| ==> IsDigit(LeadingDigits(s)[i])
  {
    if s != [] && IsDigit(s[0]) {
      LeadingAreDigits(s[1..]);
    }
  }

  /** `parseInt(id, 10)`; None is NaN. */
  function ParseInt(s: string): Option<nat> {
    LeadingAreDigits(s);
    var d := LeadingDigits(s);
    if d == "" then None else Some(Value(d))
  }

  lemma {:induction false} ValueOfDec(n: nat)
    ensures Value(Dec(n)) == n
  {
    if n >= 10 {
      ValueOfDec(n / 10);
      var s := Dec(n);
      assert s[..|s| - 1] == Dec(n / 10);
    } else {
      assert Dec(n)[..0] == [];
    }
  }

  /** A printed id is read back as the same number. */
  lemma ParseDec(n: nat)
    ensures ParseInt(Dec(n)) == Some(n)
  {
    LeadingAllDigits(Dec(n));
    ValueOfDec(n);
  }

  // ----- The state and one frame ----------------------------------------------------------

  datatype Released = Released(id: string, text: string)

  datatype View = View(lastEventId: string, text: string, released: seq<Released>, closed: bool)

  const BLANK_VIEW := View("", "", [], false)

  /** The fields of a JSON body that change the text; an absent `content` is empty. */
  datatype Payload = Payload(content: string, retractFrom: Option<int>)

  type Decoder = string -> Option<Payload>

  function JoinLines(lines: seq<string>): string
    requires lines != []
  {
    if |lines| == 1 then lines[0] else JoinLines(lines[..|lines| - 1]) + "\n" + lines[|lines| - 1]
  }

  function Visible(rs: seq<Released>): string {
    if rs == [] then "" else Visible(rs[..|rs| - 1]) + rs[|rs| - 1].text
  }

  predicate Retracted(r: Released, threshold: int) {
    ParseInt(r.id).Some? && ParseInt(r.id).value >= threshold
  }

  function Unless(rs: seq<Released>, drop: Released -> bool): seq<Released> {
    if rs == [] then []
    else Unless(rs[..|rs| - 1], drop) + (if drop(rs[|rs| - 1]) then [] else [rs[|rs| - 1]])
  }

  function Keep(rs: seq<Released>, threshold: int): seq<Released> {
    Unless(rs, (r: Released) => Retracted(r, threshold))
  }

  function Threshold(p: Payload): int {
    match p.retractFrom case None => -1 case Some(k) => k
  }

  /** The `switch` over event names. */
  function OnEvent(v: View, event: string, id: string, p: Payload): View {
    if event == "delta" then
      if p.content == "" then v
      else v.(text := v.text + p.content, released := v.released + (if id == "" then [] else [Released(id, p.content)]))
    else if event == "retraction" then
      var kept := Keep(v.released, Threshold(p));
      v.(released := kept, text := Visible(kept))
    else if event == "result" || event == "error" then v.(closed := true)
    else v
  }

  function FrameId(p: Parsed): string {
    match p.id case None => "" case Some(s) => s
  }

  function Note(v: View, p: Parsed): View {
    match p.id case None => v case Some(s) => v.(lastEventId := s)
  }

  function Dispatch(decode: Decoder, v: View, p: Parsed): View {
    if p.data == [] then Note(v, p) else OnData(decode, Note(v, p), JoinLines(p.data), p.event, FrameId(p))
  }

  /** The data of a frame: the end mark, text that is not JSON, or an event. */
  function OnData(decode: Decoder, v: View, data: string, event: string, id: string): View {
    if data == "[DONE]" then v
    else
      match decode(data)
      case None => v.(text := v.text + data)
      case Some(body) => OnEvent(v, event, id, body)
  }

  function OnFrame(decode: Decoder, v: View, frame: string): View {
    Dispatch(decode, v, ReadFrame(frame))
  }

  type Step<!T> = (View, T) -> View

  function Fold<T>(step: Step<T>, v: View, xs: seq<T>): View {
    if xs == [] then v else step(Fold(step, v, xs[..|xs| - 1]), xs[|xs| - 1])
  }

  lemma {:induction false} FoldConcat<T>(step: Step<T>, v: View, a: seq<T>, b: seq<T>)
    ensures Fold(step, v, a + b) == Fold(step, Fold(step, v, a), b)
  {
    if b == [] {
      assert a + b == a;
    } else {
      FoldConcat(step, v, a, b[..|b| - 1]);
      assert (a + b)[..|a + b| - 1] == a + b[..|b| - 1];
    }
  }

  function Handler(decode: Decoder): Step<string> {
    (v: View, frame: string) => OnFrame(decode, v, frame)
  }

  function Reactor(decode: Decoder): Step<Parsed> {
    (v: View, p: Parsed) => Dispatch(decode, v, p)
  }

  /** Frames, each read into its fields. */
  function ReadAll(frames: seq<string>): (ps: seq<Parsed>)
    ensures |ps| == |frames|
  {
    seq(|frames|, i requires 0 <= i < |frames| => ReadFrame(frames[i]))
  }

  lemma {:induction false} FoldRead(handle: Step<string>, react: Step<Parsed>, v: View, frames: seq<string>, ps: seq<Parsed>)
    requires |frames| == |ps|
    requires forall u, i :: 0 <= i < |frames| ==> handle(u, frames[i]) == react(u, ps[i])
    ensures Fold(handle, v, frames) == Fold(react, v, ps)
  {
    if frames != [] {
      FoldRead(handle, react, v, frames[..|frames| - 1], ps[..|ps| - 1]);
    }
  }

  lemma HandlerReads(decode: Decoder, v: View, frames: seq<string>)
    ensures Fold(Handler(decode), v, frames) == Fold(Reactor(decode), v, ReadAll(frames))
  {
    forall u, i | 0 <= i < |frames| ensures Handler(decode)(u, frames[i]) == Reactor(decode)(u, ReadAll(frames)[i]) {
      assert ReadAll(frames)[i] == ReadFrame(frames[i]);
    }
    FoldRead(Handler(decode), Reactor(decode), v, frames, ReadAll(frames));
  }

  // ----- The read loop ----------------------------------------------------------------------

  class Stream {
    const decode: Decoder
    var buffer: string
    var lastEventId: string
    var fullResponse: string
    var releasedDeltas: seq<Released>
    var closed: bool

    constructor (decode: Decoder)
      ensures this.decode == decode && Shown() == BLANK_VIEW && buffer == ""
    {
      this.decode := decode;
      buffer, lastEventId, fullResponse, releasedDeltas, closed := "", "", "", [], false;
    }

    function Shown(): View
      reads this
    {
      View(lastEventId, fullResponse, releasedDeltas, closed)
    }

    /** A new connection starts with an empty buffer and keeps everything else. */
    method Connect()
      modifies this`buffer
      ensures buffer == ""
    {
      buffer := "";
    }

    /** A connection from its start: what it leaves is what `Feed` says. */
    method ReadConnection(chunks: seq<string>)
      modifies this
      ensures (Shown(), buffer) == Feed(Handler(decode), old(Shown()), "", chunks)
    {
      ghost var step, before := Handler(decode), Shown();
      Connect();
      var i := 0;
      assert chunks[0..] == chunks;
      while i < |chunks|
        invariant 0 <= i <= |chunks|
        invariant Feed(step, Shown(), buffer, chunks[i..]) == Feed(step, before, "", chunks)
      {
        assert chunks[i..][1..] == chunks[i + 1..];
        OnChunk(chunks[i]);
        i := i + 1;
      }
    }

    /** One `reader.read()`: buffer, split, keep the open piece, handle the complete frames. */
    method OnChunk(chunk: string)
      modifies this
      ensures Shown() == Fold(Handler(decode), old(Shown()), Frames(old(buffer) + chunk))
      ensures buffer == Rest(old(buffer) + chunk)
    {
      var all := buffer + chunk;
      buffer := Rest(all);
      HandleFrames(Frames(all));
    }

    method HandleFrames(frames: seq<string>)
      modifies this
      ensures Shown() == Fold(Handler(decode), old(Shown()), frames)
      ensures buffer == old(buffer)
    {
      ghost var step := Handler(decode);
      ghost var before := Shown();
      var i := 0;
      while i < |frames|
        invariant 0 <= i <= |frames|
        invariant Shown() == Fold(step, before, frames[..i])
        invariant buffer == old(buffer)
      {
        assert frames[..i + 1][..i] == frames[..i];
        HandleFrame(frames[i]);
        i := i + 1;
      }
      assert frames[..i] == frames;
    }

    method HandleFrame(frame: string)
      modifies this
      ensures Shown() == Handler(decode)(old(Shown()), frame)
      ensures buffer == old(buffer)
    {
      var p := ParseFrame(frame);
      React(p);
    }

    /** The part of `handleFrame` behind the line loop. */
    method React(p: Parsed)
      modifies this
      ensures Shown() == Dispatch(decode, old(Shown()), p)
      ensures buffer == old(buffer)
    {
      if p.id.Some? {
        lastEventId := p.id.value;
      }
      if p.data != [] {
        HandleData(JoinLines(p.data), p.event, FrameId(p));
      }
    }

    method HandleData(data: string, frameEvent: string, frameId: string)
      modifies this`fullResponse, this`releasedDeltas, this`closed
      ensures Shown() == OnData(decode, old(Shown()), data, frameEvent, frameId)
    {
      if data == "[DONE]" {
        return;
      }
      var payload := decode(data);
      if payload.None? {
        fullResponse := fullResponse + data;
      } else {
        HandlePayload(frameEvent, frameId, payload.value);
      }
    }

    method HandlePayload(frameEvent: string, frameId: string, body: Payload)
      modifies this`fullResponse, this`releasedDeltas, this`closed
      ensures Shown() == OnEvent(old(Shown()), frameEvent, frameId, body)
    {
      if frameEvent == "delta" {
        if body.content != "" {
          fullResponse := fullResponse + body.content;
          releasedDeltas := releasedDeltas + (if frameId == "" then [] else [Released(frameId, body.content)]);
        }
      } else if frameEvent == "retraction" {
        releasedDeltas := Keep(releasedDeltas, Threshold(body));
        fullResponse := Visible(releasedDeltas);
      } else if frameEvent == "result" || frameEvent == "error" {
        closed := true;
      }
    }
  }

  /** Reading a connection chunk by chunk. */
  function Feed(step: Step<string>, v: View, buffer: string, chunks: seq<string>): (View, string)
    decreases |chunks|
  {
    if chunks == [] then (v, buffer)
    else
      var all := buffer + chunks[0];
      Feed(step, Fold(step, v, Frames(all)), Rest(all), chunks[1..])
  }

  function Received(chunks: seq<string>): string {
    if chunks == [] then "" else chunks[0] + Received(chunks[1..])
  }

  /** Every buffer the read loop leaves behind is an open piece. */
  predicate OpenPiece(s: string) {
    Frames(s) == [] && Rest(s) == s
  }

  /** However a connection's text is cut into chunks, the widget ends in the same state. */
  lemma {:induction false} ChunkingIrrelevant(step: Step<string>, v: View, buffer: string, chunks: seq<string>)
    requires OpenPiece(buffer)
    ensures
      var all := buffer + Received(chunks);
      Feed(step, v, buffer, chunks) == (Fold(step, v, Frames(all)), Rest(all))
    decreases |chunks|
  {
    if chunks == [] {
      EmptyRight(buffer);
    } else {
      var first, more := buffer + chunks[0], Received(chunks[1..]);
      Associate(buffer, chunks[0], more);
      ChunkBoundariesInvisible(first, more);
      RestIsOpen(first);
      ChunkingIrrelevant(step, Fold(step, v, Frames(first)), Rest(first), chunks[1..]);
      FoldConcat(step, v, Frames(first), Frames(Rest(first) + more));
    }
  }

  lemma EmptyRight(s: string)
    ensures s + "" == s
  {
  }

  lemma Associate(a: string, b: string, c: string)
    ensures a + (b + c) == (a + b) + c
  {
  }

  lemma NothingAdded(f: seq<string>, g: seq<string>)
    requires f == f + g
    ensures g == []
  {
    assert |f| == |f| + |g|;
  }

  lemma RestIsOpen(s: string)
    ensures OpenPiece(Rest(s))
  {
    ChunkBoundariesInvisible(s, "");
    EmptyRight(s);
    EmptyRight(Rest(s));
    NothingAdded(Frames(s), Frames(Rest(s)));
  }

  // ----- Retraction -------------------------------------------------------------------------

  /** The visible text is the concatenation of the released deltas. */
  predicate InSync(v: View) {
    v.text == Visible(v.released)
  }

  /** A frame whose text the widget shows but cannot retract. */
  predicate Untracked(decode: Decoder, p: Parsed) {
    p.data != [] &&
    var data := JoinLines(p.data);
    data != "[DONE]" &&
    match decode(data)
    case None => data != ""
    case Some(body) => p.event == "delta" && body.content != "" && FrameId(p) == ""
  }

  lemma VisibleAppend(rs: seq<Released>, r: Released)
    ensures Visible(rs + [r]) == Visible(rs) + r.text
  {
    assert (rs + [r])[..|rs|] == rs;
  }

  /** One frame keeps the text in step with the released deltas exactly when it is tracked. */
  lemma SyncIff(decode: Decoder, v: View, p: Parsed)
    requires InSync(v)
    ensures InSync(Dispatch(decode, v, p)) <==> !Untracked(decode, p)
  {
    var w := Dispatch(decode, v, p);
    if p.data != [] {
      var data := JoinLines(p.data);
      match decode(data)
      case None =>
        assert data != "[DONE]" ==> w.released == v.released && |w.text| == |v.text| + |data|;
      case Some(body) =>
        VisibleAppend(v.released, Released(FrameId(p), body.content));
        EventSync(Note(v, p), p.event, FrameId(p), body);
    }
  }

  lemma EventSync(v: View, event: string, id: string, body: Payload)
    requires InSync(v)
    ensures InSync(OnEvent(v, event, id, body)) <==> !(event == "delta" && body.content != "" && id == "")
  {
    var w := OnEvent(v, event, id, body);
    if event == "delta" && body.content != "" {
      VisibleAppend(v.released, Released(id, body.content));
      if id == "" {
        assert w.released == v.released && |w.text| == |v.text| + |body.content|;
      }
    }
  }

  /** The frames that end the exchange. */
  predicate Closes(decode: Decoder, p: Parsed) {
    && p.data != [] && JoinLines(p.data) != "[DONE]" && decode(JoinLines(p.data)).Some?
    && (p.event == "result" || p.event == "error")
  }

  lemma ClosesOne(decode: Decoder, v: View, p: Parsed)
    ensures Dispatch(decode, v, p).closed <==> v.closed || Closes(decode, p)
  {
  }

  lemma {:induction false} FoldCloses(step: Step<Parsed>, v: View, ps: seq<Parsed>, closes: Parsed -> bool)
    requires forall u, p :: step(u, p).closed <==> u.closed || closes(p)
    ensures Fold(step, v, ps).closed <==> v.closed || exists i :: 0 <= i < |ps| && closes(ps[i])
  {
    if ps != [] {
      var last := |ps| - 1;
      FoldCloses(step, v, ps[..last], closes);
      assert forall i :: 0 <= i < last ==> ps[..last][i] == ps[i];
    }
  }

  /** The exchange is over exactly when a result or an error has come, and stays over. */
  lemma {:induction false} ClosedIff(decode: Decoder, v: View, ps: seq<Parsed>)
    ensures Fold(Reactor(decode), v, ps).closed <==> v.closed || exists i :: 0 <= i < |ps| && Closes(decode, ps[i])
  {
    forall u, p ensures Reactor(decode)(u, p).closed <==> u.closed || Closes(decode, p) { ClosesOne(decode, u, p); }
    FoldCloses(Reactor(decode), v, ps, p => Closes(decode, p));
  }

  lemma {:induction false} FoldKeeps(step: Step<Parsed>, v: View, ps: seq<Parsed>, fine: Parsed -> bool)
    requires InSync(v) && (forall i :: 0 <= i < |ps| ==> fine(ps[i]))
    requires forall u, p :: InSync(u) && fine(p) ==> InSync(step(u, p))
    ensures InSync(Fold(step, v, ps))
  {
    if ps != [] {
      FoldKeeps(step, v, ps[..|ps| - 1], fine);
    }
  }

  /** Over any sequence of tracked frames the text stays the concatenation of the released deltas. */
  lemma {:induction false} SyncKept(decode: Decoder, v: View, ps: seq<Parsed>)
    requires InSync(v) && forall i :: 0 <= i < |ps| ==> !Untracked(decode, ps[i])
    ensures InSync(Fold(Reactor(decode), v, ps))
  {
    var fine := (p: Parsed) => !Untracked(decode, p);
    forall u, p | InSync(u) && fine(p) ensures InSync(Reactor(decode)(u, p)) {
      SyncIff(decode, u, p);
    }
    FoldKeeps(Reactor(decode), v, ps, fine);
  }

  function Number(r: Released): int {
    match ParseInt(r.id) case None => -1 case Some(n) => n
  }

  /** Released ids are numbers and increase. */
  predicate Increasing(rs: seq<Released>) {
    && (forall i :: 0 <= i < |rs| ==> ParseInt(rs[i].id).Some?)
    && (forall i, j :: 0 <= i < j < |rs| ==> Number(rs[i]) < Number(rs[j]))
  }

  lemma {:induction false} UnlessIsPrefix(rs: seq<Released>, drop: Released -> bool, n: nat)
    requires n <= |rs| && forall i :: 0 <= i < |rs| ==> (drop(rs[i]) <==> i >= n)
    ensures Unless(rs, drop) == rs[..n]
  {
    if rs != [] {
      var last := |rs| - 1;
      assert forall i :: 0 <= i < last ==> rs[..last][i] == rs[i];
      UnlessIsPrefix(rs[..last], drop, if n == |rs| then last else n);
      if n == |rs| {
        assert rs[..last] + [rs[last]] == rs[..n];
      } else {
        assert rs[..last][..n] + [] == rs[..n];
      }
    }
  }

  /** How many of the released deltas are below a threshold. */
  function Below(rs: seq<Released>, k: int): (n: nat)
    ensures n <= |rs|
    ensures n > 0 ==> Number(rs[n - 1]) < k
    ensures forall i :: n <= i < |rs| ==> Number(rs[i]) >= k
  {
    if rs == [] then 0
    else if Number(rs[|rs| - 1]) < k then |rs|
    else Below(rs[..|rs| - 1], k)
  }

  /** A retraction from `k` on leaves exactly the released deltas with an id below `k`, which is a prefix. */
  lemma {:induction false} RetractionKeepsPrefix(rs: seq<Released>, k: int)
    requires Increasing(rs)
    ensures Keep(rs, k) == rs[..Below(rs, k)]
    ensures forall i :: 0 <= i < |rs| ==> (Number(rs[i]) < k <==> i < Below(rs, k))
  {
    var n := Below(rs, k);
    forall i | 0 <= i < |rs| ensures Number(rs[i]) < k <==> i < n {
      if i + 1 < n { assert Number(rs[i]) < Number(rs[n - 1]); }
    }
    UnlessIsPrefix(rs, (r: Released) => Retracted(r, k), n);
  }

  /** After a retraction frame the visible text is the text of that prefix. */
  lemma RetractionShowsPrefix(v: View, id: string, p: Payload)
    requires Increasing(v.released)
    ensures
      var w := OnEvent(v, "retraction", id, p);
      var n := Below(v.released, Threshold(p));
      && w.released == v.released[..n] && w.text == Visible(v.released[..n])
      && InSync(w) && Increasing(w.released)
  {
    RetractionKeepsPrefix(v.released, Threshold(p));
  }

  // ----- Retraction over a whole stream ---------------------------------------------------------

  /** The delta that a frame makes retractable. */
  function ReleasedBy(decode: Decoder, p: Parsed): Option<Released> {
    if p.data == [] || JoinLines(p.data) == "[DONE]" then None
    else
      match decode(JoinLines(p.data))
      case None => None
      case Some(body) =>
        if p.event == "delta" && body.content != "" && FrameId(p) != "" then Some(Released(FrameId(p), body.content)) else None
  }

  /** The frames' delta ids are numbers and increase. */
  ghost predicate IncreasingIds(decode: Decoder, ps: seq<Parsed>) {
    && (forall i :: 0 <= i < |ps| && ReleasedBy(decode, ps[i]).Some? ==> ParseInt(ReleasedBy(decode, ps[i]).value.id).Some?)
    && (forall i, j :: 0 <= i < j < |ps| && ReleasedBy(decode, ps[i]).Some? && ReleasedBy(decode, ps[j]).Some? ==>
          Number(ReleasedBy(decode, ps[i]).value) < Number(ReleasedBy(decode, ps[j]).value))
  }

  /** Every released delta came with one of the frames. */
  ghost predicate CameWith(decode: Decoder, rs: seq<Released>, ps: seq<Parsed>) {
    forall r :: r in rs ==> exists i :: 0 <= i < |ps| && ReleasedBy(decode, ps[i]) == Some(r)
  }

  /** What one frame does to the released deltas. */
  lemma ReleasedStep(decode: Decoder, v: View, p: Parsed)
    ensures
      var w := Dispatch(decode, v, p);
      || (ReleasedBy(decode, p).Some? && w.released == v.released + [ReleasedBy(decode, p).value])
      || (ReleasedBy(decode, p).None? && (w.released == v.released || exists k :: w.released == Keep(v.released, k)))
  {
    if p.data != [] {
      match decode(JoinLines(p.data))
      case None =>
      case Some(body) =>
        if p.event == "retraction" {
          assert JoinLines(p.data) != "[DONE]" ==> Dispatch(decode, v, p).released == Keep(v.released, Threshold(body));
        } else if p.event == "delta" && FrameId(p) == "" {
          assert v.released + [] == v.released;
        }
    }
  }

  lemma CameWithMore(decode: Decoder, rs: seq<Released>, ps: seq<Parsed>)
    requires ps != [] && CameWith(decode, rs, ps[..|ps| - 1])
    ensures CameWith(decode, rs, ps)
  {
    forall r | r in rs ensures exists i :: 0 <= i < |ps| && ReleasedBy(decode, ps[i]) == Some(r) {
      var i :| 0 <= i < |ps| - 1 && ReleasedBy(decode, ps[..|ps| - 1][i]) == Some(r);
      assert ps[i] == ps[..|ps| - 1][i];
    }
  }

  lemma IncreasingSnoc(rs: seq<Released>, r: Released)
    requires Increasing(rs) && ParseInt(r.id).Some? && forall x :: x in rs ==> Number(x) < Number(r)
    ensures Increasing(rs + [r])
  {
  }

  lemma IncreasingPrefix(rs: seq<Released>, n: nat)
    requires Increasing(rs) && n <= |rs|
    ensures Increasing(rs[..n])
  {
  }

  /** A frame after frames with smaller ids keeps the released deltas in order. */
  lemma IncreasingStep(decode: Decoder, v: View, ps: seq<Parsed>)
    requires ps != [] && IncreasingIds(decode, ps)
    requires Increasing(v.released) && CameWith(decode, v.released, ps[..|ps| - 1])
    ensures
      var w := Dispatch(decode, v, ps[|ps| - 1]);
      Increasing(w.released) && CameWith(decode, w.released, ps)
  {
    var n := |ps| - 1;
    var p := ps[n];
    ReleasedStep(decode, v, p);
    CameWithMore(decode, v.released, ps);
    if ReleasedBy(decode, p).Some? {
      var r := ReleasedBy(decode, p).value;
      forall x | x in v.released ensures Number(x) < Number(r) {
        var i :| 0 <= i < n && ReleasedBy(decode, ps[..n][i]) == Some(x);
        assert ps[i] == ps[..n][i];
      }
      IncreasingSnoc(v.released, r);
    } else if Dispatch(decode, v, p).released != v.released {
      var k :| Dispatch(decode, v, p).released == Keep(v.released, k);
      RetractionKeepsPrefix(v.released, k);
      IncreasingPrefix(v.released, Below(v.released, k));
    }
  }

  /** Over any frames with increasing delta ids, retractions among them, the released deltas stay in order. */
  lemma {:induction false} ReleasedStayIncreasing(decode: Decoder, ps: seq<Parsed>)
    requires IncreasingIds(decode, ps)
    ensures
      var v := Fold(Reactor(decode), BLANK_VIEW, ps);
      Increasing(v.released) && CameWith(decode, v.released, ps)
  {
    if ps != [] {
      var front := ps[..|ps| - 1];
      assert forall i :: 0 <= i < |front| ==> front[i] == ps[i];
      ReleasedStayIncreasing(decode, front);
      IncreasingStep(decode, Fold(Reactor(decode), BLANK_VIEW, front), ps);
    }
  }

  /**
   Retraction over a stream: after any tracked frames with increasing delta ids the text
   is the released deltas in order, and a retraction from `k` on leaves exactly those with
   an id below `k`, which is a prefix of them.
   */
  lemma RetractionOverFrames(decode: Decoder, ps: seq<Parsed>, id: string, body: Payload)
    requires IncreasingIds(decode, ps) && forall i :: 0 <= i < |ps| ==> !Untracked(decode, ps[i])
    ensures
      var v := Fold(Reactor(decode), BLANK_VIEW, ps);
      var w := OnEvent(v, "retraction", id, body);
      var n := Below(v.released, Threshold(body));
      && v.text == Visible(v.released)
      && w.released == v.released[..n] && w.text == Visible(v.released[..n])
      && forall i :: 0 <= i < |v.released| ==> (Number(v.released[i]) < Threshold(body) <==> i < n)
  {
    var v := Fold(Reactor(decode), BLANK_VIEW, ps);
    SyncKept(decode, BLANK_VIEW, ps);
    ReleasedStayIncreasing(decode, ps);
    RetractionShowsPrefix(v, id, body);
    RetractionKeepsPrefix(v.released, Threshold(body));
  }
}
