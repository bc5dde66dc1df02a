/**
 Tool calls over a stream: the OpenAI-compatible adapter turns provider chunks into
 events, and the gateway reassembles the events into calls.
 */
module ToolCalls {
  import opened Text
  import opened Routing
  import opened Streaming
  import opened StreamingSafety

  /** One entry of `delta.tool_calls`; an absent field is the empty string. */
  datatype Piece = Piece(index: int, id: string, name: string, args: string)

  datatype Choice = Choice(finish: Option<string>, content: string, tools: seq<Piece>)

  datatype Chunk = Chunk(usage: Option<Usage>, choices: seq<Choice>)

  // ----- The adapter ----------------------------------------------------------------

  datatype OpenTool = OpenTool(id: string, name: string)

  /** `open` is the dictionary of started calls and `order` its insertion order. */
  datatype Adapter = Adapter(
    open: map<int, OpenTool>,
    order: seq<int>,
    usage: Usage,
    reason: Option<string>,
    events: seq<AdapterEvent>)

  const START := Adapter(map[], [], Usage(0, 0), None, [])

  function StepReason(a: Adapter, c: Choice): Adapter {
    var b := if c.finish.Some? then a.(reason := c.finish) else a;
    if c.content == "" then b else b.(events := b.events + [Delta(c.content)])
  }

  function StepPiece(a: Adapter, p: Piece): Adapter {
    var b := if p.index in a.open then a
             else a.(open := a.open[p.index := OpenTool(p.id, p.name)], order := a.order + [p.index],
                     events := a.events + [ToolStart(Some(p.index), p.id, p.name)]);
    if p.args == "" then b
    else b.(events := b.events + [ToolDelta(Some(p.index), b.open[p.index].id, "", p.args)])
  }

  function StepPieces(a: Adapter, ps: seq<Piece>): Adapter {
    if ps == [] then a else StepPiece(StepPieces(a, ps[..|ps| - 1]), ps[|ps| - 1])
  }

  function StepChoice(a: Adapter, c: Choice): Adapter {
    StepPieces(StepReason(a, c), c.tools)
  }

  function StepChoices(a: Adapter, cs: seq<Choice>): Adapter {
    if cs == [] then a else StepChoice(StepChoices(a, cs[..|cs| - 1]), cs[|cs| - 1])
  }

  /** A chunk that carries usage is read for its usage alone. */
  function StepChunk(a: Adapter, ch: Chunk): Adapter {
    match ch.usage
    case Some(u) => a.(usage := u, events := a.events + [UsageReport(Some(u))])
    case None => StepChoices(a, ch.choices)
  }

  function StepChunks(a: Adapter, chs: seq<Chunk>): Adapter {
    if chs == [] then a else StepChunk(StepChunks(a, chs[..|chs| - 1]), chs[|chs| - 1])
  }

  function EndOf(open: map<int, OpenTool>, k: int): AdapterEvent {
    if k in open then ToolEnd(Some(k), open[k].id, open[k].name) else Other
  }

  function Ends(open: map<int, OpenTool>, order: seq<int>): seq<AdapterEvent> {
    if order == [] then []
    else Ends(open, order[..|order| - 1]) + [EndOf(open, order[|order| - 1])]
  }

  function AdapterEvents(chunks: seq<Chunk>): seq<AdapterEvent> {
    var a := StepChunks(START, chunks);
    a.events + Ends(a.open, a.order) + [Finish(a.reason, Some(a.usage))]
  }

  /** `_OpenAICompatAdapter.stream`: the chunk loop with its `open_tools` dictionary. */
  method Stream(chunks: seq<Chunk>) returns (events: seq<AdapterEvent>)
    ensures events == AdapterEvents(chunks)
  {
    var a := START;
    var i := 0;
    while i < |chunks|
      invariant 0 <= i <= |chunks|
      invariant a == StepChunks(START, chunks[..i])
    {
      assert chunks[..i + 1][..i] == chunks[..i];
      a := OnChunk(a, chunks[i]);
      i := i + 1;
    }
    assert chunks[..i] == chunks;
    events := a.events;
    var j := 0;
    while j < |a.order|
      invariant 0 <= j <= |a.order|
      invariant events == a.events + Ends(a.open, a.order[..j])
    {
      assert a.order[..j + 1][..j] == a.order[..j];
      events := events + [EndOf(a.open, a.order[j])];
      j := j + 1;
    }
    assert a.order[..j] == a.order;
    events := events + [Finish(a.reason, Some(a.usage))];
  }

  method OnChunk(start: Adapter, chunk: Chunk) returns (a: Adapter)
    ensures a == StepChunk(start, chunk)
  {
    a := start;
    if chunk.usage.Some? {
      return a.(usage := chunk.usage.value, events := a.events + [UsageReport(chunk.usage)]);
    }
    var i := 0;
    while i < |chunk.choices|
      invariant 0 <= i <= |chunk.choices|
      invariant a == StepChoices(start, chunk.choices[..i])
    {
      assert chunk.choices[..i + 1][..i] == chunk.choices[..i];
      a := OnTools(StepReason(a, chunk.choices[i]), chunk.choices[i].tools);
      i := i + 1;
    }
    assert chunk.choices[..i] == chunk.choices;
  }

  method OnTools(start: Adapter, tools: seq<Piece>) returns (a: Adapter)
    ensures a == StepPieces(start, tools)
  {
    a := start;
    for j := 0 to |tools|
      invariant a == StepPieces(start, tools[..j])
    {
      assert tools[..j + 1][..j] == tools[..j];
      a := StepPiece(a, tools[j]);
    }
    assert tools[..|tools|] == tools;
  }

  // ----- The message the chunks add up to ---------------------------------------------

  function PiecesOfChoices(cs: seq<Choice>): seq<Piece> {
    if cs == [] then [] else PiecesOfChoices(cs[..|cs| - 1]) + cs[|cs| - 1].tools
  }

  /** The tool-call pieces, in arrival order, of the chunks that carry no usage: those the adapter reads. */
  function KeptPieces(chunks: seq<Chunk>): seq<Piece> {
    if chunks == [] then []
    else
      var ch := chunks[|chunks| - 1];
      KeptPieces(chunks[..|chunks| - 1]) + (if ch.usage.Some? then [] else PiecesOfChoices(ch.choices))
  }

  /** The first piece of a call carries its id and name. */
  function FirstOf(ps: seq<Piece>, k: int): Option<Piece> {
    if ps == [] then None
    else
      var f := FirstOf(ps[..|ps| - 1], k);
      if f.None? && ps[|ps| - 1].index == k then Some(ps[|ps| - 1]) else f
  }

  function ArgsOf(ps: seq<Piece>, k: int): string {
    if ps == [] then ""
    else ArgsOf(ps[..|ps| - 1], k) + (if ps[|ps| - 1].index == k then ps[|ps| - 1].args else "")
  }

  /** The calls of the one-shot message that these pieces are a split of. */
  function Merged(ps: seq<Piece>): map<int, ToolEntry> {
    if ps == [] then map[] else Extend(Merged(ps[..|ps| - 1]), ps[|ps| - 1])
  }

  function Extend(message: map<int, ToolEntry>, p: Piece): map<int, ToolEntry> {
    message[p.index := if p.index in message then message[p.index].(args := message[p.index].args + p.args)
                       else ToolEntry(p.id, p.name, p.args)]
  }

  /**
   What merging means: a call is present when one of its pieces is, has the id and name
   of its first piece, and the concatenation of all its pieces' arguments.
   */
  lemma {:induction false} MergedMeans(ps: seq<Piece>, k: int)
    ensures k in Merged(ps) <==> FirstOf(ps, k).Some?
    ensures k in Merged(ps) <==> exists i :: 0 <= i < |ps| && ps[i].index == k
    ensures k in Merged(ps) ==> Merged(ps)[k] == ToolEntry(FirstOf(ps, k).value.id, FirstOf(ps, k).value.name, ArgsOf(ps, k))
    ensures k !in Merged(ps) ==> ArgsOf(ps, k) == ""
  {
    if ps != [] {
      var n := |ps| - 1;
      MergedMeans(ps[..n], k);
      if i :| 0 <= i < |ps| && ps[i].index == k && i < n {
        assert ps[..n][i].index == k;
      }
      if i :| 0 <= i < n && ps[..n][i].index == k {
        assert ps[i].index == k;
      }
    }
  }

  // ----- What the gateway accumulates ---------------------------------------------------

  predicate NoFailure(events: seq<AdapterEvent>) {
    forall i :: 0 <= i < |events| ==> !events[i].Failure?
  }

  /** The attempt's variables after a run of events. */
  function Accumulate(st: Attempt, events: seq<AdapterEvent>): Attempt {
    if events == [] then st
    else
      var before := Accumulate(st, events[..|events| - 1]);
      match Handle(before, events[|events| - 1])
      case Handled(st', _) => st'
      case Raised(_) => before
  }

  lemma {:induction false} AccumulateFront(st: Attempt, events: seq<AdapterEvent>)
    requires events != [] && NoFailure(events)
    ensures Handle(st, events[0]).Handled? && Accumulate(st, events) == Accumulate(Handle(st, events[0]).st, events[1..])
  {
    var n := |events| - 1;
    if n == 0 {
      assert events[..0] == [] && events[1..] == [];
    } else {
      AccumulateFront(st, events[..n]);
      assert events[..n][1..] == events[1..][..n - 1];
      assert events[1..][n - 1] == events[n];
    }
  }

  lemma {:induction false} RenderAccumulates(st: Attempt, events: seq<AdapterEvent>, started: bool)
    requires NoFailure(events)
    ensures RenderFrom(events, None, st, started).st == Accumulate(st, events)
    decreases |events|
  {
    if events != [] {
      AccumulateFront(st, events);
      RenderAccumulates(Handle(st, events[0]).st, events[1..], true);
    }
  }

  /** The gateway's table agrees with the adapter's dictionary and with the pieces so far. */
  ghost predicate Table(tools: map<int, ToolEntry>, open: map<int, OpenTool>, ps: seq<Piece>) {
    && tools == Merged(ps)
    && tools.Keys == open.Keys
    && forall k :: k in open ==> tools[k].id == open[k].id && tools[k].name == open[k].name
  }

  ghost predicate InStep(a: Adapter, ps: seq<Piece>) {
    NoFailure(a.events) && Table(Accumulate(FRESH, a.events).tools, a.open, ps)
  }

  lemma AccumulateSnoc(st: Attempt, events: seq<AdapterEvent>, e: AdapterEvent)
    requires !e.Failure?
    ensures Accumulate(st, events + [e]) == Handle(Accumulate(st, events), e).st
  {
    assert (events + [e])[..|events|] == events;
  }

  /** The table after one piece, however the adapter announced it. */
  lemma TableExtend(tools: map<int, ToolEntry>, open: map<int, OpenTool>, ps: seq<Piece>, p: Piece)
    requires Table(tools, open, ps)
    ensures Table(Extend(tools, p), if p.index in open then open else open[p.index := OpenTool(p.id, p.name)], ps + [p])
  {
    assert (ps + [p])[..|ps|] == ps;
    assert Extend(tools, p).Keys == tools.Keys + {p.index};
  }

  lemma DeltaExtends(events: seq<AdapterEvent>, p: Piece, id: string)
    requires
      var tools := Accumulate(FRESH, events).tools;
      p.index in tools && tools[p.index].id == id
    ensures Accumulate(FRESH, events + [ToolDelta(Some(p.index), id, "", p.args)]).tools ==
            Extend(Accumulate(FRESH, events).tools, p)
  {
    AccumulateSnoc(FRESH, events, ToolDelta(Some(p.index), id, "", p.args));
  }

  lemma StartAdds(events: seq<AdapterEvent>, p: Piece)
    requires p.index !in Accumulate(FRESH, events).tools
    ensures Accumulate(FRESH, events + [ToolStart(Some(p.index), p.id, p.name)]).tools ==
            Accumulate(FRESH, events).tools[p.index := ToolEntry(p.id, p.name, "")]
  {
    AccumulateSnoc(FRESH, events, ToolStart(Some(p.index), p.id, p.name));
  }

  lemma ExtendFresh(tools: map<int, ToolEntry>, p: Piece)
    requires p.index !in tools
    ensures Extend(tools[p.index := ToolEntry(p.id, p.name, "")], p) == Extend(tools, p)
    ensures p.args == "" ==> tools[p.index := ToolEntry(p.id, p.name, "")] == Extend(tools, p)
  {
    assert "" + p.args == p.args;
  }

  lemma ExtendNothing(tools: map<int, ToolEntry>, p: Piece)
    requires p.index in tools && p.args == ""
    ensures Extend(tools, p) == tools
  {
    assert tools[p.index].args + "" == tools[p.index].args;
  }

  lemma KnownPieceInStep(a: Adapter, ps: seq<Piece>, p: Piece)
    requires InStep(a, ps) && p.index in a.open
    ensures InStep(StepPiece(a, p), ps + [p])
  {
    ghost var tools := Accumulate(FRESH, a.events).tools;
    TableExtend(tools, a.open, ps, p);
    if p.args == "" {
      ExtendNothing(tools, p);
    } else {
      DeltaExtends(a.events, p, a.open[p.index].id);
    }
  }

  lemma NewPieceInStep(a: Adapter, ps: seq<Piece>, p: Piece)
    requires InStep(a, ps) && p.index !in a.open
    ensures InStep(StepPiece(a, p), ps + [p])
  {
    TableExtend(Accumulate(FRESH, a.events).tools, a.open, ps, p);
    NewPieceTools(a.events, p);
    NewPieceStep(a, p);
    NewPieceSafe(a.events, p);
  }

  lemma NewPieceStep(a: Adapter, p: Piece)
    requires p.index !in a.open
    ensures StepPiece(a, p).events == a.events + NewPieceEvents(p)
    ensures StepPiece(a, p).open == a.open[p.index := OpenTool(p.id, p.name)]
  {
  }

  lemma NewPieceSafe(events: seq<AdapterEvent>, p: Piece)
    requires NoFailure(events)
    ensures NoFailure(events + NewPieceEvents(p))
  {
  }

  /** What the adapter sends for the first piece of a call. */
  function NewPieceEvents(p: Piece): seq<AdapterEvent> {
    [ToolStart(Some(p.index), p.id, p.name)] + (if p.args == "" then [] else [ToolDelta(Some(p.index), p.id, "", p.args)])
  }

  lemma NewPieceTools(events: seq<AdapterEvent>, p: Piece)
    requires p.index !in Accumulate(FRESH, events).tools
    ensures Accumulate(FRESH, events + NewPieceEvents(p)).tools == Extend(Accumulate(FRESH, events).tools, p)
  {
    var start := ToolStart(Some(p.index), p.id, p.name);
    StartAdds(events, p);
    ExtendFresh(Accumulate(FRESH, events).tools, p);
    if p.args == "" {
      assert events + NewPieceEvents(p) == events + [start];
    } else {
      var delta := ToolDelta(Some(p.index), p.id, "", p.args);
      assert events + NewPieceEvents(p) == (events + [start]) + [delta];
      DeltaExtends(events + [start], p, p.id);
    }
  }

  /** One piece keeps the gateway's table equal to the merged message. */
  lemma PieceInStep(a: Adapter, ps: seq<Piece>, p: Piece)
    requires InStep(a, ps)
    ensures InStep(StepPiece(a, p), ps + [p])
  {
    if p.index in a.open { KnownPieceInStep(a, ps, p); } else { NewPieceInStep(a, ps, p); }
  }

  lemma {:induction false} PiecesInStep(a: Adapter, ps: seq<Piece>, more: seq<Piece>)
    requires InStep(a, ps)
    ensures InStep(StepPieces(a, more), ps + more)
  {
    if more == [] {
      assert ps + more == ps;
    } else {
      var n := |more| - 1;
      PiecesInStep(a, ps, more[..n]);
      PieceInStep(StepPieces(a, more[..n]), ps + more[..n], more[n]);
      Assoc(ps, more[..n], [more[n]]);
      assert more[..n] + [more[n]] == more;
    }
  }

  lemma ReasonInStep(a: Adapter, ps: seq<Piece>, c: Choice)
    requires InStep(a, ps)
    ensures InStep(StepReason(a, c), ps)
  {
    if c.content != "" {
      AccumulateSnoc(FRESH, a.events, Delta(c.content));
    }
  }

  lemma ChoiceInStep(a: Adapter, ps: seq<Piece>, c: Choice)
    requires InStep(a, ps)
    ensures InStep(StepChoice(a, c), ps + c.tools)
  {
    ReasonInStep(a, ps, c);
    PiecesInStep(StepReason(a, c), ps, c.tools);
  }

  lemma Assoc<T>(a: seq<T>, b: seq<T>, c: seq<T>)
    ensures a + b + c == a + (b + c)
  {
  }

  lemma {:induction false} ChoicesInStep(a: Adapter, ps: seq<Piece>, cs: seq<Choice>)
    requires InStep(a, ps)
    ensures InStep(StepChoices(a, cs), ps + PiecesOfChoices(cs))
  {
    if cs == [] {
      assert ps + [] == ps;
    } else {
      var n := |cs| - 1;
      ChoicesInStep(a, ps, cs[..n]);
      Assoc(ps, PiecesOfChoices(cs[..n]), cs[n].tools);
      ChoiceInStep(StepChoices(a, cs[..n]), ps + PiecesOfChoices(cs[..n]), cs[n]);
    }
  }

  lemma {:induction false} ChunksInStep(chunks: seq<Chunk>)
    ensures InStep(StepChunks(START, chunks), KeptPieces(chunks))
  {
    if chunks != [] {
      var n := |chunks| - 1;
      ChunksInStep(chunks[..n]);
      var a := StepChunks(START, chunks[..n]);
      if chunks[n].usage.Some? {
        AccumulateSnoc(FRESH, a.events, UsageReport(chunks[n].usage));
        assert KeptPieces(chunks[..n]) + [] == KeptPieces(chunks[..n]);
      } else {
        ChoicesInStep(a, KeptPieces(chunks[..n]), chunks[n].choices);
      }
    }
  }

  /** Closing the calls repeats what the table already holds. */
  lemma {:induction false} EndsKeepTable(st: Attempt, open: map<int, OpenTool>, order: seq<int>, ps: seq<Piece>)
    requires Table(st.tools, open, ps)
    ensures NoFailure(Ends(open, order))
    ensures Accumulate(st, Ends(open, order)).tools == st.tools
  {
    if order != [] {
      var n := |order| - 1;
      EndsKeepTable(st, open, order[..n], ps);
      AccumulateSnoc(st, Ends(open, order[..n]), EndOf(open, order[n]));
      if order[n] in open {
        assert st.tools[order[n] := st.tools[order[n]]] == st.tools;
      }
    }
  }

  lemma {:induction false} AccumulateConcat(st: Attempt, a: seq<AdapterEvent>, b: seq<AdapterEvent>)
    ensures Accumulate(st, a + b) == Accumulate(Accumulate(st, a), b)
  {
    if b == [] {
      assert a + b == a;
    } else {
      var n := |b| - 1;
      AccumulateConcat(st, a, b[..n]);
      assert (a + b)[..|a + b| - 1] == a + b[..n];
    }
  }

  lemma TailKeepsTable(a: Adapter, ps: seq<Piece>)
    requires InStep(a, ps)
    ensures
      var events := a.events + Ends(a.open, a.order) + [Finish(a.reason, Some(a.usage))];
      NoFailure(events) && Accumulate(FRESH, events).tools == Merged(ps)
  {
    EndsKeepTable(Accumulate(FRESH, a.events), a.open, a.order, ps);
    AccumulateConcat(FRESH, a.events, Ends(a.open, a.order));
    AccumulateSnoc(FRESH, a.events + Ends(a.open, a.order), Finish(a.reason, Some(a.usage)));
  }

  lemma CompletesWithTable(events: seq<AdapterEvent>)
    requires events != [] && NoFailure(events)
    ensures
      var r := Render(Script(None, events, None));
      r.end.Completed? && r.st == Accumulate(FRESH, events)
  {
    RenderAccumulates(FRESH, events, false);
    RenderFromHeard(events, None, FRESH, false);
    LiveAll(events);
  }

  /** The event stream of any chunk sequence rebuilds exactly the merged message. */
  lemma StreamRebuildsMessage(chunks: seq<Chunk>)
    ensures
      var r := Render(Script(None, AdapterEvents(chunks), None));
      r.end.Completed? && r.st.tools == Merged(KeptPieces(chunks))
  {
    ChunksInStep(chunks);
    TailKeepsTable(StepChunks(START, chunks), KeptPieces(chunks));
    CompletesWithTable(AdapterEvents(chunks));
  }

  lemma {:induction false} LiveAll(events: seq<AdapterEvent>)
    requires NoFailure(events)
    ensures Live(events) == events
  {
    if events != [] {
      LiveAll(events[1..]);
      LiveStep(events);
    }
  }

  // ----- Bracketing --------------------------------------------------------------------

  ghost predicate WellOpened(a: Adapter) {
    && Bracketed(a.events)
    && forall k :: k in a.open ==> Started(a.events, k)
  }

  predicate Started(events: seq<AdapterEvent>, k: int) {
    exists j :: 0 <= j < |events| && events[j].ToolStart? && Slot(events[j].index) == k
  }

  lemma StartedStays(events: seq<AdapterEvent>, e: AdapterEvent, k: int)
    requires Started(events, k) || (e.ToolStart? && Slot(e.index) == k)
    ensures Started(events + [e], k)
  {
    var all := events + [e];
    if Started(events, k) {
      var j :| 0 <= j < |events| && events[j].ToolStart? && Slot(events[j].index) == k;
      assert all[j] == events[j];
    } else {
      assert all[|events|] == e;
    }
  }

  lemma BracketedSnoc(events: seq<AdapterEvent>, e: AdapterEvent)
    requires Bracketed(events) && (Fragment(e) ==> Started(events, Slot(e.index)))
    ensures Bracketed(events + [e])
  {
    var all := events + [e];
    forall i | 0 <= i < |all| && Fragment(all[i]) ensures Opened(all, i) {
      if i < |events| {
        assert Opened(events, i);
        var j :| 0 <= j < i && events[j].ToolStart? && Slot(events[j].index) == Slot(events[i].index);
        assert all[j] == events[j];
      } else {
        var j :| 0 <= j < |events| && events[j].ToolStart? && Slot(events[j].index) == Slot(e.index);
        assert all[j] == events[j];
      }
    }
  }

  lemma PlainSnoc(a: Adapter, e: AdapterEvent)
    requires WellOpened(a) && (Fragment(e) ==> Started(a.events, Slot(e.index)))
    ensures WellOpened(a.(events := a.events + [e]))
  {
    BracketedSnoc(a.events, e);
    forall k | k in a.open ensures Started(a.events + [e], k) {
      StartedStays(a.events, e, k);
    }
  }

  lemma PieceWellOpened(a: Adapter, p: Piece)
    requires WellOpened(a)
    ensures WellOpened(StepPiece(a, p))
  {
    if p.index in a.open {
      PlainSnoc(a, ToolDelta(Some(p.index), a.open[p.index].id, "", p.args));
    } else {
      var start := ToolStart(Some(p.index), p.id, p.name);
      PlainSnoc(a, start);
      StartedStays(a.events, start, p.index);
      var b := a.(open := a.open[p.index := OpenTool(p.id, p.name)], order := a.order + [p.index], events := a.events + [start]);
      assert WellOpened(b);
      PlainSnoc(b, ToolDelta(Some(p.index), p.id, "", p.args));
    }
  }

  lemma {:induction false} PiecesWellOpened(a: Adapter, ps: seq<Piece>)
    requires WellOpened(a)
    ensures WellOpened(StepPieces(a, ps))
  {
    if ps != [] {
      PiecesWellOpened(a, ps[..|ps| - 1]);
      PieceWellOpened(StepPieces(a, ps[..|ps| - 1]), ps[|ps| - 1]);
    }
  }

  lemma {:induction false} ChoicesWellOpened(a: Adapter, cs: seq<Choice>)
    requires WellOpened(a)
    ensures WellOpened(StepChoices(a, cs))
  {
    if cs != [] {
      var n := |cs| - 1;
      ChoicesWellOpened(a, cs[..n]);
      var b := StepChoices(a, cs[..n]);
      PlainSnoc(b, Delta(cs[n].content));
      PiecesWellOpened(StepReason(b, cs[n]), cs[n].tools);
    }
  }

  lemma {:induction false} ChunksWellOpened(chunks: seq<Chunk>)
    ensures WellOpened(StepChunks(START, chunks))
  {
    if chunks != [] {
      var n := |chunks| - 1;
      ChunksWellOpened(chunks[..n]);
      var a := StepChunks(START, chunks[..n]);
      if chunks[n].usage.Some? {
        PlainSnoc(a, UsageReport(chunks[n].usage));
      } else {
        ChoicesWellOpened(a, chunks[n].choices);
      }
    }
  }

  lemma {:induction false} EndsWellOpened(a: Adapter, order: seq<int>)
    requires WellOpened(a)
    ensures WellOpened(a.(events := a.events + Ends(a.open, order)))
  {
    if order == [] {
      assert a.events + Ends(a.open, []) == a.events;
    } else {
      var n := |order| - 1;
      EndsWellOpened(a, order[..n]);
      var b := a.(events := a.events + Ends(a.open, order[..n]));
      PlainSnoc(b, EndOf(a.open, order[n]));
      assert b.events + [EndOf(a.open, order[n])] == a.events + Ends(a.open, order);
    }
  }

  /** The adapter always opens a call before sending its fragments. */
  lemma AdapterIsBracketed(chunks: seq<Chunk>)
    ensures Bracketed(AdapterEvents(chunks))
  {
    var a := StepChunks(START, chunks);
    ChunksWellOpened(chunks);
    EndsWellOpened(a, a.order);
    BracketedSnoc(a.events + Ends(a.open, a.order), Finish(a.reason, Some(a.usage)));
  }

  /** Events that such an adapter yields before it ends or breaks. */
  ghost predicate FromChunks(events: seq<AdapterEvent>) {
    exists chunks :: events <= AdapterEvents(chunks)
  }

  lemma BracketedPrefix(events: seq<AdapterEvent>, whole: seq<AdapterEvent>)
    requires Bracketed(whole) && events <= whole
    ensures Bracketed(events)
  {
    forall i | 0 <= i < |events| && Fragment(events[i]) ensures Opened(events, i) {
      assert Opened(whole, i);
      var j :| 0 <= j < i && whole[j].ToolStart? && Slot(whole[j].index) == Slot(whole[i].index);
      assert events[j] == whole[j];
    }
  }

  /** A stream over such adapters, wherever they break, never mixes deployments. */
  lemma AdapterStreamsAreSafe(x: Setting)
    requires Reached(x) && forall d :: FromChunks(x.cast(d).events)
    ensures SingleSource(x)
  {
    forall d ensures Bracketed(x.cast(d).events) {
      assert FromChunks(x.cast(d).events);
      var chunks :| x.cast(d).events <= AdapterEvents(chunks);
      AdapterIsBracketed(chunks);
      BracketedPrefix(x.cast(d).events, AdapterEvents(chunks));
    }
    BracketedStreamsAreSafe(x);
  }

  // ----- The final calls -----------------------------------------------------------------

  datatype Arguments<J> = Decoded(value: J) | Verbatim(raw: string)

  datatype Call<J> = Call(id: string, name: string, arguments: Arguments<J>)

  /** `decode` is JSON decoding to an object; `empty` is the object used for empty text. */
  function DecodeArgs<J>(decode: string -> Option<J>, empty: J, raw: string): Option<J> {
    if raw == "" then Some(empty) else decode(raw)
  }

  predicate Ready<J>(decode: string -> Option<J>, empty: J, e: ToolEntry) {
    e.id != "" && e.name != "" && DecodeArgs(decode, empty, e.args).Some?
  }

  /** `_parse_openai_tool_calls`: undecodable arguments are kept, nameless calls are dropped. */
  function ParseCalls<J>(decode: string -> Option<J>, empty: J, entries: seq<ToolEntry>): seq<Call<J>> {
    if entries == [] then []
    else
      var e := entries[|entries| - 1];
      var rest := ParseCalls(decode, empty, entries[..|entries| - 1]);
      var d := DecodeArgs(decode, empty, e.args);
      if e.name == "" then rest
      else rest + [Call(e.id, e.name, if d.Some? then Decoded(d.value) else Verbatim(e.args))]
  }

  /** `sorted(tool_acc)`. */
  function SortedKeys(s: set<int>): (keys: seq<int>)
    ensures forall k :: k in keys <==> k in s
    ensures forall i, j :: 0 <= i < j < |keys| ==> keys[i] < keys[j]
  {
    if s == {} then []
    else
      assert exists m :: Least(s, m) by { var m := HasMinimum(s); }
      var m :| Least(s, m);
      [m] + SortedKeys(s - {m})
  }

  lemma Pick<T>(s: set<T>) returns (x: T)
    requires s != {}
    ensures x in s
  {
    x :| x in s;
  }

  predicate Least(s: set<int>, m: int) {
    m in s && forall k :: k in s ==> m <= k
  }

  lemma {:induction false} HasMinimum(s: set<int>) returns (m: int)
    requires s != {}
    ensures Least(s, m)
  {
    var x := Pick(s);
    if s == {x} {
      m := x;
    } else {
      var rest := s - {x};
      var least := HasMinimum(rest);
      m := if least < x then least else x;
      assert forall k :: k in s ==> k == x || k in rest;
    }
  }

  /** The entries of a message in index order. */
  function InOrder(tools: map<int, ToolEntry>): seq<ToolEntry> {
    var keys := SortedKeys(tools.Keys);
    seq(|keys|, i requires 0 <= i < |keys| => tools[keys[i]])
  }

  /** `c` is what entry `e` becomes: named, with its arguments decoded or else word for word. */
  predicate CallOf<J(==)>(decode: string -> Option<J>, empty: J, e: ToolEntry, c: Call<J>) {
    && e.name != "" && c.id == e.id && c.name == e.name
    && c.arguments == if e.args == "" then Decoded(empty)
                      else if decode(e.args).Some? then Decoded(decode(e.args).value) else Verbatim(e.args)
  }

  /** The calls are those of the entries at the increasing places `from`, which hold every entry with a name. */
  ghost predicate NamedCalls<J>(decode: string -> Option<J>, empty: J, entries: seq<ToolEntry>, calls: seq<Call<J>>, from: seq<nat>) {
    && |from| == |calls|
    && (forall i :: 0 <= i < |from| ==> from[i] < |entries| && CallOf(decode, empty, entries[from[i]], calls[i]))
    && (forall i, j :: 0 <= i < j < |from| ==> from[i] < from[j])
    && (forall k :: 0 <= k < |entries| && entries[k].name != "" ==> k in from)
  }

  lemma NamedSnoc<J>(
    decode: string -> Option<J>, empty: J, front: seq<ToolEntry>, calls: seq<Call<J>>, from: seq<nat>, e: ToolEntry, c: Call<J>)
    requires NamedCalls(decode, empty, front, calls, from)
    ensures e.name == "" ==> NamedCalls(decode, empty, front + [e], calls, from)
    ensures CallOf(decode, empty, e, c) ==> NamedCalls(decode, empty, front + [e], calls + [c], from + [|front|])
  {
  }

  /** The entries with a name become calls in their order, and the others become none. */
  lemma {:induction false} ParseKeepsNamed<J>(decode: string -> Option<J>, empty: J, entries: seq<ToolEntry>) returns (from: seq<nat>)
    ensures NamedCalls(decode, empty, entries, ParseCalls(decode, empty, entries), from)
  {
    if entries == [] {
      from := [];
    } else {
      var n := |entries| - 1;
      var e, rest := entries[n], ParseCalls(decode, empty, entries[..n]);
      from := ParseKeepsNamed(decode, empty, entries[..n]);
      var d := DecodeArgs(decode, empty, e.args);
      var c := Call(e.id, e.name, if d.Some? then Decoded(d.value) else Verbatim(e.args));
      NamedSnoc(decode, empty, entries[..n], rest, from, e, c);
      assert entries == entries[..n] + [e];
      if e.name != "" {
        from := from + [n];
      }
    }
  }

  /** Complete entries become calls one by one, each with its id, its name and its decoded arguments. */
  ghost predicate CallsOf<J>(decode: string -> Option<J>, empty: J, entries: seq<ToolEntry>, calls: seq<Call<J>>) {
    && |calls| == |entries|
    && forall i :: 0 <= i < |entries| ==>
         && calls[i].id == entries[i].id && calls[i].name == entries[i].name
         && (if entries[i].args == "" then calls[i].arguments == Decoded(empty)
             else decode(entries[i].args).Some? && calls[i].arguments == Decoded(decode(entries[i].args).value))
  }

  lemma {:induction false} ReadyEntriesParse<J>(decode: string -> Option<J>, empty: J, entries: seq<ToolEntry>)
    requires forall i :: 0 <= i < |entries| ==> Ready(decode, empty, entries[i])
    ensures CallsOf(decode, empty, entries, ParseCalls(decode, empty, entries))
  {
    if entries != [] { ReadyEntriesParse(decode, empty, entries[..|entries| - 1]); }
  }

  /** `_finalize_tool_calls` over the entries in index order: any incomplete entry voids the whole list. */
  method FinalizeEntries<J>(decode: string -> Option<J>, empty: J, entries: seq<ToolEntry>)
    returns (r: Option<seq<Call<J>>>)
    ensures r.Some? <==> entries != [] && forall i :: 0 <= i < |entries| ==> Ready(decode, empty, entries[i])
    ensures r.Some? ==> r.value == ParseCalls(decode, empty, entries)
  {
    var calls: seq<Call<J>> := [];
    var i := 0;
    while i < |entries|
      invariant 0 <= i <= |entries|
      invariant calls == ParseCalls(decode, empty, entries[..i]) && |calls| == i
      invariant forall j :: 0 <= j < i ==> Ready(decode, empty, entries[j])
    {
      var e := entries[i];
      assert entries[..i + 1][..i] == entries[..i];
      if e.id == "" || e.name == "" {
        return None;
      }
      var arguments := DecodeArgs(decode, empty, e.args);
      if arguments.None? {
        return None;
      }
      calls := calls + [Call(e.id, e.name, Decoded(arguments.value))];
      i := i + 1;
    }
    assert entries[..i] == entries;
    return if calls == [] then None else Some(calls);
  }

  lemma InOrderCovers(tools: map<int, ToolEntry>)
    ensures InOrder(tools) == [] <==> tools == map[]
    ensures forall e :: e in InOrder(tools) <==> e in tools.Values
  {
    var keys, entries := SortedKeys(tools.Keys), InOrder(tools);
    forall e | e in entries ensures e in tools.Values {
      var i :| 0 <= i < |entries| && entries[i] == e;
      assert keys[i] in tools;
    }
    forall e | e in tools.Values ensures e in entries {
      var k :| k in tools && tools[k] == e;
      var i :| 0 <= i < |keys| && keys[i] == k;
      assert entries[i] == e;
    }
    if tools != map[] {
      var k := Pick(tools.Keys);
      assert k in keys;
    }
  }

  method FinalizeToolCalls<J>(decode: string -> Option<J>, empty: J, tools: map<int, ToolEntry>)
    returns (r: Option<seq<Call<J>>>)
    ensures r.Some? <==> tools != map[] && forall e :: e in tools.Values ==> Ready(decode, empty, e)
    ensures r.Some? ==> r.value == ParseCalls(decode, empty, InOrder(tools)) && CallsOf(decode, empty, InOrder(tools), r.value)
  {
    InOrderCovers(tools);
    r := FinalizeEntries(decode, empty, InOrder(tools));
    if r.Some? { ReadyEntriesParse(decode, empty, InOrder(tools)); }
  }

  predicate CallsReady<J>(decode: string -> Option<J>, empty: J, message: map<int, ToolEntry>) {
    message != map[] && forall e :: e in message.Values ==> Ready(decode, empty, e)
  }

  /** The calls of a stream are the parse of the message that the pieces it kept add up to. */
  method KeptCalls<J>(decode: string -> Option<J>, empty: J, chunks: seq<Chunk>) returns (r: Option<seq<Call<J>>>)
    ensures r.Some? <==> CallsReady(decode, empty, Merged(KeptPieces(chunks)))
    ensures r.Some? ==> r.value == ParseCalls(decode, empty, InOrder(Merged(KeptPieces(chunks))))
  {
    var events := Stream(chunks);
    var relayed, _, cut := Relay(Script(None, events, None), _ => false, 0);
    StreamRebuildsMessage(chunks);
    r := FinalizeToolCalls(decode, empty, relayed.st.tools);
  }
}
