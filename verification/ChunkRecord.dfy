/** The record of a stream that the OpenAI-compatible adapter feeds, told from the provider's chunks. */
module ChunkRecord {
  import opened Text
  import opened Routing
  import opened Streaming
  import opened ToolCalls
  import opened StreamRecord

  /** The usage of the last chunk that carries one. */
  function ChunkUsage(chunks: seq<Chunk>): Usage {
    if chunks == [] then Usage(0, 0)
    else if chunks[|chunks| - 1].usage.Some? then chunks[|chunks| - 1].usage.value
    else ChunkUsage(chunks[..|chunks| - 1])
  }

  /** The choices that the adapter reads, in order. */
  function ReadChoices(chunks: seq<Chunk>): seq<Choice> {
    if chunks == [] then []
    else
      var ch := chunks[|chunks| - 1];
      ReadChoices(chunks[..|chunks| - 1]) + (if ch.usage.Some? then [] else ch.choices)
  }

  function ChoiceText(cs: seq<Choice>): string {
    if cs == [] then "" else ChoiceText(cs[..|cs| - 1]) + cs[|cs| - 1].content
  }

  function ChoiceReason(cs: seq<Choice>): Option<string> {
    if cs == [] then None
    else if cs[|cs| - 1].finish.Some? then cs[|cs| - 1].finish
    else ChoiceReason(cs[..|cs| - 1])
  }

  lemma {:induction false} TextConcat(a: seq<AdapterEvent>, b: seq<AdapterEvent>)
    ensures TextIn(a + b) == TextIn(a) + TextIn(b)
    decreases |b|
  {
    if b == [] {
      assert a + b == a;
      assert TextIn(a) + "" == TextIn(a);
    } else {
      assert (a + b)[..|a + b| - 1] == a + b[..|b| - 1];
      TextConcat(a, b[..|b| - 1]);
    }
  }

  /** The adapter's variables after the choices `cs`. */
  ghost predicate Follows(a: Adapter, cs: seq<Choice>) {
    TextIn(a.events) == ChoiceText(cs) && a.reason == ChoiceReason(cs)
  }

  lemma {:induction false} PiecesAreSilent(a: Adapter, ps: seq<Piece>)
    ensures TextIn(StepPieces(a, ps).events) == TextIn(a.events)
    ensures StepPieces(a, ps).reason == a.reason && StepPieces(a, ps).usage == a.usage
  {
    if ps != [] {
      PiecesAreSilent(a, ps[..|ps| - 1]);
      PieceIsSilent(StepPieces(a, ps[..|ps| - 1]), ps[|ps| - 1]);
    }
  }

  lemma Silent(events: seq<AdapterEvent>, e: AdapterEvent)
    requires !e.Delta?
    ensures TextIn(events + [e]) == TextIn(events)
  {
    Front(events, e);
    assert TextIn(events) + "" == TextIn(events);
  }

  lemma PieceIsSilent(a: Adapter, p: Piece)
    ensures TextIn(StepPiece(a, p).events) == TextIn(a.events) && StepPiece(a, p).reason == a.reason && StepPiece(a, p).usage == a.usage
  {
    var start := ToolStart(Some(p.index), p.id, p.name);
    var open := if p.index in a.open then a.open else a.open[p.index := OpenTool(p.id, p.name)];
    var more := ToolDelta(Some(p.index), open[p.index].id, "", p.args);
    Silent(a.events, start);
    Silent(a.events, more);
    Silent(a.events + [start], more);
  }

  lemma ChoiceFollows(a: Adapter, cs: seq<Choice>, c: Choice)
    requires Follows(a, cs)
    ensures Follows(StepChoice(a, c), cs + [c]) && StepChoice(a, c).usage == a.usage
  {
    PiecesAreSilent(StepReason(a, c), c.tools);
    assert (cs + [c])[..|cs|] == cs;
    if c.content == "" {
      assert ChoiceText(cs) + "" == ChoiceText(cs);
    } else {
      Front(a.events, Delta(c.content));
    }
  }

  lemma SplitLast(cs: seq<Choice>, more: seq<Choice>)
    requires more != []
    ensures cs + more == cs + more[..|more| - 1] + [more[|more| - 1]]
  {
  }

  lemma {:induction false} ChoicesFollow(a: Adapter, cs: seq<Choice>, more: seq<Choice>)
    requires Follows(a, cs)
    ensures Follows(StepChoices(a, more), cs + more) && StepChoices(a, more).usage == a.usage
  {
    if more == [] {
      assert cs + more == cs;
    } else {
      var n := |more| - 1;
      var front, b := cs + more[..n], StepChoices(a, more[..n]);
      ChoicesFollow(a, cs, more[..n]);
      ChoiceFollows(b, front, more[n]);
      SplitLast(cs, more);
    }
  }

  lemma {:induction false} ChunksFollow(chunks: seq<Chunk>)
    ensures Follows(StepChunks(START, chunks), ReadChoices(chunks)) && StepChunks(START, chunks).usage == ChunkUsage(chunks)
  {
    if chunks != [] {
      var n := |chunks| - 1;
      var a, ch := StepChunks(START, chunks[..n]), chunks[n];
      ChunksFollow(chunks[..n]);
      if ch.usage.Some? {
        Silent(a.events, UsageReport(ch.usage));
        assert ReadChoices(chunks[..n]) + [] == ReadChoices(chunks[..n]);
      } else {
        ChoicesFollow(a, ReadChoices(chunks[..n]), ch.choices);
      }
    }
  }

  lemma {:induction false} EndsAreSilent(events: seq<AdapterEvent>, open: map<int, OpenTool>, order: seq<int>)
    ensures TextIn(events + Ends(open, order)) == TextIn(events)
  {
    if order == [] {
      assert events + [] == events;
    } else {
      var n := |order| - 1;
      EndsAreSilent(events, open, order[..n]);
      Silent(events + Ends(open, order[..n]), EndOf(open, order[n]));
      assert events + Ends(open, order) == (events + Ends(open, order[..n])) + [EndOf(open, order[n])];
    }
  }

  /**
   What such a stream records: the usage of the last usage chunk, and the text and the last
   finish reason of the choices in the other chunks.
   */
  lemma ChunksAreRecorded(chunks: seq<Chunk>)
    ensures
      var events := AdapterEvents(chunks);
      && LastUsage(events) == ChunkUsage(chunks)
      && LastReason(events) == ChoiceReason(ReadChoices(chunks))
      && TextIn(events) == ChoiceText(ReadChoices(chunks))
  {
    var a := StepChunks(START, chunks);
    ChunksFollow(chunks);
    EndsAreSilent(a.events, a.open, a.order);
    FinishSays(a.events + Ends(a.open, a.order), a.reason, a.usage);
  }

  lemma FinishSays(body: seq<AdapterEvent>, reason: Option<string>, usage: Usage)
    ensures
      var events := body + [Finish(reason, Some(usage))];
      LastUsage(events) == usage && LastReason(events) == reason && TextIn(events) == TextIn(body)
  {
    PlainNow(body, Finish(reason, Some(usage)));
    Silent(body, Finish(reason, Some(usage)));
  }
}
