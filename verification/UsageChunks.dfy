/**
 Tool-call pieces that arrive in chunks with usage. The adapter reads such a chunk for its
 usage alone; this module says exactly when the message survives that.
 */
module UsageChunks {
  import opened Text
  import opened Routing
  import opened Streaming
  import opened ToolCalls

  /** All tool-call pieces that the provider sent, in arrival order. */
  function AllPieces(chunks: seq<Chunk>): seq<Piece> {
    if chunks == [] then []
    else AllPieces(chunks[..|chunks| - 1]) + PiecesOfChoices(chunks[|chunks| - 1].choices)
  }

  /** The pieces that ride in chunks with usage. */
  function DroppedPieces(chunks: seq<Chunk>): seq<Piece> {
    if chunks == [] then []
    else
      var ch := chunks[|chunks| - 1];
      DroppedPieces(chunks[..|chunks| - 1]) + (if ch.usage.Some? then PiecesOfChoices(ch.choices) else [])
  }

  lemma {:induction false} ArgsConcat(a: seq<Piece>, b: seq<Piece>, k: int)
    ensures ArgsOf(a + b, k) == ArgsOf(a, k) + ArgsOf(b, k)
    decreases |b|
  {
    if b == [] {
      assert a + b == a;
    } else {
      var n := |b| - 1;
      assert (a + b)[..|a + b| - 1] == a + b[..n];
      ArgsConcat(a, b[..n], k);
      var tail := if b[n].index == k then b[n].args else "";
      Assoc(ArgsOf(a, k), ArgsOf(b[..n], k), tail);
    }
  }

  lemma {:induction false} ArgsCover(ps: seq<Piece>, i: nat)
    requires i < |ps|
    ensures |ps[i].args| <= |ArgsOf(ps, ps[i].index)|
  {
    var n := |ps| - 1;
    if i < n {
      ArgsCover(ps[..n], i);
      assert ps[..n][i] == ps[i];
    }
  }

  predicate NoArgs(ps: seq<Piece>) {
    forall i :: 0 <= i < |ps| ==> ps[i].args == ""
  }

  lemma {:induction false} NoArgsNoText(ps: seq<Piece>, k: int)
    requires NoArgs(ps)
    ensures ArgsOf(ps, k) == ""
  {
    if ps != [] { NoArgsNoText(ps[..|ps| - 1], k); }
  }

  lemma NoTextNoArgs(ps: seq<Piece>)
    requires forall k :: ArgsOf(ps, k) == ""
    ensures NoArgs(ps)
  {
    forall i | 0 <= i < |ps| ensures ps[i].args == "" {
      ArgsCover(ps, i);
      assert ArgsOf(ps, ps[i].index) == "";
    }
  }

  /** The arguments that arrive are those that are kept plus those that are dropped. */
  lemma {:induction false} ArgsSplit(chunks: seq<Chunk>, k: int)
    ensures |ArgsOf(AllPieces(chunks), k)| == |ArgsOf(KeptPieces(chunks), k)| + |ArgsOf(DroppedPieces(chunks), k)|
    ensures ArgsOf(DroppedPieces(chunks), k) == "" ==> ArgsOf(AllPieces(chunks), k) == ArgsOf(KeptPieces(chunks), k)
  {
    if chunks != [] {
      var front, ch := chunks[..|chunks| - 1], chunks[|chunks| - 1];
      var more := PiecesOfChoices(ch.choices);
      ArgsSplit(front, k);
      ArgsConcat(AllPieces(front), more, k);
      ArgsConcat(KeptPieces(front), if ch.usage.Some? then [] else more, k);
      ArgsConcat(DroppedPieces(front), if ch.usage.Some? then more else [], k);
      assert ArgsOf([], k) == "";
    }
  }

  /** The first pieces of call `k` give it the same id and name, or there are none. */
  predicate SameStart(a: seq<Piece>, b: seq<Piece>, k: int) {
    match (FirstOf(a, k), FirstOf(b, k))
    case (None, None) => true
    case (Some(p), Some(q)) => p.id == q.id && p.name == q.name
    case _ => false
  }

  /** Call `k` starts in usage chunk `i`, with the dropped piece `p`. */
  predicate DroppedStart(chunks: seq<Chunk>, i: int, k: int, p: Piece) {
    && 0 <= i < |chunks| && chunks[i].usage.Some?
    && FirstOf(AllPieces(chunks[..i]), k).None? && FirstOf(PiecesOfChoices(chunks[i].choices), k) == Some(p)
  }

  /** The first kept piece of call `k` repeats the id and name of `p`. */
  predicate Repeated(chunks: seq<Chunk>, k: int, p: Piece) {
    var q := FirstOf(KeptPieces(chunks), k);
    q.Some? && q.value.id == p.id && q.value.name == p.name
  }

  /** A dropped piece carries no arguments, and one that starts a call is repeated by the first piece of the call that is kept. */
  ghost predicate Harmless(chunks: seq<Chunk>) {
    && NoArgs(DroppedPieces(chunks))
    && StartsRepeated(chunks)
  }

  ghost predicate StartsRepeated(chunks: seq<Chunk>) {
    forall i, k, p :: DroppedStart(chunks, i, k, p) ==> Repeated(chunks, k, p)
  }

  lemma {:induction false} FirstConcat(a: seq<Piece>, b: seq<Piece>, k: int)
    ensures FirstOf(a + b, k) == if FirstOf(a, k).Some? then FirstOf(a, k) else FirstOf(b, k)
    decreases |b|
  {
    if b == [] {
      assert a + b == a;
    } else {
      assert (a + b)[..|a + b| - 1] == a + b[..|b| - 1];
      FirstConcat(a, b[..|b| - 1], k);
    }
  }

  /** The first piece of a call that starts in a usage chunk is that dropped piece. */
  lemma {:induction false} DroppedIsFirst(chunks: seq<Chunk>, i: int, k: int, p: Piece)
    requires DroppedStart(chunks, i, k, p)
    ensures FirstOf(AllPieces(chunks), k) == Some(p)
  {
    var n := |chunks| - 1;
    FirstConcat(AllPieces(chunks[..n]), PiecesOfChoices(chunks[n].choices), k);
    if i < n {
      assert chunks[..n][..i] == chunks[..i];
      DroppedIsFirst(chunks[..n], i, k, p);
    }
  }

  /** A call's first piece is its first kept piece, or a dropped start. */
  lemma {:induction false} FirstIsKeptOrDropped(chunks: seq<Chunk>, k: int)
    ensures FirstOf(AllPieces(chunks), k).None? ==> FirstOf(KeptPieces(chunks), k).None?
    ensures FirstOf(AllPieces(chunks), k).Some? ==>
              || FirstOf(KeptPieces(chunks), k) == FirstOf(AllPieces(chunks), k)
              || exists i :: DroppedStart(chunks, i, k, FirstOf(AllPieces(chunks), k).value)
  {
    if chunks != [] {
      var n := |chunks| - 1;
      var front, more := chunks[..n], PiecesOfChoices(chunks[n].choices);
      FirstIsKeptOrDropped(front, k);
      FirstConcat(AllPieces(front), more, k);
      FirstConcat(KeptPieces(front), if chunks[n].usage.Some? then [] else more, k);
      assert FirstOf([], k) == None;
      if FirstOf(AllPieces(front), k).Some? {
        var p := FirstOf(AllPieces(front), k).value;
        if i :| DroppedStart(front, i, k, p) {
          assert front[..i] == chunks[..i];
          assert DroppedStart(chunks, i, k, p);
        }
      } else if FirstOf(more, k).Some? && chunks[n].usage.Some? {
        assert DroppedStart(chunks, n, k, FirstOf(more, k).value);
      }
    }
  }

  lemma SameStartThen(chunks: seq<Chunk>, i: int, k: int, p: Piece)
    requires DroppedStart(chunks, i, k, p) && SameStart(KeptPieces(chunks), AllPieces(chunks), k)
    ensures Repeated(chunks, k, p)
  {
    DroppedIsFirst(chunks, i, k, p);
  }

  lemma RepeatedThen(chunks: seq<Chunk>, k: int)
    requires StartsRepeated(chunks)
    ensures SameStart(KeptPieces(chunks), AllPieces(chunks), k)
  {
    FirstIsKeptOrDropped(chunks, k);
    var first := FirstOf(AllPieces(chunks), k);
    if first.Some? && FirstOf(KeptPieces(chunks), k) != first {
      var i :| DroppedStart(chunks, i, k, first.value);
      assert Repeated(chunks, k, first.value);
    }
  }

  ghost predicate StartsAgree(chunks: seq<Chunk>) {
    forall k :: SameStart(KeptPieces(chunks), AllPieces(chunks), k)
  }

  lemma AgreeRepeats(chunks: seq<Chunk>)
    requires StartsAgree(chunks)
    ensures StartsRepeated(chunks)
  {
    forall i, k, p | DroppedStart(chunks, i, k, p) ensures Repeated(chunks, k, p) {
      assert SameStart(KeptPieces(chunks), AllPieces(chunks), k);
      SameStartThen(chunks, i, k, p);
    }
  }

  lemma RepeatAgrees(chunks: seq<Chunk>)
    requires StartsRepeated(chunks)
    ensures StartsAgree(chunks)
  {
    forall k ensures SameStart(KeptPieces(chunks), AllPieces(chunks), k) { RepeatedThen(chunks, k); }
  }

  predicate SameEntry<K, V(==)>(a: map<K, V>, b: map<K, V>, k: K) {
    if k in a then k in b && a[k] == b[k] else k !in b
  }

  lemma MapsEqualIff<K(!new), V>(a: map<K, V>, b: map<K, V>)
    ensures a == b <==> forall k :: SameEntry(a, b, k)
  {
    if forall k :: SameEntry(a, b, k) {
      forall k ensures k in a <==> k in b { assert SameEntry(a, b, k); }
      forall k | k in a ensures a[k] == b[k] { assert SameEntry(a, b, k); }
    }
  }

  predicate SameCall(a: seq<Piece>, b: seq<Piece>, k: int) {
    SameStart(a, b, k) && ArgsOf(a, k) == ArgsOf(b, k)
  }

  lemma SameEntryIff(a: seq<Piece>, b: seq<Piece>, k: int)
    ensures SameEntry(Merged(a), Merged(b), k) <==> SameCall(a, b, k)
  {
    MergedMeans(a, k);
    MergedMeans(b, k);
  }

  lemma MergedEqualIff(a: seq<Piece>, b: seq<Piece>)
    ensures Merged(a) == Merged(b) <==> CallsAgree(a, b)
  {
    MapsEqualIff(Merged(a), Merged(b));
    forall k ensures SameEntry(Merged(a), Merged(b), k) <==> SameCall(a, b, k) { SameEntryIff(a, b, k); }
    if forall k :: SameCall(a, b, k) {
      forall k ensures SameEntry(Merged(a), Merged(b), k) { assert SameCall(a, b, k); }
    }
    if forall k :: SameEntry(Merged(a), Merged(b), k) {
      forall k ensures SameCall(a, b, k) { assert SameEntry(Merged(a), Merged(b), k); }
    }
  }

  ghost predicate CallsAgree(a: seq<Piece>, b: seq<Piece>) {
    forall k :: SameCall(a, b, k)
  }

  lemma HarmlessAgrees(chunks: seq<Chunk>)
    requires Harmless(chunks)
    ensures CallsAgree(KeptPieces(chunks), AllPieces(chunks))
  {
    RepeatAgrees(chunks);
    forall k ensures SameCall(KeptPieces(chunks), AllPieces(chunks), k) {
      assert SameStart(KeptPieces(chunks), AllPieces(chunks), k);
      NoArgsNoText(DroppedPieces(chunks), k);
      ArgsSplit(chunks, k);
    }
  }

  lemma AgreeIsHarmless(chunks: seq<Chunk>)
    requires CallsAgree(KeptPieces(chunks), AllPieces(chunks))
    ensures Harmless(chunks)
  {
    forall k ensures ArgsOf(DroppedPieces(chunks), k) == "" && SameStart(KeptPieces(chunks), AllPieces(chunks), k) {
      assert SameCall(KeptPieces(chunks), AllPieces(chunks), k);
      ArgsSplit(chunks, k);
    }
    NoTextNoArgs(DroppedPieces(chunks));
    AgreeRepeats(chunks);
  }

  /** Dropping the pieces in usage chunks keeps the message exactly when they are harmless. */
  lemma HarmlessIff(chunks: seq<Chunk>)
    ensures Merged(KeptPieces(chunks)) == Merged(AllPieces(chunks)) <==> Harmless(chunks)
  {
    MergedEqualIff(KeptPieces(chunks), AllPieces(chunks));
    if Harmless(chunks) { HarmlessAgrees(chunks); }
    if CallsAgree(KeptPieces(chunks), AllPieces(chunks)) { AgreeIsHarmless(chunks); }
  }

  /** The stream rebuilds the message that the provider sent exactly under that condition. */
  lemma StreamRebuildsAllIff(chunks: seq<Chunk>)
    ensures Render(Script(None, AdapterEvents(chunks), None)).st.tools == Merged(AllPieces(chunks)) <==> Harmless(chunks)
  {
    StreamRebuildsMessage(chunks);
    HarmlessIff(chunks);
  }

  /** Usage chunks without tool pieces, as the provider is expected to send them, are harmless. */
  lemma {:induction false} UsageAlone(chunks: seq<Chunk>)
    ensures KeptPieces(chunks) == AllPieces(chunks) <==>
              forall i :: 0 <= i < |chunks| && chunks[i].usage.Some? ==> PiecesOfChoices(chunks[i].choices) == []
  {
    if chunks != [] {
      var n := |chunks| - 1;
      UsageAlone(chunks[..n]);
      KeptAtMost(chunks[..n]);
      assert forall i :: 0 <= i < n ==> chunks[..n][i] == chunks[i];
    }
  }

  lemma {:induction false} KeptAtMost(chunks: seq<Chunk>)
    ensures |KeptPieces(chunks)| <= |AllPieces(chunks)|
    ensures |KeptPieces(chunks)| == |AllPieces(chunks)| ==> KeptPieces(chunks) == AllPieces(chunks)
  {
    if chunks != [] { KeptAtMost(chunks[..|chunks| - 1]); }
  }

  /** A call that arrives in a usage chunk is lost. */
  lemma UsageChunkLosesCall(u: Usage, p: Piece)
    ensures
      var chunks := [Chunk(Some(u), [Choice(None, "", [p])])];
      !Harmless(chunks) && Render(Script(None, AdapterEvents(chunks), None)).st.tools != Merged(AllPieces(chunks))
  {
    var choice := Choice(None, "", [p]);
    var chunks := [Chunk(Some(u), [choice])];
    assert chunks[..0] == [] && [choice][..0] == [] && [p][..0] == [];
    assert PiecesOfChoices([choice]) == [p];
    assert AllPieces([]) == [] && KeptPieces([]) == [];
    assert AllPieces(chunks) == [p];
    assert KeptPieces(chunks) == [];
    MergedMeans([p], p.index);
    MergedMeans([], p.index);
    HarmlessIff(chunks);
    StreamRebuildsAllIff(chunks);
  }

  /**
   Streaming refines one-shot parsing: for every way of cutting a message's tool calls
   into pieces that usage chunks do not lose, the streamed calls equal the parsed message
   whenever every call has an id, a name and arguments that decode to an object.
   */
  method StreamedCalls<J>(decode: string -> Option<J>, empty: J, chunks: seq<Chunk>) returns (r: Option<seq<Call<J>>>)
    ensures Harmless(chunks) ==> (r.Some? <==> CallsReady(decode, empty, Merged(AllPieces(chunks))))
    ensures Harmless(chunks) && r.Some? ==> r.value == ParseCalls(decode, empty, InOrder(Merged(AllPieces(chunks))))
  {
    HarmlessIff(chunks);
    r := KeptCalls(decode, empty, chunks);
  }
}
