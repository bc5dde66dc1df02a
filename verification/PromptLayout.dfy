/** Where everything stands in an assembled prompt, told from the fields of the job. */
module PromptLayout {
  import opened Sorting
  import opened Estimator
  import opened Turns
  import opened Assembler
  import opened AssemblerSafety

  /** The sizes of the four runs between the system prompt and the current message. */
  datatype Layout = Layout(summary: nat, memory: nat, tail: nat, docs: nat)

  function LayersOf(job: Job): seq<string> {
    if job.layers != [] then job.layers else if job.summary != "" then [job.summary] else []
  }

  /** The summary layers in order, the first under the header; all of them or none. */
  predicate SummaryRun(job: Job, ms: seq<Message>) {
    var layers := LayersOf(job);
    ms == [] ||
    (|ms| == |layers| && forall i :: 0 <= i < |ms| ==>
       ms[i] == Message("system", if i == 0 then SUMMARY_HEADER + "\n" + layers[0] else layers[i], job.cached))
  }

  predicate MemoryRun(job: Job, ms: seq<Message>) {
    ms == [] || (job.facts != [] && ms == [Message("system", MEMORY_HEADER + Bullets(job.facts), false)])
  }

  /** A turn is shown by its redacted text, or by the placeholder when its tool result is cleared. */
  predicate ShowsTurn(job: Job, m: Message, e: Entry) {
    && e.index < |job.turns| && e.turn == job.turns[e.index] && e.turn.role in {"user", "assistant"}
    && m == Message(e.turn.role, if job.rules.clear && e.turn.toolPayload then PLACEHOLDER else e.turn.content, false)
    && m.content != ""
    && (job.rules.position.Some? && e.turn.number.Some? ==> e.turn.number.value > job.rules.position.value)
  }

  predicate Older(a: Entry, b: Entry) {
    var x := if a.turn.number.Some? then a.turn.number.value else 0;
    var y := if b.turn.number.Some? then b.turn.number.value else 0;
    x < y || (x == y && a.index < b.index)
  }

  /** Turns of the job in ascending order of sequence number and input position. */
  ghost predicate TailRun(job: Job, ms: seq<Message>, shown: seq<Entry>) {
    |ms| == |shown| && Ordered(shown, Older) && forall i :: 0 <= i < |ms| ==> ShowsTurn(job, ms[i], shown[i])
  }

  /** The leading documents in rank order. */
  ghost predicate DocsRun(job: Job, block: Block, ms: seq<Message>, ranked: seq<Doc>) {
    && multiset(ranked) == multiset(job.docs) && Sorted(ranked, HigherScore) && |ms| <= |ranked|
    && forall i :: 0 <= i < |ms| ==> ms[i] == Message("system", block(i + 1, ranked[i]), false)
  }

  /** System prompt, summary, memory, turns, documents, current message, in this order and nothing else. */
  ghost predicate LaidOut(job: Job, block: Block, ms: seq<Message>, l: Layout, shown: seq<Entry>, ranked: seq<Doc>) {
    var s := 1 + l.summary;
    var m := s + l.memory;
    var t := m + l.tail;
    var d := t + l.docs;
    && |ms| == d + 1
    && ms[0] == Message("system", job.system, job.cached)
    && SummaryRun(job, ms[1..s])
    && MemoryRun(job, ms[s..m])
    && TailRun(job, ms[m..t], shown)
    && DocsRun(job, block, ms[t..d], ranked)
    && ms[d] == Message("user", job.current, false)
  }

  lemma Runs(x: Message, a: seq<Message>, b: seq<Message>, c: seq<Message>, d: seq<Message>, y: Message)
    ensures
      var ms := [x] + a + b + c + d + [y];
      var s := 1 + |a|;
      var m := s + |b|;
      var t := m + |c|;
      var e := t + |d|;
      && |ms| == e + 1 && ms[0] == x && ms[e] == y
      && ms[1..s] == a && ms[s..m] == b && ms[m..t] == c && ms[t..e] == d
  {
  }

  lemma SummaryIsRun(job: Job, room: int, cost: Cost)
    ensures SummaryRun(job, Whole(SummaryMessages(job), room, cost))
  {
  }

  lemma MemoryIsRun(job: Job, room: int, cost: Cost)
    ensures MemoryRun(job, Whole(MemoryMessages(job), room, cost))
  {
  }

  function Flipped(es: seq<Entry>): (r: seq<Entry>)
    ensures |r| == |es|
  {
    seq(|es|, i requires 0 <= i < |es| => es[|es| - 1 - i])
  }

  lemma TailIsRun(job: Job, cost: Cost, block: Block)
    ensures
      var kept := Fill(PartsOf(job, block), cost).tail.kept;
      TailRun(job, TailMessages(kept, job.rules), Flipped(kept))
  {
    KeptTurns(job, cost, block);
    var kept := Fill(PartsOf(job, block), cost).tail.kept;
    var shown := Flipped(kept);
    forall i, j | 0 <= i < j < |shown| ensures Older(shown[i], shown[j]) {
      assert Newer(kept[|kept| - 1 - j], kept[|kept| - 1 - i]);
    }
    forall i | 0 <= i < |kept| ensures ShowsTurn(job, TailMessages(kept, job.rules)[i], shown[i]) {
      assert kept[|kept| - 1 - i] in kept;
    }
  }

  lemma DocsAreRun(job: Job, block: Block, k: nat)
    requires k <= |job.docs|
    ensures |KnowledgeMessages(job, block)| == |job.docs|
    ensures DocsRun(job, block, KnowledgeMessages(job, block)[..k], Sort(job.docs, HigherScore))
  {
    SortContents(job.docs, HigherScore);
    SortSorted(job.docs, HigherScore);
  }

  lemma RunsLayOut(
    job: Job, block: Block, a: seq<Message>, b: seq<Message>, c: seq<Message>, d: seq<Message>, shown: seq<Entry>, ranked: seq<Doc>)
    requires SummaryRun(job, a) && MemoryRun(job, b) && TailRun(job, c, shown) && DocsRun(job, block, d, ranked)
    ensures
      LaidOut(job, block,
              [Message("system", job.system, job.cached)] + a + b + c + d + [Message("user", job.current, false)],
              Layout(|a|, |b|, |c|, |d|), shown, ranked)
  {
    Runs(Message("system", job.system, job.cached), a, b, c, d, Message("user", job.current, false));
  }

  lemma FillRuns(job: Job, cost: Cost, block: Block)
    ensures
      var f := Fill(PartsOf(job, block), cost);
      && SummaryRun(job, f.summary) && MemoryRun(job, f.memory)
      && TailRun(job, TailMessages(f.tail.kept, job.rules), Flipped(f.tail.kept))
      && |f.knowledge| <= |job.docs| && DocsRun(job, block, f.knowledge, Sort(job.docs, HigherScore))
  {
    var p := PartsOf(job, block);
    var f := Fill(p, cost);
    SummaryIsRun(job, p.budget - cost(p.system.content), cost);
    MemoryIsRun(job, p.budget - cost(p.system.content) - Total(f.summary, cost), cost);
    TailIsRun(job, cost, block);
    DocsAreRun(job, block, 0);
    DocsAreRun(job, block, |f.knowledge|);
  }

  lemma PromptOf(job: Job, cost: Cost, block: Block)
    requires Outcome(PartsOf(job, block), cost).Ok?
    ensures
      var f := Fill(PartsOf(job, block), cost);
      Outcome(PartsOf(job, block), cost).value.messages ==
      [Message("system", job.system, job.cached)] + f.summary + f.memory + TailMessages(f.tail.kept, job.rules)
        + f.knowledge + [Message("user", job.current, false)]
  {
  }

  /** Every successful outcome has this layout. */
  lemma PromptIsLaidOut(job: Job, cost: Cost, block: Block) returns (l: Layout, shown: seq<Entry>, ranked: seq<Doc>)
    requires Outcome(PartsOf(job, block), cost).Ok?
    ensures LaidOut(job, block, Outcome(PartsOf(job, block), cost).value.messages, l, shown, ranked)
  {
    ghost var f := Fill(PartsOf(job, block), cost);
    ghost var tail := TailMessages(f.tail.kept, job.rules);
    l := Layout(|f.summary|, |f.memory|, |tail|, |f.knowledge|);
    shown, ranked := Flipped(f.tail.kept), Sort(job.docs, HigherScore);
    FillRuns(job, cost, block);
    RunsLayOut(job, block, f.summary, f.memory, tail, f.knowledge, shown, ranked);
    PromptOf(job, cost, block);
  }

  // ----- What is left out ------------------------------------------------------------------------

  /** The window, and exactly when a block is reported as left out. */
  lemma BlocksAreReported(job: Job, cost: Cost, block: Block)
    requires Outcome(PartsOf(job, block), cost).Ok?
    ensures
      var ctx := Outcome(PartsOf(job, block), cost).value;
      var f := Fill(PartsOf(job, block), cost);
      && ctx.window == (if job.override.Some? && job.override.value != 0 then job.override.value else job.catalogWindow)
      && ctx.budget == ctx.window - job.reserve
      && (SummaryBlock in ctx.omittedBlocks <==> LayersOf(job) != [] && Total(SummaryMessages(job), cost) > ctx.budget - cost(job.system))
      && (MemoryBlock in ctx.omittedBlocks <==>
            job.facts != [] &&
            cost(MEMORY_HEADER + Bullets(job.facts)) > ctx.budget - cost(job.system) - Total(f.summary, cost))
  {
    MemoryCost(job, cost);
  }

  lemma MemoryCost(job: Job, cost: Cost)
    ensures job.facts != [] ==> Total(MemoryMessages(job), cost) == cost(MEMORY_HEADER + Bullets(job.facts))
  {
    if job.facts != [] { TotalOne(MemoryMessages(job)[0], cost); }
  }

  /** Exactly which documents and turns are reported as left out, and how. */
  lemma OmissionsAreReported(job: Job, cost: Cost, block: Block)
    requires Outcome(PartsOf(job, block), cost).Ok?
    ensures
      var ctx := Outcome(PartsOf(job, block), cost).value;
      var f := Fill(PartsOf(job, block), cost);
      && |f.knowledge| <= |job.docs| && |ctx.omittedDocs| == |job.docs| - |f.knowledge|
      && (forall i :: 0 <= i < |ctx.omittedDocs| ==> ctx.omittedDocs[i] == |f.knowledge| + i)
      && |ctx.omittedTurns| == |f.tail.omitted|
      && (forall i :: 0 <= i < |ctx.omittedTurns| ==> ctx.omittedTurns[i] == LabelOf(f.tail.omitted[i].turn))
  {
    DocsAreRun(job, block, 0);
  }

  lemma {:induction false} WalkMembers(es: seq<Entry>, room: int, rules: Rules, cost: Cost, e: Entry)
    ensures
      var t := Walk(es, room, rules, cost);
      e in t.kept || e in t.omitted <==> e in es && Offered(e, rules)
  {
    if es != [] {
      var price := cost(Shown(es[0].turn, rules));
      WalkMembers(es[1..], if !Offered(es[0], rules) || price > room then room else room - price, rules, cost, e);
      assert e in es <==> e == es[0] || e in es[1..];
    }
  }

  /** A user or assistant turn that the summary does not cover and that has something to show. */
  predicate Speaks(job: Job, i: nat)
    requires i < |job.turns|
  {
    var t := job.turns[i];
    && t.role in {"user", "assistant"} && (t.content != "" || (job.rules.clear && t.toolPayload))
    && !(job.rules.position.Some? && t.number.Some? && t.number.value <= job.rules.position.value)
  }

  /** No such turn is lost: it is rendered or reported as left out, and no other turn is either. */
  lemma TurnsAreAccountedFor(job: Job, cost: Cost, block: Block, i: nat)
    requires i < |job.turns|
    ensures
      var tail, e := Fill(PartsOf(job, block), cost).tail, Entry(job.turns[i], i);
      e in tail.kept || e in tail.omitted <==> Speaks(job, i)
  {
    var p, e := PartsOf(job, block), Entry(job.turns[i], i);
    EligibleTurns(job.turns);
    SortNewer(Eligible(job.turns));
    WalkMembers(p.turns, TailRoom(p, cost), p.rules, cost, e);
  }

  function LabelOf(t: Turn): string {
    if t.messageId == "" then (if t.number.None? then "?" else "seq:" + Number(t.number.value)) else t.messageId
  }

  lemma {:induction false} BulletsConcat(a: seq<string>, b: seq<string>)
    ensures Bullets(a + b) == Bullets(a) + Bullets(b)
    decreases |b|
  {
    if b == [] {
      assert a + b == a;
      assert Bullets(a) + "" == Bullets(a);
    } else {
      assert (a + b)[..|a + b| - 1] == a + b[..|b| - 1];
      BulletsConcat(a, b[..|b| - 1]);
      BulletsAdd(Bullets(a), Bullets(b[..|b| - 1]), "\n- " + b[|b| - 1]);
      BulletsEnd(a + b);
      BulletsEnd(b);
    }
  }

  lemma BulletsAdd(x: string, y: string, z: string)
    ensures x + y + z == x + (y + z)
  {
  }

  lemma BulletsEnd(s: seq<string>)
    requires s != []
    ensures Bullets(s) == Bullets(s[..|s| - 1]) + ("\n- " + s[|s| - 1])
  {
  }

  // ----- When raw text stops an assembly ----------------------------------------------------------

  /** A user or assistant turn that the summary does not cover, whose tool result is not cleared, with raw text only. */
  predicate RawOnly(job: Job, i: int) {
    0 <= i < |job.turns| &&
    var t := job.turns[i];
    && t.role in {"user", "assistant"} && t.content == "" && t.raw != "" && !(job.rules.clear && t.toolPayload)
    && !(job.rules.position.Some? && t.number.Some? && t.number.value <= job.rules.position.value)
  }

  lemma ViolationIff(job: Job)
    ensures SomeViolation(RecentFirst(job.turns), job.rules) <==> exists i :: RawOnly(job, i)
  {
    var es := RecentFirst(job.turns);
    EligibleTurns(job.turns);
    SortNewer(Eligible(job.turns));
    if i :| RawOnly(job, i) {
      var e := Entry(job.turns[i], i);
      assert e in Eligible(job.turns) && e in es;
      var k :| 0 <= k < |es| && es[k] == e;
      assert Violates(es[k], job.rules);
    }
    if SomeViolation(es, job.rules) {
      var k :| 0 <= k < |es| && Violates(es[k], job.rules);
      assert es[k] in es;
      assert RawOnly(job, es[k].index);
    }
  }

  /** Assembly fails closed exactly on such a turn, wherever it stands and however little room there is. */
  lemma FailsOnRawIff(job: Job, cost: Cost, block: Block)
    ensures Outcome(PartsOf(job, block), cost) == RedactionViolation <==>
              job.Budget() > 0 && cost(job.system) <= job.Budget() && exists i :: RawOnly(job, i)
  {
    ViolationIff(job);
  }
}
