/**
 The prompt assembler: system, summary, memory, recent turns, knowledge and the current
 message, packed into the window of the model minus the output reserve.
 */
module Assembler {
  import opened Text
  import opened Sorting
  import opened Estimator
  import opened Turns
  import opened Sse

  const SUMMARY_HEADER := "Summary of the conversation so far (compaction checkpoint; immutable)."
  const MEMORY_HEADER := "End-user memory (opt-in facts about the customer):"

  datatype Doc = Doc(content: string, score: real)

  /** The text of the knowledge block for a document and its one-based rank. */
  type Block = (nat, Doc) -> string

  /** Absent texts and lists are empty. */
  datatype Job = Job(
    override: Option<int>, catalogWindow: int, reserve: int, cached: bool, system: string, current: string,
    turns: seq<Turn>, rules: Rules, layers: seq<string>, summary: string, facts: seq<string>, docs: seq<Doc>)
  {
    function Window(): int {
      if override.Some? && override.value != 0 then override.value else catalogWindow
    }

    function Budget(): int { Window() - reserve }
  }

  datatype BlockName = SummaryBlock | MemoryBlock

  datatype Counts = Counts(system: nat, summary: Option<nat>, memory: Option<nat>, tail: Option<nat>, knowledge: Option<nat>, current: nat)

  datatype Context = Context(
    messages: seq<Message>, counts: Counts, omittedTurns: seq<string>, omittedDocs: seq<nat>, omittedBlocks: seq<BlockName>,
    total: nat, window: int, budget: int)

  // ----- The blocks -------------------------------------------------------------------------

  function Normalized(layers: seq<string>, summary: string): seq<string> {
    if layers != [] then layers else if summary != "" then [summary] else []
  }

  function LayerText(layers: seq<string>, i: nat): string
    requires i < |layers|
  {
    if i == 0 then SUMMARY_HEADER + "\n" + layers[0] else layers[i]
  }

  function SummaryMessages(job: Job): seq<Message> {
    var layers := Normalized(job.layers, job.summary);
    seq(|layers|, i requires 0 <= i < |layers| => Message("system", LayerText(layers, i), job.cached))
  }

  function Bullets(facts: seq<string>): string {
    if facts == [] then "" else Bullets(facts[..|facts| - 1]) + "\n- " + facts[|facts| - 1]
  }

  function MemoryMessages(job: Job): seq<Message> {
    if job.facts == [] then [] else [Message("system", MEMORY_HEADER + Bullets(job.facts), false)]
  }

  predicate HigherScore(a: Doc, b: Doc) { a.score > b.score }

  function KnowledgeMessages(job: Job, block: Block): seq<Message> {
    var docs := Sort(job.docs, HigherScore);
    seq(|docs|, i requires 0 <= i < |docs| => Message("system", block(i + 1, docs[i]), false))
  }

  /** How many leading messages fit: all of them, or up to the first that does not. */
  function Fit(ms: seq<Message>, from: nat, room: int, cost: Cost): (k: nat)
    requires from <= |ms|
    ensures from <= k <= |ms|
    decreases |ms| - from
  {
    if from == |ms| || cost(ms[from].content) > room then from
    else Fit(ms, from + 1, room - cost(ms[from].content), cost)
  }

  function TurnMessage(e: Entry, rules: Rules): Message {
    Message(e.turn.role, Shown(e.turn, rules), false)
  }

  /** Oldest first, from entries that are newest first. */
  function TailMessages(kept: seq<Entry>, rules: Rules): seq<Message> {
    if kept == [] then [] else TailMessages(kept[1..], rules) + [TurnMessage(kept[0], rules)]
  }

  function Number(n: int): string {
    if n < 0 then "-" + Dec(-n) else Dec(n)
  }

  function Label(e: Entry): string {
    if e.turn.messageId != "" then e.turn.messageId
    else if e.turn.number.Some? then "seq:" + Number(e.turn.number.value) else "?"
  }

  function Labels(es: seq<Entry>): seq<string> {
    seq(|es|, i requires 0 <= i < |es| => Label(es[i]))
  }

  function Range(lo: nat, hi: nat): seq<nat>
    requires lo <= hi
  {
    seq(hi - lo, i requires 0 <= i < hi - lo => lo + i)
  }

  // ----- The whole assembly -------------------------------------------------------------------

  /** What there is to pack. */
  datatype Parts = Parts(
    system: Message, summary: seq<Message>, memory: seq<Message>, turns: seq<Entry>, knowledge: seq<Message>,
    current: Message, rules: Rules, window: int, budget: int)

  function PartsOf(job: Job, block: Block): Parts {
    Parts(Message("system", job.system, job.cached), SummaryMessages(job), MemoryMessages(job), RecentFirst(job.turns),
          KnowledgeMessages(job, block), Message("user", job.current, false), job.rules, job.Window(), job.Budget())
  }

  /** A block that is rendered whole or not at all. */
  function Whole(ms: seq<Message>, room: int, cost: Cost): seq<Message> {
    if Total(ms, cost) <= room then ms else []
  }

  /** What the best-effort blocks become, and the budget they leave. */
  datatype Filling = Filling(summary: seq<Message>, memory: seq<Message>, tail: Tail, knowledge: seq<Message>, left: int)

  function SummaryKept(p: Parts, cost: Cost): seq<Message> {
    Whole(p.summary, p.budget - cost(p.system.content), cost)
  }

  function MemoryKept(p: Parts, cost: Cost): seq<Message> {
    Whole(p.memory, p.budget - cost(p.system.content) - Total(SummaryKept(p, cost), cost), cost)
  }

  /** The budget left when the walk over the turns begins. */
  function TailRoom(p: Parts, cost: Cost): int {
    p.budget - cost(p.system.content) - Total(SummaryKept(p, cost), cost) - Total(MemoryKept(p, cost), cost)
  }

  function KnowledgeKept(p: Parts, room: int, cost: Cost): (ms: seq<Message>)
    ensures |ms| <= |p.knowledge|
  {
    p.knowledge[..Fit(p.knowledge, 0, room, cost)]
  }

  function Fill(p: Parts, cost: Cost): Filling {
    var tail := Walk(p.turns, TailRoom(p, cost), p.rules, cost);
    var knowledge := KnowledgeKept(p, tail.left, cost);
    Filling(SummaryKept(p, cost), MemoryKept(p, cost), tail, knowledge, tail.left - Total(knowledge, cost))
  }

  function Spent(ms: seq<Message>, cost: Cost): Option<nat> {
    if ms == [] then None else Some(Total(ms, cost))
  }

  function OrZero(n: Option<nat>): nat {
    if n.Some? then n.value else 0
  }

  function Sum(c: Counts): nat {
    c.system + OrZero(c.summary) + OrZero(c.memory) + OrZero(c.tail) + OrZero(c.knowledge) + c.current
  }

  function Prompt(p: Parts, f: Filling): seq<Message> {
    [p.system] + f.summary + f.memory + TailMessages(f.tail.kept, p.rules) + f.knowledge + [p.current]
  }

  function CountsOf(p: Parts, f: Filling, cost: Cost): Counts {
    Counts(cost(p.system.content), Spent(f.summary, cost), Spent(f.memory, cost),
           Spent(TailMessages(f.tail.kept, p.rules), cost), Spent(f.knowledge, cost), cost(p.current.content))
  }

  function Missing(kept: seq<Message>, all: seq<Message>, name: BlockName): seq<BlockName> {
    if kept == [] && all != [] then [name] else []
  }

  function Finish(p: Parts, f: Filling, cost: Cost): Context
    requires |f.knowledge| <= |p.knowledge|
  {
    var counts := CountsOf(p, f, cost);
    Context(Prompt(p, f), counts, Labels(f.tail.omitted), Range(|f.knowledge|, |p.knowledge|),
            Missing(f.summary, p.summary, SummaryBlock) + Missing(f.memory, p.memory, MemoryBlock),
            Sum(counts), p.window, p.budget)
  }

  ghost function Outcome(p: Parts, cost: Cost): Result<Context> {
    if p.budget <= 0 || cost(p.system.content) > p.budget then BudgetExceeded
    else if SomeViolation(p.turns, p.rules) then RedactionViolation
    else
      var f := Fill(p, cost);
      if cost(p.current.content) > f.left then BudgetExceeded else Ok(Finish(p, f, cost))
  }

  // ----- The loops ------------------------------------------------------------------------------

  method RenderSummary(job: Job) returns (ms: seq<Message>)
    ensures ms == SummaryMessages(job)
  {
    var layers := Normalized(job.layers, job.summary);
    ghost var all := SummaryMessages(job);
    ms := [];
    for i := 0 to |layers|
      invariant ms == all[..i]
    {
      ms := ms + [Message("system", LayerText(layers, i), job.cached)];
    }
  }

  method AddKnowledge(blocks: seq<Message>, room: int, cost: Cost)
    returns (ms: seq<Message>, count: Option<nat>, left: int, omitted: seq<nat>)
    ensures ms == blocks[..Fit(blocks, 0, room, cost)]
    ensures count == Spent(ms, cost) && left == room - Total(ms, cost) && omitted == Range(|ms|, |blocks|)
  {
    ms, count, left, omitted := [], None, room, [];
    var i := 0;
    while i < |blocks|
      invariant 0 <= i <= |blocks|
      invariant ms == blocks[..i] && count == Spent(ms, cost) && left == room - Total(ms, cost) && omitted == []
      invariant Fit(blocks, i, left, cost) == Fit(blocks, 0, room, cost)
    {
      var price := cost(blocks[i].content);
      if price > left {
        omitted := Range(i, |blocks|);
        return;
      }
      TotalSnoc(ms, blocks[i], cost);
      ms, left, i := ms + [blocks[i]], left - price, i + 1;
      count := Some(OrZero(count) + price);
    }
  }

  /** What the walk takes from the budget is the price of the messages it renders. */
  lemma {:induction false} WalkBalances(es: seq<Entry>, room: int, rules: Rules, cost: Cost)
    ensures
      var t := Walk(es, room, rules, cost);
      t.left == room - Total(TailMessages(t.kept, rules), cost) && (room >= 0 ==> t.left >= 0)
  {
    if es != [] {
      var price := cost(Shown(es[0].turn, rules));
      var taken := Offered(es[0], rules) && price <= room;
      var left := if taken then room - price else room;
      var t := Walk(es[1..], left, rules, cost);
      WalkBalances(es[1..], left, rules, cost);
      if taken {
        assert ([es[0]] + t.kept)[1..] == t.kept;
        TotalSnoc(TailMessages(t.kept, rules), TurnMessage(es[0], rules), cost);
      }
    }
  }

  /** The first `k` messages fit, and the first `k + 1` do not. */
  ghost predicate IsLongest(ms: seq<Message>, k: nat, room: int, cost: Cost) {
    k <= |ms| && Total(ms[..k], cost) <= room && (k < |ms| ==> Total(ms[..k + 1], cost) > room)
  }

  /** The knowledge block is the longest run of leading documents that fits. */
  lemma {:induction false} FitIsLongest(ms: seq<Message>, from: nat, room: int, cost: Cost)
    requires from <= |ms| && room >= 0
    ensures IsLongest(ms, Fit(ms, from, room, cost), Total(ms[..from], cost) + room, cost)
    decreases |ms| - from
  {
    if from < |ms| {
      TotalPrefix(ms, from, cost);
      if cost(ms[from].content) <= room {
        FitIsLongest(ms, from + 1, room - cost(ms[from].content), cost);
      }
    }
  }

  lemma TotalOne(m: Message, cost: Cost)
    ensures Total([m], cost) == cost(m.content)
  {
    assert [m] == [] + [m];
    TotalSnoc([], m, cost);
  }

  /** The summary and memory blocks: each whole or not at all, and reported when left out. */
  method AddBlock(ms: seq<Message>, room: int, name: BlockName, cost: Cost)
    returns (kept: seq<Message>, count: Option<nat>, omitted: seq<BlockName>, left: int)
    ensures kept == Whole(ms, room, cost) && count == Spent(kept, cost) && left == room - Total(kept, cost)
    ensures omitted == Missing(kept, ms, name)
  {
    kept, count, omitted, left := [], None, [], room;
    if ms != [] {
      var tokens := EstimateMessages(ms, cost);
      if tokens <= room {
        kept, count, left := ms, Some(tokens), room - tokens;
      } else {
        omitted := [name];
      }
    }
  }

  lemma TailCount(es: seq<Entry>, room: int, rules: Rules, cost: Cost)
    ensures
      var t := Walk(es, room, rules, cost);
      && room - t.left >= 0
      && Spent(TailMessages(t.kept, rules), cost) == if t.kept == [] then None else Some(room - t.left)
  {
    WalkBalances(es, room, rules, cost);
  }

  method FillHead(p: Parts, cost: Cost)
    returns (summary: seq<Message>, memory: seq<Message>, counts: Counts, omitted: seq<BlockName>, room: int)
    ensures summary == SummaryKept(p, cost) && memory == MemoryKept(p, cost) && room == TailRoom(p, cost)
    ensures counts == Counts(cost(p.system.content), Spent(summary, cost), Spent(memory, cost), None, None, cost(p.current.content))
    ensures omitted == Missing(summary, p.summary, SummaryBlock) + Missing(memory, p.memory, MemoryBlock)
  {
    room := p.budget - cost(p.system.content);
    var summaryCount, memoryCount, noSummary, noMemory;
    summary, summaryCount, noSummary, room := AddBlock(p.summary, room, SummaryBlock, cost);
    memory, memoryCount, noMemory, room := AddBlock(p.memory, room, MemoryBlock, cost);
    omitted := noSummary + noMemory;
    counts := Counts(cost(p.system.content), summaryCount, memoryCount, None, None, cost(p.current.content));
  }

  method AddTail(es: seq<Entry>, room: int, rules: Rules, cost: Cost) returns (r: Result<Tail>, count: Option<nat>)
    ensures IsWalk(r, es, room, rules, cost)
    ensures r.Ok? ==> count == Spent(TailMessages(r.value.kept, rules), cost)
  {
    count := None;
    r := WalkTail(es, room, rules, cost);
    if r.Ok? {
      TailCount(es, room, rules, cost);
      count := if r.value.kept == [] then None else Some(room - r.value.left);
    }
  }

  method Pack(p: Parts, cost: Cost) returns (r: Result<Context>)
    ensures r == Outcome(p, cost)
  {
    if p.budget <= 0 || cost(p.system.content) > p.budget {
      return BudgetExceeded;
    }
    var summary, memory, counts, omittedBlocks, room := FillHead(p, cost);
    var tail, tailCount := AddTail(p.turns, room, p.rules, cost);
    if !tail.Ok? {
      return RedactionViolation;
    }
    var knowledge, knowledgeCount, left, omittedDocs := AddKnowledge(p.knowledge, tail.value.left, cost);
    var f := Filling(summary, memory, tail.value, knowledge, left);
    assert f == Fill(p, cost);
    if cost(p.current.content) > left {
      return BudgetExceeded;
    }
    counts := counts.(tail := tailCount, knowledge := knowledgeCount);
    return Ok(Context(Prompt(p, f), counts, Labels(tail.value.omitted), omittedDocs, omittedBlocks, Sum(counts), p.window, p.budget));
  }

  method Assemble(job: Job, cost: Cost, block: Block) returns (r: Result<Context>)
    ensures r == Outcome(PartsOf(job, block), cost)
  {
    var summary := RenderSummary(job);
    r := Pack(PartsOf(job, block).(summary := summary), cost);
  }
}
