/** Two prompts that the assembler handles against its documentation. */
module AssemblerWitnesses {
  import opened Text
  import opened Sorting
  import opened Estimator
  import opened Turns
  import opened Assembler

  lemma OneEach(s: string)
    ensures ByLength(1.0)(s) == |s|
  {
    if s != "" {
      assert |s| as real / 1.0 == |s| as real;
    }
  }

  function Said(content: string, number: int): Turn {
    Turn("user", content, Some(number), "", false, "")
  }

  /** A job with nothing but a system prompt, turns and a current message, one token to a character. */
  function Plain(window: int, system: string, turns: seq<Turn>, current: string): Job {
    Job(None, window, 0, false, system, current, turns, Rules(None, false), [], "", [], [])
  }

  lemma PlainParts(window: int, system: string, turns: seq<Turn>, current: string, block: Block)
    requires window >= |system|
    ensures
      var p := PartsOf(Plain(window, system, turns, current), block);
      && p == Parts(Message("system", system, false), [], [], RecentFirst(turns), [], Message("user", current, false),
                    Rules(None, false), window, window)
      && TailRoom(p, ByLength(1.0)) == window - |system|
  {
    var job := Plain(window, system, turns, current);
    OneEach(system);
    assert SummaryMessages(job) == [] && MemoryMessages(job) == [];
    assert Sort(job.docs, HigherScore) == [];
    assert KnowledgeMessages(job, block) == [];
  }

  lemma OneTurn(a: Turn)
    requires a.role == "user"
    ensures RecentFirst([a]) == [Entry(a, 0)]
  {
    var turns := [a];
    assert turns[..0] == [];
    assert Eligible([]) == [];
    assert Eligible(turns) == [Entry(a, 0)];
    SortOne(Entry(a, 0));
  }

  lemma SortOne(e: Entry)
    ensures Sort([e], Newer) == [e]
  {
    assert [e][..0] == [];
    assert Sort<Entry>([], Newer) == [];
    assert Insert([], e, Newer) == [e];
  }

  lemma TwoTurns(a: Turn, b: Turn)
    requires a.role == "user" && b.role == "user" && a.number == Some(1) && b.number == Some(2)
    ensures RecentFirst([a, b]) == [Entry(b, 1), Entry(a, 0)]
  {
    var x, y := Entry(a, 0), Entry(b, 1);
    OneTurn(a);
    assert [a, b][..1] == [a];
    assert [a][..0] == [] && Eligible([]) == [];
    assert Eligible([a]) == [x];
    assert Eligible([a, b]) == [x, y];
    assert [x, y][..1] == [x];
    SortOne(x);
    assert Newer(y, x);
    assert [x][..0] == [];
    assert Insert([], y, Newer) == [y];
    assert Insert([x], y, Newer) == [y, x];
  }

  /** With a system prompt of one token and a window of two, one turn of one token takes what is left. */
  lemma TurnTakesAll(p: Parts, e: Entry)
    requires p.turns == [e] && p.knowledge == [] && p.rules == Rules(None, false) && p.budget == 2
    requires e.turn == Said("b", 1) && TailRoom(p, ByLength(1.0)) == 1
    ensures Fill(p, ByLength(1.0)).left == 0 && !SomeViolation(p.turns, p.rules)
  {
    OneEach("b");
    assert Shown(e.turn, p.rules) == "b";
    assert [e][1..] == [];
    assert Walk([e], 1, p.rules, ByLength(1.0)) == Tail([e], [], 0);
    assert Total([], ByLength(1.0)) == 0;
  }

  lemma NoTurnTakesNothing(p: Parts)
    requires p.turns == [] && p.knowledge == [] && TailRoom(p, ByLength(1.0)) == 1
    ensures Fill(p, ByLength(1.0)).left == 1 && !SomeViolation(p.turns, p.rules)
  {
    assert Walk([], 1, p.rules, ByLength(1.0)) == Tail([], [], 1);
    assert Total([], ByLength(1.0)) == 0;
  }

  /** Once the mandatory prefix fits and no turn is a violation, the current message decides. */
  lemma CurrentDecides(p: Parts, cost: Cost)
    requires p.budget > 0 && cost(p.system.content) <= p.budget && !SomeViolation(p.turns, p.rules)
    ensures cost(p.current.content) <= Fill(p, cost).left ==> Outcome(p, cost).Ok?
    ensures cost(p.current.content) > Fill(p, cost).left ==> Outcome(p, cost) == BudgetExceeded
  {
  }

  lemma WithTheTurn(block: Block)
    ensures Outcome(PartsOf(Plain(2, "a", [Said("b", 1)], "c"), block), ByLength(1.0)) == BudgetExceeded
  {
    var turn := Said("b", 1);
    var p := PartsOf(Plain(2, "a", [turn], "c"), block);
    OneEach("a");
    OneEach("c");
    PlainParts(2, "a", [turn], "c", block);
    OneTurn(turn);
    TurnTakesAll(p, Entry(turn, 0));
    CurrentDecides(p, ByLength(1.0));
  }

  lemma WithoutTheTurn(block: Block)
    ensures Outcome(PartsOf(Plain(2, "a", [], "c"), block), ByLength(1.0)).Ok?
  {
    var p := PartsOf(Plain(2, "a", [], "c"), block);
    OneEach("a");
    OneEach("c");
    PlainParts(2, "a", [], "c", block);
    assert RecentFirst([]) == [];
    NoTurnTakesNothing(p);
    CurrentDecides(p, ByLength(1.0));
  }

  /**
   The room of the current message is not set aside: a system prompt and a current
   message of one token each fit a window of two, and one recent turn makes them fail.
   */
  lemma CrowdedOut(block: Block) returns (job: Job)
    ensures ByLength(1.0)(job.system) + ByLength(1.0)(job.current) <= job.Budget()
    ensures Outcome(PartsOf(job.(turns := []), block), ByLength(1.0)).Ok?
    ensures Outcome(PartsOf(job, block), ByLength(1.0)) == BudgetExceeded
  {
    job := Plain(2, "a", [Said("b", 1)], "c");
    OneEach("a");
    OneEach("c");
    WithTheTurn(block);
    WithoutTheTurn(block);
    assert job.(turns := []) == Plain(2, "a", [], "c");
  }

  /** A small old turn is rendered after a big new one was left out. */
  lemma GapInTheTail(block: Block) returns (job: Job)
    ensures Outcome(PartsOf(job, block), ByLength(1.0)).Ok? && |job.turns| == 2
    ensures Fill(PartsOf(job, block), ByLength(1.0)).tail.kept == [Entry(job.turns[0], 0)]
    ensures Fill(PartsOf(job, block), ByLength(1.0)).tail.omitted == [Entry(job.turns[1], 1)]
  {
    var cost := ByLength(1.0);
    var small, big := Said("b", 1), Said("bbb", 2);
    job := Plain(3, "a", [small, big], "c");
    OneEach("a");
    OneEach("b");
    OneEach("bbb");
    OneEach("c");
    PlainParts(3, "a", [small, big], "c", block);
    TwoTurns(small, big);
    var x, y := Entry(small, 0), Entry(big, 1);
    assert Shown(small, job.rules) == "b" && Shown(big, job.rules) == "bbb";
    assert [x][1..] == [] && [y, x][1..] == [x];
    assert Walk([x], 2, job.rules, cost) == Tail([x], [], 1);
    assert Walk([y, x], 2, job.rules, cost) == Tail([x], [y], 1);
    assert !Violates(x, job.rules) && !Violates(y, job.rules);
  }
}
