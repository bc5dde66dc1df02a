/**
 Raw text never reaches a prompt, nor does the content of a tool turn whose result is
 cleared: two jobs that differ only in them assemble alike.
 */
module Redaction {
  import opened Sorting
  import opened Estimator
  import opened Turns
  import opened Assembler

  /**
   The same turn but for hidden text: any content and raw payload when its tool result is
   cleared, else another raw payload that is present or absent alike.
   */
  predicate SameTurn(a: Turn, b: Turn, rules: Rules) {
    b == a.(content := b.content, raw := b.raw) &&
    (!(rules.clear && a.toolPayload) ==> b.content == a.content && (a.raw == "" <==> b.raw == ""))
  }

  predicate Same(a: Entry, b: Entry, rules: Rules) {
    a.index == b.index && SameTurn(a.turn, b.turn, rules)
  }

  ghost predicate Alike(s: seq<Entry>, t: seq<Entry>, rules: Rules) {
    |s| == |t| && forall i :: 0 <= i < |s| ==> Same(s[i], t[i], rules)
  }

  ghost predicate TurnsAlike(s: seq<Turn>, t: seq<Turn>, rules: Rules) {
    |s| == |t| && forall i :: 0 <= i < |s| ==> SameTurn(s[i], t[i], rules)
  }

  lemma AlikeFront(s: seq<Entry>, t: seq<Entry>, rules: Rules)
    requires Alike(s, t, rules) && s != []
    ensures Alike(s[..|s| - 1], t[..|t| - 1], rules) && Same(s[|s| - 1], t[|t| - 1], rules)
  {
  }

  lemma AlikeConcat(a: seq<Entry>, b: seq<Entry>, c: seq<Entry>, d: seq<Entry>, rules: Rules)
    requires Alike(a, b, rules) && Alike(c, d, rules)
    ensures Alike(a + c, b + d, rules)
  {
  }

  lemma {:induction false} EligibleAlike(s: seq<Turn>, t: seq<Turn>, rules: Rules)
    requires TurnsAlike(s, t, rules)
    ensures Alike(Eligible(s), Eligible(t), rules)
  {
    if s != [] {
      var n := |s| - 1;
      EligibleAlike(s[..n], t[..n], rules);
      assert SameTurn(s[n], t[n], rules);
      if s[n].role in {"user", "assistant"} {
        AlikeConcat(Eligible(s[..n]), Eligible(t[..n]), [Entry(s[n], n)], [Entry(t[n], n)], rules);
      } else {
        AlikeConcat(Eligible(s[..n]), Eligible(t[..n]), [], [], rules);
      }
    }
  }

  lemma {:induction false} InsertAlike(s: seq<Entry>, t: seq<Entry>, x: Entry, y: Entry, rules: Rules)
    requires Alike(s, t, rules) && Same(x, y, rules)
    ensures Alike(Insert(s, x, Newer), Insert(t, y, Newer), rules)
  {
    if s == [] {
      AlikeConcat(s, t, [x], [y], rules);
    } else {
      var n := |s| - 1;
      AlikeFront(s, t, rules);
      if Newer(x, s[n]) {
        InsertAlike(s[..n], t[..n], x, y, rules);
        AlikeConcat(Insert(s[..n], x, Newer), Insert(t[..n], y, Newer), [s[n]], [t[n]], rules);
      } else {
        AlikeConcat(s, t, [x], [y], rules);
      }
    }
  }

  lemma {:induction false} SortAlike(s: seq<Entry>, t: seq<Entry>, rules: Rules)
    requires Alike(s, t, rules)
    ensures Alike(Sort(s, Newer), Sort(t, Newer), rules)
  {
    if s != [] {
      var n := |s| - 1;
      AlikeFront(s, t, rules);
      SortAlike(s[..n], t[..n], rules);
      InsertAlike(Sort(s[..n], Newer), Sort(t[..n], Newer), s[n], t[n], rules);
    }
  }

  ghost predicate TailsAlike(a: Tail, b: Tail, rules: Rules) {
    Alike(a.kept, b.kept, rules) && Alike(a.omitted, b.omitted, rules) && a.left == b.left
  }

  lemma {:induction false} WalkAlike(s: seq<Entry>, t: seq<Entry>, room: int, rules: Rules, cost: Cost)
    requires Alike(s, t, rules)
    ensures TailsAlike(Walk(s, room, rules, cost), Walk(t, room, rules, cost), rules)
  {
    if s != [] {
      assert Same(s[0], t[0], rules);
      var price := cost(Shown(s[0].turn, rules));
      var left := if Offered(s[0], rules) && price <= room then room - price else room;
      WalkAlike(s[1..], t[1..], left, rules, cost);
      var a, b := Walk(s[1..], left, rules, cost), Walk(t[1..], left, rules, cost);
      AlikeConcat([s[0]], [t[0]], a.kept, b.kept, rules);
      AlikeConcat([s[0]], [t[0]], a.omitted, b.omitted, rules);
    }
  }

  lemma {:induction false} MessagesAlike(s: seq<Entry>, t: seq<Entry>, rules: Rules)
    requires Alike(s, t, rules)
    ensures TailMessages(s, rules) == TailMessages(t, rules)
  {
    if s != [] {
      assert Same(s[0], t[0], rules);
      MessagesAlike(s[1..], t[1..], rules);
    }
  }

  lemma LabelsAlike(s: seq<Entry>, t: seq<Entry>, rules: Rules)
    requires Alike(s, t, rules)
    ensures Labels(s) == Labels(t)
  {
    forall i | 0 <= i < |s| ensures Label(s[i]) == Label(t[i]) {
      assert Same(s[i], t[i], rules);
    }
  }

  lemma ViolationsAlike(s: seq<Entry>, t: seq<Entry>, rules: Rules)
    requires Alike(s, t, rules)
    ensures SomeViolation(s, rules) == SomeViolation(t, rules)
  {
    forall i | 0 <= i < |s| ensures Violates(s[i], rules) == Violates(t[i], rules) {
      assert Same(s[i], t[i], rules);
    }
  }

  lemma OutcomeAlike(p: Parts, q: Parts, cost: Cost)
    requires q == p.(turns := q.turns) && Alike(p.turns, q.turns, p.rules)
    ensures Outcome(p, cost) == Outcome(q, cost)
  {
    ViolationsAlike(p.turns, q.turns, p.rules);
    WalkAlike(p.turns, q.turns, TailRoom(p, cost), p.rules, cost);
    var f, g := Fill(p, cost), Fill(q, cost);
    assert TailRoom(p, cost) == TailRoom(q, cost);
    MessagesAlike(f.tail.kept, g.tail.kept, p.rules);
    LabelsAlike(f.tail.omitted, g.tail.omitted, p.rules);
    assert g == f.(tail := g.tail);
  }

  /**
   What `assemble` returns, prompt, counts, reports and errors, does not depend on the
   raw text of any turn, only on whether there is one; and not at all on either text of a
   turn whose tool result is cleared.
   */
  lemma HiddenTextIsIrrelevant(job: Job, turns: seq<Turn>, cost: Cost, block: Block)
    requires TurnsAlike(job.turns, turns, job.rules)
    ensures Outcome(PartsOf(job.(turns := turns), block), cost) == Outcome(PartsOf(job, block), cost)
  {
    EligibleAlike(job.turns, turns, job.rules);
    SortAlike(Eligible(job.turns), Eligible(turns), job.rules);
    OutcomeAlike(PartsOf(job, block), PartsOf(job.(turns := turns), block), cost);
  }
}
