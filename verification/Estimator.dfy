/** Token estimates by length. */
module Estimator {

  datatype Message = Message(role: string, content: string, cached: bool)

  /** What one text costs. */
  type Cost = string -> nat

  function Ceil(x: real): int {
    -((-x).Floor)
  }

  /** `per` is the number of characters per token. */
  function Estimate(per: real, text: string): int {
    if text == "" || per <= 0.0 then 0 else Ceil(|text| as real / per)
  }

  lemma EstimateSign(per: real, text: string)
    ensures Estimate(per, text) >= 0
    ensures per > 0.0 && text != "" ==> Estimate(per, text) > 0
  {
    if per > 0.0 && text != "" {
      assert |text| as real / per > 0.0;
    }
  }

  /** The estimate of a text is the least number of tokens whose characters cover it. */
  lemma EstimateIsLeast(per: real, text: string, n: nat)
    requires per > 0.0
    ensures n >= Estimate(per, text) <==> n as real * per >= |text| as real
  {
    EstimateSign(per, text);
    Covers(|text| as real, per, n as real);
  }

  lemma Covers(length: real, per: real, n: real)
    requires per > 0.0
    ensures n >= length / per <==> n * per >= length
  {
    var q := length / per;
    assert q * per == length;
    if n >= q { assert (n - q) * per >= 0.0; } else { assert (q - n) * per > 0.0; }
  }

  function ByLength(per: real): Cost {
    text => (EstimateSign(per, text); Estimate(per, text))
  }

  lemma Quotients(a: real, b: real, per: real)
    requires per > 0.0
    ensures (a + b) / per == a / per + b / per
  {
  }

  /** One estimate of two texts run together never exceeds the sum of two estimates. */
  lemma Subadditive(per: real, s: string, t: string)
    ensures Estimate(per, s + t) <= Estimate(per, s) + Estimate(per, t)
  {
    if s == "" {
      assert s + t == t;
    } else if t == "" {
      assert s + t == s;
    } else if per > 0.0 {
      Quotients(|s| as real, |t| as real, per);
      assert |s + t| as real == |s| as real + |t| as real;
    }
  }

  /** The reference count of a message list: each message by itself. */
  function Total(ms: seq<Message>, cost: Cost): nat {
    if ms == [] then 0 else Total(ms[..|ms| - 1], cost) + cost(ms[|ms| - 1].content)
  }

  method EstimateMessages(ms: seq<Message>, cost: Cost) returns (total: nat)
    ensures total == Total(ms, cost)
  {
    total := 0;
    for i := 0 to |ms|
      invariant total == Total(ms[..i], cost)
    {
      total := total + cost(ms[i].content);
      assert ms[..i + 1][..i] == ms[..i];
    }
    assert ms[..|ms|] == ms;
  }

  lemma TotalSnoc(ms: seq<Message>, m: Message, cost: Cost)
    ensures Total(ms + [m], cost) == Total(ms, cost) + cost(m.content)
  {
    assert (ms + [m])[..|ms|] == ms;
  }

  lemma {:induction false} TotalConcat(a: seq<Message>, b: seq<Message>, cost: Cost)
    ensures Total(a + b, cost) == Total(a, cost) + Total(b, cost)
    decreases |b|
  {
    if b == [] {
      assert a + b == a;
    } else {
      var front, last := b[..|b| - 1], b[|b| - 1];
      TotalConcat(a, front, cost);
      TotalSnoc(a + front, last, cost);
      assert a + b == (a + front) + [last];
    }
  }

  lemma TotalPrefix(ms: seq<Message>, i: nat, cost: Cost)
    requires i < |ms|
    ensures Total(ms[..i + 1], cost) == Total(ms[..i], cost) + cost(ms[i].content)
  {
    assert ms[..i + 1] == ms[..i] + [ms[i]];
    TotalSnoc(ms[..i], ms[i], cost);
  }

  function Concatenated(ms: seq<Message>): string {
    if ms == [] then "" else Concatenated(ms[..|ms| - 1]) + ms[|ms| - 1].content
  }

  /** The count of parts is never below the estimate of the whole text. */
  lemma {:induction false} PartsBoundWhole(per: real, ms: seq<Message>)
    ensures Estimate(per, Concatenated(ms)) <= Total(ms, ByLength(per))
  {
    if ms != [] {
      var front := ms[..|ms| - 1];
      PartsBoundWhole(per, front);
      Subadditive(per, Concatenated(front), ms[|ms| - 1].content);
    }
  }
}
