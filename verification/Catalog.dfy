/** Model facts: context windows and price cards. */
module Catalog {
  import opened Text

  datatype Deployment = Deployment(provider: string, model: string)

  datatype ModelSpec = ModelSpec(provider: string, model: string, window: int, inputPrice: real, outputPrice: real)

  type Specs = map<string, ModelSpec>

  function ModelKey(d: Deployment): string {
    Lower(Trim(d.provider)) + ":" + Lower(Trim(d.model))
  }

  function Price(spec: ModelSpec, input: int, output: int): real {
    input as real / 1000.0 * spec.inputPrice + output as real / 1000.0 * spec.outputPrice
  }

  /** Estimated USD for a call, or None when the catalog has no price card. */
  function EstimateCost(specs: Specs, d: Deployment, input: int, output: int): Option<real> {
    var key := ModelKey(d);
    if key in specs then Some(Price(specs[key], input, output)) else None
  }

  predicate PricesNonNegative(specs: Specs) {
    forall k :: k in specs ==> specs[k].inputPrice >= 0.0 && specs[k].outputPrice >= 0.0
  }

  lemma MulMonotonic(a: real, b: real, p: real)
    requires a <= b && p >= 0.0
    ensures a * p <= b * p
  {
    assert (b - a) * p >= 0.0;
  }

  /** More tokens never cost less. */
  lemma PriceMonotonic(spec: ModelSpec, i: int, o: int, i': int, o': int)
    requires spec.inputPrice >= 0.0 && spec.outputPrice >= 0.0 && i <= i' && o <= o'
    ensures Price(spec, i, o) <= Price(spec, i', o')
  {
    var (a, a') := (i as real / 1000.0, i' as real / 1000.0);
    var (b, b') := (o as real / 1000.0, o' as real / 1000.0);
    assert a <= a' && b <= b';
    MulMonotonic(a, a', spec.inputPrice);
    MulMonotonic(b, b', spec.outputPrice);
  }

  lemma PriceNonNegative(spec: ModelSpec, i: nat, o: nat)
    requires spec.inputPrice >= 0.0 && spec.outputPrice >= 0.0
    ensures Price(spec, i, o) >= 0.0
  {
    PriceMonotonic(spec, 0, 0, i, o);
    assert Price(spec, 0, 0) == 0.0;
  }

  /** The same for a deployment: the same price card applies to both estimates. */
  lemma CostMonotonic(specs: Specs, d: Deployment, i: nat, o: nat, i': nat, o': nat)
    requires PricesNonNegative(specs) && i <= i' && o <= o'
    ensures NotDearer(EstimateCost(specs, d, i, o), EstimateCost(specs, d, i', o'))
  {
    if ModelKey(d) in specs {
      PriceMonotonic(specs[ModelKey(d)], i, o, i', o');
      PriceNonNegative(specs[ModelKey(d)], i', o');
    }
  }

  predicate NotDearer(a: Option<real>, b: Option<real>) {
    if b.None? then a.None? else a.Some? && a.value <= b.value && b.value >= 0.0
  }
}
