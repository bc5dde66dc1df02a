/** Which deployments share a price card or a failure counter: their key is `provider:model`. */
module ModelKeys {
  import opened Text
  import opened Catalog
  import Cooldown

  /** `strip().lower()`. */
  function Normal(s: string): string {
    Lower(Trim(s))
  }

  lemma NormalColonFree(s: string)
    requires ColonFree(s)
    ensures ColonFree(Normal(s))
  {
    var t := Trim(s);
    forall i | 0 <= i < |t| ensures t[i] in s {
      assert t[i] in TrimStart(s);
    }
    assert forall i :: 0 <= i < |t| ==> Lower(t)[i] == LowerChar(t[i]);
  }

  lemma KeyParts(p: string, m: string)
    ensures Cooldown.DeploymentKey(p, m) == Normal(p) + ":" + Normal(m)
    ensures ModelKey(Deployment(p, m)) == Cooldown.DeploymentKey(p, m)
  {
  }

  /** Two models of one provider share a key exactly when their names differ only in case and outer space. */
  lemma ModelsOfOneProvider(p: string, m: string, n: string)
    ensures Cooldown.DeploymentKey(p, m) == Cooldown.DeploymentKey(p, n) <==> Normal(m) == Normal(n)
  {
    KeyParts(p, m);
    KeyParts(p, n);
    var k := |Normal(p)| + 1;
    assert Normal(m) == (Normal(p) + ":" + Normal(m))[k..] && Normal(n) == (Normal(p) + ":" + Normal(n))[k..];
  }

  /** Between providers without a colon in their names, a key tells the provider and the model. */
  lemma KeysEqualIff(p: string, m: string, q: string, n: string)
    requires ColonFree(p) && ColonFree(q)
    ensures Cooldown.DeploymentKey(p, m) == Cooldown.DeploymentKey(q, n) <==> Normal(p) == Normal(q) && Normal(m) == Normal(n)
  {
    KeyParts(p, m);
    KeyParts(q, n);
    if Cooldown.DeploymentKey(p, m) == Cooldown.DeploymentKey(q, n) {
      NormalColonFree(p);
      NormalColonFree(q);
      FirstColon(Normal(p), Normal(m), Normal(q), Normal(n));
    }
  }

  lemma StartsLike(x: string, y: string, v: string)
    requires ColonFree(x) && ColonFree(y)
    ensures x + ":" <= y + ":" + v <==> x == y
  {
    if x + ":" <= y + ":" + v {
      var rest := (y + ":" + v)[|x| + 1..];
      assert y + ":" + v == x + ":" + rest;
      FirstColon(x, rest, y, v);
    }
  }

  lemma ScopeOf(p: string, key: string)
    requires p != ""
    ensures Cooldown.InScope(Some(p), None, key) <==> Normal(p) + ":" <= key
  {
    assert Cooldown.Given(Some(p)) && !Cooldown.Given(None);
  }

  /** A reset of one provider clears the counters of all its models and of no other provider. */
  lemma ResetOfOneProvider(p: string, q: string, n: string)
    requires p != "" && ColonFree(p) && ColonFree(q)
    ensures Cooldown.InScope(Some(p), None, Cooldown.DeploymentKey(q, n)) <==> Normal(p) == Normal(q)
  {
    var key := Cooldown.DeploymentKey(q, n);
    ScopeOf(p, key);
    KeyParts(q, n);
    NormalColonFree(p);
    NormalColonFree(q);
    StartsLike(Normal(p), Normal(q), Normal(n));
  }

  // ----- Prices -----------------------------------------------------------------------------

  /** The price card is per thousand tokens, each side by itself. */
  lemma PriceCard(spec: ModelSpec, i: int, o: int)
    ensures Price(spec, 1000, 0) == spec.inputPrice && Price(spec, 0, 1000) == spec.outputPrice
    ensures Price(spec, i, o) == Price(spec, i, 0) + Price(spec, 0, o)
  {
  }

  /** A split call costs what the whole call costs. */
  lemma PriceAdds(spec: ModelSpec, i: int, o: int, j: int, p: int)
    ensures Price(spec, i + j, o + p) == Price(spec, i, o) + Price(spec, j, p)
  {
    Shares(i as real / 1000.0, j as real / 1000.0, spec.inputPrice);
    Shares(o as real / 1000.0, p as real / 1000.0, spec.outputPrice);
    assert (i + j) as real / 1000.0 == i as real / 1000.0 + j as real / 1000.0;
    assert (o + p) as real / 1000.0 == o as real / 1000.0 + p as real / 1000.0;
  }

  lemma Shares(a: real, b: real, p: real)
    ensures (a + b) * p == a * p + b * p
  {
  }
}
