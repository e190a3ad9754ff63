/** The `chosenOptions` record of a location visit: a JavaScript object keyed by
    decision id. Its keys keep insertion order (the order `for (k in ...)`
    visits them), and assigning an existing key overwrites the value in place.
    It is modelled as a sequence of entries with distinct keys. */
module ChosenOptions {
  import opened Wrappers

  /** What one answered decision records: the option id and its risk multiplier. */
  datatype Chosen = Chosen(option: string, riskMod: real)

  datatype Entry = Entry(key: string, value: Chosen)

  type Record = seq<Entry>

  /** The keys in insertion order. */
  function Keys(r: Record): (ks: seq<string>)
    ensures |ks| == |r|
  {
    if r == [] then [] else [r[0].key] + Keys(r[1..])
  }

  predicate DistinctKeys(r: Record)
  {
    r == [] || (r[0].key !in Keys(r[1..]) && DistinctKeys(r[1..]))
  }

  /** `r[k]`: the value stored under `k`, or `None` when `k` is not a key. */
  function Get(r: Record, k: string): (v: Option<Chosen>)
    ensures v.None? <==> k !in Keys(r)
  {
    if r == [] then None
    else if r[0].key == k then Some(r[0].value)
    else Get(r[1..], k)
  }

  /** `r[k] = v`: overwrites the value of an existing key where it stands,
      otherwise appends a new key at the end. */
  function Put(r: Record, k: string, v: Chosen): (t: Record)
    ensures Get(t, k) == Some(v)
    ensures forall k' :: k' != k ==> Get(t, k') == Get(r, k')
    ensures k in Keys(r) ==> Keys(t) == Keys(r)
    ensures k !in Keys(r) ==> t == r + [Entry(k, v)] && Keys(t) == Keys(r) + [k]
    ensures DistinctKeys(r) ==> DistinctKeys(t)
  {
    if r == [] then [Entry(k, v)]
    else if r[0].key == k then [Entry(k, v)] + r[1..]
    else
      var t' := Put(r[1..], k, v);
      assert ([r[0]] + t')[1..] == t';
      assert k !in Keys(r) ==> r + [Entry(k, v)] == [r[0]] + (r[1..] + [Entry(k, v)]);
      [r[0]] + t'
  }

  /** The record without key `k`, the other entries in their order. */
  function Remove(r: Record, k: string): (t: Record)
    ensures k !in Keys(t)
    ensures forall k' :: k' != k ==> Get(t, k') == Get(r, k')
    ensures forall k' :: k' in Keys(t) ==> k' in Keys(r)
    ensures DistinctKeys(r) ==> DistinctKeys(t)
  {
    if r == [] then []
    else if r[0].key == k then Remove(r[1..], k)
    else
      var t' := Remove(r[1..], k);
      assert ([r[0]] + t')[1..] == t';
      [r[0]] + t'
  }

  /** A stored value sits at some position of the record. */
  lemma {:induction false} GetFindsEntry(r: Record, k: string)
    requires Get(r, k).Some?
    ensures exists i :: 0 <= i < |r| && r[i] == Entry(k, Get(r, k).value)
  {
    if r[0].key != k {
      GetFindsEntry(r[1..], k);
      var i :| 0 <= i < |r[1..]| && r[1..][i] == Entry(k, Get(r, k).value);
      assert r[i + 1] == r[1..][i];
    }
  }

  /** The composite risk multiplier: the product of every recorded `riskMod`. */
  function Product(r: Record): real
  {
    if r == [] then 1.0 else r[0].value.riskMod * Product(r[1..])
  }

  /** Appending one entry multiplies the product by its `riskMod`: the
      product built left to right by `total *= ...` is `Product`. */
  lemma {:induction false} ProductSnoc(r: Record, e: Entry)
    ensures Product(r + [e]) == Product(r) * e.value.riskMod
  {
    if r != [] {
      assert (r + [e])[1..] == r[1..] + [e];
      ProductSnoc(r[1..], e);
    }
  }

  /** The product is zero exactly when some recorded `riskMod` is zero. */
  lemma {:induction false} ProductZeroIff(r: Record)
    ensures Product(r) == 0.0 <==> exists i :: 0 <= i < |r| && r[i].value.riskMod == 0.0
  {
    if r != [] {
      ProductZeroIff(r[1..]);
      if exists i :: 0 <= i < |r[1..]| && r[1..][i].value.riskMod == 0.0 {
        var i :| 0 <= i < |r[1..]| && r[1..][i].value.riskMod == 0.0;
        assert r[i + 1].value.riskMod == 0.0;
      }
      if exists i :: 0 <= i < |r| && r[i].value.riskMod == 0.0 {
        var i :| 0 <= i < |r| && r[i].value.riskMod == 0.0;
        if i > 0 {
          assert r[1..][i - 1].value.riskMod == 0.0;
        }
      }
    }
  }

  /** A key contributes its current value exactly once: the product is that
      value times the product of the other keys. */
  lemma {:induction false} ProductSplitsAtKey(r: Record, k: string, c: Chosen)
    requires DistinctKeys(r)
    requires Get(r, k) == Some(c)
    ensures Product(r) == c.riskMod * Product(Remove(r, k))
  {
    var x := r[0].value.riskMod;
    if r[0].key == k {
      RemoveAbsent(r[1..], k);
      assert Remove(r, k) == r[1..];
    } else {
      var rest := Remove(r[1..], k);
      var p := Product(rest);
      assert Product(r[1..]) == c.riskMod * p by {
        ProductSplitsAtKey(r[1..], k, c);
      }
      assert Product(Remove(r, k)) == x * p by {
        assert Remove(r, k) == [r[0]] + rest;
        ProductCons(r[0], rest);
      }
      Reassociate(x, c.riskMod, p);
    }
  }

  lemma ProductCons(e: Entry, t: Record)
    ensures Product([e] + t) == e.value.riskMod * Product(t)
  {
    assert ([e] + t)[1..] == t;
  }

  lemma Reassociate(x: real, g: real, p: real)
    ensures x * (g * p) == g * (x * p)
  {
  }

  /** Removing a key that is absent changes nothing. */
  lemma {:induction false} RemoveAbsent(r: Record, k: string)
    requires k !in Keys(r)
    ensures Remove(r, k) == r
  {
    if r != [] {
      RemoveAbsent(r[1..], k);
    }
  }

  /** Answering a decision again replaces its factor instead of multiplying
      a second one in: after `r[k] = v` the product is `v.riskMod` times the
      product of the other keys, whatever `k` held before. */
  lemma {:induction false} PutReplacesFactor(r: Record, k: string, v: Chosen)
    requires DistinctKeys(r)
    ensures Product(Put(r, k, v)) == v.riskMod * Product(Remove(r, k))
  {
    var t := Put(r, k, v);
    RemoveAfterPut(r, k, v);
    ProductSplitsAtKey(t, k, v);
  }

  /** Removing a key just written leaves what removing it before would. */
  lemma {:induction false} RemoveAfterPut(r: Record, k: string, v: Chosen)
    ensures Remove(Put(r, k, v), k) == Remove(r, k)
  {
    if r != [] && r[0].key != k {
      RemoveAfterPut(r[1..], k, v);
      assert ([r[0]] + Put(r[1..], k, v))[1..] == Put(r[1..], k, v);
    } else if r != [] {
      assert ([Entry(k, v)] + r[1..])[1..] == r[1..];
    }
  }

  /** The accumulation loop of `resolveInfection`: `totalRiskMod *= r[k].riskMod`
      for every key in insertion order, starting from 1. */
  method TotalRiskMod(r: Record) returns (total: real)
    ensures total == Product(r)
  {
    total := 1.0;
    var i := 0;
    while i < |r|
      invariant 0 <= i <= |r|
      invariant total == Product(r[..i])
    {
      ProductSnoc(r[..i], r[i]);
      assert r[..i + 1] == r[..i] + [r[i]];
      total := total * r[i].value.riskMod;
      i := i + 1;
    }
    assert r[..i] == r;
  }
}
