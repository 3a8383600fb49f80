/**
 * Weighted averages of the form (sum of weight * value) / (sum of weight), the
 * defuzzification step shared by the server's Tsukamoto inference, the server's
 * numeric defuzzification value and the stand-alone demo script.
 */
module WeightedAverage {

  /** One weighted value: a firing strength and the crisp value it supports. */
  datatype Term = Term(weight: real, value: real)

  /** Sum of weight * value, accumulated front to back. */
  function Num(ts: seq<Term>): real
  {
    if ts == [] then 0.0 else Num(ts[..|ts| - 1]) + ts[|ts| - 1].weight * ts[|ts| - 1].value
  }

  /** Sum of the weights, accumulated front to back. */
  function Den(ts: seq<Term>): real
  {
    if ts == [] then 0.0 else Den(ts[..|ts| - 1]) + ts[|ts| - 1].weight
  }

  /** The average when the weights sum to something positive, and 0 otherwise. */
  function Average(ts: seq<Term>): real
  {
    if Den(ts) > 0.0 then Num(ts) / Den(ts) else 0.0
  }

  predicate PositiveWeights(ts: seq<Term>)
  {
    forall i :: 0 <= i < |ts| ==> ts[i].weight > 0.0
  }

  predicate ValuesWithin(ts: seq<Term>, lo: real, hi: real)
  {
    forall i :: 0 <= i < |ts| ==> lo <= ts[i].value <= hi
  }

  lemma AppendTerm(ts: seq<Term>, t: Term)
    ensures Num(ts + [t]) == Num(ts) + t.weight * t.value
    ensures Den(ts + [t]) == Den(ts) + t.weight
  {
    assert (ts + [t])[..|ts|] == ts;
  }

  /** With positive weights the weight sum is zero exactly when there are no terms. */
  lemma {:induction false} DenPositive(ts: seq<Term>)
    requires PositiveWeights(ts)
    ensures Den(ts) >= 0.0
    ensures Den(ts) == 0.0 <==> ts == []
  {
    if ts != [] {
      DenPositive(ts[..|ts| - 1]);
    }
  }

  lemma MulMono(w: real, a: real, b: real)
    requires w >= 0.0 && a <= b
    ensures w * a <= w * b
  {
    assert w * b - w * a == w * (b - a);
  }

  lemma DivBetween(n: real, d: real, lo: real, hi: real)
    requires d > 0.0 && lo * d <= n <= hi * d
    ensures lo <= n / d <= hi
  {
    var q := n / d;
    assert q * d == n;
    if q < lo {
      MulMono(d, q, lo);
    }
    if q > hi {
      MulMono(d, hi, q);
    }
  }

  /** lo * (sum of weights) <= sum of weight * value <= hi * (sum of weights). */
  lemma {:induction false} NumBetween(ts: seq<Term>, lo: real, hi: real)
    requires PositiveWeights(ts) && ValuesWithin(ts, lo, hi)
    ensures lo * Den(ts) <= Num(ts) <= hi * Den(ts)
  {
    if ts != [] {
      var init, t := ts[..|ts| - 1], ts[|ts| - 1];
      assert PositiveWeights(init) && ValuesWithin(init, lo, hi);
      NumBetween(init, lo, hi);
      assert lo <= t.value <= hi;
      StepBetween(Num(init), Den(init), t.weight, t.value, lo, hi);
    }
  }

  /** Adding one term keeps the numerator between lo and hi times the denominator. */
  lemma StepBetween(n: real, d: real, w: real, v: real, lo: real, hi: real)
    requires lo * d <= n <= hi * d && w >= 0.0 && lo <= v <= hi
    ensures lo * (d + w) <= n + w * v <= hi * (d + w)
  {
    MulMono(w, lo, v);
    MulMono(w, v, hi);
    assert lo * (d + w) == lo * d + w * lo;
    assert hi * (d + w) == hi * d + w * hi;
  }

  /** The average of at least one positively weighted term lies between the least and the greatest value. */
  lemma AverageBetween(ts: seq<Term>, lo: real, hi: real)
    requires PositiveWeights(ts) && ValuesWithin(ts, lo, hi) && ts != []
    ensures lo <= Average(ts) <= hi
  {
    DenPositive(ts);
    NumBetween(ts, lo, hi);
    assert lo * Den(ts) == Den(ts) * lo;
    DivBetween(Num(ts), Den(ts), lo, hi);
  }

  /** One term alone averages to its own value. */
  lemma SingleTerm(t: Term)
    requires t.weight > 0.0
    ensures Average([t]) == t.value
  {
    AppendTerm([], t);
    assert [] + [t] == [t];
    assert t.weight * t.value / t.weight == t.value;
  }
}
