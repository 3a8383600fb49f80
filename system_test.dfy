/**
 * The pure parts of the accuracy script sistem_test.py: the normalisation of
 * performance labels before they are compared, and the per-class precision,
 * recall and F1 computed from the confusion matrix.
 */
module SystemTest {
  import opened Wrappers
  import opened Text
  import opened WeightedAverage

  /** The Python values a label can be: a string, `None`, or a number read from the CSV. */
  datatype PyValue = Str(text: string) | PyNone | PyNumber(value: real)

  const PoorVariants: seq<string> := ["Poor", "poor", "kurang"]
  const NeedsImprovementVariants: seq<string> := ["Needs Improvement", "needs improvement", "needs_improvement", "perlu perbaikan"]
  const SatisfactoryVariants: seq<string> := ["Satisfactory", "satisfactory", "memuaskan"]
  const GoodVariants: seq<string> := ["Good", "good", "baik"]
  const ExcellentVariants: seq<string> := ["Excellent", "excellent", "sangat baik"]

  const CanonicalLabels: seq<string> := ["Poor", "Needs Improvement", "Satisfactory", "Good", "Excellent"]

  /** The canonical label a stripped string stands for, tried in the order of the if-chain. */
  function Canonical(t: string): (c: Option<string>)
    ensures c.Some? ==> c.value in CanonicalLabels
  {
    if t in PoorVariants then Some("Poor")
    else if t in NeedsImprovementVariants then Some("Needs Improvement")
    else if t in SatisfactoryVariants then Some("Satisfactory")
    else if t in GoodVariants then Some("Good")
    else if t in ExcellentVariants then Some("Excellent")
    else None
  }

  /** `normalize_performance_labels`. */
  function NormalizeLabel(x: PyValue): (r: PyValue)
    ensures !x.Str? ==> r == x
    ensures x.Str? ==> r.Str? && (r.text in CanonicalLabels || r.text == Trim(x.text, PySpace))
  {
    match x
    case Str(s) =>
      var t := Trim(s, PySpace);
      var c := Canonical(t);
      if c.Some? then Str(c.value) else Str(t)
    case _ => x
  }

  /** The variant lists are disjoint, so each variant reaches the branch of its own list. */
  lemma CanonicalOfVariant(t: string)
    ensures t in PoorVariants ==> Canonical(t) == Some("Poor")
    ensures t in NeedsImprovementVariants ==> Canonical(t) == Some("Needs Improvement")
    ensures t in SatisfactoryVariants ==> Canonical(t) == Some("Satisfactory")
    ensures t in GoodVariants ==> Canonical(t) == Some("Good")
    ensures t in ExcellentVariants ==> Canonical(t) == Some("Excellent")
  {
  }

  /** Each listed variant, with or without surrounding blanks, maps to its canonical label. */
  lemma VariantsMapped(s: string)
    ensures Trim(s, PySpace) in PoorVariants ==> NormalizeLabel(Str(s)) == Str("Poor")
    ensures Trim(s, PySpace) in NeedsImprovementVariants ==> NormalizeLabel(Str(s)) == Str("Needs Improvement")
    ensures Trim(s, PySpace) in SatisfactoryVariants ==> NormalizeLabel(Str(s)) == Str("Satisfactory")
    ensures Trim(s, PySpace) in GoodVariants ==> NormalizeLabel(Str(s)) == Str("Good")
    ensures Trim(s, PySpace) in ExcellentVariants ==> NormalizeLabel(Str(s)) == Str("Excellent")
  {
    CanonicalOfVariant(Trim(s, PySpace));
  }

  /** The canonical labels are their own normal form. */
  lemma CanonicalFixed(c: string)
    requires c in CanonicalLabels
    ensures NormalizeLabel(Str(c)) == Str(c)
  {
    LabelEnds(c);
    TrimClean(c, PySpace);
    CanonicalOfVariant(c);
  }

  lemma LabelEnds(c: string)
    requires c in CanonicalLabels
    ensures c != [] && 'A' <= c[0] <= 'Z' && 'a' <= c[|c| - 1] <= 'z'
  {
  }

  /** A string that is no variant comes back stripped; matching is case-sensitive, so "POOR" is such a string. */
  lemma UnlistedStripped(s: string)
    ensures Canonical(Trim(s, PySpace)).None? ==> NormalizeLabel(Str(s)) == Str(Trim(s, PySpace))
  {
  }

  /** Matching is case-sensitive: "POOR" is no variant, so `UnlistedStripped` returns it stripped rather than as "Poor". */
  lemma UpperCaseIsNoVariant(s: string)
    requires s == "POOR"
    ensures Canonical(s) == None
  {
  }

  /** Normalising twice is normalising once. */
  lemma NormalizeIdempotent(x: PyValue)
    ensures NormalizeLabel(NormalizeLabel(x)) == NormalizeLabel(x)
  {
    if x.Str? {
      var t := Trim(x.text, PySpace);
      TrimIdempotent(x.text, PySpace);
      var c := Canonical(t);
      if c.Some? {
        CanonicalFixed(c.value);
        assert NormalizeLabel(x) == Str(c.value);
      } else {
        assert NormalizeLabel(x) == Str(t);
        UnlistedStripped(t);
      }
    }
  }

  // ---------------------------------------------------------------------------
  // Per-class metrics (sistem_test.py:204-211)

  /** A confusion matrix: row i counts the records whose actual label is i, column j those predicted as j. */
  predicate Square(cm: seq<seq<nat>>)
  {
    forall i :: 0 <= i < |cm| ==> |cm[i]| == |cm|
  }

  function Sum(s: seq<nat>): nat
  {
    if s == [] then 0 else Sum(s[..|s| - 1]) + s[|s| - 1]
  }

  function Column(cm: seq<seq<nat>>, j: nat): (col: seq<nat>)
    requires Square(cm) && j < |cm|
    ensures |col| == |cm| && forall i :: 0 <= i < |cm| ==> col[i] == cm[i][j]
  {
    seq(|cm|, i requires 0 <= i < |cm| => cm[i][j])
  }

  lemma {:induction false} EntryAtMostSum(s: seq<nat>, k: nat)
    requires k < |s|
    ensures s[k] <= Sum(s)
  {
    if k < |s| - 1 {
      EntryAtMostSum(s[..|s| - 1], k);
    }
  }

  /** `x / d if d > 0 else 0`. */
  function Ratio(x: nat, d: nat): real
  {
    if d > 0 then x as real / d as real else 0.0
  }

  /** `2 * (p * r) / (p + r) if (p + r) > 0 else 0`. */
  function F1(p: real, r: real): real
  {
    if p + r > 0.0 then 2.0 * (p * r) / (p + r) else 0.0
  }

  datatype ClassMetrics = ClassMetrics(truePositive: nat, totalActual: nat, totalPredicted: nat,
                                       precision: real, recall: real, f1: real)

  /** The figures the loop reports for class i. */
  function MetricsOf(cm: seq<seq<nat>>, i: nat): (m: ClassMetrics)
    requires Square(cm) && i < |cm|
    ensures m.truePositive <= m.totalActual && m.truePositive <= m.totalPredicted
    ensures m.totalPredicted == 0 ==> m.precision == 0.0
    ensures m.totalActual == 0 ==> m.recall == 0.0
    ensures m.precision + m.recall == 0.0 ==> m.f1 == 0.0
  {
    var tp, actual, predicted := cm[i][i], Sum(cm[i]), Sum(Column(cm, i));
    EntryAtMostSum(cm[i], i);
    EntryAtMostSum(Column(cm, i), i);
    var p, r := Ratio(tp, predicted), Ratio(tp, actual);
    ClassMetrics(tp, actual, predicted, p, r, F1(p, r))
  }

  /** A count never exceeds its total, so the ratio is a fraction. */
  lemma RatioInUnit(x: nat, d: nat)
    requires x <= d
    ensures 0.0 <= Ratio(x, d) <= 1.0
    ensures d > 0 && x == d ==> Ratio(x, d) == 1.0
  {
    if d > 0 {
      DivBetween(x as real, d as real, 0.0, 1.0);
      if x == d {
        assert x as real / d as real == 1.0;
      }
    }
  }

  /** F1 is the harmonic mean: it lies between the smaller and the larger of precision and recall. */
  lemma F1Between(p: real, r: real)
    requires 0.0 <= p && 0.0 <= r && p + r > 0.0
    ensures (if p <= r then p else r) <= F1(p, r) <= (if p <= r then r else p)
  {
    var lo, hi := if p <= r then p else r, if p <= r then r else p;
    if p <= r {
      MulMono(p, p, r);
      MulMono(r, p, r);
      assert lo * (p + r) == p * p + p * r && hi * (p + r) == r * p + r * r;
    } else {
      MulMono(r, r, p);
      MulMono(p, r, p);
      assert lo * (p + r) == r * p + r * r && hi * (p + r) == p * p + p * r;
    }
    DivBetween(2.0 * (p * r), p + r, lo, hi);
  }

  /** Every reported figure lies in [0, 1], and a class predicted exactly right scores 1 throughout. */
  lemma MetricsInUnit(cm: seq<seq<nat>>, i: nat)
    requires Square(cm) && i < |cm|
    ensures var m := MetricsOf(cm, i); 0.0 <= m.precision <= 1.0 && 0.0 <= m.recall <= 1.0 && 0.0 <= m.f1 <= 1.0
    ensures var m := MetricsOf(cm, i);
      0 < m.truePositive == m.totalActual == m.totalPredicted ==> m.precision == m.recall == m.f1 == 1.0
  {
    var m := MetricsOf(cm, i);
    RatioInUnit(m.truePositive, m.totalPredicted);
    RatioInUnit(m.truePositive, m.totalActual);
    if m.precision + m.recall > 0.0 {
      F1Between(m.precision, m.recall);
    }
  }

  /** The `for i, label in enumerate(labels)` loop, collecting what it prints. */
  method PerClassReport(cm: seq<seq<nat>>) returns (report: seq<ClassMetrics>)
    requires Square(cm)
    ensures |report| == |cm|
    ensures forall i :: 0 <= i < |cm| ==> report[i] == MetricsOf(cm, i)
  {
    report := [];
    for i := 0 to |cm|
      invariant |report| == i
      invariant forall k :: 0 <= k < i ==> report[k] == MetricsOf(cm, k)
    {
      var tp, actual, predicted := cm[i][i], Sum(cm[i]), Sum(Column(cm, i));
      var precision := if predicted > 0 then tp as real / predicted as real else 0.0;
      var recall := if actual > 0 then tp as real / actual as real else 0.0;
      var f1 := if precision + recall > 0.0 then 2.0 * (precision * recall) / (precision + recall) else 0.0;
      report := report + [ClassMetrics(tp, actual, predicted, precision, recall, f1)];
    }
  }
}
