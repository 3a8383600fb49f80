/**
 * The stand-alone demonstration script (main.py): its own trapezoid fuzzifiers,
 * five sample rules, the per-category inverse output functions of Tsukamoto's
 * method, the rule-firing loop, the weighted-average defuzzification and the
 * predicted category. The memberships and the firing strength are those of the
 * server's inference (`Inferensi.Memberships`, `Inferensi.FiringStrength`): a
 * dictionary lookup by label is `Select`, and `min` of five is the same fold.
 */
module DemoPipeline {
  import opened Wrappers
  import opened Membership
  import opened RuleBase
  import opened WeightedAverage
  import opened Inferensi

  /** 1 up to `full`, falling linearly to 0 at `zero`, 0 from there on. */
  function Shoulder(full: real, zero: real, x: real): (r: real)
    requires full < zero
    ensures 0.0 <= r <= 1.0
    ensures x <= full ==> r == 1.0
    ensures x >= zero ==> r == 0.0
  {
    if x <= full then 1.0
    else if full < x < zero then (zero - x) / (zero - full)
    else 0.0
  }

  /**
   * Rising on (a, b), 1 on [b, c], falling on (c, d), 0 elsewhere; with c == d it
   * is a right shoulder that drops to 0 past c.
   */
  function Trapezoid(a: real, b: real, c: real, d: real, x: real): (r: real)
    requires a < b <= c <= d
    ensures 0.0 <= r <= 1.0
    ensures b <= x <= c ==> r == 1.0
    ensures x <= a || x > d ==> r == 0.0
    ensures a < x < b ==> r == (x - a) / (b - a)
  {
    if a < x < b then (x - a) / (b - a)
    else if b <= x <= c then 1.0
    else if c < x < d then DivBounds(d - x, d - c); (d - x) / (d - c)
    else 0.0
  }

  /** GPA low: two falling pieces, 1.8 to 2.0 and again 2.0 to 2.2, so it jumps back to 1 at 2.0. */
  function GpaLow(x: real): (r: real)
    ensures 0.0 <= r <= 1.0
    ensures x <= 1.8 || x == 2.0 ==> r == 1.0
    ensures x > 2.2 ==> r == 0.0
  {
    if x <= 1.8 then 1.0
    else if 1.8 < x < 2.0 then (2.0 - x) / (2.0 - 1.8)
    else if 2.0 <= x <= 2.2 then (2.2 - x) / (2.2 - 2.0)
    else 0.0
  }

  function FuzzifyGpa(gpa: real): (m: Triple)
    ensures InUnit(m)
    ensures 2.2 <= gpa <= 3.0 ==> m.medium == 1.0
    ensures gpa > 4.0 ==> m == Triple(0.0, 0.0, 0.0)
  {
    Triple(GpaLow(gpa), Trapezoid(2.0, 2.2, 3.0, 3.2, gpa), Trapezoid(3.0, 3.2, 4.0, 4.0, gpa))
  }

  function FuzzifyCca(cca: real): (m: Triple)
    ensures InUnit(m)
    ensures 65.0 <= cca <= 75.0 ==> m.medium == 1.0
    ensures cca > 100.0 ==> m == Triple(0.0, 0.0, 0.0)
  {
    Triple(Shoulder(50.0, 60.0, cca), Trapezoid(55.0, 65.0, 75.0, 85.0, cca), Trapezoid(75.0, 85.0, 100.0, 100.0, cca))
  }

  function FuzzifyAttendance(att: real): (m: Triple)
    ensures InUnit(m)
    ensures 0.75 <= att <= 0.85 ==> m.medium == 1.0
    ensures att > 1.0 ==> m == Triple(0.0, 0.0, 0.0)
  {
    Triple(Shoulder(0.6, 0.7, att), Trapezoid(0.65, 0.75, 0.85, 0.9, att), Trapezoid(0.85, 0.9, 1.0, 1.0, att))
  }

  function FuzzifyMidterm(mid: real): (m: Triple)
    ensures InUnit(m)
    ensures 70.0 <= mid <= 80.0 ==> m.medium == 1.0
    ensures mid > 100.0 ==> m == Triple(0.0, 0.0, 0.0)
  {
    Triple(Shoulder(55.0, 65.0, mid), Trapezoid(60.0, 70.0, 80.0, 90.0, mid), Trapezoid(80.0, 90.0, 100.0, 100.0, mid))
  }

  function FuzzifyFinal(final: real): (m: Triple)
    ensures InUnit(m)
    ensures 70.0 <= final <= 80.0 ==> m.medium == 1.0
    ensures final > 100.0 ==> m == Triple(0.0, 0.0, 0.0)
  {
    Triple(Shoulder(54.0, 65.0, final), Trapezoid(60.0, 70.0, 80.0, 90.0, final), Trapezoid(80.0, 90.0, 100.0, 100.0, final))
  }

  function FuzzifyAll(gpa: real, cca: real, att: real, mid: real, final: real): (m: Memberships)
    ensures AllInUnit(m)
  {
    Memberships(FuzzifyGpa(gpa), FuzzifyCca(cca), FuzzifyAttendance(att), FuzzifyMidterm(mid), FuzzifyFinal(final))
  }

  /** GPA low is not continuous at 2.0: just below it the degree is near 0, at 2.0 it is 1. */
  lemma GpaLowJump(eps: real)
    requires 0.0 < eps < 0.2
    ensures GpaLow(2.0 - eps) == eps / 0.2 < 1.0
    ensures GpaLow(2.0) == 1.0
  {
  }

  /** The five sample rules, in order. */
  const DemoRules: seq<Rule> := [
    Rule(Low, Low, Low, Low, Low, Poor),
    Rule(Medium, Medium, Medium, Medium, Medium, Satisfactory),
    Rule(High, High, High, High, High, Excellent),
    Rule(Medium, High, Medium, High, High, Good),
    Rule(Low, Medium, Low, Medium, Medium, NeedsImprovement)]

  /** `output_inv_funcs`: the output value z whose membership in the category is alpha. */
  function Inverse(p: Performance, alpha: real): real
  {
    match p
    case Poor => 2.0 - alpha
    case NeedsImprovement => 3.0 - alpha
    case Satisfactory => 4.0 - alpha
    case Good => 4.0 + alpha
    case Excellent => 5.0 + alpha
  }

  /** The monotone output memberships the inverses undo: falling for the first three, rising for the last two. */
  function OutputMembership(p: Performance, z: real): real
  {
    match p
    case Poor => 2.0 - z
    case NeedsImprovement => 3.0 - z
    case Satisfactory => 4.0 - z
    case Good => z - 4.0
    case Excellent => z - 5.0
  }

  /** The lower end of the stretch of z where a category's inverse lands. */
  function OutputBase(p: Performance): real
  {
    match p
    case Poor => 1.0
    case NeedsImprovement => 2.0
    case Satisfactory => 3.0
    case Good => 4.0
    case Excellent => 5.0
  }

  /** Each inverse really inverts its membership, and a degree in [0, 1] lands in the category's unit stretch. */
  lemma InverseCorrect(p: Performance, alpha: real)
    ensures OutputMembership(p, Inverse(p, alpha)) == alpha
    ensures 0.0 <= alpha <= 1.0 ==> OutputBase(p) <= Inverse(p, alpha) <= OutputBase(p) + 1.0
  {
  }

  /** Everything the loop appends for a rule that fires. */
  datatype Activation = Activation(alpha: real, z: real, output: Performance)

  /** What is appended to `firing_strengths` for every rule: its name number, strength and output. */
  datatype Firing = Firing(number: int, alpha: real, output: Performance)

  /** `zs` after the loop has seen these rules: one entry per rule with positive strength, in rule order. */
  function Activations(rules: seq<Rule>, m: Memberships): (zs: seq<Activation>)
    ensures |zs| <= |rules|
  {
    if rules == [] then []
    else
      var r := rules[|rules| - 1];
      var alpha := FiringStrength(r, m);
      Activations(rules[..|rules| - 1], m) + (if alpha > 0.0 then [Activation(alpha, Inverse(r.performance, alpha), r.performance)] else [])
  }

  /** Every entry of `zs` has a positive strength (at most 1 on memberships in [0, 1]) and the inverse of it as z. */
  lemma {:induction false} ActivationsEntries(rules: seq<Rule>, m: Memberships)
    ensures forall i :: 0 <= i < |Activations(rules, m)| ==>
      var a := Activations(rules, m)[i]; a.alpha > 0.0 && a.z == Inverse(a.output, a.alpha) && (AllInUnit(m) ==> a.alpha <= 1.0)
  {
    if rules != [] {
      ActivationsEntries(rules[..|rules| - 1], m);
    }
  }

  /** `firing_strengths` after the loop: every rule, numbered from 1. */
  function Firings(rules: seq<Rule>, m: Memberships): (fs: seq<Firing>)
    ensures |fs| == |rules|
    ensures forall i :: 0 <= i < |fs| ==> fs[i] == Firing(i + 1, FiringStrength(rules[i], m), rules[i].performance)
  {
    if rules == [] then []
    else
      var r := rules[|rules| - 1];
      Firings(rules[..|rules| - 1], m) + [Firing(|rules|, FiringStrength(r, m), r.performance)]
  }

  /** The loop at main.py lines 266-280. */
  method FireRules(rules: seq<Rule>, m: Memberships) returns (firings: seq<Firing>, zs: seq<Activation>)
    ensures firings == Firings(rules, m)
    ensures zs == Activations(rules, m)
  {
    firings, zs := [], [];
    var idx := 0;
    while idx < |rules|
      invariant 0 <= idx <= |rules|
      invariant firings == Firings(rules[..idx], m)
      invariant zs == Activations(rules[..idx], m)
    {
      var rule := rules[idx];
      assert rules[..idx + 1][..idx] == rules[..idx];
      var alpha := FiringStrength(rule, m);
      if alpha > 0.0 {
        var z := Inverse(rule.performance, alpha);
        zs := zs + [Activation(alpha, z, rule.performance)];
      }
      firings := firings + [Firing(idx + 1, alpha, rule.performance)];
      idx := idx + 1;
    }
    assert rules[..|rules|] == rules;
  }

  function ActivationTerms(zs: seq<Activation>): (ts: seq<Term>)
    ensures |ts| == |zs|
    ensures forall i :: 0 <= i < |ts| ==> ts[i] == Term(zs[i].alpha, zs[i].z)
  {
    if zs == [] then [] else ActivationTerms(zs[..|zs| - 1]) + [Term(zs[|zs| - 1].alpha, zs[|zs| - 1].z)]
  }

  /** `defuzz_value`: sum of alpha * z over sum of alpha, or 0 when nothing fired. */
  function ScriptDefuzzValue(zs: seq<Activation>): real
  {
    if zs != [] then Average(ActivationTerms(zs)) else 0.0
  }

  /** The defuzzified value lies between the least and the greatest z of the rules that fired. */
  lemma DefuzzBetween(zs: seq<Activation>, lo: real, hi: real)
    requires zs != [] && forall i :: 0 <= i < |zs| ==> zs[i].alpha > 0.0 && lo <= zs[i].z <= hi
    ensures lo <= ScriptDefuzzValue(zs) <= hi
  {
    AverageBetween(ActivationTerms(zs), lo, hi);
  }

  /** With memberships in [0, 1] every z, and so the defuzzified value, lies in [1, 6]. */
  lemma DefuzzRange(rules: seq<Rule>, m: Memberships)
    requires AllInUnit(m)
    ensures var zs := Activations(rules, m); zs != [] ==> 1.0 <= ScriptDefuzzValue(zs) <= 6.0
    ensures Activations(rules, m) == [] ==> ScriptDefuzzValue(Activations(rules, m)) == 0.0
  {
    var zs := Activations(rules, m);
    ActivationsEntries(rules, m);
    if zs != [] {
      forall i | 0 <= i < |zs|
        ensures 1.0 <= zs[i].z <= 6.0
      {
        InverseCorrect(zs[i].output, zs[i].alpha);
      }
      DefuzzBetween(zs, 1.0, 6.0);
    }
  }

  /** Python's `round` on a float: to the nearest integer, halves to the even neighbour. */
  function RoundHalfEven(x: real): (n: int)
    ensures x - 0.5 <= n as real <= x + 0.5
    ensures n as real == x + 0.5 ==> n % 2 == 0
    ensures n as real == x - 0.5 ==> n % 2 == 0
  {
    var f := x.Floor;
    var frac := x - f as real;
    if frac < 0.5 then f
    else if frac > 0.5 then f + 1
    else if f % 2 == 0 then f else f + 1
  }

  /** `max(1, min(5, i))`. */
  function ClampIndex(i: int): (k: int)
    ensures 1 <= k <= 5
    ensures 1 <= i <= 5 ==> k == i
  {
    if i < 1 then 1 else if i > 5 then 5 else i
  }

  const NoActiveRule := "Tidak ada rule aktif"

  /** `pred_label`: the category numbered by the rounded, clamped value, or the no-rule message. */
  function PredictedLabel(zs: seq<Activation>): (name: string)
    ensures zs == [] <==> name == NoActiveRule
    ensures zs != [] ==> name == PerformanceName(Categories[ClampIndex(RoundHalfEven(ScriptDefuzzValue(zs))) - 1])
  {
    if zs != [] then PerformanceName(Categories[ClampIndex(RoundHalfEven(ScriptDefuzzValue(zs))) - 1]) else NoActiveRule
  }

  /** A label names the category nearest the value, clamped to the five categories. */
  lemma PredictionNearest(zs: seq<Activation>, p: Performance)
    requires zs != [] && PredictedLabel(zs) == PerformanceName(p)
    ensures p == Poor || CategoryNumber(p) as real - 0.5 <= ScriptDefuzzValue(zs)
    ensures p == Excellent || ScriptDefuzzValue(zs) <= CategoryNumber(p) as real + 0.5
  {
    var k := ClampIndex(RoundHalfEven(ScriptDefuzzValue(zs)));
    PerformanceNameInjective(Categories[k - 1], p);
    assert Categories[k - 1] == p;
    assert CategoryNumber(p) == k;
  }

  /** A rule that does not fire adds nothing to `zs`. */
  lemma ActivationsSkip(rs: seq<Rule>, k: nat, m: Memberships)
    requires k < |rs| && FiringStrength(rs[k], m) <= 0.0
    ensures Activations(rs[..k + 1], m) == Activations(rs[..k], m)
  {
    assert rs[..k + 1][..k] == rs[..k];
  }

  /** A rule that fires adds its entry to `zs`. */
  lemma ActivationsFire(rs: seq<Rule>, k: nat, m: Memberships)
    requires k < |rs| && FiringStrength(rs[k], m) > 0.0
    ensures Activations(rs[..k + 1], m)
      == Activations(rs[..k], m) + [Activation(FiringStrength(rs[k], m), Inverse(rs[k].performance, FiringStrength(rs[k], m)), rs[k].performance)]
  {
    assert rs[..k + 1][..k] == rs[..k];
  }

  /** The memberships of the script's inputs GPA 2.15, CCA 68, attendance 0.82, midterm 78, final 85. */
  const DemoMemberships := Memberships(Triple(0.25, 0.75, 0.0), Triple(0.0, 1.0, 0.0), Triple(0.0, 1.0, 0.0),
                                       Triple(0.0, 1.0, 0.0), Triple(0.0, 0.5, 0.5))

  lemma DemoFuzzification()
    ensures FuzzifyAll(2.15, 68.0, 0.82, 78.0, 85.0) == DemoMemberships
  {
    assert FuzzifyGpa(2.15) == Triple(0.25, 0.75, 0.0);
  }

  lemma DemoStrengths(rs: seq<Rule>, m: Memberships)
    requires rs == DemoRules && m == DemoMemberships
    ensures |rs| == 5
    ensures FiringStrength(rs[0], m) == 0.0 && FiringStrength(rs[1], m) == 0.5 && FiringStrength(rs[2], m) == 0.0
    ensures FiringStrength(rs[3], m) == 0.0 && FiringStrength(rs[4], m) == 0.0
    ensures rs[1].performance == Satisfactory
  {
  }

  /** Five rules of which only the second fires leave just that rule's entry. */
  lemma OnlySecondFires(rs: seq<Rule>, m: Memberships, alpha: real)
    requires |rs| == 5 && alpha > 0.0 && FiringStrength(rs[1], m) == alpha
    requires FiringStrength(rs[0], m) <= 0.0 && FiringStrength(rs[2], m) <= 0.0
    requires FiringStrength(rs[3], m) <= 0.0 && FiringStrength(rs[4], m) <= 0.0
    ensures Activations(rs, m) == [Activation(alpha, Inverse(rs[1].performance, alpha), rs[1].performance)]
  {
    assert rs[..0] == [];
    ActivationsSkip(rs, 0, m);
    ActivationsFire(rs, 1, m);
    ActivationsSkip(rs, 2, m);
    ActivationsSkip(rs, 3, m);
    ActivationsSkip(rs, 4, m);
    assert rs[..5] == rs;
  }

  lemma DemoPrediction()
    ensures ScriptDefuzzValue([Activation(0.5, 3.5, Satisfactory)]) == 3.5
    ensures PredictedLabel([Activation(0.5, 3.5, Satisfactory)]) == "Good"
  {
    assert ActivationTerms([Activation(0.5, 3.5, Satisfactory)]) == [Term(0.5, 3.5)];
    SingleTerm(Term(0.5, 3.5));
  }

  /** The script's own inputs: only the all-Medium rule fires, with strength 0.5, so z = 3.5 and the label is "Good". */
  lemma DemoRun()
    ensures Activations(DemoRules, FuzzifyAll(2.15, 68.0, 0.82, 78.0, 85.0)) == [Activation(0.5, 3.5, Satisfactory)]
    ensures ScriptDefuzzValue(Activations(DemoRules, FuzzifyAll(2.15, 68.0, 0.82, 78.0, 85.0))) == 3.5
    ensures PredictedLabel(Activations(DemoRules, FuzzifyAll(2.15, 68.0, 0.82, 78.0, 85.0))) == "Good"
  {
    DemoFuzzification();
    DemoStrengths(DemoRules, DemoMemberships);
    OnlySecondFires(DemoRules, DemoMemberships, 0.5);
    DemoPrediction();
  }

  /** A metric whose three memberships are all 0 stops every rule from firing. */
  lemma {:induction false} DeadGpaFiresNothing(rules: seq<Rule>, m: Memberships)
    requires m.gpa == Triple(0.0, 0.0, 0.0) && AllInUnit(m)
    ensures Activations(rules, m) == []
  {
    if rules != [] {
      DeadGpaFiresNothing(rules[..|rules| - 1], m);
      var r := rules[|rules| - 1];
      assert Select(m.gpa, r.gpa) == 0.0;
    }
  }

  // The report line at main.py line 298 prints `sum_num` and `sum_den`, which
  // exist only when some rule fired.

  /** The report's numbers as written: None stands for the NameError raised when nothing fired. */
  function ReportAsWritten(zs: seq<Activation>): Option<(real, real, real)>
  {
    if zs != [] then Some((Num(ActivationTerms(zs)), Den(ActivationTerms(zs)), ScriptDefuzzValue(zs))) else None
  }

  /** With a GPA above 4 no rule fires, so the report line fails whatever the other inputs. */
  lemma ReportFailsAboveTopGpa(gpa: real, cca: real, att: real, mid: real, final: real)
    requires gpa > 4.0
    ensures Activations(DemoRules, FuzzifyAll(gpa, cca, att, mid, final)) == []
    ensures ReportAsWritten(Activations(DemoRules, FuzzifyAll(gpa, cca, att, mid, final))) == None
  {
    DeadGpaFiresNothing(DemoRules, FuzzifyAll(gpa, cca, att, mid, final));
  }

  /** The report with both sums starting at 0, as the `else` branch at lines 291-292 intends. */
  function Report(zs: seq<Activation>): (r: (real, real, real))
    ensures r.2 == ScriptDefuzzValue(zs)
    ensures zs == [] ==> r == (0.0, 0.0, 0.0)
    ensures zs != [] ==> Some(r) == ReportAsWritten(zs)
  {
    (Num(ActivationTerms(zs)), Den(ActivationTerms(zs)), ScriptDefuzzValue(zs))
  }
}
