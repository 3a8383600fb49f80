/**
 * Tsukamoto inference over the 58-rule table: each rule fires with the minimum
 * of the memberships its labels select, every rule that fires contributes its
 * category's fixed crisp value with that weight, and the crisp output is the
 * weighted average. The legacy `Inference` turns the crisp output into a one-hot
 * map over the five category labels.
 */
module Inferensi {
  import opened Membership
  import opened RuleBase
  import opened WeightedAverage
  import Fuzzifikasi

  /** The fifteen memberships `TsukamotoInference` computes before looking at any rule. */
  datatype Memberships = Memberships(gpa: Triple, cca: Triple, attendance: Triple, midterm: Triple, finalExam: Triple)

  predicate AllInUnit(m: Memberships)
  {
    InUnit(m.gpa) && InUnit(m.cca) && InUnit(m.attendance) && InUnit(m.midterm) && InUnit(m.finalExam)
  }

  /** Fuzzification of the five raw inputs (inferensi.go lines 36-40). */
  function FuzzifyInputs(gpa: real, cca: real, attendance: real, midterm: real, finalExam: real): (m: Memberships)
    ensures AllInUnit(m)
  {
    Memberships(Fuzzifikasi.FuzzifyGPA(gpa), Fuzzifikasi.FuzzifyCCA(cca), Fuzzifikasi.FuzzifyAttendance(attendance),
                Fuzzifikasi.FuzzifyMES(midterm), Fuzzifikasi.FuzzifyFinalExam(finalExam))
  }

  /** The membership that one `switch` on a rule label picks. */
  function Select(t: Triple, l: Level): real
  {
    match l
    case Low => t.low
    case Medium => t.medium
    case High => t.high
  }

  /**
   * The firing strength of a rule: the smallest of the five memberships its labels
   * select (it is below each of them and equal to one of them).
   */
  function FiringStrength(r: Rule, m: Memberships): (a: real)
    ensures a <= Select(m.gpa, r.gpa) && a <= Select(m.cca, r.cca) && a <= Select(m.attendance, r.attendance)
         && a <= Select(m.midterm, r.midterm) && a <= Select(m.finalExam, r.finalExam)
    ensures a == Select(m.gpa, r.gpa) || a == Select(m.cca, r.cca) || a == Select(m.attendance, r.attendance)
         || a == Select(m.midterm, r.midterm) || a == Select(m.finalExam, r.finalExam)
    ensures AllInUnit(m) ==> 0.0 <= a <= 1.0
  {
    Min(Min(Min(Min(Select(m.gpa, r.gpa), Select(m.cca, r.cca)), Select(m.attendance, r.attendance)),
        Select(m.midterm, r.midterm)), Select(m.finalExam, r.finalExam))
  }

  /** `performanceValues`: the crisp value each category stands for, increasing with the category. */
  function PerformanceValue(p: Performance): (v: real)
    ensures 20.0 <= v <= 95.0
  {
    match p
    case Poor => 20.0
    case NeedsImprovement => 50.0
    case Satisfactory => 70.0
    case Good => 85.0
    case Excellent => 95.0
  }

  lemma PerformanceValueIncreasing(p: Performance, q: Performance)
    ensures CategoryNumber(p) < CategoryNumber(q) <==> PerformanceValue(p) < PerformanceValue(q)
  {
  }

  /** One fired rule, as recorded for debugging. */
  datatype RuleOutput = RuleOutput(ruleIndex: int, firingStrength: real, crispValue: real, weightedValue: real,
                                   performance: string)

  datatype TsukamotoResult = TsukamotoResult(weightedSum: real, totalWeight: real, crispOutput: real,
                                             ruleOutputs: seq<RuleOutput>)

  /** What the rule at index `i` records when it fires. */
  function OutputOf(i: int, r: Rule, m: Memberships): RuleOutput
  {
    var a := FiringStrength(r, m);
    var v := PerformanceValue(r.performance);
    RuleOutput(i, a, v, a * v, PerformanceName(r.performance))
  }

  /** The outputs of the rules among the first `k` of `rules` whose firing strength is positive, in table order. */
  function Fired(m: Memberships, rules: seq<Rule>, k: nat): seq<RuleOutput>
    requires k <= |rules|
  {
    if k == 0 then []
    else Fired(m, rules, k - 1) + (if FiringStrength(rules[k - 1], m) > 0.0 then [OutputOf(k - 1, rules[k - 1], m)] else [])
  }

  /** Each recorded output as a weight (firing strength) and a value (crisp value). */
  function Terms(outs: seq<RuleOutput>): (ts: seq<Term>)
    ensures |ts| == |outs|
    ensures forall j :: 0 <= j < |outs| ==> ts[j] == Term(outs[j].firingStrength, outs[j].crispValue)
  {
    seq(|outs|, j requires 0 <= j < |outs| => Term(outs[j].firingStrength, outs[j].crispValue))
  }

  /** The result of running the inference loop over `rules` with memberships `m`. */
  function TsukamotoOver(m: Memberships, rules: seq<Rule>): TsukamotoResult
  {
    var outs := Fired(m, rules, |rules|);
    TsukamotoResult(Num(Terms(outs)), Den(Terms(outs)), Average(Terms(outs)), outs)
  }

  /** One step of the loop: rule `i` is recorded exactly when it fires, adding its terms to the sums. */
  lemma FiredStep(m: Memberships, rules: seq<Rule>, i: nat, outs: seq<RuleOutput>)
    requires i < |rules| && outs == Fired(m, rules, i)
    ensures FiringStrength(rules[i], m) <= 0.0 ==> Fired(m, rules, i + 1) == outs
    ensures FiringStrength(rules[i], m) > 0.0 ==>
      var o := OutputOf(i, rules[i], m);
      && Fired(m, rules, i + 1) == outs + [o]
      && Num(Terms(outs + [o])) == Num(Terms(outs)) + o.firingStrength * o.crispValue
      && Den(Terms(outs + [o])) == Den(Terms(outs)) + o.firingStrength
  {
    var o := OutputOf(i, rules[i], m);
    TermsAppend(outs, o);
    AppendTerm(Terms(outs), Term(o.firingStrength, o.crispValue));
  }

  lemma TermsAppend(outs: seq<RuleOutput>, o: RuleOutput)
    ensures Terms(outs + [o]) == Terms(outs) + [Term(o.firingStrength, o.crispValue)]
  {
  }

  /** `TsukamotoInference` (inferensi.go lines 34-139). */
  method TsukamotoInference(gpa: real, cca: real, attendance: real, midterm: real, finalExam: real)
    returns (result: TsukamotoResult)
    ensures result == TsukamotoOver(FuzzifyInputs(gpa, cca, attendance, midterm, finalExam), Rules)
  {
    var m := FuzzifyInputs(gpa, cca, attendance, midterm, finalExam);
    result := ApplyRules(m, Rules);
  }

  /** The loop of `TsukamotoInference` over the rule table (inferensi.go lines 42-138). */
  method ApplyRules(m: Memberships, rules: seq<Rule>) returns (result: TsukamotoResult)
    ensures result == TsukamotoOver(m, rules)
  {
    var weightedSum := 0.0;
    var totalWeight := 0.0;
    var ruleOutputs: seq<RuleOutput> := [];
    for i := 0 to |rules|
      invariant ruleOutputs == Fired(m, rules, i)
      invariant weightedSum == Num(Terms(ruleOutputs)) && totalWeight == Den(Terms(ruleOutputs))
    {
      var rule := rules[i];
      // The five switches on the rule's levels.
      var gpaMem := Select(m.gpa, rule.gpa);
      var ccaMem := Select(m.cca, rule.cca);
      var attMem := Select(m.attendance, rule.attendance);
      var midMem := Select(m.midterm, rule.midterm);
      var finMem := Select(m.finalExam, rule.finalExam);
      var firingStrength := Min(Min(Min(Min(gpaMem, ccaMem), attMem), midMem), finMem);
      assert firingStrength == FiringStrength(rule, m);
      if firingStrength <= 0.0 {
        FiredStep(m, rules, i, ruleOutputs);
        continue;
      }
      var crispValue := PerformanceValue(rule.performance);
      var weightedValue := firingStrength * crispValue;
      var out := RuleOutput(i, firingStrength, crispValue, weightedValue, PerformanceName(rule.performance));
      FiredStep(m, rules, i, ruleOutputs);
      weightedSum := weightedSum + weightedValue;
      totalWeight := totalWeight + firingStrength;
      ruleOutputs := ruleOutputs + [out];
    }
    var crispOutput := 0.0;
    if totalWeight > 0.0 {
      crispOutput := weightedSum / totalWeight;
    }
    result := TsukamotoResult(weightedSum, totalWeight, crispOutput, ruleOutputs);
  }

  // ---------------------------------------------------------------------------
  // What the recorded outputs are.

  /**
   * `Fired(m, rules, k)` holds exactly the rules below `k` with positive firing
   * strength, each once, in increasing rule index, each recording what that rule computes.
   */
  lemma FiredExactly(m: Memberships, rules: seq<Rule>, k: nat)
    requires k <= |rules|
    ensures forall j :: 0 <= j < |Fired(m, rules, k)| ==>
      0 <= Fired(m, rules, k)[j].ruleIndex < k
      && Fired(m, rules, k)[j] == OutputOf(Fired(m, rules, k)[j].ruleIndex, rules[Fired(m, rules, k)[j].ruleIndex], m)
      && FiringStrength(rules[Fired(m, rules, k)[j].ruleIndex], m) > 0.0
    ensures forall j1, j2 :: 0 <= j1 < j2 < |Fired(m, rules, k)| ==>
      Fired(m, rules, k)[j1].ruleIndex < Fired(m, rules, k)[j2].ruleIndex
    ensures forall i :: 0 <= i < k && FiringStrength(rules[i], m) > 0.0 ==>
      exists j :: 0 <= j < |Fired(m, rules, k)| && Fired(m, rules, k)[j].ruleIndex == i
  {
    FiredRecords(m, rules, k);
    FiredComplete(m, rules, k);
  }

  /** Every recorded output is that of a firing rule below `k`, in increasing rule index. */
  lemma {:induction false} FiredRecords(m: Memberships, rules: seq<Rule>, k: nat)
    requires k <= |rules|
    ensures forall j :: 0 <= j < |Fired(m, rules, k)| ==>
      0 <= Fired(m, rules, k)[j].ruleIndex < k
      && Fired(m, rules, k)[j] == OutputOf(Fired(m, rules, k)[j].ruleIndex, rules[Fired(m, rules, k)[j].ruleIndex], m)
      && FiringStrength(rules[Fired(m, rules, k)[j].ruleIndex], m) > 0.0
    ensures forall j1, j2 :: 0 <= j1 < j2 < |Fired(m, rules, k)| ==>
      Fired(m, rules, k)[j1].ruleIndex < Fired(m, rules, k)[j2].ruleIndex
  {
    if k > 0 {
      FiredRecords(m, rules, k - 1);
      var prev := Fired(m, rules, k - 1);
      if FiringStrength(rules[k - 1], m) > 0.0 {
        var cur := prev + [OutputOf(k - 1, rules[k - 1], m)];
        assert Fired(m, rules, k) == cur;
        assert forall j :: 0 <= j < |prev| ==> cur[j] == prev[j];
        assert cur[|prev|].ruleIndex == k - 1;
      } else {
        assert Fired(m, rules, k) == prev;
      }
    }
  }

  /** Every firing rule below `k` is recorded. */
  lemma {:induction false} FiredComplete(m: Memberships, rules: seq<Rule>, k: nat)
    requires k <= |rules|
    ensures forall i :: 0 <= i < k && FiringStrength(rules[i], m) > 0.0 ==>
      exists j :: 0 <= j < |Fired(m, rules, k)| && Fired(m, rules, k)[j].ruleIndex == i
  {
    if k > 0 {
      FiredComplete(m, rules, k - 1);
      var prev := Fired(m, rules, k - 1);
      if FiringStrength(rules[k - 1], m) > 0.0 {
        var cur := prev + [OutputOf(k - 1, rules[k - 1], m)];
        assert Fired(m, rules, k) == cur;
        forall i | 0 <= i < k && FiringStrength(rules[i], m) > 0.0
          ensures exists j :: 0 <= j < |cur| && cur[j].ruleIndex == i
        {
          if i == k - 1 {
            assert cur[|prev|].ruleIndex == i;
          } else {
            var j :| 0 <= j < |prev| && prev[j].ruleIndex == i;
            assert cur[j] == prev[j];
          }
        }
      } else {
        assert Fired(m, rules, k) == prev;
      }
    }
  }

  /** The outputs recorded over the whole table give positive weights and values between 20 and 95. */
  lemma FiredTerms(m: Memberships, rules: seq<Rule>)
    ensures PositiveWeights(Terms(Fired(m, rules, |rules|)))
    ensures ValuesWithin(Terms(Fired(m, rules, |rules|)), 20.0, 95.0)
    ensures forall j :: 0 <= j < |Fired(m, rules, |rules|)| ==>
      var o := Fired(m, rules, |rules|)[j];
      o.weightedValue == o.firingStrength * o.crispValue && (AllInUnit(m) ==> 0.0 < o.firingStrength <= 1.0)
  {
    FiredRecords(m, rules, |rules|);
    RecordedTerms(m, rules, Fired(m, rules, |rules|));
  }

  lemma RecordedTerms(m: Memberships, rules: seq<Rule>, outs: seq<RuleOutput>)
    requires forall j :: 0 <= j < |outs| ==>
      0 <= outs[j].ruleIndex < |rules| && outs[j] == OutputOf(outs[j].ruleIndex, rules[outs[j].ruleIndex], m)
      && FiringStrength(rules[outs[j].ruleIndex], m) > 0.0
    ensures PositiveWeights(Terms(outs)) && ValuesWithin(Terms(outs), 20.0, 95.0)
    ensures forall j :: 0 <= j < |outs| ==>
      outs[j].weightedValue == outs[j].firingStrength * outs[j].crispValue
      && (AllInUnit(m) ==> 0.0 < outs[j].firingStrength <= 1.0)
  {
    forall j | 0 <= j < |outs|
      ensures 0.0 < outs[j].firingStrength && 20.0 <= outs[j].crispValue <= 95.0
      ensures outs[j].weightedValue == outs[j].firingStrength * outs[j].crispValue
      ensures AllInUnit(m) ==> outs[j].firingStrength <= 1.0
    {
      OutputOfFacts(outs[j].ruleIndex, rules[outs[j].ruleIndex], m);
    }
  }

  lemma OutputOfFacts(i: int, r: Rule, m: Memberships)
    ensures OutputOf(i, r, m).firingStrength == FiringStrength(r, m)
    ensures 20.0 <= OutputOf(i, r, m).crispValue <= 95.0
    ensures OutputOf(i, r, m).weightedValue == OutputOf(i, r, m).firingStrength * OutputOf(i, r, m).crispValue
  {
  }

  /**
   * Nothing fired exactly when the total weight is 0; then the crisp output is 0.
   * Otherwise the crisp output is the weighted average, between 20 and 95.
   */
  lemma CrispOutputBounds(m: Memberships, rules: seq<Rule>)
    ensures TsukamotoOver(m, rules).totalWeight >= 0.0
    ensures TsukamotoOver(m, rules).totalWeight == 0.0 <==> TsukamotoOver(m, rules).ruleOutputs == []
    ensures TsukamotoOver(m, rules).ruleOutputs == [] ==>
      TsukamotoOver(m, rules).crispOutput == 0.0 && TsukamotoOver(m, rules).weightedSum == 0.0
    ensures TsukamotoOver(m, rules).ruleOutputs != [] ==>
      TsukamotoOver(m, rules).crispOutput == TsukamotoOver(m, rules).weightedSum / TsukamotoOver(m, rules).totalWeight
      && 20.0 <= TsukamotoOver(m, rules).crispOutput <= 95.0
  {
    var ts := Terms(TsukamotoOver(m, rules).ruleOutputs);
    FiredTerms(m, rules);
    DenPositive(ts);
    if ts != [] {
      AverageBetween(ts, 20.0, 95.0);
    } else {
      assert TsukamotoOver(m, rules).ruleOutputs == [];
    }
  }

  // ---------------------------------------------------------------------------
  // The legacy one-hot wrapper.

  /** The crisp-value bands of `Inference`: at most 40, 60, 80, 95, and above. */
  function Band(c: real): Performance
  {
    if c <= 40.0 then Poor
    else if c <= 60.0 then NeedsImprovement
    else if c <= 80.0 then Satisfactory
    else if c <= 95.0 then Good
    else Excellent
  }

  /** A larger crisp value never gives a worse category. */
  lemma BandMonotone(c: real, d: real)
    requires c <= d
    ensures CategoryNumber(Band(c)) <= CategoryNumber(Band(d))
  {
  }

  /** Each category's own crisp value lands in its band, except that Excellent's 95 is classed Good. */
  lemma BandOfPerformanceValue(p: Performance)
    ensures Band(PerformanceValue(p)) == if p == Excellent then Good else p
  {
  }

  /** The map with every label at 0.0 except `p`'s at 1.0. */
  function OneHot(p: Performance): (r: map<string, real>)
    ensures r.Keys == CategoryNames
    ensures forall q :: r[PerformanceName(q)] == if q == p then 1.0 else 0.0
  {
    map["Poor" := 0.0, "Needs Improvement" := 0.0, "Satisfactory" := 0.0, "Good" := 0.0, "Excellent" := 0.0]
       [PerformanceName(p) := 1.0]
  }

  /** `Inference` (inferensi.go lines 142-170). */
  method Inference(gpa: real, cca: real, attendance: real, midterm: real, finalExam: real)
    returns (output: map<string, real>)
    ensures output == OneHot(Band(TsukamotoOver(FuzzifyInputs(gpa, cca, attendance, midterm, finalExam), Rules).crispOutput))
  {
    var result := TsukamotoInference(gpa, cca, attendance, midterm, finalExam);
    output := map["Poor" := 0.0, "Needs Improvement" := 0.0, "Satisfactory" := 0.0, "Good" := 0.0, "Excellent" := 0.0];
    var crispValue := result.crispOutput;
    if crispValue <= 40.0 {
      output := output["Poor" := 1.0];
    } else if crispValue <= 60.0 {
      output := output["Needs Improvement" := 1.0];
    } else if crispValue <= 80.0 {
      output := output["Satisfactory" := 1.0];
    } else if crispValue <= 95.0 {
      output := output["Good" := 1.0];
    } else {
      output := output["Excellent" := 1.0];
    }
  }

  /** The crisp path never yields Excellent, and yields Poor when no rule fires. */
  lemma InferenceNeverExcellent(m: Memberships)
    ensures Band(TsukamotoOver(m, Rules).crispOutput) != Excellent
    ensures TsukamotoOver(m, Rules).ruleOutputs == [] ==> Band(TsukamotoOver(m, Rules).crispOutput) == Poor
  {
    CrispOutputBounds(m, Rules);
  }

  // ---------------------------------------------------------------------------
  // Two inputs worked through the whole table.

  /** Every metric sits where only one level holds, fully. */
  predicate Crisp(t: Triple, l: Level)
  {
    Select(t, l) == 1.0 && forall k :: k != l ==> Select(t, k) == 0.0
  }

  /**
   * When every metric is fully at level `l`, exactly the rules naming `l` five times
   * fire, each with strength 1.
   */
  lemma OnlyUniformRulesFire(m: Memberships, l: Level)
    requires Crisp(m.gpa, l) && Crisp(m.cca, l) && Crisp(m.attendance, l) && Crisp(m.midterm, l) && Crisp(m.finalExam, l)
    ensures forall r :: FiringStrength(r, m) == if LevelCount(r, l) == 5 then 1.0 else 0.0
  {
  }

  /**
   * When every metric is fully at level `l`, rule `i` names `l` five times, and every
   * such rule concludes `p`, the crisp output is `p`'s value.
   */
  lemma UniformOutcome(m: Memberships, rules: seq<Rule>, l: Level, i: nat, p: Performance)
    requires Crisp(m.gpa, l) && Crisp(m.cca, l) && Crisp(m.attendance, l) && Crisp(m.midterm, l) && Crisp(m.finalExam, l)
    requires UniformRuleAt(rules, l, i, p)
    ensures TsukamotoOver(m, rules).crispOutput == PerformanceValue(p)
  {
    OnlyUniformRulesFire(m, l);
    var outs := Fired(m, rules, |rules|);
    FiredExactly(m, rules, |rules|);
    assert FiringStrength(rules[i], m) > 0.0;
    assert outs != [];
    var ts := Terms(outs);
    forall j | 0 <= j < |ts|
      ensures ts[j].value == PerformanceValue(p) && ts[j].weight > 0.0
    {
      var k := outs[j].ruleIndex;
      assert outs[j] == OutputOf(k, rules[k], m) && FiringStrength(rules[k], m) > 0.0;
      assert rules[k] in rules;
    }
    AverageBetween(ts, PerformanceValue(p), PerformanceValue(p));
  }
}

/** Two inputs worked through the whole rule table. */
module InferenceExamples {
  import opened RuleBase
  import opened Inferensi

  /** Over any table whose all-Medium rules are Satisfactory, all-Medium inputs give 70. */
  lemma AllMediumOutcome(m: Memberships, rules: seq<Rule>)
    requires Crisp(m.gpa, Medium) && Crisp(m.cca, Medium) && Crisp(m.attendance, Medium)
          && Crisp(m.midterm, Medium) && Crisp(m.finalExam, Medium)
    requires UniformRuleAt(rules, Medium, 24, Satisfactory)
    ensures TsukamotoOver(m, rules).crispOutput == 70.0
  {
    UniformOutcome(m, rules, Medium, 24, Satisfactory);
  }

  /** Over any table whose all-High rules are Excellent, all-High inputs give 95. */
  lemma AllHighOutcome(m: Memberships, rules: seq<Rule>)
    requires Crisp(m.gpa, High) && Crisp(m.cca, High) && Crisp(m.attendance, High)
          && Crisp(m.midterm, High) && Crisp(m.finalExam, High)
    requires UniformRuleAt(rules, High, 55, Excellent)
    ensures TsukamotoOver(m, rules).crispOutput == 95.0
  {
    UniformOutcome(m, rules, High, 55, Excellent);
  }

  /**
   * A student at every Medium peak (for example 2.5, 65, 0.75, 65, 70) is Satisfactory:
   * only the all-Medium rule fires, giving 70.
   */
  lemma AllMediumIsSatisfactory(m: Memberships)
    requires Crisp(m.gpa, Medium) && Crisp(m.cca, Medium) && Crisp(m.attendance, Medium)
          && Crisp(m.midterm, Medium) && Crisp(m.finalExam, Medium)
    ensures TsukamotoOver(m, Rules).crispOutput == 70.0
    ensures Band(TsukamotoOver(m, Rules).crispOutput) == Satisfactory
  {
    AllMediumRules();
    AllMediumOutcome(m, Rules);
  }

  /**
   * A student at the top of every range (for example 4, 100, 1, 100, 100) is classed
   * Good, not Excellent: only the all-High rule fires, giving 95.
   */
  lemma TopStudentIsGood(m: Memberships)
    requires Crisp(m.gpa, High) && Crisp(m.cca, High) && Crisp(m.attendance, High)
          && Crisp(m.midterm, High) && Crisp(m.finalExam, High)
    ensures TsukamotoOver(m, Rules).crispOutput == 95.0
    ensures Band(TsukamotoOver(m, Rules).crispOutput) == Good
  {
    AllHighRules();
    AllHighOutcome(m, Rules);
  }

  /** The Medium peaks 2.5, 65, 0.75, 65 and 70 leave every metric fully Medium. */
  lemma MediumPeakInputs()
    ensures var m := FuzzifyInputs(2.5, 65.0, 0.75, 65.0, 70.0);
      Crisp(m.gpa, Medium) && Crisp(m.cca, Medium) && Crisp(m.attendance, Medium)
      && Crisp(m.midterm, Medium) && Crisp(m.finalExam, Medium)
  {
  }

  /** The tops of the ranges 4, 100, 1, 100 and 100 leave every metric fully High. */
  lemma TopInputs()
    ensures var m := FuzzifyInputs(4.0, 100.0, 1.0, 100.0, 100.0);
      Crisp(m.gpa, High) && Crisp(m.cca, High) && Crisp(m.attendance, High)
      && Crisp(m.midterm, High) && Crisp(m.finalExam, High)
  {
  }

  /** `TsukamotoInference(2.5, 65, 0.75, 65, 70)` has crisp output 70: Satisfactory. */
  lemma MediumPeakStudent()
    ensures TsukamotoOver(FuzzifyInputs(2.5, 65.0, 0.75, 65.0, 70.0), Rules).crispOutput == 70.0
  {
    MediumPeakInputs();
    AllMediumIsSatisfactory(FuzzifyInputs(2.5, 65.0, 0.75, 65.0, 70.0));
  }

  /** `TsukamotoInference(4, 100, 1, 100, 100)` has crisp output 95, which bands as Good. */
  lemma TopStudent()
    ensures TsukamotoOver(FuzzifyInputs(4.0, 100.0, 1.0, 100.0, 100.0), Rules).crispOutput == 95.0
  {
    TopInputs();
    TopStudentIsGood(FuzzifyInputs(4.0, 100.0, 1.0, 100.0, 100.0));
  }
}
