/**
 * The three defuzzifiers of deffuzifikasi.go: `TsukamotoDefuzzify` bands the crisp
 * output of the Tsukamoto inference, `Defuzzify` takes an arg-max over a category
 * map, and `DefuzzifyStrict` first filters the map by per-category thresholds and
 * breaks ties by a fixed priority.
 *
 * Go maps iterate in an unspecified order; the loops below visit the keys in an
 * order the method does not choose (`:|`), so what they promise holds for every order.
 */
module Deffuzifikasi {
  import opened Wrappers
  import opened RuleBase
  import opened Inferensi

  /** The category and crisp value returned by `TsukamotoDefuzzify`. */
  datatype Defuzzified = Defuzzified(category: string, crispValue: real)

  const NoFiringStrength := "no rule activated: all firing strengths are zero"
  const NoMembership := "no rule activated: all membership values are zero"

  // ---------------------------------------------------------------------------
  // TsukamotoDefuzzify (deffuzifikasi.go lines 10-33).

  /** The if-chain of `TsukamotoDefuzzify` applied to an inference result. */
  function Classify(result: TsukamotoResult): (r: Result<Defuzzified, string>)
    ensures r.Failure? <==> result.totalWeight == 0.0
    ensures r.Failure? ==> r.error == NoFiringStrength
    ensures r.Success? ==> r.value.crispValue == result.crispOutput
    ensures r.Success? ==> r.value.category == PerformanceName(Band(result.crispOutput))
  {
    if result.totalWeight == 0.0 then Failure(NoFiringStrength)
    else
      var crispOutput := result.crispOutput;
      var category :=
        if crispOutput <= 40.0 then "Poor"
        else if crispOutput <= 60.0 then "Needs Improvement"
        else if crispOutput <= 80.0 then "Satisfactory"
        else if crispOutput <= 95.0 then "Good"
        else "Excellent";
      Success(Defuzzified(category, crispOutput))
  }

  method TsukamotoDefuzzify(gpa: real, cca: real, attendance: real, midterm: real, finalExam: real)
    returns (r: Result<Defuzzified, string>)
    ensures r == Classify(TsukamotoOver(FuzzifyInputs(gpa, cca, attendance, midterm, finalExam), Rules))
  {
    var result := TsukamotoInference(gpa, cca, attendance, midterm, finalExam);
    r := Classify(result);
  }

  /**
   * Over any rule table: the error comes exactly when no rule fired; otherwise the
   * crisp output is returned unchanged, its category is the key `Inference` sets to
   * 1.0, and it is never "Excellent".
   */
  lemma ClassifyFacts(m: Memberships, rules: seq<Rule>)
    ensures Classify(TsukamotoOver(m, rules)).Failure? <==> TsukamotoOver(m, rules).ruleOutputs == []
    ensures Classify(TsukamotoOver(m, rules)).Success? ==>
      && OneHot(Band(TsukamotoOver(m, rules).crispOutput))[Classify(TsukamotoOver(m, rules)).value.category] == 1.0
      && Classify(TsukamotoOver(m, rules)).value.category != "Excellent"
  {
    CrispOutputBounds(m, rules);
    var t := TsukamotoOver(m, rules);
    if t.ruleOutputs != [] {
      var p := Band(t.crispOutput);
      assert OneHot(p)[PerformanceName(p)] == 1.0;
      if PerformanceName(p) == "Excellent" {
        PerformanceNameInjective(p, Excellent);
      }
    }
  }

  // ---------------------------------------------------------------------------
  // Defuzzify (deffuzifikasi.go lines 36-61).

  /** Some category has positive membership. */
  predicate Positive(output: map<string, real>)
  {
    exists k :: k in output && output[k] > 0.0
  }

  /** `k` is a category of positive, maximal membership. */
  predicate IsArgMax(output: map<string, real>, k: string)
  {
    k in output && output[k] > 0.0 && forall j :: j in output ==> output[j] <= output[k]
  }

  /** The `hasNonZero` loop (lines 38-44, repeated at lines 65-71). */
  method AnyPositive(output: map<string, real>) returns (hasNonZero: bool)
    ensures hasNonZero <==> Positive(output)
  {
    hasNonZero := false;
    var rest := output.Keys;
    while rest != {}
      invariant rest <= output.Keys
      invariant forall k :: k in output && k !in rest ==> output[k] <= 0.0
      decreases rest
    {
      var membership;
      var performance :| performance in rest;
      membership := output[performance];
      if membership > 0.0 {
        hasNonZero := true;
        break;
      }
      rest := rest - {performance};
    }
  }

  method Defuzzify(output: map<string, real>) returns (r: Result<string, string>)
    ensures r.Failure? <==> !Positive(output)
    ensures r.Failure? ==> r.error == NoMembership
    ensures r.Success? ==> IsArgMax(output, r.value)
  {
    var hasNonZero := AnyPositive(output);
    if !hasNonZero {
      return Failure(NoMembership);
    }
    var maxMembership := 0.0;
    var result := "";
    var rest := output.Keys;
    while rest != {}
      invariant rest <= output.Keys
      invariant maxMembership >= 0.0
      invariant maxMembership > 0.0 ==> result in output && output[result] == maxMembership
      invariant forall k :: k in output && k !in rest ==> output[k] <= maxMembership
      decreases rest
    {
      var performance :| performance in rest;
      var membership := output[performance];
      if membership > maxMembership {
        maxMembership := membership;
        result := performance;
      }
      rest := rest - {performance};
    }
    r := Success(result);
  }

  // ---------------------------------------------------------------------------
  // DefuzzifyStrict (deffuzifikasi.go lines 64-131).

  const Thresholds: map<string, real> :=
    map["Poor" := 0.3, "Needs Improvement" := 0.2, "Satisfactory" := 0.4, "Good" := 0.5, "Excellent" := 0.7]

  const Priorities: map<string, int> :=
    map["Poor" := 1, "Needs Improvement" := 2, "Satisfactory" := 3, "Good" := 4, "Excellent" := 5]

  /** `thresholds[performance]`: a key outside the table reads as Go's zero value. */
  function Threshold(k: string): (t: real)
    ensures k !in CategoryNames ==> t == 0.0
    ensures forall p :: k == PerformanceName(p) ==> 0.2 <= t <= 0.7
  {
    if k in Thresholds then Thresholds[k] else 0.0
  }

  /** `priorities[candidate]`: a key outside the table reads as 0, ahead of Poor. */
  function Priority(k: string): (n: int)
    ensures k !in CategoryNames ==> n == 0
    ensures forall p :: k == PerformanceName(p) ==> n == CategoryNumber(p)
  {
    if k in Priorities then Priorities[k] else 0
  }

  /** A category passing the filter at line 100. */
  predicate Eligible(output: map<string, real>, k: string)
  {
    k in output && output[k] > 0.0 && output[k] >= Threshold(k)
  }

  /** An eligible category whose membership is maximal among the eligible ones. */
  ghost predicate IsStrictCandidate(output: map<string, real>, k: string)
  {
    Eligible(output, k) && forall j :: Eligible(output, j) ==> output[j] <= output[k]
  }

  /** A candidate of least priority number among all candidates. */
  ghost predicate IsStrictChoice(output: map<string, real>, k: string)
  {
    IsStrictCandidate(output, k) && forall j :: IsStrictCandidate(output, j) ==> Priority(k) <= Priority(j)
  }

  /** The candidates loop (lines 95-108): the eligible categories of maximal membership, in visiting order. */
  method CollectCandidates(output: map<string, real>) returns (candidates: seq<string>)
    ensures forall k :: IsStrictCandidate(output, k) <==> k in candidates
    ensures (exists k :: Eligible(output, k)) ==> candidates != []
  {
    candidates := [];
    var maxMembership := 0.0;
    var rest := output.Keys;
    while rest != {}
      invariant rest <= output.Keys
      invariant maxMembership >= 0.0
      invariant maxMembership > 0.0 ==> candidates != []
      invariant forall k :: k in output && k !in rest && Eligible(output, k) ==> output[k] <= maxMembership
      invariant forall c :: c in candidates ==> c in output && c !in rest && Eligible(output, c) && output[c] == maxMembership
      invariant forall k :: k in output && k !in rest && Eligible(output, k) && output[k] == maxMembership ==> k in candidates
      decreases rest
    {
      var performance :| performance in rest;
      var membership := output[performance];
      if membership > 0.0 && membership >= Threshold(performance) {
        if membership > maxMembership {
          maxMembership := membership;
          candidates := [performance];
        } else if membership == maxMembership {
          candidates := candidates + [performance];
        }
      }
      rest := rest - {performance};
    }
    CandidatesExact(output, candidates, maxMembership);
  }

  method DefuzzifyStrict(output: map<string, real>) returns (r: Result<string, string>)
    ensures r.Failure? <==> !Positive(output)
    ensures r.Failure? ==> r.error == NoMembership
    ensures (exists k :: Eligible(output, k)) ==> r.Success? && IsStrictChoice(output, r.value)
    ensures (forall k :: !Eligible(output, k)) && r.Success? ==> IsArgMax(output, r.value)
  {
    var hasNonZero := AnyPositive(output);
    if !hasNonZero {
      return Failure(NoMembership);
    }
    var candidates := CollectCandidates(output);

    if |candidates| == 0 {
      r := Defuzzify(output);
      return;
    }
    if |candidates| == 1 {
      LeastPriorityIsChoice(output, candidates, candidates[0]);
      return Success(candidates[0]);
    }
    var result := candidates[0];
    var minPriority := Priority(result);
    for i := 1 to |candidates|
      invariant result in candidates && minPriority == Priority(result)
      invariant forall t :: 0 <= t < i ==> minPriority <= Priority(candidates[t])
    {
      var candidate := candidates[i];
      if Priority(candidate) < minPriority {
        result := candidate;
        minPriority := Priority(candidate);
      }
    }
    LeastPriorityIsChoice(output, candidates, result);
    r := Success(result);
  }

  /** A candidate whose priority number is least among all candidates is the strict choice. */
  lemma LeastPriorityIsChoice(output: map<string, real>, candidates: seq<string>, result: string)
    requires forall k :: IsStrictCandidate(output, k) <==> k in candidates
    requires result in candidates && forall t :: 0 <= t < |candidates| ==> Priority(result) <= Priority(candidates[t])
    ensures IsStrictChoice(output, result)
  {
    forall j | IsStrictCandidate(output, j)
      ensures Priority(result) <= Priority(j)
    {
      var t :| 0 <= t < |candidates| && candidates[t] == j;
    }
  }

  /** After the scan, `candidates` holds exactly the eligible keys of maximal membership. */
  lemma CandidatesExact(output: map<string, real>, candidates: seq<string>, maxMembership: real)
    requires maxMembership > 0.0 ==> candidates != []
    requires forall k :: k in output && Eligible(output, k) ==> output[k] <= maxMembership
    requires forall c :: c in candidates ==> c in output && Eligible(output, c) && output[c] == maxMembership
    requires forall k :: k in output && Eligible(output, k) && output[k] == maxMembership ==> k in candidates
    ensures forall k :: IsStrictCandidate(output, k) <==> k in candidates
  {
    forall k | IsStrictCandidate(output, k)
      ensures k in candidates
    {
      assert maxMembership > 0.0;
      assert output[candidates[0]] <= output[k];
    }
  }

  // ---------------------------------------------------------------------------
  // What the choices mean.

  /** The priorities rank the five categories distinctly. */
  lemma PriorityInjective(a: string, b: string)
    requires a in CategoryNames && b in CategoryNames && Priority(a) == Priority(b)
    ensures a == b
  {
  }

  /**
   * When every key is a category name (as in `Inference`'s map), the strict choice
   * is unique, so whenever some category is eligible `DefuzzifyStrict`'s answer does
   * not depend on map order.
   */
  lemma StrictChoiceUnique(output: map<string, real>, a: string, b: string)
    requires output.Keys <= CategoryNames
    requires IsStrictChoice(output, a) && IsStrictChoice(output, b)
    ensures a == b
  {
    assert Priority(a) <= Priority(b) && Priority(b) <= Priority(a);
    PriorityInjective(a, b);
  }

  /** A key outside the table has priority 0 and threshold 0, so it wins any tie with a category. */
  lemma UnknownKeyWinsTies(output: map<string, real>, u: string, c: string)
    requires u !in CategoryNames && c in CategoryNames
    requires IsStrictCandidate(output, u) && IsStrictCandidate(output, c)
    ensures !IsStrictChoice(output, c)
  {
    assert Priority(u) == 0;
    var p :| PerformanceName(p) == c by {
      CategoryNamesAreLabels();
    }
    assert Priority(c) == CategoryNumber(p) >= 1;
  }

  /** On a one-hot category map the only arg-max is the hot key. */
  lemma OneHotArgMax(p: Performance, k: string)
    ensures IsArgMax(OneHot(p), k) <==> k == PerformanceName(p)
  {
    var output := OneHot(p);
    if IsArgMax(output, k) {
      CategoryNamesAreLabels();
      var q :| PerformanceName(q) == k;
      assert output[k] == if q == p then 1.0 else 0.0;
    }
    if k == PerformanceName(p) {
      CategoryNamesAreLabels();
      forall j | j in output
        ensures output[j] <= output[k]
      {
        var q :| PerformanceName(q) == j;
        assert output[j] == if q == p then 1.0 else 0.0;
      }
    }
  }

  /** On a one-hot category map the only strict choice is the hot key too. */
  lemma OneHotStrictChoice(p: Performance, k: string)
    ensures Eligible(OneHot(p), PerformanceName(p))
    ensures IsStrictChoice(OneHot(p), k) <==> k == PerformanceName(p)
  {
    var output := OneHot(p);
    var hot := PerformanceName(p);
    CategoryNamesAreLabels();
    assert output[hot] == 1.0;
    forall j | Eligible(output, j)
      ensures j == hot
    {
      var q :| PerformanceName(q) == j;
      assert output[j] == if q == p then 1.0 else 0.0;
    }
    assert IsStrictCandidate(output, hot);
  }
}
