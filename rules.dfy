/**
 * The rule base of the Tsukamoto classifier (server/internal/modules/inferensi/rules.go):
 * 58 rules, each naming one linguistic level per input metric and one performance category.
 */
module RuleBase {

  /** The three linguistic levels a rule can name for an input metric. */
  datatype Level = Low | Medium | High

  /** The five output categories. */
  datatype Performance = Poor | NeedsImprovement | Satisfactory | Good | Excellent

  /** The label the Go code uses for each category, as it appears in maps and responses. */
  function PerformanceName(p: Performance): string
  {
    match p
    case Poor => "Poor"
    case NeedsImprovement => "Needs Improvement"
    case Satisfactory => "Satisfactory"
    case Good => "Good"
    case Excellent => "Excellent"
  }

  lemma PerformanceNameInjective(p: Performance, q: Performance)
    ensures PerformanceName(p) == PerformanceName(q) ==> p == q
  {
  }

  /** The five categories from worst to best. */
  const Categories: seq<Performance> := [Poor, NeedsImprovement, Satisfactory, Good, Excellent]

  /** The five labels, the key set of every category map. */
  const CategoryNames: set<string> := {"Poor", "Needs Improvement", "Satisfactory", "Good", "Excellent"}

  /** The number 1..5 that the server and the demo script attach to each category, worst first. */
  function CategoryNumber(p: Performance): (n: int)
    ensures 1 <= n <= 5
    ensures Categories[n - 1] == p
  {
    match p
    case Poor => 1
    case NeedsImprovement => 2
    case Satisfactory => 3
    case Good => 4
    case Excellent => 5
  }

  lemma CategoryNamesAreLabels()
    ensures forall p :: PerformanceName(p) in CategoryNames
    ensures forall k :: k in CategoryNames ==> exists p :: PerformanceName(p) == k
  {
    assert PerformanceName(Poor) == "Poor" && PerformanceName(NeedsImprovement) == "Needs Improvement";
    assert PerformanceName(Satisfactory) == "Satisfactory" && PerformanceName(Good) == "Good";
    assert PerformanceName(Excellent) == "Excellent";
  }

  /** One rule: IF gpa IS .. AND cca IS .. AND attendance IS .. AND midterm IS .. AND final IS .. THEN performance. */
  datatype Rule = Rule(gpa: Level, cca: Level, attendance: Level, midterm: Level, finalExam: Level,
                       performance: Performance)

  /**
   * The rule table in source order, as `Rules()` returns it; index k is the Go slice
   * index k. The blocks follow the blank-line groups of the literal.
   */
  const Rules: seq<Rule> :=
    PoorRules + NeedsImprovementOneLow + NeedsImprovementTwoLow + NeedsImprovementOthers +
    SatisfactoryAllMedium + SatisfactoryOneHigh + SatisfactoryTwoHigh + GoodThreeHigh + GoodFourHigh + ExcellentRules

  /** All six Poor rules: four or five Low antecedents. (rules.go lines 14-19) */
  const PoorRules: seq<Rule> := [
    Rule(Low, Low, Low, Low, Low, Poor),
    Rule(Low, Low, Low, Low, Medium, Poor),
    Rule(Low, Low, Low, Medium, Low, Poor),
    Rule(Low, Low, Medium, Low, Low, Poor),
    Rule(Low, Medium, Low, Low, Low, Poor),
    Rule(Medium, Low, Low, Low, Low, Poor)
  ]

  /** Needs Improvement with exactly one Low and otherwise Medium. (rules.go lines 22-26) */
  const NeedsImprovementOneLow: seq<Rule> := [
    Rule(Medium, Medium, Medium, Low, Medium, NeedsImprovement),
    Rule(Medium, Medium, Medium, Medium, Low, NeedsImprovement),
    Rule(Medium, Medium, Low, Medium, Medium, NeedsImprovement),
    Rule(Medium, Low, Medium, Medium, Medium, NeedsImprovement),
    Rule(Low, Medium, Medium, Medium, Medium, NeedsImprovement)
  ]

  /** Needs Improvement with exactly two Low and otherwise Medium. (rules.go lines 28-37) */
  const NeedsImprovementTwoLow: seq<Rule> := [
    Rule(Low, Low, Medium, Medium, Medium, NeedsImprovement),
    Rule(Low, Medium, Low, Medium, Medium, NeedsImprovement),
    Rule(Low, Medium, Medium, Low, Medium, NeedsImprovement),
    Rule(Low, Medium, Medium, Medium, Low, NeedsImprovement),
    Rule(Medium, Low, Low, Medium, Medium, NeedsImprovement),
    Rule(Medium, Low, Medium, Low, Medium, NeedsImprovement),
    Rule(Medium, Low, Medium, Medium, Low, NeedsImprovement),
    Rule(Medium, Medium, Low, Low, Medium, NeedsImprovement),
    Rule(Medium, Medium, Low, Medium, Low, NeedsImprovement),
    Rule(Medium, Medium, Medium, Low, Low, NeedsImprovement)
  ]

  /** The remaining Needs Improvement rules, among them the only Low/High mix. (rules.go lines 39-41) */
  const NeedsImprovementOthers: seq<Rule> := [
    Rule(Low, Low, High, Medium, Medium, NeedsImprovement),
    Rule(Low, Medium, Low, Low, Medium, NeedsImprovement),
    Rule(Medium, Low, Low, Low, Medium, NeedsImprovement)
  ]

  /** The all-Medium rule. (rules.go lines 43-43) */
  const SatisfactoryAllMedium: seq<Rule> := [
    Rule(Medium, Medium, Medium, Medium, Medium, Satisfactory)
  ]

  /** Satisfactory with exactly one High. (rules.go lines 45-49) */
  const SatisfactoryOneHigh: seq<Rule> := [
    Rule(High, Medium, Medium, Medium, Medium, Satisfactory),
    Rule(Medium, High, Medium, Medium, Medium, Satisfactory),
    Rule(Medium, Medium, High, Medium, Medium, Satisfactory),
    Rule(Medium, Medium, Medium, High, Medium, Satisfactory),
    Rule(Medium, Medium, Medium, Medium, High, Satisfactory)
  ]

  /** Satisfactory with exactly two High. (rules.go lines 51-60) */
  const SatisfactoryTwoHigh: seq<Rule> := [
    Rule(High, High, Medium, Medium, Medium, Satisfactory),
    Rule(High, Medium, High, Medium, Medium, Satisfactory),
    Rule(High, Medium, Medium, High, Medium, Satisfactory),
    Rule(High, Medium, Medium, Medium, High, Satisfactory),
    Rule(Medium, High, High, Medium, Medium, Satisfactory),
    Rule(Medium, High, Medium, High, Medium, Satisfactory),
    Rule(Medium, High, Medium, Medium, High, Satisfactory),
    Rule(Medium, Medium, High, High, Medium, Satisfactory),
    Rule(Medium, Medium, High, Medium, High, Satisfactory),
    Rule(Medium, Medium, Medium, High, High, Satisfactory)
  ]

  /** Good with exactly three High. (rules.go lines 62-71) */
  const GoodThreeHigh: seq<Rule> := [
    Rule(High, High, High, Medium, Medium, Good),
    Rule(High, High, Medium, High, Medium, Good),
    Rule(High, High, Medium, Medium, High, Good),
    Rule(High, Medium, High, High, Medium, Good),
    Rule(High, Medium, High, Medium, High, Good),
    Rule(High, Medium, Medium, High, High, Good),
    Rule(Medium, High, High, High, Medium, Good),
    Rule(Medium, High, High, Medium, High, Good),
    Rule(Medium, High, Medium, High, High, Good),
    Rule(Medium, Medium, High, High, High, Good)
  ]

  /** Good with exactly four High. (rules.go lines 73-77) */
  const GoodFourHigh: seq<Rule> := [
    Rule(High, High, High, High, Medium, Good),
    Rule(High, High, High, Medium, High, Good),
    Rule(High, High, Medium, High, High, Good),
    Rule(High, Medium, High, High, High, Good),
    Rule(Medium, High, High, High, High, Good)
  ]

  /** The three Excellent rules. (rules.go lines 79-81) */
  const ExcellentRules: seq<Rule> := [
    Rule(High, High, High, High, High, Excellent),
    Rule(High, Medium, High, High, High, Excellent),
    Rule(High, High, Medium, High, High, Excellent)
  ]

  /** Number of antecedents of `r` naming level `l`. */
  function LevelCount(r: Rule, l: Level): (n: nat)
    ensures n <= 5
  {
    (if r.gpa == l then 1 else 0) + (if r.cca == l then 1 else 0) + (if r.attendance == l then 1 else 0)
    + (if r.midterm == l then 1 else 0) + (if r.finalExam == l then 1 else 0)
  }

  predicate SameAntecedents(r: Rule, q: Rule)
  {
    r.gpa == q.gpa && r.cca == q.cca && r.attendance == q.attendance
    && r.midterm == q.midterm && r.finalExam == q.finalExam
  }

  /** Number of rules in `s` that conclude `p`. */
  function CountIn(s: seq<Rule>, p: Performance): (n: nat)
    ensures n <= |s|
  {
    if s == [] then 0
    else CountIn(s[..|s| - 1], p) + (if s[|s| - 1].performance == p then 1 else 0)
  }

  lemma {:induction false} CountInAppend(a: seq<Rule>, b: seq<Rule>, p: Performance)
    ensures CountIn(a + b, p) == CountIn(a, p) + CountIn(b, p)
  {
    if b == [] {
      assert a + b == a;
    } else {
      assert (a + b)[..|a + b| - 1] == a + b[..|b| - 1];
      CountInAppend(a, b[..|b| - 1], p);
    }
  }

  /** A block whose rules all conclude `q` counts `|s|` for `q` and nothing for the others. */
  lemma {:induction false} CountInUniform(s: seq<Rule>, q: Performance, p: Performance)
    requires forall r :: r in s ==> r.performance == q
    ensures CountIn(s, p) == if p == q then |s| else 0
  {
    if s != [] {
      assert s[|s| - 1] in s;
      assert forall r :: r in s[..|s| - 1] ==> r in s;
      CountInUniform(s[..|s| - 1], q, p);
    }
  }

  /** What distinguishes the rules of each category, as far as the table goes. */
  predicate WellShaped(r: Rule)
  {
    match r.performance
    case Poor => LevelCount(r, Low) >= 4 && LevelCount(r, High) == 0
    case NeedsImprovement => 1 <= LevelCount(r, Low) <= 3 && LevelCount(r, High) <= 1
    case Satisfactory => LevelCount(r, Low) == 0 && LevelCount(r, High) <= 2
    case Good => LevelCount(r, Low) == 0 && 3 <= LevelCount(r, High) <= 4
    case Excellent => LevelCount(r, Low) == 0 && LevelCount(r, High) >= 4
  }

  /** A rule naming both Low and High for some metrics. */
  predicate MixesLowHigh(r: Rule)
  {
    LevelCount(r, Low) > 0 && LevelCount(r, High) > 0
  }

  // ---------------------------------------------------------------------------
  // Structural facts about the table, first block by block, then for the whole table.

  /** Every rule of `s` concludes `q`. */
  predicate Concludes(s: seq<Rule>, q: Performance)
  {
    forall r :: r in s ==> r.performance == q
  }

  /** Every rule of `s` has the shape of its category and, unless it is `exempt`, does not mix Low with High. */
  predicate Shaped(s: seq<Rule>, exempt: Rule)
  {
    forall r :: r in s ==> WellShaped(r) && (MixesLowHigh(r) ==> r == exempt)
  }

  /** The rule at rules.go line 39. */
  const Line39Rule := Rule(Low, Low, High, Medium, Medium, NeedsImprovement)

  /** Checking a block rule by rule, by position. */
  lemma ShapedByIndex(s: seq<Rule>, q: Performance, exempt: Rule)
    requires forall i :: 0 <= i < |s| ==> s[i].performance == q && WellShaped(s[i]) && (MixesLowHigh(s[i]) ==> s[i] == exempt)
    ensures Concludes(s, q) && Shaped(s, exempt)
  {
  }

  lemma PoorRulesFacts()
    ensures Concludes(PoorRules, Poor) && Shaped(PoorRules, Line39Rule)
  {
    ShapedByIndex(PoorRules, Poor, Line39Rule);
  }

  lemma NeedsImprovementOneLowFacts()
    ensures Concludes(NeedsImprovementOneLow, NeedsImprovement) && Shaped(NeedsImprovementOneLow, Line39Rule)
  {
    ShapedByIndex(NeedsImprovementOneLow, NeedsImprovement, Line39Rule);
  }

  lemma NeedsImprovementTwoLowFacts()
    ensures Concludes(NeedsImprovementTwoLow, NeedsImprovement) && Shaped(NeedsImprovementTwoLow, Line39Rule)
  {
    ShapedByIndex(NeedsImprovementTwoLow, NeedsImprovement, Line39Rule);
  }

  lemma NeedsImprovementOthersFacts()
    ensures Concludes(NeedsImprovementOthers, NeedsImprovement) && Shaped(NeedsImprovementOthers, Line39Rule)
  {
    ShapedByIndex(NeedsImprovementOthers, NeedsImprovement, Line39Rule);
  }

  lemma SatisfactoryAllMediumFacts()
    ensures Concludes(SatisfactoryAllMedium, Satisfactory) && Shaped(SatisfactoryAllMedium, Line39Rule)
  {
    ShapedByIndex(SatisfactoryAllMedium, Satisfactory, Line39Rule);
  }

  lemma SatisfactoryOneHighFacts()
    ensures Concludes(SatisfactoryOneHigh, Satisfactory) && Shaped(SatisfactoryOneHigh, Line39Rule)
  {
    ShapedByIndex(SatisfactoryOneHigh, Satisfactory, Line39Rule);
  }

  lemma SatisfactoryTwoHighFacts()
    ensures Concludes(SatisfactoryTwoHigh, Satisfactory) && Shaped(SatisfactoryTwoHigh, Line39Rule)
  {
    ShapedByIndex(SatisfactoryTwoHigh, Satisfactory, Line39Rule);
  }

  lemma GoodThreeHighFacts()
    ensures Concludes(GoodThreeHigh, Good) && Shaped(GoodThreeHigh, Line39Rule)
  {
    ShapedByIndex(GoodThreeHigh, Good, Line39Rule);
  }

  lemma GoodFourHighFacts()
    ensures Concludes(GoodFourHigh, Good) && Shaped(GoodFourHigh, Line39Rule)
  {
    ShapedByIndex(GoodFourHigh, Good, Line39Rule);
  }

  lemma ExcellentRulesFacts()
    ensures Concludes(ExcellentRules, Excellent) && Shaped(ExcellentRules, Line39Rule)
  {
    ShapedByIndex(ExcellentRules, Excellent, Line39Rule);
  }

  lemma {:induction false} BlockCount(s: seq<Rule>, q: Performance, p: Performance)
    requires Concludes(s, q)
    ensures CountIn(s, p) == if p == q then |s| else 0
  {
    CountInUniform(s, q, p);
  }

  /** The first five blocks (rules.go lines 14-43): 25 rules, 6 Poor, 18 Needs Improvement, 1 Satisfactory. */
  lemma LowerBlockCounts(p: Performance)
    ensures |PoorRules + NeedsImprovementOneLow + NeedsImprovementTwoLow + NeedsImprovementOthers + SatisfactoryAllMedium| == 25
    ensures CountIn(PoorRules + NeedsImprovementOneLow + NeedsImprovementTwoLow + NeedsImprovementOthers + SatisfactoryAllMedium, p)
      == match p
         case Poor => 6
         case NeedsImprovement => 18
         case Satisfactory => 1
         case Good => 0
         case Excellent => 0
  {
    PoorRulesFacts();
    BlockCount(PoorRules, Poor, p);
    NeedsImprovementOneLowFacts();
    BlockCount(NeedsImprovementOneLow, NeedsImprovement, p);
    CountInAppend(PoorRules, NeedsImprovementOneLow, p);
    NeedsImprovementTwoLowFacts();
    BlockCount(NeedsImprovementTwoLow, NeedsImprovement, p);
    CountInAppend((PoorRules + NeedsImprovementOneLow), NeedsImprovementTwoLow, p);
    NeedsImprovementOthersFacts();
    BlockCount(NeedsImprovementOthers, NeedsImprovement, p);
    CountInAppend(((PoorRules + NeedsImprovementOneLow) + NeedsImprovementTwoLow), NeedsImprovementOthers, p);
    SatisfactoryAllMediumFacts();
    BlockCount(SatisfactoryAllMedium, Satisfactory, p);
    CountInAppend((((PoorRules + NeedsImprovementOneLow) + NeedsImprovementTwoLow) + NeedsImprovementOthers), SatisfactoryAllMedium, p);
  }

  /** The last five blocks (rules.go lines 46-81): 33 rules, 15 Satisfactory, 15 Good, 3 Excellent. */
  lemma UpperBlockCounts(p: Performance)
    ensures |SatisfactoryOneHigh + SatisfactoryTwoHigh + GoodThreeHigh + GoodFourHigh + ExcellentRules| == 33
    ensures CountIn(SatisfactoryOneHigh + SatisfactoryTwoHigh + GoodThreeHigh + GoodFourHigh + ExcellentRules, p)
      == match p
         case Poor => 0
         case NeedsImprovement => 0
         case Satisfactory => 15
         case Good => 15
         case Excellent => 3
  {
    SatisfactoryOneHighFacts();
    BlockCount(SatisfactoryOneHigh, Satisfactory, p);
    SatisfactoryTwoHighFacts();
    BlockCount(SatisfactoryTwoHigh, Satisfactory, p);
    CountInAppend(SatisfactoryOneHigh, SatisfactoryTwoHigh, p);
    GoodThreeHighFacts();
    BlockCount(GoodThreeHigh, Good, p);
    CountInAppend(SatisfactoryOneHigh + SatisfactoryTwoHigh, GoodThreeHigh, p);
    GoodFourHighFacts();
    BlockCount(GoodFourHigh, Good, p);
    CountInAppend(SatisfactoryOneHigh + SatisfactoryTwoHigh + GoodThreeHigh, GoodFourHigh, p);
    ExcellentRulesFacts();
    BlockCount(ExcellentRules, Excellent, p);
    CountInAppend(SatisfactoryOneHigh + SatisfactoryTwoHigh + GoodThreeHigh + GoodFourHigh, ExcellentRules, p);
  }

  /** `Rules()` has 58 entries; per category: Poor 6, Needs Improvement 18, Satisfactory 16, Good 15, Excellent 3. */
  lemma RuleCounts(p: Performance)
    ensures |Rules| == 58
    ensures CountIn(Rules, p) == match p
      case Poor => 6
      case NeedsImprovement => 18
      case Satisfactory => 16
      case Good => 15
      case Excellent => 3
  {
    var lower := PoorRules + NeedsImprovementOneLow + NeedsImprovementTwoLow + NeedsImprovementOthers + SatisfactoryAllMedium;
    var upper := SatisfactoryOneHigh + SatisfactoryTwoHigh + GoodThreeHigh + GoodFourHigh + ExcellentRules;
    LowerBlockCounts(p);
    UpperBlockCounts(p);
    CountInAppend(lower, upper, p);
    assert Rules == lower + upper;
  }

  lemma ShapedAppend(a: seq<Rule>, b: seq<Rule>, e: Rule)
    requires Shaped(a, e) && Shaped(b, e)
    ensures Shaped(a + b, e)
  {
  }

  /**
   * Every rule has the shape of its category (so Satisfactory, Good and Excellent
   * rules name no Low), and the rule at line 39 (index 21) is the only one that
   * names both Low and High.
   */
  lemma RuleShapes()
    ensures forall r :: r in Rules ==> WellShaped(r)
    ensures forall r :: r in Rules && MixesLowHigh(r) ==> r == Line39Rule
  {
    PoorRulesFacts();
    NeedsImprovementOneLowFacts();
    ShapedAppend(PoorRules, NeedsImprovementOneLow, Line39Rule);
    NeedsImprovementTwoLowFacts();
    ShapedAppend((PoorRules + NeedsImprovementOneLow), NeedsImprovementTwoLow, Line39Rule);
    NeedsImprovementOthersFacts();
    ShapedAppend(((PoorRules + NeedsImprovementOneLow) + NeedsImprovementTwoLow), NeedsImprovementOthers, Line39Rule);
    SatisfactoryAllMediumFacts();
    ShapedAppend((((PoorRules + NeedsImprovementOneLow) + NeedsImprovementTwoLow) + NeedsImprovementOthers), SatisfactoryAllMedium, Line39Rule);
    SatisfactoryOneHighFacts();
    ShapedAppend(((((PoorRules + NeedsImprovementOneLow) + NeedsImprovementTwoLow) + NeedsImprovementOthers) + SatisfactoryAllMedium), SatisfactoryOneHigh, Line39Rule);
    SatisfactoryTwoHighFacts();
    ShapedAppend((((((PoorRules + NeedsImprovementOneLow) + NeedsImprovementTwoLow) + NeedsImprovementOthers) + SatisfactoryAllMedium) + SatisfactoryOneHigh), SatisfactoryTwoHigh, Line39Rule);
    GoodThreeHighFacts();
    ShapedAppend(((((((PoorRules + NeedsImprovementOneLow) + NeedsImprovementTwoLow) + NeedsImprovementOthers) + SatisfactoryAllMedium) + SatisfactoryOneHigh) + SatisfactoryTwoHigh), GoodThreeHigh, Line39Rule);
    GoodFourHighFacts();
    ShapedAppend((((((((PoorRules + NeedsImprovementOneLow) + NeedsImprovementTwoLow) + NeedsImprovementOthers) + SatisfactoryAllMedium) + SatisfactoryOneHigh) + SatisfactoryTwoHigh) + GoodThreeHigh), GoodFourHigh, Line39Rule);
    ExcellentRulesFacts();
    ShapedAppend(((((((((PoorRules + NeedsImprovementOneLow) + NeedsImprovementTwoLow) + NeedsImprovementOthers) + SatisfactoryAllMedium) + SatisfactoryOneHigh) + SatisfactoryTwoHigh) + GoodThreeHigh) + GoodFourHigh), ExcellentRules, Line39Rule);
  }

  /**
   * Rule `i` of `rules` names `l` for all five metrics, and every rule that does so
   * concludes `p`.
   */
  predicate UniformRuleAt(rules: seq<Rule>, l: Level, i: nat, p: Performance)
  {
    && i < |rules| && LevelCount(rules[i], l) == 5
    && forall r :: r in rules && LevelCount(r, l) == 5 ==> r.performance == p
  }

  /**
   * Read off the category shapes: a rule naming Medium five times can only be
   * Satisfactory, and the one at index 24 (line 43) is such a rule.
   */
  lemma AllMediumRules()
    ensures UniformRuleAt(Rules, Medium, 24, Satisfactory)
  {
    RuleShapes();
    forall r | r in Rules && LevelCount(r, Medium) == 5
      ensures r.performance == Satisfactory
    {
      assert WellShaped(r);
      assert LevelCount(r, Low) + LevelCount(r, Medium) + LevelCount(r, High) == 5;
    }
    AllMediumRuleAt24();
  }

  lemma AllMediumRuleAt24()
    ensures 24 < |Rules| && LevelCount(Rules[24], Medium) == 5
  {
    var prefix := PoorRules + NeedsImprovementOneLow + NeedsImprovementTwoLow + NeedsImprovementOthers;
    assert |prefix| == 24;
    assert Rules[24] == (prefix + SatisfactoryAllMedium)[24] == SatisfactoryAllMedium[0];
  }

  /**
   * A rule naming High five times can only be Excellent, and the one at index 55
   * (line 79) is such a rule.
   */
  lemma AllHighRules()
    ensures UniformRuleAt(Rules, High, 55, Excellent)
  {
    RuleShapes();
    forall r | r in Rules && LevelCount(r, High) == 5
      ensures r.performance == Excellent
    {
      assert WellShaped(r);
      assert LevelCount(r, Low) + LevelCount(r, Medium) + LevelCount(r, High) == 5;
    }
    AllHighRuleAt55();
  }

  lemma AllHighRuleAt55()
    ensures 55 < |Rules| && LevelCount(Rules[55], High) == 5
  {
    assert Rules[55] == ExcellentRules[0];
  }

  lemma Line39IsIndex21()
    ensures Rules[21] == Line39Rule && MixesLowHigh(Rules[21])
  {
    assert Rules[21] == NeedsImprovementOthers[0];
  }

  /**
   * The table is not a function of its antecedents: lines 75 and 81, and lines 76
   * and 80, name the same levels but conclude Good and Excellent.
   */
  lemma ConflictingRules()
    ensures SameAntecedents(Rules[52], Rules[57]) && Rules[52].performance == Good && Rules[57].performance == Excellent
    ensures SameAntecedents(Rules[53], Rules[56]) && Rules[53].performance == Good && Rules[56].performance == Excellent
  {
    assert Rules[52] == GoodFourHigh[2] && Rules[53] == GoodFourHigh[3];
    assert Rules[56] == ExcellentRules[1] && Rules[57] == ExcellentRules[2];
  }
}
