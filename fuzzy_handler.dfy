/**
 * The `GET /fuzzy/{id}` handler (fuzzy/handler.go lines 28-152) without its HTTP
 * and database plumbing: the path id is parsed, the stored academic record is
 * looked up (a function parameter here), the five inputs are range-checked in a
 * fixed order, and the result combines the fuzzifiers, the legacy one-hot
 * `Inference`, `Defuzzify` and a numeric average over the category values 1..5.
 */
module FuzzyHandler {
  import opened Wrappers
  import opened RuleBase
  import opened Inferensi
  import opened Deffuzifikasi
  import opened GoStrconv

  /** The stored record's five metrics (float32 columns in the source, exact reals here). */
  datatype Academic = Academic(gpa: real, coreCourseAverage: real, attendanceRate: real,
                               midtermExamScore: real, finalExamScore: real)

  /** The JSON body of a successful response. */
  datatype FuzzyBody = FuzzyBody(userId: int, category: string, defuzzificationValue: real,
                                 inputs: Academic, fuzzyMembership: Memberships,
                                 inferenceOutput: map<string, real>)

  datatype Response = ErrorResponse(status: int, message: string) | OkResponse(body: FuzzyBody)

  const StatusOK := 200
  const StatusBadRequest := 400
  const StatusNotFound := 404
  const StatusInternalServerError := 500

  const InvalidUserId := "ID user tidak valid"
  const UserNotFound := "User tidak ditemukan"
  const InvalidAttendance := "Nilai attendance tidak valid"
  const InvalidMidterm := "Nilai midterm exam tidak valid"
  const InvalidFinalExam := "Nilai final exam tidak valid"
  const InvalidGPA := "Nilai GPA tidak valid"
  const InvalidCCA := "Nilai CCA tidak valid"

  // ---------------------------------------------------------------------------
  // Range checks (lines 51-70).

  predicate AttendanceOk(a: Academic) { 0.0 <= a.attendanceRate <= 1.0 }
  predicate MidtermOk(a: Academic) { 0.0 <= a.midtermExamScore <= 100.0 }
  predicate FinalExamOk(a: Academic) { 0.0 <= a.finalExamScore <= 100.0 }
  predicate GpaOk(a: Academic) { 0.0 <= a.gpa <= 4.0 }
  predicate CcaOk(a: Academic) { 0.0 <= a.coreCourseAverage <= 100.0 }

  predicate InputsInRange(a: Academic)
  {
    AttendanceOk(a) && MidtermOk(a) && FinalExamOk(a) && GpaOk(a) && CcaOk(a)
  }

  /** The message of the first failing guard, or None when all five pass. */
  function CheckInputs(a: Academic): (r: Option<string>)
    ensures r.None? <==> InputsInRange(a)
    ensures r == Some(InvalidAttendance) <==> !AttendanceOk(a)
    ensures r == Some(InvalidMidterm) <==> AttendanceOk(a) && !MidtermOk(a)
    ensures r == Some(InvalidFinalExam) <==> AttendanceOk(a) && MidtermOk(a) && !FinalExamOk(a)
    ensures r == Some(InvalidGPA) <==> AttendanceOk(a) && MidtermOk(a) && FinalExamOk(a) && !GpaOk(a)
    ensures r == Some(InvalidCCA) <==> AttendanceOk(a) && MidtermOk(a) && FinalExamOk(a) && GpaOk(a) && !CcaOk(a)
  {
    if a.attendanceRate < 0.0 || a.attendanceRate > 1.0 then Some(InvalidAttendance)
    else if a.midtermExamScore < 0.0 || a.midtermExamScore > 100.0 then Some(InvalidMidterm)
    else if a.finalExamScore < 0.0 || a.finalExamScore > 100.0 then Some(InvalidFinalExam)
    else if a.gpa < 0.0 || a.gpa > 4.0 then Some(InvalidGPA)
    else if a.coreCourseAverage < 0.0 || a.coreCourseAverage > 100.0 then Some(InvalidCCA)
    else None
  }

  // ---------------------------------------------------------------------------
  // The numeric defuzzification value (lines 91-110).

  const CategoryValues: map<string, real> :=
    map["Poor" := 1.0, "Needs Improvement" := 2.0, "Satisfactory" := 3.0, "Good" := 4.0, "Excellent" := 5.0]

  /** `output[cat]`: a missing key reads as Go's zero value. */
  function Get(output: map<string, real>, k: string): real
  {
    if k in output then output[k] else 0.0
  }

  /** Sum of membership * value over the categories of `ps` whose label is in `visited`. */
  function PartialSum(output: map<string, real>, ps: seq<Performance>, visited: set<string>): real
  {
    if ps == [] then 0.0
    else
      var name := PerformanceName(ps[0]);
      (if name in visited then Get(output, name) * CategoryNumber(ps[0]) as real else 0.0)
      + PartialSum(output, ps[1..], visited)
  }

  /** Sum of membership over the categories of `ps` whose label is in `visited`. */
  function PartialTotal(output: map<string, real>, ps: seq<Performance>, visited: set<string>): real
  {
    if ps == [] then 0.0
    else
      var name := PerformanceName(ps[0]);
      (if name in visited then Get(output, name) else 0.0) + PartialTotal(output, ps[1..], visited)
  }

  /** Σ m·v / Σ m over the five categories, or 0 when Σ m is 0: the value the loop computes in any order. */
  function DefuzzValueOf(output: map<string, real>): real
  {
    var sum := PartialSum(output, Categories, CategoryNames);
    var total := PartialTotal(output, Categories, CategoryNames);
    if total > 0.0 then sum / total else 0.0
  }

  predicate DistinctNames(ps: seq<Performance>)
  {
    forall i, j :: 0 <= i < j < |ps| ==> PerformanceName(ps[i]) != PerformanceName(ps[j])
  }

  /** Dropping the head keeps the labels distinct, and the head's label is not among the rest. */
  lemma DistinctTail(ps: seq<Performance>)
    requires DistinctNames(ps) && ps != []
    ensures DistinctNames(ps[1..])
    ensures forall i :: 0 <= i < |ps[1..]| ==> PerformanceName(ps[1..][i]) != PerformanceName(ps[0])
  {
    forall i | 0 <= i < |ps[1..]|
      ensures ps[1..][i] == ps[i + 1]
    {
    }
  }

  lemma {:induction false} NothingVisited(output: map<string, real>, ps: seq<Performance>)
    ensures PartialSum(output, ps, {}) == 0.0 && PartialTotal(output, ps, {}) == 0.0
  {
    if ps != [] {
      NothingVisited(output, ps[1..]);
    }
  }

  /** Visiting a label none of `ps` carries changes nothing. */
  lemma {:induction false} VisitAbsent(output: map<string, real>, ps: seq<Performance>, visited: set<string>, n: string)
    requires forall i :: 0 <= i < |ps| ==> PerformanceName(ps[i]) != n
    ensures PartialSum(output, ps, visited + {n}) == PartialSum(output, ps, visited)
    ensures PartialTotal(output, ps, visited + {n}) == PartialTotal(output, ps, visited)
  {
    if ps != [] {
      VisitAbsent(output, ps[1..], visited, n);
    }
  }

  /** Visiting one more category adds its term, whatever was visited before. */
  lemma {:induction false} VisitStep(output: map<string, real>, ps: seq<Performance>, visited: set<string>, p: Performance)
    requires DistinctNames(ps) && p in ps && PerformanceName(p) !in visited
    ensures PartialSum(output, ps, visited + {PerformanceName(p)})
         == PartialSum(output, ps, visited) + Get(output, PerformanceName(p)) * CategoryNumber(p) as real
    ensures PartialTotal(output, ps, visited + {PerformanceName(p)})
         == PartialTotal(output, ps, visited) + Get(output, PerformanceName(p))
  {
    var n := PerformanceName(p);
    DistinctTail(ps);
    if ps[0] == p {
      VisitAbsent(output, ps[1..], visited, n);
    } else {
      assert p in ps[1..];
      PerformanceNameInjective(ps[0], p);
      VisitStep(output, ps[1..], visited, p);
    }
  }

  /** The category map's keys are exactly the labels, each with its category's number. */
  lemma CategoryValuesLabelled(cat: string) returns (p: Performance)
    requires cat in CategoryValues
    ensures PerformanceName(p) == cat && CategoryValues[cat] == CategoryNumber(p) as real
  {
    CategoryNamesAreLabels();
    p :| PerformanceName(p) == cat;
  }

  /** The `for cat, val := range categoryValues` loop and the division after it. */
  method DefuzzValue(output: map<string, real>) returns (defuzzValue: real)
    ensures defuzzValue == DefuzzValueOf(output)
  {
    var sum := 0.0;
    var total := 0.0;
    var rest := CategoryValues.Keys;
    assert DistinctNames(Categories);
    NothingVisited(output, Categories);
    assert CategoryValues.Keys - rest == {};
    while rest != {}
      invariant rest <= CategoryValues.Keys
      invariant sum == PartialSum(output, Categories, CategoryValues.Keys - rest)
      invariant total == PartialTotal(output, Categories, CategoryValues.Keys - rest)
      decreases rest
    {
      var cat :| cat in rest;
      var val := CategoryValues[cat];
      var membership := Get(output, cat);
      var p := CategoryValuesLabelled(cat);
      assert p in Categories;
      VisitStep(output, Categories, CategoryValues.Keys - rest, p);
      assert (CategoryValues.Keys - rest) + {cat} == CategoryValues.Keys - (rest - {cat});
      sum := sum + membership * val;
      total := total + membership;
      rest := rest - {cat};
    }
    assert CategoryValues.Keys - rest == CategoryNames;
    if total > 0.0 {
      defuzzValue := sum / total;
    } else {
      defuzzValue := 0.0;
    }
  }

  /** On a one-hot map only the hot category contributes, with weight 1. */
  lemma {:induction false} OneHotPartial(q: Performance, ps: seq<Performance>)
    requires DistinctNames(ps)
    ensures PartialSum(OneHot(q), ps, CategoryNames) == if q in ps then CategoryNumber(q) as real else 0.0
    ensures PartialTotal(OneHot(q), ps, CategoryNames) == if q in ps then 1.0 else 0.0
  {
    if ps != [] {
      DistinctTail(ps);
      OneHotPartial(q, ps[1..]);
      CategoryNamesAreLabels();
      if ps[0] == q {
        assert q !in ps[1..];
      } else {
        assert q in ps <==> q in ps[1..];
      }
    }
  }

  /** With a one-hot map the value is the hot category's number. */
  lemma OneHotDefuzzValue(q: Performance)
    ensures DefuzzValueOf(OneHot(q)) == CategoryNumber(q) as real
  {
    assert DistinctNames(Categories);
    OneHotPartial(q, Categories);
  }

  // ---------------------------------------------------------------------------
  // The handler.

  /** What a student's record leads to: the body of the 200 response. */
  function Classification(userId: int, a: Academic): FuzzyBody
  {
    var m := FuzzifyInputs(a.gpa, a.coreCourseAverage, a.attendanceRate, a.midtermExamScore, a.finalExamScore);
    var p := Band(TsukamotoOver(m, Rules).crispOutput);
    FuzzyBody(userId, PerformanceName(p), CategoryNumber(p) as real, a, m, OneHot(p))
  }

  method FuzzyByUserID(idStr: string, lookup: int -> Option<Academic>) returns (resp: Response)
    ensures Atoi(idStr).None? ==> resp == ErrorResponse(StatusBadRequest, InvalidUserId)
    ensures Atoi(idStr).Some? && lookup(Atoi(idStr).value).None? ==> resp == ErrorResponse(StatusNotFound, UserNotFound)
    ensures Atoi(idStr).Some? && lookup(Atoi(idStr).value).Some? ==>
      var a := lookup(Atoi(idStr).value).value;
      match CheckInputs(a)
      case Some(message) => resp == ErrorResponse(StatusBadRequest, message)
      case None => resp == OkResponse(Classification(Atoi(idStr).value, a))
  {
    var parsed := Atoi(idStr);
    if parsed.None? {
      return ErrorResponse(StatusBadRequest, InvalidUserId);
    }
    var userID := parsed.value;
    var found := lookup(userID);
    if found.None? {
      return ErrorResponse(StatusNotFound, UserNotFound);
    }
    var academic := found.value;
    var gpa, cca, attendance := academic.gpa, academic.coreCourseAverage, academic.attendanceRate;
    var midterm, finalExam := academic.midtermExamScore, academic.finalExamScore;

    var invalid := CheckInputs(academic);
    if invalid.Some? {
      return ErrorResponse(StatusBadRequest, invalid.value);
    }

    var memberships := FuzzifyInputs(gpa, cca, attendance, midterm, finalExam);
    var output := Inference(gpa, cca, attendance, midterm, finalExam);
    ghost var p := Band(TsukamotoOver(memberships, Rules).crispOutput);

    var category := Defuzzify(output);
    assert output[PerformanceName(p)] == 1.0;
    if category.Failure? {
      // Unreachable: `Inference`'s map always has a key at 1.0.
      assert false;
      return ErrorResponse(StatusInternalServerError, NoMembership);
    }

    OneHotArgMax(p, category.value);
    var defuzzValue := DefuzzValue(output);
    OneHotDefuzzValue(p);
    resp := OkResponse(FuzzyBody(userID, category.value, defuzzValue, academic, memberships, output));
  }
}
