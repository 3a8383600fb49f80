/**
 * The five server-side fuzzifiers, branch for branch as the Go functions write them.
 * Each is shown to be an instance of the generic membership shape, which carries
 * the bounds, continuity and monotonicity facts.
 */
module Fuzzifikasi {
  import opened Membership

  /** Breakpoints of `FuzzifyGPA`. */
  const GpaShape := Shape(1.8, 2.2, 1.8, 2.5, 3.2, 2.8, 3.2)

  /** `FuzzifyGPA`: Low, Medium and High degrees of one gpa value. */
  function FuzzifyGPA(gpa: real): (m: Triple)
    ensures m == Fuzzify(GpaShape, gpa)
    ensures InUnit(m)
    ensures m.low == 1.0 <==> gpa <= 1.8
    ensures m.low == 0.0 <==> gpa >= 2.2
    ensures m.medium == 1.0 <==> gpa == 2.5
    ensures m.medium == 0.0 <==> gpa <= 1.8 || gpa >= 3.2
    ensures m.high == 0.0 <==> gpa <= 2.8
    ensures m.high == 1.0 <==> gpa >= 3.2
    ensures m.low == 0.0 || m.high == 0.0
    ensures m.low > 0.0 || m.medium > 0.0 || m.high > 0.0
  {
    assert Partition(GpaShape);
    Triple(
      if gpa <= 1.8 then 1.0
      else if gpa <= 2.2 then (2.2 - gpa) / (2.2 - 1.8)
      else 0.0,
      if gpa >= 1.8 && gpa <= 2.5 then (gpa - 1.8) / (2.5 - 1.8)
      else if gpa > 2.5 && gpa <= 3.2 then (3.2 - gpa) / (3.2 - 2.5)
      else 0.0,
      if gpa >= 3.2 then 1.0
      else if gpa >= 2.8 then (gpa - 2.8) / (3.2 - 2.8)
      else 0.0)
  }

  /** No jumps: each component moves by at most its steepest slope times the step. */
  lemma GPAContinuous(x: real, y: real)
    ensures Abs(FuzzifyGPA(x).low - FuzzifyGPA(y).low) <= Abs(x - y) / (2.2 - 1.8)
    ensures Abs(FuzzifyGPA(x).medium - FuzzifyGPA(y).medium)
         <= Max(Abs(x - y) / (2.5 - 1.8), Abs(x - y) / (3.2 - 2.5))
    ensures Abs(FuzzifyGPA(x).high - FuzzifyGPA(y).high) <= Abs(x - y) / (3.2 - 2.8)
  {
    LowLipschitz(GpaShape, x, y);
    MediumLipschitz(GpaShape, x, y);
    HighLipschitz(GpaShape, x, y);
  }

  /** Low never grows and High never shrinks as the value increases. */
  lemma GPAMonotone(x: real, y: real)
    requires x <= y
    ensures FuzzifyGPA(y).low <= FuzzifyGPA(x).low
    ensures FuzzifyGPA(x).high <= FuzzifyGPA(y).high
    ensures y <= 2.5 ==> FuzzifyGPA(x).medium <= FuzzifyGPA(y).medium
    ensures 2.5 <= x ==> FuzzifyGPA(y).medium <= FuzzifyGPA(x).medium
  {
    LowAntitone(GpaShape, x, y);
    HighMonotone(GpaShape, x, y);
    MediumUnimodal(GpaShape, x, y);
  }

  /** Breakpoints of `FuzzifyCCA`. */
  const CcaShape := Shape(50.0, 55.0, 50.0, 65.0, 75.0, 70.0, 80.0)

  /** `FuzzifyCCA`: Low, Medium and High degrees of one cca value. */
  function FuzzifyCCA(cca: real): (m: Triple)
    ensures m == Fuzzify(CcaShape, cca)
    ensures InUnit(m)
    ensures m.low == 1.0 <==> cca <= 50.0
    ensures m.low == 0.0 <==> cca >= 55.0
    ensures m.medium == 1.0 <==> cca == 65.0
    ensures m.medium == 0.0 <==> cca <= 50.0 || cca >= 75.0
    ensures m.high == 0.0 <==> cca <= 70.0
    ensures m.high == 1.0 <==> cca >= 80.0
    ensures m.low == 0.0 || m.high == 0.0
    ensures m.low > 0.0 || m.medium > 0.0 || m.high > 0.0
  {
    assert Partition(CcaShape);
    Triple(
      if cca <= 50.0 then 1.0
      else if cca <= 55.0 then (55.0 - cca) / (55.0 - 50.0)
      else 0.0,
      if cca >= 50.0 && cca <= 65.0 then (cca - 50.0) / (65.0 - 50.0)
      else if cca > 65.0 && cca <= 75.0 then (75.0 - cca) / (75.0 - 65.0)
      else 0.0,
      if cca >= 80.0 then 1.0
      else if cca >= 70.0 then (cca - 70.0) / (80.0 - 70.0)
      else 0.0)
  }

  /** No jumps: each component moves by at most its steepest slope times the step. */
  lemma CCAContinuous(x: real, y: real)
    ensures Abs(FuzzifyCCA(x).low - FuzzifyCCA(y).low) <= Abs(x - y) / (55.0 - 50.0)
    ensures Abs(FuzzifyCCA(x).medium - FuzzifyCCA(y).medium)
         <= Max(Abs(x - y) / (65.0 - 50.0), Abs(x - y) / (75.0 - 65.0))
    ensures Abs(FuzzifyCCA(x).high - FuzzifyCCA(y).high) <= Abs(x - y) / (80.0 - 70.0)
  {
    LowLipschitz(CcaShape, x, y);
    MediumLipschitz(CcaShape, x, y);
    HighLipschitz(CcaShape, x, y);
  }

  /** Low never grows and High never shrinks as the value increases. */
  lemma CCAMonotone(x: real, y: real)
    requires x <= y
    ensures FuzzifyCCA(y).low <= FuzzifyCCA(x).low
    ensures FuzzifyCCA(x).high <= FuzzifyCCA(y).high
    ensures y <= 65.0 ==> FuzzifyCCA(x).medium <= FuzzifyCCA(y).medium
    ensures 65.0 <= x ==> FuzzifyCCA(y).medium <= FuzzifyCCA(x).medium
  {
    LowAntitone(CcaShape, x, y);
    HighMonotone(CcaShape, x, y);
    MediumUnimodal(CcaShape, x, y);
  }

  /** Breakpoints of `FuzzifyAttendance`. */
  const AttendanceShape := Shape(0.60, 0.65, 0.60, 0.75, 0.85, 0.80, 0.90)

  /** `FuzzifyAttendance`: Low, Medium and High degrees of one attendance value. */
  function FuzzifyAttendance(attendance: real): (m: Triple)
    ensures m == Fuzzify(AttendanceShape, attendance)
    ensures InUnit(m)
    ensures m.low == 1.0 <==> attendance <= 0.60
    ensures m.low == 0.0 <==> attendance >= 0.65
    ensures m.medium == 1.0 <==> attendance == 0.75
    ensures m.medium == 0.0 <==> attendance <= 0.60 || attendance >= 0.85
    ensures m.high == 0.0 <==> attendance <= 0.80
    ensures m.high == 1.0 <==> attendance >= 0.90
    ensures m.low == 0.0 || m.high == 0.0
    ensures m.low > 0.0 || m.medium > 0.0 || m.high > 0.0
  {
    assert Partition(AttendanceShape);
    Triple(
      if attendance <= 0.60 then 1.0
      else if attendance <= 0.65 then (0.65 - attendance) / (0.65 - 0.60)
      else 0.0,
      if attendance >= 0.60 && attendance <= 0.75 then (attendance - 0.60) / (0.75 - 0.60)
      else if attendance > 0.75 && attendance <= 0.85 then (0.85 - attendance) / (0.85 - 0.75)
      else 0.0,
      if attendance >= 0.90 then 1.0
      else if attendance >= 0.80 then (attendance - 0.80) / (0.90 - 0.80)
      else 0.0)
  }

  /** No jumps: each component moves by at most its steepest slope times the step. */
  lemma AttendanceContinuous(x: real, y: real)
    ensures Abs(FuzzifyAttendance(x).low - FuzzifyAttendance(y).low) <= Abs(x - y) / (0.65 - 0.60)
    ensures Abs(FuzzifyAttendance(x).medium - FuzzifyAttendance(y).medium)
         <= Max(Abs(x - y) / (0.75 - 0.60), Abs(x - y) / (0.85 - 0.75))
    ensures Abs(FuzzifyAttendance(x).high - FuzzifyAttendance(y).high) <= Abs(x - y) / (0.90 - 0.80)
  {
    LowLipschitz(AttendanceShape, x, y);
    MediumLipschitz(AttendanceShape, x, y);
    HighLipschitz(AttendanceShape, x, y);
  }

  /** Low never grows and High never shrinks as the value increases. */
  lemma AttendanceMonotone(x: real, y: real)
    requires x <= y
    ensures FuzzifyAttendance(y).low <= FuzzifyAttendance(x).low
    ensures FuzzifyAttendance(x).high <= FuzzifyAttendance(y).high
    ensures y <= 0.75 ==> FuzzifyAttendance(x).medium <= FuzzifyAttendance(y).medium
    ensures 0.75 <= x ==> FuzzifyAttendance(y).medium <= FuzzifyAttendance(x).medium
  {
    LowAntitone(AttendanceShape, x, y);
    HighMonotone(AttendanceShape, x, y);
    MediumUnimodal(AttendanceShape, x, y);
  }

  /** Breakpoints of `FuzzifyMES`. */
  const MesShape := Shape(55.0, 60.0, 55.0, 65.0, 75.0, 70.0, 80.0)

  /** `FuzzifyMES`: Low, Medium and High degrees of one midterm value. */
  function FuzzifyMES(midterm: real): (m: Triple)
    ensures m == Fuzzify(MesShape, midterm)
    ensures InUnit(m)
    ensures m.low == 1.0 <==> midterm <= 55.0
    ensures m.low == 0.0 <==> midterm >= 60.0
    ensures m.medium == 1.0 <==> midterm == 65.0
    ensures m.medium == 0.0 <==> midterm <= 55.0 || midterm >= 75.0
    ensures m.high == 0.0 <==> midterm <= 70.0
    ensures m.high == 1.0 <==> midterm >= 80.0
    ensures m.low == 0.0 || m.high == 0.0
    ensures m.low > 0.0 || m.medium > 0.0 || m.high > 0.0
  {
    assert Partition(MesShape);
    Triple(
      if midterm <= 55.0 then 1.0
      else if midterm <= 60.0 then (60.0 - midterm) / (60.0 - 55.0)
      else 0.0,
      if midterm >= 55.0 && midterm <= 65.0 then (midterm - 55.0) / (65.0 - 55.0)
      else if midterm > 65.0 && midterm <= 75.0 then (75.0 - midterm) / (75.0 - 65.0)
      else 0.0,
      if midterm >= 80.0 then 1.0
      else if midterm >= 70.0 then (midterm - 70.0) / (80.0 - 70.0)
      else 0.0)
  }

  /** No jumps: each component moves by at most its steepest slope times the step. */
  lemma MESContinuous(x: real, y: real)
    ensures Abs(FuzzifyMES(x).low - FuzzifyMES(y).low) <= Abs(x - y) / (60.0 - 55.0)
    ensures Abs(FuzzifyMES(x).medium - FuzzifyMES(y).medium)
         <= Max(Abs(x - y) / (65.0 - 55.0), Abs(x - y) / (75.0 - 65.0))
    ensures Abs(FuzzifyMES(x).high - FuzzifyMES(y).high) <= Abs(x - y) / (80.0 - 70.0)
  {
    LowLipschitz(MesShape, x, y);
    MediumLipschitz(MesShape, x, y);
    HighLipschitz(MesShape, x, y);
  }

  /** Low never grows and High never shrinks as the value increases. */
  lemma MESMonotone(x: real, y: real)
    requires x <= y
    ensures FuzzifyMES(y).low <= FuzzifyMES(x).low
    ensures FuzzifyMES(x).high <= FuzzifyMES(y).high
    ensures y <= 65.0 ==> FuzzifyMES(x).medium <= FuzzifyMES(y).medium
    ensures 65.0 <= x ==> FuzzifyMES(y).medium <= FuzzifyMES(x).medium
  {
    LowAntitone(MesShape, x, y);
    HighMonotone(MesShape, x, y);
    MediumUnimodal(MesShape, x, y);
  }

  /** Breakpoints of `FuzzifyFinalExam`. */
  const FinalExamShape := Shape(52.0, 54.0, 52.0, 70.0, 82.0, 78.0, 82.0)

  /** `FuzzifyFinalExam`: Low, Medium and High degrees of one finalExam value. */
  function FuzzifyFinalExam(finalExam: real): (m: Triple)
    ensures m == Fuzzify(FinalExamShape, finalExam)
    ensures InUnit(m)
    ensures m.low == 1.0 <==> finalExam <= 52.0
    ensures m.low == 0.0 <==> finalExam >= 54.0
    ensures m.medium == 1.0 <==> finalExam == 70.0
    ensures m.medium == 0.0 <==> finalExam <= 52.0 || finalExam >= 82.0
    ensures m.high == 0.0 <==> finalExam <= 78.0
    ensures m.high == 1.0 <==> finalExam >= 82.0
    ensures m.low == 0.0 || m.high == 0.0
    ensures m.low > 0.0 || m.medium > 0.0 || m.high > 0.0
  {
    assert Partition(FinalExamShape);
    Triple(
      if finalExam <= 52.0 then 1.0
      else if finalExam <= 54.0 then (54.0 - finalExam) / (54.0 - 52.0)
      else 0.0,
      if finalExam >= 52.0 && finalExam <= 70.0 then (finalExam - 52.0) / (70.0 - 52.0)
      else if finalExam > 70.0 && finalExam <= 82.0 then (82.0 - finalExam) / (82.0 - 70.0)
      else 0.0,
      if finalExam >= 82.0 then 1.0
      else if finalExam >= 78.0 then (finalExam - 78.0) / (82.0 - 78.0)
      else 0.0)
  }

  /** No jumps: each component moves by at most its steepest slope times the step. */
  lemma FinalExamContinuous(x: real, y: real)
    ensures Abs(FuzzifyFinalExam(x).low - FuzzifyFinalExam(y).low) <= Abs(x - y) / (54.0 - 52.0)
    ensures Abs(FuzzifyFinalExam(x).medium - FuzzifyFinalExam(y).medium)
         <= Max(Abs(x - y) / (70.0 - 52.0), Abs(x - y) / (82.0 - 70.0))
    ensures Abs(FuzzifyFinalExam(x).high - FuzzifyFinalExam(y).high) <= Abs(x - y) / (82.0 - 78.0)
  {
    LowLipschitz(FinalExamShape, x, y);
    MediumLipschitz(FinalExamShape, x, y);
    HighLipschitz(FinalExamShape, x, y);
  }

  /** Low never grows and High never shrinks as the value increases. */
  lemma FinalExamMonotone(x: real, y: real)
    requires x <= y
    ensures FuzzifyFinalExam(y).low <= FuzzifyFinalExam(x).low
    ensures FuzzifyFinalExam(x).high <= FuzzifyFinalExam(y).high
    ensures y <= 70.0 ==> FuzzifyFinalExam(x).medium <= FuzzifyFinalExam(y).medium
    ensures 70.0 <= x ==> FuzzifyFinalExam(y).medium <= FuzzifyFinalExam(x).medium
  {
    LowAntitone(FinalExamShape, x, y);
    HighMonotone(FinalExamShape, x, y);
    MediumUnimodal(FinalExamShape, x, y);
  }
}
