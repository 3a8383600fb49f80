/**
 * The TypeScript copies of the five fuzzifiers that draw the documentation charts,
 * with their sample grids and the worked examples shown under each chart.
 * Each component is its own early-return function there; each is shown to agree
 * with the matching component of the server's fuzzifier.
 */
module ChartMirrors {
  import opened Membership
  import Fuzzifikasi

  /** One plotted point: the sample and its three memberships. */
  datatype ChartPoint = ChartPoint(x: real, low: real, medium: real, high: real)

  /** `Array.from({ length: n }, (_, i) => i / denom)`. */
  function SampleGrid(n: nat, denom: real): (xs: seq<real>)
    requires denom > 0.0
    ensures |xs| == n
  {
    seq(n, i => i as real / denom)
  }

  /**
   * A grid of `n` samples at step `1 / denom` starts at 0, ends at `(n - 1) / denom`,
   * stays in between and is evenly spaced.
   */
  lemma GridCovers(n: nat, denom: real)
    requires denom > 0.0 && n > 0
    ensures SampleGrid(n, denom)[0] == 0.0
    ensures SampleGrid(n, denom)[n - 1] == (n - 1) as real / denom
    ensures forall i :: 0 <= i < n ==> 0.0 <= SampleGrid(n, denom)[i] <= (n - 1) as real / denom
    ensures forall i :: 0 <= i < n - 1 ==> SampleGrid(n, denom)[i + 1] - SampleGrid(n, denom)[i] == 1.0 / denom
  {
    var xs := SampleGrid(n, denom);
    forall i | 0 <= i < n
      ensures 0.0 <= xs[i] <= (n - 1) as real / denom
    {
      DivMono(0.0, i as real, denom);
      DivMono(i as real, (n - 1) as real, denom);
    }
    forall i | 0 <= i < n - 1
      ensures xs[i + 1] - xs[i] == 1.0 / denom
    {
      assert xs[i + 1] - xs[i] == ((i + 1) as real - i as real) / denom;
    }
  }

  // ---------------------------------------------------------------------------
  // Gpa.tsx

  function FuzzifyGPALow(gpa: real): (r: real)
    ensures r == Fuzzifikasi.FuzzifyGPA(gpa).low
    ensures 0.0 <= r <= 1.0
  {
    if gpa <= 1.8 then 1.0
    else if gpa <= 2.2 then (2.2 - gpa) / (2.2 - 1.8)
    else 0.0
  }

  function FuzzifyGPAMedium(gpa: real): (r: real)
    ensures r == Fuzzifikasi.FuzzifyGPA(gpa).medium
    ensures 0.0 <= r <= 1.0
  {
    if gpa >= 1.8 && gpa <= 2.5 then (gpa - 1.8) / (2.5 - 1.8)
    else if gpa > 2.5 && gpa <= 3.2 then (3.2 - gpa) / (3.2 - 2.5)
    else 0.0
  }

  function FuzzifyGPAHigh(gpa: real): (r: real)
    ensures r == Fuzzifikasi.FuzzifyGPA(gpa).high
    ensures 0.0 <= r <= 1.0
  {
    if gpa >= 3.2 then 1.0
    else if gpa >= 2.8 then (gpa - 2.8) / (3.2 - 2.8)
    else 0.0
  }

  /** The plotted samples. */
  const GpaValues := SampleGrid(401, 100.0)

  /** The plotted series. */
  function GpaChartData(): (pts: seq<ChartPoint>)
    ensures |pts| == |GpaValues|
  {
    seq(|GpaValues|, i requires 0 <= i < |GpaValues| =>
      ChartPoint(GpaValues[i], FuzzifyGPALow(GpaValues[i]), FuzzifyGPAMedium(GpaValues[i]), FuzzifyGPAHigh(GpaValues[i])))
  }

  /** The chart shows exactly the closed range [0, 4.0] in steps of 1/100.0, every plotted degree in [0, 1]. */
  lemma GpaChartCovers()
    ensures |GpaValues| == 401 && GpaValues[0] == 0.0 && GpaValues[400] == 4.0
    ensures forall x :: x in GpaValues ==> 0.0 <= x <= 4.0
    ensures forall i :: 0 <= i < 400 ==> GpaValues[i + 1] - GpaValues[i] == 1.0 / 100.0
    ensures forall pt :: pt in GpaChartData() ==>
      0.0 <= pt.low <= 1.0 && 0.0 <= pt.medium <= 1.0 && 0.0 <= pt.high <= 1.0
  {
    GridCovers(401, 100.0);
  }

  /** The two worked examples printed under the chart. */
  lemma GpaWorkedExamples()
    ensures FuzzifyGPALow(2.0) == 0.5 && FuzzifyGPAMedium(2.0) == 2.0 / 7.0 && FuzzifyGPAHigh(2.0) == 0.0
    ensures FuzzifyGPALow(3.0) == 0.0 && FuzzifyGPAMedium(3.0) == 2.0 / 7.0 && FuzzifyGPAHigh(3.0) == 0.5
  {
  }

  // ---------------------------------------------------------------------------
  // Cca.tsx

  function FuzzifyCCALow(cca: real): (r: real)
    ensures r == Fuzzifikasi.FuzzifyCCA(cca).low
    ensures 0.0 <= r <= 1.0
  {
    if cca <= 50.0 then 1.0
    else if cca <= 55.0 then (55.0 - cca) / (55.0 - 50.0)
    else 0.0
  }

  function FuzzifyCCAMedium(cca: real): (r: real)
    ensures r == Fuzzifikasi.FuzzifyCCA(cca).medium
    ensures 0.0 <= r <= 1.0
  {
    if cca >= 50.0 && cca <= 65.0 then (cca - 50.0) / (65.0 - 50.0)
    else if cca > 65.0 && cca <= 75.0 then (75.0 - cca) / (75.0 - 65.0)
    else 0.0
  }

  function FuzzifyCCAHigh(cca: real): (r: real)
    ensures r == Fuzzifikasi.FuzzifyCCA(cca).high
    ensures 0.0 <= r <= 1.0
  {
    if cca >= 80.0 then 1.0
    else if cca >= 70.0 then (cca - 70.0) / (80.0 - 70.0)
    else 0.0
  }

  /** The plotted samples. */
  const CcaValues := SampleGrid(1001, 10.0)

  /** The plotted series. */
  function CcaChartData(): (pts: seq<ChartPoint>)
    ensures |pts| == |CcaValues|
  {
    seq(|CcaValues|, i requires 0 <= i < |CcaValues| =>
      ChartPoint(CcaValues[i], FuzzifyCCALow(CcaValues[i]), FuzzifyCCAMedium(CcaValues[i]), FuzzifyCCAHigh(CcaValues[i])))
  }

  /** The chart shows exactly the closed range [0, 100.0] in steps of 1/10.0, every plotted degree in [0, 1]. */
  lemma CcaChartCovers()
    ensures |CcaValues| == 1001 && CcaValues[0] == 0.0 && CcaValues[1000] == 100.0
    ensures forall x :: x in CcaValues ==> 0.0 <= x <= 100.0
    ensures forall i :: 0 <= i < 1000 ==> CcaValues[i + 1] - CcaValues[i] == 1.0 / 10.0
    ensures forall pt :: pt in CcaChartData() ==>
      0.0 <= pt.low <= 1.0 && 0.0 <= pt.medium <= 1.0 && 0.0 <= pt.high <= 1.0
  {
    GridCovers(1001, 10.0);
  }

  /** The two worked examples printed under the chart. */
  lemma CcaWorkedExamples()
    ensures FuzzifyCCALow(52.0) == 3.0 / 5.0 && FuzzifyCCAMedium(52.0) == 2.0 / 15.0 && FuzzifyCCAHigh(52.0) == 0.0
    ensures FuzzifyCCALow(72.0) == 0.0 && FuzzifyCCAMedium(72.0) == 3.0 / 10.0 && FuzzifyCCAHigh(72.0) == 1.0 / 5.0
  {
  }

  // ---------------------------------------------------------------------------
  // Attendance.tsx

  function FuzzifyAttendanceLow(attendance: real): (r: real)
    ensures r == Fuzzifikasi.FuzzifyAttendance(attendance).low
    ensures 0.0 <= r <= 1.0
  {
    if attendance <= 0.6 then 1.0
    else if attendance <= 0.65 then (0.65 - attendance) / (0.65 - 0.6)
    else 0.0
  }

  function FuzzifyAttendanceMedium(attendance: real): (r: real)
    ensures r == Fuzzifikasi.FuzzifyAttendance(attendance).medium
    ensures 0.0 <= r <= 1.0
  {
    if attendance >= 0.6 && attendance <= 0.75 then (attendance - 0.6) / (0.75 - 0.6)
    else if attendance > 0.75 && attendance <= 0.85 then (0.85 - attendance) / (0.85 - 0.75)
    else 0.0
  }

  function FuzzifyAttendanceHigh(attendance: real): (r: real)
    ensures r == Fuzzifikasi.FuzzifyAttendance(attendance).high
    ensures 0.0 <= r <= 1.0
  {
    if attendance >= 0.9 then 1.0
    else if attendance >= 0.8 then (attendance - 0.8) / (0.9 - 0.8)
    else 0.0
  }

  /** The plotted samples. */
  const AttendanceValues := SampleGrid(1001, 1000.0)

  /** The plotted series. */
  function AttendanceChartData(): (pts: seq<ChartPoint>)
    ensures |pts| == |AttendanceValues|
  {
    seq(|AttendanceValues|, i requires 0 <= i < |AttendanceValues| =>
      ChartPoint(AttendanceValues[i], FuzzifyAttendanceLow(AttendanceValues[i]), FuzzifyAttendanceMedium(AttendanceValues[i]), FuzzifyAttendanceHigh(AttendanceValues[i])))
  }

  /** The chart shows exactly the closed range [0, 1.0] in steps of 1/1000.0, every plotted degree in [0, 1]. */
  lemma AttendanceChartCovers()
    ensures |AttendanceValues| == 1001 && AttendanceValues[0] == 0.0 && AttendanceValues[1000] == 1.0
    ensures forall x :: x in AttendanceValues ==> 0.0 <= x <= 1.0
    ensures forall i :: 0 <= i < 1000 ==> AttendanceValues[i + 1] - AttendanceValues[i] == 1.0 / 1000.0
    ensures forall pt :: pt in AttendanceChartData() ==>
      0.0 <= pt.low <= 1.0 && 0.0 <= pt.medium <= 1.0 && 0.0 <= pt.high <= 1.0
  {
    GridCovers(1001, 1000.0);
  }

  /** The two worked examples printed under the chart. */
  lemma AttendanceWorkedExamples()
    ensures FuzzifyAttendanceLow(0.62) == 3.0 / 5.0 && FuzzifyAttendanceMedium(0.62) == 2.0 / 15.0 && FuzzifyAttendanceHigh(0.62) == 0.0
    ensures FuzzifyAttendanceLow(0.83) == 0.0 && FuzzifyAttendanceMedium(0.83) == 1.0 / 5.0 && FuzzifyAttendanceHigh(0.83) == 3.0 / 10.0
  {
  }

  // ---------------------------------------------------------------------------
  // MidtermExam.tsx

  function FuzzifyMESLow(midterm: real): (r: real)
    ensures r == Fuzzifikasi.FuzzifyMES(midterm).low
    ensures 0.0 <= r <= 1.0
  {
    if midterm <= 55.0 then 1.0
    else if midterm <= 60.0 then (60.0 - midterm) / (60.0 - 55.0)
    else 0.0
  }

  function FuzzifyMESMedium(midterm: real): (r: real)
    ensures r == Fuzzifikasi.FuzzifyMES(midterm).medium
    ensures 0.0 <= r <= 1.0
  {
    if midterm >= 55.0 && midterm <= 65.0 then (midterm - 55.0) / (65.0 - 55.0)
    else if midterm > 65.0 && midterm <= 75.0 then (75.0 - midterm) / (75.0 - 65.0)
    else 0.0
  }

  function FuzzifyMESHigh(midterm: real): (r: real)
    ensures r == Fuzzifikasi.FuzzifyMES(midterm).high
    ensures 0.0 <= r <= 1.0
  {
    if midterm >= 80.0 then 1.0
    else if midterm >= 70.0 then (midterm - 70.0) / (80.0 - 70.0)
    else 0.0
  }

  /** The plotted samples. */
  const MesValues := SampleGrid(1001, 10.0)

  /** The plotted series. */
  function MesChartData(): (pts: seq<ChartPoint>)
    ensures |pts| == |MesValues|
  {
    seq(|MesValues|, i requires 0 <= i < |MesValues| =>
      ChartPoint(MesValues[i], FuzzifyMESLow(MesValues[i]), FuzzifyMESMedium(MesValues[i]), FuzzifyMESHigh(MesValues[i])))
  }

  /** The chart shows exactly the closed range [0, 100.0] in steps of 1/10.0, every plotted degree in [0, 1]. */
  lemma MesChartCovers()
    ensures |MesValues| == 1001 && MesValues[0] == 0.0 && MesValues[1000] == 100.0
    ensures forall x :: x in MesValues ==> 0.0 <= x <= 100.0
    ensures forall i :: 0 <= i < 1000 ==> MesValues[i + 1] - MesValues[i] == 1.0 / 10.0
    ensures forall pt :: pt in MesChartData() ==>
      0.0 <= pt.low <= 1.0 && 0.0 <= pt.medium <= 1.0 && 0.0 <= pt.high <= 1.0
  {
    GridCovers(1001, 10.0);
  }

  /** The two worked examples printed under the chart. */
  lemma MesWorkedExamples()
    ensures FuzzifyMESLow(58.0) == 2.0 / 5.0 && FuzzifyMESMedium(58.0) == 3.0 / 10.0 && FuzzifyMESHigh(58.0) == 0.0
    ensures FuzzifyMESLow(72.0) == 0.0 && FuzzifyMESMedium(72.0) == 3.0 / 10.0 && FuzzifyMESHigh(72.0) == 1.0 / 5.0
  {
  }

  // ---------------------------------------------------------------------------
  // FinalExam.tsx

  function FuzzifyFinalExamLow(finalExam: real): (r: real)
    ensures r == Fuzzifikasi.FuzzifyFinalExam(finalExam).low
    ensures 0.0 <= r <= 1.0
  {
    if finalExam <= 52.0 then 1.0
    else if finalExam <= 54.0 then (54.0 - finalExam) / (54.0 - 52.0)
    else 0.0
  }

  function FuzzifyFinalExamMedium(finalExam: real): (r: real)
    ensures r == Fuzzifikasi.FuzzifyFinalExam(finalExam).medium
    ensures 0.0 <= r <= 1.0
  {
    if finalExam >= 52.0 && finalExam <= 70.0 then (finalExam - 52.0) / (70.0 - 52.0)
    else if finalExam > 70.0 && finalExam <= 82.0 then (82.0 - finalExam) / (82.0 - 70.0)
    else 0.0
  }

  function FuzzifyFinalExamHigh(finalExam: real): (r: real)
    ensures r == Fuzzifikasi.FuzzifyFinalExam(finalExam).high
    ensures 0.0 <= r <= 1.0
  {
    if finalExam >= 82.0 then 1.0
    else if finalExam >= 78.0 then (finalExam - 78.0) / (82.0 - 78.0)
    else 0.0
  }

  /** The plotted samples. */
  const FinalExamValues := SampleGrid(1001, 10.0)

  /** The plotted series. */
  function FinalExamChartData(): (pts: seq<ChartPoint>)
    ensures |pts| == |FinalExamValues|
  {
    seq(|FinalExamValues|, i requires 0 <= i < |FinalExamValues| =>
      ChartPoint(FinalExamValues[i], FuzzifyFinalExamLow(FinalExamValues[i]), FuzzifyFinalExamMedium(FinalExamValues[i]), FuzzifyFinalExamHigh(FinalExamValues[i])))
  }

  /** The chart shows exactly the closed range [0, 100.0] in steps of 1/10.0, every plotted degree in [0, 1]. */
  lemma FinalExamChartCovers()
    ensures |FinalExamValues| == 1001 && FinalExamValues[0] == 0.0 && FinalExamValues[1000] == 100.0
    ensures forall x :: x in FinalExamValues ==> 0.0 <= x <= 100.0
    ensures forall i :: 0 <= i < 1000 ==> FinalExamValues[i + 1] - FinalExamValues[i] == 1.0 / 10.0
    ensures forall pt :: pt in FinalExamChartData() ==>
      0.0 <= pt.low <= 1.0 && 0.0 <= pt.medium <= 1.0 && 0.0 <= pt.high <= 1.0
  {
    GridCovers(1001, 10.0);
  }

  /** The two worked examples printed under the chart. */
  lemma FinalExamWorkedExamples()
    ensures FuzzifyFinalExamLow(53.0) == 1.0 / 2.0 && FuzzifyFinalExamMedium(53.0) == 1.0 / 18.0 && FuzzifyFinalExamHigh(53.0) == 0.0
    ensures FuzzifyFinalExamLow(80.0) == 0.0 && FuzzifyFinalExamMedium(80.0) == 1.0 / 6.0 && FuzzifyFinalExamHigh(80.0) == 1.0 / 2.0
  {
  }
}
