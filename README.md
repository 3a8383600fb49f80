# Tsukamoto fuzzy classifier of student performance

This project models the classifier at the centre of Tsukamoto Fuzzy App. The classifier
grades a student as Poor, Needs Improvement, Satisfactory, Good or Excellent. It works from
five academic figures: GPA, core course average (CCA), attendance rate, midterm exam score
(MES) and final exam score. The model covers these parts:

- **Go server (`server/internal/modules`).**
  - The five fuzzifiers turn each figure into Low, Medium and High degrees. They share one
    parametric shape (`Membership`), and each fuzzifier is that shape at its own breakpoints
    (`Fuzzifikasi`).
  - The 58-rule table (`RuleBase`).
  - The Tsukamoto inference loop: the firing strength of a rule is the minimum of its five
    degrees, and the crisp output is the weighted average of the crisp values of the fired
    rules. Also included is the legacy one-hot `Inference` map (`Inferensi`).
  - The three defuzzifiers (`Deffuzifikasi`).
- **Go HTTP layer.**
  - The `/fuzzy/{id}` handler, with its guards and its numeric average over `categoryValues`
    (`FuzzyHandler`).
  - The registration validator (`RegisterValidation`).
  - `strconv.Atoi` (`GoStrconv`).
  - Go `strings.TrimSpace` and byte length (`Text`).
- **TypeScript client.**
  - The chart pages that restate the fuzzifiers (`ChartMirrors`).
  - The zod number validators of the student form (`FormValidators`). They import plain `"zod"`, which the model reads as zod 3: `invalid_type_error` is the NaN message, NaN stops the checks, and the infinities pass `number()` and are stopped only by `min`/`max`.
  - The zod registration schema (`AuthValidate`). It imports `"zod/v4"`, and the model follows zod 4's rules for which issues let a refinement run.
  - The attendance percentage conversions (`AttendanceFormat`).
  - The statistics page (`StudentStatistics`).
  - ECMAScript `Number(string)` and `parseFloat` (`JsNumber`).
  - UTF-16 length (`Text`).
- **Python scripts.**
  - The demonstration pipeline of `main.py` (`DemoPipeline`).
  - The label normalisation and per-class metrics of `sistem_test.py` (`SystemTest`).
  - `clean_ascii` of `docs.py` (`CleanAscii`).

Floating-point numbers are modelled as mathematical reals. Go maps are modelled as Dafny maps,
and a loop over a Go map visits the keys in an order the model leaves unspecified.

Some behaviours of the code worth knowing, all of which the model keeps:

- The Go fuzzifiers do not clamp their input. A value outside the nominal range gets the
  degrees the if-chains give it.
- A GPA of 2.0 has Low degree 0.5 on the server. The `main.py` demo has its own GPA shape,
  in which Low jumps back to 1 at 2.0.
- Inference is Tsukamoto's weighted average of per-category crisp values (20, 50, 70, 85, 95).
  It is not a max aggregation. Because the bands are "at most 95 is Good", the crisp path never
  yields Excellent.
- `DefuzzifyStrict` breaks ties by the least priority number.
  - A key outside the category table reads threshold 0 and priority 0, so it wins such a tie.
  - `Defuzzify` keeps whichever maximal key Go's map order visits first.

## Model

| member | source | states |
|---|---|---|
| Membership.Low | server/internal/modules/fuzzifikasi/gpa.go:4-8 | The left shoulder is in [0, 1]. It is 1 exactly up to its full point and 0 exactly from its zero point on. |
| Membership.Medium | server/internal/modules/fuzzifikasi/gpa.go:10-14 | The triangle is in [0, 1]. It is 1 exactly at its peak and 0 exactly outside its open base. |
| Membership.High | server/internal/modules/fuzzifikasi/gpa.go:16-20 | The right shoulder is in [0, 1]. It is 0 exactly up to its start and 1 exactly from its full point on. |
| Membership.Fuzzify | server/internal/modules/fuzzifikasi/gpa.go:3-23 | All three degrees are in [0, 1]. On a partition shape, Low and High are never both positive, and every value has some positive degree. |
| Membership.Clamp01 | server/internal/modules/fuzzifikasi/gpa.go:3-23 | Clamping lands in [0, 1] and is the identity inside it. It serves as the reference form of the if-chains. |
| Membership.LowIsClampedRamp | server/internal/modules/fuzzifikasi/gpa.go:4-8 | Low equals the clamped falling line through its two breakpoints. |
| Membership.MediumIsClampedTent | server/internal/modules/fuzzifikasi/gpa.go:10-14 | Medium equals the clamped minimum of its rising and falling lines. |
| Membership.HighIsClampedRamp | server/internal/modules/fuzzifikasi/gpa.go:16-20 | High equals the clamped rising line through its two breakpoints. |
| Membership.LowLipschitz | server/internal/modules/fuzzifikasi/gpa.go:4-8 | Low changes by at most the input step divided by the width of its ramp, so it has no jump. |
| Membership.HighLipschitz | server/internal/modules/fuzzifikasi/gpa.go:16-20 | High changes by at most the input step divided by the width of its ramp. |
| Membership.MediumLipschitz | server/internal/modules/fuzzifikasi/gpa.go:10-14 | Medium changes by at most the input step divided by the steeper of its two sides. |
| Membership.LowAntitone | server/internal/modules/fuzzifikasi/gpa.go:4-8 | Low never increases as the input grows. |
| Membership.HighMonotone | server/internal/modules/fuzzifikasi/gpa.go:16-20 | High never decreases as the input grows. |
| Membership.MediumUnimodal | server/internal/modules/fuzzifikasi/gpa.go:10-14 | Medium rises up to its peak and falls after it. |
| Fuzzifikasi.FuzzifyGPA | server/internal/modules/fuzzifikasi/gpa.go:3-23 | All three degrees are in [0, 1]. Breakpoints: Low is 1 at or below 1.8 and 0 from 2.2. Medium is 1 only at 2.5 and 0 outside (1.8, 3.2). High is 0 up to 2.8 and 1 from 3.2. Low and High never overlap, and some degree is always positive. |
| Fuzzifikasi.GPAContinuous | server/internal/modules/fuzzifikasi/gpa.go:3-23 | Each GPA degree moves by at most the step divided by its ramp width (0.4; 0.7 or 0.7; 0.4). |
| Fuzzifikasi.GPAMonotone | server/internal/modules/fuzzifikasi/gpa.go:3-23 | As GPA grows, Low never rises and High never falls. Medium rises up to 2.5 and falls after it. |
| Fuzzifikasi.FuzzifyCCA | server/internal/modules/fuzzifikasi/cca.go:3-23 | Breakpoints: Low 50/55. Medium peaks at 65 on (50, 75). High 70/80. The same partition facts as for GPA. |
| Fuzzifikasi.CCAContinuous | server/internal/modules/fuzzifikasi/cca.go:3-23 | Each CCA degree moves by at most the step divided by its ramp width. |
| Fuzzifikasi.CCAMonotone | server/internal/modules/fuzzifikasi/cca.go:3-23 | As CCA grows, Low never rises and High never falls. Medium is unimodal at 65. |
| Fuzzifikasi.FuzzifyAttendance | server/internal/modules/fuzzifikasi/attendance.go:3-23 | Breakpoints: Low 0.60/0.65. Medium peaks at 0.75 on (0.60, 0.85). High 0.80/0.90. The same partition facts. |
| Fuzzifikasi.AttendanceContinuous | server/internal/modules/fuzzifikasi/attendance.go:3-23 | Each attendance degree moves by at most the step divided by its ramp width. |
| Fuzzifikasi.AttendanceMonotone | server/internal/modules/fuzzifikasi/attendance.go:3-23 | As attendance grows, Low never rises and High never falls. Medium is unimodal at 0.75. |
| Fuzzifikasi.FuzzifyMES | server/internal/modules/fuzzifikasi/midterm_exam.go:3-23 | Breakpoints: Low 55/60. Medium peaks at 65 on (55, 75). High 70/80. The same partition facts. |
| Fuzzifikasi.MESContinuous | server/internal/modules/fuzzifikasi/midterm_exam.go:3-23 | Each midterm degree moves by at most the step divided by its ramp width. |
| Fuzzifikasi.MESMonotone | server/internal/modules/fuzzifikasi/midterm_exam.go:3-23 | As the midterm score grows, Low never rises and High never falls. Medium is unimodal at 65. |
| Fuzzifikasi.FuzzifyFinalExam | server/internal/modules/fuzzifikasi/final_exam.go:3-23 | Breakpoints: Low 52/54. Medium peaks at 70 on (52, 82). High 78/82. The same partition facts. |
| Fuzzifikasi.FinalExamContinuous | server/internal/modules/fuzzifikasi/final_exam.go:3-23 | Each final-exam degree moves by at most the step divided by its ramp width. |
| Fuzzifikasi.FinalExamMonotone | server/internal/modules/fuzzifikasi/final_exam.go:3-23 | As the final score grows, Low never rises and High never falls. Medium is unimodal at 70. |
| ChartMirrors.FuzzifyGPALow | client/src/components/fuzzy_proccessing/Gpa.tsx:19-23 | The chart's GPA Low equals the server's Low for every input, and lies in [0, 1]. |
| ChartMirrors.FuzzifyGPAMedium | client/src/components/fuzzy_proccessing/Gpa.tsx:25-29 | The chart's GPA Medium equals the server's Medium for every input. |
| ChartMirrors.FuzzifyGPAHigh | client/src/components/fuzzy_proccessing/Gpa.tsx:31-35 | The chart's GPA High equals the server's High for every input. |
| ChartMirrors.SampleGrid | client/src/components/fuzzy_proccessing/Gpa.tsx:38 | The sample grid has the requested number of points. |
| ChartMirrors.GridCovers | client/src/components/fuzzy_proccessing/Gpa.tsx:38 | The grid starts at 0 and ends at (n - 1)/denom. It stays in between and is evenly spaced at 1/denom. |
| ChartMirrors.GpaChartData | client/src/components/fuzzy_proccessing/Gpa.tsx:39-44 | There is one chart point per sample. |
| ChartMirrors.GpaChartCovers | client/src/components/fuzzy_proccessing/Gpa.tsx:38-44 | The 401 samples run from 0 to 4.0 in steps of 0.01, and every plotted degree is in [0, 1]. |
| ChartMirrors.GpaWorkedExamples | client/src/components/fuzzy_proccessing/Gpa.tsx:228-238 | The worked examples are 2.0 → (0.5, 2/7, 0) and 3.0 → (0, 2/7, 0.5). |
| ChartMirrors.FuzzifyCCALow | client/src/components/fuzzy_proccessing/Cca.tsx:19-23 | The chart's CCA Low equals the server's for every input. |
| ChartMirrors.FuzzifyCCAMedium | client/src/components/fuzzy_proccessing/Cca.tsx:25-29 | The chart's CCA Medium equals the server's for every input. |
| ChartMirrors.FuzzifyCCAHigh | client/src/components/fuzzy_proccessing/Cca.tsx:31-35 | The chart's CCA High equals the server's for every input. |
| ChartMirrors.CcaChartData | client/src/components/fuzzy_proccessing/Cca.tsx:39-44 | There is one chart point per sample. |
| ChartMirrors.CcaChartCovers | client/src/components/fuzzy_proccessing/Cca.tsx:38-44 | The 1001 samples run from 0 to 100 in steps of 0.1, and every degree is in [0, 1]. |
| ChartMirrors.CcaWorkedExamples | client/src/components/fuzzy_proccessing/Cca.tsx:230-240 | The worked examples are 52 → (3/5, 2/15, 0) and 72 → (0, 3/10, 1/5). |
| ChartMirrors.FuzzifyAttendanceLow | client/src/components/fuzzy_proccessing/Attendance.tsx:19-23 | The chart's attendance Low equals the server's for every input. |
| ChartMirrors.FuzzifyAttendanceMedium | client/src/components/fuzzy_proccessing/Attendance.tsx:25-31 | The chart's attendance Medium equals the server's for every input. |
| ChartMirrors.FuzzifyAttendanceHigh | client/src/components/fuzzy_proccessing/Attendance.tsx:33-37 | The chart's attendance High equals the server's for every input. |
| ChartMirrors.AttendanceChartData | client/src/components/fuzzy_proccessing/Attendance.tsx:41-46 | There is one chart point per sample. |
| ChartMirrors.AttendanceChartCovers | client/src/components/fuzzy_proccessing/Attendance.tsx:40-46 | The 1001 samples run from 0 to 1 in steps of 0.001, and every degree is in [0, 1]. |
| ChartMirrors.AttendanceWorkedExamples | client/src/components/fuzzy_proccessing/Attendance.tsx:230-240 | The worked examples are 0.62 → (3/5, 2/15, 0) and 0.83 → (0, 1/5, 3/10). |
| ChartMirrors.FuzzifyMESLow | client/src/components/fuzzy_proccessing/MidtermExam.tsx:19-23 | The chart's midterm Low equals the server's for every input. |
| ChartMirrors.FuzzifyMESMedium | client/src/components/fuzzy_proccessing/MidtermExam.tsx:25-29 | The chart's midterm Medium equals the server's for every input. |
| ChartMirrors.FuzzifyMESHigh | client/src/components/fuzzy_proccessing/MidtermExam.tsx:31-35 | The chart's midterm High equals the server's for every input. |
| ChartMirrors.MesChartData | client/src/components/fuzzy_proccessing/MidtermExam.tsx:39-44 | There is one chart point per sample. |
| ChartMirrors.MesChartCovers | client/src/components/fuzzy_proccessing/MidtermExam.tsx:38-44 | The 1001 samples run from 0 to 100 in steps of 0.1, and every degree is in [0, 1]. |
| ChartMirrors.MesWorkedExamples | client/src/components/fuzzy_proccessing/MidtermExam.tsx:230-240 | The worked examples are 58 → (2/5, 3/10, 0) and 72 → (0, 3/10, 1/5). |
| ChartMirrors.FuzzifyFinalExamLow | client/src/components/fuzzy_proccessing/FinalExam.tsx:19-23 | The chart's final-exam Low equals the server's for every input. |
| ChartMirrors.FuzzifyFinalExamMedium | client/src/components/fuzzy_proccessing/FinalExam.tsx:25-29 | The chart's final-exam Medium equals the server's for every input. |
| ChartMirrors.FuzzifyFinalExamHigh | client/src/components/fuzzy_proccessing/FinalExam.tsx:31-35 | The chart's final-exam High equals the server's for every input. |
| ChartMirrors.FinalExamChartData | client/src/components/fuzzy_proccessing/FinalExam.tsx:39-44 | There is one chart point per sample. |
| ChartMirrors.FinalExamChartCovers | client/src/components/fuzzy_proccessing/FinalExam.tsx:38-44 | The 1001 samples run from 0 to 100 in steps of 0.1, and every degree is in [0, 1]. |
| ChartMirrors.FinalExamWorkedExamples | client/src/components/fuzzy_proccessing/FinalExam.tsx:230-240 | The worked examples are 53 → (1/2, 1/18, 0) and 80 → (0, 1/6, 1/2). |
| RuleBase.PerformanceNameInjective | server/internal/modules/inferensi/inferensi.go:26-32 | Distinct categories have distinct labels. |
| RuleBase.PerformanceName | server/internal/modules/inferensi/inferensi.go:26-32 | Specification function with no contract of its own: the Go label of each category, as the map keys spell it. `PerformanceNameInjective` and `CategoryNamesAreLabels` state its properties. |
| RuleBase.CategoryNumber | server/internal/domain/fuzzy/handler.go:91-97 | Each category's number is in 1..5 and indexes the category list, worst first. |
| RuleBase.CategoryNamesAreLabels | server/internal/modules/inferensi/inferensi.go:146-152 | The five map keys are exactly the labels of the five categories. |
| RuleBase.LevelCount | server/internal/modules/inferensi/rules.go:3-10 | A rule names a level at most five times. |
| RuleBase.CountIn | server/internal/modules/inferensi/rules.go:12-83 | A block has at most as many rules of a category as it has rules. |
| RuleBase.PoorRulesFacts | server/internal/modules/inferensi/rules.go:14-19 | Every rule of the Poor block concludes Poor and has the Poor shape. |
| RuleBase.NeedsImprovementOneLowFacts | server/internal/modules/inferensi/rules.go:22-26 | Every rule of this block concludes Needs Improvement and has that shape. |
| RuleBase.NeedsImprovementTwoLowFacts | server/internal/modules/inferensi/rules.go:28-37 | Every rule of this block concludes Needs Improvement and has that shape. |
| RuleBase.NeedsImprovementOthersFacts | server/internal/modules/inferensi/rules.go:39-41 | Every rule of this block concludes Needs Improvement and has that shape. Only line 39 mixes Low with High. |
| RuleBase.SatisfactoryAllMediumFacts | server/internal/modules/inferensi/rules.go:43 | The all-Medium rule concludes Satisfactory. |
| RuleBase.SatisfactoryOneHighFacts | server/internal/modules/inferensi/rules.go:45-49 | Every rule of this block concludes Satisfactory and has that shape. |
| RuleBase.SatisfactoryTwoHighFacts | server/internal/modules/inferensi/rules.go:51-60 | Every rule of this block concludes Satisfactory and has that shape. |
| RuleBase.GoodThreeHighFacts | server/internal/modules/inferensi/rules.go:62-71 | Every rule of this block concludes Good and has that shape. |
| RuleBase.GoodFourHighFacts | server/internal/modules/inferensi/rules.go:73-77 | Every rule of this block concludes Good and has that shape. |
| RuleBase.ExcellentRulesFacts | server/internal/modules/inferensi/rules.go:79-81 | Every rule of this block concludes Excellent and has that shape. |
| RuleBase.LowerBlockCounts | server/internal/modules/inferensi/rules.go:14-43 | The first five blocks hold 25 rules: 6 Poor, 18 Needs Improvement and 1 Satisfactory. |
| RuleBase.UpperBlockCounts | server/internal/modules/inferensi/rules.go:45-81 | The last five blocks hold 33 rules: 15 Satisfactory, 15 Good and 3 Excellent. |
| RuleBase.RuleCounts | server/internal/modules/inferensi/rules.go:12-83 | `Rules()` has 58 rules: Poor 6, Needs Improvement 18, Satisfactory 16, Good 15 and Excellent 3. |
| RuleBase.RuleShapes | server/internal/modules/inferensi/rules.go:12-83 | Every rule has its category's shape, so no Satisfactory, Good or Excellent rule names Low. The rule at line 39 is the only one to name both Low and High. |
| RuleBase.AllMediumRules | server/internal/modules/inferensi/rules.go:43 | Rule 24 names Medium five times, and every such rule concludes Satisfactory. |
| RuleBase.AllHighRules | server/internal/modules/inferensi/rules.go:79 | Rule 55 names High five times, and every such rule concludes Excellent. |
| RuleBase.Line39IsIndex21 | server/internal/modules/inferensi/rules.go:39 | Rule index 21 is the line-39 rule, and it mixes Low with High. |
| RuleBase.ConflictingRules | server/internal/modules/inferensi/rules.go:75-81 | Lines 75 and 81 have the same antecedents, as do lines 76 and 80. In each pair one rule concludes Good and the other Excellent. |
| Inferensi.FuzzifyInputs | server/internal/modules/inferensi/inferensi.go:36-40 | All fifteen degrees are in [0, 1]. |
| Inferensi.Select | server/internal/modules/inferensi/inferensi.go:54-100 | Specification function with no contract of its own: the degree a `switch` on one rule label picks, low, medium or high. `FiringStrength` states that the strength is the minimum of the five picks. |
| Inferensi.FiringStrength | server/internal/modules/inferensi/inferensi.go:54-100 | The strength is at most each selected degree and equal to one of them, so it is their minimum. It is in [0, 1] when the degrees are. |
| Inferensi.PerformanceValue | server/internal/modules/inferensi/inferensi.go:26-32 | Each crisp value is in [20, 95]. |
| Inferensi.PerformanceValueIncreasing | server/internal/modules/inferensi/inferensi.go:26-32 | The crisp values are strictly increasing in the category order, in both directions. |
| Inferensi.Terms | server/internal/modules/inferensi/inferensi.go:111-115 | Each recorded output becomes the term (firing strength, crisp value). |
| Inferensi.TsukamotoOver | server/internal/modules/inferensi/inferensi.go:34-139 | Specification function with no contract of its own: the sums, the crisp output and the recorded outputs of the loop over a rule list. `ApplyRules` is proved equal to it, and `FiredExactly`, `FiredTerms` and `CrispOutputBounds` state its properties. |
| Inferensi.FiredStep | server/internal/modules/inferensi/inferensi.go:100-124 | A rule of strength at most 0 is skipped. Otherwise exactly its output is appended, and the sums grow by its weighted value and its strength. |
| Inferensi.TsukamotoInference | server/internal/modules/inferensi/inferensi.go:34-139 | The result is the specification function `TsukamotoOver` applied to the fuzzified inputs and `Rules()`. |
| Inferensi.ApplyRules | server/internal/modules/inferensi/inferensi.go:42-138 | The loop with its two accumulators returns the sums, the crisp output and the recorded outputs that `TsukamotoOver` gives. |
| Inferensi.FiredExactly | server/internal/modules/inferensi/inferensi.go:102-124 | The recorded outputs are exactly the rules of positive strength, each once, in increasing rule index, each recording its own strength and crisp value. |
| Inferensi.FiredRecords | server/internal/modules/inferensi/inferensi.go:118-124 | Every record belongs to a firing rule below k, with strictly increasing rule indices. |
| Inferensi.FiredComplete | server/internal/modules/inferensi/inferensi.go:102-105 | Every rule of positive strength is recorded. |
| Inferensi.FiredTerms | server/internal/modules/inferensi/inferensi.go:107-124 | Recorded weights are positive and values lie in [20, 95]. The weighted value is strength × crisp value, and the strength is in (0, 1] when the degrees are. |
| Inferensi.CrispOutputBounds | server/internal/modules/inferensi/inferensi.go:127-131 | The total weight is 0 exactly when nothing fired, and then the crisp output is 0. Otherwise the crisp output is weightedSum / totalWeight, in [20, 95]. |
| Inferensi.BandMonotone | server/internal/modules/inferensi/inferensi.go:157-167 | A larger crisp value never gives a worse category. |
| Inferensi.Band | server/internal/modules/inferensi/inferensi.go:157-167 | Specification function with no contract of its own: the at-most-40, 60, 80, 95 if-chain. `BandMonotone` and `BandOfPerformanceValue` state its properties. |
| Inferensi.BandOfPerformanceValue | server/internal/modules/inferensi/inferensi.go:157-167 | Each category's crisp value lands in its own band, except Excellent's 95, which bands as Good. |
| Inferensi.OneHot | server/internal/modules/inferensi/inferensi.go:146-167 | The map has exactly the five labels, with 1.0 for the chosen category and 0.0 for the others. |
| Inferensi.Inference | server/internal/modules/inferensi/inferensi.go:142-170 | The result is the one-hot map of the band of the crisp output. |
| Inferensi.InferenceNeverExcellent | server/internal/modules/inferensi/inferensi.go:157-167 | The crisp path never bands Excellent, and with no rule fired it bands Poor. |
| Inferensi.OnlyUniformRulesFire | server/internal/modules/inferensi/inferensi.go:54-100 | When every metric is fully at one level, a rule fires with strength 1 if it names that level five times, and with 0 otherwise. |
| Inferensi.UniformOutcome | server/internal/modules/inferensi/inferensi.go:50-131 | In that case the crisp output is the crisp value of the uniform rules' category. |
| InferenceExamples.AllMediumOutcome | server/internal/modules/inferensi/inferensi.go:50-131 | Over a table whose rule 24 is all-Medium and Satisfactory, all-Medium inputs give 70. |
| InferenceExamples.AllHighOutcome | server/internal/modules/inferensi/inferensi.go:50-131 | Over a table whose rule 55 is all-High and Excellent, all-High inputs give 95. |
| InferenceExamples.AllMediumIsSatisfactory | server/internal/modules/inferensi/inferensi.go:142-170 | On `Rules()`, fully Medium inputs give crisp 70, which bands as Satisfactory. |
| InferenceExamples.TopStudentIsGood | server/internal/modules/inferensi/inferensi.go:142-170 | On `Rules()`, fully High inputs give crisp 95, which bands as Good rather than Excellent. |
| InferenceExamples.MediumPeakInputs | server/internal/modules/inferensi/inferensi.go:36-40 | The inputs 2.5, 65, 0.75, 65, 70 make every metric fully Medium. |
| InferenceExamples.TopInputs | server/internal/modules/inferensi/inferensi.go:36-40 | The inputs 4, 100, 1, 100, 100 make every metric fully High. |
| InferenceExamples.MediumPeakStudent | server/internal/modules/inferensi/inferensi.go:34-139 | `TsukamotoInference(2.5, 65, 0.75, 65, 70)` has crisp output 70. |
| InferenceExamples.TopStudent | server/internal/modules/inferensi/inferensi.go:34-139 | `TsukamotoInference(4, 100, 1, 100, 100)` has crisp output 95. |
| WeightedAverage.AppendTerm | server/internal/modules/inferensi/inferensi.go:114-115 | Appending a term adds weight × value to the numerator and the weight to the denominator. |
| WeightedAverage.DenPositive | server/internal/modules/inferensi/inferensi.go:127-131 | With positive weights, the weight sum is non-negative and is 0 exactly when there are no terms. |
| WeightedAverage.NumBetween | server/internal/modules/inferensi/inferensi.go:114-115 | The numerator lies between lo and hi times the denominator when every value lies in [lo, hi]. |
| WeightedAverage.AverageBetween | server/internal/modules/inferensi/inferensi.go:127-131 | A weighted average of positive weights lies between the least and the greatest value. |
| WeightedAverage.SingleTerm | server/internal/modules/inferensi/inferensi.go:127-131 | One term alone averages to its own value. |
| WeightedAverage.Num | server/internal/modules/inferensi/inferensi.go:114 | Specification function with no contract of its own: Σ weight·value, front to back. `AppendTerm` and `NumBetween` state its properties. |
| WeightedAverage.Den | server/internal/modules/inferensi/inferensi.go:115 | Specification function with no contract of its own: Σ weight, front to back. `AppendTerm` and `DenPositive` state its properties. |
| WeightedAverage.Average | server/internal/modules/inferensi/inferensi.go:127-131 | Specification function with no contract of its own: Num/Den when Den is positive, else 0. `AverageBetween` and `SingleTerm` state its properties. |
| Deffuzifikasi.Classify | server/internal/modules/deffuzifikasi/deffuzifikasi.go:13-30 | It fails with the no-firing message exactly when the total weight is 0. Otherwise it returns the crisp output unchanged, with the label of its band. |
| Deffuzifikasi.TsukamotoDefuzzify | server/internal/modules/deffuzifikasi/deffuzifikasi.go:10-33 | The result is `Classify` of the inference on the raw inputs. |
| Deffuzifikasi.ClassifyFacts | server/internal/modules/deffuzifikasi/deffuzifikasi.go:13-30 | The error comes exactly when no rule fired. On success the category is the key `Inference` sets to 1.0, and it is never "Excellent". |
| Deffuzifikasi.AnyPositive | server/internal/modules/deffuzifikasi/deffuzifikasi.go:38-44 | The flag is set exactly when some membership is positive. |
| Deffuzifikasi.Defuzzify | server/internal/modules/deffuzifikasi/deffuzifikasi.go:36-61 | It fails with the no-membership message exactly when no membership is positive. Otherwise it returns a key of positive, maximal membership. |
| Deffuzifikasi.Threshold | server/internal/modules/deffuzifikasi/deffuzifikasi.go:78-84 | Category thresholds are in [0.2, 0.7]. Any other key reads 0. |
| Deffuzifikasi.Priority | server/internal/modules/deffuzifikasi/deffuzifikasi.go:87-93 | Each category's priority is its number 1..5. Any other key reads 0. |
| Deffuzifikasi.CollectCandidates | server/internal/modules/deffuzifikasi/deffuzifikasi.go:95-108 | The candidates are exactly the eligible keys of maximal membership. There is at least one candidate when some key is eligible. |
| Deffuzifikasi.DefuzzifyStrict | server/internal/modules/deffuzifikasi/deffuzifikasi.go:64-131 | It fails exactly when nothing is positive. When some key passes its threshold, it returns a candidate of least priority number. Otherwise it falls back to an arg-max. |
| Deffuzifikasi.PriorityInjective | server/internal/modules/deffuzifikasi/deffuzifikasi.go:87-93 | Distinct categories have distinct priorities. |
| Deffuzifikasi.StrictChoiceUnique | server/internal/modules/deffuzifikasi/deffuzifikasi.go:115-128 | When every key is a category label, the strict choice is unique, so it does not depend on map order. |
| Deffuzifikasi.UnknownKeyWinsTies | server/internal/modules/deffuzifikasi/deffuzifikasi.go:100-128 | A non-category key tied with a category as a candidate keeps the category from being chosen. |
| Deffuzifikasi.OneHotArgMax | server/internal/modules/deffuzifikasi/deffuzifikasi.go:50-58 | On `Inference`'s one-hot map, the hot key is the only arg-max. |
| Deffuzifikasi.OneHotStrictChoice | server/internal/modules/deffuzifikasi/deffuzifikasi.go:95-128 | On the one-hot map, the hot key is eligible and is the only strict choice. |
| FuzzyHandler.CheckInputs | server/internal/domain/fuzzy/handler.go:51-70 | It reports nothing exactly when all five figures are in range. Otherwise it reports the message of the first failing guard, in the handler's order. |
| FuzzyHandler.VisitStep | server/internal/domain/fuzzy/handler.go:100-104 | Visiting one more category adds its membership × number to the sum and its membership to the total, whatever was visited before. |
| FuzzyHandler.CategoryValuesLabelled | server/internal/domain/fuzzy/handler.go:91-97 | Every key of `categoryValues` is a category's label, mapped to that category's number. |
| FuzzyHandler.DefuzzValue | server/internal/domain/fuzzy/handler.go:91-110 | In any visiting order, the loop gives Σ m·v / Σ m over the five categories, or 0 when Σ m is 0. |
| FuzzyHandler.DefuzzValueOf | server/internal/domain/fuzzy/handler.go:91-110 | Specification function with no contract of its own: Σ m·v / Σ m over the five categories, or 0. `DefuzzValue` proves the map loop equal to it in every order, and `OneHotDefuzzValue` gives its value on a one-hot map. |
| FuzzyHandler.OneHotPartial | server/internal/domain/fuzzy/handler.go:100-104 | On a one-hot map, only the hot category contributes, with weight 1. |
| FuzzyHandler.OneHotDefuzzValue | server/internal/domain/fuzzy/handler.go:80-110 | For `Inference`'s one-hot output, the numeric value is the hot category's number. |
| FuzzyHandler.FuzzyByUserID | server/internal/domain/fuzzy/handler.go:28-152 | An unparsable id gives 400, and an unknown user gives 404. A figure out of range gives 400 with the first guard's message. Otherwise the response is 200 with the classification of the record. |
| FuzzyHandler.Classification | server/internal/domain/fuzzy/handler.go:72-150 | Specification function with no contract of its own: the 200 body. It holds the band of the crisp output as the category, that category's number as the defuzzification value, the inputs, the fifteen degrees and the one-hot map. `FuzzyByUserID`'s ensures returns it for a valid record. |
| GoStrconv.DigitChar | server/internal/domain/fuzzy/handler.go:31 | Part of the model's reference printer for the `strconv.Atoi` round trip (`AtoiFormatInt`), not code at this line: a digit value and its character correspond. |
| GoStrconv.Atoi | server/internal/domain/fuzzy/handler.go:31-35 | A parsed value fits in 64 bits, comes from a non-empty run of digits after an optional sign, and is negative only after '-'. |
| GoStrconv.FormatNat | server/internal/domain/fuzzy/handler.go:31 | The model's reference printer for the `strconv.Atoi` round trip (`AtoiFormatInt`), not code at this line: printing a natural gives a non-empty run of digits. |
| GoStrconv.FormatNatValue | server/internal/domain/fuzzy/handler.go:31 | About the model's reference printer for the `strconv.Atoi` round trip, not code at this line: the printed digits read back as the number. |
| GoStrconv.AtoiFormatInt | server/internal/domain/fuzzy/handler.go:31-35 | Every 64-bit integer survives printing and parsing back, and nothing outside 64 bits parses. |
| GoStrconv.AtoiRejects | server/internal/domain/fuzzy/handler.go:31-35 | The empty string, a bare sign, trailing letters, a leading blank and an underscore are rejected. |
| GoStrconv.AtoiAccepts | server/internal/domain/fuzzy/handler.go:31-35 | Leading zeros and a sign are accepted. |
| Text.TrimStart | server/internal/domain/auth/handler.go:192 | The result is a suffix, everything dropped is whitespace, and the result does not start with whitespace. |
| Text.TrimEnd | server/internal/domain/auth/handler.go:192 | The result is a prefix, everything dropped is whitespace, and the result does not end with whitespace. |
| Text.Trim | server/internal/domain/auth/handler.go:192 | Nothing is left exactly when the whole string is whitespace. |
| Text.TrimClean | sistem_test.py:68 | A string without whitespace at its ends is its own trim. |
| Text.TrimIdempotent | sistem_test.py:68 | Trimming twice is trimming once. |
| Text.TrimSlice | sistem_test.py:68 | The trim is a contiguous middle slice, and everything outside it is whitespace. |
| Text.Utf8Length | server/internal/domain/auth/handler.go:197 | The byte count lies between the number of characters and four times it. |
| Text.Utf16Length | client/src/pages/auth/AuthValidate.tsx:6 | The code-unit count lies between the number of characters and twice it. |
| Text.Utf8LengthAscii | server/internal/domain/auth/handler.go:197 | Bytes equal characters exactly for ASCII text. |
| Text.Utf16LengthBmp | client/src/pages/auth/AuthValidate.tsx:6 | Code units equal characters exactly when there is no supplementary-plane character. |
| Text.LengthsAppend | server/internal/domain/auth/handler.go:197 | Both lengths add up over concatenation. |
| RegisterValidation.BlankIsTrimmedEmpty | server/internal/domain/auth/handler.go:192 | "All Go whitespace" is the same as "`TrimSpace` gives the empty string". |
| RegisterValidation.ValidateRegisterRequest | server/internal/domain/auth/handler.go:188-275 | The errors are the specified list, and the list is empty exactly when the request satisfies every rule stated positively. |
| RegisterValidation.CheckUsername | server/internal/domain/auth/handler.go:191-202 | The block appends exactly the username errors. |
| RegisterValidation.CheckName | server/internal/domain/auth/handler.go:204-215 | The block appends exactly the name errors. |
| RegisterValidation.CheckPassword | server/internal/domain/auth/handler.go:217-228 | The block appends exactly the password errors. |
| RegisterValidation.CheckRole | server/internal/domain/auth/handler.go:230-241 | The block appends exactly the role errors. |
| RegisterValidation.CheckUniversity | server/internal/domain/auth/handler.go:243-272 | For students, the block appends exactly the four university checks' errors. |
| RegisterValidation.RegisterErrorsEmpty | server/internal/domain/auth/handler.go:188-275 | No errors exactly when the request is valid: non-blank fields within the byte bounds, an admin or student role, and a consistent university for students. |
| RegisterValidation.UniversityOrdered | server/internal/domain/auth/handler.go:244-257 | The university checks give at most one "university" error, because their two conditions exclude each other. |
| RegisterValidation.RegisterErrorsOrdered | server/internal/domain/auth/handler.go:188-275 | Errors come in field order, and no field is reported twice. |
| RegisterValidation.NonStudentNoUniversityErrors | server/internal/domain/auth/handler.go:244 | A non-student gets no university error. |
| RegisterValidation.ByteLengths | server/internal/domain/auth/handler.go:197 | Lengths are bytes: two two-byte letters pass the minimum of 3, and "ab" does not. |
| RegisterValidation.ValidationErrorsExample | server/internal/domain/auth/handler_test.go:337-361 | A short username, an empty name, a short password and an unknown role give exactly four errors, in that order. |
| RegisterValidation.ValidAdminExample | server/internal/domain/auth/handler_test.go:280-305 | An admin without a university is accepted. |
| RegisterValidation.AdminIsValid | server/internal/domain/auth/handler_test.go:280-305 | That admin request satisfies every rule. |
| JsNumber.DigitRun | client/src/pages/student/FormValidators.tsx:34 | The run is maximal: its characters are digits, and the next one is not. |
| JsNumber.ScanDecimal | client/src/pages/student/FormValidators.tsx:34 | A decimal literal at the front of the string is non-empty and lies inside the string. |
| JsNumber.ScanWithoutExponent | client/src/pages/student/FormValidators.tsx:34 | A mantissa with no exponent scans as its value. |
| JsNumber.ScanDigits | client/src/pages/student/FormValidators.tsx:34 | A run of digits with no fraction or exponent after it scans as its value. |
| JsNumber.ScanNothing | client/src/pages/student/FormValidators.tsx:34 | Text that starts with no digit, no ".digit" and no "Infinity" scans as no literal. |
| JsNumber.ScanFormatNat | client/src/pages/student/FormValidators.tsx:34 | A natural's digits scan as the number and take just the digits. |
| JsNumber.ScanFormatInt | client/src/pages/student/FormValidators.tsx:34 | A signed integer's text scans, all of it, as that integer. |
| JsNumber.ToNumberFormatInt | client/src/pages/student/FormValidators.tsx:34 | `Number(String(n))` is n for every integer. |
| JsNumber.ToNumberOfDecimal | client/src/pages/student/FormValidators.tsx:34 | A trimmed text without a radix prefix whose decimal scan covers it converts to that value. |
| JsNumber.ParseFloatPrefix | client/src/utils/attendanceFormat.ts:8 | `parseFloat` reads a leading integer and stops at the first character that cannot continue it. |
| JsNumber.ToNumberTrims | client/src/pages/student/FormValidators.tsx:34 | `Number` ignores surrounding whitespace, and a blank string is 0. |
| JsNumber.NonNumericIsNaN | client/src/pages/student/FormValidators.tsx:34 | Text starting with a character no literal can start with is NaN to both conversions. |
| JsNumber.ToNumber | client/src/pages/student/FormValidators.tsx:34 | Specification function with no contract of its own: `Number(s)`. It trims JavaScript whitespace, gives 0 for a blank string, reads a `0x`/`0o`/`0b` integer or a decimal literal that must cover the rest, and otherwise gives NaN. `ToNumberTrims`, `ToNumberFormatInt`, `ToNumberOfDecimal` and `NonNumericIsNaN` state its properties. |
| JsNumber.ParseFloat | client/src/utils/attendanceFormat.ts:8 | Specification function with no contract of its own: `parseFloat(s)`. It skips leading whitespace and reads the longest decimal-literal prefix, NaN when there is none. `ParseFloatPrefix` states its properties. |
| FormValidators.Issues | client/src/pages/student/FormValidators.tsx:3-31 | NaN yields just the type issue. Otherwise every issue is the min or the max message. |
| FormValidators.IssuesAtMostOne | client/src/pages/student/FormValidators.tsx:3-31 | With a non-negative maximum, at most one issue arises, and none exactly when the number is finite and in [0, max]. |
| FormValidators.ValidateMeaning | client/src/pages/student/FormValidators.tsx:33-67 | A value is accepted exactly in range. Otherwise the message names the failed check: type, min or max. |
| FormValidators.Validate | client/src/pages/student/FormValidators.tsx:33-67 | Specification function with no contract of its own: `Number` of the text, then the schema's issues; accepted when there is none, else the first issue's message. `ValidateMeaning` states what it accepts and which message it gives. |
| FormValidators.BlankAccepted | client/src/pages/student/FormValidators.tsx:34 | An empty or blank field converts to 0 and passes. |
| FormValidators.NonNumericRejected | client/src/pages/student/FormValidators.tsx:33-37 | Text that cannot start a number gets the "must be a number" message. |
| FormValidators.IntegerText | client/src/pages/student/FormValidators.tsx:33-67 | A typed whole number passes exactly when it is in [0, max], and gets the min or the max message otherwise. |
| FormValidators.ValidateGpa | client/src/pages/student/FormValidators.tsx:33-37 | GPA is accepted exactly in [0, 4]. Otherwise it gets the type, min or max message that applies. |
| FormValidators.ValidateAttendance | client/src/pages/student/FormValidators.tsx:39-43 | Attendance is accepted exactly in [0, 100], with the matching messages otherwise. |
| FormValidators.ValidateMidterm | client/src/pages/student/FormValidators.tsx:45-49 | The midterm score is accepted exactly in [0, 100], with the matching messages otherwise. |
| FormValidators.ValidateCoreCourse | client/src/pages/student/FormValidators.tsx:51-55 | The core course average is accepted exactly in [0, 100], with the matching messages otherwise. |
| FormValidators.ValidateProjectScore | client/src/pages/student/FormValidators.tsx:57-61 | The project score is accepted exactly in [0, 100], with the matching messages otherwise. |
| FormValidators.ValidateFinalExamScore | client/src/pages/student/FormValidators.tsx:63-67 | The final exam score is accepted exactly in [0, 100], with the matching messages otherwise. |
| AttendanceFormat.Hundredth | client/src/utils/attendanceFormat.ts:9 | Division by 100 keeps finiteness, multiplies back to the input, and passes NaN and the infinities through. |
| AttendanceFormat.Hundredfold | client/src/utils/attendanceFormat.ts:18 | Multiplication by 100 keeps finiteness, divides back to the input, and passes NaN and the infinities through. |
| AttendanceFormat.PercentageToDecimal | client/src/utils/attendanceFormat.ts:7-10 | A string is read with `parseFloat`, and a number is used as it is. The result is finite exactly when that number is, and a finite result times 100 gives it back. NaN and the infinities pass through. |
| AttendanceFormat.DecimalToPercentage | client/src/utils/attendanceFormat.ts:16-19 | A string is read with `parseFloat`, and a number is used as it is. The result is finite exactly when that number is, and a finite result divided by 100 gives it back. NaN and the infinities pass through. |
| AttendanceFormat.AttendanceForForm | client/src/utils/attendanceFormat.ts:25-27 | The number the form shows is finite exactly when the stored fraction is, and divided by 100 it gives the fraction back. NaN and the infinities pass through. `toString` is left out. |
| AttendanceFormat.ParseAttendanceForSubmit | client/src/utils/attendanceFormat.ts:33-35 | Specification function with no contract of its own: the empty field becomes "0" before `percentageToDecimal`. `SubmitDigits`, `SubmitEmpty` and `SubmitBlank` state what it submits. |
| AttendanceFormat.ConversionsInverse | client/src/utils/attendanceFormat.ts:7-19 | In exact arithmetic, the two conversions undo each other on every number, NaN and the infinities included. In doubles they need not: 0.57 × 100 is 56.99999999999999, and that divided by 100 is 0.5699999999999999. |
| AttendanceFormat.ConversionsMonotone | client/src/utils/attendanceFormat.ts:7-19 | Both conversions keep the order of finite values. |
| AttendanceFormat.PercentageInUnitRange | client/src/utils/attendanceFormat.ts:7-10 | A percentage in [0, 100] becomes a finite fraction in [0, 1]. |
| AttendanceFormat.FormRoundTrip | client/src/utils/attendanceFormat.ts:25-27 | In exact arithmetic, the percentage the form shows converts back to the stored fraction. In doubles 0.57 can come back as 0.5699999999999999. |
| AttendanceFormat.SubmitDigits | client/src/utils/attendanceFormat.ts:33-35 | A whole percentage typed as digits is submitted as n/100. |
| AttendanceFormat.SubmitEmpty | client/src/utils/attendanceFormat.ts:33-35 | The empty field is submitted as 0. |
| AttendanceFormat.SubmitBlank | client/src/utils/attendanceFormat.ts:33-35 | A field of blanks is not replaced by "0", and it submits NaN. |
| AuthValidate.StringIssues | client/src/pages/auth/AuthValidate.tsx:3-30 | Every failing length check gives one continuable issue on the field's path. There are none exactly when the string meets every minimum, and the first failing check comes first. |
| AuthValidate.ValidateUsername | client/src/pages/auth/AuthValidate.tsx:54-57 | A username is accepted exactly from 3 UTF-16 units. Empty gives "required", and a short one gives the minimum message. |
| AuthValidate.ValidatePassword | client/src/pages/auth/AuthValidate.tsx:59-62 | A password is accepted exactly from 6 units, with the required and minimum messages otherwise. |
| AuthValidate.ValidateName | client/src/pages/auth/AuthValidate.tsx:64-67 | A name is accepted exactly from 2 units, with the required and minimum messages otherwise. |
| AuthValidate.ValidateUniversityId | client/src/pages/auth/AuthValidate.tsx:69-72 | A university id is accepted exactly when non-empty; otherwise "Please select a university." |
| AuthValidate.ValidateUniversityName | client/src/pages/auth/AuthValidate.tsx:74-77 | A university name is accepted exactly from 2 units, with the required and minimum messages otherwise. |
| AuthValidate.ValidateUniversityAddress | client/src/pages/auth/AuthValidate.tsx:79-82 | An address is accepted exactly from 5 units, with the required and minimum messages otherwise. |
| AuthValidate.Masked | client/src/pages/auth/AuthValidate.tsx:85-90 | The form keeps the common fields. It keeps the id only in select mode, and the name and address only in create mode. |
| AuthValidate.ValidateRegisterForm | client/src/pages/auth/AuthValidate.tsx:84-105 | Success holds exactly when the masked data raises no issue, and the error record is the path → last-message fold of the issues. |
| AuthValidate.RecordKeys | client/src/pages/auth/AuthValidate.tsx:98-102 | The record has an entry for exactly the paths of the issues. |
| AuthValidate.RecordLastWins | client/src/pages/auth/AuthValidate.tsx:99-102 | The last issue on a path has the last word on that path. |
| AuthValidate.RecordAppendOther | client/src/pages/auth/AuthValidate.tsx:99-102 | Issues on other paths leave a path's entry alone. |
| AuthValidate.RegisterIssues | client/src/pages/auth/AuthValidate.tsx:32-52 | Specification function with no contract of its own: the field issues in declaration order, then the refinement's issue when the field issues let it run and no university is given. `FormAccepts` and `StoppingIssueSkipsRefinement` state its properties. |
| AuthValidate.RecordOf | client/src/pages/auth/AuthValidate.tsx:98-102 | Specification function with no contract of its own: the `forEach` fold in which each path maps to the message of its last issue. `RecordKeys`, `RecordLastWins` and `RecordAppendOther` state its properties. |
| AuthValidate.SuccessMeansNoErrors | client/src/pages/auth/AuthValidate.tsx:94-104 | Success and an empty record go together. |
| AuthValidate.FormAccepts | client/src/pages/auth/AuthValidate.tsx:32-52 | The form passes exactly when username, password and name are long enough, the role is "student", and a university is given in the active mode. |
| AuthValidate.ModeMasking | client/src/pages/auth/AuthValidate.tsx:40-47 | In select mode only the id counts. In create mode only the name together with the address counts. |
| AuthValidate.StoppingIssueSkipsRefinement | client/src/pages/auth/AuthValidate.tsx:32-52 | A missing string or a wrong role makes the parse fail, and the refinement is not run: no "university" entry. |
| AuthValidate.WrongRole | client/src/pages/auth/AuthValidate.tsx:36 | A role other than "student" is recorded under "role" with the literal's message. |
| AuthValidate.EmptyUsername | client/src/pages/auth/AuthValidate.tsx:3-6 | An empty username fails both checks, and the record keeps the later, minimum-length message. |
| AuthValidate.ShortUniversityNamePasses | client/src/pages/auth/AuthValidate.tsx:37-47 | The schema does not repeat the university-name minimum: a one-letter name passes the form but fails `validateUniversityName`. |
| StudentStatistics.Normalize | client/src/components/StudentStatistics.tsx:61-72 | A present user name, GPA, attendance, midterm, final, project or core figure is kept. A missing name becomes "-" and a missing figure 0. The category is the first present of `category`, `predikat`, `predicate` and `data.category`, in that order, or "-" when none is present. |
| StudentStatistics.GpaData | client/src/components/StudentStatistics.tsx:61-72 | No data gives no rows. Otherwise the rows are the records normalised one by one, in order. |
| StudentStatistics.UniversityNames | client/src/components/StudentStatistics.tsx:77 | Each record gives its university's name, or "-". |
| StudentStatistics.UniversityCount | client/src/components/StudentStatistics.tsx:75-79 | The loop's counts are the tally of the records' university names. This holds for names that are not `Object.prototype` properties (see "## Left out"). |
| StudentStatistics.Tally | client/src/components/StudentStatistics.tsx:75-79 | Specification function with no contract of its own: the counts after the names in order, each name adding 1 to its entry from 0. `TallyIsMultiset` states its meaning; the `Object.prototype` names are an exception, admitted under "## Left out". |
| StudentStatistics.TallyIsMultiset | client/src/components/StudentStatistics.tsx:75-79 | The model's tally has exactly the names seen as keys, and each count is the number of that name's occurrences. The source's plain `{}` agrees only for names that are not `Object.prototype` properties. |
| StudentStatistics.Mean | client/src/components/StudentStatistics.tsx:88-101 | Specification function with no contract of its own: the left-to-right sum of the column divided by its length, 0 with no students. `MeanWithin` states its bounds. |
| StudentStatistics.MeanWithin | client/src/components/StudentStatistics.tsx:88-101 | The mean of a non-empty column lies within any bounds of its values. |
| StudentStatistics.GpaColumn | client/src/components/StudentStatistics.tsx:96 | The column holds each row's GPA, in order. |
| StudentStatistics.Count | client/src/components/StudentStatistics.tsx:107 | A bucket count is at most the number of values. |
| StudentStatistics.Histogram | client/src/components/StudentStatistics.tsx:104-109 | There is one count per edge. Bucket i counts the values from its edge up to the next edge, or up to the top for the last bucket. |
| StudentStatistics.CountSplit | client/src/components/StudentStatistics.tsx:107 | Counting [a, c) is counting [a, b) plus [b, c). |
| StudentStatistics.HistogramTotal | client/src/components/StudentStatistics.tsx:104-109 | With ascending edges, the buckets together count each value in [first edge, top) exactly once. |
| StudentStatistics.OneBucket | client/src/components/StudentStatistics.tsx:104-109 | A value in range lands in exactly one bucket. |
| StudentStatistics.GpaHistogramTotal | client/src/components/StudentStatistics.tsx:104-109 | The GPA histogram adds up to the number of GPAs in [0, 4.01). |
| StudentStatistics.PerfectScoreInLastBucket | client/src/components/StudentStatistics.tsx:146-151 | A final score of exactly 100 lands in the last bucket only. |
| StudentStatistics.Insert | client/src/components/StudentStatistics.tsx:126 | Insertion adds one element and nothing foreign. |
| StudentStatistics.InsertSorted | client/src/components/StudentStatistics.tsx:126 | Insertion keeps the list sorted by decreasing GPA. |
| StudentStatistics.InsertPermutes | client/src/components/StudentStatistics.tsx:126 | Insertion adds exactly the one record. |
| StudentStatistics.SortByGpa | client/src/components/StudentStatistics.tsx:126 | The copy is sorted by decreasing GPA and is a permutation of the rows. |
| StudentStatistics.TopGpa | client/src/components/StudentStatistics.tsx:126 | The top list has min(10, n) rows, is sorted, and is a sub-multiset of the rows. |
| StudentStatistics.TopGpaIsTop | client/src/components/StudentStatistics.tsx:126 | The top ten and the rest make up all the rows, and no row left out has a higher GPA than a row kept. |
| StudentStatistics.StudentsAt | client/src/components/StudentStatistics.tsx:129-143 | Grouping by each record's own university gives as many students as there are records of that university. |
| StudentStatistics.AverageGpaMatchesCount | client/src/components/StudentStatistics.tsx:129-143 | With that grouping, each university's average covers exactly the students `universityCount` counts. |
| StudentStatistics.UniversityByName | client/src/components/StudentStatistics.tsx:131-133 | Specification function with no contract of its own: the university of the first record whose user name matches, "-" when none matches. It is the lookup the misfiling finding is about. |
| StudentStatistics.StudentsByNameLookup | client/src/components/StudentStatistics.tsx:129-136 | Specification function with no contract of its own, the as-written half of the misfiling finding: the students kept because the name lookup gives the university. `NameLookupMisfiles` exhibits two records it misfiles. |
| StudentStatistics.AverageGpaAsWritten | client/src/components/StudentStatistics.tsx:129-143 | Specification function with no contract of its own: the mean GPA over `StudentsByNameLookup`, the average as written. |
| StudentStatistics.AverageGpa | client/src/components/StudentStatistics.tsx:129-143 | Specification function with no contract of its own: the mean GPA over `StudentsAt`, the corrected average. `AverageGpaMatchesCount` states that it averages as many students as `universityCount` gives. |
| StudentStatistics.NameLookupMisfiles | client/src/components/StudentStatistics.tsx:130-135 | With two students named "A", one at U1 and one at U2, the name lookup leaves U2 with no student, though one record is at U2. |
| SystemTest.Canonical | sistem_test.py:70-79 | A match is one of the five canonical labels. |
| SystemTest.NormalizeLabel | sistem_test.py:65-80 | Non-strings come back unchanged. A string becomes a canonical label or its stripped self. |
| SystemTest.CanonicalOfVariant | sistem_test.py:70-79 | Each variant list leads to its own label, because the lists are disjoint. |
| SystemTest.VariantsMapped | sistem_test.py:65-80 | Every listed variant, with or without surrounding blanks, maps to its canonical label. |
| SystemTest.CanonicalFixed | sistem_test.py:65-80 | The canonical labels are their own normal form. |
| SystemTest.UnlistedStripped | sistem_test.py:67-80 | A string matching no variant comes back stripped. |
| SystemTest.UpperCaseIsNoVariant | sistem_test.py:70 | Matching is case-sensitive: "POOR" matches no variant. |
| SystemTest.NormalizeIdempotent | sistem_test.py:65-80 | Normalising twice is normalising once. |
| SystemTest.Column | sistem_test.py:207 | Column j holds `cm[i][j]` for each row i. |
| SystemTest.MetricsOf | sistem_test.py:204-211 | True positives are at most both totals. An empty total gives a 0 ratio, and a zero sum gives a 0 F1. |
| SystemTest.Ratio | sistem_test.py:209-210 | Specification function with no contract of its own: precision and recall, a count over its total, or 0 when the total is 0. `RatioInUnit` states its properties. |
| SystemTest.RatioInUnit | sistem_test.py:209-210 | A count over its total is in [0, 1], and it is 1 when the two are equal. |
| SystemTest.F1 | sistem_test.py:211 | Specification function with no contract of its own: `f1_score`, 2pr/(p + r), or 0 when p + r is 0. `F1Between` and `MetricsInUnit` state its properties. |
| SystemTest.F1Between | sistem_test.py:211 | F1 lies between the smaller and the larger of precision and recall. |
| SystemTest.MetricsInUnit | sistem_test.py:204-211 | All three figures are in [0, 1]. A class predicted exactly right scores 1 on all three. |
| SystemTest.PerClassReport | sistem_test.py:204-211 | The loop reports, for each class in order, that class's metrics. |
| CleanAscii.Replace | docs.py:5-6 | Replacement keeps the length and swaps exactly the given character. |
| CleanAscii.DropNonAscii | docs.py:7 | The result is all ASCII and no longer than the input. |
| CleanAscii.Clean | docs.py:4-7 | The output is plain ASCII and no longer than the input. |
| CleanAscii.CleanChar | docs.py:4-7 | One character becomes at most one ASCII character. |
| CleanAscii.CleanIsCharwise | docs.py:4-7 | The chain of replacements and the deletion act on each character on its own. |
| CleanAscii.Replacements | docs.py:5-7 | Dashes become "-", double quotes '"' and single quotes "'". Any other character above 0x7F is dropped. |
| CleanAscii.AsciiUnchanged | docs.py:4-7 | ASCII text is returned unchanged. |
| CleanAscii.CleanIdempotent | docs.py:4-7 | Cleaning twice is cleaning once. |
| DemoPipeline.Shoulder | main.py:65-71 | The shoulder is in [0, 1]: 1 up to its full point and 0 from its zero point. |
| DemoPipeline.Trapezoid | main.py:73-81 | The trapezoid is in [0, 1], 1 on its plateau, 0 outside, and linear on its rising side. |
| DemoPipeline.GpaLow | main.py:17-25 | GPA Low is 1 up to 1.8 and again at 2.0, and 0 above 2.2. |
| DemoPipeline.GpaLowJump | main.py:17-25 | GPA Low jumps: just below 2.0 it is eps/0.2, and at 2.0 it is 1. |
| DemoPipeline.FuzzifyGpa | main.py:12-49 | All degrees are in [0, 1]. Medium is full on [2.2, 3.0], and everything is 0 above 4. |
| DemoPipeline.FuzzifyCca | main.py:61-95 | All degrees are in [0, 1]. Medium is full on [65, 75], and everything is 0 above 100. |
| DemoPipeline.FuzzifyAttendance | main.py:97-131 | All degrees are in [0, 1]. Medium is full on [0.75, 0.85], and everything is 0 above 1. |
| DemoPipeline.FuzzifyMidterm | main.py:133-167 | All degrees are in [0, 1]. Medium is full on [70, 80], and everything is 0 above 100. |
| DemoPipeline.FuzzifyFinal | main.py:169-203 | All degrees are in [0, 1]. Medium is full on [70, 80], and everything is 0 above 100. |
| DemoPipeline.FuzzifyAll | main.py:206-210 | Every degree of the five inputs is in [0, 1]. |
| DemoPipeline.Inverse | main.py:231-256 | Specification function with no contract of its own: the five `inv_*` functions of `output_inv_funcs`. `InverseCorrect` states that each one inverts its output membership. |
| DemoPipeline.InverseCorrect | main.py:231-259 | Each inverse really inverts its output membership. A degree in [0, 1] lands in the category's unit stretch of z. |
| DemoPipeline.Activations | main.py:266-280 | `zs` has at most one entry per rule. |
| DemoPipeline.ActivationsEntries | main.py:274-277 | Every entry has a positive strength (at most 1 on unit degrees) and the inverse of that strength as z. |
| DemoPipeline.Firings | main.py:266-280 | `firing_strengths` numbers every rule from 1, with its strength and output. |
| DemoPipeline.FireRules | main.py:266-280 | The loop produces exactly `Firings` and `Activations`. |
| DemoPipeline.ActivationsSkip | main.py:275 | A rule that does not fire adds nothing. |
| DemoPipeline.ActivationsFire | main.py:275-277 | A rule that fires appends (alpha, inverse(alpha), output). |
| DemoPipeline.ActivationTerms | main.py:288-289 | Each entry becomes the term (alpha, z). |
| DemoPipeline.ScriptDefuzzValue | main.py:286-292 | Specification function with no contract of its own: `defuzz_value`, Σαz/Σα over the fired entries, or 0 when none fired. `DefuzzBetween` and `DefuzzRange` state its properties. |
| DemoPipeline.DefuzzBetween | main.py:286-292 | The defuzzified value lies between the least and the greatest z that fired. |
| DemoPipeline.DefuzzRange | main.py:286-292 | On unit degrees, a non-empty `zs` defuzzifies into [1, 6], and an empty one gives 0. |
| DemoPipeline.RoundHalfEven | main.py:346 | Python's `round` is within 0.5 of its argument, and halves go to the even neighbour. |
| DemoPipeline.ClampIndex | main.py:347 | The index is clamped into 1..5 and is the identity there. |
| DemoPipeline.PredictedLabel | main.py:344-351 | The no-rule message comes exactly when nothing fired. Otherwise the label is the category of the rounded, clamped value. |
| DemoPipeline.PredictionNearest | main.py:344-351 | The label names the category whose number is within 0.5 of the value, with clamping at Poor and Excellent. |
| DemoPipeline.DemoFuzzification | main.py:52-58 | The script's inputs fuzzify to the stated memberships. |
| DemoPipeline.DemoStrengths | main.py:221-227 | Of the five demo rules only the second fires, with strength 0.5, and it concludes Satisfactory. |
| DemoPipeline.OnlySecondFires | main.py:266-280 | When only the second of five rules fires, `zs` is just its entry. |
| DemoPipeline.DemoPrediction | main.py:286-351 | One entry (0.5, 3.5) defuzzifies to 3.5 and rounds to "Good". |
| DemoPipeline.DemoRun | main.py:52-351 | On the script's own inputs only the all-Medium rule fires, z = 3.5, and the label is "Good". |
| DemoPipeline.DeadGpaFiresNothing | main.py:266-277 | A metric with all three degrees 0 keeps every rule from firing. |
| DemoPipeline.ReportAsWritten | main.py:286-298 | Specification function with no contract of its own, the as-written half of the `main.py` finding: the report's three numbers when some rule fired, and None for the NameError otherwise. `ReportFailsAboveTopGpa` exhibits inputs that reach None. |
| DemoPipeline.ReportFailsAboveTopGpa | main.py:286-298 | A GPA above 4 fires no rule, so the report line fails. |
| DemoPipeline.Report | main.py:286-298 | The corrected report prints the defuzzified value, gives zeros when nothing fired, and agrees with the script whenever something fired. |

## Left out

- Floating point: every figure is a mathematical real. IEEE rounding, overflow to infinity and `NaN` arithmetic beyond the cases the conversions pass through are not modelled.
- JsNumber.ToNumber: JavaScript's conversion of very long digit strings to the nearest double is not modelled; values are exact reals. Only integer texts and the scanner's building blocks are proved; decimal fractions and exponents are defined but no lemma covers them.
- AttendanceFormat.AttendanceForForm: `toString` is not modelled; the model returns the number the form would render.
- zod inputs other than strings or an absent value (numbers, objects, `null`) are not modelled, and the issue paths are single keys.
- Go map iteration order: loops over maps visit the keys in an order the model leaves open, so each loop's contract holds for every order.
- The HTTP layer: routing, JSON encoding and the database query are left out. The lookup of an academic record is a parameter of `FuzzyByUserID`, and its response is a value.
- Text: strings are sequences of Unicode scalar values. Invalid UTF-8 in Go strings and lone surrogates in JavaScript strings are not modelled.
- RegisterValidation.ValidateRegisterRequest: the Go function is one body. The model splits it into one method per commented block, and each block method appends exactly what that block appends.
- Rendering: the charts, the tooltips, the matplotlib plot of `main.py`, and the PDF writing of `docs.py` and `main.py` are left out. So are the printed text and the `toFixed` formatting.
- StudentStatistics.Mean: `toFixed(2)` and the `Number(...)` round trip of the averages are not modelled. The radar data and bucket range labels are not modelled either.
- StudentStatistics.UniversityCount: the order of `Object.entries` is not modelled; the result is a map.
- StudentStatistics.UniversityCount: university names equal to `Object.prototype` properties are not modelled. The source counts into a plain `{}`. A name such as "constructor" or "toString" reads the inherited function, so its entry becomes a string like "function Object() { [native code] }1", not 1. A name "__proto__" is never stored, so `Object.entries` leaves it out and the counts no longer add up to the number of records. The model counts every name, these included, as an ordinary key.
- StudentStatistics.TallyIsMultiset: the counts are stated per name as multiplicities, not as a sum over the record. They match the source only for names that are not `Object.prototype` properties, as the `UniversityCount` line above explains.
- StudentStatistics.TopGpa: the stability of `Array.prototype.sort` among equal GPAs is not stated. Only sortedness, membership and the top-ten property are stated.
- SystemTest.UpperCaseIsNoVariant: it states only that "POOR" matches no variant. That such a string then comes back stripped is `SystemTest.UnlistedStripped`.
- The CSV reading, the HTTP calls, the confusion-matrix plot and the accuracy figure of `sistem_test.py` (`test_system_accuracy`) are left out, as is `accuracy.py`. Only the per-class figures are modelled.
- The `docs.py` file list and its PDF layout are left out; only `clean_ascii` is modelled.

## Findings

| source | as written | input that shows it | evidently intended | confidence | as-written member | corrected member |
|---|---|---|---|---|---|---|
| main.py:286-298 | `sum_num` and `sum_den` are bound only when some rule fired, but line 298 prints them unconditionally | a GPA of 4.5 with any other inputs: no rule fires, and the report raises a NameError before line 351's "no active rule" label | both sums start at 0, so the report prints zeros and the prediction reaches the "no active rule" label | not executed | DemoPipeline.ReportFailsAboveTopGpa | DemoPipeline.Report |
| client/src/components/StudentStatistics.tsx:129-143 | each student's university is looked up through the first record with the same user name | two students both named "A", one at U1 and one at U2: both are averaged under U1, and U2 averages over no one although `universityCount` gives it 1 | group each record under its own university | not executed | StudentStatistics.NameLookupMisfiles | StudentStatistics.AverageGpaMatchesCount |
