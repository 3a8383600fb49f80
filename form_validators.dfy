/**
 * The student-data form's range validators (client/src/pages/student/FormValidators.tsx).
 * Each converts the field's text with `Number` and checks it against a zod number
 * schema: a type check that rejects NaN (and so aborts), then an inclusive minimum
 * of 0 and an inclusive maximum. A validator answers `true` or the message of the
 * first issue. The file imports plain `"zod"`, read here as zod 3: the type
 * check's message is the schema's `invalid_type_error`, NaN aborts the run, and
 * the infinities pass `number()` itself and fail only `min` or `max`.
 */
module FormValidators {
  import opened Text
  import opened GoStrconv
  import opened JsNumber

  /** A `z.number().min(0, ..).max(max, ..)` schema with its three messages. */
  datatype Schema = Schema(max: real, typeMessage: string, minMessage: string, maxMessage: string)

  /** What a validator returns: `true`, or the message to show. */
  datatype Verdict = Accepted | Rejected(message: string)

  const GpaSchema := Schema(4.0, "GPA must be a number", "GPA cannot be less than 0", "GPA cannot be more than 4")
  const AttendanceSchema := Schema(100.0, "Attendance rate must be a number",
    "Attendance rate cannot be less than 0", "Attendance rate cannot be more than 100")
  const MidtermSchema := Schema(100.0, "Midterm Exam Score must be a number",
    "Midterm Exam Score cannot be less than 0", "Midterm Exam Score cannot be more than 100")
  const CoreCourseSchema := Schema(100.0, "Core Course Average must be a number",
    "Core Course Average cannot be less than 0", "Core Course Average cannot be more than 100")
  const ProjectScoreSchema := Schema(100.0, "Project Score must be a number",
    "Project Score cannot be less than 0", "Project Score cannot be more than 100")
  const FinalExamScoreSchema := Schema(100.0, "Final Exam Score must be a number",
    "Final Exam Score cannot be less than 0", "Final Exam Score cannot be more than 100")

  predicate Below(n: Number, bound: real)
  {
    n.NegInfinity? || (n.Finite? && n.value < bound)
  }

  predicate Above(n: Number, bound: real)
  {
    n.PosInfinity? || (n.Finite? && n.value > bound)
  }

  /** The issues `safeParse` reports, in order: a NaN stops at the type issue, otherwise each failed bound adds one. */
  function Issues(schema: Schema, n: Number): (issues: seq<string>)
    ensures n.NaN? ==> issues == [schema.typeMessage]
    ensures !n.NaN? ==> forall i :: 0 <= i < |issues| ==> issues[i] in {schema.minMessage, schema.maxMessage}
  {
    if n.NaN? then [schema.typeMessage]
    else (if Below(n, 0.0) then [schema.minMessage] else []) + (if Above(n, schema.max) then [schema.maxMessage] else [])
  }

  /** `safeParse(Number(value))`, then `true` on success or the first issue's message. */
  function Validate(schema: Schema, value: string): Verdict
  {
    var issues := Issues(schema, ToNumber(value));
    if issues == [] then Accepted else Rejected(issues[0])
  }

  /** A number passes a schema exactly when it is finite and within [0, max]. */
  predicate InRange(n: Number, max: real)
  {
    n.Finite? && 0.0 <= n.value <= max
  }

  /** With a non-negative maximum at most one bound fails, so the first issue is the only one. */
  lemma IssuesAtMostOne(schema: Schema, n: Number)
    requires 0.0 <= schema.max
    ensures |Issues(schema, n)| <= 1
    ensures Issues(schema, n) == [] <==> InRange(n, schema.max)
  {
  }

  /** Accepted exactly in range; otherwise the message names the failed check. */
  lemma ValidateMeaning(schema: Schema, value: string)
    requires 0.0 <= schema.max
    ensures Validate(schema, value) == Accepted <==> InRange(ToNumber(value), schema.max)
    ensures ToNumber(value).NaN? ==> Validate(schema, value) == Rejected(schema.typeMessage)
    ensures Below(ToNumber(value), 0.0) ==> Validate(schema, value) == Rejected(schema.minMessage)
    ensures Above(ToNumber(value), schema.max) ==> Validate(schema, value) == Rejected(schema.maxMessage)
  {
    IssuesAtMostOne(schema, ToNumber(value));
  }

  /** The empty or all-blank field converts to 0 and so passes every schema. */
  lemma BlankAccepted(schema: Schema, value: string)
    requires 0.0 <= schema.max
    requires forall i :: 0 <= i < |value| ==> JsSpace(value[i])
    ensures Validate(schema, value) == Accepted
  {
    ToNumberTrims(value);
    var n := ToNumber(value);
    assert n == Finite(0.0);
    assert Issues(schema, n) == [];
  }

  /** Text that cannot start a number gets the schema's "must be a number" message. */
  lemma NonNumericRejected(schema: Schema, value: string)
    requires value != [] && !JsSpace(value[0]) && !IsDigit(value[0]) && value[0] !in "+-.I"
    ensures Validate(schema, value) == Rejected(schema.typeMessage)
  {
    NonNumericIsNaN(value);
  }

  /** A whole number typed in decimal passes exactly when it is within [0, max]. */
  lemma IntegerText(schema: Schema, n: int)
    requires 0.0 <= schema.max
    ensures Validate(schema, FormatInt(n)) == Accepted <==> 0.0 <= n as real <= schema.max
    ensures n < 0 ==> Validate(schema, FormatInt(n)) == Rejected(schema.minMessage)
    ensures n as real > schema.max ==> Validate(schema, FormatInt(n)) == Rejected(schema.maxMessage)
  {
    ToNumberFormatInt(n);
    ValidateMeaning(schema, FormatInt(n));
  }

  function ValidateGpa(value: string): (r: Verdict)
    ensures r == Accepted <==> InRange(ToNumber(value), 4.0)
    ensures Below(ToNumber(value), 0.0) ==> r == Rejected("GPA cannot be less than 0")
    ensures Above(ToNumber(value), 4.0) ==> r == Rejected("GPA cannot be more than 4")
    ensures ToNumber(value).NaN? ==> r == Rejected("GPA must be a number")
  {
    ValidateMeaning(GpaSchema, value);
    Validate(GpaSchema, value)
  }

  function ValidateAttendance(value: string): (r: Verdict)
    ensures r == Accepted <==> InRange(ToNumber(value), 100.0)
    ensures Below(ToNumber(value), 0.0) ==> r == Rejected("Attendance rate cannot be less than 0")
    ensures Above(ToNumber(value), 100.0) ==> r == Rejected("Attendance rate cannot be more than 100")
    ensures ToNumber(value).NaN? ==> r == Rejected("Attendance rate must be a number")
  {
    ValidateMeaning(AttendanceSchema, value);
    Validate(AttendanceSchema, value)
  }

  function ValidateMidterm(value: string): (r: Verdict)
    ensures r == Accepted <==> InRange(ToNumber(value), 100.0)
    ensures Below(ToNumber(value), 0.0) ==> r == Rejected("Midterm Exam Score cannot be less than 0")
    ensures Above(ToNumber(value), 100.0) ==> r == Rejected("Midterm Exam Score cannot be more than 100")
    ensures ToNumber(value).NaN? ==> r == Rejected("Midterm Exam Score must be a number")
  {
    ValidateMeaning(MidtermSchema, value);
    Validate(MidtermSchema, value)
  }

  function ValidateCoreCourse(value: string): (r: Verdict)
    ensures r == Accepted <==> InRange(ToNumber(value), 100.0)
    ensures Below(ToNumber(value), 0.0) ==> r == Rejected("Core Course Average cannot be less than 0")
    ensures Above(ToNumber(value), 100.0) ==> r == Rejected("Core Course Average cannot be more than 100")
    ensures ToNumber(value).NaN? ==> r == Rejected("Core Course Average must be a number")
  {
    ValidateMeaning(CoreCourseSchema, value);
    Validate(CoreCourseSchema, value)
  }

  function ValidateProjectScore(value: string): (r: Verdict)
    ensures r == Accepted <==> InRange(ToNumber(value), 100.0)
    ensures Below(ToNumber(value), 0.0) ==> r == Rejected("Project Score cannot be less than 0")
    ensures Above(ToNumber(value), 100.0) ==> r == Rejected("Project Score cannot be more than 100")
    ensures ToNumber(value).NaN? ==> r == Rejected("Project Score must be a number")
  {
    ValidateMeaning(ProjectScoreSchema, value);
    Validate(ProjectScoreSchema, value)
  }

  function ValidateFinalExamScore(value: string): (r: Verdict)
    ensures r == Accepted <==> InRange(ToNumber(value), 100.0)
    ensures Below(ToNumber(value), 0.0) ==> r == Rejected("Final Exam Score cannot be less than 0")
    ensures Above(ToNumber(value), 100.0) ==> r == Rejected("Final Exam Score cannot be more than 100")
    ensures ToNumber(value).NaN? ==> r == Rejected("Final Exam Score must be a number")
  {
    ValidateMeaning(FinalExamScoreSchema, value);
    Validate(FinalExamScoreSchema, value)
  }
}
