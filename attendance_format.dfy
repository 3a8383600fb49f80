/**
 * The attendance conversions between the form, which shows a percentage, and the
 * server, which stores a fraction in [0, 1] (client/src/utils/attendanceFormat.ts).
 * A string argument goes through `parseFloat`, a number is used as it is; then the
 * value is divided or multiplied by 100 with JavaScript's rules for NaN and the
 * infinities.
 */
module AttendanceFormat {
  import opened Text
  import opened GoStrconv
  import opened JsNumber

  /** The `string | number` argument of the conversions. */
  datatype Input = Text(text: string) | Num(number: Number)

  function AsNumber(x: Input): Number
  {
    match x
    case Text(s) => ParseFloat(s)
    case Num(n) => n
  }

  /** JavaScript `n / 100`. */
  function Hundredth(n: Number): (r: Number)
    ensures n.Finite? <==> r.Finite?
    ensures n.Finite? ==> r.value * 100.0 == n.value
    ensures !n.Finite? ==> r == n
  {
    if n.Finite? then Finite(n.value / 100.0) else n
  }

  /** JavaScript `n * 100`. */
  function Hundredfold(n: Number): (r: Number)
    ensures n.Finite? <==> r.Finite?
    ensures n.Finite? ==> r.value / 100.0 == n.value
    ensures !n.Finite? ==> r == n
  {
    if n.Finite? then Finite(n.value * 100.0) else n
  }

  /** `percentageToDecimal`: the argument read as a number, then divided by 100. */
  function PercentageToDecimal(percentage: Input): (r: Number)
    ensures AsNumber(percentage).Finite? <==> r.Finite?
    ensures r.Finite? ==> r.value * 100.0 == AsNumber(percentage).value
    ensures !r.Finite? ==> r == AsNumber(percentage)
  {
    Hundredth(AsNumber(percentage))
  }

  /** `decimalToPercentage`: the argument read as a number, then multiplied by 100. */
  function DecimalToPercentage(decimal: Input): (r: Number)
    ensures AsNumber(decimal).Finite? <==> r.Finite?
    ensures r.Finite? ==> r.value / 100.0 == AsNumber(decimal).value
    ensures !r.Finite? ==> r == AsNumber(decimal)
  {
    Hundredfold(AsNumber(decimal))
  }

  /** The number `formatAttendanceForForm` renders; its `toString` is not modelled. */
  function AttendanceForForm(value: Number): (r: Number)
    ensures value.Finite? <==> r.Finite?
    ensures r.Finite? ==> r.value / 100.0 == value.value
    ensures !r.Finite? ==> r == value
  {
    DecimalToPercentage(Num(value))
  }

  /** The empty field is submitted as "0". */
  function ParseAttendanceForSubmit(value: string): Number
  {
    PercentageToDecimal(Text(if value == "" then "0" else value))
  }

  /** The two conversions undo each other on numbers, including NaN and the infinities. */
  lemma {:induction false} ConversionsInverse(n: Number)
    ensures PercentageToDecimal(Num(DecimalToPercentage(Num(n)))) == n
    ensures DecimalToPercentage(Num(PercentageToDecimal(Num(n)))) == n
  {
  }

  /** Both conversions keep the order of finite values. */
  lemma ConversionsMonotone(a: real, b: real)
    requires a <= b
    ensures PercentageToDecimal(Num(Finite(a))).value <= PercentageToDecimal(Num(Finite(b))).value
    ensures DecimalToPercentage(Num(Finite(a))).value <= DecimalToPercentage(Num(Finite(b))).value
  {
  }

  /** A percentage in [0, 100], the attendance validator's range, becomes a fraction in [0, 1]. */
  lemma PercentageInUnitRange(p: real)
    requires 0.0 <= p <= 100.0
    ensures PercentageToDecimal(Num(Finite(p))).Finite?
    ensures 0.0 <= PercentageToDecimal(Num(Finite(p))).value <= 1.0
  {
  }

  /** The form shows a stored fraction as a percentage that converts back to the same fraction. */
  lemma FormRoundTrip(value: Number)
    ensures PercentageToDecimal(Num(AttendanceForForm(value))) == value
  {
    ConversionsInverse(value);
  }

  /** A whole percentage typed as digits is submitted as that many hundredths. */
  lemma SubmitDigits(n: nat)
    ensures ParseAttendanceForSubmit(FormatNat(n)) == Finite(n as real / 100.0)
  {
    ParseFloatPrefix(n, []);
    assert FormatNat(n) + [] == FormatNat(n);
  }

  /** The empty field is submitted as 0, like the digit "0". */
  lemma SubmitEmpty()
    ensures ParseAttendanceForSubmit("") == Finite(0.0)
  {
    SubmitDigits(0);
    assert FormatNat(0) == "0";
  }

  /** Unlike the empty field, a field of blanks is not replaced and submits NaN. */
  lemma SubmitBlank(value: string)
    requires value != [] && forall i :: 0 <= i < |value| ==> JsSpace(value[i])
    ensures ParseAttendanceForSubmit(value) == NaN
  {
    TrimStartSkips(value, |value|, JsSpace);
    assert DigitRun([], 0) == 0;
  }
}
