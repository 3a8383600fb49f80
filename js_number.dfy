/**
 * The two ECMAScript string-to-number conversions the client uses: `Number(s)`
 * (section 7.1.4.1.1 of ECMA-262, StringToNumber), which needs the whole trimmed
 * string to be a numeric literal, and `parseFloat(s)` (section 19.2.4), which reads
 * the longest decimal-literal prefix after leading whitespace. Values are exact
 * reals; an IEEE double's rounding and overflow are not modelled.
 */
module JsNumber {
  import opened Wrappers
  import opened Text
  import opened GoStrconv

  /** A JavaScript number: a finite value, one of the infinities, or NaN. */
  datatype Number = Finite(value: real) | PosInfinity | NegInfinity | NaN

  function Pow10(n: nat): (p: nat)
    ensures p >= 1
  {
    if n == 0 then 1 else 10 * Pow10(n - 1)
  }

  /** `x * 10^e` for an exponent of either sign. */
  function Scale(x: real, e: int): real
  {
    if e >= 0 then x * Pow10(e) as real else x / Pow10(-e) as real
  }

  /** The length of the run of decimal digits of `s` starting at `i`. */
  function DigitRun(s: string, i: nat): (n: nat)
    requires i <= |s|
    ensures i + n <= |s|
    ensures forall k :: i <= k < i + n ==> IsDigit(s[k])
    ensures i + n == |s| || !IsDigit(s[i + n])
    decreases |s| - i
  {
    if i < |s| && IsDigit(s[i]) then 1 + DigitRun(s, i + 1) else 0
  }

  /** A literal scanned from the front of a string: its value and how many characters it took. */
  datatype Scan = Scan(value: Number, length: nat)

  /** An ExponentPart at `m` (`e` or `E`, a sign, digits): its exponent and where it ends; none gives (0, m). */
  function ExponentPart(s: string, m: nat): (r: (int, nat))
    requires m <= |s|
    ensures m <= r.1 <= |s|
  {
    if m < |s| && (s[m] == 'e' || s[m] == 'E') then
      var p := m + 1;
      var negative := p < |s| && s[p] == '-';
      var q := if p < |s| && (s[p] == '-' || s[p] == '+') then p + 1 else p;
      var c := DigitRun(s, q);
      if c == 0 then (0, m)
      else
        var e: int := DigitsValue(s[q..q + c]);
        (if negative then -e else e, q + c)
    else (0, m)
  }

  /** The value of the digits after a decimal point. */
  function FractionValue(f: string): (x: real)
    requires AllDigits(f)
    ensures 0.0 <= x
  {
    DigitsValue(f) as real / Pow10(|f|) as real
  }

  /**
   * The mantissa at the front of `s` (digits, then optionally a point and more
   * digits, with at least one digit in all): its value and where it ends.
   */
  function ScanMantissa(s: string): (r: Option<(real, nat)>)
    ensures r.Some? ==> 0 < r.value.1 <= |s|
  {
    var a := DigitRun(s, 0);
    if a < |s| && s[a] == '.' then
      var b := DigitRun(s, a + 1);
      if a + b == 0 then None
      else Some((DigitsValue(s[..a]) as real + FractionValue(s[a + 1..a + 1 + b]), a + 1 + b))
    else if a == 0 then None
    else Some((DigitsValue(s[..a]) as real, a))
  }

  predicate InfinityAt(s: string)
  {
    |s| >= 8 && s[..8] == "Infinity"
  }

  /** The longest StrUnsignedDecimalLiteral at the front of `s`, if any. */
  function ScanUnsigned(s: string): (r: Option<Scan>)
    ensures r.Some? ==> 0 < r.value.length <= |s|
  {
    if InfinityAt(s) then Some(Scan(PosInfinity, 8))
    else
      match ScanMantissa(s)
      case None => None
      case Some(mantissa) =>
        var exponent := ExponentPart(s, mantissa.1);
        Some(Scan(Finite(Scale(mantissa.0, exponent.0)), exponent.1))
  }

  function Negate(n: Number): Number
  {
    match n
    case Finite(v) => Finite(-v)
    case PosInfinity => NegInfinity
    case NegInfinity => PosInfinity
    case NaN => NaN
  }

  /** The longest StrDecimalLiteral (an optional sign, then an unsigned literal) at the front of `s`. */
  function ScanDecimal(s: string): (r: Option<Scan>)
    ensures r.Some? ==> 0 < r.value.length <= |s|
  {
    if s != [] && (s[0] == '+' || s[0] == '-') then
      match ScanUnsigned(s[1..])
      case None => None
      case Some(sc) => Some(Scan(if s[0] == '-' then Negate(sc.value) else sc.value, sc.length + 1))
    else ScanUnsigned(s)
  }

  /** The radix a `0x`, `0o` or `0b` prefix letter selects; 0 for any other character. */
  function Radix(c: char): nat
  {
    if c == 'x' || c == 'X' then 16 else if c == 'o' || c == 'O' then 8 else if c == 'b' || c == 'B' then 2 else 0
  }

  /** The value of a hexadecimal digit; 16 for a character that is none. */
  function HexDigit(c: char): (d: nat)
    ensures d <= 16
  {
    if '0' <= c <= '9' then c as int - '0' as int
    else if 'a' <= c <= 'f' then c as int - 'a' as int + 10
    else if 'A' <= c <= 'F' then c as int - 'A' as int + 10
    else 16
  }

  /** The value of a non-empty run of digits in the radix, or None. */
  function RadixValue(s: string, radix: nat): Option<nat>
  {
    if s == [] || HexDigit(s[|s| - 1]) >= radix then None
    else if |s| == 1 then Some(HexDigit(s[0]))
    else match RadixValue(s[..|s| - 1], radix)
      case None => None
      case Some(v) => Some(v * radix + HexDigit(s[|s| - 1]))
  }

  /**
   * `Number(s)`: surrounding whitespace is ignored, the empty string is 0, a
   * `0x`/`0o`/`0b` integer or a decimal literal must cover all the rest; else NaN.
   */
  function ToNumber(s: string): Number
  {
    var t := Trim(s, JsSpace);
    if t == [] then Finite(0.0)
    else if |t| >= 2 && t[0] == '0' && Radix(t[1]) > 0 then
      match RadixValue(t[2..], Radix(t[1]))
      case Some(v) => Finite(v as real)
      case None => NaN
    else
      match ScanDecimal(t)
      case Some(sc) => if sc.length == |t| then sc.value else NaN
      case None => NaN
  }

  /** `parseFloat(s)`: leading whitespace is skipped and the longest decimal-literal prefix is read; none gives NaN. */
  function ParseFloat(s: string): Number
  {
    match ScanDecimal(TrimStart(s, JsSpace))
    case Some(sc) => sc.value
    case None => NaN
  }

  lemma {:induction false} DigitRunAll(s: string, i: nat)
    requires i <= |s| && AllDigits(s)
    ensures DigitRun(s, i) == |s| - i
    decreases |s| - i
  {
    if i < |s| {
      DigitRunAll(s, i + 1);
    }
  }

  /** A mantissa with no exponent after it scans as its value. */
  lemma ScanWithoutExponent(s: string, x: real, m: nat)
    requires !InfinityAt(s) && ScanMantissa(s) == Some((x, m)) && ExponentPart(s, m) == (0, m)
    ensures ScanUnsigned(s) == Some(Scan(Finite(x), m))
  {
    assert Scale(x, 0) == x;
  }

  /** A run of digits with no fraction and no exponent after it scans as its value. */
  lemma ScanDigits(s: string, a: nat)
    requires 0 < a <= |s| && AllDigits(s[..a])
    requires a == |s| || !(IsDigit(s[a]) || s[a] == '.')
    requires ExponentPart(s, a) == (0, a)
    ensures ScanUnsigned(s) == Some(Scan(Finite(DigitsValue(s[..a]) as real), a))
  {
    assert IsDigit(s[..a][0]) && s[..a][0] == s[0];
    assert DigitRun(s, 0) == a;
    ScanWithoutExponent(s, DigitsValue(s[..a]) as real, a);
  }

  /** No digits before what is not a point followed by a digit, and no `Infinity`: no literal. */
  lemma ScanNothing(s: string)
    requires s != [] && !IsDigit(s[0]) && s[0] != 'I'
    requires s[0] == '.' ==> |s| == 1 || !IsDigit(s[1])
    ensures ScanUnsigned(s) == None
  {
    assert DigitRun(s, 0) == 0;
    if s[0] == '.' && |s| > 1 {
      assert DigitRun(s, 1) == 0;
    }
  }

  /** A natural number's decimal digits scan as that number, taking just the digits. */
  lemma ScanFormatNat(n: nat, rest: string)
    requires rest == [] || !(IsDigit(rest[0]) || rest[0] == '.' || rest[0] == 'e' || rest[0] == 'E')
    ensures ScanUnsigned(FormatNat(n) + rest) == Some(Scan(Finite(n as real), |FormatNat(n)|))
  {
    var d := FormatNat(n);
    var s := d + rest;
    assert s[..|d|] == d;
    if |d| < |s| {
      assert s[|d|] == rest[0];
    }
    assert ExponentPart(s, |d|) == (0, |d|);
    ScanDigits(s, |d|);
    FormatNatValue(n);
  }

  /** The digits of `FormatNat` are clean of whitespace at both ends. */
  lemma FormatNatUntrimmed(n: nat)
    ensures Trim(FormatNat(n), JsSpace) == FormatNat(n)
  {
    var d := FormatNat(n);
    assert IsDigit(d[0]) && IsDigit(d[|d| - 1]);
    TrimClean(d, JsSpace);
  }

  /** The decimal scan of a signed integer's text covers all of it. */
  lemma ScanFormatInt(n: int)
    ensures ScanDecimal(FormatInt(n)) == Some(Scan(Finite(n as real), |FormatInt(n)|))
  {
    var s := FormatInt(n);
    if n < 0 {
      assert s[1..] == FormatNat(-n) + [];
      ScanFormatNat(-n, []);
    } else {
      assert s == FormatNat(n) + [];
      assert IsDigit(s[0]);
      ScanFormatNat(n, []);
    }
  }

  /** `Number(String(n))` is `n` for every integer. */
  lemma ToNumberFormatInt(n: int)
    ensures ToNumber(FormatInt(n)) == Finite(n as real)
  {
    var s := FormatInt(n);
    FormatIntUntrimmed(n);
    ScanFormatInt(n);
    ToNumberOfDecimal(s, Finite(n as real));
  }

  /** The text of an integer has no whitespace at either end, and a digit or nothing after its first character. */
  lemma FormatIntUntrimmed(n: int)
    ensures FormatInt(n) != [] && Trim(FormatInt(n), JsSpace) == FormatInt(n)
    ensures |FormatInt(n)| >= 2 ==> IsDigit(FormatInt(n)[1])
  {
    var s := FormatInt(n);
    if n < 0 {
      var d := FormatNat(-n);
      assert s[1..] == d;
      assert s[1] == d[0];
      assert IsDigit(d[|d| - 1]) && s[|s| - 1] == d[|d| - 1];
      TrimClean(s, JsSpace);
    } else {
      FormatNatUntrimmed(n);
      if |s| >= 2 {
        assert IsDigit(s[1]);
      }
    }
  }

  /** A text with no surrounding whitespace and no radix prefix whose decimal scan covers it is its scanned value. */
  lemma ToNumberOfDecimal(t: string, v: Number)
    requires t != [] && Trim(t, JsSpace) == t
    requires |t| >= 2 ==> IsDigit(t[1])
    requires ScanDecimal(t) == Some(Scan(v, |t|))
    ensures ToNumber(t) == v
  {
    if |t| >= 2 {
      assert Radix(t[1]) == 0;
    }
  }

  /** `parseFloat` reads a leading integer and stops at the first character that cannot continue it. */
  lemma ParseFloatPrefix(n: nat, rest: string)
    requires rest == [] || !(IsDigit(rest[0]) || rest[0] == '.' || rest[0] == 'e' || rest[0] == 'E')
    ensures ParseFloat(FormatNat(n) + rest) == Finite(n as real)
  {
    var s := FormatNat(n) + rest;
    assert IsDigit(s[0]);
    TrimStartOfClean(s, JsSpace);
    ScanFormatNat(n, rest);
  }

  /** `Number` ignores surrounding whitespace, and a blank string is 0. */
  lemma ToNumberTrims(s: string)
    ensures ToNumber(Trim(s, JsSpace)) == ToNumber(s)
    ensures (forall i :: 0 <= i < |s| ==> JsSpace(s[i])) ==> ToNumber(s) == Finite(0.0)
  {
    TrimIdempotent(s, JsSpace);
  }

  /** A string that starts with a character no numeric literal can start with is NaN to both conversions. */
  lemma NonNumericIsNaN(s: string)
    requires s != [] && !JsSpace(s[0]) && !IsDigit(s[0]) && s[0] !in "+-.I"
    ensures ToNumber(s) == NaN && ParseFloat(s) == NaN
  {
    TrimStartOfClean(s, JsSpace);
    var t := Trim(s, JsSpace);
    assert t != [] && t[0] == s[0];
    ScanNothing(s);
    ScanNothing(t);
  }
}
