/**
 * Go's `strconv.Atoi` on a path segment, as the `/fuzzy/{id}` handler uses it
 * (fuzzy/handler.go line 31): an optional '+' or '-', then one or more ASCII
 * digits, whose value must fit a 64-bit `int`. Anything else is an error.
 * `FormatInt` (decimal `strconv.Itoa`) is its partner.
 */
module GoStrconv {
  import opened Wrappers

  const MinInt64: int := -0x8000_0000_0000_0000
  const MaxInt64: int := 0x7FFF_FFFF_FFFF_FFFF

  predicate IsDigit(c: char)
  {
    '0' <= c <= '9'
  }

  predicate AllDigits(s: string)
  {
    forall i :: 0 <= i < |s| ==> IsDigit(s[i])
  }

  function DigitValue(c: char): (d: nat)
    requires IsDigit(c)
    ensures d < 10
  {
    (c as int) - ('0' as int)
  }

  function DigitChar(d: nat): (c: char)
    requires d < 10
    ensures IsDigit(c) && DigitValue(c) == d
  {
    ('0' as int + d) as char
  }

  /** The value of a run of decimal digits, most significant first (`n = n*10 + ch`). */
  function DigitsValue(s: string): nat
    requires AllDigits(s)
  {
    if s == [] then 0 else DigitsValue(s[..|s| - 1]) * 10 + DigitValue(s[|s| - 1])
  }

  /** The digits after an optional leading sign. */
  function Unsigned(s: string): (u: string)
    ensures |u| <= |s|
  {
    if |s| > 0 && (s[0] == '-' || s[0] == '+') then s[1..] else s
  }

  function Atoi(s: string): (r: Option<int>)
    ensures r.Some? ==> MinInt64 <= r.value <= MaxInt64
    ensures r.Some? ==> Unsigned(s) != [] && AllDigits(Unsigned(s))
    ensures r.Some? ==> (r.value < 0 ==> s[0] == '-')
  {
    var digits := Unsigned(s);
    if digits == [] || !AllDigits(digits) then None
    else
      var value: int := DigitsValue(digits);
      var n := if s[0] == '-' then -value else value;
      if MinInt64 <= n <= MaxInt64 then Some(n) else None
  }

  /** Decimal digits of a natural number without leading zeros. */
  function FormatNat(n: nat): (s: string)
    ensures s != [] && AllDigits(s)
  {
    if n < 10 then [DigitChar(n)] else FormatNat(n / 10) + [DigitChar(n % 10)]
  }

  function FormatInt(n: int): string
  {
    if n < 0 then "-" + FormatNat(-n) else FormatNat(n)
  }

  lemma {:induction false} FormatNatValue(n: nat)
    ensures DigitsValue(FormatNat(n)) == n
  {
    var s := FormatNat(n);
    if n >= 10 {
      FormatNatValue(n / 10);
      assert s[..|s| - 1] == FormatNat(n / 10);
    }
  }

  /** Every 64-bit integer survives printing and parsing back; nothing beyond 64 bits parses. */
  lemma AtoiFormatInt(n: int)
    ensures Atoi(FormatInt(n)) == if MinInt64 <= n <= MaxInt64 then Some(n) else None
  {
    var s := FormatInt(n);
    var d := if n < 0 then FormatNat(-n) else FormatNat(n);
    FormatNatValue(if n < 0 then -n else n);
    if n < 0 {
      assert s[0] == '-' && s[1..] == d;
    } else {
      assert IsDigit(d[0]) && s == d;
    }
    assert Unsigned(s) == d && DigitsValue(d) == if n < 0 then -n else n;
  }

  /** Errors: the empty string, a bare sign, a non-digit, a blank and an underscore. */
  lemma AtoiRejects()
    ensures Atoi("") == None && Atoi("-") == None && Atoi("+") == None
    ensures Atoi("12a") == None && Atoi(" 12") == None && Atoi("1_000") == None
  {
    assert !AllDigits("12a") by { assert !IsDigit("12a"[2]); }
    assert !AllDigits(" 12") by { assert !IsDigit(" 12"[0]); }
    assert !AllDigits("1_000") by { assert !IsDigit("1_000"[1]); }
  }

  /** A sign and leading zeros are accepted. */
  lemma AtoiAccepts()
    ensures Atoi("007") == Some(7) && Atoi("+5") == Some(5) && Atoi("-0") == Some(0)
  {
    assert "007"[..2] == "00" && "00"[..1] == "0" && "0"[..0] == [];
    assert DigitsValue("007") == 7;
    assert Unsigned("+5") == "5" && "5"[..0] == [];
    assert Unsigned("-0") == "0";
  }
}
