/**
 * String helpers shared by the validators: the whitespace classes of Go's
 * `unicode.IsSpace`, Python's `str.isspace` and ECMAScript's `trim`, trimming by a
 * whitespace class, and the two length measures the sources use: Go's `len`
 * counts UTF-8 bytes, JavaScript's `.length` counts UTF-16 code units.
 * A string is a sequence of Unicode scalar values.
 */
module Text {

  /** Go `unicode.IsSpace` (and so `strings.TrimSpace`). */
  predicate GoSpace(c: char)
  {
    c == '\t' || c == '\n' || c == '\U{000B}' || c == '\U{000C}' || c == '\r' || c == ' '
    || c == '\U{0085}' || c == '\U{00A0}' || c == '\U{1680}' || ('\U{2000}' <= c <= '\U{200A}')
    || c == '\U{2028}' || c == '\U{2029}' || c == '\U{202F}' || c == '\U{205F}' || c == '\U{3000}'
  }

  /** Python `str.isspace` (and so `str.strip()` without arguments): Go's set plus the separators U+001C..U+001F. */
  predicate PySpace(c: char)
  {
    GoSpace(c) || ('\U{001C}' <= c <= '\U{001F}')
  }

  /** ECMAScript WhiteSpace and LineTerminator (`trim`, `Number`, `parseFloat`): no U+0085, but U+FEFF. */
  predicate JsSpace(c: char)
  {
    (GoSpace(c) && c != '\U{0085}') || c == '\U{FEFF}'
  }

  /** Drop leading characters of the class. */
  function TrimStart(s: string, space: char -> bool): (r: string)
    ensures |r| <= |s| && r == s[|s| - |r|..]
    ensures forall i :: 0 <= i < |s| - |r| ==> space(s[i])
    ensures r == [] || !space(r[0])
  {
    if s != [] && space(s[0]) then TrimStart(s[1..], space) else s
  }

  /** Drop trailing characters of the class. */
  function TrimEnd(s: string, space: char -> bool): (r: string)
    ensures |r| <= |s| && r == s[..|r|]
    ensures forall i :: |r| <= i < |s| ==> space(s[i])
    ensures r == [] || !space(r[|r| - 1])
  {
    if s != [] && space(s[|s| - 1]) then TrimEnd(s[..|s| - 1], space) else s
  }

  /** Both ends dropped; nothing is left exactly when all of `s` is whitespace. */
  function Trim(s: string, space: char -> bool): (r: string)
    ensures r == [] <==> forall i :: 0 <= i < |s| ==> space(s[i])
  {
    TrimEnd(TrimStart(s, space), space)
  }

  lemma {:induction false} TrimStartOfClean(s: string, space: char -> bool)
    requires s == [] || !space(s[0])
    ensures TrimStart(s, space) == s
  {
  }

  lemma {:induction false} TrimEndKeepsClean(s: string, space: char -> bool)
    requires s == [] || !space(s[0])
    ensures TrimEnd(s, space) == [] || !space(TrimEnd(s, space)[0])
  {
    var r := TrimEnd(s, space);
    if r != [] {
      assert r[0] == s[0];
    }
  }

  /** Leading whitespace up to the first other character is what `TrimStart` drops. */
  lemma {:induction false} TrimStartSkips(s: string, k: nat, space: char -> bool)
    requires k <= |s| && (forall i :: 0 <= i < k ==> space(s[i]))
    requires k == |s| || !space(s[k])
    ensures TrimStart(s, space) == s[k..]
  {
    if k > 0 {
      TrimStartSkips(s[1..], k - 1, space);
      assert s[1..][k - 1..] == s[k..];
    }
  }

  /** A string with no whitespace at either end is its own trim. */
  lemma TrimClean(s: string, space: char -> bool)
    requires s == [] || (!space(s[0]) && !space(s[|s| - 1]))
    ensures Trim(s, space) == s
  {
    TrimStartOfClean(s, space);
    if s != [] {
      assert TrimEnd(s, space) == s;
    }
  }

  /** Trimming twice is trimming once. */
  lemma TrimIdempotent(s: string, space: char -> bool)
    ensures Trim(Trim(s, space), space) == Trim(s, space)
  {
    var t := TrimStart(s, space);
    var r := TrimEnd(t, space);
    TrimEndKeepsClean(t, space);
    TrimStartOfClean(r, space);
    if r != [] {
      assert !space(r[|r| - 1]);
    }
  }

  /** Trimming keeps a contiguous middle piece whose outside is all whitespace. */
  lemma TrimSlice(s: string, space: char -> bool) returns (lo: nat, hi: nat)
    ensures lo <= hi <= |s| && Trim(s, space) == s[lo..hi]
    ensures forall i :: 0 <= i < lo || hi <= i < |s| ==> space(s[i])
  {
    var t := TrimStart(s, space);
    var r := TrimEnd(t, space);
    lo, hi := |s| - |t|, |s| - |t| + |r|;
    assert r == t[..|r|] && t == s[lo..];
    forall i | hi <= i < |s|
      ensures space(s[i])
    {
      assert s[i] == t[i - lo];
    }
  }

  /** Bytes of one scalar value in UTF-8. */
  function Utf8Width(c: char): (n: nat)
    ensures 1 <= n <= 4
  {
    if c < '\U{0080}' then 1 else if c < '\U{0800}' then 2 else if c <= '\U{FFFF}' then 3 else 4
  }

  /** Go `len(s)`: the UTF-8 byte count. */
  function Utf8Length(s: string): (n: nat)
    ensures |s| <= n <= 4 * |s|
  {
    if s == [] then 0 else Utf8Width(s[0]) + Utf8Length(s[1..])
  }

  /** JavaScript `s.length`: the UTF-16 code unit count. */
  function Utf16Length(s: string): (n: nat)
    ensures |s| <= n <= 2 * |s|
  {
    if s == [] then 0 else (if s[0] <= '\U{FFFF}' then 1 else 2) + Utf16Length(s[1..])
  }

  /** Only ASCII text has as many bytes as characters. */
  lemma {:induction false} Utf8LengthAscii(s: string)
    ensures Utf8Length(s) == |s| <==> forall i :: 0 <= i < |s| ==> s[i] < '\U{0080}'
  {
    if s != [] {
      Utf8LengthAscii(s[1..]);
      assert forall i :: 1 <= i < |s| ==> s[i] == s[1..][i - 1];
    }
  }

  /** Only text without supplementary-plane characters has as many UTF-16 units as characters. */
  lemma {:induction false} Utf16LengthBmp(s: string)
    ensures Utf16Length(s) == |s| <==> forall i :: 0 <= i < |s| ==> s[i] <= '\U{FFFF}'
  {
    if s != [] {
      Utf16LengthBmp(s[1..]);
      assert forall i :: 1 <= i < |s| ==> s[i] == s[1..][i - 1];
    }
  }

  /** Lengths add up over concatenation. */
  lemma {:induction false} LengthsAppend(a: string, b: string)
    ensures Utf8Length(a + b) == Utf8Length(a) + Utf8Length(b)
    ensures Utf16Length(a + b) == Utf16Length(a) + Utf16Length(b)
  {
    if a == [] {
      assert a + b == b;
    } else {
      assert (a + b)[1..] == a[1..] + b;
      LengthsAppend(a[1..], b);
    }
  }
}
