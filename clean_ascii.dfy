/**
 * `clean_ascii` from docs.py: typographic dashes and quotes are replaced by their
 * ASCII forms, one `str.replace` after another, and then every run of characters
 * above 0x7F is deleted. Deleting each maximal run of such characters deletes each
 * of them, so the last step is modelled as a filter.
 */
module CleanAscii {
  predicate IsAscii(c: char)
  {
    c <= '\U{7F}'
  }

  predicate AllAscii(s: string)
  {
    forall i :: 0 <= i < |s| ==> IsAscii(s[i])
  }

  /** `s.replace(a, b)` for a single character `a` and `b`. */
  function Replace(s: string, a: char, b: char): (r: string)
    ensures |r| == |s|
    ensures forall i :: 0 <= i < |s| ==> r[i] == if s[i] == a then b else s[i]
  {
    if s == [] then [] else Replace(s[..|s| - 1], a, b) + [if s[|s| - 1] == a then b else s[|s| - 1]]
  }

  /** `re.sub(r'[^\x00-\x7F]+', '', s)`. */
  function DropNonAscii(s: string): (r: string)
    ensures |r| <= |s|
    ensures AllAscii(r)
  {
    if s == [] then []
    else DropNonAscii(s[..|s| - 1]) + (if IsAscii(s[|s| - 1]) then [s[|s| - 1]] else [])
  }

  /** `clean_ascii`: the output is plain ASCII and never longer than the input. */
  function Clean(text: string): (r: string)
    ensures AllAscii(r) && |r| <= |text|
  {
    var t := Replace(Replace(text, '\U{2013}', '-'), '\U{2014}', '-');
    var u := Replace(Replace(Replace(Replace(t, '\U{201C}', '"'), '\U{201D}', '"'), '\U{2019}', '\''), '\U{2018}', '\'');
    DropNonAscii(u)
  }

  /** What one character becomes: its ASCII stand-in, itself, or nothing. */
  function CleanChar(c: char): (r: string)
    ensures |r| <= 1 && AllAscii(r)
  {
    if c == '\U{2013}' || c == '\U{2014}' then "-"
    else if c == '\U{201C}' || c == '\U{201D}' then "\""
    else if c == '\U{2019}' || c == '\U{2018}' then "'"
    else if IsAscii(c) then [c]
    else []
  }

  /** The cleaned text, character by character. */
  function CleanEach(s: string): string
  {
    if s == [] then [] else CleanEach(s[..|s| - 1]) + CleanChar(s[|s| - 1])
  }

  lemma {:induction false} DropAppend(a: string, b: string)
    ensures DropNonAscii(a + b) == DropNonAscii(a) + DropNonAscii(b)
  {
    if b == [] {
      assert a + b == a;
    } else {
      assert (a + b)[..|a + b| - 1] == a + b[..|b| - 1];
      assert (a + b)[|a + b| - 1] == b[|b| - 1];
      DropAppend(a, b[..|b| - 1]);
    }
  }

  /** The chain of replacements and the deletion act on each character on its own. */
  lemma {:induction false} CleanIsCharwise(s: string)
    ensures Clean(s) == CleanEach(s)
  {
    if s != [] {
      var init, c := s[..|s| - 1], s[|s| - 1];
      CleanIsCharwise(init);
      var t := Replace(Replace(s, '\U{2013}', '-'), '\U{2014}', '-');
      var u := Replace(Replace(Replace(Replace(t, '\U{201C}', '"'), '\U{201D}', '"'), '\U{2019}', '\''), '\U{2018}', '\'');
      var t0 := Replace(Replace(init, '\U{2013}', '-'), '\U{2014}', '-');
      var u0 := Replace(Replace(Replace(Replace(t0, '\U{201C}', '"'), '\U{201D}', '"'), '\U{2019}', '\''), '\U{2018}', '\'');
      var d := u[|s| - 1];
      assert u == u0 + [d];
      DropAppend(u0, [d]);
      assert DropNonAscii([d]) == CleanChar(c) by {
        assert [d][..0] == [];
      }
    }
  }

  lemma CleanOne(c: char)
    ensures Clean([c]) == CleanChar(c)
  {
    CleanIsCharwise([c]);
    assert [c][..0] == [];
  }

  /** The listed dashes and quotes become their ASCII forms, and any other character above 0x7F is dropped. */
  lemma Replacements(c: char)
    ensures c == '\U{2013}' || c == '\U{2014}' ==> Clean([c]) == "-"
    ensures c == '\U{201C}' || c == '\U{201D}' ==> Clean([c]) == "\""
    ensures c == '\U{2018}' || c == '\U{2019}' ==> Clean([c]) == "'"
    ensures !IsAscii(c) && c !in "\U{2013}\U{2014}\U{201C}\U{201D}\U{2018}\U{2019}" ==> Clean([c]) == []
  {
    CleanOne(c);
  }

  lemma AsciiKept(c: char)
    requires IsAscii(c)
    ensures CleanChar(c) == [c]
  {
  }

  lemma {:induction false} CleanEachAscii(s: string)
    requires AllAscii(s)
    ensures CleanEach(s) == s
  {
    if s != [] {
      var init, c := s[..|s| - 1], s[|s| - 1];
      assert AllAscii(init) by {
        forall i | 0 <= i < |init| ensures IsAscii(init[i]) {
          assert init[i] == s[i];
        }
      }
      CleanEachAscii(init);
      AsciiKept(c);
      assert s == init + [c];
    }
  }

  /** ASCII text is returned unchanged. */
  lemma AsciiUnchanged(s: string)
    requires AllAscii(s)
    ensures Clean(s) == s
  {
    CleanIsCharwise(s);
    CleanEachAscii(s);
  }

  /** Cleaning twice is cleaning once. */
  lemma CleanIdempotent(s: string)
    ensures Clean(Clean(s)) == Clean(s)
  {
    AsciiUnchanged(Clean(s));
  }
}
