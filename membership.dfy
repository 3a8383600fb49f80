/**
 * The piecewise-linear membership shape shared by the five server-side fuzzifiers:
 * a left shoulder for Low, a triangle for Medium and a right shoulder for High.
 * Each Go fuzzifier writes its branch formulas with literal breakpoints, in exactly
 * the form `(b - x) / (b - a)`; a `Shape` collects those literals.
 */
module Membership {

  /** Degrees of membership of one raw value in Low, Medium and High. */
  datatype Triple = Triple(low: real, medium: real, high: real)

  /**
   * Breakpoints of one metric's partition:
   * Low is 1 up to `lowFull` and falls to 0 at `lowZero`;
   * Medium rises from `medStart` to 1 at `medPeak` and falls to 0 at `medEnd`;
   * High rises from 0 at `highStart` to 1 at `highFull`.
   */
  datatype Shape = Shape(lowFull: real, lowZero: real,
                         medStart: real, medPeak: real, medEnd: real,
                         highStart: real, highFull: real)

  /** Every linear piece has a positive run, so no division by zero. */
  predicate ValidShape(s: Shape)
  {
    s.lowFull < s.lowZero && s.medStart < s.medPeak < s.medEnd && s.highStart < s.highFull
  }

  /**
   * The ordering the five metrics share: Low is gone before High starts, Medium
   * starts before Low is gone, and High starts before Medium is gone.
   */
  predicate Partition(s: Shape)
  {
    ValidShape(s) && s.medStart < s.lowZero && s.lowZero <= s.highStart && s.highStart < s.medEnd
  }

  function Abs(x: real): real { if x < 0.0 then -x else x }

  function Min(x: real, y: real): real { if x <= y then x else y }

  function Max(x: real, y: real): real { if x <= y then y else x }

  /** Clamping into the unit interval; not used by the source, only to explain it. */
  function Clamp01(x: real): (r: real)
    ensures 0.0 <= r <= 1.0
    ensures 0.0 <= x <= 1.0 ==> r == x
  {
    if x < 0.0 then 0.0 else if x > 1.0 then 1.0 else x
  }

  /** Left shoulder: the first if / else-if of each Go fuzzifier. */
  function Low(s: Shape, x: real): (r: real)
    requires ValidShape(s)
    ensures 0.0 <= r <= 1.0
    ensures r == 1.0 <==> x <= s.lowFull
    ensures r == 0.0 <==> x >= s.lowZero
  {
    DivStrict(s.lowZero - x, s.lowZero - s.lowFull);

    if x <= s.lowFull then 1.0
    else if x <= s.lowZero then (s.lowZero - x) / (s.lowZero - s.lowFull)
    else 0.0
  }

  /** Triangle: the second if / else-if of each Go fuzzifier. */
  function Medium(s: Shape, x: real): (r: real)
    requires ValidShape(s)
    ensures 0.0 <= r <= 1.0
    ensures r == 1.0 <==> x == s.medPeak
    ensures r == 0.0 <==> x <= s.medStart || x >= s.medEnd
  {
    DivStrict(x - s.medStart, s.medPeak - s.medStart);
    DivStrict(s.medEnd - x, s.medEnd - s.medPeak);

    if s.medStart <= x && x <= s.medPeak then (x - s.medStart) / (s.medPeak - s.medStart)
    else if s.medPeak < x && x <= s.medEnd then (s.medEnd - x) / (s.medEnd - s.medPeak)
    else 0.0
  }

  /** Right shoulder: the third if / else-if of each Go fuzzifier. */
  function High(s: Shape, x: real): (r: real)
    requires ValidShape(s)
    ensures 0.0 <= r <= 1.0
    ensures r == 1.0 <==> x >= s.highFull
    ensures r == 0.0 <==> x <= s.highStart
  {
    DivStrict(x - s.highStart, s.highFull - s.highStart);

    if x >= s.highFull then 1.0
    else if x >= s.highStart then (x - s.highStart) / (s.highFull - s.highStart)
    else 0.0
  }

  /** All three components lie in the unit interval. */
  predicate InUnit(m: Triple)
  {
    0.0 <= m.low <= 1.0 && 0.0 <= m.medium <= 1.0 && 0.0 <= m.high <= 1.0
  }

  /**
   * The triple a fuzzifier returns. On a partition Low and High are never positive
   * together, and every value belongs to some level with a positive degree.
   */
  function Fuzzify(s: Shape, x: real): (m: Triple)
    requires ValidShape(s)
    ensures InUnit(m)
    ensures Partition(s) ==> m.low == 0.0 || m.high == 0.0
    ensures Partition(s) ==> m.low > 0.0 || m.medium > 0.0 || m.high > 0.0
  {
    Triple(Low(s, x), Medium(s, x), High(s, x))
  }

  // ---------------------------------------------------------------------------
  // Ramps: the unclamped linear pieces.

  function FallingRamp(zero: real, full: real, x: real): real
    requires full < zero
  {
    (zero - x) / (zero - full)
  }

  function RisingRamp(zero: real, full: real, x: real): real
    requires zero < full
  {
    (x - zero) / (full - zero)
  }

  lemma DivBounds(n: real, d: real)
    requires 0.0 < d
    ensures 0.0 <= n ==> 0.0 <= n / d
    ensures n <= d ==> n / d <= 1.0
    ensures n / d * d == n
  {
  }

  lemma DivMono(n: real, m: real, d: real)
    requires 0.0 < d && n <= m
    ensures n / d <= m / d
  {
    assert m / d - n / d == (m - n) / d;
    DivBounds(m - n, d);
  }

  lemma DivStrict(n: real, d: real)
    requires 0.0 < d
    ensures 0.0 < n ==> 0.0 < n / d
    ensures n < d ==> n / d < 1.0
    ensures n / d == 0.0 <==> n == 0.0
    ensures n / d == 1.0 <==> n == d
  {
    DivBounds(n, d);
  }

  lemma DivDiff(n: real, m: real, d: real)
    requires 0.0 < d
    ensures Abs(n / d - m / d) == Abs(n - m) / d
  {
    assert n / d - m / d == (n - m) / d;
  }

  lemma LowIsClampedRamp(s: Shape, x: real)
    requires ValidShape(s)
    ensures Low(s, x) == Clamp01(FallingRamp(s.lowZero, s.lowFull, x))
  {
    var d := s.lowZero - s.lowFull;
    DivBounds(s.lowZero - x, d);
    if x <= s.lowFull {
      DivMono(d, s.lowZero - x, d);
      assert d / d == 1.0;
    } else if x > s.lowZero {
      DivMono(s.lowZero - x, 0.0, d);
    }
  }

  lemma RisingRampFacts(zero: real, full: real, x: real)
    requires zero < full
    ensures x <= zero ==> RisingRamp(zero, full, x) <= 0.0
    ensures x >= full ==> RisingRamp(zero, full, x) >= 1.0
    ensures zero <= x <= full ==> 0.0 <= RisingRamp(zero, full, x) <= 1.0
  {
    var d := full - zero;
    DivBounds(x - zero, d);
    assert d / d == 1.0;
    if x <= zero {
      DivMono(x - zero, 0.0, d);
    }
    if x >= full {
      DivMono(d, x - zero, d);
    }
  }

  lemma FallingRampFacts(zero: real, full: real, x: real)
    requires full < zero
    ensures x >= zero ==> FallingRamp(zero, full, x) <= 0.0
    ensures x <= full ==> FallingRamp(zero, full, x) >= 1.0
    ensures full <= x <= zero ==> 0.0 <= FallingRamp(zero, full, x) <= 1.0
  {
    var d := zero - full;
    DivBounds(zero - x, d);
    assert d / d == 1.0;
    if x >= zero {
      DivMono(zero - x, 0.0, d);
    }
    if x <= full {
      DivMono(d, zero - x, d);
    }
  }

  lemma MediumIsClampedTent(s: Shape, x: real)
    requires ValidShape(s)
    ensures Medium(s, x) == Clamp01(Min(RisingRamp(s.medStart, s.medPeak, x), FallingRamp(s.medEnd, s.medPeak, x)))
  {
    RisingRampFacts(s.medStart, s.medPeak, x);
    FallingRampFacts(s.medEnd, s.medPeak, x);
  }

  lemma HighIsClampedRamp(s: Shape, x: real)
    requires ValidShape(s)
    ensures High(s, x) == Clamp01(RisingRamp(s.highStart, s.highFull, x))
  {
    var d := s.highFull - s.highStart;
    DivBounds(x - s.highStart, d);
    if x >= s.highFull {
      DivMono(d, x - s.highStart, d);
      assert d / d == 1.0;
    } else if x < s.highStart {
      DivMono(x - s.highStart, 0.0, d);
    }
  }

  lemma ClampLipschitz(u: real, v: real)
    ensures Abs(Clamp01(u) - Clamp01(v)) <= Abs(u - v)
  {
  }

  lemma ClampMonotone(u: real, v: real)
    requires u <= v
    ensures Clamp01(u) <= Clamp01(v)
  {
  }

  // ---------------------------------------------------------------------------
  // Properties of every shape.

  /** Low never jumps: it moves by at most |x - y| / (lowZero - lowFull). */
  lemma LowLipschitz(s: Shape, x: real, y: real)
    requires ValidShape(s)
    ensures Abs(Low(s, x) - Low(s, y)) <= Abs(x - y) / (s.lowZero - s.lowFull)
  {
    LowIsClampedRamp(s, x);
    LowIsClampedRamp(s, y);
    var d := s.lowZero - s.lowFull;
    ClampLipschitz(FallingRamp(s.lowZero, s.lowFull, x), FallingRamp(s.lowZero, s.lowFull, y));
    DivDiff(s.lowZero - x, s.lowZero - y, d);
    assert Abs((s.lowZero - x) - (s.lowZero - y)) == Abs(x - y);
  }

  /** High never jumps: it moves by at most |x - y| / (highFull - highStart). */
  lemma HighLipschitz(s: Shape, x: real, y: real)
    requires ValidShape(s)
    ensures Abs(High(s, x) - High(s, y)) <= Abs(x - y) / (s.highFull - s.highStart)
  {
    HighIsClampedRamp(s, x);
    HighIsClampedRamp(s, y);
    var d := s.highFull - s.highStart;
    ClampLipschitz(RisingRamp(s.highStart, s.highFull, x), RisingRamp(s.highStart, s.highFull, y));
    DivDiff(x - s.highStart, y - s.highStart, d);
    assert Abs((x - s.highStart) - (y - s.highStart)) == Abs(x - y);
  }

  /** Medium never jumps: its slope is bounded by the steeper of its two sides. */
  lemma MediumLipschitz(s: Shape, x: real, y: real)
    requires ValidShape(s)
    ensures Abs(Medium(s, x) - Medium(s, y))
         <= Max(Abs(x - y) / (s.medPeak - s.medStart), Abs(x - y) / (s.medEnd - s.medPeak))
  {
    MediumIsClampedTent(s, x);
    MediumIsClampedTent(s, y);
    var ux, uy := RisingRamp(s.medStart, s.medPeak, x), RisingRamp(s.medStart, s.medPeak, y);
    var fx, fy := FallingRamp(s.medEnd, s.medPeak, x), FallingRamp(s.medEnd, s.medPeak, y);
    ClampLipschitz(Min(ux, fx), Min(uy, fy));
    DivDiff(x - s.medStart, y - s.medStart, s.medPeak - s.medStart);
    DivDiff(s.medEnd - x, s.medEnd - y, s.medEnd - s.medPeak);
    assert Abs((x - s.medStart) - (y - s.medStart)) == Abs(x - y);
    assert Abs((s.medEnd - x) - (s.medEnd - y)) == Abs(x - y);
  }

  /** Low is non-increasing. */
  lemma LowAntitone(s: Shape, x: real, y: real)
    requires ValidShape(s) && x <= y
    ensures Low(s, y) <= Low(s, x)
  {
    LowIsClampedRamp(s, x);
    LowIsClampedRamp(s, y);
    DivMono(s.lowZero - y, s.lowZero - x, s.lowZero - s.lowFull);
    ClampMonotone(FallingRamp(s.lowZero, s.lowFull, y), FallingRamp(s.lowZero, s.lowFull, x));
  }

  /** High is non-decreasing. */
  lemma HighMonotone(s: Shape, x: real, y: real)
    requires ValidShape(s) && x <= y
    ensures High(s, x) <= High(s, y)
  {
    HighIsClampedRamp(s, x);
    HighIsClampedRamp(s, y);
    DivMono(x - s.highStart, y - s.highStart, s.highFull - s.highStart);
    ClampMonotone(RisingRamp(s.highStart, s.highFull, x), RisingRamp(s.highStart, s.highFull, y));
  }

  /** Medium rises up to its peak and falls after it. */
  lemma MediumUnimodal(s: Shape, x: real, y: real)
    requires ValidShape(s) && x <= y
    ensures y <= s.medPeak ==> Medium(s, x) <= Medium(s, y)
    ensures s.medPeak <= x ==> Medium(s, y) <= Medium(s, x)
  {
    if y <= s.medPeak && x >= s.medStart {
      DivMono(x - s.medStart, y - s.medStart, s.medPeak - s.medStart);
    }
    if s.medPeak < x && y <= s.medEnd {
      DivMono(s.medEnd - y, s.medEnd - x, s.medEnd - s.medPeak);
    }
  }
}
