/** The transcendental functions the engine calls (Math.sin, Math.cos, Math.acos, Math.cbrt,
    Math.pow) are supplied by the environment as a record of total functions; `Sound` states
    the only facts about them the proofs use. */
module Transcendental {
  import opened Constants

  datatype MathLib = MathLib(
    sin: real -> real,
    cos: real -> real,
    acos: real -> real,
    cbrt: real -> real,
    pow: (real, real) -> real)

  /** `Math.sin`, `Math.cos`, `Math.acos`, `Math.cbrt` and `Math.pow` of the library `m`. */
  function Sin(m: MathLib, a: real): real { m.sin(a) }
  function Cos(m: MathLib, a: real): real { m.cos(a) }
  function Acos(m: MathLib, v: real): real { m.acos(v) }
  function Cbrt(m: MathLib, v: real): real { m.cbrt(v) }
  function Pow(m: MathLib, v: real, e: real): real { m.pow(v, e) }

  ghost predicate Sound(m: MathLib) {
    Bounded(m) && Pythagorean(m) && InRange(m)
  }

  /** Sine and cosine stay in [-1, 1]. */
  ghost predicate Bounded(m: MathLib) {
    && (forall a :: -1.0 <= Sin(m, a) <= 1.0)
    && (forall a :: -1.0 <= Cos(m, a) <= 1.0)
  }

  /** sin^2 + cos^2 = 1. */
  ghost predicate Pythagorean(m: MathLib) {
    forall a {:trigger Sin(m, a)} {:trigger Cos(m, a)} :: Sin(m, a) * Sin(m, a) + Cos(m, a) * Cos(m, a) == 1.0
  }

  /** The ranges of acos on [-1, 1], of the cube root on [0, 1) and of v^0.8 on [0, 1]. */
  ghost predicate InRange(m: MathLib) {
    && (forall v :: -1.0 <= v <= 1.0 ==> 0.0 <= Acos(m, v) <= Pi)
    && (forall v :: 0.0 <= v < 1.0 ==> 0.0 <= Cbrt(m, v) < 1.0)
    && (forall v :: 0.0 <= v <= 1.0 ==> 0.0 <= Pow(m, v, 0.8) <= 1.0)
  }

  /** The facts in `Sound` are consistent: some library meets them all. */
  lemma SoundIsSatisfiable() ensures exists m :: Sound(m)
  {
    var m := MathLib(a => 0.0, a => 1.0, v => 0.0, v => v, (v, e) => v);
    assert Sound(m);
  }
}

/** Small facts about products and quotients of reals, stated so that the solver can use them. */
module RealArith {

  lemma MulPos(x: real, y: real)
    requires 0.0 < x && 0.0 < y
    ensures 0.0 < x * y
  {
  }

  lemma MulNonneg(x: real, y: real)
    requires 0.0 <= x && 0.0 <= y
    ensures 0.0 <= x * y
  {
  }

  /** x * x * y is non-negative whatever the sign of x. */
  lemma SquareTimesNonneg(x: real, y: real)
    requires 0.0 <= y
    ensures 0.0 <= x * (x * y)
  {
    if x >= 0.0 {
      MulNonneg(x, y);
      MulNonneg(x, x * y);
    } else {
      MulNonneg(-x, y);
      MulNonneg(-x, -x * y);
    }
  }

  /** Carries bounds on a product over to a value known to equal it. A proof step only: it
      spares the solver from rewriting the product itself. */
  lemma ProductWithin(s: real, x: real, f: real, b: real)
    requires s == x * f && 0.0 <= x * f <= b
    ensures 0.0 <= s <= b
  {
  }

  /** Scaling by a factor in [0, 1] keeps a non-negative value between 0 and itself. */
  lemma MulUnit(d: real, t: real)
    requires 0.0 <= d && 0.0 <= t <= 1.0
    ensures 0.0 <= d * t <= d
  {
    MulNonneg(d, t);
    MulNonneg(d, 1.0 - t);
    assert d * (1.0 - t) == d - d * t;
  }

  /** A factor of magnitude at most 1 does not increase a non-negative amplitude. */
  lemma MulBoundedFactor(f: real, d: real)
    requires -1.0 <= f <= 1.0 && 0.0 <= d
    ensures -d <= f * d <= d
  {
  }

  lemma DivMonotone(p: real, q: real, d: real)
    requires p <= q && 0.0 < d
    ensures p / d <= q / d
  {
  }

  lemma DivStrict(p: real, q: real, d: real)
    requires p < q && 0.0 < d
    ensures p / d < q / d
  {
  }

  /** Comparing two quotients with positive denominators by cross-multiplying. */
  lemma DivCross(p: real, b: real, q: real, a: real)
    requires 0.0 < a && 0.0 < b && p * a <= q * b
    ensures p / b <= q / a
  {
    assert p / b == (p * a) / (a * b);
    assert q / a == (q * b) / (a * b);
    MulPos(a, b);
    DivMonotone(p * a, q * b, a * b);
  }
}

/** `THREE.MathUtils.lerp` and `THREE.MathUtils.smoothstep`, with their textbook definitions. */
module ThreeMath {
  import opened RealArith

  /** `v` lies between `a` and `b`, in either order. */
  predicate Between(a: real, b: real, v: real) {
    (a <= v <= b) || (b <= v <= a)
  }

  /** a + (b - a) * t: the point a fraction t of the way from a to b. */
  function Lerp(a: real, b: real, t: real): (r: real)
    ensures t == 0.0 ==> r == a
    ensures t == 1.0 ==> r == b
    ensures 0.0 <= t <= 1.0 ==> Between(a, b, r)
  {
    LerpBetween(a, b, t);
    a + (b - a) * t
  }

  /** `THREE.MathUtils.lerp`, written (1 - t) * x + t * y; over the reals it is the same
      interpolation as the vector form a + (b - a) * t. */
  function MathLerp(x: real, y: real, t: real): real {
    (1.0 - t) * x + t * y
  }

  /** The two spellings of linear interpolation agree. */
  lemma MathLerpIsLerp(x: real, y: real, t: real)
    ensures MathLerp(x, y, t) == Lerp(x, y, t)
  {
    assert (1.0 - t) * x + t * y == x + (y - x) * t;
  }

  lemma LerpBetween(a: real, b: real, t: real)
    ensures 0.0 <= t <= 1.0 ==> Between(a, b, a + (b - a) * t)
  {
    if 0.0 <= t <= 1.0 {
      if a <= b {
        LerpUpward(a, b, t);
      } else {
        LerpDownward(a, b, t);
      }
    }
  }

  lemma LerpDownward(a: real, b: real, t: real)
    requires b <= a && 0.0 <= t <= 1.0
    ensures b <= a + (b - a) * t <= a
  {
    MulNonneg(a - b, t);
    MulNonneg(a - b, 1.0 - t);
    assert (b - a) * t == -((a - b) * t);
    assert (a - b) * (1.0 - t) == (a - b) - (a - b) * t;
  }

  lemma LerpUpward(a: real, b: real, t: real)
    requires a <= b && 0.0 <= t <= 1.0
    ensures a <= a + (b - a) * t <= b
  {
    MulNonneg(b - a, t);
    MulNonneg(b - a, 1.0 - t);
    assert (b - a) * (1.0 - t) == (b - a) - (b - a) * t;
  }

  /** 0 at or below `lo`, 1 at or above `hi`, and in between the cubic
      u * u * (3 - 2u) of the normalised input u = (x - lo) / (hi - lo). */
  function Smoothstep(x: real, lo: real, hi: real): (r: real)
    ensures 0.0 <= r <= 1.0
    ensures x <= lo ==> r == 0.0
    ensures lo < x < hi ==> 0.0 < r < 1.0
    ensures lo < hi <= x ==> r == 1.0
  {
    if x <= lo then 0.0
    else if x >= hi then 1.0
    else
      var u := (x - lo) / (hi - lo);
      NormalisedInUnit(x, lo, hi);
      CubicPositive(u);
      CubicBelowOne(u);
      u * u * (3.0 - 2.0 * u)
  }

  /** The normalised input of a point strictly between the edges lies strictly inside (0, 1). */
  lemma NormalisedInUnit(x: real, lo: real, hi: real)
    requires lo < x < hi
    ensures 0.0 < (x - lo) / (hi - lo) < 1.0
  {
    DivStrict(0.0, x - lo, hi - lo);
    DivStrict(x - lo, hi - lo, hi - lo);
    assert 0.0 / (hi - lo) == 0.0;
    assert (hi - lo) / (hi - lo) == 1.0;
  }

  /** The smoothstep cubic is u * (u * (3 - 2u)), positive inside the unit interval. */
  lemma CubicPositive(u: real)
    requires 0.0 < u < 1.0
    ensures 0.0 < u * u * (3.0 - 2.0 * u)
  {
    MulPos(u, 3.0 - 2.0 * u);
    MulPos(u, u * (3.0 - 2.0 * u));
  }

  /** The distance of the smoothstep cubic to 1 is (1 - u) * ((1 - u) * (1 + 2u)),
      positive inside the unit interval. */
  lemma CubicBelowOne(u: real)
    requires 0.0 < u < 1.0
    ensures u * u * (3.0 - 2.0 * u) < 1.0
  {
    MulPos(1.0 - u, 1.0 + 2.0 * u);
    MulPos(1.0 - u, (1.0 - u) * (1.0 + 2.0 * u));
    assert 1.0 - u * u * (3.0 - 2.0 * u) == (1.0 - u) * ((1.0 - u) * (1.0 + 2.0 * u));
  }

  /** The smoothstep cubic is non-decreasing on the unit interval:
      the difference of its values at b and a is (b - a) times a factor that is non-negative there. */
  lemma CubicMonotone(a: real, b: real)
    requires 0.0 <= a <= b <= 1.0
    ensures a * a * (3.0 - 2.0 * a) <= b * b * (3.0 - 2.0 * b)
  {
    MulNonneg(a, 1.0 - a);
    MulNonneg(b, 1.0 - b);
    MulNonneg(a, b);
    MulNonneg(b - a, 3.0 * (a + b) - 2.0 * (a * a + a * b + b * b));
    assert b * b * (3.0 - 2.0 * b) - a * a * (3.0 - 2.0 * a)
        == (b - a) * (3.0 * (a + b) - 2.0 * (a * a + a * b + b * b));
  }

  /** Smoothstep is non-decreasing in its input. */
  lemma SmoothstepMonotone(x: real, y: real, lo: real, hi: real)
    requires x <= y && lo < hi
    ensures Smoothstep(x, lo, hi) <= Smoothstep(y, lo, hi)
  {
    if lo < x && y < hi {
      DivMonotone(x - lo, y - lo, hi - lo);
      NormalisedInUnit(x, lo, hi);
      NormalisedInUnit(y, lo, hi);
      CubicMonotone((x - lo) / (hi - lo), (y - lo) / (hi - lo));
    }
  }

  /** With the upper edge fixed at 1, a later lower edge never gives a larger value. */
  lemma SmoothstepStartAntitone(x: real, lo1: real, lo2: real)
    requires lo1 <= lo2 < 1.0
    ensures Smoothstep(x, lo2, 1.0) <= Smoothstep(x, lo1, 1.0)
  {
    if lo2 < x < 1.0 {
      NormalisedAntitone(x, lo1, lo2);
      NormalisedInUnit(x, lo1, 1.0);
      NormalisedInUnit(x, lo2, 1.0);
      CubicMonotone((x - lo2) / (1.0 - lo2), (x - lo1) / (1.0 - lo1));
    }
  }

  /** u = (x - lo) / (1 - lo) shrinks as `lo` grows, for x below 1. */
  lemma NormalisedAntitone(x: real, lo1: real, lo2: real)
    requires lo1 <= lo2 < x < 1.0
    ensures (x - lo2) / (1.0 - lo2) <= (x - lo1) / (1.0 - lo1)
  {
    MulNonneg(lo2 - lo1, 1.0 - x);
    assert (x - lo1) * (1.0 - lo2) - (x - lo2) * (1.0 - lo1) == (lo2 - lo1) * (1.0 - x);
    DivCross(x - lo2, 1.0 - lo2, x - lo1, 1.0 - lo1);
  }
}

/** The back-out easing of the pop-in animation (components/InteractiveTree.tsx, `backOut`). */
module Easing {
  import opened RealArith

  /** The overshoot constant s. */
  const Overshoot: real := 1.70158

  /** With u = t - 1: u * u * ((s + 1) * u + s) + 1. */
  function BackOut(t: real): real {
    var u := t - 1.0;
    u * u * ((Overshoot + 1.0) * u + Overshoot) + 1.0
  }

  /** The curve starts at 0 and ends at 1. */
  lemma BackOutEnds()
    ensures BackOut(0.0) == 0.0 && BackOut(1.0) == 1.0
  {
  }

  /** The curve overshoots: some input strictly inside (0, 1) maps above 1. */
  lemma BackOutOvershoots()
    ensures exists t :: 0.0 < t < 1.0 && BackOut(t) > 1.0
  {
    assert BackOut(0.8) == 1.04645056;
  }

  /** On non-negative inputs the curve is never negative, and it is 0 only at 0:
      BackOut(t) = t * q(t - 1) for a quadratic q that has no real root. */
  lemma BackOutNonNegative(t: real)
    requires 0.0 <= t
    ensures 0.0 <= BackOut(t)
    ensures BackOut(t) == 0.0 <==> t == 0.0
  {
    var u := t - 1.0;
    assert BackOut(t) == t * ((Overshoot + 1.0) * u * u - u + 1.0);
    QuadraticPositive(u);
    if t > 0.0 {
      MulPos(t, (Overshoot + 1.0) * u * u - u + 1.0);
    }
  }

  /** (s + 1) * u * u - u + 1 > 0, since 4 (s + 1) times it is a square plus 4 (s + 1) - 1. */
  lemma QuadraticPositive(u: real)
    ensures 0.0 < (Overshoot + 1.0) * u * u - u + 1.0
  {
    var k := Overshoot + 1.0;
    SquareTimesNonneg(2.0 * k * u - 1.0, 1.0);
    assert 4.0 * k * (k * u * u - u + 1.0)
        == (2.0 * k * u - 1.0) * ((2.0 * k * u - 1.0) * 1.0) + 4.0 * k - 1.0;
  }

  /** On the unit interval the overshoot peaks just above 10% (at about t = 0.58) and stays
      below 10.1%: with v = 1 - t, 1.101 - BackOut(t) is a non-negative multiple of
      (v - 0.42)^2 (v + b) plus a positive linear term. */
  lemma BackOutAtMost(t: real)
    requires 0.0 <= t <= 1.0
    ensures BackOut(t) <= 1.101
  {
    var k := Overshoot + 1.0;
    var v := 1.0 - t;
    var a := 0.42;
    var b := 709684.0 / 3376975.0;
    assert 1.101 - BackOut(t)
        == k * ((v - a) * ((v - a) * (v + b))) + 0.000348936 * v + (0.101 - k * a * a * b);
    SquareTimesNonneg(v - a, v + b);
  }
}
