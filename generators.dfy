/** The two position generators of the particle builder
    (components/InteractiveTree.tsx, `generateTreePosition` and `generateScatterPosition`).
    Each `Math.random()` call is an explicit draw parameter. */
module Generators {
  import opened Types
  import opened Constants
  import opened Transcendental
  import opened RealArith

  /** The height of a point a fraction `ratio` up the tree; the tree is centred on y = 0. */
  function TreeHeightAt(ratio: real): real {
    ratio * TreeHeight - TreeHeight / 2.0
  }

  /** The cone's radius at `ratio`, pushed outwards by `radiusOffset`. */
  function ConeRadius(ratio: real, radiusOffset: real): real {
    (1.0 - ratio) * TreeRadius + radiusOffset
  }

  /** Ten turns of spiral over the height plus one random turn. */
  function TreeAngle(ratio: real, draw: real): real {
    ratio * Pi * 20.0 + draw * Pi * 2.0
  }

  /** A point on the spiral: at the height of `ratio`, and (with a library where
      sin^2 + cos^2 = 1) at distance `ConeRadius(ratio, radiusOffset)` from the vertical axis,
      whatever the angle draw. */
  function GenerateTreePosition(m: MathLib, ratio: real, radiusOffset: real, draw: real): (p: Vec3)
    ensures p.y == TreeHeightAt(ratio)
    ensures Pythagorean(m) ==>
      p.x * p.x + p.z * p.z == ConeRadius(ratio, radiusOffset) * ConeRadius(ratio, radiusOffset)
  {
    var rBase := ConeRadius(ratio, radiusOffset);
    var angle := TreeAngle(ratio, draw);
    OnCircleAt(m, angle, rBase);
    Vec3(Cos(m, angle) * rBase, TreeHeightAt(ratio), Sin(m, angle) * rBase)
  }

  /** `OnCircle` for the library's own cosine and sine of `angle`. */
  lemma OnCircleAt(m: MathLib, angle: real, r: real)
    ensures Pythagorean(m) ==>
      (Cos(m, angle) * r) * (Cos(m, angle) * r) + (Sin(m, angle) * r) * (Sin(m, angle) * r) == r * r
  {
    if Pythagorean(m) {
      OnCircle(Cos(m, angle), Sin(m, angle), r);
    }
  }

  /** A point at angle a and distance r from the vertical axis is at squared distance r * r. */
  lemma OnCircle(c: real, s: real, r: real)
    requires c * c + s * s == 1.0
    ensures (c * r) * (c * r) + (s * r) * (s * r) == r * r
  {
    assert (c * r) * (c * r) + (s * r) * (s * r) == (c * c + s * s) * (r * r);
  }

  /** The tree generator puts its point at height ratio * H - H / 2 and at horizontal distance
      (1 - ratio) * R + offset from the axis. */
  lemma TreePositionOnCone(m: MathLib, ratio: real, radiusOffset: real, draw: real)
    requires Sound(m)
    ensures var p := GenerateTreePosition(m, ratio, radiusOffset, draw);
      && p.y == ratio * TreeHeight - TreeHeight / 2.0
      && p.x * p.x + p.z * p.z == ConeRadius(ratio, radiusOffset) * ConeRadius(ratio, radiusOffset)
  {
    var angle := TreeAngle(ratio, draw);
    OnCircle(Cos(m, angle), Sin(m, angle), ConeRadius(ratio, radiusOffset));
  }

  /** With the shipped height 18 and radius 6.5, ratio 0.5 and offset 0.5 give a point at
      height 0 and at distance 3.75 from the axis. */
  lemma TreePositionMidHeight(m: MathLib, draw: real)
    requires Sound(m)
    ensures var p := GenerateTreePosition(m, 0.5, 0.5, draw);
      p.y == 0.0 && p.x * p.x + p.z * p.z == 3.75 * 3.75
  {
    TreePositionOnCone(m, 0.5, 0.5, draw);
  }

  /** For a ratio in [0, 1] the height lies within the tree's half-height of the origin. */
  lemma TreeHeightRange(ratio: real)
    requires 0.0 <= ratio <= 1.0
    ensures -TreeHeight / 2.0 <= TreeHeightAt(ratio) <= TreeHeight / 2.0
  {
  }

  /** The distance from the centre of a scatter point: cbrt(draw) * ScatterRadius. */
  function ScatterDistance(m: MathLib, draw: real): real {
    Cbrt(m, draw) * ScatterRadius
  }

  /** Spherical coordinates: theta uniform in [0, 2 pi), phi = acos(2 d - 1), r from the cube root. */
  function GenerateScatterPosition(m: MathLib, dTheta: real, dPhi: real, dRadius: real): Vec3 {
    var theta := dTheta * Pi * 2.0;
    var phi := Acos(m, dPhi * 2.0 - 1.0);
    var r := ScatterDistance(m, dRadius);
    Vec3(r * Sin(m, phi) * Cos(m, theta), r * Sin(m, phi) * Sin(m, theta), r * Cos(m, phi))
  }

  /** Every scatter point lies at distance cbrt(draw) * ScatterRadius from the centre, hence
      strictly inside the scatter sphere. */
  lemma ScatterInsideSphere(m: MathLib, dTheta: real, dPhi: real, dRadius: real)
    requires Sound(m)
    requires 0.0 <= dRadius < 1.0
    ensures var p := GenerateScatterPosition(m, dTheta, dPhi, dRadius);
      var r := ScatterDistance(m, dRadius);
      && p.x * p.x + p.y * p.y + p.z * p.z == r * r
      && 0.0 <= r < ScatterRadius
  {
    var theta := dTheta * Pi * 2.0;
    var phi := Acos(m, dPhi * 2.0 - 1.0);
    var r := ScatterDistance(m, dRadius);
    SphereNorm(r, Sin(m, phi), Cos(m, phi), Cos(m, theta), Sin(m, theta));
  }

  /** (r sp ct)^2 + (r sp st)^2 + (r cp)^2 = r^2 when sp^2 + cp^2 = ct^2 + st^2 = 1. */
  lemma SphereNorm(r: real, sp: real, cp: real, ct: real, st: real)
    requires sp * sp + cp * cp == 1.0 && ct * ct + st * st == 1.0
    ensures (r * sp * ct) * (r * sp * ct) + (r * sp * st) * (r * sp * st) + (r * cp) * (r * cp) == r * r
  {
    var h := r * sp;
    OnCircle(ct, st, h);
    assert (r * sp * ct) * (r * sp * ct) + (r * sp * st) * (r * sp * st) == h * h;
    OnCircle(sp, cp, r);
  }
}
