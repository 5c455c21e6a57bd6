/** The per-frame morph of components/InteractiveTree.tsx, as pure functions of the frame's
    inputs: the progress value's approach to its target, and the transform each instance gets
    from its record, its index, the mesh's category, the progress `t` and the clock `time`. */
module Morph {
  import opened Types
  import opened Constants
  import opened Transcendental
  import opened RealArith
  import opened ThreeMath
  import opened Easing

  /** 1 while the tree is formed, 0 while it is scattered. */
  function Target(s: TreeState): (r: real)
    ensures r == 1.0 <==> s == TreeShape
    ensures r == 0.0 <==> s == Scattered
  {
    match s
    case TreeShape => 1.0
    case Scattered => 0.0
  }

  /** The blend factor of one frame: the frame delta times the animation speed. */
  function Alpha(delta: real): real {
    delta * AnimationSpeed
  }

  /** One frame of `progressRef.current = lerp(progress, target, delta * ANIMATION_SPEED)`. */
  function NextProgress(p: real, s: TreeState, delta: real): (r: real)
    ensures r - Target(s) == (1.0 - Alpha(delta)) * (p - Target(s))
  {
    MathLerp(p, Target(s), Alpha(delta))
  }

  /** A frame whose blend factor is in [0, 1] moves the progress towards the target without
      passing it; from anywhere in [0, 1] it stays in [0, 1]. */
  lemma ProgressApproaches(p: real, s: TreeState, delta: real)
    requires 0.0 <= Alpha(delta) <= 1.0
    ensures Between(p, Target(s), NextProgress(p, s, delta))
    ensures 0.0 <= p <= 1.0 ==> 0.0 <= NextProgress(p, s, delta) <= 1.0
  {
    MathLerpIsLerp(p, Target(s), Alpha(delta));
  }

  /** The remaining distance to the target shrinks by exactly the factor 1 - alpha. */
  lemma ProgressGap(p: real, s: TreeState, delta: real)
    requires 0.0 <= Alpha(delta) <= 1.0
    ensures Abs(NextProgress(p, s, delta) - Target(s)) == (1.0 - Alpha(delta)) * Abs(p - Target(s))
  {
    var g := p - Target(s);
    var f := 1.0 - Alpha(delta);
    if g < 0.0 {
      assert f * g == -(f * -g);
      MulNonneg(f, -g);
    } else {
      MulNonneg(f, g);
    }
  }

  /** A frame with alpha = 1 lands on the target exactly. */
  lemma ProgressSnaps(p: real, s: TreeState, delta: real)
    requires Alpha(delta) == 1.0
    ensures NextProgress(p, s, delta) == Target(s)
  {
  }

  /** A long frame (delta * 1.8 > 1, a frame longer than about 0.56 s) carries the progress past
      its target to the other side, so the morph overshoots before it settles. */
  lemma ProgressOvershoots(p: real, s: TreeState, delta: real)
    requires 1.0 < Alpha(delta) && p != Target(s)
    ensures (NextProgress(p, s, delta) - Target(s)) * (p - Target(s)) < 0.0
  {
    var g := p - Target(s);
    var f := 1.0 - Alpha(delta);
    if g > 0.0 {
      MulPos(-f, g);
      MulPos(-f * g, g);
    } else {
      MulPos(-f, -g);
      MulPos(-f * -g, -g);
    }
  }

  /** One more factor on a geometric gap. A proof step only: it keeps the product
      reassociation out of `ConvergesStep`. */
  lemma GeometricStep(next: real, prev: real, target: real, f: real, q: real, g: real)
    requires prev - target == q * g
    requires next - target == f * (prev - target)
    ensures next - target == (f * q) * g
  {
    assert f * (q * g) == (f * q) * g;
  }

  function Abs(x: real): real {
    if x < 0.0 then -x else x
  }

  function Power(x: real, n: nat): real {
    if n == 0 then 1.0 else x * Power(x, n - 1)
  }

  /** The progress after `n` frames of the same delta in the same state. */
  function ProgressAfter(p: real, s: TreeState, delta: real, n: nat): real {
    if n == 0 then p else NextProgress(ProgressAfter(p, s, delta, n - 1), s, delta)
  }

  /** After n equal frames the distance to the target is (1 - alpha)^n times the initial one:
      the progress converges geometrically whenever 0 < alpha < 2. */
  lemma {:induction false} ProgressConverges(p: real, s: TreeState, delta: real, n: nat)
    ensures ProgressAfter(p, s, delta, n) - Target(s) == Power(1.0 - Alpha(delta), n) * (p - Target(s))
  {
    if n > 0 {
      ProgressConverges(p, s, delta, n - 1);
      ConvergesStep(p, s, delta, n);
    }
  }

  /** The inductive step of `ProgressConverges`. */
  lemma ConvergesStep(p: real, s: TreeState, delta: real, n: nat)
    requires n > 0
    requires ProgressAfter(p, s, delta, n - 1) - Target(s) == Power(1.0 - Alpha(delta), n - 1) * (p - Target(s))
    ensures ProgressAfter(p, s, delta, n) - Target(s) == Power(1.0 - Alpha(delta), n) * (p - Target(s))
  {
    var f := 1.0 - Alpha(delta);
    var prev := ProgressAfter(p, s, delta, n - 1);
    var next := NextProgress(prev, s, delta);
    assert ProgressAfter(p, s, delta, n) == next;
    GeometricStep(next, prev, Target(s), f, Power(f, n - 1), p - Target(s));
    assert Power(f, n) == f * Power(f, n - 1);
  }

  /** Component-wise `Vector3.lerpVectors(a, b, t)`. */
  function LerpVec(a: Vec3, b: Vec3, t: real): (r: Vec3)
    ensures t == 0.0 ==> r == a
    ensures t == 1.0 ==> r == b
  {
    Vec3(Lerp(a.x, b.x, t), Lerp(a.y, b.y, t), Lerp(a.z, b.z, t))
  }

  /** Below this progress the instances float and tumble; at or above it they are settled. */
  const Settled: real := 0.99

  /** The categories that pop in with `backOut` and sway on the tree. */
  predicate Pops(kind: OrnamentType) {
    kind == Box || kind == Ribbon || kind == SmallStar
  }

  /** The position of an instance: the lerp from scatter to tree, plus a float that fades with
      1 - t while the progress is below `Settled`. */
  function MorphPosition(m: MathLib, p: ParticleData, t: real, time: real): Vec3 {
    var base := LerpVec(p.scatterPosition, p.treePosition, t);
    if t < Settled then
      Vec3(base.x + SideFloat(m, p, t, time), base.y + VerticalFloat(m, p, t, time), base.z)
    else base
  }

  /** The sideways float: cos(time * 0.5 + phase) * (1 - t) * 0.5. */
  function SideFloat(m: MathLib, p: ParticleData, t: real, time: real): real {
    Fade(Cos(m, time * 0.5 + p.phase), 1.0 - t) * 0.5
  }

  /** The vertical float: sin(time * speed + phase) * (1 - t). */
  function VerticalFloat(m: MathLib, p: ParticleData, t: real, time: real): real {
    Fade(Sin(m, time * p.speed + p.phase), 1.0 - t)
  }

  /** A wave value scaled by the float intensity. */
  function Fade(wave: real, intensity: real): real {
    wave * intensity
  }

  /** The rotation of an instance. While floating, x and y tumble away from the record's rotation
      and z is whatever the shared scratch object already held (`roll`): the source does not
      write it. Once settled, the record's rotation is copied and the popping categories sway
      about y. */
  function MorphRotation(m: MathLib, p: ParticleData, kind: OrnamentType, t: real, time: real, roll: real): Euler {
    if t < Settled then
      var floatIntensity := 1.0 - t;
      Euler(p.rotation.x + time * p.rotationSpeed * floatIntensity,
            p.rotation.y + time * p.rotationSpeed * floatIntensity,
            roll)
    else
      Euler(p.rotation.x,
            p.rotation.y + (if Pops(kind) then Sin(m, time * 0.5 + p.phase) * 0.05 else 0.0),
            p.rotation.z)
  }

  /** The stagger of instance i: (i mod 50) / 50, scaled by 0.2 into the smoothstep's lower edge. */
  function StaggerEdge(i: nat): (e: real)
    ensures 0.0 <= e <= 0.196
  {
    var bucket := (i % 50) as real;
    assert bucket <= 49.0;
    bucket / 50.0 * 0.2
  }

  /** `smoothstep(t, stagger, 1)`: how far instance i has grown. */
  function Growth(i: nat, t: real): real {
    Smoothstep(t, StaggerEdge(i), 1.0)
  }

  /** Needles, spheres and cones grow linearly with the growth; boxes, ribbons and small stars
      pop in with `backOut`. */
  function ScaleFactor(kind: OrnamentType, g: real): real {
    if Pops(kind) then BackOut(g) else g
  }

  /** The scale of an instance of growth g: the record's uniform scale times the factor, with
      cones stretched 2.5 times along y. */
  function ScaleAt(p: ParticleData, kind: OrnamentType, g: real): Vec3 {
    var s := p.scale.x * ScaleFactor(kind, g);
    Vec3(s, if kind == Cone then s * 2.5 else s, s)
  }

  function MorphScale(p: ParticleData, i: nat, kind: OrnamentType, t: real): Vec3 {
    ScaleAt(p, kind, Growth(i, t))
  }

  /** What `updateMesh` composes into the matrix of instance i. */
  datatype Transform = Transform(position: Vec3, rotation: Euler, scale: Vec3)

  function MorphTransform(m: MathLib, p: ParticleData, i: nat, kind: OrnamentType, t: real, time: real, roll: real): Transform {
    Transform(MorphPosition(m, p, t, time), MorphRotation(m, p, kind, t, time, roll), MorphScale(p, i, kind, t))
  }

  /** Settled instances sit exactly on the lerp between their two positions; at t = 1 that is
      the tree position. */
  lemma SettledPosition(m: MathLib, p: ParticleData, t: real, time: real)
    requires Settled <= t
    ensures MorphPosition(m, p, t, time) == LerpVec(p.scatterPosition, p.treePosition, t)
    ensures t == 1.0 ==> MorphPosition(m, p, t, time) == p.treePosition
  {
  }

  /** While floating, an instance strays from the lerp by at most 1 - t vertically and
      (1 - t) / 2 along x, and not at all along z. */
  lemma FloatBounded(m: MathLib, p: ParticleData, t: real, time: real)
    requires Bounded(m) && t < Settled
    ensures var base := LerpVec(p.scatterPosition, p.treePosition, t);
      var pos := MorphPosition(m, p, t, time);
      && Abs(pos.y - base.y) <= 1.0 - t
      && Abs(pos.x - base.x) <= (1.0 - t) * 0.5
      && pos.z == base.z
  {
    VerticalFloatBounded(m, p, t, time);
    SideFloatBounded(m, p, t, time);
  }

  lemma VerticalFloatBounded(m: MathLib, p: ParticleData, t: real, time: real)
    requires Bounded(m) && t <= 1.0
    ensures Abs(VerticalFloat(m, p, t, time)) <= 1.0 - t
  {
    FadeBounded(Sin(m, time * p.speed + p.phase), 1.0 - t);
  }

  lemma SideFloatBounded(m: MathLib, p: ParticleData, t: real, time: real)
    requires Bounded(m) && t <= 1.0
    ensures Abs(SideFloat(m, p, t, time)) <= (1.0 - t) * 0.5
  {
    FadeBounded(Cos(m, time * 0.5 + p.phase), 1.0 - t);
  }

  /** A wave in [-1, 1] faded by a non-negative intensity stays within that intensity. */
  lemma FadeBounded(wave: real, intensity: real)
    requires -1.0 <= wave <= 1.0 && 0.0 <= intensity
    ensures Abs(Fade(wave, intensity)) <= intensity
  {
    MulBoundedFactor(wave, intensity);
  }

  /** Settled instances keep their record's x and z rotation; only the popping categories sway
      about y, by at most 0.05. */
  lemma SettledRotation(m: MathLib, p: ParticleData, kind: OrnamentType, t: real, time: real, roll: real)
    requires Bounded(m) && Settled <= t
    ensures var r := MorphRotation(m, p, kind, t, time, roll);
      && r.x == p.rotation.x && r.z == p.rotation.z
      && Abs(r.y - p.rotation.y) <= 0.05
      && (!Pops(kind) ==> r.y == p.rotation.y)
  {
    var sw := Sin(m, time * 0.5 + p.phase);
    MulBoundedFactor(sw, 0.05);
  }

  /** The scratch object's roll never leaves zero on roll-free records: while floating the old
      roll is kept, once settled the record's own zero roll is copied. */
  lemma RollStaysZero(m: MathLib, p: ParticleData, kind: OrnamentType, t: real, time: real, roll: real)
    requires p.rotation.z == 0.0 && roll == 0.0
    ensures MorphRotation(m, p, kind, t, time, roll).z == 0.0
  {
  }

  /** While floating, the roll is the one left behind by the previous instance, whatever this
      record's own roll is. */
  lemma FloatingKeepsRoll(m: MathLib, p: ParticleData, kind: OrnamentType, t: real, time: real, roll: real)
    requires t < Settled
    ensures MorphRotation(m, p, kind, t, time, roll).z == roll
  {
  }

  /** Growth is 0 up to the instance's stagger edge, strictly between 0 and 1 after it, and
      reaches 1 only at t = 1. */
  lemma GrowthShape(i: nat, t: real)
    ensures t <= StaggerEdge(i) ==> Growth(i, t) == 0.0
    ensures StaggerEdge(i) < t < 1.0 ==> 0.0 < Growth(i, t) < 1.0
    ensures 1.0 <= t ==> Growth(i, t) == 1.0
    ensures t <= 0.0 ==> Growth(i, t) == 0.0
  {
  }

  /** Growth never decreases as the progress rises. */
  lemma GrowthMonotone(i: nat, t1: real, t2: real)
    requires t1 <= t2
    ensures Growth(i, t1) <= Growth(i, t2)
  {
    SmoothstepMonotone(t1, t2, StaggerEdge(i), 1.0);
  }

  /** An instance in a lower stagger bucket is never behind one in a higher bucket. */
  lemma GrowthStaggered(i: nat, j: nat, t: real)
    requires i % 50 <= j % 50
    ensures Growth(j, t) <= Growth(i, t)
  {
    var bi := (i % 50) as real;
    var bj := (j % 50) as real;
    DivMonotone(bi, bj, 50.0);
    SmoothstepStartAntitone(t, StaggerEdge(i), StaggerEdge(j));
  }

  /** At t = 1 every instance has its record's scale (cones stretched 2.5 times along y); at
      t <= 0 every instance is shrunk to nothing. */
  lemma ScaleEnds(p: ParticleData, i: nat, kind: OrnamentType)
    ensures var s := MorphScale(p, i, kind, 1.0);
      s.x == p.scale.x && s.z == p.scale.x && s.y == (if kind == Cone then p.scale.x * 2.5 else p.scale.x)
    ensures MorphScale(p, i, kind, 0.0) == Vec3(0.0, 0.0, 0.0)
  {
    GrowthShape(i, 1.0);
    GrowthShape(i, 0.0);
    BackOutEnds();
  }

  /** A non-negative scale times a factor in [0, bound] lies in [0, bound * scale]. */
  lemma ScaleWithin(x: real, f: real, bound: real)
    requires 0.0 <= x && 0.0 <= f <= bound
    ensures 0.0 <= x * f <= bound * x
  {
    MulNonneg(x, f);
    MulNonneg(x, bound - f);
    assert x * (bound - f) == bound * x - x * f;
  }

  /** The linear categories stay within their record's scale, and the popping categories within
      1.101 times it: the back-out curve overshoots by about 10%. */
  lemma ScaleBounded(p: ParticleData, i: nat, kind: OrnamentType, t: real)
    requires 0.0 <= p.scale.x
    ensures var s := MorphScale(p, i, kind, t).x;
      && 0.0 <= s
      && (!Pops(kind) ==> s <= p.scale.x)
      && (Pops(kind) ==> s <= 1.101 * p.scale.x)
  {
    ScaleAtBounded(p, kind, Growth(i, t));
  }

  lemma ScaleAtBounded(p: ParticleData, kind: OrnamentType, g: real)
    requires 0.0 <= p.scale.x && 0.0 <= g <= 1.0
    ensures var s := ScaleAt(p, kind, g).x;
      && 0.0 <= s
      && (!Pops(kind) ==> s <= p.scale.x)
      && (Pops(kind) ==> s <= 1.101 * p.scale.x)
  {
    var f := ScaleFactor(kind, g);
    var bound := if Pops(kind) then 1.101 else 1.0;
    FactorBounded(kind, g);
    ScaleWithin(p.scale.x, f, bound);
    assert ScaleAt(p, kind, g).x == p.scale.x * f;
    assert 0.0 <= p.scale.x * f <= bound * p.scale.x;
    ProductWithin(ScaleAt(p, kind, g).x, p.scale.x, f, bound * p.scale.x);
  }

  /** The linear factor is the growth itself, in [0, 1]; the back-out factor lies in [0, 1.101]. */
  lemma FactorBounded(kind: OrnamentType, g: real)
    requires 0.0 <= g <= 1.0
    ensures 0.0 <= ScaleFactor(kind, g) <= (if Pops(kind) then 1.101 else 1.0)
  {
    if Pops(kind) {
      BackOutNonNegative(g);
      BackOutAtMost(g);
    }
  }
}
