/** The particle dataset builder (components/InteractiveTree.tsx, the `useMemo` that fills
    `_needles`, `_boxes`, `_ribbons`, `_spheres`, `_cones`, `_smallStars` and `starData`).
    `Math.random()` is a tape of draws read front to back: every particle consumes a fixed
    number of draws, in the order the source evaluates its `Math.random()` calls. */
module Builder {
  import opened Types
  import opened Constants
  import opened Transcendental
  import opened Generators

  /** Draws consumed per needle, gift (box and ribbon), sphere, misc item and big star. */
  const NeedleDraws: nat := 11
  const GiftDraws: nat := 12
  const SphereDraws: nat := 10
  const MiscDraws: nat := 10
  const StarDraws: nat := 3

  /** Where each loop starts reading the tape. */
  const GiftBase: nat := NeedleCount * NeedleDraws
  const SphereBase: nat := GiftBase + GiftCount * GiftDraws
  const MiscBase: nat := SphereBase + SphereCount * SphereDraws
  const StarBase: nat := MiscBase + MiscCount * MiscDraws
  const TotalDraws: nat := StarBase + StarDraws

  /** Every draw of `d` is a `Math.random()` value, in [0, 1). */
  ghost predicate UnitDraws(d: seq<real>) {
    forall k :: 0 <= k < |d| ==> 0.0 <= d[k] < 1.0
  }

  /** The output of the builder: one ordered sequence per instanced category, and the star. */
  datatype Dataset = Dataset(
    needles: seq<ParticleData>,
    boxes: seq<ParticleData>,
    ribbons: seq<ParticleData>,
    spheres: seq<ParticleData>,
    cones: seq<ParticleData>,
    smallStars: seq<ParticleData>,
    star: ParticleData)

  /** The height fraction of needle i: (i / NeedleCount) ^ 0.8, denser towards the bottom. */
  function NeedleRatio(m: MathLib, i: nat): real {
    Pow(m, (i as real) / (NeedleCount as real), 0.8)
  }

  /** The distance of needle i from the axis: the cone radius at its ratio, jittered by
      a factor in [0.8, 1.2). */
  function NeedleDistance(m: MathLib, i: nat, jitter: real): real {
    Jitter(NeedleConeRadius(m, i), jitter)
  }

  /** A radius scaled by 0.8 + 0.4 * draw: a draw in [0, 1) gives a factor in [0.8, 1.2). */
  function Jitter(r: real, draw: real): real {
    r * (0.8 + draw * 0.4)
  }

  /** The cone radius at the height of needle i. */
  function NeedleConeRadius(m: MathLib, i: nat): real {
    (1.0 - NeedleRatio(m, i)) * TreeRadius
  }

  /** Needle i: a denser spiral than the shared generator, with the radius jittered by +-20%.
      Draws: angle, jitter, three for the scatter point, two for the rotation, scale, colour,
      speed, phase. */
  function NeedleAt(m: MathLib, i: nat, d: seq<real>): ParticleData
    requires |d| == NeedleDraws
  {
    var ratio := NeedleRatio(m, i);
    var angle := (i as real) * 0.1 + d[0];
    var rJitter := NeedleDistance(m, i, d[1]);
    ParticleData(
      id := i,
      kind := Needle,
      treePosition := Vec3(Cos(m, angle) * rJitter, TreeHeightAt(ratio), Sin(m, angle) * rJitter),
      scatterPosition := GenerateScatterPosition(m, d[2], d[3], d[4]),
      rotation := Euler(d[5] * Pi, d[6] * Pi, 0.0),
      rotationSpeed := 0.05,
      scale := Uniform(d[7] * 0.3 + 0.2),
      color := if d[8] > 0.6 then EmeraldDeep else EmeraldLight,
      speed := d[9] * 0.2 + 0.1,
      phase := d[10] * Pi * 2.0)
  }

  /** Gift i: a box and the ribbon tied on it, built from one shared position, scatter point,
      rotation and scale. Draws: ratio, spiral angle, three for the scatter point, scale,
      box colour, rotation, then speed and phase of the box and speed and phase of the ribbon. */
  function GiftAt(m: MathLib, i: nat, d: seq<real>): (ParticleData, ParticleData)
    requires |d| == GiftDraws
  {
    var pos := GenerateTreePosition(m, d[0] * 0.85, 0.5, d[1]);
    var scatter := GenerateScatterPosition(m, d[2], d[3], d[4]);
    var s := d[5] * 0.4 + 0.5;
    var rot := Euler(0.0, d[7] * Pi * 2.0, 0.0);
    var box := ParticleData(i, Box, scatter, pos, rot, 0.1, Uniform(s),
                            if d[6] > 0.5 then EmeraldDeep else RedVelvet, d[8] * 0.3, d[9] * 10.0);
    var ribbon := ParticleData(i, Ribbon, scatter, pos, rot, 0.1, Uniform(s),
                               GoldWarm, d[10] * 0.3, d[11] * 10.0);
    (box, ribbon)
  }

  /** The three-way sphere colour: red below 0.3, light emerald below 0.6, gold otherwise. */
  function SphereColor(rnd: real): Color {
    if rnd < 0.3 then RedVelvet else if rnd < 0.6 then EmeraldLight else GoldMetallic
  }

  /** Sphere i. Draws: ratio, spiral angle, three for the scatter point, colour, two for the
      rotation, rotation speed, speed. The phase is the index itself. */
  function SphereAt(m: MathLib, i: nat, d: seq<real>): ParticleData
    requires |d| == SphereDraws
  {
    ParticleData(
      id := i,
      kind := Sphere,
      treePosition := GenerateTreePosition(m, d[0] * 0.95, 0.2, d[1]),
      scatterPosition := GenerateScatterPosition(m, d[2], d[3], d[4]),
      rotation := Euler(d[6] * Pi, d[7] * Pi, 0.0),
      rotationSpeed := d[8] * 0.5,
      scale := Uniform(0.35),
      color := SphereColor(d[5]),
      speed := d[9] * 0.2,
      phase := i as real)
  }

  /** The category a misc draw selects: cone below 0.4, small star below 0.7, ribbon otherwise. */
  function MiscKind(typeRnd: real): (k: OrnamentType)
    ensures k == Cone <==> typeRnd < 0.4
    ensures k == SmallStar <==> 0.4 <= typeRnd < 0.7
    ensures k == Ribbon <==> 0.7 <= typeRnd
  {
    if typeRnd < 0.4 then Cone else if typeRnd < 0.7 then SmallStar else Ribbon
  }

  /** Misc item i: shared data, then the scale and colour of the selected category.
      Draws: ratio, spiral angle, three for the scatter point, category, two for the rotation,
      rotation speed, speed. The phase is the index itself. */
  function MiscAt(m: MathLib, i: nat, d: seq<real>): ParticleData
    requires |d| == MiscDraws
  {
    var kind := MiscKind(d[5]);
    ParticleData(
      id := i,
      kind := kind,
      treePosition := GenerateTreePosition(m, d[0] * 0.9, 0.3, d[1]),
      scatterPosition := GenerateScatterPosition(m, d[2], d[3], d[4]),
      rotation := Euler(d[6] * Pi, d[7] * Pi, 0.0),
      rotationSpeed := d[8] * 0.4,
      scale := Uniform(if kind == Cone then 0.3 else if kind == SmallStar then 0.4 else 0.6),
      color := if kind == Cone then GoldMetallic else GoldWarm,
      speed := d[9] * 0.2,
      phase := i as real)
  }

  /** The single topper, one unit above the tree's tip. Draws: three for the scatter point. */
  function StarAt(m: MathLib, d: seq<real>): ParticleData
    requires |d| == StarDraws
  {
    ParticleData(9999, Star, GenerateScatterPosition(m, d[0], d[1], d[2]),
                 Vec3(0.0, TreeHeight / 2.0 + 1.0, 0.0), Euler(0.0, 0.0, 0.0), 0.5,
                 Uniform(1.8), GoldMetallic, 0.2, 0.0)
  }

  /** The draws of needle i, gift i, sphere i and misc item i. */
  function NeedleTape(rng: seq<real>, i: nat): (d: seq<real>)
    requires |rng| >= TotalDraws && i < NeedleCount
    ensures |d| == NeedleDraws
  {
    rng[i * NeedleDraws .. i * NeedleDraws + NeedleDraws]
  }

  function GiftTape(rng: seq<real>, i: nat): (d: seq<real>)
    requires |rng| >= TotalDraws && i < GiftCount
    ensures |d| == GiftDraws
  {
    rng[GiftBase + i * GiftDraws .. GiftBase + i * GiftDraws + GiftDraws]
  }

  function SphereTape(rng: seq<real>, i: nat): (d: seq<real>)
    requires |rng| >= TotalDraws && i < SphereCount
    ensures |d| == SphereDraws
  {
    rng[SphereBase + i * SphereDraws .. SphereBase + i * SphereDraws + SphereDraws]
  }

  function MiscTape(rng: seq<real>, i: nat): (d: seq<real>)
    requires |rng| >= TotalDraws && i < MiscCount
    ensures |d| == MiscDraws
  {
    rng[MiscBase + i * MiscDraws .. MiscBase + i * MiscDraws + MiscDraws]
  }

  /** The misc pool in draw order, before it is split by category. */
  function MiscPool(m: MathLib, rng: seq<real>): (pool: seq<ParticleData>)
    requires |rng| >= TotalDraws
    ensures |pool| == MiscCount
  {
    seq(MiscCount, i requires 0 <= i < MiscCount => MiscAt(m, i, MiscTape(rng, i)))
  }

  /** The records of kind `k` among the first `n` of `s`, in order. */
  function OfKind(s: seq<ParticleData>, n: nat, k: OrnamentType): (r: seq<ParticleData>)
    requires n <= |s|
    ensures |r| <= n
  {
    if n == 0 then []
    else OfKind(s, n - 1, k) + (if s[n - 1].kind == k then [s[n - 1]] else [])
  }

  /** The misc records of kind `k`, in draw order. */
  function MiscOfKind(m: MathLib, rng: seq<real>, k: OrnamentType): seq<ParticleData>
    requires |rng| >= TotalDraws
  {
    OfKind(MiscPool(m, rng), MiscCount, k)
  }

  /** Everything the filter keeps comes from `s` and has kind `k`. */
  lemma {:induction false} OfKindMember(s: seq<ParticleData>, n: nat, k: OrnamentType, x: ParticleData)
    requires n <= |s| && x in OfKind(s, n, k)
    ensures exists j :: 0 <= j < n && s[j] == x && x.kind == k
  {
    if x !in OfKind(s, n - 1, k) {
      assert s[n - 1] == x;
    } else {
      OfKindMember(s, n - 1, k, x);
    }
  }

  /** Splitting records that are all cones, small stars or ribbons loses nothing:
      the three parts add up to the number of records. */
  lemma {:induction false} SplitCoversPool(s: seq<ParticleData>, n: nat)
    requires n <= |s|
    requires forall j :: 0 <= j < n ==> s[j].kind in {Cone, SmallStar, Ribbon}
    ensures |OfKind(s, n, Cone)| + |OfKind(s, n, SmallStar)| + |OfKind(s, n, Ribbon)| == n
  {
    if n > 0 {
      SplitCoversPool(s, n - 1);
    }
  }

  /** Every misc record has the category its draw selects and an id below the pool size. */
  lemma MiscPoolShape(m: MathLib, rng: seq<real>)
    requires |rng| >= TotalDraws
    ensures forall j :: 0 <= j < MiscCount ==>
      MiscPool(m, rng)[j].kind in {Cone, SmallStar, Ribbon} && MiscPool(m, rng)[j].id == j
  {
    var pool := MiscPool(m, rng);
    forall j | 0 <= j < MiscCount ensures pool[j].kind in {Cone, SmallStar, Ribbon} && pool[j].id == j {
      assert pool[j] == MiscAt(m, j, MiscTape(rng, j));
    }
  }

  /** The split sizes add up: cones + small stars + independent ribbons = MiscCount. */
  lemma MiscSplitSizes(m: MathLib, rng: seq<real>)
    requires |rng| >= TotalDraws
    ensures |MiscOfKind(m, rng, Cone)| + |MiscOfKind(m, rng, SmallStar)| + |MiscOfKind(m, rng, Ribbon)| == MiscCount
  {
    MiscPoolShape(m, rng);
    SplitCoversPool(MiscPool(m, rng), MiscCount);
  }

  /** No record the builder makes is rolled about its z axis. */
  predicate RollFree(s: seq<ParticleData>) {
    forall k :: 0 <= k < |s| ==> s[k].rotation.z == 0.0
  }

  /** The needle loop. */
  method BuildNeedles(m: MathLib, rng: seq<real>) returns (needles: seq<ParticleData>)
    requires |rng| >= TotalDraws
    ensures |needles| == NeedleCount
    ensures forall i :: 0 <= i < NeedleCount ==> needles[i] == NeedleAt(m, i, NeedleTape(rng, i))
  {
    needles := [];
    for i := 0 to NeedleCount
      invariant |needles| == i
      invariant forall j :: 0 <= j < i ==> needles[j] == NeedleAt(m, j, NeedleTape(rng, j))
    {
      needles := needles + [NeedleAt(m, i, NeedleTape(rng, i))];
    }
  }

  /** The gift loop: box i and ribbon i come from the same draws. */
  method BuildGifts(m: MathLib, rng: seq<real>) returns (boxes: seq<ParticleData>, ribbons: seq<ParticleData>)
    requires |rng| >= TotalDraws
    ensures |boxes| == GiftCount && |ribbons| == GiftCount
    ensures forall i :: 0 <= i < GiftCount ==>
      boxes[i] == GiftAt(m, i, GiftTape(rng, i)).0 && ribbons[i] == GiftAt(m, i, GiftTape(rng, i)).1
  {
    boxes, ribbons := [], [];
    for i := 0 to GiftCount
      invariant |boxes| == i && |ribbons| == i
      invariant forall j :: 0 <= j < i ==>
        boxes[j] == GiftAt(m, j, GiftTape(rng, j)).0 && ribbons[j] == GiftAt(m, j, GiftTape(rng, j)).1
    {
      var gift := GiftAt(m, i, GiftTape(rng, i));
      boxes := boxes + [gift.0];
      ribbons := ribbons + [gift.1];
    }
  }

  /** The sphere loop. */
  method BuildSpheres(m: MathLib, rng: seq<real>) returns (spheres: seq<ParticleData>)
    requires |rng| >= TotalDraws
    ensures |spheres| == SphereCount
    ensures forall i :: 0 <= i < SphereCount ==> spheres[i] == SphereAt(m, i, SphereTape(rng, i))
  {
    spheres := [];
    for i := 0 to SphereCount
      invariant |spheres| == i
      invariant forall j :: 0 <= j < i ==> spheres[j] == SphereAt(m, j, SphereTape(rng, j))
    {
      spheres := spheres + [SphereAt(m, i, SphereTape(rng, i))];
    }
  }

  /** The misc loop: each item goes to the cones, the small stars, or the end of the ribbons
      (after the ribbons already there), by its category draw. */
  method SplitMisc(m: MathLib, rng: seq<real>, ribbonsIn: seq<ParticleData>)
    returns (cones: seq<ParticleData>, smallStars: seq<ParticleData>, ribbons: seq<ParticleData>)
    requires |rng| >= TotalDraws
    ensures cones == MiscOfKind(m, rng, Cone)
    ensures smallStars == MiscOfKind(m, rng, SmallStar)
    ensures ribbons == ribbonsIn + MiscOfKind(m, rng, Ribbon)
  {
    cones, smallStars, ribbons := [], [], ribbonsIn;
    ghost var pool := MiscPool(m, rng);
    for i := 0 to MiscCount
      invariant cones == OfKind(pool, i, Cone)
      invariant smallStars == OfKind(pool, i, SmallStar)
      invariant ribbons == ribbonsIn + OfKind(pool, i, Ribbon)
    {
      var item := MiscAt(m, i, MiscTape(rng, i));
      assert item == pool[i];
      if item.kind == Cone {
        cones := cones + [item];
      } else if item.kind == SmallStar {
        smallStars := smallStars + [item];
      } else {
        ribbons := ribbons + [item];
      }
    }
  }

  /** Builds every category in the source's order, consuming the tape as the source consumes
      `Math.random()`. */
  method BuildDataset(m: MathLib, rng: seq<real>) returns (ds: Dataset)
    requires |rng| >= TotalDraws
    ensures |ds.needles| == NeedleCount
    ensures forall i :: 0 <= i < NeedleCount ==> ds.needles[i] == NeedleAt(m, i, NeedleTape(rng, i))
    ensures |ds.boxes| == GiftCount && |ds.spheres| == SphereCount && |ds.ribbons| >= GiftCount
    ensures forall i :: 0 <= i < GiftCount ==>
      ds.boxes[i] == GiftAt(m, i, GiftTape(rng, i)).0 && ds.ribbons[i] == GiftAt(m, i, GiftTape(rng, i)).1
    ensures forall i :: 0 <= i < SphereCount ==> ds.spheres[i] == SphereAt(m, i, SphereTape(rng, i))
    ensures ds.cones == MiscOfKind(m, rng, Cone)
    ensures ds.smallStars == MiscOfKind(m, rng, SmallStar)
    ensures ds.ribbons[GiftCount..] == MiscOfKind(m, rng, Ribbon)
    ensures |ds.cones| + |ds.smallStars| + (|ds.ribbons| - GiftCount) == MiscCount
    ensures ds.star == StarAt(m, rng[StarBase .. StarBase + StarDraws])
  {
    var needles := BuildNeedles(m, rng);
    var boxes, giftRibbons := BuildGifts(m, rng);
    var spheres := BuildSpheres(m, rng);
    var cones, smallStars, ribbons := SplitMisc(m, rng, giftRibbons);
    assert ribbons[GiftCount..] == MiscOfKind(m, rng, Ribbon);
    MiscSplitSizes(m, rng);
    var star := StarAt(m, rng[StarBase .. StarBase + StarDraws]);
    ds := Dataset(needles, boxes, ribbons, spheres, cones, smallStars, star);
  }

  /** A box and its ribbon share id, tree position, scatter point, rotation and scale; the ribbon
      is always warm gold, the box deep emerald exactly when its colour draw exceeds 0.5 and red
      velvet otherwise. */
  lemma GiftPairing(m: MathLib, i: nat, d: seq<real>)
    requires |d| == GiftDraws
    ensures var (box, ribbon) := GiftAt(m, i, d);
      && box.kind == Box && ribbon.kind == Ribbon
      && box.id == ribbon.id == i
      && box.treePosition == ribbon.treePosition
      && box.scatterPosition == ribbon.scatterPosition
      && box.rotation == ribbon.rotation
      && box.scale == ribbon.scale
      && ribbon.color == GoldWarm
      && (box.color == EmeraldDeep <==> d[6] > 0.5)
      && (box.color == RedVelvet <==> d[6] <= 0.5)
  {
  }

  /** For draws in [0, 1) the gift scale lies in [0.5, 0.9) and the gift sits on the lowest
      85% of the tree, half a unit outside the cone. */
  lemma GiftRanges(m: MathLib, i: nat, d: seq<real>)
    requires |d| == GiftDraws && UnitDraws(d) && Sound(m)
    ensures var (box, _) := GiftAt(m, i, d);
      && 0.5 <= box.scale.x < 0.9
      && -TreeHeight / 2.0 <= box.treePosition.y < TreeHeightAt(0.85)
      && box.treePosition.x * box.treePosition.x + box.treePosition.z * box.treePosition.z
         == ConeRadius(d[0] * 0.85, 0.5) * ConeRadius(d[0] * 0.85, 0.5)
  {
    assert 0.0 <= d[0] < 1.0 && 0.0 <= d[5] < 1.0;
    TreePositionOnCone(m, d[0] * 0.85, 0.5, d[1]);
  }

  /** A needle lies on its spiral: at the height of its pow-shaped ratio and at a distance from
      the axis between 80% and 120% of the cone radius there. */
  lemma NeedleOnSpiral(m: MathLib, i: nat, d: seq<real>)
    requires |d| == NeedleDraws && UnitDraws(d) && Sound(m) && i < NeedleCount
    ensures var p := NeedleAt(m, i, d);
      var r := NeedleConeRadius(m, i);
      var rj := NeedleDistance(m, i, d[1]);
      && 0.0 <= NeedleRatio(m, i) <= 1.0
      && -TreeHeight / 2.0 <= p.treePosition.y <= TreeHeight / 2.0
      && 0.8 * r <= rj <= 1.2 * r
      && p.treePosition.x * p.treePosition.x + p.treePosition.z * p.treePosition.z == rj * rj
  {
    var angle := (i as real) * 0.1 + d[0];
    assert 0.0 <= d[1] < 1.0;
    NeedleDistanceBounds(m, i, d[1]);
    TreeHeightRange(NeedleRatio(m, i));
    OnCircle(Cos(m, angle), Sin(m, angle), NeedleDistance(m, i, d[1]));
  }

  /** The jittered distance of a needle stays within 80% and 120% of the cone radius. */
  lemma NeedleDistanceBounds(m: MathLib, i: nat, j: real)
    requires Sound(m) && i < NeedleCount && 0.0 <= j < 1.0
    ensures 0.0 <= NeedleRatio(m, i) <= 1.0
    ensures 0.8 * NeedleConeRadius(m, i) <= NeedleDistance(m, i, j) <= 1.2 * NeedleConeRadius(m, i)
  {
    assert 0.0 <= (i as real) / (NeedleCount as real) <= 1.0;
    JitterBounds(NeedleConeRadius(m, i), j);
  }

  /** Scaling a non-negative radius by 0.8 + 0.4 j with j in [0, 1) keeps it within 80% and
      120% of itself. */
  lemma JitterBounds(r: real, j: real)
    requires 0.0 <= r && 0.0 <= j < 1.0
    ensures 0.8 * r <= Jitter(r, j) <= 1.2 * r
  {
    RealArith.MulNonneg(r, j * 0.4);
    RealArith.MulNonneg(r, 0.4 - j * 0.4);
    assert r * (0.8 + j * 0.4) == 0.8 * r + r * (j * 0.4);
    assert 1.2 * r - r * (0.8 + j * 0.4) == r * (0.4 - j * 0.4);
  }

  /** Needles grow to [0.2, 0.5), move at a speed in [0.1, 0.3), and are deep emerald exactly
      when the colour draw exceeds 0.6. */
  lemma NeedleRanges(m: MathLib, i: nat, d: seq<real>)
    requires |d| == NeedleDraws && UnitDraws(d)
    ensures var p := NeedleAt(m, i, d);
      && p.kind == Needle && p.id == i
      && 0.2 <= p.scale.x < 0.5
      && 0.1 <= p.speed < 0.3
      && (p.color == EmeraldDeep <==> d[8] > 0.6)
      && (p.color == EmeraldLight <==> d[8] <= 0.6)
  {
    assert 0.0 <= d[7] < 1.0 && 0.0 <= d[9] < 1.0;
  }

  /** The sphere colour draw splits three ways: red below 0.3, light emerald on [0.3, 0.6),
      gold from 0.6. */
  lemma SphereColorThresholds(rnd: real)
    ensures SphereColor(rnd) == RedVelvet <==> rnd < 0.3
    ensures SphereColor(rnd) == EmeraldLight <==> 0.3 <= rnd < 0.6
    ensures SphereColor(rnd) == GoldMetallic <==> 0.6 <= rnd
  {
  }

  /** The misc categories get their own scale and colour: cones 0.3 and metallic gold, small
      stars 0.4 and warm gold, independent ribbons 0.6 and warm gold. */
  lemma MiscLooks(m: MathLib, i: nat, d: seq<real>)
    requires |d| == MiscDraws
    ensures var p := MiscAt(m, i, d);
      && (p.kind == Cone ==> p.scale == Uniform(0.3) && p.color == GoldMetallic)
      && (p.kind == SmallStar ==> p.scale == Uniform(0.4) && p.color == GoldWarm)
      && (p.kind == Ribbon ==> p.scale == Uniform(0.6) && p.color == GoldWarm)
      && p.id == i
  {
  }

  /** The topper stands one unit above the tip of every spiral point: any ratio in [0, 1]
      gives a height at most TreeHeight / 2, and the star sits at TreeHeight / 2 + 1. */
  lemma StarAboveTree(m: MathLib, d: seq<real>, ratio: real)
    requires |d| == StarDraws && 0.0 <= ratio <= 1.0
    ensures var s := StarAt(m, d);
      && s.id == 9999 && s.kind == Star
      && s.treePosition == Vec3(0.0, 10.0, 0.0)
      && TreeHeightAt(ratio) + 1.0 <= s.treePosition.y
  {
    TreeHeightRange(ratio);
  }

  /** The independent ribbons reuse ids 0 .. 79, which the gift ribbons already carry: as soon
      as the misc pool yields one ribbon, two entries of the ribbon sequence share an id. */
  lemma RibbonIdsRepeat(m: MathLib, rng: seq<real>, ribbons: seq<ParticleData>)
    requires |rng| >= TotalDraws
    requires |ribbons| > GiftCount
    requires forall i :: 0 <= i < GiftCount ==> ribbons[i] == GiftAt(m, i, GiftTape(rng, i)).1
    requires ribbons[GiftCount..] == MiscOfKind(m, rng, Ribbon)
    ensures exists a, b :: 0 <= a < b < |ribbons| && ribbons[a].id == ribbons[b].id
  {
    var x := ribbons[GiftCount];
    assert x == ribbons[GiftCount..][0];
    OfKindMember(MiscPool(m, rng), MiscCount, Ribbon, x);
    MiscPoolShape(m, rng);
    var a := x.id;
    assert ribbons[a].id == a;
    assert ribbons[a].id == ribbons[GiftCount].id;
  }

  /** Every record the builder makes has a zero roll (rotation about z). */
  lemma {:induction false} OfKindRollFree(s: seq<ParticleData>, n: nat, k: OrnamentType)
    requires n <= |s| && RollFree(s)
    ensures RollFree(OfKind(s, n, k))
  {
    if n > 0 {
      OfKindRollFree(s, n - 1, k);
      assert s[n - 1].rotation.z == 0.0;
    }
  }

  /** The misc pool is roll-free. */
  lemma MiscPoolRollFree(m: MathLib, rng: seq<real>)
    requires |rng| >= TotalDraws
    ensures RollFree(MiscPool(m, rng))
  {
    var pool := MiscPool(m, rng);
    forall k | 0 <= k < |pool| ensures pool[k].rotation.z == 0.0 {
      assert pool[k] == MiscAt(m, k, MiscTape(rng, k));
    }
  }

  /** The built dataset is roll-free in every category, star included. */
  lemma DatasetRollFree(m: MathLib, rng: seq<real>, ds: Dataset)
    requires |rng| >= TotalDraws
    requires |ds.needles| == NeedleCount
    requires forall i :: 0 <= i < NeedleCount ==> ds.needles[i] == NeedleAt(m, i, NeedleTape(rng, i))
    requires |ds.boxes| == GiftCount && |ds.spheres| == SphereCount && |ds.ribbons| >= GiftCount
    requires forall i :: 0 <= i < GiftCount ==>
      ds.boxes[i] == GiftAt(m, i, GiftTape(rng, i)).0 && ds.ribbons[i] == GiftAt(m, i, GiftTape(rng, i)).1
    requires forall i :: 0 <= i < SphereCount ==> ds.spheres[i] == SphereAt(m, i, SphereTape(rng, i))
    requires ds.cones == MiscOfKind(m, rng, Cone)
    requires ds.smallStars == MiscOfKind(m, rng, SmallStar)
    requires ds.ribbons[GiftCount..] == MiscOfKind(m, rng, Ribbon)
    requires ds.star == StarAt(m, rng[StarBase .. StarBase + StarDraws])
    ensures RollFree(ds.needles) && RollFree(ds.boxes) && RollFree(ds.ribbons) && RollFree(ds.spheres)
    ensures RollFree(ds.cones) && RollFree(ds.smallStars) && ds.star.rotation.z == 0.0
  {
    var pool := MiscPool(m, rng);
    MiscPoolRollFree(m, rng);
    OfKindRollFree(pool, MiscCount, Cone);
    OfKindRollFree(pool, MiscCount, SmallStar);
    OfKindRollFree(pool, MiscCount, Ribbon);
    RollFreeJoin(ds.ribbons, GiftCount);
  }

  /** A sequence is roll-free when its prefix and its suffix are. */
  lemma RollFreeJoin(s: seq<ParticleData>, n: nat)
    requires n <= |s|
    requires forall k :: 0 <= k < n ==> s[k].rotation.z == 0.0
    requires RollFree(s[n..])
    ensures RollFree(s)
  {
    forall k | n <= k < |s| ensures s[k].rotation.z == 0.0 {
      assert s[k] == s[n..][k - n];
    }
  }
}
