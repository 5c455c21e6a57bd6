/** The mutable side of components/InteractiveTree.tsx: the shared scratch object every instance
    transform is composed in, the instanced meshes with their matrix and colour buffers, the
    big star's group, and the component that owns the progress value and drives them all once
    per frame. */
module Scene {
  import opened Types
  import opened Transcendental
  import opened RealArith
  import opened ThreeMath
  import opened Easing
  import opened Morph
  import opened Builder

  /** `DUMMY_OBJ`: one Object3D, shared by every mesh, in which each instance's transform is
      set before it is copied into a slot. */
  class Object3D {
    var position: Vec3
    var rotation: Euler
    var scale: Vec3

    constructor ()
      ensures position == Vec3(0.0, 0.0, 0.0) && rotation == Euler(0.0, 0.0, 0.0)
      ensures scale == Uniform(1.0)
    {
      position := Vec3(0.0, 0.0, 0.0);
      rotation := Euler(0.0, 0.0, 0.0);
      scale := Uniform(1.0);
    }
  }

  /** The transform three.js stores in a fresh instance slot: the identity. */
  const Identity := Transform(Vec3(0.0, 0.0, 0.0), Euler(0.0, 0.0, 0.0), Uniform(1.0))

  /** An InstancedMesh: one transform per slot, a colour per slot that only exists once the
      colour buffer (`instanceColor`) has been created, and the two upload flags. */
  class InstancedMesh {
    var matrices: seq<Transform>
    var colors: seq<Color>
    var hasColors: bool
    var matrixNeedsUpdate: bool
    var colorNeedsUpdate: bool

    constructor (count: nat)
      ensures |matrices| == count && |colors| == count
      ensures forall i :: 0 <= i < count ==> matrices[i] == Identity
      ensures !hasColors && !matrixNeedsUpdate && !colorNeedsUpdate
    {
      matrices := seq(count, _ => Identity);
      // The colour slots carry no meaning until `hasColors`; any palette entry stands in.
      colors := seq(count, _ => EmeraldDeep);
      hasColors := false;
      matrixNeedsUpdate := false;
      colorNeedsUpdate := false;
    }

    /** `setMatrixAt(i, m)`: slot i, and only slot i, takes the transform. */
    method SetMatrixAt(i: nat, x: Transform)
      requires i < |matrices|
      modifies this`matrices
      ensures matrices == old(matrices)[i := x]
    {
      matrices := matrices[i := x];
    }

    /** `setColorAt(i, c)`: creates the colour buffer if there is none, then colours slot i. */
    method SetColorAt(i: nat, c: Color)
      requires i < |colors|
      modifies this`hasColors, this`colors
      ensures hasColors
      ensures colors == old(colors)[i := c]
    {
      hasColors := true;
      colors := colors[i := c];
    }

    /** The colour side of the mesh: the slots, whether the buffer exists, its upload flag. */
    ghost function ColorState(): (seq<Color>, bool, bool)
      reads this
    {
      (colors, hasColors, colorNeedsUpdate)
    }

    /** The matrix side of the mesh: the slots and their upload flag. */
    ghost function MatrixState(): (seq<Transform>, bool)
      reads this
    {
      (matrices, matrixNeedsUpdate)
    }
  }

  /** `slots` holds, for each record i of `data`, its morph transform. */
  ghost predicate Displays(slots: seq<Transform>, data: seq<ParticleData>, kind: OrnamentType,
                           m: MathLib, t: real, time: real, roll: real)
  {
    && |data| <= |slots|
    && forall i :: 0 <= i < |data| ==> slots[i] == MorphTransform(m, data[i], i, kind, t, time, roll)
  }

  /** What a call on `mesh` may change. */
  function MeshFrame(mesh: InstancedMesh?): set<object> {
    if mesh == null then {} else {mesh}
  }

  /** `updateMesh(ref, data, type)`: nothing happens when the ref is empty; otherwise slot i takes
      the morph transform of data[i] for every i < |data|, later slots keep what they held, and
      the matrix buffer is flagged for upload. The scratch object ends holding the last
      instance's transform; its roll is never written while floating, so every slot carries the
      roll it held on entry. */
  method UpdateMesh(mesh: InstancedMesh?, dummy: Object3D, data: seq<ParticleData>, kind: OrnamentType,
                    m: MathLib, t: real, time: real)
    requires mesh != null ==> |data| <= |mesh.matrices|
    modifies dummy, MeshFrame(mesh)
    ensures mesh == null ==> unchanged(dummy)
    ensures mesh != null ==>
      && Displays(mesh.matrices, data, kind, m, t, time, old(dummy.rotation.z))
      && |mesh.matrices| == |old(mesh.matrices)|
      && mesh.matrices[|data|..] == old(mesh.matrices)[|data|..]
      && mesh.matrixNeedsUpdate
      && mesh.colors == old(mesh.colors)
      && mesh.hasColors == old(mesh.hasColors) && mesh.colorNeedsUpdate == old(mesh.colorNeedsUpdate)
    ensures mesh != null && |data| > 0 ==>
      dummy.rotation.z == if t < Settled then old(dummy.rotation.z) else data[|data| - 1].rotation.z
    ensures mesh != null && |data| == 0 ==> unchanged(dummy)
  {
    if mesh == null {
      return;
    }
    ghost var roll := dummy.rotation.z;
    var i := 0;
    while i < |data|
      invariant 0 <= i <= |data|
      invariant |mesh.matrices| == |old(mesh.matrices)|
      invariant forall k :: 0 <= k < i ==> mesh.matrices[k] == MorphTransform(m, data[k], k, kind, t, time, roll)
      invariant forall k :: i <= k < |mesh.matrices| ==> mesh.matrices[k] == old(mesh.matrices)[k]
      invariant t < Settled ==> dummy.rotation.z == roll
      invariant i > 0 ==> Transform(dummy.position, dummy.rotation, dummy.scale) == mesh.matrices[i - 1]
      invariant i == 0 ==> unchanged(dummy)
      invariant mesh.colors == old(mesh.colors) && mesh.hasColors == old(mesh.hasColors)
      invariant mesh.colorNeedsUpdate == old(mesh.colorNeedsUpdate)
    {
      ComposeInstance(dummy, data[i], i, kind, m, t, time);
      var x := Transform(dummy.position, dummy.rotation, dummy.scale);
      mesh.SetMatrixAt(i, x);
      i := i + 1;
    }
    mesh.matrixNeedsUpdate := true;
  }

  /** The body of `updateMesh`'s loop for instance i: the scratch object takes the morph
      transform of p, carrying the roll it held. */
  method ComposeInstance(dummy: Object3D, p: ParticleData, i: nat, kind: OrnamentType,
                         m: MathLib, t: real, time: real)
    modifies dummy
    ensures Transform(dummy.position, dummy.rotation, dummy.scale)
         == MorphTransform(m, p, i, kind, t, time, old(dummy.rotation.z))
  {
    ComposePosition(dummy, p, m, t, time);
    ComposeRotation(dummy, p, kind, m, t, time);
    // `Growth` is smoothstep(t, (i % 50) / 50 * 0.2, 1), the staggered start of instance i.
    var smoothT := Growth(i, t);
    ComposeScale(dummy, p, kind, smoothT);
  }

  /** Morph position: the lerp, then the float offsets, y first, while t < `Settled`. */
  method ComposePosition(dummy: Object3D, p: ParticleData, m: MathLib, t: real, time: real)
    modifies dummy`position
    ensures dummy.position == MorphPosition(m, p, t, time)
  {
    var base := LerpVec(p.scatterPosition, p.treePosition, t);
    dummy.position := base;
    if t < Settled {
      dummy.position := dummy.position.(y := dummy.position.y + VerticalFloat(m, p, t, time));
      dummy.position := dummy.position.(x := dummy.position.x + SideFloat(m, p, t, time));
    }
  }

  /** Rotation: tumble x and y while floating (z untouched), else copy the record's rotation
      and sway the popping categories about y. */
  method ComposeRotation(dummy: Object3D, p: ParticleData, kind: OrnamentType, m: MathLib, t: real, time: real)
    modifies dummy`rotation
    ensures dummy.rotation == MorphRotation(m, p, kind, t, time, old(dummy.rotation.z))
  {
    if t < Settled {
      var floatIntensity := 1.0 - t;
      dummy.rotation := dummy.rotation.(x := p.rotation.x + time * p.rotationSpeed * floatIntensity);
      dummy.rotation := dummy.rotation.(y := p.rotation.y + time * p.rotationSpeed * floatIntensity);
    } else {
      dummy.rotation := p.rotation;
      if kind == Box || kind == Ribbon || kind == SmallStar {
        dummy.rotation := dummy.rotation.(y := dummy.rotation.y + Sin(m, time * 0.5 + p.phase) * 0.05);
      }
    }
  }

  /** Scale for growth `smoothT`: through `backOut` for the popping categories, applied to the
      record's scale; cones stretched along y. */
  method ComposeScale(dummy: Object3D, p: ParticleData, kind: OrnamentType, smoothT: real)
    modifies dummy`scale
    ensures dummy.scale == ScaleAt(p, kind, smoothT)
  {
    // Needles, spheres and cones take smoothT, the popping categories backOut(smoothT).
    var s := p.scale.x * ScaleFactor(kind, smoothT);
    dummy.scale := Uniform(s);
    if kind == Cone {
      dummy.scale := dummy.scale.(y := dummy.scale.y * 2.5);
    }
  }

  /** A mounted mesh has a colour buffer holding each record's colour, flagged for upload. */
  ghost predicate Colored(mesh: InstancedMesh?, data: seq<ParticleData>)
    reads mesh
  {
    mesh != null ==>
      && mesh.hasColors && mesh.colorNeedsUpdate && |data| <= |mesh.colors|
      && forall i :: 0 <= i < |data| ==> mesh.colors[i] == data[i].color
  }

  /** `apply(ref, data)`: nothing happens when the ref is empty. Otherwise slot i is coloured
      with data[i]'s colour and the colour buffer is flagged for upload; with no data and no
      colour buffer yet, `instanceColor!` is null and the call fails (`ok` false) without
      changing anything. */
  method ApplyColors(mesh: InstancedMesh?, data: seq<ParticleData>) returns (ok: bool)
    requires mesh != null ==> |data| == |mesh.colors|
    modifies MeshFrame(mesh)
    ensures mesh == null ==> ok
    ensures mesh != null ==>
      && ok == (|data| > 0 || old(mesh.hasColors))
      && (ok ==> Colored(mesh, data))
      && (!ok ==> unchanged(mesh))
      && mesh.matrices == old(mesh.matrices) && mesh.matrixNeedsUpdate == old(mesh.matrixNeedsUpdate)
      && |mesh.colors| == |data|
  {
    if mesh == null {
      return true;
    }
    var i := 0;
    while i < |data|
      invariant 0 <= i <= |data|
      invariant |mesh.colors| == |data|
      invariant forall k :: 0 <= k < i ==> mesh.colors[k] == data[k].color
      invariant mesh.hasColors == (i > 0 || old(mesh.hasColors))
      invariant mesh.colorNeedsUpdate == old(mesh.colorNeedsUpdate)
      invariant mesh.matrixNeedsUpdate == old(mesh.matrixNeedsUpdate)
      invariant mesh.matrices == old(mesh.matrices)
      invariant i == 0 ==> unchanged(mesh)
    {
      mesh.SetColorAt(i, data[i].color);
      i := i + 1;
    }
    if !mesh.hasColors {
      return false;
    }
    mesh.colorNeedsUpdate := true;
    ok := true;
  }

  /** The big star's group: a position, a rotation and a scale, updated in place. */
  class StarGroup {
    var position: Vec3
    var rotation: Euler
    var scale: Vec3

    constructor ()
      ensures position == Vec3(0.0, 0.0, 0.0) && rotation == Euler(0.0, 0.0, 0.0)
      ensures scale == Uniform(1.0)
    {
      position := Vec3(0.0, 0.0, 0.0);
      rotation := Euler(0.0, 0.0, 0.0);
      scale := Uniform(1.0);
    }
  }

  /** The star's float: sin(time) * 0.5, faded by 1 - t. */
  function StarFloat(m: MathLib, t: real, time: real): real {
    Fade(Sin(m, time) * 0.5, 1.0 - t)
  }

  /** The star's position: the lerp from its scatter point to the tree top, lifted by the float
      while the progress is below `Settled`. */
  function StarPosition(m: MathLib, p: ParticleData, t: real, time: real): Vec3 {
    var base := LerpVec(p.scatterPosition, p.treePosition, t);
    if t < Settled then base.(y := base.y + StarFloat(m, t, time)) else base
  }

  /** The star's pulse: 1 + sin(3 * time) / 10. */
  function StarPulse(m: MathLib, time: real): real {
    1.0 + Sin(m, time * 3.0) * 0.1
  }

  /** The star's rotation after a frame: spun by delta about y and delta / 2 about z while
      floating, upright and turning at half the clock's rate once settled. */
  function StarRotation(r: Euler, t: real, time: real, delta: real): Euler {
    if t < Settled then r.(y := r.y + delta, z := r.z + delta * 0.5) else Euler(0.0, time * 0.5, 0.0)
  }

  /** After a frame the star group sits at `StarPosition`, has turned from `before` as
      `StarRotation` says and is scaled by the pulse. */
  ghost predicate StarShows(star: StarGroup, p: ParticleData, m: MathLib, t: real, time: real,
                            before: Euler, delta: real)
    reads star
  {
    && star.position == StarPosition(m, p, t, time)
    && star.rotation == StarRotation(before, t, time, delta)
    && star.scale == Uniform(p.scale.x * StarPulse(m, time))
  }

  /** The big-star part of the frame callback; nothing happens when the ref is empty. */
  method UpdateStar(star: StarGroup?, p: ParticleData, m: MathLib, t: real, time: real, delta: real)
    modifies star
    ensures star != null ==> StarShows(star, p, m, t, time, old(star.rotation), delta)
  {
    if star != null {
      star.position := LerpVec(p.scatterPosition, p.treePosition, t);
      if t < Settled {
        star.position := star.position.(y := star.position.y + Sin(m, time) * 0.5 * (1.0 - t));
        star.rotation := star.rotation.(y := star.rotation.y + delta);
        star.rotation := star.rotation.(z := star.rotation.z + delta * 0.5);
      } else {
        star.rotation := Euler(0.0, time * 0.5, 0.0);
      }
      var scalePulse := 1.0 + Sin(m, time * 3.0) * 0.1;
      star.scale := Uniform(p.scale.x * scalePulse);
    }
  }

  /** Settled, the star sits on the lerp; at t = 1 it is exactly at its tree position, upright. */
  lemma StarSettles(m: MathLib, p: ParticleData, r: Euler, t: real, time: real, delta: real)
    requires Settled <= t
    ensures StarPosition(m, p, t, time) == LerpVec(p.scatterPosition, p.treePosition, t)
    ensures t == 1.0 ==> StarPosition(m, p, t, time) == p.treePosition
    ensures var q := StarRotation(r, t, time, delta); q.x == 0.0 && q.z == 0.0
  {
  }

  /** Floating, the star strays from the lerp only vertically, by at most (1 - t) / 2. */
  lemma StarFloatBounded(m: MathLib, p: ParticleData, t: real, time: real)
    requires Bounded(m) && t < Settled
    ensures var base := LerpVec(p.scatterPosition, p.treePosition, t);
      var pos := StarPosition(m, p, t, time);
      && pos.x == base.x && pos.z == base.z
      && Abs(pos.y - base.y) <= 0.5 * (1.0 - t)
  {
    var w := Sin(m, time) * 0.5;
    FadeWithin(w, 0.5, 1.0 - t);
  }

  /** A wave within [-a, a] faded by f >= 0 stays within a * f. */
  lemma FadeWithin(w: real, a: real, f: real)
    requires -a <= w <= a && 0.0 <= f
    ensures Abs(Fade(w, f)) <= a * f
  {
    MulNonneg(a - w, f);
    MulNonneg(a + w, f);
  }

  /** The pulse keeps the star's scale within 10% of the record's. */
  lemma StarPulseBounded(m: MathLib, time: real)
    requires Bounded(m)
    ensures 0.9 <= StarPulse(m, time) <= 1.1
  {
  }

  /** For the built star (scale 1.8) every axis of the scale stays within [1.62, 1.98]. */
  lemma StarScaleBounded(m: MathLib, p: ParticleData, time: real)
    requires Bounded(m) && p.scale.x == 1.8
    ensures 1.62 <= p.scale.x * StarPulse(m, time) <= 1.98
  {
    StarPulseBounded(m, time);
  }

  /** Every record of every instanced category has zero roll. */
  predicate RollFreeDataset(ds: Dataset) {
    RollFree(ds.needles) && RollFree(ds.boxes) && RollFree(ds.ribbons)
    && RollFree(ds.spheres) && RollFree(ds.cones) && RollFree(ds.smallStars)
  }

  /** After a frame, a mounted mesh holds the morph transform of each of its records. */
  ghost predicate Shows(mesh: InstancedMesh?, data: seq<ParticleData>, kind: OrnamentType,
                        m: MathLib, t: real, time: real)
    reads mesh
  {
    mesh != null ==>
      && mesh.matrixNeedsUpdate
      && Displays(mesh.matrices, data, kind, m, t, time, 0.0)
  }

  /** A mounted mesh has one matrix slot and one colour slot per record. */
  predicate Sized(mesh: InstancedMesh?, data: seq<ParticleData>) reads mesh {
    mesh != null ==> |data| == |mesh.matrices| == |mesh.colors|
  }

  /** Two mounted meshes are distinct objects. */
  predicate Apart(a: InstancedMesh?, b: InstancedMesh?) {
    a != null && b != null ==> a != b
  }

  /** One `updateMesh` call as the frame makes it: the scratch object enters with zero roll and
      the records have none, so the mesh ends showing every record at the new progress and the
      scratch object leaves with zero roll again. */
  method ShowLayer(mesh: InstancedMesh?, dummy: Object3D, data: seq<ParticleData>, kind: OrnamentType,
                   m: MathLib, t: real, time: real)
    requires mesh != null ==> |data| <= |mesh.matrices|
    requires dummy.rotation.z == 0.0 && RollFree(data)
    modifies dummy, MeshFrame(mesh)
    ensures Shows(mesh, data, kind, m, t, time) && dummy.rotation.z == 0.0
    ensures mesh != null ==>
      && |mesh.matrices| == |old(mesh.matrices)| && mesh.ColorState() == old(mesh.ColorState())
  {
    UpdateMesh(mesh, dummy, data, kind, m, t, time);
  }

  /** A mesh's colour buffer is as it was before the call (vacuous for an empty ref). */
  twostate predicate ColorsKept(mesh: InstancedMesh?)
    reads mesh
  {
    mesh != null ==> mesh.ColorState() == old(mesh.ColorState())
  }

  /** A mesh's matrix buffer is as it was before the call (vacuous for an empty ref). */
  twostate predicate MatricesKept(mesh: InstancedMesh?)
    reads mesh
  {
    mesh != null ==> mesh.MatrixState() == old(mesh.MatrixState())
  }

  /** `apply` on this mesh cannot throw: there is no mesh, or there are records to colour, or
      the mesh already had a colour buffer before the call. */
  twostate predicate CouldApply(mesh: InstancedMesh?, data: seq<ParticleData>)
    reads mesh
  {
    mesh == null || data != [] || old(mesh.hasColors)
  }

  /** The mesh at position k of the apply order, once the effect has completed `applied` calls:
      when its call came before, it could not throw and the mesh is coloured with its records;
      otherwise it is untouched. */
  twostate predicate AppliedUpTo(mesh: InstancedMesh?, data: seq<ParticleData>, k: nat, applied: nat)
    reads mesh
  {
    if k < applied then CouldApply(mesh, data) && Colored(mesh, data) else ColorsKept(mesh)
  }

  /** Three consecutive `apply` calls of the layout effect, on three distinct meshes that sit at
      positions `base`, `base + 1` and `base + 2` of the apply order. The first call that throws
      ends the sequence: `applied` is `base` plus the number of calls that completed. */
  method ApplyThree(m0: InstancedMesh?, d0: seq<ParticleData>, m1: InstancedMesh?, d1: seq<ParticleData>,
                    m2: InstancedMesh?, d2: seq<ParticleData>, base: nat)
    returns (ok: bool, ghost applied: nat)
    requires Apart(m0, m1) && Apart(m0, m2) && Apart(m1, m2)
    requires Sized(m0, d0) && Sized(m1, d1) && Sized(m2, d2)
    modifies MeshFrame(m0), MeshFrame(m1), MeshFrame(m2)
    ensures base <= applied <= base + 3 && (ok <==> applied == base + 3)
    ensures AppliedUpTo(m0, d0, base, applied)
    ensures AppliedUpTo(m1, d1, base + 1, applied)
    ensures AppliedUpTo(m2, d2, base + 2, applied)
    ensures applied == base ==> m0 != null && d0 == [] && !old(m0.hasColors)
    ensures applied == base + 1 ==> m1 != null && d1 == [] && !old(m1.hasColors)
    ensures applied == base + 2 ==> m2 != null && d2 == [] && !old(m2.hasColors)
    ensures MatricesKept(m0) && MatricesKept(m1) && MatricesKept(m2)
    ensures Sized(m0, d0) && Sized(m1, d1) && Sized(m2, d2)
  {
    applied := base;
    ok := ApplyColors(m0, d0);
    if ok {
      applied := base + 1;
      ok := ApplyColors(m1, d1);
      if ok {
        applied := base + 2;
        ok := ApplyColors(m2, d2);
        if ok {
          applied := base + 3;
        }
      }
    }
  }

  /** The tree component: its dataset, the refs to its six instanced meshes and the star group
      (null until mounted), the shared scratch object and the progress value. */
  class InteractiveTree {
    const data: Dataset
    const needlesRef: InstancedMesh?
    const boxesRef: InstancedMesh?
    const ribbonsRef: InstancedMesh?
    const spheresRef: InstancedMesh?
    const conesRef: InstancedMesh?
    const smallStarsRef: InstancedMesh?
    const starRef: StarGroup?
    const mounted: bool
    const dummy: Object3D
    var progress: real

    /** The mesh refs, in the order the frame callback updates them. */
    function Meshes(): seq<InstancedMesh?> {
      [needlesRef, boxesRef, ribbonsRef, spheresRef, conesRef, smallStarsRef]
    }

    /** Everything a frame may write. */
    ghost function Footprint(): set<object> {
      {this, dummy} + MountedMeshes() + (if starRef == null then {} else {starRef})
    }

    /** The mounted meshes. */
    ghost function MountedMeshes(): set<object> {
      MeshFrame(needlesRef) + MeshFrame(boxesRef) + MeshFrame(ribbonsRef)
      + MeshFrame(spheresRef) + MeshFrame(conesRef) + MeshFrame(smallStarsRef)
    }

    /** Each mounted mesh has a slot per record and buffers of its own; the scratch object's
        roll and every record's roll are zero. */
    ghost predicate Valid() reads this, dummy, MountedMeshes() {
      && (needlesRef != null <==> mounted) && (boxesRef != null <==> mounted) && (ribbonsRef != null <==> mounted)
      && (spheresRef != null <==> mounted) && (conesRef != null <==> mounted) && (smallStarsRef != null <==> mounted)
      && (starRef != null <==> mounted)
      && Sized(needlesRef, data.needles) && Sized(boxesRef, data.boxes) && Sized(ribbonsRef, data.ribbons)
      && Sized(spheresRef, data.spheres) && Sized(conesRef, data.cones) && Sized(smallStarsRef, data.smallStars)
      && Apart(needlesRef, boxesRef) && Apart(needlesRef, ribbonsRef) && Apart(needlesRef, spheresRef) && Apart(needlesRef, conesRef) && Apart(needlesRef, smallStarsRef)
      && Apart(boxesRef, ribbonsRef) && Apart(boxesRef, spheresRef) && Apart(boxesRef, conesRef) && Apart(boxesRef, smallStarsRef)
      && Apart(ribbonsRef, spheresRef) && Apart(ribbonsRef, conesRef) && Apart(ribbonsRef, smallStarsRef)
      && Apart(spheresRef, conesRef) && Apart(spheresRef, smallStarsRef)
      && Apart(conesRef, smallStarsRef)
      && dummy.rotation.z == 0.0
      && RollFreeDataset(data)
    }

    /** Mounting: one fresh mesh per category sized to its data and without a colour buffer,
        a fresh star group and scratch object, progress 0. Unmounted, every ref is null. */
    constructor (ds: Dataset, mounted: bool)
      requires RollFreeDataset(ds)
      ensures data == ds && progress == 0.0 && Valid()
      ensures mounted <==> starRef != null
      ensures forall j :: 0 <= j < 6 ==> (Meshes()[j] != null <==> mounted)
      ensures fresh(Footprint() - {this})
      ensures forall j :: 0 <= j < 6 && Meshes()[j] != null ==> !Meshes()[j].hasColors
    {
      data := ds;
      this.mounted := mounted;
      progress := 0.0;
      dummy := new Object3D();
      if mounted {
        needlesRef := new InstancedMesh(|ds.needles|);
        boxesRef := new InstancedMesh(|ds.boxes|);
        ribbonsRef := new InstancedMesh(|ds.ribbons|);
        spheresRef := new InstancedMesh(|ds.spheres|);
        conesRef := new InstancedMesh(|ds.cones|);
        smallStarsRef := new InstancedMesh(|ds.smallStars|);
        starRef := new StarGroup();
      } else {
        needlesRef, boxesRef, ribbonsRef, spheresRef, conesRef, smallStarsRef := null, null, null, null, null, null;
        starRef := null;
      }
    }

    /** The meshes in the order the layout effect colours them, with their records. */
    function ApplyOrder(): seq<(InstancedMesh?, seq<ParticleData>)> {
      [(needlesRef, data.needles), (boxesRef, data.boxes), (spheresRef, data.spheres),
       (conesRef, data.cones), (smallStarsRef, data.smallStars), (ribbonsRef, data.ribbons)]
    }

    /** The layout effect: `apply` on needles, boxes, spheres, cones, small stars and ribbons,
        in that order. A call that finds no colour buffer throws, which ends the effect: `ok`
        is false, `applied` counts the calls that completed, the meshes before the failing one
        are coloured, and the failing one and those after it are left as they were. The matrix
        buffers are never touched. The effect completes whenever every category has at least
        one record, and always when nothing is mounted. */
    method ApplyAllColors() returns (ok: bool, ghost applied: nat)
      requires Valid()
      modifies MountedMeshes()
      ensures Valid()
      ensures applied <= 6 && (ok <==> applied == 6)
      ensures AppliedUpTo(needlesRef, data.needles, 0, applied)
      ensures AppliedUpTo(boxesRef, data.boxes, 1, applied)
      ensures AppliedUpTo(spheresRef, data.spheres, 2, applied)
      ensures AppliedUpTo(conesRef, data.cones, 3, applied)
      ensures AppliedUpTo(smallStarsRef, data.smallStars, 4, applied)
      ensures AppliedUpTo(ribbonsRef, data.ribbons, 5, applied)
      ensures applied < 6 ==>
        var (mesh, records) := ApplyOrder()[applied];
        mesh != null && records == [] && !old(mesh.hasColors)
      ensures MatricesKept(needlesRef) && MatricesKept(boxesRef) && MatricesKept(spheresRef)
      ensures MatricesKept(conesRef) && MatricesKept(smallStarsRef) && MatricesKept(ribbonsRef)
      ensures !mounted ==> ok
      ensures (&& |data.needles| > 0 && |data.boxes| > 0 && |data.spheres| > 0 && |data.cones| > 0
               && |data.smallStars| > 0 && |data.ribbons| > 0) ==> ok
    {
      ok, applied := ApplyThree(needlesRef, data.needles, boxesRef, data.boxes, spheresRef, data.spheres, 0);
      if ok {
        ok, applied := ApplyThree(conesRef, data.cones, smallStarsRef, data.smallStars, ribbonsRef, data.ribbons, 3);
      }
    }

    /** The frame callback: progress moves towards the target of `state`; every mounted mesh
        then shows the morph transform of each of its records at the new progress, and the
        star takes its own update. */
    method Frame(m: MathLib, state: TreeState, delta: real, time: real)
      requires Valid()
      modifies Footprint()
      ensures Valid()
      ensures progress == NextProgress(old(progress), state, delta)
      ensures Shows(needlesRef, data.needles, Needle, m, progress, time)
      ensures Shows(boxesRef, data.boxes, Box, m, progress, time)
      ensures Shows(ribbonsRef, data.ribbons, Ribbon, m, progress, time)
      ensures Shows(spheresRef, data.spheres, Sphere, m, progress, time)
      ensures Shows(conesRef, data.cones, Cone, m, progress, time)
      ensures Shows(smallStarsRef, data.smallStars, SmallStar, m, progress, time)
      ensures starRef != null ==> StarShows(starRef, data.star, m, progress, time, old(starRef.rotation), delta)
      ensures ColorsKept(needlesRef) && ColorsKept(boxesRef) && ColorsKept(ribbonsRef)
      ensures ColorsKept(spheresRef) && ColorsKept(conesRef) && ColorsKept(smallStarsRef)
    {
      progress := NextProgress(progress, state, delta);
      var t := progress;
      ShowLayer(needlesRef, dummy, data.needles, Needle, m, t, time);
      ShowLayer(boxesRef, dummy, data.boxes, Box, m, t, time);
      ShowLayer(ribbonsRef, dummy, data.ribbons, Ribbon, m, t, time);
      ShowLayer(spheresRef, dummy, data.spheres, Sphere, m, t, time);
      ShowLayer(conesRef, dummy, data.cones, Cone, m, t, time);
      ShowLayer(smallStarsRef, dummy, data.smallStars, SmallStar, m, t, time);
      UpdateStar(starRef, data.star, m, t, time, delta);
    }
  }
}
