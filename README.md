# Interactive Christmas tree — a Dafny model of its particle engine

The page shows a Christmas tree made of several thousand instanced particles. There are
needles, gift boxes with ribbons, spheres, cones, small stars and a big star on top. A button
toggles the page between the assembled tree and a scattered cloud. Every frame, each particle
morphs between a random point inside a sphere and its place on a spiral around a cone. While
the cloud is loose the particles float and tumble, and once settled they pop to their full
size. A separate snow layer of 1500 flakes falls and respawns at the top.

The project models that engine:

- `Types` and `Constants` hold the value types (vectors, Euler angles, palette colours,
  ornament categories, the particle record, the two tree states) and the shipped tunables.
- `Transcendental` stands for `Math.sin`, `cos`, `acos`, `cbrt` and `pow`: a record of
  functions passed in as a parameter, with a ghost `Sound` predicate (bounded,
  sin² + cos² = 1, acos and cbrt in range).
- `RealArith`, `ThreeMath` and `Easing` model `MathUtils.lerp`, `MathUtils.smoothstep` and
  the `backOut` easing curve.
- `Generators` models the two position generators. `Builder` models the dataset builder. It
  reads `Math.random()` as a tape of draws, in the order the source consumes them.
- `Morph` models the per-frame progress update and the morph of one instance (position,
  rotation, scale) as pure functions.
- `Scene` models the imperative side:
  - the shared scratch `Object3D`;
  - `InstancedMesh` objects whose matrix and colour slots are written one at a time;
  - the colour-apply effect;
  - `updateMesh`;
  - the big star group;
  - the whole frame callback, as the `InteractiveTree` class.
- `Snow` models the snow layer. Its positions and velocities are flat arrays with three
  reals per flake, initialised in one loop and advanced in place every frame.
- `App` models the page's tree state and its toggle.

Behaviour of the code worth knowing:

- Progress moves by a plain `lerp(progress, target, delta * 1.8)` once per frame. Its
  approach therefore depends on the frame rate, and a frame with `delta * 1.8 > 1` carries
  the progress past the target (`Morph.ProgressOvershoots`).
- Ids are not unique among ribbons. Independent ribbons reuse the misc loop index, which
  gift ribbons already carry (`Builder.RibbonIdsRepeat`).
- The pop-in is staggered in 50 buckets through the smoothstep's lower edge. The growth
  factor of every bucket reaches 1 only at progress 1, and a lower bucket's growth is never
  behind a higher one's (`Morph.GrowthShape`, `Morph.GrowthStaggered`). Needles, spheres and
  cones scale with that growth, so they reach their full size exactly at progress 1. Boxes,
  ribbons and small stars scale with `backOut` of the growth. That curve passes 1 well
  before growth 1 and overshoots by up to about 10% (`Easing.BackOutOvershoots`,
  `Morph.ScaleBounded`), so these items reach, and exceed, their full size early.
- The colour-apply effect dereferences `instanceColor!`. That is null when a mounted mesh
  has never had a colour set, which happens when its category is empty. The call then
  throws and ends the effect: the meshes before it are coloured, and it and the ones after
  it are left as they were (`Scene.InteractiveTree.ApplyAllColors`).
- Snow is spawned with heights in [-15, 35), so some flakes start below the floor of -12.
  They respawn at the top on their first frame.

## Model

| member | source | states |
|---|---|---|
| Easing.BackOut | components/InteractiveTree.tsx:34-37 | backOut with u = t − 1: u²·((s + 1)·u + s) + 1, s = 1.70158; its properties are the four lemmas below |
| Easing.BackOutEnds | components/InteractiveTree.tsx:34-37 | backOut maps 0 to 0 and 1 to 1 |
| Easing.BackOutOvershoots | components/InteractiveTree.tsx:34-37 | some t in (0, 1) has backOut(t) > 1: the curve overshoots before settling |
| Easing.BackOutNonNegative | components/InteractiveTree.tsx:34-37 | backOut is non-negative on t >= 0 and is zero only at t = 0 |
| Easing.BackOutAtMost | components/InteractiveTree.tsx:34-37 | on [0, 1] backOut never exceeds 1.101 (an overshoot of about 10%) |
| ThreeMath.Lerp | components/InteractiveTree.tsx:259 | lerp gives a at t = 0 and b at t = 1, and lies between a and b for t in [0, 1] |
| ThreeMath.MathLerp | components/InteractiveTree.tsx:259 | `MathUtils.lerp` as (1 − t)·x + t·y; equal to the vector form by MathLerpIsLerp |
| ThreeMath.MathLerpIsLerp | components/InteractiveTree.tsx:259 | three.js's (1 - t) x + t y equals a + (b - a) t |
| ThreeMath.LerpBetween | components/InteractiveTree.tsx:268 | the lerp of two coordinates with t in [0, 1] lies between them |
| ThreeMath.Smoothstep | components/InteractiveTree.tsx:291 | smoothstep lies in [0, 1]: 0 at or below the low edge, strictly inside between the edges, 1 at or above the high edge |
| ThreeMath.SmoothstepMonotone | components/InteractiveTree.tsx:291 | smoothstep is monotone in its argument |
| ThreeMath.SmoothstepStartAntitone | components/InteractiveTree.tsx:290-291 | raising the low edge never increases smoothstep(x, lo, 1) |
| Generators.GenerateTreePosition | components/InteractiveTree.tsx:58-65 | the point sits at the ratio's height and, with a library where sin² + cos² = 1, at distance (1 − ratio)·R + offset from the axis, whatever the angle draw |
| Generators.TreePositionOnCone | components/InteractiveTree.tsx:58-65 | the point is at height ratio·H − H/2 and at distance (1 − ratio)·R + offset from the axis, for any angle draw |
| Generators.TreePositionMidHeight | components/InteractiveTree.tsx:58-65 | with height 18 and radius 6.5, ratio 0.5 and offset 0.5 give height 0 and distance 3.75 |
| Generators.TreeHeightRange | components/InteractiveTree.tsx:59 | ratios in [0, 1] give heights within the tree's half-height |
| Generators.GenerateScatterPosition | components/InteractiveTree.tsx:67-76 | spherical coordinates θ = 2π·draw, φ = acos(2·draw − 1), r = cbrt(draw)·40; ScatterInsideSphere bounds it |
| Generators.ScatterInsideSphere | components/InteractiveTree.tsx:67-76 | a scatter point lies at distance cbrt(draw)·40 from the centre, strictly inside the scatter sphere |
| Builder.MiscKind | components/InteractiveTree.tsx:186-221 | the category draw picks a cone below 0.4, a small star on [0.4, 0.7) and a ribbon from 0.7, each iff its range |
| Builder.NeedleAt | components/InteractiveTree.tsx:87-109 | needle i from its 11 draws; NeedleOnSpiral and NeedleRanges state its shape |
| Builder.GiftAt | components/InteractiveTree.tsx:114-151 | box i and ribbon i from the same 12 draws; GiftPairing and GiftRanges state their shape |
| Builder.SphereAt | components/InteractiveTree.tsx:155-177 | sphere i from its 10 draws, phase = index |
| Builder.SphereColor | components/InteractiveTree.tsx:161-164 | the three-way colour split; SphereColorThresholds states it as iffs |
| Builder.MiscAt | components/InteractiveTree.tsx:181-221 | misc item i from its 10 draws, scale and colour by category; MiscLooks states them |
| Builder.StarAt | components/InteractiveTree.tsx:225-236 | the topper record; StarAboveTree states its place |
| Builder.BuildNeedles | components/InteractiveTree.tsx:86-110 | the needle loop yields 4000 records, needle i built from its own 11 draws |
| Builder.BuildGifts | components/InteractiveTree.tsx:113-152 | the gift loop yields 120 boxes and 120 ribbons, box i and ribbon i from the same 12 draws |
| Builder.BuildSpheres | components/InteractiveTree.tsx:154-178 | the sphere loop yields 120 records, sphere i from its own 10 draws |
| Builder.SplitMisc | components/InteractiveTree.tsx:180-222 | the misc loop sends every item to the cones, the small stars or the end of the ribbons, by category, in draw order, after the ribbons already there |
| Builder.BuildDataset | components/InteractiveTree.tsx:78-239 | the builder yields every category as the loops say, the misc split adds up to 80, and the star comes from the last three draws |
| Builder.OfKindMember | components/InteractiveTree.tsx:197-221 | every item a category receives comes from the misc pool and has that category |
| Builder.SplitCoversPool | components/InteractiveTree.tsx:197-221 | splitting into cones, small stars and ribbons loses and duplicates nothing: the parts add up to the pool |
| Builder.MiscPoolShape | components/InteractiveTree.tsx:181-195 | every misc item is a cone, small star or ribbon, and its id is its loop index |
| Builder.MiscSplitSizes | components/InteractiveTree.tsx:180-222 | cones + small stars + independent ribbons = 80 |
| Builder.GiftPairing | components/InteractiveTree.tsx:114-151 | a box and its ribbon share id, position, scatter point, rotation and scale; the ribbon is warm gold; the box is deep emerald iff its draw exceeds 0.5, red velvet otherwise |
| Builder.GiftRanges | components/InteractiveTree.tsx:115-119 | gift scale lies in [0.5, 0.9), and the gift sits on the lowest 85% of the tree, half a unit outside the cone |
| Builder.NeedleOnSpiral | components/InteractiveTree.tsx:87-96 | a needle's pow-shaped ratio lies in [0, 1], its height within the tree, its distance from the axis within 80%–120% of the cone radius |
| Builder.NeedleDistanceBounds | components/InteractiveTree.tsx:88-94 | the jittered needle distance stays within 80% and 120% of the cone radius |
| Builder.JitterBounds | components/InteractiveTree.tsx:94 | r·(0.8 + 0.4 j) with j in [0, 1) stays within [0.8 r, 1.2 r] |
| Builder.NeedleRanges | components/InteractiveTree.tsx:98-109 | needle scale lies in [0.2, 0.5) and speed in [0.1, 0.3); deep emerald iff its draw exceeds 0.6 |
| Builder.SphereColorThresholds | components/InteractiveTree.tsx:161-164 | sphere colour is red below 0.3, light emerald on [0.3, 0.6) and gold from 0.6, each iff |
| Builder.MiscLooks | components/InteractiveTree.tsx:187-221 | cones get scale 0.3 in metallic gold, small stars 0.4 in warm gold, independent ribbons 0.6 in warm gold; the id is the index |
| Builder.StarAboveTree | components/InteractiveTree.tsx:224-236 | the topper has id 9999, sits at (0, 10, 0) and stands at least one unit above every spiral height |
| Builder.RibbonIdsRepeat | components/InteractiveTree.tsx:140-141 | once the misc pool yields one ribbon, two entries of the ribbon list share an id |
| Builder.OfKindRollFree | components/InteractiveTree.tsx:191 | filtering a roll-free pool keeps it roll-free |
| Builder.DatasetRollFree | components/InteractiveTree.tsx:78-239 | every built record, star included, has zero rotation about z |
| Morph.Target | components/InteractiveTree.tsx:258 | the target is 1 iff the state is the tree shape, 0 iff scattered |
| Morph.NextProgress | components/InteractiveTree.tsx:259 | the new gap to the target is the old gap times 1 − 1.8·delta |
| Morph.ProgressApproaches | components/InteractiveTree.tsx:258-260 | for 1.8·delta in [0, 1] the progress moves towards the target without passing it, and stays in [0, 1] |
| Morph.ProgressGap | components/InteractiveTree.tsx:259 | for 1.8·delta in [0, 1] the distance to the target shrinks by the factor 1 − 1.8·delta |
| Morph.ProgressSnaps | components/InteractiveTree.tsx:259 | a frame with 1.8·delta = 1 lands exactly on the target |
| Morph.ProgressOvershoots | components/InteractiveTree.tsx:259 | a frame with 1.8·delta > 1 carries the progress past the target |
| Morph.ProgressConverges | components/InteractiveTree.tsx:257-260 | after n frames of the same delta the gap is (1 − 1.8·delta)ⁿ times the initial gap |
| Morph.LerpVec | components/InteractiveTree.tsx:268 | the vector lerp is the scatter point at 0 and the tree point at 1 |
| Morph.MorphPosition | components/InteractiveTree.tsx:268-274 | the lerp plus the fading float below 0.99; SettledPosition and FloatBounded state it |
| Morph.MorphRotation | components/InteractiveTree.tsx:271-286 | tumble while floating (roll carried over), copy and sway once settled; SettledRotation, RollStaysZero and FloatingKeepsRoll state it |
| Morph.Growth | components/InteractiveTree.tsx:290-291 | smoothstep(t, (i mod 50)/50·0.2, 1); GrowthShape, GrowthMonotone and GrowthStaggered state it |
| Morph.ScaleFactor | components/InteractiveTree.tsx:293-296 | backOut of the growth for boxes, ribbons and small stars, the growth itself otherwise; FactorBounded bounds it |
| Morph.ScaleAt | components/InteractiveTree.tsx:293-299 | the record's scale times the factor, cones stretched 2.5 along y; ScaleAtBounded bounds it |
| Morph.MorphScale | components/InteractiveTree.tsx:288-299 | ScaleAt at instance i's growth; ScaleEnds and ScaleBounded state it |
| Morph.MorphTransform | components/InteractiveTree.tsx:266-302 | the position, rotation and scale composed for instance i; UpdateMesh writes it into slot i |
| Morph.SettledPosition | components/InteractiveTree.tsx:268-271 | at progress ≥ 0.99 an instance sits exactly on the lerp, and on its tree position at 1 |
| Morph.FloatBounded | components/InteractiveTree.tsx:271-274 | while floating an instance strays from the lerp by at most 1 − t vertically, (1 − t)/2 along x, and not along z |
| Morph.VerticalFloatBounded | components/InteractiveTree.tsx:273 | the vertical float stays within 1 − t |
| Morph.SideFloatBounded | components/InteractiveTree.tsx:274 | the sideways float stays within (1 − t)/2 |
| Morph.FadeBounded | components/InteractiveTree.tsx:272-274 | a wave in [−1, 1] times the float intensity stays within that intensity |
| Morph.SettledRotation | components/InteractiveTree.tsx:279-286 | settled instances keep the record's x and z rotation; only boxes, ribbons and small stars sway about y, by at most 0.05 |
| Morph.RollStaysZero | components/InteractiveTree.tsx:276-281 | with a roll-free record and a roll-free scratch object the composed roll stays 0 |
| Morph.FloatingKeepsRoll | components/InteractiveTree.tsx:277-278 | while floating the roll is whatever the scratch object already held |
| Morph.StaggerEdge | components/InteractiveTree.tsx:290-291 | the smoothstep's low edge lies in [0, 0.196] |
| Morph.GrowthShape | components/InteractiveTree.tsx:290-291 | growth is 0 up to the stagger edge, strictly between 0 and 1 after it, and 1 only from t = 1 |
| Morph.GrowthMonotone | components/InteractiveTree.tsx:291 | growth never shrinks as the progress rises |
| Morph.GrowthStaggered | components/InteractiveTree.tsx:290-291 | an instance in a lower stagger bucket is never behind one in a higher bucket |
| Morph.ScaleEnds | components/InteractiveTree.tsx:288-299 | at t = 1 every instance has its record's scale (cones 2.5 times along y); at t = 0 it has zero scale |
| Morph.ScaleBounded | components/InteractiveTree.tsx:293-299 | the scale is non-negative, at most the record's for needles, spheres and cones, at most 1.101 times it for popping categories |
| Morph.ScaleAtBounded | components/InteractiveTree.tsx:293-299 | the same bounds for any growth in [0, 1] |
| Morph.FactorBounded | components/InteractiveTree.tsx:294-296 | the scale factor lies in [0, 1] for linear categories and in [0, 1.101] for popping ones |
| Scene.Object3D.constructor | constants.ts:41 | the shared scratch object starts at the origin, unrotated, with unit scale |
| Scene.InstancedMesh.constructor | components/InteractiveTree.tsx:263-305 | a mesh of `count` instances: `count` matrix slots holding the identity, `count` colour slots, no colour buffer, no update flags raised |
| Scene.InstancedMesh.SetMatrixAt | components/InteractiveTree.tsx:302 | writes slot i and no other |
| Scene.InstancedMesh.SetColorAt | components/InteractiveTree.tsx:245 | writes colour slot i and no other, and creates the colour buffer |
| Scene.UpdateMesh | components/InteractiveTree.tsx:263-305 | with a mounted mesh, slot i holds the morph transform of record i for every record, later slots and colours are untouched, and the matrix buffer is flagged; the scratch roll is carried through; with no mesh nothing changes |
| Scene.ComposeInstance | components/InteractiveTree.tsx:267-299 | the scratch object ends with the morph position, rotation and scale of the record |
| Scene.ComposePosition | components/InteractiveTree.tsx:268-274 | the scratch position is the morph position |
| Scene.ComposeRotation | components/InteractiveTree.tsx:271-286 | the scratch rotation is the morph rotation, given the incoming roll |
| Scene.ComposeScale | components/InteractiveTree.tsx:293-299 | the scratch scale is the record's scale times the category's factor, cones stretched along y |
| Scene.ApplyColors | components/InteractiveTree.tsx:243-247 | with no mesh nothing happens; otherwise it succeeds iff there is data or a colour buffer already, and on success every slot holds its record's colour and the buffer is flagged; on failure the mesh is untouched |
| Scene.ShowLayer | components/InteractiveTree.tsx:307-312 | one layer of the frame leaves the mesh showing every record's morph with roll 0, keeps the roll 0, and leaves the colour slots, the colour buffer and its flag as they were |
| Scene.UpdateStar | components/InteractiveTree.tsx:315-331 | the star sits at its morph position, turned as the branch says from its previous rotation, scaled by the pulse; with no star nothing happens |
| Scene.StarPosition | components/InteractiveTree.tsx:317-321 | the lerp, lifted by sin(time)/2·(1 − t) below 0.99; StarSettles and StarFloatBounded state it |
| Scene.StarRotation | components/InteractiveTree.tsx:320-327 | spun by delta about y and delta/2 about z while floating, upright at time/2 about y once settled |
| Scene.StarPulse | components/InteractiveTree.tsx:329 | 1 + sin(3·time)/10; StarPulseBounded bounds it |
| Scene.StarSettles | components/InteractiveTree.tsx:317-327 | settled, the star is on the lerp (on the tree top at 1) and upright |
| Scene.StarFloatBounded | components/InteractiveTree.tsx:317-321 | floating, the star strays from the lerp only vertically, by at most (1 − t)/2 |
| Scene.FadeWithin | components/InteractiveTree.tsx:321 | a wave within ±a faded by f ≥ 0 stays within a·f |
| Scene.StarPulseBounded | components/InteractiveTree.tsx:329 | the pulse stays within [0.9, 1.1] |
| Scene.StarScaleBounded | components/InteractiveTree.tsx:329-330 | the built star's scale stays within [1.62, 1.98] |
| Scene.InteractiveTree.constructor | components/InteractiveTree.tsx:43-54 | mounted, one new mesh per category sized to its records, with no colour buffer yet, plus a new star group and scratch object; unmounted, every ref null; progress 0 and the component valid |
| Scene.ApplyThree | components/InteractiveTree.tsx:248-253 | three consecutive apply calls on distinct meshes: a call completes iff its mesh is absent, has records or already had a colour buffer; the completed ones are coloured, the throwing one and later ones untouched, matrix buffers and slot counts kept |
| Scene.InteractiveTree.ApplyAllColors | components/InteractiveTree.tsx:242-254 | the meshes are coloured in the order needles, boxes, spheres, cones, small stars, ribbons; a call throws exactly when its mesh is mounted, its category is empty and the mesh has no colour buffer; then the earlier meshes are coloured and that mesh and the later ones are untouched; no matrix buffer changes; unmounted always succeeds, and with every category non-empty it succeeds |
| Scene.InteractiveTree.Frame | components/InteractiveTree.tsx:257-332 | the progress takes one lerp step; every mounted mesh shows its records' morph at the new progress and keeps its colours, colour buffer and colour flag; the star shows its morph; the component stays valid |
| Snow.SetFlake | components/SnowParticles.tsx:41-57 | replacing one flake keeps the buffer length |
| Snow.FlakesAfterSet | components/SnowParticles.tsx:41-57 | replacing flake i changes flake i only |
| Snow.WriteFlake | components/SnowParticles.tsx:20-27 | writing three coordinates replaces flake i in the buffer |
| Snow.InitSnow | components/SnowParticles.tsx:13-31 | two fresh, distinct buffers of 3·count reals, flake i spawned from its six draws |
| Snow.SpawnPosition | components/SnowParticles.tsx:20-22 | flake i's start from draws 6i..6i+2; SpawnBounds bounds it |
| Snow.SpawnVelocity | components/SnowParticles.tsx:25-27 | flake i's velocity from draws 6i+3..6i+5; SpawnBounds bounds it |
| Snow.SpawnBounds | components/SnowParticles.tsx:18-28 | fresh flakes start in [−30, 30) × [−15, 35) × [−30, 30), drift by less than 0.02 and fall by (0.02, 0.06] per frame |
| Snow.Resets | components/SnowParticles.tsx:51-56 | at most one respawn per flake |
| Snow.Drifted | components/SnowParticles.tsx:47-49 | velocity plus a sway of sin(time + i)/500 along x and cos(time + i)/500 along z; DriftWithinSway bounds it |
| Snow.Advanced | components/SnowParticles.tsx:41-57 | flake i after a frame, the j-th respawn taking draws 2j and 2j + 1; SnowFrame writes it |
| Snow.Step | components/SnowParticles.tsx:47-56 | after a frame a flake is never below the floor −12 |
| Snow.SnowFrame | components/SnowParticles.tsx:33-60 | with no points nothing happens; otherwise every flake advances as one step says, the velocities are only read, the buffer is flagged, and the number of respawns is returned |
| Snow.AdvanceFlake | components/SnowParticles.tsx:42-56 | flake i is replaced by its step and the method reports whether it respawned |
| Snow.DriftWithinSway | components/SnowParticles.tsx:47-49 | a flake that does not respawn moves by exactly its y velocity, and within 0.002 of its x and z velocity |
| Snow.RespawnInSquare | components/SnowParticles.tsx:51-56 | a respawned flake restarts at height 35 inside [−30, 30) × [−30, 30) |
| Snow.FrameKeepsBand | components/SnowParticles.tsx:41-57 | falling flakes at or below 35 end a frame inside [−12, 35] |
| Snow.NoResetsIffNoneFalls | components/SnowParticles.tsx:51-56 | a frame respawns nothing iff no flake drops below the floor |
| App.InitialState | App.tsx:7 | the page starts with the tree assembled (target 1) |
| App.Toggle | App.tsx:9-13 | a toggle always changes the state and flips the target between 1 and 0 |
| App.ToggleInvolution | App.tsx:9-13 | toggling twice restores the state |
| App.Toggled | App.tsx:9-13 | the state after n toggles; ToggleParity states it |
| App.ToggleParity | App.tsx:7-13 | after n presses the tree is shown iff n is even |
| App.Page.constructor | App.tsx:7 | the page mounts in the initial state |
| App.Page.ToggleState | App.tsx:9-13 | the state becomes the toggle of the previous one |

## Left out

- Rendering is not modelled. That covers materials, geometries (the star shape, the ribbon
  and cone meshes), lights, the snow texture, post-processing and the UI overlay
  (components/Experience.tsx and components/UIOverlay.tsx are not part of this model).
- `updateMatrix` and matrix composition are not modelled. An instance slot holds the
  position, rotation and scale the matrix would be composed from.
- The transcendental functions are parameters: the `MathLib` record, constrained only by
  `Sound`. Floating-point and `Float32Array` rounding are not modelled; all arithmetic is
  over the reals.
- `Math.random()` is a tape of draws passed in. Nothing is claimed about how the draws are
  distributed; the bounds lemmas assume draws in [0, 1).
- The clock and the frame's `delta` are parameters. The React lifecycle (memoisation,
  effects, refs) is modelled by its outcome:
  - a ref is a nullable field;
  - the dataset is built once;
  - the colour effect is a method, and the frame callback is a method.
- Scene.InstancedMesh.constructor: three.js fills a colour buffer lazily with white on the
  first `setColorAt`. The model instead keeps colour slots that carry no meaning until
  `hasColors` is set.
- Instance buffers are not `Float32Array`s updated in place. They are sequences of
  per-instance values, and each write reassigns the whole sequence with one slot replaced.
  Aliasing between buffers is excluded by `Valid` rather than modelled.
- Scene.ApplyColors requires the mesh's slot count to equal the number of records. The
  source creates each mesh with exactly that count, so no other case arises.
- Snow.SnowFrame takes a draw tape of at least 2·1500 reals. Each respawn consumes the
  next two draws, so one frame never needs more.
- Snow.InitSnow allocates its buffers, but the `Points` object wrapping them, the snow
  material and the per-frame geometry lookup are not modelled.
- Morph.ProgressConverges is stated for a constant `delta`. Frames with varying deltas are
  covered one step at a time by Morph.NextProgress.
