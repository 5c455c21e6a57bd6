/** The falling snow (components/SnowParticles.tsx): two flat buffers of 3 * SnowCount floats,
    one (x, y, z) triple per flake, filled once from `Math.random()` and then advanced in place
    every frame, with flakes that drop below the floor respawned at the top. */
module Snow {
  import opened Types
  import opened Constants
  import opened Transcendental
  import opened RealArith
  import opened Builder

  /** Flakes whose y falls below this are respawned. */
  const Floor: real := -12.0
  /** The height a respawned flake restarts from. */
  const Top: real := 35.0

  /** Flake i of a flat buffer: entries 3i, 3i + 1 and 3i + 2. */
  function Flake(a: seq<real>, i: nat): Vec3
    requires 3 * i + 2 < |a|
  {
    Vec3(a[3 * i], a[3 * i + 1], a[3 * i + 2])
  }

  /** `a` with flake i replaced by q. */
  function SetFlake(a: seq<real>, i: nat, q: Vec3): (r: seq<real>)
    requires 3 * i + 2 < |a|
    ensures |r| == |a|
  {
    a[3 * i := q.x][3 * i + 1 := q.y][3 * i + 2 := q.z]
  }

  /** Replacing flake i changes flake i alone. */
  lemma FlakesAfterSet(a: seq<real>, i: nat, q: Vec3)
    requires 3 * i + 2 < |a|
    ensures forall k :: 0 <= k && 3 * k + 2 < |a| ==>
      Flake(SetFlake(a, i, q), k) == if k == i then q else Flake(a, k)
  {
    forall k | 0 <= k && 3 * k + 2 < |a|
      ensures Flake(SetFlake(a, i, q), k) == if k == i then q else Flake(a, k)
    {
      if k != i {
        assert 3 * k + 2 < 3 * i || 3 * i + 2 < 3 * k;
      }
    }
  }

  /** Writes the three entries of flake i of a buffer. */
  method WriteFlake(a: array<real>, i: nat, x: real, y: real, z: real)
    requires 3 * i + 2 < a.Length
    modifies a
    ensures a[..] == SetFlake(old(a[..]), i, Vec3(x, y, z))
  {
    a[3 * i] := x;
    a[3 * i + 1] := y;
    a[3 * i + 2] := z;
  }

  /** (r - 0.5) * w: a draw spread over [-w / 2, w / 2). */
  function Spread(r: real, w: real): real {
    (r - 0.5) * w
  }

  /** Where flake i starts: draws 6i, 6i + 1, 6i + 2 give x, y, z in a 60 x 50 x 60 box
      raised by 10. */
  function SpawnPosition(draws: seq<real>, i: nat): Vec3
    requires 6 * i + 5 < |draws|
  {
    Vec3(Spread(draws[6 * i], 60.0), Spread(draws[6 * i + 1], 50.0) + 10.0, Spread(draws[6 * i + 2], 60.0))
  }

  /** Flake i's velocity: draws 6i + 3 and 6i + 5 give a slight drift, draw 6i + 4 the fall. */
  function SpawnVelocity(draws: seq<real>, i: nat): Vec3
    requires 6 * i + 5 < |draws|
  {
    Vec3(Spread(draws[6 * i + 3], 0.04), -(draws[6 * i + 4] * 0.04 + 0.02), Spread(draws[6 * i + 5], 0.04))
  }

  /** The snow `useMemo`: flake i takes the six draws 6i .. 6i + 5, three for its position and
      three for its velocity, in that order. */
  method InitSnow(count: nat, draws: seq<real>) returns (positions: array<real>, velocities: array<real>)
    requires 6 * count <= |draws|
    ensures fresh(positions) && fresh(velocities) && positions != velocities
    ensures positions.Length == 3 * count && velocities.Length == 3 * count
    ensures forall i :: 0 <= i < count ==> Flake(positions[..], i) == SpawnPosition(draws, i)
    ensures forall i :: 0 <= i < count ==> Flake(velocities[..], i) == SpawnVelocity(draws, i)
  {
    positions := new real[3 * count];
    velocities := new real[3 * count];
    var i := 0;
    while i < count
      invariant 0 <= i <= count
      invariant forall k :: 0 <= k < i ==> Flake(positions[..], k) == SpawnPosition(draws, k)
      invariant forall k :: 0 <= k < i ==> Flake(velocities[..], k) == SpawnVelocity(draws, k)
    {
      ghost var pos0, vel0 := positions[..], velocities[..];
      var p, v := SpawnPosition(draws, i), SpawnVelocity(draws, i);
      WriteFlake(positions, i, p.x, p.y, p.z);
      WriteFlake(velocities, i, v.x, v.y, v.z);
      FlakesAfterSet(pos0, i, SpawnPosition(draws, i));
      FlakesAfterSet(vel0, i, SpawnVelocity(draws, i));
      i := i + 1;
    }
  }

  /** Fresh flakes start inside [-30, 30) x [-15, 35) x [-30, 30), drift by less than 0.02 per
      frame sideways and fall by more than 0.02 and at most 0.06 per frame. */
  lemma SpawnBounds(draws: seq<real>, i: nat)
    requires 6 * i + 5 < |draws| && UnitDraws(draws)
    ensures var p := SpawnPosition(draws, i);
      -30.0 <= p.x < 30.0 && -15.0 <= p.y < 35.0 && -30.0 <= p.z < 30.0
    ensures var v := SpawnVelocity(draws, i);
      && -0.02 <= v.x < 0.02 && -0.02 <= v.z < 0.02
      && -0.06 < v.y <= -0.02
  {
    assert 0.0 <= draws[6 * i] < 1.0 && 0.0 <= draws[6 * i + 1] < 1.0 && 0.0 <= draws[6 * i + 2] < 1.0;
    assert 0.0 <= draws[6 * i + 3] < 1.0 && 0.0 <= draws[6 * i + 4] < 1.0 && 0.0 <= draws[6 * i + 5] < 1.0;
  }

  /** A flake's move in one frame: its velocity, plus a sway of sin(time + i) / 500 along x and
      cos(time + i) / 500 along z. */
  function Drifted(p: Vec3, v: Vec3, m: MathLib, time: real, i: nat): Vec3 {
    Vec3(p.x + (v.x + Sway(Sin(m, time + i as real))), p.y + v.y, p.z + (v.z + Sway(Cos(m, time + i as real))))
  }

  /** The sway amplitude: a wave scaled by 0.002. */
  function Sway(wave: real): real {
    wave * 0.002
  }

  /** Whether flake i of `pos` drops below the floor this frame. */
  predicate Falls(pos: seq<real>, vel: seq<real>, i: nat)
    requires 3 * i + 2 < |pos| && 3 * i + 2 < |vel|
  {
    pos[3 * i + 1] + vel[3 * i + 1] < Floor
  }

  /** How many of the flakes before flake n drop below the floor this frame. */
  function Resets(pos: seq<real>, vel: seq<real>, n: nat): (r: nat)
    requires 3 * n <= |pos| && 3 * n <= |vel|
    ensures r <= n
  {
    if n == 0 then 0
    else Resets(pos, vel, n - 1) + (if Falls(pos, vel, n - 1) then 1 else 0)
  }

  /** One flake's frame, given the two draws a respawn would read: a flake that drops below
      the floor restarts at y = `Top` with x and z spread over [-30, 30); any other flake has
      moved by `Drifted`. */
  function Step(p: Vec3, v: Vec3, m: MathLib, time: real, i: nat, a: real, b: real): (q: Vec3)
    ensures Floor <= q.y
  {
    if p.y + v.y < Floor then Vec3(Spread(a, 60.0), Top, Spread(b, 60.0)) else Drifted(p, v, m, time, i)
  }

  /** Flake i after a frame: the j-th flake to respawn this frame reads draws 2j and 2j + 1. */
  function Advanced(pos: seq<real>, vel: seq<real>, m: MathLib, time: real, draws: seq<real>, i: nat): Vec3
    requires 3 * i + 2 < |pos| && 3 * i + 2 < |vel| && 2 * (i + 1) <= |draws|
  {
    var j := Resets(pos, vel, i);
    Step(Flake(pos, i), Flake(vel, i), m, time, i, draws[2 * j], draws[2 * j + 1])
  }

  /** The points object's position attribute: the buffer it draws and its upload flag. */
  class PositionAttribute {
    const buffer: array<real>
    var needsUpdate: bool

    constructor (positions: array<real>)
      ensures buffer == positions && !needsUpdate
    {
      buffer := positions;
      needsUpdate := false;
    }
  }

  /** The snow frame callback. Nothing happens without a points object. Otherwise every flake is
      advanced in place as `Advanced` says, the velocities are only read, the method returns how
      many flakes respawned (each consumed two draws), and the buffer is flagged for upload. */
  method SnowFrame(points: PositionAttribute?, velocities: array<real>, m: MathLib, time: real,
                   draws: seq<real>) returns (resets: nat)
    requires points != null ==>
      && points.buffer.Length == 3 * SnowCount && velocities.Length == 3 * SnowCount
      && points.buffer != velocities
    requires 2 * SnowCount <= |draws|
    modifies if points == null then {} else {points, points.buffer}
    ensures points == null ==> resets == 0
    ensures points != null ==>
      && points.needsUpdate
      && resets == Resets(old(points.buffer[..]), velocities[..], SnowCount)
      && forall i :: 0 <= i < SnowCount ==>
           Flake(points.buffer[..], i) == Advanced(old(points.buffer[..]), velocities[..], m, time, draws, i)
  {
    if points == null {
      return 0;
    }
    var positions := points.buffer;
    ghost var before, vel := positions[..], velocities[..];
    resets := 0;
    var i := 0;
    while i < SnowCount
      invariant 0 <= i <= SnowCount
      invariant velocities[..] == vel
      invariant resets == Resets(before, vel, i)
      invariant forall k :: 0 <= k < i ==> Flake(positions[..], k) == Advanced(before, vel, m, time, draws, k)
      invariant forall k :: i <= k < SnowCount ==> Flake(positions[..], k) == Flake(before, k)
    {
      ghost var current := positions[..];
      ghost var q := Step(Flake(current, i), Flake(vel, i), m, time, i, draws[2 * resets], draws[2 * resets + 1]);
      assert q == Advanced(before, vel, m, time, draws, i);
      var respawned := AdvanceFlake(positions, velocities, i, m, time, draws, resets);
      FlakesAfterSet(current, i, q);
      assert respawned == Falls(before, vel, i);
      if respawned {
        resets := resets + 1;
      }
      i := i + 1;
    }
    points.needsUpdate := true;
  }

  /** The loop body for flake i, the j-th respawn candidate: sway and velocity are added to x, y
      and z, and a flake now below the floor is put back at the top with fresh x and z. */
  method AdvanceFlake(positions: array<real>, velocities: array<real>, i: nat, m: MathLib, time: real,
                      draws: seq<real>, j: nat) returns (respawned: bool)
    requires positions != velocities
    requires 3 * i + 2 < positions.Length && 3 * i + 2 < velocities.Length && 2 * j + 1 < |draws|
    modifies positions
    ensures var p, v := Flake(old(positions[..]), i), Flake(velocities[..], i);
      && respawned == (p.y + v.y < Floor)
      && positions[..] == SetFlake(old(positions[..]), i, Step(p, v, m, time, i, draws[2 * j], draws[2 * j + 1]))
  {
    var ix, iy, iz := 3 * i, 3 * i + 1, 3 * i + 2;
    var x := positions[ix] + (velocities[ix] + Sin(m, time + i as real) * 0.002);
    var y := positions[iy] + velocities[iy];
    var z := positions[iz] + (velocities[iz] + Cos(m, time + i as real) * 0.002);
    respawned := y < Floor;
    if respawned {
      y := Top;
      x := (draws[2 * j] - 0.5) * 60.0;
      z := (draws[2 * j + 1] - 0.5) * 60.0;
    }
    WriteFlake(positions, i, x, y, z);
  }

  /** A flake that does not respawn moves by its velocity, give or take the sway: exactly along
      y, and by at most 0.002 off its velocity along x and z. */
  lemma DriftWithinSway(pos: seq<real>, vel: seq<real>, m: MathLib, time: real, draws: seq<real>, i: nat)
    requires 3 * i + 2 < |pos| && 3 * i + 2 < |vel| && 2 * (i + 1) <= |draws|
    requires Bounded(m) && !Falls(pos, vel, i)
    ensures var p, v, q := Flake(pos, i), Flake(vel, i), Advanced(pos, vel, m, time, draws, i);
      && q.y == p.y + v.y
      && -0.002 <= q.x - (p.x + v.x) <= 0.002
      && -0.002 <= q.z - (p.z + v.z) <= 0.002
  {
    MulBoundedFactor(Sin(m, time + i as real), 0.002);
    MulBoundedFactor(Cos(m, time + i as real), 0.002);
  }

  /** A respawned flake restarts at the top, inside the spawn square [-30, 30) x [-30, 30). */
  lemma RespawnInSquare(pos: seq<real>, vel: seq<real>, m: MathLib, time: real, draws: seq<real>, i: nat)
    requires 3 * i + 2 < |pos| && 3 * i + 2 < |vel| && 2 * (i + 1) <= |draws|
    requires UnitDraws(draws) && Falls(pos, vel, i)
    ensures var q := Advanced(pos, vel, m, time, draws, i);
      q.y == Top && -30.0 <= q.x < 30.0 && -30.0 <= q.z < 30.0
  {
    var j := Resets(pos, vel, i);
    assert 0.0 <= draws[2 * j] < 1.0 && 0.0 <= draws[2 * j + 1] < 1.0;
  }

  /** Flakes that all fall (negative y velocity) and all sit at or below `Top` stay at or below
      `Top` after a frame, and from then on at or above the floor: the band [-12, 35] is
      reached after one frame and kept by every later one. */
  lemma FrameKeepsBand(pos: seq<real>, vel: seq<real>, m: MathLib, time: real, draws: seq<real>, n: nat)
    requires 3 * n <= |pos| && 3 * n <= |vel| && 2 * n <= |draws|
    requires forall k :: 0 <= k < n ==> Flake(vel, k).y < 0.0 && Flake(pos, k).y <= Top
    ensures forall k :: 0 <= k < n ==>
      Floor <= Advanced(pos, vel, m, time, draws, k).y <= Top
  {
    forall k | 0 <= k < n
      ensures Floor <= Advanced(pos, vel, m, time, draws, k).y <= Top
    {
      assert Flake(vel, k).y < 0.0 && Flake(pos, k).y <= Top;
    }
  }

  /** No flake respawns exactly when none of them drops below the floor. */
  lemma {:induction false} NoResetsIffNoneFalls(pos: seq<real>, vel: seq<real>, n: nat)
    requires 3 * n <= |pos| && 3 * n <= |vel|
    ensures Resets(pos, vel, n) == 0 <==> forall k :: 0 <= k < n ==> !Falls(pos, vel, k)
  {
    if n > 0 {
      NoResetsIffNoneFalls(pos, vel, n - 1);
    }
  }
}
