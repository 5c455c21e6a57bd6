/** The value types of the particle engine: points, Euler angles, palette colours,
    ornament categories, the per-particle record and the two arrangement states. */
module Types {

  /** A point or a per-axis scale (three.js Vector3). */
  datatype Vec3 = Vec3(x: real, y: real, z: real)

  /** An orientation as three angles in radians (three.js Euler, XYZ order). */
  datatype Euler = Euler(x: real, y: real, z: real)

  /** The named palette entries; each stands for the hex string given by Constants.Hex. */
  datatype Color = EmeraldDeep | EmeraldLight | RedVelvet | GoldMetallic | GoldWarm
                 | SnowWhite | Background | Fog

  /** The ornament categories. `Star` is the single topper; every other category is instanced. */
  datatype OrnamentType = Needle | Box | Ribbon | Sphere | Cone | Star | SmallStar

  /** The arrangement signal owned by the page: the assembled tree or the scattered cloud. */
  datatype TreeState = Scattered | TreeShape

  /** One particle, built once and only read afterwards. */
  datatype ParticleData = ParticleData(
    id: int,
    kind: OrnamentType,
    scatterPosition: Vec3,
    treePosition: Vec3,
    rotation: Euler,
    rotationSpeed: real,
    scale: Vec3,
    color: Color,
    speed: real,
    phase: real)

  /** `new Vector3(1, 1, 1).multiplyScalar(s)` and `new Vector3(s, s, s)`. */
  function Uniform(s: real): Vec3 {
    Vec3(s, s, s)
  }
}
