/** The palette and the tunables of the scene. */
module Constants {
  import opened Types

  /** The hex string each palette entry denotes. */
  function Hex(c: Color): string {
    match c
    case EmeraldDeep => "#0B3A2E"
    case EmeraldLight => "#105040"
    case RedVelvet => "#8B1A1A"
    case GoldMetallic => "#FFD700"
    case GoldWarm => "#FFD983"
    case SnowWhite => "#FFF8E7"
    case Background => "#010806"
    case Fog => "#061A14"
  }

  const NeedleCount: nat := 4000
  const GiftCount: nat := 120
  const SphereCount: nat := 120
  const MiscCount: nat := 80
  const SnowCount: nat := 1500

  const TreeHeight: real := 18.0
  const TreeRadius: real := 6.5
  const ScatterRadius: real := 40.0

  /** Multiplies the frame delta to give the per-frame blend factor of the progress value. */
  const AnimationSpeed: real := 1.8

  /** `Math.PI` as the nearest double. */
  const Pi: real := 3.141592653589793
}
