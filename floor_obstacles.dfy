/**
 * The shapes the player platform can take, and the data an obstacle placed
 * inside a shaft segment carries.
 *
 * PlatformShape is declared inside PlayerPlatform in the game. It lives here
 * because the shaft's obstacles name a required shape and the platform
 * imports the shaft, so declaring it with the platform would make the two
 * modules import each other.
 */
module FloorObstacles {

  /** PlayerPlatform.PlatformShape, in declaration order (LetterA is the default value). */
  datatype PlatformShape = LetterA | LetterB | LetterL | LetterR | LetterX | LetterY

  /**
   * A floor obstacle as authored inside a segment prefab: its height relative
   * to the segment origin, the shape the platform must have to pass it, and
   * whether any platform orientation is accepted.
   */
  datatype ObstacleTemplate = ObstacleTemplate(
    localY: real,
    requiredPlatformShape: PlatformShape,
    allOrientationsAccepted: bool)
}
