/** The game's fixed configuration. Every value is an input to the model:
    the configuration object the game reads is not part of this model. */
module Settings {
  import opened Geometry

  datatype Config = Config(
    width: int,               // screen width (Dimensions[0])
    height: int,              // screen height (Dimensions[1])
    speed: int,               // horizontal scroll per frame
    pipeWidth: int,
    birdX: int,               // the bird's fixed left edge
    birdWidth: int,
    birdHeight: int,
    gravityStep: int,         // added to the vertical velocity each frame
    gravityMaxVelocity: int,  // falling-speed cap, and the flap impulse's magnitude
    distanceLo: int,          // closed range of the distance to the next pipe
    distanceHi: int,
    ground: Rect              // the ground's constant rectangle
  )
}
