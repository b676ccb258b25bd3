/** The bird: a fixed-x box that falls under capped gravity and flaps
    upwards, gated by a latch and by the ceiling. */
module Birds {
  import opened Geometry
  import opened Settings

  /** The bird's fields as a value. `shape` is the hitbox built by the last
      `update`, which may be older than `y`. */
  datatype BirdState = BirdState(y: int, yVelocity: int, flapping: bool, dead: bool, shape: Rect) {

    /** Whether the stored hitbox meets `r`. */
    predicate Collided(r: Rect) {
      Overlaps(shape, r)
    }

    /** Whether the bird is at or above the top of the screen. */
    predicate ReachedCeil() {
      y <= 0
    }
  }

  function Min(a: int, b: int): int {
    if a < b then a else b
  }

  /** The hitbox of a bird whose top edge is at `y`. */
  function ShapeAt(c: Config, y: int): Rect {
    Rect(c.birdX, y, c.birdWidth, c.birdHeight)
  }

  /** One `update`: rebuild the hitbox from the current `y`, move by the
      current velocity, then let gravity pull harder, up to the cap. */
  function AfterUpdate(c: Config, b: BirdState): BirdState {
    b.(shape := ShapeAt(c, b.y),
       y := b.y + b.yVelocity,
       yVelocity := Min(b.yVelocity + c.gravityStep, c.gravityMaxVelocity))
  }

  /** One `flap`. */
  function AfterFlap(c: Config, b: BirdState): BirdState {
    if !b.flapping && !b.ReachedCeil() then
      b.(flapping := true, yVelocity := -c.gravityMaxVelocity)
    else
      b
  }

  /** One `reset`: the position and the hitbox are kept. */
  function AfterReset(b: BirdState): BirdState {
    b.(flapping := false, dead := false, yVelocity := 0)
  }

  /** The state the constructor leaves: in the middle of the screen, at rest. */
  function InitialBird(c: Config): BirdState {
    BirdState(c.height / 2, 0, false, false, ShapeAt(c, c.height / 2))
  }

  /** `n` updates with no flap in between. */
  function Fall(c: Config, b: BirdState, n: nat): BirdState
    decreases n
  {
    if n == 0 then b else Fall(c, AfterUpdate(c, b), n - 1)
  }

  /** An update moves the bird by the velocity it had before the update and
      leaves the velocity at the cap or below, whatever it was before. */
  lemma UpdateAppliesOldVelocity(c: Config, b: BirdState)
    ensures AfterUpdate(c, b).y == b.y + b.yVelocity
    ensures AfterUpdate(c, b).yVelocity <= c.gravityMaxVelocity
    ensures AfterUpdate(c, b).yVelocity == b.yVelocity + c.gravityStep
            || AfterUpdate(c, b).yVelocity == c.gravityMaxVelocity
    ensures b.yVelocity + c.gravityStep <= c.gravityMaxVelocity
            ==> AfterUpdate(c, b).yVelocity == b.yVelocity + c.gravityStep
    ensures AfterUpdate(c, b).flapping == b.flapping && AfterUpdate(c, b).dead == b.dead
  {
  }

  /** The hitbox an update builds lags one frame: it sits at the pre-move `y`,
      its left edge is always the bird's fixed x and its size never changes. */
  lemma UpdateShapeLagsOneFrame(c: Config, b: BirdState, r: Rect)
    ensures AfterUpdate(c, b).shape.x == c.birdX && AfterUpdate(c, b).shape.y == b.y
    ensures AfterUpdate(c, b).shape.w == c.birdWidth && AfterUpdate(c, b).shape.h == c.birdHeight
    ensures AfterUpdate(c, b).Collided(r) == Overlaps(ShapeAt(c, b.y), r)
  {
  }

  /** Collision reads only the stored hitbox: moving the bird or changing its
      velocity without an update does not change the answer. */
  lemma CollidedIgnoresPosition(b: BirdState, r: Rect, y: int, v: int)
    ensures b.(y := y, yVelocity := v).Collided(r) == b.Collided(r)
  {
  }

  /** With non-negative gravity and a velocity within the cap, an update never
      lowers the velocity. */
  lemma UpdateVelocityNonDecreasing(c: Config, b: BirdState)
    requires c.gravityStep >= 0 && b.yVelocity <= c.gravityMaxVelocity
    ensures b.yVelocity <= AfterUpdate(c, b).yVelocity <= c.gravityMaxVelocity
  {
  }

  /** Free fall: after `n` updates from a velocity within the cap, the velocity
      is the old one plus `n` gravity steps, cut at the cap; it has not gone
      down, and nothing else but position and hitbox has changed. */
  lemma {:induction false} FallVelocity(c: Config, b: BirdState, n: nat)
    requires c.gravityStep >= 0 && b.yVelocity <= c.gravityMaxVelocity
    ensures Fall(c, b, n).yVelocity == Min(b.yVelocity + n * c.gravityStep, c.gravityMaxVelocity)
    ensures b.yVelocity <= Fall(c, b, n).yVelocity <= c.gravityMaxVelocity
    ensures Fall(c, b, n).flapping == b.flapping && Fall(c, b, n).dead == b.dead
    decreases n
  {
    if n > 0 {
      var b' := AfterUpdate(c, b);
      FallVelocity(c, b', n - 1);
      assert (n - 1) * c.gravityStep + c.gravityStep == n * c.gravityStep;
    }
  }

  /** A flap fires exactly when the latch is clear and the bird is below the
      ceiling; then it sets the latch and the upward impulse, and otherwise it
      changes nothing. */
  lemma FlapGate(c: Config, b: BirdState)
    ensures !b.flapping && b.y > 0 ==>
              AfterFlap(c, b) == b.(flapping := true, yVelocity := -c.gravityMaxVelocity)
    ensures b.flapping || b.y <= 0 ==> AfterFlap(c, b) == b
  {
  }

  /** The latch makes a second flap in a row a no-op. */
  lemma FlapLatched(c: Config, b: BirdState)
    ensures AfterFlap(c, AfterFlap(c, b)) == AfterFlap(c, b)
  {
  }

  /** A reset clears the latch, the death flag and the velocity and keeps the
      position and the hitbox. */
  lemma ResetKeepsPosition(b: BirdState)
    ensures !AfterReset(b).flapping && !AfterReset(b).dead && AfterReset(b).yVelocity == 0
    ensures AfterReset(b).y == b.y && AfterReset(b).shape == b.shape
  {
  }

  /** A Python attribute that may not have been assigned yet. */
  datatype Attr = Unset | Assigned(value: int)

  /** What running `Bird.__init__` gives: a bird, or the exception raised. */
  datatype Construction = Constructed(bird: BirdState) | AttributeError

  /** `update` on an object whose `y` and `y_velocity` may be missing: reading
      a missing attribute raises. `flapping` and `dead` are not read. */
  function UpdateOnPartial(c: Config, y: Attr, yVelocity: Attr): Construction {
    if y.Unset? || yVelocity.Unset? then AttributeError
    else Constructed(AfterUpdate(c, BirdState(y.value, yVelocity.value, false, false, ShapeAt(c, y.value))))
  }

  /** `Bird.__init__` in the order it is written: `y` is assigned, `update`
      runs, and only then does `reset` assign `y_velocity`. */
  function ConstructAsWritten(c: Config): Construction {
    match UpdateOnPartial(c, Assigned(c.height / 2), Unset)
    case AttributeError => AttributeError
    case Constructed(b) => Constructed(AfterReset(b))
  }

  /** As written, the constructor always raises: its first `update` reads
      `y_velocity` before anything has assigned it. */
  lemma ConstructorAsWrittenRaises(c: Config)
    ensures ConstructAsWritten(c) == AttributeError
  {
  }

  /** The bird object. Its methods change its fields exactly as the step
      functions above say. */
  class Bird {
    const cfg: Config
    var y: int
    var yVelocity: int
    var flapping: bool
    var dead: bool
    var shape: Rect

    function State(): BirdState
      reads this
    {
      BirdState(y, yVelocity, flapping, dead, shape)
    }

    /** Starts in the middle of the screen, at rest, with its hitbox there.
        The velocity is given its value before the first `update` reads it. */
    constructor (c: Config)
      ensures cfg == c
      ensures State() == InitialBird(c)
      ensures y == c.height / 2 && yVelocity == 0 && !flapping && !dead
      ensures shape == Rect(c.birdX, c.height / 2, c.birdWidth, c.birdHeight)
    {
      cfg := c;
      y := c.height / 2;
      yVelocity := 0;
      new;
      Update();
      Reset();
    }

    method Reset()
      modifies this
      ensures State() == AfterReset(old(State()))
      ensures !flapping && !dead && yVelocity == 0 && y == old(y) && shape == old(shape)
    {
      flapping := false;
      dead := false;
      yVelocity := 0;
    }

    method Update()
      modifies this
      ensures State() == AfterUpdate(cfg, old(State()))
      ensures y == old(y) + old(yVelocity) && yVelocity <= cfg.gravityMaxVelocity
      ensures shape == ShapeAt(cfg, old(y))
    {
      shape := ShapeAt(cfg, y);
      y := y + yVelocity;
      yVelocity := Min(yVelocity + cfg.gravityStep, cfg.gravityMaxVelocity);
    }

    method Flap()
      modifies this
      ensures State() == AfterFlap(cfg, old(State()))
      ensures old(flapping) || old(y) <= 0 ==> unchanged(this)
      ensures !old(flapping) && old(y) > 0 ==> flapping && yVelocity == -cfg.gravityMaxVelocity
    {
      if !flapping && !State().ReachedCeil() {
        flapping := true;
        yVelocity := -cfg.gravityMaxVelocity;
      }
    }
  }
}
