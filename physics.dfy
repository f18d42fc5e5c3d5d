/**
 * The rigidbody and transform fields the controllers read and write.
 * Physics itself (gravity integration, collision resolution) is not modelled:
 * an impulse added with `AddForce(..., Impulse)` is accumulated in
 * `pendingImpulseY` for the next physics step.
 */
module Physics {

  /** The values of a body's fields at one moment. */
  datatype BodyState = BodyState(vx: real, vy: real, gravityScale: real, pendingImpulseY: real, scaleX: real)

  class Body {
    /** `linearVelocity`. */
    var vx: real
    var vy: real
    /** `gravityScale`. */
    var gravityScale: real
    /** Upward impulse queued by `AddForce` and not yet applied by the engine. */
    var pendingImpulseY: real
    /** `transform.localScale.x`: the sprite facing, +1 or -1 once flipped. */
    var scaleX: real

    function State(): BodyState
      reads this
    {
      BodyState(vx, vy, gravityScale, pendingImpulseY, scaleX)
    }

    constructor (gravity: real)
      ensures vx == 0.0 && vy == 0.0 && pendingImpulseY == 0.0
      ensures gravityScale == gravity && scaleX == 1.0
    {
      vx, vy := 0.0, 0.0;
      gravityScale := gravity;
      pendingImpulseY := 0.0;
      scaleX := 1.0;
    }
  }
}

/** The per-frame snapshot the input component publishes. */
module Input {
  datatype Command = Command(
    moveAxis: real,
    jumpPressed: bool,
    jumpHeld: bool,
    jumpReleased: bool,
    dashPressed: bool,
    interactPressed: bool)
}
