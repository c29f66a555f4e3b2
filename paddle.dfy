/**
 * A paddle: a rectangle of PADDLE_WIDTH by PADDLE_HEIGHT whose centre has a
 * fixed x and a y that the touch control (left paddle) or the AI (right
 * paddle) moves.  Both movers keep the centre inside the frame with the same
 * two-step clamp, stated once here.
 */
module Paddles {
  import opened PongConstants

  class Paddle {
    const x: real
    var y: real

    constructor(x: real, y: real)
      ensures this.x == x && this.y == y
    {
      this.x := x;
      this.y := y;
    }
  }

  /** The paddle centres that keep the whole paddle inside the frame. */
  predicate InField(y: real) {
    PADDLE_MIN_Y <= y <= PADDLE_MAX_Y
  }

  /**
   * The limits applied after every paddle move: first against the top of the
   * frame, then against the bottom.
   */
  function ClampPaddleY(y: real): (r: real)
    ensures InField(r)
    ensures InField(y) ==> r == y
    ensures y < PADDLE_MIN_Y ==> r == PADDLE_MIN_Y
    ensures PADDLE_MAX_Y < y ==> r == PADDLE_MAX_Y
  {
    var top := if y - PADDLE_HALF_HEIGHT < FRAME_MARGIN then PADDLE_HALF_HEIGHT + FRAME_MARGIN else y;
    if top + PADDLE_HALF_HEIGHT > CANVAS_HEIGHT - FRAME_MARGIN then CANVAS_HEIGHT - PADDLE_HALF_HEIGHT - FRAME_MARGIN else top
  }
}
