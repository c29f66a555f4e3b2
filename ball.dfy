/**
 * Ball kinematics: a position and a velocity that the game moves, bounces,
 * spins and speeds up.  Each in-place operation of the Ball class is specified
 * by a value-level function on Vec, and the properties the game relies on are
 * proved about those functions.
 */
module Balls {
  import opened PongConstants

  /** A 2D vector: a position in pixels or a velocity in pixels per second. */
  datatype Vec = Vec(x: real, y: real)

  /** Where the ball is put on a reset: the middle of the play area. */
  const CENTER := Vec(PLAY_AREA_CENTER, CANVAS_HEIGHT / 2.0)

  function SpeedSquared(v: Vec): real {
    v.x * v.x + v.y * v.y
  }

  /** s is the Euclidean length of v. */
  predicate IsSpeedOf(s: real, v: Vec) {
    0.0 <= s && s * s == SpeedSquared(v)
  }

  /**
   * The square-root primitive the ball uses: exact on every non-negative
   * real, and positive on positive ones.
   */
  ghost predicate IsSquareRoot(sqrt: real -> real) {
    forall q :: 0.0 <= q ==> 0.0 <= sqrt(q) && sqrt(q) * sqrt(q) == q && (0.0 < q ==> 0.0 < sqrt(q))
  }

  /** The injected root of a squared speed is that speed. */
  lemma RootIsSpeed(sqrt: real -> real, v: Vec)
    requires IsSquareRoot(sqrt)
    ensures IsSpeedOf(sqrt(SpeedSquared(v)), v)
  {
  }

  /** Only the zero vector has length 0. */
  lemma PositiveSpeed(v: Vec)
    requires v != Vec(0.0, 0.0)
    ensures 0.0 < SpeedSquared(v)
  {
    calc {
      SpeedSquared(v);
      == v.x * v.x + v.y * v.y;
      > { SumOfSquares(v.x, v.y); }
      0.0;
    }
  }

  /** A sum of two squares is non-negative, and positive unless both are 0. */
  lemma SumOfSquares(a: real, b: real)
    ensures 0.0 <= a * a + b * b
    ensures a != 0.0 || b != 0.0 ==> 0.0 < a * a + b * b
  {
  }

  /** Squaring is strictly increasing on non-negative reals. */
  lemma SquareLess(a: real, b: real)
    requires 0.0 <= a < b
    ensures a * a < b * b
  {
    calc {
      a * a;
      <= { assert 0.0 <= a * (b - a); }
      a * b;
      < { assert 0.0 < b * (b - a); }
      b * b;
    }
  }

  /** The injected root of a squared speed is exactly that speed. */
  lemma RootOfSpeedSquared(sqrt: real -> real, v: Vec, s: real)
    requires IsSquareRoot(sqrt) && IsSpeedOf(s, v)
    ensures sqrt(SpeedSquared(v)) == s
  {
    var r := sqrt(SpeedSquared(v));
    assert 0.0 <= r && r * r == s * s;
    if r < s {
      SquareLess(r, s);
    } else if s < r {
      SquareLess(s, r);
    }
  }

  /** Same orientation: each component keeps its sign and the two vectors are parallel. */
  predicate SameDirection(a: Vec, b: Vec) {
    && (a.x < 0.0 <==> b.x < 0.0) && (a.x > 0.0 <==> b.x > 0.0)
    && (a.y < 0.0 <==> b.y < 0.0) && (a.y > 0.0 <==> b.y > 0.0)
    && a.x * b.y == a.y * b.x
  }

  function Min(a: real, b: real): real {
    if a <= b then a else b
  }

  /**
   * The velocity a reset draws from two random numbers in [0, 1): the first
   * picks a direction from [-1, 1] by index, the second the vertical speed.
   */
  function ResetVelocity(direction: real, spin: real): (v: Vec)
    requires 0.0 <= direction < 1.0 && 0.0 <= spin < 1.0
    ensures v.x == if direction < 0.5 then -BALL_INITIAL_SPEED else BALL_INITIAL_SPEED
    ensures -BALL_INITIAL_SPEED / 2.0 <= v.y < BALL_INITIAL_SPEED / 2.0
  {
    var directions := [-1.0, 1.0];
    var index := (direction * |directions| as real).Floor;
    Vec(BALL_INITIAL_SPEED * directions[index], (spin - 0.5) * BALL_INITIAL_SPEED)
  }

  /** The velocity after a horizontal bounce. */
  function FlipX(v: Vec): (r: Vec)
    ensures SpeedSquared(r) == SpeedSquared(v)
  {
    Vec(-v.x, v.y)
  }

  /** The velocity after a vertical bounce. */
  function FlipY(v: Vec): (r: Vec)
    ensures SpeedSquared(r) == SpeedSquared(v)
  {
    Vec(v.x, -v.y)
  }

  /** The velocity after spin from a paddle contact at hitPosition. */
  function WithSpin(v: Vec, hitPosition: real, effectStrength: real): Vec {
    Vec(v.x, v.y + hitPosition * effectStrength)
  }

  function Scale(v: Vec, k: real): Vec {
    Vec(v.x * k, v.y * k)
  }

  /** Scaling a vector by k >= 0 scales its length by k: to t when k * s == t. */
  lemma ScaleSpeed(v: Vec, k: real, s: real, t: real)
    requires IsSpeedOf(s, v) && 0.0 <= t && k * s == t
    ensures IsSpeedOf(t, Scale(v, k))
  {
  }

  /** Scaling by a positive factor keeps the direction. */
  lemma ScaleKeepsDirection(v: Vec, k: real)
    requires 0.0 < k
    ensures SameDirection(Scale(v, k), v)
  {
  }

  /** The speed accelerate aims for from speed s. */
  function TargetSpeed(s: real): real {
    Min(s + BALL_ACCELERATION, BALL_MAX_SPEED)
  }

  /**
   * The velocity after accelerate, given the current speed s of v.  Below
   * the cap the new speed is exactly TargetSpeed(s); at or above it nothing
   * changes; the direction is kept either way.
   */
  function Accelerated(v: Vec, s: real): (r: Vec)
    requires 0.0 < s && IsSpeedOf(s, v)
    ensures s < BALL_MAX_SPEED ==> IsSpeedOf(TargetSpeed(s), r)
    ensures BALL_MAX_SPEED <= s ==> r == v
    ensures SameDirection(r, v)
  {
    if s < BALL_MAX_SPEED then
      var t := TargetSpeed(s);
      var ratio := t / s;
      assert ratio * s == t;
      ScaleSpeed(v, ratio, s, t);
      ScaleKeepsDirection(v, ratio);
      Scale(v, ratio)
    else
      v
  }

  /** The speed accelerate leaves the ball with, from speed s. */
  function SpeedAfterAccelerate(s: real): real {
    if s < BALL_MAX_SPEED then TargetSpeed(s) else s
  }

  /**
   * accelerate never lowers the speed, raises it strictly below the cap by at
   * most one step, and never lifts it past the cap from below.
   */
  lemma AccelerateNeverSlows(v: Vec, s: real)
    requires 0.0 < s && IsSpeedOf(s, v)
    ensures IsSpeedOf(SpeedAfterAccelerate(s), Accelerated(v, s))
    ensures s <= SpeedAfterAccelerate(s)
    ensures s < BALL_MAX_SPEED ==> s < SpeedAfterAccelerate(s) <= BALL_MAX_SPEED
    ensures SpeedAfterAccelerate(s) <= s + BALL_ACCELERATION
    ensures SpeedSquared(v) <= SpeedSquared(Accelerated(v, s))
    ensures s < BALL_MAX_SPEED ==> SpeedSquared(v) < SpeedSquared(Accelerated(v, s))
  {
    if s < BALL_MAX_SPEED {
      var t := TargetSpeed(s);
      calc {
        SpeedSquared(v);
        == s * s;
        < { SquareLess(s, t); }
        t * t;
        == SpeedSquared(Accelerated(v, s));
      }
    }
  }

  /** Each bounce undoes itself. */
  lemma FlipsAreInvolutions(v: Vec)
    ensures FlipX(FlipX(v)) == v && FlipY(FlipY(v)) == v
  {
  }

  class Ball {
    var position: Vec
    var velocity: Vec

    /** A new ball sits at the centre and starts with its field-initialiser velocity. */
    constructor()
      ensures position == CENTER && velocity == Vec(BALL_INITIAL_SPEED, 150.0)
    {
      velocity := Vec(BALL_INITIAL_SPEED, 150.0);
      position := Vec(PLAY_AREA_CENTER, CANVAS_HEIGHT / 2.0);
    }

    /** Re-centres the ball with a velocity drawn from two random numbers. */
    method Reset(direction: real, spin: real)
      requires 0.0 <= direction < 1.0 && 0.0 <= spin < 1.0
      modifies this
      ensures position == CENTER && velocity == ResetVelocity(direction, spin)
    {
      position := position.(x := PLAY_AREA_CENTER);
      position := position.(y := CANVAS_HEIGHT / 2.0);
      var directions := [-1.0, 1.0];
      var randomDirection := directions[(direction * |directions| as real).Floor];
      velocity := velocity.(x := BALL_INITIAL_SPEED * randomDirection);
      velocity := velocity.(y := (spin - 0.5) * BALL_INITIAL_SPEED);
    }

    /**
     * Speeds the ball up by one step, up to the cap.  There is no guard
     * against a ball at rest: the speed is divided by, so the ball must move.
     */
    method Accelerate(sqrt: real -> real)
      requires IsSquareRoot(sqrt) && 0.0 < SpeedSquared(velocity)
      modifies this`velocity
      ensures velocity == Accelerated(old(velocity), sqrt(SpeedSquared(old(velocity))))
    {
      var currentSpeed := sqrt(velocity.x * velocity.x + velocity.y * velocity.y);
      assert currentSpeed == sqrt(SpeedSquared(velocity));
      if currentSpeed < BALL_MAX_SPEED {
        var newSpeed := Min(currentSpeed + BALL_ACCELERATION, BALL_MAX_SPEED);
        var speedRatio := newSpeed / currentSpeed;
        velocity := velocity.(x := velocity.x * speedRatio);
        velocity := velocity.(y := velocity.y * speedRatio);
      }
    }

    /** Moves the ball along its velocity for deltaSeconds. */
    method Update(deltaSeconds: real)
      modifies this`position
      ensures position == Vec(old(position).x + velocity.x * deltaSeconds,
                              old(position).y + velocity.y * deltaSeconds)
    {
      position := position.(x := position.x + velocity.x * deltaSeconds);
      position := position.(y := position.y + velocity.y * deltaSeconds);
    }

    method ReverseX()
      modifies this`velocity
      ensures velocity == FlipX(old(velocity))
    {
      velocity := velocity.(x := -velocity.x);
    }

    method ReverseY()
      modifies this`velocity
      ensures velocity == FlipY(old(velocity))
    {
      velocity := velocity.(y := -velocity.y);
    }

    /** Adds spin; the source's default effectStrength is EFFECT_STRENGTH. */
    method AddEffect(hitPosition: real, effectStrength: real)
      modifies this`velocity
      ensures velocity == WithSpin(old(velocity), hitPosition, effectStrength)
    {
      velocity := velocity.(y := velocity.y + hitPosition * effectStrength);
    }

    method SetPosition(x: real, y: real)
      modifies this`position
      ensures position == Vec(x, y)
    {
      position := position.(x := x);
      position := position.(y := y);
    }

    /** Moving right: a ball doing so is moving, so accelerating it is defined. */
    predicate IsMovingRight(): (r: bool)
      reads this
      ensures r ==> 0.0 < SpeedSquared(velocity)
    {
      if velocity.x > 0.0 then PositiveSpeed(velocity); true else false
    }

    /** Moving left: a ball doing so is moving, so accelerating it is defined. */
    predicate IsMovingLeft(): (r: bool)
      reads this
      ensures r ==> 0.0 < SpeedSquared(velocity)
    {
      if velocity.x < 0.0 then PositiveSpeed(velocity); true else false
    }

    /** The length of the velocity, through the given square root. */
    method GetCurrentSpeed(sqrt: real -> real) returns (speed: real)
      requires IsSquareRoot(sqrt)
      ensures IsSpeedOf(speed, velocity)
    {
      speed := sqrt(velocity.x * velocity.x + velocity.y * velocity.y);
    }
  }

  /** The two direction queries never hold together, and neither holds for a vertical velocity. */
  lemma DirectionQueriesExclusive(ball: Ball)
    ensures !(ball.IsMovingRight() && ball.IsMovingLeft())
    ensures ball.velocity.x == 0.0 ==> !ball.IsMovingRight() && !ball.IsMovingLeft()
  {
  }
}
