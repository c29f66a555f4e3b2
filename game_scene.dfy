/**
 * The per-frame game logic of the scene: wall and paddle collisions, the AI
 * paddle, goals and misses, lives, game over and restart, and the gate that
 * runs all of it only while the player touches the screen.
 *
 * Each step is a method of the GameScene class that updates the scene, the
 * ball and the AI paddle in place; each is specified by a value-level
 * function on the ball's position and velocity or on the AI's numbers, and
 * the game's properties are proved about those functions.
 */
module Game {
  import opened PongConstants
  import opened Paddles
  import opened Balls
  import opened TouchControl

  // ---------------------------------------------------------------------
  // Geometry

  /** Centre x of the player (left) and AI (right) paddles: 150 and 910. */
  const LEFT_PADDLE_X: real := PADDLE_LEFT_OFFSET
  const RIGHT_PADDLE_X: real := CANVAS_WIDTH - PADDLE_OFFSET
  const PADDLE_HALF_WIDTH: real := PADDLE_WIDTH / 2.0

  /** Where a wall contact puts the ball's centre: 28 at the top, 512 at the bottom. */
  const TOP_CONTACT_Y: real := BALL_RADIUS + FRAME_MARGIN
  const BOTTOM_CONTACT_Y: real := CANVAS_HEIGHT - BALL_RADIUS - FRAME_MARGIN

  /** The ball's right edge left of this line (122.5) is a miss by the player. */
  const MISS_LINE_X: real := PADDLE_LEFT_OFFSET - PADDLE_WIDTH / 2.0 - 20.0

  /** The ball as the collision code sees it. */
  datatype BallState = BallState(position: Vec, velocity: Vec)

  // ---------------------------------------------------------------------
  // Walls

  predicate TouchesTopWall(y: real) {
    y - BALL_RADIUS <= FRAME_MARGIN
  }

  predicate TouchesBottomWall(y: real) {
    y + BALL_RADIUS >= CANVAS_HEIGHT - FRAME_MARGIN
  }

  /**
   * The ball after the wall checks, both made against the position read
   * before either of them.  A contact puts the ball flush against the wall
   * and reverses the vertical velocity whatever its sign: there is no
   * direction guard.  Horizontal motion and speed are untouched.
   */
  function WallBounce(b: BallState): (r: BallState)
    ensures r.position.x == b.position.x && r.velocity.x == b.velocity.x
    ensures TouchesTopWall(b.position.y) ==> r.position.y == TOP_CONTACT_Y && r.velocity.y == -b.velocity.y
    ensures TouchesBottomWall(b.position.y) ==> r.position.y == BOTTOM_CONTACT_Y && r.velocity.y == -b.velocity.y
    ensures !TouchesTopWall(b.position.y) && !TouchesBottomWall(b.position.y) ==> r == b
    ensures SpeedSquared(r.velocity) == SpeedSquared(b.velocity)
  {
    var p := b.position;
    var afterTop := if TouchesTopWall(p.y) then BallState(Vec(p.x, TOP_CONTACT_Y), FlipY(b.velocity)) else b;
    if TouchesBottomWall(p.y) then BallState(Vec(p.x, BOTTOM_CONTACT_Y), FlipY(afterTop.velocity)) else afterTop
  }

  /** The field is tall enough that one position never touches both walls. */
  lemma WallContactsExclusive(y: real)
    ensures !(TouchesTopWall(y) && TouchesBottomWall(y))
  {
  }

  // ---------------------------------------------------------------------
  // Paddles

  /** The ball's bounding box overlaps the paddle's on both axes. */
  predicate Overlaps(p: Vec, paddleX: real, paddleY: real, paddleHalfWidth: real) {
    && p.x - BALL_RADIUS <= paddleX + paddleHalfWidth
    && p.x + BALL_RADIUS >= paddleX - paddleHalfWidth
    && p.y - BALL_RADIUS <= paddleY + PADDLE_HALF_HEIGHT
    && p.y + BALL_RADIUS >= paddleY - PADDLE_HALF_HEIGHT
  }

  /** Where on the paddle the ball hit: 0 at the centre, 1 and -1 at the ends. */
  function HitPosition(ballY: real, paddleY: real): real {
    (ballY - paddleY) / PADDLE_HALF_HEIGHT
  }

  /**
   * hitPosition is not clamped to [-1, 1], but an overlap bounds it by the
   * paddle's half height plus the ball's radius, over the half height.
   */
  lemma HitPositionBounded(p: Vec, paddleX: real, paddleY: real, paddleHalfWidth: real)
    requires Overlaps(p, paddleX, paddleY, paddleHalfWidth)
    ensures -(PADDLE_HALF_HEIGHT + BALL_RADIUS) / PADDLE_HALF_HEIGHT <= HitPosition(p.y, paddleY)
    ensures HitPosition(p.y, paddleY) <= (PADDLE_HALF_HEIGHT + BALL_RADIUS) / PADDLE_HALF_HEIGHT
  {
  }

  /**
   * The velocity after a paddle hit: reversed horizontally, given spin by
   * the hit position, then accelerated from its new speed.  The horizontal
   * direction always ends up reversed.
   */
  function PaddleBounce(v: Vec, hitPosition: real, sqrt: real -> real): (r: Vec)
    requires IsSquareRoot(sqrt) && v.x != 0.0
    ensures r.x > 0.0 <==> v.x < 0.0
    ensures r.x < 0.0 <==> v.x > 0.0
  {
    var spun := WithSpin(FlipX(v), hitPosition, EFFECT_STRENGTH);
    PositiveSpeed(spun);
    RootIsSpeed(sqrt, spun);
    Accelerated(spun, sqrt(SpeedSquared(spun)))
  }

  /** The new speed after a paddle hit follows the speed of the spun velocity, not the old speed. */
  lemma PaddleBounceSpeed(v: Vec, hitPosition: real, sqrt: real -> real)
    requires IsSquareRoot(sqrt) && v.x != 0.0
    ensures var spun := WithSpin(FlipX(v), hitPosition, EFFECT_STRENGTH);
            var s := sqrt(SpeedSquared(spun));
            IsSpeedOf(SpeedAfterAccelerate(s), PaddleBounce(v, hitPosition, sqrt))
  {
  }

  /** The ball after a hit on a paddle: flush against its face, with the bounced velocity. */
  function PaddleHit(b: BallState, paddleX: real, paddleY: real, paddleHalfWidth: real,
                     isLeftPaddle: bool, sqrt: real -> real): (r: BallState)
    requires IsSquareRoot(sqrt) && b.velocity.x != 0.0
    ensures isLeftPaddle ==> r.position.x == paddleX + paddleHalfWidth + BALL_RADIUS
    ensures !isLeftPaddle ==> r.position.x == paddleX - paddleHalfWidth - BALL_RADIUS
    ensures r.position.y == b.position.y
    ensures r.velocity.x > 0.0 <==> b.velocity.x < 0.0
  {
    var x := if isLeftPaddle then paddleX + paddleHalfWidth + BALL_RADIUS else paddleX - paddleHalfWidth - BALL_RADIUS;
    BallState(Vec(x, b.position.y), PaddleBounce(b.velocity, HitPosition(b.position.y, paddleY), sqrt))
  }

  /** The left paddle's test: overlap, and the ball moving towards it. */
  predicate HitsLeftPaddle(b: BallState, leftY: real) {
    Overlaps(b.position, LEFT_PADDLE_X, leftY, PADDLE_HALF_WIDTH) && b.velocity.x < 0.0
  }

  /** The right paddle's test: overlap, and the ball moving towards it. */
  predicate HitsRightPaddle(b: BallState, rightY: real) {
    Overlaps(b.position, RIGHT_PADDLE_X, rightY, PADDLE_HALF_WIDTH) && b.velocity.x > 0.0
  }

  /** The paddles are so far apart that no ball position overlaps both. */
  lemma PaddleOverlapsExclusive(p: Vec, leftY: real, rightY: real)
    ensures !(Overlaps(p, LEFT_PADDLE_X, leftY, PADDLE_HALF_WIDTH) && Overlaps(p, RIGHT_PADDLE_X, rightY, PADDLE_HALF_WIDTH))
  {
  }

  /**
   * The ball after both paddle checks.  Both tests use the position read
   * before either hit, and the right test reads the velocity as the left
   * hit (if any) left it.
   */
  function PaddleCollisions(b: BallState, leftY: real, rightY: real, sqrt: real -> real): (r: BallState)
    requires IsSquareRoot(sqrt)
    ensures HitsLeftPaddle(b, leftY) ==> r == PaddleHit(b, LEFT_PADDLE_X, leftY, PADDLE_HALF_WIDTH, true, sqrt)
    ensures HitsRightPaddle(b, rightY) ==> r == PaddleHit(b, RIGHT_PADDLE_X, rightY, PADDLE_HALF_WIDTH, false, sqrt)
    ensures !HitsLeftPaddle(b, leftY) && !HitsRightPaddle(b, rightY) ==> r == b
  {
    var afterLeft := if HitsLeftPaddle(b, leftY) then PaddleHit(b, LEFT_PADDLE_X, leftY, PADDLE_HALF_WIDTH, true, sqrt) else b;
    if Overlaps(b.position, RIGHT_PADDLE_X, rightY, PADDLE_HALF_WIDTH) && afterLeft.velocity.x > 0.0 then
      PaddleHit(afterLeft, RIGHT_PADDLE_X, rightY, PADDLE_HALF_WIDTH, false, sqrt)
    else
      afterLeft
  }

  /**
   * After a hit the ball moves away from the paddle it hit, so the same
   * paddle's test cannot fire again until the horizontal velocity changes
   * sign.
   */
  lemma HitMovesBallAway(b: BallState, leftY: real, rightY: real, sqrt: real -> real)
    requires IsSquareRoot(sqrt)
    ensures HitsLeftPaddle(b, leftY) ==> !HitsLeftPaddle(PaddleCollisions(b, leftY, rightY, sqrt), leftY)
    ensures HitsRightPaddle(b, rightY) ==> !HitsRightPaddle(PaddleCollisions(b, leftY, rightY, sqrt), rightY)
  {
  }

  // ---------------------------------------------------------------------
  // Speed cap

  /** Once the speed s of the spun velocity is known, a paddle bounce is accelerate from s. */
  lemma PaddleBounceFromSpeed(v: Vec, hitPosition: real, sqrt: real -> real, s: real)
    requires IsSquareRoot(sqrt) && v.x != 0.0 && 0.0 < s
    requires IsSpeedOf(s, WithSpin(FlipX(v), hitPosition, EFFECT_STRENGTH))
    ensures PaddleBounce(v, hitPosition, sqrt) == Accelerated(WithSpin(FlipX(v), hitPosition, EFFECT_STRENGTH), s)
  {
    RootOfSpeedSquared(sqrt, WithSpin(FlipX(v), hitPosition, EFFECT_STRENGTH), s);
  }

  /**
   * The speed cap is not an invariant.  Spin is added before accelerate,
   * which never scales down: a ball below the cap (about 925 px/s) hit near
   * the end of the paddle leaves at 1040 px/s.
   */
  lemma SpeedCapCanBeExceeded(sqrt: real -> real)
    requires IsSquareRoot(sqrt)
    ensures var v := Vec(-291.2, 878.4);
            && SpeedSquared(v) < BALL_MAX_SPEED * BALL_MAX_SPEED
            && IsSpeedOf(1040.0, PaddleBounce(v, 1.2, sqrt))
            && BALL_MAX_SPEED < 1040.0
  {
    var v := Vec(-291.2, 878.4);
    var spun := Vec(291.2, 998.4);
    assert WithSpin(FlipX(v), 1.2, EFFECT_STRENGTH) == spun;
    assert IsSpeedOf(1040.0, spun);
    PaddleBounceFromSpeed(v, 1.2, sqrt, 1040.0);
  }

  /**
   * Nor does a hit always speed the ball up: spin that cancels the vertical
   * velocity leaves a shorter vector, and accelerate adds its step to that.
   */
  lemma HitCanSlowTheBall(sqrt: real -> real)
    requires IsSquareRoot(sqrt)
    ensures PaddleBounce(Vec(-120.0, -120.0), 1.2, sqrt) == Vec(160.0, 0.0)
    ensures SpeedSquared(Vec(160.0, 0.0)) < SpeedSquared(Vec(-120.0, -120.0))
  {
    var spun := Vec(120.0, 0.0);
    assert WithSpin(FlipX(Vec(-120.0, -120.0)), 1.2, EFFECT_STRENGTH) == spun;
    assert IsSpeedOf(120.0, spun);
    PaddleBounceFromSpeed(Vec(-120.0, -120.0), 1.2, sqrt, 120.0);
    AccelerateHorizontal(120.0, 160.0);
  }

  /** A head-on hit at the initial speed sends the ball straight back, one acceleration step faster. */
  lemma HeadOnBounce(sqrt: real -> real)
    requires IsSquareRoot(sqrt)
    ensures PaddleBounce(Vec(-200.0, 0.0), 0.0, sqrt) == Vec(240.0, 0.0)
  {
    var spun := Vec(200.0, 0.0);
    assert WithSpin(FlipX(Vec(-200.0, 0.0)), 0.0, EFFECT_STRENGTH) == spun;
    assert IsSpeedOf(200.0, spun);
    PaddleBounceFromSpeed(Vec(-200.0, 0.0), 0.0, sqrt, 200.0);
    AccelerateHorizontal(200.0, 240.0);
  }

  /** accelerate on a horizontal velocity (s, 0) below the cap gives (t, 0), t one step up. */
  lemma AccelerateHorizontal(s: real, t: real)
    requires 0.0 < s && s + BALL_ACCELERATION == t <= BALL_MAX_SPEED
    ensures IsSpeedOf(s, Vec(s, 0.0)) && Accelerated(Vec(s, 0.0), s) == Vec(t, 0.0)
  {
    assert IsSpeedOf(s, Vec(s, 0.0));
    assert TargetSpeed(s) == t;
    assert s * (t / s) == t;
  }

  /**
   * A ball flying straight left at the initial speed onto the centre of the
   * left paddle is put flush against its face at x = 165.5 and leaves
   * straight right at 240 px/s, not 200: the hit accelerates it.  The same
   * ball at x = 500 is nowhere near the paddle and is not hit.
   */
  lemma CentreHitScenario(sqrt: real -> real)
    requires IsSquareRoot(sqrt)
    ensures var b := BallState(Vec(160.0, 270.0), Vec(-BALL_INITIAL_SPEED, 0.0));
            && HitsLeftPaddle(b, 270.0)
            && PaddleCollisions(b, 270.0, 270.0, sqrt) == BallState(Vec(165.5, 270.0), Vec(240.0, 0.0))
    ensures !HitsLeftPaddle(BallState(Vec(500.0, 270.0), Vec(-BALL_INITIAL_SPEED, 0.0)), 270.0)
  {
    var b := BallState(Vec(160.0, 270.0), Vec(-200.0, 0.0));
    assert HitsLeftPaddle(b, 270.0);
    assert HitPosition(270.0, 270.0) == 0.0;
    HeadOnBounce(sqrt);
    calc {
      PaddleCollisions(b, 270.0, 270.0, sqrt);
      PaddleHit(b, LEFT_PADDLE_X, 270.0, PADDLE_HALF_WIDTH, true, sqrt);
      BallState(Vec(165.5, 270.0), PaddleBounce(Vec(-200.0, 0.0), 0.0, sqrt));
      BallState(Vec(165.5, 270.0), Vec(240.0, 0.0));
    }
  }

  // ---------------------------------------------------------------------
  // AI paddle

  /** The AI's timer after a frame of dt seconds: reaching the interval fires and restarts it at 0. */
  predicate TimerFires(timer: real, dt: real) {
    timer + dt >= AI_UPDATE_INTERVAL
  }

  /**
   * The AI timer after a frame.  From non-negative values it stays in
   * [0, AI_UPDATE_INTERVAL); when it fires, whatever went past the interval
   * is dropped rather than carried over.
   */
  function TimerAfterTick(timer: real, dt: real): (r: real)
    ensures 0.0 <= timer && 0.0 <= dt ==> 0.0 <= r < AI_UPDATE_INTERVAL
    ensures TimerFires(timer, dt) ==> r == 0.0
    ensures !TimerFires(timer, dt) ==> r - timer == dt
  {
    if TimerFires(timer, dt) then 0.0 else timer + dt
  }

  function Sum(dts: seq<real>): real
    decreases |dts|
  {
    if dts == [] then 0.0 else dts[0] + Sum(dts[1..])
  }

  /** The timer after a run of frames of the given durations. */
  function TimerAfterTicks(timer: real, dts: seq<real>): real
    decreases |dts|
  {
    if dts == [] then timer else TimerAfterTicks(TimerAfterTick(timer, dts[0]), dts[1..])
  }

  /** Some frame of the run fires the timer (and so recomputes the AI's target). */
  predicate FiresDuring(timer: real, dts: seq<real>)
    decreases |dts|
  {
    dts != [] && (TimerFires(timer, dts[0]) || FiresDuring(TimerAfterTick(timer, dts[0]), dts[1..]))
  }

  /** Until it fires, the timer is exactly the time accumulated since it last restarted. */
  lemma {:induction false} TimerAccumulatesUntilFire(timer: real, dts: seq<real>)
    requires !FiresDuring(timer, dts)
    ensures TimerAfterTicks(timer, dts) == timer + Sum(dts)
    ensures dts != [] ==> timer + Sum(dts) < AI_UPDATE_INTERVAL
    decreases |dts|
  {
    if dts != [] {
      TimerAccumulatesUntilFire(timer + dts[0], dts[1..]);
    }
  }

  /**
   * The AI recomputes its target at least once in any run of frames that
   * together last one update interval.
   */
  lemma {:induction false} AiRecomputesWithinInterval(timer: real, dts: seq<real>)
    requires 0.0 <= timer && AI_UPDATE_INTERVAL <= Sum(dts)
    ensures FiresDuring(timer, dts)
  {
    if !FiresDuring(timer, dts) {
      TimerAccumulatesUntilFire(timer, dts);
      assert false;
    }
  }

  /** Where the ball would meet the AI paddle's x on a straight path; it must be moving right. */
  function RawProjection(p: Vec, v: Vec, paddleX: real): real
    requires v.x > 0.0
  {
    p.y + v.y * ((paddleX - p.x) / v.x)
  }

  /**
   * A projected height folded back once off the top (y = 0) and once off
   * the bottom (y = CANVAS_HEIGHT).  Anything within one canvas height of
   * the canvas lands inside it; a height already inside is kept.
   */
  function ReflectOnce(t: real): (r: real)
    ensures -CANVAS_HEIGHT <= t <= 2.0 * CANVAS_HEIGHT ==> 0.0 <= r <= CANVAS_HEIGHT
    ensures 0.0 <= t <= CANVAS_HEIGHT ==> r == t
    ensures r == t || r == -t || r == 2.0 * CANVAS_HEIGHT - t || r == 2.0 * CANVAS_HEIGHT + t
  {
    var folded := if t < 0.0 then -t else t;
    if folded > CANVAS_HEIGHT then CANVAS_HEIGHT - (folded - CANVAS_HEIGHT) else folded
  }

  /** The AI's guess at where the ball will arrive: the projection when the ball comes towards it, else the ball's height. */
  function PredictedY(p: Vec, v: Vec, paddleX: real): (r: real)
    ensures v.x <= 0.0 ==> r == p.y
    ensures v.x > 0.0 && -CANVAS_HEIGHT <= RawProjection(p, v, paddleX) <= 2.0 * CANVAS_HEIGHT ==> 0.0 <= r <= CANVAS_HEIGHT
  {
    if v.x > 0.0 then ReflectOnce(RawProjection(p, v, paddleX)) else p.y
  }

  /** The aiming error drawn from a random number in [0, 1): within plus or minus half the range. */
  function Imprecision(draw: real): (e: real)
    requires 0.0 <= draw < 1.0
    ensures -AI_IMPRECISION_RANGE / 2.0 <= e < AI_IMPRECISION_RANGE / 2.0
  {
    (draw - 0.5) * AI_IMPRECISION_RANGE
  }

  function Abs(d: real): real {
    if d < 0.0 then -d else d
  }

  function Sign(d: real): real {
    if d > 0.0 then 1.0 else if d < 0.0 then -1.0 else 0.0
  }

  /**
   * The AI paddle's move towards its target before the limits: none inside
   * the dead zone, otherwise AI_SPEED * dt towards the target.
   */
  function AiMove(y: real, target: real, dt: real): (r: real)
    ensures target - y > AI_DEAD_ZONE ==> r == y + AI_SPEED * dt
    ensures y - target > AI_DEAD_ZONE ==> r == y - AI_SPEED * dt
    ensures Abs(target - y) <= AI_DEAD_ZONE ==> r == y
  {
    var difference := target - y;
    if Abs(difference) > AI_DEAD_ZONE then y + Sign(difference) * AI_SPEED * dt else y
  }

  /**
   * Outside the dead zone, a move that does not reach the target brings the
   * paddle exactly AI_SPEED * dt closer to it.
   */
  lemma AiApproachesTarget(y: real, target: real, dt: real)
    requires 0.0 <= dt && AI_SPEED * dt <= Abs(target - y) && AI_DEAD_ZONE < Abs(target - y)
    ensures Abs(target - AiMove(y, target, dt)) == Abs(target - y) - AI_SPEED * dt
  {
  }

  /** The AI paddle's centre after a frame: the move, then the frame limits. */
  function AiPaddleY(y: real, target: real, dt: real): (r: real)
    ensures InField(r)
    ensures InField(AiMove(y, target, dt)) ==> r == AiMove(y, target, dt)
  {
    ClampPaddleY(AiMove(y, target, dt))
  }

  // ---------------------------------------------------------------------
  // Goals

  /** The ball went past the player's paddle. */
  predicate MissedByPlayer(p: Vec) {
    p.x + BALL_RADIUS < MISS_LINE_X
  }

  /** The ball went past the right edge of the canvas: a goal for the player. */
  predicate MissedByAi(p: Vec) {
    p.x - BALL_RADIUS > CANVAS_WIDTH
  }

  /** A ball is never missed on both sides at once. */
  lemma MissesExclusive(p: Vec)
    ensures !(MissedByPlayer(p) && MissedByAi(p))
  {
  }

  /** The random numbers one frame may use, each in [0, 1). */
  datatype Draws = Draws(aiError: real, direction: real, spin: real)

  predicate ValidDraws(d: Draws) {
    && 0.0 <= d.aiError < 1.0
    && 0.0 <= d.direction < 1.0
    && 0.0 <= d.spin < 1.0
  }

  // ---------------------------------------------------------------------
  // The scene

  class GameScene {
    const ball: Ball
    const paddleLeft: Paddle
    const paddleRight: Paddle
    const touchControl: TouchControlSystem

    var score: int
    var lives: int
    var gameOver: bool
    var isTouching: bool

    var aiTargetY: real
    var aiUpdateTimer: real

    /**
     * The scene's invariant: the two paddles are distinct and in their
     * columns, the touch control drives the left one, the AI paddle is
     * inside the frame, the AI timer is below its interval, and the game is
     * over exactly when no life is left.
     */
    ghost predicate Valid()
      reads this, paddleLeft, paddleRight
    {
      && paddleLeft != paddleRight
      && paddleLeft.x == LEFT_PADDLE_X && paddleRight.x == RIGHT_PADDLE_X
      && touchControl.paddle == paddleLeft
      && InField(paddleRight.y)
      && 0.0 <= aiUpdateTimer < AI_UPDATE_INTERVAL
      && 0 <= score
      && 0 <= lives <= LIVES_COUNT
      && (gameOver <==> lives == 0)
    }

    /** The ball as a value. */
    function BallNow(): BallState
      reads this, ball
    {
      BallState(ball.position, ball.velocity)
    }

    /** A fresh scene: full lives, score 0, both paddles centred, the ball in the middle. */
    constructor()
      ensures Valid()
      ensures score == 0 && lives == LIVES_COUNT && !gameOver && !isTouching
      ensures aiTargetY == CANVAS_HEIGHT / 2.0 && aiUpdateTimer == 0.0
      ensures paddleLeft.y == CANVAS_HEIGHT / 2.0 && paddleRight.y == CANVAS_HEIGHT / 2.0
      ensures ball.position == CENTER && !touchControl.isTouching
      ensures fresh(ball) && fresh(paddleLeft) && fresh(paddleRight) && fresh(touchControl)
    {
      score := 0;
      lives := LIVES_COUNT;
      gameOver := false;
      isTouching := false;
      aiTargetY := CANVAS_HEIGHT / 2.0;
      aiUpdateTimer := 0.0;
      var left := new Paddle(PADDLE_LEFT_OFFSET, CANVAS_HEIGHT / 2.0);
      paddleLeft := left;
      paddleRight := new Paddle(CANVAS_WIDTH - PADDLE_OFFSET, CANVAS_HEIGHT / 2.0);
      ball := new Ball();
      touchControl := new TouchControlSystem(left);
    }

    /**
     * One frame of delta milliseconds.  The touch flag is always refreshed;
     * after that nothing runs once the game is over, and nothing runs unless
     * the player is touching the screen.  Otherwise the ball moves, bounces,
     * the AI plays and goals are counted, in that order.
     */
    method Update(delta: real, draws: Draws, sqrt: real -> real)
      requires Valid() && ValidDraws(draws) && IsSquareRoot(sqrt) && 0.0 <= delta
      modifies this, ball, paddleRight
      ensures Valid()
      ensures isTouching == touchControl.isTouching
      ensures old(gameOver) || !isTouching ==>
                && unchanged(ball, paddleRight)
                && score == old(score) && lives == old(lives) && gameOver == old(gameOver)
                && aiTargetY == old(aiTargetY) && aiUpdateTimer == old(aiUpdateTimer)
      ensures old(score) <= score
      ensures old(lives) - 1 <= lives <= old(lives)
      ensures old(gameOver) ==> gameOver
    {
      var deltaSeconds := delta / 1000.0;
      isTouching := touchControl.GetIsTouching();
      if gameOver {
        return;
      }
      if isTouching {
        ball.Update(deltaSeconds);
        CheckCollisions(sqrt);
        UpdateAI(deltaSeconds, draws.aiError);
        CheckGoals(draws.direction, draws.spin);
      }
    }

    /** The wall checks, then the paddle checks. */
    method CheckCollisions(sqrt: real -> real)
      requires Valid() && IsSquareRoot(sqrt)
      modifies this`score, ball
      ensures Valid()
      ensures BallNow() == PaddleCollisions(WallBounce(old(BallNow())), paddleLeft.y, paddleRight.y, sqrt)
      ensures score == old(score) + (if HitsLeftPaddle(WallBounce(old(BallNow())), paddleLeft.y)
                                        || HitsRightPaddle(WallBounce(old(BallNow())), paddleRight.y)
                                     then POINTS_PER_HIT else 0)
    {
      CheckWallCollisions();
      CheckPaddleCollisions(sqrt);
    }

    /** Bounces the ball off the top or bottom wall it touches. */
    method CheckWallCollisions()
      modifies ball
      ensures BallNow() == WallBounce(old(BallNow()))
    {
      var ballPos := ball.position;
      if ballPos.y - BALL_RADIUS <= FRAME_MARGIN {
        ball.SetPosition(ballPos.x, BALL_RADIUS + FRAME_MARGIN);
        ball.ReverseY();
      }
      if ballPos.y + BALL_RADIUS >= CANVAS_HEIGHT - FRAME_MARGIN {
        ball.SetPosition(ballPos.x, CANVAS_HEIGHT - BALL_RADIUS - FRAME_MARGIN);
        ball.ReverseY();
      }
    }

    /** Bounces the ball off a paddle it overlaps while moving towards it, scoring the hit. */
    method CheckPaddleCollisions(sqrt: real -> real)
      requires Valid() && IsSquareRoot(sqrt)
      modifies this`score, ball
      ensures Valid()
      ensures BallNow() == PaddleCollisions(old(BallNow()), paddleLeft.y, paddleRight.y, sqrt)
      ensures score == old(score) + (if HitsLeftPaddle(old(BallNow()), paddleLeft.y)
                                        || HitsRightPaddle(old(BallNow()), paddleRight.y)
                                     then POINTS_PER_HIT else 0)
    {
      var ballPos := ball.position;
      var paddleHalfWidth := PADDLE_WIDTH / 2.0;
      PaddleOverlapsExclusive(ballPos, paddleLeft.y, paddleRight.y);
      if && ballPos.x - BALL_RADIUS <= paddleLeft.x + paddleHalfWidth
         && ballPos.x + BALL_RADIUS >= paddleLeft.x - paddleHalfWidth
         && ballPos.y - BALL_RADIUS <= paddleLeft.y + PADDLE_HALF_HEIGHT
         && ballPos.y + BALL_RADIUS >= paddleLeft.y - PADDLE_HALF_HEIGHT
         && ball.IsMovingLeft()
      {
        HandlePaddleHit(paddleLeft, paddleHalfWidth, true, sqrt);
      }
      if && ballPos.x + BALL_RADIUS >= paddleRight.x - paddleHalfWidth
         && ballPos.x - BALL_RADIUS <= paddleRight.x + paddleHalfWidth
         && ballPos.y - BALL_RADIUS <= paddleRight.y + PADDLE_HALF_HEIGHT
         && ballPos.y + BALL_RADIUS >= paddleRight.y - PADDLE_HALF_HEIGHT
         && ball.IsMovingRight()
      {
        HandlePaddleHit(paddleRight, paddleHalfWidth, false, sqrt);
      }
    }

    /**
     * A paddle hit: one point, the ball flush against the paddle's face at
     * its current height, then reversed, spun and accelerated.
     */
    method HandlePaddleHit(paddle: Paddle, paddleHalfWidth: real, isLeftPaddle: bool, sqrt: real -> real)
      requires IsSquareRoot(sqrt) && ball.velocity.x != 0.0
      modifies this`score, ball
      ensures score == old(score) + POINTS_PER_HIT
      ensures BallNow() == PaddleHit(old(BallNow()), paddle.x, paddle.y, paddleHalfWidth, isLeftPaddle, sqrt)
    {
      score := score + POINTS_PER_HIT;
      var ballPos := ball.position;
      if isLeftPaddle {
        ball.SetPosition(paddle.x + paddleHalfWidth + BALL_RADIUS, ballPos.y);
      } else {
        ball.SetPosition(paddle.x - paddleHalfWidth - BALL_RADIUS, ballPos.y);
      }
      ghost var placed := ball.position;
      ball.ReverseX();
      var hitPosition := (ballPos.y - paddle.y) / PADDLE_HALF_HEIGHT;
      assert hitPosition == HitPosition(ballPos.y, paddle.y);
      ball.AddEffect(hitPosition, EFFECT_STRENGTH);
      ghost var spun := ball.velocity;
      assert spun == WithSpin(FlipX(old(ball.velocity)), hitPosition, EFFECT_STRENGTH);
      PositiveSpeed(spun);
      ball.Accelerate(sqrt);
      assert ball.velocity == PaddleBounce(old(ball.velocity), hitPosition, sqrt);
      assert ball.position == placed;
      var currentSpeed := ball.GetCurrentSpeed(sqrt);
    }

    /**
     * The AI's frame: the timer advances, and when it fires the target is
     * recomputed from the ball with an aiming error; then the paddle moves
     * towards the target outside the dead zone and is kept inside the frame.
     */
    method UpdateAI(deltaSeconds: real, aiError: real)
      requires Valid() && 0.0 <= deltaSeconds && 0.0 <= aiError < 1.0
      modifies this`aiUpdateTimer, this`aiTargetY, paddleRight`y
      ensures Valid()
      ensures aiUpdateTimer == TimerAfterTick(old(aiUpdateTimer), deltaSeconds)
      ensures TimerFires(old(aiUpdateTimer), deltaSeconds) ==>
                aiTargetY == PredictedY(ball.position, ball.velocity, paddleRight.x) + Imprecision(aiError)
      ensures !TimerFires(old(aiUpdateTimer), deltaSeconds) ==> aiTargetY == old(aiTargetY)
      ensures paddleRight.y == AiPaddleY(old(paddleRight.y), aiTargetY, deltaSeconds)
    {
      aiUpdateTimer := aiUpdateTimer + deltaSeconds;
      if aiUpdateTimer >= AI_UPDATE_INTERVAL {
        aiUpdateTimer := 0.0;
        var newTargetY := PredictBallY();
        var imprecision := (aiError - 0.5) * AI_IMPRECISION_RANGE;
        aiTargetY := newTargetY + imprecision;
      }
      assert aiUpdateTimer == TimerAfterTick(old(aiUpdateTimer), deltaSeconds);
      var difference := aiTargetY - paddleRight.y;
      if Abs(difference) > AI_DEAD_ZONE {
        var moveDirection := Sign(difference);
        paddleRight.y := paddleRight.y + moveDirection * AI_SPEED * deltaSeconds;
      }
      assert paddleRight.y == AiMove(old(paddleRight.y), aiTargetY, deltaSeconds);
      if paddleRight.y - PADDLE_HALF_HEIGHT < FRAME_MARGIN {
        paddleRight.y := PADDLE_HALF_HEIGHT + FRAME_MARGIN;
      }
      if paddleRight.y + PADDLE_HALF_HEIGHT > CANVAS_HEIGHT - FRAME_MARGIN {
        paddleRight.y := CANVAS_HEIGHT - PADDLE_HALF_HEIGHT - FRAME_MARGIN;
      }
    }

    /**
     * Where the AI expects the ball: its height projected to the AI paddle's
     * x and folded back off the walls once when it comes towards the AI,
     * otherwise its current height.
     */
    method PredictBallY() returns (newTargetY: real)
      ensures newTargetY == PredictedY(ball.position, ball.velocity, paddleRight.x)
    {
      var ballPos := ball.position;
      newTargetY := ballPos.y;
      if ball.IsMovingRight() {
        var timeToReach := (paddleRight.x - ballPos.x) / ball.velocity.x;
        newTargetY := ballPos.y + ball.velocity.y * timeToReach;
        if newTargetY < 0.0 {
          newTargetY := -newTargetY;
        }
        if newTargetY > CANVAS_HEIGHT {
          newTargetY := CANVAS_HEIGHT - (newTargetY - CANVAS_HEIGHT);
        }
      }
    }

    /**
     * Goals, both judged on the position read before either: a miss by the
     * player costs a life; a miss by the AI scores POINTS_PER_GOAL and
     * serves again.
     */
    method CheckGoals(direction: real, spin: real)
      requires Valid() && !gameOver && 0.0 <= direction < 1.0 && 0.0 <= spin < 1.0
      modifies this`score, this`lives, this`gameOver, ball
      ensures Valid()
      ensures MissedByPlayer(old(ball.position)) ==>
                && lives == old(lives) - 1 && score == old(score)
                && (gameOver <==> lives == 0)
                && (if gameOver then unchanged(ball)
                    else ball.position == CENTER && ball.velocity == ResetVelocity(direction, spin))
      ensures MissedByAi(old(ball.position)) ==>
                && score == old(score) + POINTS_PER_GOAL && lives == old(lives) && !gameOver
                && ball.position == CENTER && ball.velocity == ResetVelocity(direction, spin)
      ensures !MissedByPlayer(old(ball.position)) && !MissedByAi(old(ball.position)) ==>
                unchanged(ball) && score == old(score) && lives == old(lives) && !gameOver
    {
      var ballPos := ball.position;
      MissesExclusive(ballPos);
      if ballPos.x + BALL_RADIUS < PADDLE_LEFT_OFFSET - PADDLE_WIDTH / 2.0 - 20.0 {
        LoseLife(direction, spin);
      }
      if ballPos.x - BALL_RADIUS > CANVAS_WIDTH {
        score := score + POINTS_PER_GOAL;
        ball.Reset(direction, spin);
      }
    }

    /** One life fewer; the game ends when none is left, otherwise the ball is served again. */
    method LoseLife(direction: real, spin: real)
      requires 0.0 <= direction < 1.0 && 0.0 <= spin < 1.0
      modifies this`lives, this`gameOver, ball
      ensures lives == old(lives) - 1
      ensures lives <= 0 ==> gameOver && unchanged(ball)
      ensures lives > 0 ==> gameOver == old(gameOver) && ball.position == CENTER
                            && ball.velocity == ResetVelocity(direction, spin)
    {
      lives := lives - 1;
      if lives <= 0 {
        gameOver := true;
      } else {
        ball.Reset(direction, spin);
      }
    }

    /** A new game: full lives, score 0, the ball served again. */
    method RestartGame(direction: real, spin: real)
      requires Valid() && 0.0 <= direction < 1.0 && 0.0 <= spin < 1.0
      modifies this`lives, this`gameOver, this`score, ball
      ensures Valid()
      ensures lives == LIVES_COUNT && !gameOver && score == 0
      ensures ball.position == CENTER && ball.velocity == ResetVelocity(direction, spin)
    {
      lives := LIVES_COUNT;
      gameOver := false;
      score := 0;
      ball.Reset(direction, spin);
    }

    /** A tap on the game-over text restarts the game, but only once the game is over. */
    method OnGameOverTextPointerDown(direction: real, spin: real)
      requires Valid() && 0.0 <= direction < 1.0 && 0.0 <= spin < 1.0
      modifies this`lives, this`gameOver, this`score, ball
      ensures Valid()
      ensures old(gameOver) ==> lives == LIVES_COUNT && !gameOver && score == 0
                                && ball.position == CENTER && ball.velocity == ResetVelocity(direction, spin)
      ensures !old(gameOver) ==> unchanged(this, ball)
    {
      if gameOver {
        RestartGame(direction, spin);
      }
    }
  }
}
