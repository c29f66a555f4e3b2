/**
 * The numeric constants of the game, in canvas pixels, seconds and points.
 * Positions, speeds and times are reals (the source's doubles taken as ideal
 * reals); lives and points are integers.
 */
module PongConstants {

  // Canvas and play field
  const CANVAS_WIDTH: real := 960.0
  const CANVAS_HEIGHT: real := 540.0
  const FRAME_MARGIN: real := 20.0

  // Game elements
  const BALL_RADIUS: real := 8.0
  const PADDLE_WIDTH: real := 15.0
  const PADDLE_HEIGHT: real := 80.0
  const PADDLE_HALF_HEIGHT: real := PADDLE_HEIGHT / 2.0
  /** Distance from the right edge of the canvas to the AI paddle. */
  const PADDLE_OFFSET: real := 50.0
  /** Distance from the left edge of the canvas to the player paddle. */
  const PADDLE_LEFT_OFFSET: real := 150.0

  /** Horizontal centre of the play area, between the two paddles (530). */
  const PLAY_AREA_CENTER: real := (PADDLE_LEFT_OFFSET + (CANVAS_WIDTH - PADDLE_OFFSET)) / 2.0

  // Ball speeds, in pixels per second
  const BALL_INITIAL_SPEED: real := 200.0
  const BALL_ACCELERATION: real := 40.0
  const BALL_MAX_SPEED: real := 1000.0

  // AI paddle
  const AI_SPEED: real := 250.0
  const AI_UPDATE_INTERVAL: real := 0.1
  const AI_DEAD_ZONE: real := 8.0
  const AI_IMPRECISION_RANGE: real := 40.0

  // Match
  const LIVES_COUNT: int := 3
  const POINTS_PER_HIT: int := 1
  const POINTS_PER_GOAL: int := 20

  /** Default spin strength of a paddle hit. */
  const EFFECT_STRENGTH: real := 100.0

  /** Lowest and highest centre a paddle may take inside the frame (60 and 480). */
  const PADDLE_MIN_Y: real := PADDLE_HALF_HEIGHT + FRAME_MARGIN
  const PADDLE_MAX_Y: real := CANVAS_HEIGHT - PADDLE_HALF_HEIGHT - FRAME_MARGIN
}
