# Pong core — a verified Dafny model

This project models the simulation core of a touch-screen Pong game. The
player drags the left paddle in a striped touch zone, and an AI moves the
right paddle. The ball bounces off the top and bottom walls and off the
paddles. A paddle hit scores a point, adds spin according to where the ball
met the paddle, and speeds the ball up towards a cap. A miss by the player
costs one of three lives. A miss by the AI scores twenty points. The game
runs only while the player touches the screen. At game over, a tap on the
"GAME OVER" text starts a new game.

Files and modules:

- `constants.dfy` (`PongConstants`): the game's numeric constants. Positions,
  speeds and times are `real`; lives and points are `int`.
- `paddle.dfy` (`Paddles`): the `Paddle` class, with a fixed `x` and a
  movable `y`. Also the frame clamp that both the touch control and the AI
  apply, stated once as `ClampPaddleY`.
- `ball.dfy` (`Balls`): the `Ball` class and its in-place operations. Each
  operation is specified by a value function on `Vec`: `ResetVelocity`,
  `FlipX`, `FlipY`, `WithSpin` and `Accelerated`. The file also holds the
  speed lemmas.
- `touch_control.dfy` (`TouchControl`): the `TouchControlSystem` class, with
  one method per pointer handler. The same behaviour is also written as a
  value-level state machine (`Step`, `Run`), and the drag properties are
  proved about that machine.
- `game_scene.dfy` (`Game`): the `GameScene` class, covering the per-frame
  gate, collisions, AI, goals, lives and restart. Each step is specified by a
  value function (`WallBounce`, `PaddleCollisions`, `TimerAfterTick`,
  `PredictedY`, `AiPaddleY`, …), and the lemmas are proved about those
  functions.

Two external functions are injected as parameters:

- **Square root.** The square root used by `accelerate` and
  `getCurrentSpeed` is a parameter `sqrt`. The ghost predicate
  `IsSquareRoot(sqrt)` says it is exact on non-negative reals.
- **Random numbers.** Each call to the random-number generator is a
  parameter in [0, 1). The AI's aiming error and the reset's direction and
  spin are gathered in `Game.Draws`.

Facts about the code that a reader might not expect:

- **The speed is not capped.** A paddle hit adds spin before it calls
  `accelerate` (src/GameScene.ts:420-425), and `accelerate` only scales up
  towards the cap, never down (src/Ball.ts:63-70). A ball hit at
  (-291.2, 878.4) on the paddle's edge leaves at exactly 1040 px/s, above the
  cap of 1000 (`Game.SpeedCapCanBeExceeded`).
- **A hit can slow the ball.** Spin can shorten the vector before the fixed
  step is added: (-120, -120) hit at the paddle's edge leaves at (160, 0),
  slower than it arrived (`Game.HitCanSlowTheBall`).
- **There is no guard against a zero speed.** `accelerate` divides by the
  current speed (src/Ball.ts:68) without testing it, so a moving ball is a
  precondition of `Balls.Ball.Accelerate`. Its only caller, the paddle hit, reaches it after
  `reverseX` of a ball that met a paddle while moving towards it.
- **A centre hit.** A ball at x = 500 does not overlap the left paddle at
  x = 150. A ball at (160, 270) flying left at (-200, 0) meets it, ends flush
  at (165.5, 270) and leaves at (240, 0), because the hit also accelerates it
  (`Game.CentreHitScenario`).
- **The touch flag follows the finger.** The scene copies the touch
  control's `isTouching` every frame (src/GameScene.ts:304), so play pauses
  again on pointer up or pointer out (`TouchControl.StepFrame`,
  `Game.GameScene.Update`).
- **A new ball's velocity.** A new ball starts with velocity (200, 150) from
  its field initialiser (src/Ball.ts:16-29); creating the scene does not call
  `reset` (`Balls.Ball.constructor`).

## Model

| member | source | states |
|---|---|---|
| Paddles.ClampPaddleY | src/TouchControlSystem.ts:125-130 | the clamped centre keeps the whole paddle inside the frame; a centre already inside is kept; one above the frame goes to the top limit (60) and one below it to the bottom limit (480) |
| Paddles.Paddle.constructor | src/GameScene.ts:145-159 | a paddle is created at the given centre |
| Balls.RootIsSpeed | src/Ball.ts:60 | the square root of vx² + vy² is a non-negative number whose square is vx² + vy², i.e. the speed |
| Balls.PositiveSpeed | src/Ball.ts:68 | only the zero vector has speed 0, so the division in accelerate is defined for any ball that moves |
| Balls.RootOfSpeedSquared | src/Ball.ts:60 | the root computed by accelerate equals any non-negative s whose square is vx² + vy² (a non-negative square root is unique) |
| Balls.ResetVelocity | src/Ball.ts:41-47 | a reset's horizontal velocity is -200 when the first draw is below 0.5 and +200 otherwise; its vertical velocity lies in [-100, 100) |
| Balls.FlipX | src/Ball.ts:89-91 | a horizontal bounce keeps the speed |
| Balls.FlipY | src/Ball.ts:96-98 | a vertical bounce keeps the speed |
| Balls.FlipsAreInvolutions | src/Ball.ts:89-98 | each bounce undone by a second one gives back the original velocity |
| Balls.ScaleSpeed | src/Ball.ts:68-70 | multiplying both components by a ratio k ≥ 0 multiplies the speed by k |
| Balls.ScaleKeepsDirection | src/Ball.ts:67-70 | multiplying both components by a positive ratio keeps each component's sign and the direction |
| Balls.Accelerated | src/Ball.ts:58-76 | from speed s below the cap the new speed is exactly min(s + 40, 1000); at or above the cap the velocity is unchanged; the direction is kept either way |
| Balls.AccelerateNeverSlows | src/Ball.ts:63-75 | accelerate never lowers the speed; below the cap it raises it strictly; it never lifts the speed above the cap from below and never adds more than one step |
| Balls.Ball.constructor | src/Ball.ts:16-29 | a new ball sits at the centre of the play area with velocity (200, 150) |
| Balls.Ball.Reset | src/Ball.ts:34-53 | re-centres the ball and sets its velocity from the two draws, as ResetVelocity states |
| Balls.Ball.Accelerate | src/Ball.ts:58-76 | the new velocity is Accelerated of the old one at its computed speed |
| Balls.Ball.Update | src/Ball.ts:81-84 | the position advances by velocity × dt and the velocity is unchanged |
| Balls.Ball.ReverseX | src/Ball.ts:89-91 | negates vx only |
| Balls.Ball.ReverseY | src/Ball.ts:96-98 | negates vy only |
| Balls.Ball.AddEffect | src/Ball.ts:103-105 | adds hitPosition × effectStrength to vy only |
| Balls.Ball.SetPosition | src/Ball.ts:117-120 | puts the ball at (x, y) and leaves the velocity alone |
| Balls.Ball.GetCurrentSpeed | src/Ball.ts:139-141 | the result is non-negative and its square is vx² + vy² |
| Balls.Ball.IsMovingRight | src/Ball.ts:125-127 | holds exactly when vx > 0; a ball moving right has a positive squared speed, so accelerating it never divides by zero |
| Balls.Ball.IsMovingLeft | src/Ball.ts:132-134 | holds exactly when vx < 0; a ball moving left has a positive squared speed, so accelerating it never divides by zero |
| Balls.DirectionQueriesExclusive | src/Ball.ts:125-134 | isMovingRight and isMovingLeft never hold together, and neither holds when vx = 0 |
| TouchControl.DraggedPaddleY | src/TouchControlSystem.ts:119-134 | after a move the paddle is inside the frame; when no limit is reached it moves by exactly the finger's travel |
| TouchControl.Step | src/TouchControlSystem.ts:94-113 | one pointer event: a press starts a drag at the finger's height; a move during a drag applies DraggedPaddleY and records the finger; up and out end the drag; a move with no drag changes nothing; the paddle never leaves the frame, and a drag is in progress afterwards exactly after a press or a move during a drag |
| TouchControl.StepFrame | src/TouchControlSystem.ts:94-113 | only a move during a drag moves the paddle; only a press or a move during a drag changes the last touch; a drag is in progress after an event exactly when the event is a press, or a move during a drag |
| TouchControl.RunKeepsPaddleInField | src/TouchControlSystem.ts:119-132 | a paddle inside the frame stays inside it through any sequence of pointer events |
| TouchControl.MovesWithoutTouchAreIgnored | src/TouchControlSystem.ts:100-104 | moves while no drag is in progress change nothing at all |
| TouchControl.DragFollowsFinger | src/TouchControlSystem.ts:121-122 | over a drag whose moves never reach a limit, the paddle keeps its offset to the finger, and the last touch is the final finger height |
| TouchControl.TouchControlSystem.constructor | src/TouchControlSystem.ts:14-21 | a new control is idle, with last touch 0, and drives the given paddle |
| TouchControl.TouchControlSystem.OnPointerDown | src/TouchControlSystem.ts:94-98 | starts a drag at the finger's height and leaves the paddle where it is |
| TouchControl.TouchControlSystem.OnPointerMove | src/TouchControlSystem.ts:100-104 | moves the paddle by one drag step while a drag is in progress, and otherwise changes nothing |
| TouchControl.TouchControlSystem.OnPointerUp | src/TouchControlSystem.ts:106-109 | ends the drag and leaves the paddle alone |
| TouchControl.TouchControlSystem.OnPointerOut | src/TouchControlSystem.ts:111-113 | ends the drag and leaves the paddle alone |
| TouchControl.TouchControlSystem.HandlePaddleMovement | src/TouchControlSystem.ts:119-134 | the paddle goes to the clamped centre shifted by the finger's travel, and the last touch becomes the current one |
| TouchControl.TouchControlSystem.GetIsTouching | src/TouchControlSystem.ts:139-141 | reports whether a drag is in progress |
| TouchControl.TouchControlSystem.Reset | src/TouchControlSystem.ts:146-149 | no drag in progress, and the last touch is back at 0 |
| Game.WallBounce | src/GameScene.ts:360-378 | a top contact puts the ball at y = 28 and negates vy; a bottom contact puts it at y = 512 and negates vy; there is no direction guard; x, vx and the speed are untouched; with no contact nothing changes |
| Game.WallContactsExclusive | src/GameScene.ts:364-372 | no position touches both walls |
| Game.HitPositionBounded | src/GameScene.ts:387-388 | under an overlap, the unclamped hitPosition lies in [-1.2, 1.2], i.e. ±(half height + radius) / half height |
| Game.PaddleBounce | src/GameScene.ts:420-425 | the bounced velocity always points away from the paddle (vx changes sign) |
| Game.PaddleBounceSpeed | src/GameScene.ts:420-425 | the speed after a hit is one accelerate step from the speed of the spun velocity, not from the incoming speed |
| Game.PaddleHit | src/GameScene.ts:413-425 | after a left hit the ball is flush at paddle.x + 7.5 + 8, after a right hit at paddle.x - 7.5 - 8; y is unchanged; vx changes sign |
| Game.PaddleOverlapsExclusive | src/GameScene.ts:385-398 | no ball position overlaps both paddles |
| Game.PaddleCollisions | src/GameScene.ts:380-403 | a paddle is hit exactly when the ball overlaps it and moves towards it, and then the ball becomes that paddle's PaddleHit; otherwise nothing changes |
| Game.HitMovesBallAway | src/GameScene.ts:389-420 | after a hit on a paddle, that paddle's test no longer fires |
| Game.PaddleBounceFromSpeed | src/GameScene.ts:424-425 | given the speed s of the spun velocity, a bounce is accelerate from s |
| Game.SpeedCapCanBeExceeded | src/GameScene.ts:424-425 | a ball below the cap, (-291.2, 878.4), hit at hitPosition 1.2 leaves at 1040 px/s, above the 1000 cap |
| Game.HitCanSlowTheBall | src/GameScene.ts:424-425 | a ball at (-120, -120) hit at hitPosition 1.2 leaves at (160, 0), slower than it came |
| Game.HeadOnBounce | src/GameScene.ts:420-425 | a head-on centre hit at 200 px/s leaves at (240, 0) |
| Game.AccelerateHorizontal | src/Ball.ts:63-70 | a horizontal velocity (s, 0) below the cap accelerates to (s + 40, 0) |
| Game.CentreHitScenario | src/GameScene.ts:380-425 | a ball at (160, 270) flying left at 200 onto the centre of the left paddle ends at (165.5, 270) with velocity (240, 0); the same ball at x = 500 is not hit |
| Game.TimerAfterTick | src/GameScene.ts:433-435 | from non-negative values the AI timer stays in [0, 0.1); when it fires it restarts at 0 and drops the overshoot; otherwise it grows by dt |
| Game.TimerAccumulatesUntilFire | src/GameScene.ts:433-435 | until it fires, the timer equals its start plus the frames' total time, and that total stays below the interval |
| Game.AiRecomputesWithinInterval | src/GameScene.ts:433-449 | any run of frames lasting at least one interval recomputes the AI's target at least once |
| Game.ReflectOnce | src/GameScene.ts:444-445 | a projected height within one canvas height of the canvas is folded into [0, 540]; a height already inside is kept; the result is t, -t, 1080 - t or 1080 + t |
| Game.PredictedY | src/GameScene.ts:437-446 | with the ball not moving right the guess is its current height; moving right, a projection within one canvas height of the canvas gives a guess inside the canvas |
| Game.Imprecision | src/GameScene.ts:448 | the aiming error lies in [-20, 20) |
| Game.AiMove | src/GameScene.ts:452-456 | outside the 8 px dead zone the paddle moves exactly 250 × dt towards the target; inside it does not move |
| Game.AiApproachesTarget | src/GameScene.ts:452-456 | outside the dead zone, a move that does not reach the target brings the paddle exactly 250 × dt closer |
| Game.AiPaddleY | src/GameScene.ts:452-464 | after the AI's move and limits the paddle is inside the frame, and equals the unclamped move whenever that is inside |
| Game.MissesExclusive | src/GameScene.ts:471-477 | a ball is never missed on both sides at once |
| Game.GameScene.constructor | src/GameScene.ts:48-57 | a new scene has score 0, 3 lives, no game over, paddles at (150, 270) and (910, 270), the ball at the centre, and a touch control driving the left paddle; the scene invariant holds |
| Game.GameScene.Update | src/GameScene.ts:302-331 | the touch flag is refreshed every frame; nothing else changes when the game is over or no touch is active; the invariant (game over exactly when no lives are left, the AI timer in [0, 0.1), the AI paddle inside the frame) is kept; the score never falls; lives fall by at most one; game over stays set |
| Game.GameScene.CheckCollisions | src/GameScene.ts:355-358 | the ball becomes PaddleCollisions of WallBounce of the ball, and a hit adds one point |
| Game.GameScene.CheckWallCollisions | src/GameScene.ts:360-378 | the ball becomes WallBounce of the ball, both checks reading the position taken before either |
| Game.GameScene.CheckPaddleCollisions | src/GameScene.ts:380-403 | the ball becomes PaddleCollisions of the ball, and the score rises by one exactly when a paddle test fires |
| Game.GameScene.HandlePaddleHit | src/GameScene.ts:405-430 | the score rises by exactly one point and the ball becomes PaddleHit for that paddle |
| Game.GameScene.UpdateAI | src/GameScene.ts:432-465 | the timer advances as TimerAfterTick; the target changes only when the timer fires, and then becomes PredictedY plus the aiming error; the paddle goes to AiPaddleY |
| Game.GameScene.PredictBallY | src/GameScene.ts:437-446 | the recomputed target is PredictedY of the ball |
| Game.GameScene.CheckGoals | src/GameScene.ts:467-483 | a miss by the player costs one life and either ends the game (no lives left, ball untouched) or serves again; a miss by the AI adds 20 points and serves again; otherwise nothing changes |
| Game.GameScene.LoseLife | src/GameScene.ts:485-499 | lives fall by one; at zero or below the game is over and the ball is untouched, otherwise the ball is served again |
| Game.GameScene.RestartGame | src/GameScene.ts:510-521 | 3 lives, no game over, score 0, and a new serve |
| Game.GameScene.OnGameOverTextPointerDown | src/GameScene.ts:247-251 | a tap restarts the game only when the game is over, and otherwise changes nothing |

## Left out

- Audio: the wall and bounce sounds, the music start, stop and speed changes,
  and the `AudioSystem` class. These are output only, and the model drops
  the calls.
- Rendering: building the UI, field, centre line, lives icons, game-over
  texts and scrolling credits, every `setVisible`, and the console logs.
  These are drawing only. The credits' movement also depends on text widths
  that the renderer measures.
- Scene lifecycle: `preload`, `shutdown`, the blur, focus, hidden and
  visible handlers, and the Phaser event registration and striped drawing in
  `TouchControlSystem.setup`. These are framework plumbing. The four pointer
  handlers are plain methods instead.
- `Game.GameScene.constructor` stands for the object creation of
  `createGameObjects` and `setupControls` only.
- The `time` argument of `update` is not modelled, because the code never
  reads it.
- `getPosition` returns a copy of the ball's position. The model reads the
  value-typed `ball.position` into a local, which is the same snapshot.
- IEEE-754 doubles are modelled as ideal reals. NaN, infinities and rounding
  are not modelled.
- `Math.sqrt` and `Math.random` are parameters with their defining
  properties, not computations.
- `Balls.Ball.Accelerate` requires a moving ball, because the code divides
  by the speed without a guard.
- `Game.GameScene.HandlePaddleHit` requires vx ≠ 0. Its only callers
  guarantee this, because they test the direction first.
- `Game.GameScene.Update` requires a non-negative frame delta. This is the
  frame time the framework supplies, and the AI timer's bound needs it.
- `Game.GameScene.Update`: the contract does not state the frame's whole new
  state as one function. It states the gate, the invariant and how score and
  lives may move. The exact effect of each step is stated by the step
  methods it calls, in the order the frame runs them.
- `Game.GameScene.CheckGoals` requires the game not to be over. Its only
  caller runs it after the game-over gate.
- The `Paddle` class keeps only the centre. The width, the height and the
  colour are constants or rendering.
