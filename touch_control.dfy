/**
 * Touch control of the player's (left) paddle.  A press in the touch zone
 * starts a drag, each move shifts the paddle by the finger's vertical travel
 * since the previous event, clamped to the frame, and a release or the
 * pointer leaving the zone ends the drag.
 *
 * The four pointer handlers are modelled as methods of the class.  Their
 * combined effect is also given as a value-level state machine (TouchState,
 * Step, Run) about which the drag properties are proved.
 */
module TouchControl {
  import opened PongConstants
  import opened Paddles

  /** The paddle centre after one relative move of the finger from lastTouchY to currentTouchY. */
  function DraggedPaddleY(paddleY: real, lastTouchY: real, currentTouchY: real): (r: real)
    ensures InField(r)
    ensures InField(paddleY + (currentTouchY - lastTouchY)) ==> r - paddleY == currentTouchY - lastTouchY
  {
    ClampPaddleY(paddleY + (currentTouchY - lastTouchY))
  }

  /** The pointer events the touch zone reacts to. */
  datatype PointerEvent = Down(y: real) | Move(y: real) | Up | Out

  /** What the touch control and the paddle it drives hold between events. */
  datatype TouchState = TouchState(isTouching: bool, lastTouchY: real, paddleY: real)

  /**
   * The effect of one event: the paddle never leaves the frame, and a drag is
   * in progress afterwards exactly after a press or a move during a drag.
   */
  function Step(s: TouchState, e: PointerEvent): (r: TouchState)
    ensures InField(s.paddleY) ==> InField(r.paddleY)
    ensures r.isTouching <==> e.Down? || (s.isTouching && e.Move?)
    ensures !s.isTouching && e.Move? ==> r == s
  {
    match e
    case Down(y) => s.(isTouching := true, lastTouchY := y)
    case Move(y) =>
      if s.isTouching then s.(lastTouchY := y, paddleY := DraggedPaddleY(s.paddleY, s.lastTouchY, y))
      else s
    case Up => s.(isTouching := false)
    case Out => s.(isTouching := false)
  }

  /** The effect of a sequence of events, applied in order. */
  function Run(s: TouchState, events: seq<PointerEvent>): TouchState
    decreases |events|
  {
    if events == [] then s else Run(Step(s, events[0]), events[1..])
  }

  /** Only a move during a drag changes the paddle, and only a press or a move changes the last touch. */
  lemma StepFrame(s: TouchState, e: PointerEvent)
    ensures Step(s, e).paddleY != s.paddleY ==> e.Move? && s.isTouching
    ensures Step(s, e).lastTouchY != s.lastTouchY ==> e.Down? || (e.Move? && s.isTouching)
    ensures Step(s, e).isTouching <==> e.Down? || (s.isTouching && e.Move?)
  {
  }

  /** A paddle inside the frame stays inside it whatever the events. */
  lemma {:induction false} RunKeepsPaddleInField(s: TouchState, events: seq<PointerEvent>)
    requires InField(s.paddleY)
    ensures InField(Run(s, events).paddleY)
    decreases |events|
  {
    if events != [] {
      RunKeepsPaddleInField(Step(s, events[0]), events[1..]);
    }
  }

  /** A sequence of events made of moves only. */
  predicate OnlyMoves(events: seq<PointerEvent>) {
    forall i :: 0 <= i < |events| ==> events[i].Move?
  }

  /** Moves while the finger is up change nothing at all. */
  lemma {:induction false} MovesWithoutTouchAreIgnored(s: TouchState, events: seq<PointerEvent>)
    requires !s.isTouching && OnlyMoves(events)
    ensures Run(s, events) == s
    decreases |events|
  {
    if events != [] {
      assert events[0].Move?;
      MovesWithoutTouchAreIgnored(Step(s, events[0]), events[1..]);
    }
  }

  /** No move during a drag would take the paddle past a limit of the frame. */
  predicate NeverClamped(s: TouchState, events: seq<PointerEvent>)
    decreases |events|
  {
    events != [] ==>
      && (events[0].Move? && s.isTouching ==> InField(s.paddleY + (events[0].y - s.lastTouchY)))
      && NeverClamped(Step(s, events[0]), events[1..])
  }

  /**
   * During a drag made only of moves that never reach a limit, the paddle
   * follows the finger: it ends displaced by the finger's total travel since
   * the last recorded touch, so the paddle-to-finger offset is kept.
   */
  lemma {:induction false} DragFollowsFinger(s: TouchState, events: seq<PointerEvent>)
    requires s.isTouching && OnlyMoves(events) && events != []
    requires NeverClamped(s, events)
    ensures Run(s, events).isTouching
    ensures Run(s, events).lastTouchY == events[|events| - 1].y
    ensures Run(s, events).paddleY - Run(s, events).lastTouchY == s.paddleY - s.lastTouchY
    decreases |events|
  {
    var s' := Step(s, events[0]);
    assert events[0].Move?;
    assert s'.paddleY - s'.lastTouchY == s.paddleY - s.lastTouchY;
    if |events| > 1 {
      var rest := events[1..];
      assert OnlyMoves(rest) by {
        forall i | 0 <= i < |rest|
          ensures rest[i].Move?
        {
          assert rest[i] == events[i + 1];
        }
      }
      DragFollowsFinger(s', rest);
      assert rest[|rest| - 1] == events[|events| - 1];
    }
  }

  class TouchControlSystem {
    var isTouching: bool
    var lastTouchY: real
    /** The paddle this control drags (the left paddle). */
    const paddle: Paddle

    /** A new control is idle and drives the given paddle. */
    constructor(paddle: Paddle)
      ensures this.paddle == paddle && !isTouching && lastTouchY == 0.0
    {
      this.paddle := paddle;
      isTouching := false;
      lastTouchY := 0.0;
    }

    /** The control's state together with its paddle's position. */
    function State(): TouchState
      reads this, paddle
    {
      TouchState(isTouching, lastTouchY, paddle.y)
    }

    /** A press starts a drag at the finger's height without moving the paddle. */
    method OnPointerDown(pointerY: real)
      modifies this`isTouching, this`lastTouchY
      ensures isTouching && lastTouchY == pointerY
      ensures State() == Step(old(State()), Down(pointerY))
    {
      isTouching := true;
      lastTouchY := pointerY;
    }

    /** A move drags the paddle, but only while a drag is in progress. */
    method OnPointerMove(pointerY: real)
      modifies this`lastTouchY, paddle`y
      ensures State() == Step(old(State()), Move(pointerY))
    {
      if isTouching {
        HandlePaddleMovement(pointerY);
      }
    }

    /** A release ends the drag. */
    method OnPointerUp()
      modifies this`isTouching
      ensures !isTouching
      ensures State() == Step(old(State()), Up)
    {
      isTouching := false;
    }

    /** The pointer leaving the touch zone ends the drag as well. */
    method OnPointerOut()
      modifies this`isTouching
      ensures !isTouching
      ensures State() == Step(old(State()), Out)
    {
      isTouching := false;
    }

    /**
     * Moves the paddle by the finger's travel since the last event, clamped
     * to the frame, and records the new finger height.
     */
    method HandlePaddleMovement(currentTouchY: real)
      modifies this`lastTouchY, paddle`y
      ensures paddle.y == DraggedPaddleY(old(paddle.y), old(lastTouchY), currentTouchY)
      ensures lastTouchY == currentTouchY
    {
      var deltaY := currentTouchY - lastTouchY;
      var newPaddleY := paddle.y + deltaY;
      if newPaddleY - PADDLE_HALF_HEIGHT < FRAME_MARGIN {
        newPaddleY := PADDLE_HALF_HEIGHT + FRAME_MARGIN;
      }
      if newPaddleY + PADDLE_HALF_HEIGHT > CANVAS_HEIGHT - FRAME_MARGIN {
        newPaddleY := CANVAS_HEIGHT - PADDLE_HALF_HEIGHT - FRAME_MARGIN;
      }
      paddle.y := newPaddleY;
      lastTouchY := currentTouchY;
    }

    /** Whether a drag is in progress. */
    method GetIsTouching() returns (touching: bool)
      ensures touching <==> isTouching
    {
      touching := isTouching;
    }

    /** Forgets any drag: idle, with the last touch back at 0. */
    method Reset()
      modifies this`isTouching, this`lastTouchY
      ensures !isTouching && lastTouchY == 0.0
    {
      isTouching := false;
      lastTouchY := 0.0;
    }
  }
}
