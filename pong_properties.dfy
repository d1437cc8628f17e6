/**
 * Properties of the frame phases in module Pong: the collision test is the
 * exact circle-against-box test, the opponent tracks without overshooting,
 * scoring fires at most once per frame, and one frame keeps the invariant.
 */
module PongProperties {
  import opened Pong

  // ---------------------------------------------------------------------
  // Collision

  /** Some point of the paddle lies within the ball's radius of its centre. */
  ghost predicate Touches(ballX: real, ballY: real, px: real, py: real) {
    exists x: real, y: real :: InPaddle(px, py, x, y) && SqDist(ballX, ballY, x, y) <= BALL_RADIUS * BALL_RADIUS
  }

  lemma SquareMonotone(a: real, b: real)
    requires 0.0 <= a <= b
    ensures a * a <= b * b
  {
    assert a * a <= a * b <= b * b;
  }

  /** No point of [lo, hi] is closer to v than Nearest(v, lo, hi). */
  lemma {:induction false} NearestIsClosest(v: real, lo: real, hi: real, x: real)
    requires lo <= x <= hi
    ensures lo <= Nearest(v, lo, hi) <= hi
    ensures (v - Nearest(v, lo, hi)) * (v - Nearest(v, lo, hi)) <= (v - x) * (v - x)
  {
    var t := Nearest(v, lo, hi);
    if v < lo {
      SquareMonotone(t - v, x - v);
    } else if v > hi {
      SquareMonotone(v - t, v - x);
    } else {
      assert t == v;
    }
  }

  /** `Collision` compares the squared distance to the nearest point of the box with the squared radius. */
  lemma CollisionAtNearest(ballX: real, ballY: real, px: real, py: real)
    ensures var tx := Nearest(ballX, px, px + PADDLE_WIDTH);
      var ty := Nearest(ballY, py, py + PADDLE_HEIGHT);
      InPaddle(px, py, tx, ty) &&
      (Collision(ballX, ballY, px, py) <==> SqDist(ballX, ballY, tx, ty) <= BALL_RADIUS * BALL_RADIUS)
  {
  }

  /**
   * `Collision` is true exactly when some point of the paddle box lies within
   * BALL_RADIUS of the ball centre; corners need no special case.
   */
  lemma {:induction false} CollisionIffTouches(ballX: real, ballY: real, px: real, py: real)
    ensures Collision(ballX, ballY, px, py) <==> Touches(ballX, ballY, px, py)
  {
    var tx := Nearest(ballX, px, px + PADDLE_WIDTH);
    var ty := Nearest(ballY, py, py + PADDLE_HEIGHT);
    CollisionAtNearest(ballX, ballY, px, py);
    if Touches(ballX, ballY, px, py) {
      var x: real, y: real :| InPaddle(px, py, x, y) && SqDist(ballX, ballY, x, y) <= BALL_RADIUS * BALL_RADIUS;
      NearestIsClosest(ballX, px, px + PADDLE_WIDTH, x);
      NearestIsClosest(ballY, py, py + PADDLE_HEIGHT, y);
    }
  }

  /**
   * After a player-paddle hit the ball moves away with speed BALL_SPEED if it
   * was approaching, so the next frame cannot hit that paddle again,
   * wherever the ball and the paddle are vertically.
   */
  lemma PlayerHitDoesNotRetrigger(s: State, nextY: real, nextPaddleY: real)
    requires Collision(s.ballX, s.ballY, PLAYER_X, s.playerY)
    requires s.ballVelX == -BALL_SPEED
    ensures !Collision(PlayerHit(s).ballX + PlayerHit(s).ballVelX, nextY, PLAYER_X, nextPaddleY)
  {
  }

  /** The same for the opponent paddle, mirrored. */
  lemma OpponentHitDoesNotRetrigger(f: Field, s: State, nextY: real, nextPaddleY: real)
    requires Collision(s.ballX, s.ballY, f.AiX(), s.aiY)
    requires s.ballVelX == BALL_SPEED
    ensures !Collision(OpponentHit(f, s).ballX + OpponentHit(f, s).ballVelX, nextY, f.AiX(), nextPaddleY)
  {
  }

  /** A ball centred on the paddle face at its middle is sent straight back. */
  lemma CentreHitExample()
    ensures PlayerHit(State(200.0, 200.0, 42.0, 250.0, -6.0, 3.0, 0, 0)) ==
            State(200.0, 200.0, 52.0, 250.0, 6.0, 0.0, 0, 0)
  {
  }

  // ---------------------------------------------------------------------
  // Walls

  /**
   * The two wall tests together clamp ballY into [BALL_RADIUS, H - BALL_RADIUS]
   * and negate the vertical velocity exactly when the clamp moved the ball.
   */
  lemma WallsClampAndReflect(f: Field, s: State)
    requires f.Ok()
    ensures BounceWalls(f, s).ballY == Clamp(BALL_RADIUS, f.height - BALL_RADIUS, s.ballY)
    ensures BounceWalls(f, s).ballVelY ==
              if BALL_RADIUS <= s.ballY <= f.height - BALL_RADIUS then s.ballVelY else -s.ballVelY
  {
  }

  // ---------------------------------------------------------------------
  // The opponent

  /** Signed vertical distance from the opponent paddle's centre to the ball. */
  function Gap(aiY: real, ballY: real): real {
    ballY - (aiY + PADDLE_HEIGHT / 2.0)
  }

  /** The ball height is one the paddle centre can come within the dead band of. */
  predicate Reachable(f: Field, ballY: real) {
    PADDLE_HEIGHT / 2.0 - AI_DEADBAND <= ballY <= f.height - PADDLE_HEIGHT / 2.0 + AI_DEADBAND
  }

  /**
   * One opponent frame moves at most PADDLE_SPEED, never away from the ball
   * and never past it, and not at all inside the dead band; outside it, with
   * the ball reachable, the distance shrinks by PADDLE_SPEED or the paddle
   * lands inside the dead band.
   */
  lemma {:induction false} OpponentApproaches(f: Field, aiY: real, ballY: real)
    requires f.Ok() && PaddleInField(f, aiY)
    ensures var y := OpponentTick(f, aiY, ballY);
      Abs(y - aiY) <= PADDLE_SPEED &&
      Abs(Gap(y, ballY)) <= Abs(Gap(aiY, ballY)) &&
      (Gap(aiY, ballY) >= 0.0 ==> Gap(y, ballY) >= 0.0) &&
      (Gap(aiY, ballY) <= 0.0 ==> Gap(y, ballY) <= 0.0) &&
      (Abs(Gap(aiY, ballY)) <= AI_DEADBAND ==> y == aiY) &&
      (Reachable(f, ballY) && Abs(Gap(aiY, ballY)) > AI_DEADBAND ==>
         Abs(Gap(y, ballY)) == Abs(Gap(aiY, ballY)) - PADDLE_SPEED ||
         Abs(Gap(y, ballY)) <= AI_DEADBAND)
  {
    var t := Track(aiY, ballY);
    var y := OpponentTick(f, aiY, ballY);
    if Gap(aiY, ballY) > AI_DEADBAND {
      assert t == aiY + PADDLE_SPEED;
      assert y == Min(f.PaddleMaxY(), t);
    } else if Gap(aiY, ballY) < -AI_DEADBAND {
      assert t == aiY - PADDLE_SPEED;
      assert y == Max(0.0, t);
    } else {
      assert t == aiY;
    }
  }

  /** The opponent after n frames with the ball held still at height ballY. */
  function OpponentAfter(f: Field, aiY: real, ballY: real, n: nat): real
    requires f.Ok()
    decreases n
  {
    if n == 0 then aiY else OpponentAfter(f, OpponentTick(f, aiY, ballY), ballY, n - 1)
  }

  /** Once inside the dead band of a still ball, the opponent stays where it is. */
  lemma {:induction false} OpponentSettles(f: Field, aiY: real, ballY: real, n: nat)
    requires f.Ok() && PaddleInField(f, aiY)
    requires Abs(Gap(aiY, ballY)) <= AI_DEADBAND
    ensures OpponentAfter(f, aiY, ballY, n) == aiY
  {
    if n > 0 {
      OpponentApproaches(f, aiY, ballY);
      OpponentSettles(f, aiY, ballY, n - 1);
    }
  }

  /**
   * Against a still ball the opponent stays on the canvas, and from one frame
   * to the next its distance to the ball never grows and never changes sign:
   * it closes in without overshooting into oscillation.
   */
  lemma {:induction false} OpponentNeverRecedes(f: Field, aiY: real, ballY: real, n: nat)
    requires f.Ok() && PaddleInField(f, aiY)
    ensures PaddleInField(f, OpponentAfter(f, aiY, ballY, n))
    ensures Abs(Gap(OpponentAfter(f, aiY, ballY, n + 1), ballY)) <= Abs(Gap(OpponentAfter(f, aiY, ballY, n), ballY))
    ensures Gap(aiY, ballY) >= 0.0 ==> Gap(OpponentAfter(f, aiY, ballY, n), ballY) >= 0.0
    ensures Gap(aiY, ballY) <= 0.0 ==> Gap(OpponentAfter(f, aiY, ballY, n), ballY) <= 0.0
    decreases n
  {
    OpponentApproaches(f, aiY, ballY);
    if n > 0 {
      OpponentNeverRecedes(f, OpponentTick(f, aiY, ballY), ballY, n - 1);
    }
  }

  /**
   * Against a still, reachable ball the opponent ends inside the dead band
   * after enough frames to cover the distance at PADDLE_SPEED per frame.
   */
  lemma {:induction false} OpponentConverges(f: Field, aiY: real, ballY: real, n: nat)
    requires f.Ok() && PaddleInField(f, aiY) && Reachable(f, ballY)
    requires (n as real) * PADDLE_SPEED >= Abs(Gap(aiY, ballY)) - AI_DEADBAND
    ensures PaddleInField(f, OpponentAfter(f, aiY, ballY, n))
    ensures Abs(Gap(OpponentAfter(f, aiY, ballY, n), ballY)) <= AI_DEADBAND
    decreases n
  {
    if Abs(Gap(aiY, ballY)) <= AI_DEADBAND {
      OpponentSettles(f, aiY, ballY, n);
    } else {
      var y := OpponentTick(f, aiY, ballY);
      OpponentApproaches(f, aiY, ballY);
      if Abs(Gap(y, ballY)) <= AI_DEADBAND {
        OpponentSettles(f, y, ballY, n - 1);
      } else {
        OpponentConverges(f, y, ballY, n - 1);
      }
    }
  }

  // ---------------------------------------------------------------------
  // Scoring and the whole frame

  /**
   * A ball past the left wall gives the opponent exactly one point, one past
   * the right wall gives the player exactly one point, each with a fresh
   * serve; never both, since the serve puts the ball at W/2.
   */
  lemma ScoringRules(f: Field, s: State, r1: real, r2: real)
    requires f.Ok() && InUnit(r1) && InUnit(r2)
    ensures var r := Scoring(f, s, r1, r2);
      if s.ballX < 0.0 then
        r == Reset(f, s, r1, r2).(aiScore := s.aiScore + 1)
      else if s.ballX > f.width then
        r == Reset(f, s, r1, r2).(playerScore := s.playerScore + 1)
      else r == s
  {
  }

  /** Scores never fall, and together rise by at most one per frame. */
  lemma StepScores(f: Field, s: State, r1: real, r2: real)
    requires f.Ok() && InUnit(r1) && InUnit(r2)
    ensures var r := Step(f, s, r1, r2);
      r.playerScore >= s.playerScore && r.aiScore >= s.aiScore &&
      r.playerScore + r.aiScore <= s.playerScore + s.aiScore + 1
  {
    var t := OpponentHit(f, MoveOpponent(f, PlayerHit(BounceWalls(f, MoveBall(s)))));
    ScoringRules(f, t, r1, r2);
  }

  /** One frame keeps the invariant: paddles and ball on the canvas, speeds bounded. */
  lemma StepKeepsInv(f: Field, s: State, r1: real, r2: real)
    requires f.Ok() && InUnit(r1) && InUnit(r2)
    requires Inv(f, s)
    ensures Inv(f, Step(f, s, r1, r2))
  {
    var t := OpponentHit(f, MoveOpponent(f, PlayerHit(BounceWalls(f, MoveBall(s)))));
    ScoringRules(f, t, r1, r2);
  }
}
