/**
 * The game's mutable state as an object whose methods update it in place,
 * phase by phase, as the frame code does. Each method is proved against the
 * functions of module Pong, so the lemmas of PongProperties carry over.
 */
module PongGame {
  import opened Pong
  import PongProperties

  class Game {
    /** The canvas; its size never changes. */
    const field: Field

    var playerY: real
    var aiY: real
    var ballX: real
    var ballY: real
    var ballVelX: real
    var ballVelY: real
    var playerScore: nat
    var aiScore: nat

    /** The state the renderer reads. */
    function Snapshot(): State
      reads this
    {
      State(playerY, aiY, ballX, ballY, ballVelX, ballVelY, playerScore, aiScore)
    }

    ghost predicate Valid()
      reads this
    {
      field.Ok() && Inv(field, Snapshot())
    }

    /** Start-up: paddles centred vertically, scores zero, ball served from the centre. */
    constructor (width: real, height: real, r1: real, r2: real)
      requires Field(width, height).Ok() && InUnit(r1) && InUnit(r2)
      ensures field == Field(width, height)
      ensures Snapshot() == Initial(field, r1, r2)
      ensures Valid()
    {
      field := Field(width, height);
      playerY := (height - PADDLE_HEIGHT) / 2.0;
      aiY := (height - PADDLE_HEIGHT) / 2.0;
      ballX, ballY := width / 2.0, height / 2.0;
      ballVelX := ServeVelX(r1);
      ballVelY := ServeVelY(r2);
      playerScore, aiScore := 0, 0;
    }

    /** The pointer handler: centre the player paddle on the pointer, clamped to the canvas. */
    method SetPlayerFromMouse(mouseY: real)
      requires Valid()
      modifies this`playerY
      ensures Valid()
      ensures playerY == PaddleFromPointer(field, mouseY)
      ensures 0.0 <= playerY <= field.height - PADDLE_HEIGHT
      ensures Snapshot() == old(Snapshot()).(playerY := playerY)
    {
      playerY := mouseY - PADDLE_HEIGHT / 2.0;
      playerY := Clamp(0.0, field.height - PADDLE_HEIGHT, playerY);
    }

    /** Recentre the ball and serve it with the draws r1, r2 in place of two random numbers. */
    method ResetBall(r1: real, r2: real)
      requires field.Ok() && InUnit(r1) && InUnit(r2)
      modifies this`ballX, this`ballY, this`ballVelX, this`ballVelY
      ensures Snapshot() == Reset(field, old(Snapshot()), r1, r2)
      ensures ballX == field.width / 2.0 && ballY == field.height / 2.0
      ensures Abs(ballVelX) == BALL_SPEED && -BALL_SPEED <= ballVelY < BALL_SPEED
      ensures old(Valid()) ==> Valid()
    {
      ballX := field.width / 2.0;
      ballY := field.height / 2.0;
      ballVelX := ServeVelX(r1);
      ballVelY := ServeVelY(r2);
    }

    // The phases of `Update`, in the order it runs them. They stand for
    // consecutive parts of one frame, not for operations a caller uses alone,
    // and do not by themselves keep `Valid()`.

    /** Move the ball centre by its velocity. */
    method AdvanceBall()
      modifies this`ballX, this`ballY
      ensures Snapshot() == MoveBall(old(Snapshot()))
    {
      ballX := ballX + ballVelX;
      ballY := ballY + ballVelY;
    }

    /** Reflect the ball off the top wall, then off the bottom wall. */
    method BounceOffWalls()
      requires field.Ok()
      modifies this`ballY, this`ballVelY
      ensures Snapshot() == BounceWalls(field, old(Snapshot()))
      ensures BALL_RADIUS <= ballY <= field.height - BALL_RADIUS
    {
      if ballY < BALL_RADIUS {
        ballY := BALL_RADIUS;
        ballVelY := -ballVelY;
      }
      if ballY > field.height - BALL_RADIUS {
        ballY := field.height - BALL_RADIUS;
        ballVelY := -ballVelY;
      }
    }

    /** On a hit, put the ball against the player paddle's face, reverse it and add spin. */
    method ResolvePlayerHit()
      modifies this`ballX, this`ballVelX, this`ballVelY
      ensures Snapshot() == PlayerHit(old(Snapshot()))
    {
      if Collision(ballX, ballY, PLAYER_X, playerY) {
        ballX := PLAYER_X + PADDLE_WIDTH + BALL_RADIUS;
        ballVelX := -ballVelX;
        ballVelY := Spin(ballY, playerY);
      }
    }

    /** Move the opponent one step towards the ball unless within the dead band, then clamp it. */
    method FollowBall()
      requires field.Ok()
      modifies this`aiY
      ensures Snapshot() == MoveOpponent(field, old(Snapshot()))
      ensures 0.0 <= aiY <= field.height - PADDLE_HEIGHT
    {
      var aiCenter := aiY + PADDLE_HEIGHT / 2.0;
      if aiCenter < ballY - AI_DEADBAND {
        aiY := aiY + PADDLE_SPEED;
      } else if aiCenter > ballY + AI_DEADBAND {
        aiY := aiY - PADDLE_SPEED;
      }
      aiY := Clamp(0.0, field.height - PADDLE_HEIGHT, aiY);
    }

    /** On a hit, put the ball against the opponent paddle's face, reverse it and add spin. */
    method ResolveOpponentHit()
      modifies this`ballX, this`ballVelX, this`ballVelY
      ensures Snapshot() == OpponentHit(field, old(Snapshot()))
    {
      if Collision(ballX, ballY, field.AiX(), aiY) {
        ballX := field.AiX() - BALL_RADIUS;
        ballVelX := -ballVelX;
        ballVelY := Spin(ballY, aiY);
      }
    }

    /** A ball past the left wall scores for the opponent, past the right wall for the player. */
    method AwardPoint(r1: real, r2: real)
      requires field.Ok() && InUnit(r1) && InUnit(r2)
      modifies this`ballX, this`ballY, this`ballVelX, this`ballVelY, this`playerScore, this`aiScore
      ensures Snapshot() == Scoring(field, old(Snapshot()), r1, r2)
    {
      ghost var s0 := Snapshot();
      if ballX < 0.0 {
        aiScore := aiScore + 1;
        ResetBall(r1, r2);
      }
      assert Snapshot() == if s0.ballX < 0.0 then Reset(field, s0.(aiScore := s0.aiScore + 1), r1, r2) else s0;
      if ballX > field.width {
        playerScore := playerScore + 1;
        ResetBall(r1, r2);
      }
    }

    /**
     * One frame: move the ball, reflect it off the walls, resolve a player hit,
     * move the opponent, resolve an opponent hit, then score.
     */
    method Update(r1: real, r2: real)
      requires Valid() && InUnit(r1) && InUnit(r2)
      modifies this
      ensures Snapshot() == Step(field, old(Snapshot()), r1, r2)
      ensures Valid()
      ensures playerY == old(playerY)
      ensures playerScore >= old(playerScore) && aiScore >= old(aiScore)
      ensures playerScore + aiScore <= old(playerScore) + old(aiScore) + 1
    {
      ghost var s0 := Snapshot();
      AdvanceBall();
      BounceOffWalls();
      ResolvePlayerHit();
      FollowBall();
      ResolveOpponentHit();
      AwardPoint(r1, r2);
      PongProperties.StepScores(field, s0, r1, r2);
      PongProperties.StepKeepsInv(field, s0, r1, r2);
    }
  }
}
