/**
 * The per-frame simulation of a two-paddle ball game, as values.
 *
 * The canvas is a `Field` of width W and height H, y growing downwards.
 * A `State` is the game's mutable state: the top edges of the player and
 * opponent paddles, the ball centre and velocity, and the two scores.
 * Each phase of a frame is a function from `State` to `State`, and `Step`
 * composes them in the order the game runs them; the class in PongGame
 * performs the same phases in place and is proved against these functions.
 */
module Pong {

  // Game settings.
  const PADDLE_WIDTH: real := 12.0
  const PADDLE_HEIGHT: real := 100.0
  const BALL_RADIUS: real := 10.0
  const PLAYER_X: real := 30.0
  /** Gap between the right wall and the opponent paddle's right edge. */
  const AI_MARGIN: real := 30.0
  /** Largest move of the opponent paddle in one frame. */
  const PADDLE_SPEED: real := 6.0
  const BALL_SPEED: real := 6.0
  /** The opponent holds still while its centre is within this distance of the ball. */
  const AI_DEADBAND: real := 20.0
  /** Largest vertical speed a paddle hit can give the ball (7.2). */
  const MAX_SPIN: real := BALL_SPEED * (PADDLE_HEIGHT / 2.0 + BALL_RADIUS) / (PADDLE_HEIGHT / 2.0)

  /** The canvas. Its size is fixed for the whole session. */
  datatype Field = Field(width: real, height: real) {
    /** The canvas is wide enough to exist and tall enough for a paddle and for the ball. */
    predicate Ok() {
      width > 0.0 && height >= PADDLE_HEIGHT && height >= 2.0 * BALL_RADIUS
    }

    /** Left edge of the opponent paddle. */
    function AiX(): real {
      width - AI_MARGIN - PADDLE_WIDTH
    }

    /** Largest top edge a paddle may have. */
    function PaddleMaxY(): real {
      height - PADDLE_HEIGHT
    }
  }

  datatype State = State(
    playerY: real,
    aiY: real,
    ballX: real,
    ballY: real,
    ballVelX: real,
    ballVelY: real,
    playerScore: nat,
    aiScore: nat)

  function Abs(x: real): real {
    if x < 0.0 then -x else x
  }

  function Max(a: real, b: real): real {
    if a < b then b else a
  }

  function Min(a: real, b: real): real {
    if a < b then a else b
  }

  /** `Math.max(lo, Math.min(hi, v))`. */
  function Clamp(lo: real, hi: real, v: real): (r: real)
    requires lo <= hi
    ensures lo <= r <= hi
    ensures lo <= v <= hi ==> r == v
    ensures v < lo ==> r == lo
    ensures hi < v ==> r == hi
  {
    Max(lo, Min(hi, v))
  }

  /** A random draw as `Math.random()` gives it. */
  predicate InUnit(r: real) {
    0.0 <= r < 1.0
  }

  predicate PaddleInField(f: Field, y: real) {
    0.0 <= y <= f.PaddleMaxY()
  }

  predicate BallInField(f: Field, s: State) {
    BALL_RADIUS <= s.ballY <= f.height - BALL_RADIUS
  }

  /**
   * What holds of every state the game reaches: both paddles on the canvas,
   * the ball between the walls, the horizontal speed fixed and the vertical
   * speed bounded by the steepest spin.
   */
  predicate Inv(f: Field, s: State) {
    PaddleInField(f, s.playerY) && PaddleInField(f, s.aiY) && BallInField(f, s) &&
    Abs(s.ballVelX) == BALL_SPEED && Abs(s.ballVelY) <= MAX_SPIN
  }

  // ---------------------------------------------------------------------
  // Serving the ball

  /** Horizontal serve velocity from one draw: to the right when it exceeds one half. */
  function ServeVelX(r1: real): (vx: real)
    ensures Abs(vx) == BALL_SPEED
    ensures vx > 0.0 <==> r1 > 0.5
  {
    BALL_SPEED * (if r1 > 0.5 then 1.0 else -1.0)
  }

  /** Vertical serve velocity from one draw, spread over [-BALL_SPEED, BALL_SPEED). */
  function ServeVelY(r2: real): (vy: real)
    requires InUnit(r2)
    ensures -BALL_SPEED <= vy < BALL_SPEED
    ensures vy < 0.0 <==> r2 < 0.5
  {
    BALL_SPEED * (r2 * 2.0 - 1.0)
  }

  /** The state at start-up: paddles centred vertically, ball served from the centre. */
  function Initial(f: Field, r1: real, r2: real): (s: State)
    requires f.Ok() && InUnit(r1) && InUnit(r2)
    ensures Inv(f, s)
    ensures s.playerScore == 0 && s.aiScore == 0
    ensures s.playerY + PADDLE_HEIGHT / 2.0 == f.height / 2.0 && s.aiY == s.playerY
    ensures s.ballX == f.width / 2.0 && s.ballY == f.height / 2.0
    ensures -BALL_SPEED <= s.ballVelY < BALL_SPEED
  {
    State((f.height - PADDLE_HEIGHT) / 2.0, (f.height - PADDLE_HEIGHT) / 2.0,
          f.width / 2.0, f.height / 2.0, ServeVelX(r1), ServeVelY(r2), 0, 0)
  }

  /** The ball recentred and served again; paddles and scores untouched. */
  function Reset(f: Field, s: State, r1: real, r2: real): (r: State)
    requires f.Ok() && InUnit(r1) && InUnit(r2)
    ensures r.ballX == f.width / 2.0 && r.ballY == f.height / 2.0
    ensures Abs(r.ballVelX) == BALL_SPEED && -BALL_SPEED <= r.ballVelY < BALL_SPEED
    ensures BallInField(f, r) && r.ballX <= f.width
    ensures r.playerY == s.playerY && r.aiY == s.aiY
    ensures r.playerScore == s.playerScore && r.aiScore == s.aiScore
  {
    s.(ballX := f.width / 2.0, ballY := f.height / 2.0,
       ballVelX := ServeVelX(r1), ballVelY := ServeVelY(r2))
  }

  // ---------------------------------------------------------------------
  // Collision of the ball with a paddle

  /** The point (x, y) lies on the paddle whose top-left corner is (px, py). */
  predicate InPaddle(px: real, py: real, x: real, y: real) {
    px <= x <= px + PADDLE_WIDTH && py <= y <= py + PADDLE_HEIGHT
  }

  function SqDist(x1: real, y1: real, x2: real, y2: real): real {
    (x1 - x2) * (x1 - x2) + (y1 - y2) * (y1 - y2)
  }

  /** The coordinate of the interval [lo, hi] nearest to v. */
  function Nearest(v: real, lo: real, hi: real): real {
    if v < lo then lo else if v > hi then hi else v
  }

  /**
   * Circle against box: clamp the ball centre into the paddle and compare
   * the squared distance to that point with the squared radius.
   */
  function Collision(ballX: real, ballY: real, paddleX: real, paddleY: real): (hit: bool)
    ensures InPaddle(paddleX, paddleY, ballX, ballY) ==> hit
    ensures hit ==> paddleX - BALL_RADIUS <= ballX <= paddleX + PADDLE_WIDTH + BALL_RADIUS
    ensures hit ==> paddleY - BALL_RADIUS <= ballY <= paddleY + PADDLE_HEIGHT + BALL_RADIUS
  {
    var testX := Nearest(ballX, paddleX, paddleX + PADDLE_WIDTH);
    var testY := Nearest(ballY, paddleY, paddleY + PADDLE_HEIGHT);
    var distX := ballX - testX;
    var distY := ballY - testY;
    SquareAtLeast(distX, BALL_RADIUS);
    SquareAtLeast(distY, BALL_RADIUS);
    distX * distX + distY * distY <= BALL_RADIUS * BALL_RADIUS
  }

  /** A number further than r > 0 from zero has a square larger than r's. */
  lemma SquareAtLeast(d: real, r: real)
    requires r > 0.0
    ensures d * d >= 0.0
    ensures Abs(d) > r ==> d * d > r * r
  {
    if Abs(d) > r {
      assert Abs(d) * Abs(d) > r * Abs(d) > r * r;
    }
  }

  /**
   * Vertical velocity after a paddle hit: proportional to how far from the
   * paddle's centre the ball struck, BALL_SPEED at a paddle end.
   */
  function Spin(ballY: real, paddleY: real): (vy: real)
    ensures ballY == paddleY + PADDLE_HEIGHT / 2.0 ==> vy == 0.0
    ensures ballY > paddleY + PADDLE_HEIGHT / 2.0 ==> vy > 0.0
    ensures ballY < paddleY + PADDLE_HEIGHT / 2.0 ==> vy < 0.0
    ensures paddleY - BALL_RADIUS <= ballY <= paddleY + PADDLE_HEIGHT + BALL_RADIUS ==>
              Abs(vy) <= MAX_SPIN
  {
    var diff := (ballY - (paddleY + PADDLE_HEIGHT / 2.0)) / (PADDLE_HEIGHT / 2.0);
    BALL_SPEED * diff
  }

  // ---------------------------------------------------------------------
  // The phases of one frame

  /** Explicit Euler with a unit timestep: only the ball centre moves, by its velocity. */
  function MoveBall(s: State): (r: State)
    ensures r.ballX - s.ballX == s.ballVelX && r.ballY - s.ballY == s.ballVelY
    ensures r.(ballX := s.ballX, ballY := s.ballY) == s
  {
    s.(ballX := s.ballX + s.ballVelX, ballY := s.ballY + s.ballVelY)
  }

  /** Reflection off the top wall, then off the bottom wall. */
  function BounceWalls(f: Field, s: State): (r: State)
    requires f.Ok()
    ensures BallInField(f, r)
    ensures r.ballVelY == s.ballVelY || r.ballVelY == -s.ballVelY
    ensures r.(ballY := s.ballY, ballVelY := s.ballVelY) == s
  {
    var s1 := if s.ballY < BALL_RADIUS
              then s.(ballY := BALL_RADIUS, ballVelY := -s.ballVelY) else s;
    if s1.ballY > f.height - BALL_RADIUS
    then s1.(ballY := f.height - BALL_RADIUS, ballVelY := -s1.ballVelY) else s1
  }

  /**
   * A hit on the player paddle puts the ball flush against its right face,
   * reverses the horizontal velocity and replaces the vertical one by the spin.
   */
  function PlayerHit(s: State): (r: State)
    ensures Collision(s.ballX, s.ballY, PLAYER_X, s.playerY) ==>
              r.ballX - BALL_RADIUS == PLAYER_X + PADDLE_WIDTH && r.ballVelX == -s.ballVelX &&
              r.ballVelY == Spin(s.ballY, s.playerY) && Abs(r.ballVelY) <= MAX_SPIN
    ensures !Collision(s.ballX, s.ballY, PLAYER_X, s.playerY) ==> r == s
    ensures r.(ballX := s.ballX, ballVelX := s.ballVelX, ballVelY := s.ballVelY) == s
  {
    if Collision(s.ballX, s.ballY, PLAYER_X, s.playerY) then
      s.(ballX := PLAYER_X + PADDLE_WIDTH + BALL_RADIUS, ballVelX := -s.ballVelX,
         ballVelY := Spin(s.ballY, s.playerY))
    else s
  }

  /** The opponent's tracker before clamping: one step towards the ball unless within the dead band. */
  function Track(aiY: real, ballY: real): (y: real)
    ensures Abs(y - aiY) <= PADDLE_SPEED
    ensures Abs(aiY + PADDLE_HEIGHT / 2.0 - ballY) <= AI_DEADBAND ==> y == aiY
    ensures aiY + PADDLE_HEIGHT / 2.0 < ballY ==> y >= aiY
    ensures aiY + PADDLE_HEIGHT / 2.0 > ballY ==> y <= aiY
  {
    var aiCenter := aiY + PADDLE_HEIGHT / 2.0;
    if aiCenter < ballY - AI_DEADBAND then aiY + PADDLE_SPEED
    else if aiCenter > ballY + AI_DEADBAND then aiY - PADDLE_SPEED
    else aiY
  }

  /** One frame of the opponent: track the ball, then clamp to the canvas. */
  function OpponentTick(f: Field, aiY: real, ballY: real): (y: real)
    requires f.Ok()
    ensures PaddleInField(f, y)
    ensures PaddleInField(f, aiY) ==> Abs(y - aiY) <= PADDLE_SPEED
  {
    Clamp(0.0, f.PaddleMaxY(), Track(aiY, ballY))
  }

  /** The opponent-movement phase: only `aiY` changes. */
  function MoveOpponent(f: Field, s: State): (r: State)
    requires f.Ok()
    ensures PaddleInField(f, r.aiY)
    ensures r.(aiY := s.aiY) == s
  {
    s.(aiY := OpponentTick(f, s.aiY, s.ballY))
  }

  /**
   * A hit on the opponent paddle puts the ball flush against its left face,
   * reverses the horizontal velocity and replaces the vertical one by the spin.
   */
  function OpponentHit(f: Field, s: State): (r: State)
    ensures Collision(s.ballX, s.ballY, f.AiX(), s.aiY) ==>
              r.ballX + BALL_RADIUS == f.AiX() && r.ballVelX == -s.ballVelX &&
              r.ballVelY == Spin(s.ballY, s.aiY) && Abs(r.ballVelY) <= MAX_SPIN
    ensures !Collision(s.ballX, s.ballY, f.AiX(), s.aiY) ==> r == s
    ensures r.(ballX := s.ballX, ballVelX := s.ballVelX, ballVelY := s.ballVelY) == s
  {
    if Collision(s.ballX, s.ballY, f.AiX(), s.aiY) then
      s.(ballX := f.AiX() - BALL_RADIUS, ballVelX := -s.ballVelX,
         ballVelY := Spin(s.ballY, s.aiY))
    else s
  }

  /** A ball past the left wall scores for the opponent, one past the right wall for the player. */
  function Scoring(f: Field, s: State, r1: real, r2: real): (r: State)
    requires f.Ok() && InUnit(r1) && InUnit(r2)
    ensures 0.0 <= r.ballX <= f.width
    ensures r.playerScore >= s.playerScore && r.aiScore >= s.aiScore
    ensures r.playerScore + r.aiScore <= s.playerScore + s.aiScore + 1
    ensures r.playerY == s.playerY && r.aiY == s.aiY
  {
    var s1 := if s.ballX < 0.0 then Reset(f, s.(aiScore := s.aiScore + 1), r1, r2) else s;
    if s1.ballX > f.width then Reset(f, s1.(playerScore := s1.playerScore + 1), r1, r2) else s1
  }

  /** One frame of the game, the phases in the order the game runs them. */
  function Step(f: Field, s: State, r1: real, r2: real): (r: State)
    requires f.Ok() && InUnit(r1) && InUnit(r2)
    ensures r.playerY == s.playerY
    ensures PaddleInField(f, r.aiY) && BallInField(f, r)
  {
    var moved := MoveBall(s);
    var bounced := BounceWalls(f, moved);
    var afterPlayer := PlayerHit(bounced);
    var tracked := MoveOpponent(f, afterPlayer);
    var afterOpponent := OpponentHit(f, tracked);
    Scoring(f, afterOpponent, r1, r2)
  }

  /** The paddle's top edge for a pointer at height mouseY: centred on it, then clamped. */
  function PaddleFromPointer(f: Field, mouseY: real): (y: real)
    requires f.Ok()
    ensures PaddleInField(f, y)
    ensures PADDLE_HEIGHT / 2.0 <= mouseY <= f.height - PADDLE_HEIGHT / 2.0 ==>
              y + PADDLE_HEIGHT / 2.0 == mouseY
    ensures mouseY < PADDLE_HEIGHT / 2.0 ==> y == 0.0
    ensures mouseY > f.height - PADDLE_HEIGHT / 2.0 ==> y == f.PaddleMaxY()
  {
    Clamp(0.0, f.PaddleMaxY(), mouseY - PADDLE_HEIGHT / 2.0)
  }
}
