# Ping-pong game simulation, modelled in Dafny

A browser ping-pong game. Its whole simulation lives in `script.js`. The
player's paddle follows the mouse pointer. The opponent paddle follows the
ball: it moves at a limited speed and holds still inside a dead band. The
ball bounces off the top and bottom walls. A paddle hit puts the ball
against that paddle's face, reverses its horizontal velocity and gives it
"spin": a vertical velocity that depends on where the ball struck. A ball
that leaves the canvas on the left scores for the opponent. One that leaves
on the right scores for the player. Either way the ball is served again
from the centre.

The model has three files:

- `pong.dfy`, module `Pong`. It holds the game constants and the canvas
  (`Field`, width W and height H, given as parameters). `State` holds the
  eight state variables. The pure collision test is `Collision`. Each phase
  of a frame is a function from state to state (`MoveBall`, `BounceWalls`,
  `PlayerHit`, `MoveOpponent`, `OpponentHit`, `Scoring`), and `Step`
  chains them in the game's order. The serve is `Reset`, and the pointer
  clamp is `PaddleFromPointer`.
- `pong_properties.dfy`, module `PongProperties`. It holds the lemmas about
  those functions: collision exactness, the opponent's tracking behaviour,
  the scoring rules, and the invariant kept by one frame.
- `game.dfy`, module `PongGame`. The class `Game` holds the state as
  fields. Its methods update those fields in place, as `script.js` does.
  `Update` runs the phases in order, with one method per phase. Each method
  is proved to produce the state its `Pong` function gives, so the lemmas
  apply to the object.

Quantities are `real`. `Math.random()` becomes the parameters `r1` and `r2`,
each in [0, 1). The canvas must satisfy `W > 0`, `H >= PADDLE_HEIGHT` and
`H >= 2 * BALL_RADIUS`.

## Notes on the code's behaviour

- `update` does not clamp `playerY` again. Only the pointer handler clamps
  it, and `update` never writes it, so its bound still holds after every
  frame (`Step` keeps `playerY`).
- The two scoring tests are independent `if`s. They cannot both fire in
  one frame because the first reset puts the ball at W/2, which is not
  past the right wall (`ScoringRules`).
- The ball's vertical position lies in [BALL_RADIUS, H − BALL_RADIUS]
  after every frame.
- A ball hit on the player paddle has its vertical velocity replaced, but
  its vertical position is unchanged. So the opponent tracks the ball's
  height after that hit.

## Model

| member | source | states |
|---|---|---|
| Pong.Clamp | script.js:25 | `Math.max(lo, Math.min(hi, v))` with `lo <= hi` lies in [lo, hi]. It is v when v is in range, lo below the range and hi above it |
| Pong.PaddleFromPointer | script.js:23-25 | the player paddle's top edge after a pointer move lies in [0, H − PADDLE_HEIGHT]. It is centred on the pointer whenever that fits, and rests against the wall otherwise |
| Pong.ServeVelX | script.js:58 | the serve's horizontal velocity has magnitude BALL_SPEED. It points right exactly when the draw exceeds 0.5 |
| Pong.ServeVelY | script.js:59 | the serve's vertical velocity lies in [−BALL_SPEED, BALL_SPEED) for a draw in [0, 1). It is negative exactly when the draw is below 0.5 |
| Pong.Initial | script.js:13-18 | the start-up state has both paddles centred vertically, both scores zero, and the ball at (W/2, H/2) with vy in [−BALL_SPEED, BALL_SPEED). It satisfies the game invariant `Inv` |
| Pong.Reset | script.js:55-60 | a reset puts the ball at (W/2, H/2) with \|vx\| = BALL_SPEED and vy in [−BALL_SPEED, BALL_SPEED). It leaves paddles and scores unchanged, and leaves the ball not past the right wall |
| Pong.Collision | script.js:62-75 | the test is true whenever the ball centre lies on the paddle box. It is true only when the centre is within BALL_RADIUS of the box on both axes |
| Pong.Spin | script.js:97-98 | the post-hit vertical velocity is 0 for a centre hit and has the sign of the offset from the paddle centre. It is at most MAX_SPIN (7.2) in magnitude for any ball that touches the paddle |
| Pong.MoveBall | script.js:79-80 | only the ball centre moves, by exactly one frame of its velocity |
| Pong.BounceWalls | script.js:83-90 | after the wall tests ballY lies in [BALL_RADIUS, H − BALL_RADIUS] and vy keeps its magnitude. Nothing but ballY and vy changes |
| Pong.PlayerHit | script.js:93-99 | on a hit the ball's left edge is flush with the paddle face, vx is negated (not forced positive) and vy becomes `Spin` of the offset from the paddle centre (0 for a centre hit, \|vy\| <= MAX_SPIN). Without a hit nothing changes, and ballY, paddles and scores never change |
| Pong.Track | script.js:102-104 | the opponent's unclamped move is at most PADDLE_SPEED and is towards the ball. It is zero while the paddle centre is within ±20 of ballY |
| Pong.OpponentTick | script.js:102-106 | after the clamp the opponent paddle lies in [0, H − PADDLE_HEIGHT]. From a position on the canvas it moves at most PADDLE_SPEED |
| Pong.MoveOpponent | script.js:101-106 | the opponent phase changes only aiY and leaves it on the canvas |
| Pong.OpponentHit | script.js:109-115 | on a hit on the already-moved opponent paddle the ball's right edge is flush with its face (ballX = AI_X − BALL_RADIUS), vx is negated and vy becomes `Spin` of the offset from the opponent paddle's centre (\|vy\| <= MAX_SPIN). Without a hit nothing changes |
| Pong.Scoring | script.js:117-125 | after the scoring tests the ball is horizontally on the canvas, in [0, W]. Neither score decreases, their sum rises by at most one, and the paddles are unchanged |
| Pong.Step | script.js:77-126 | after a frame playerY is unchanged, the opponent paddle is on the canvas and ballY is in [BALL_RADIUS, H − BALL_RADIUS], from any state |
| PongProperties.NearestIsClosest | script.js:67-70 | the clamped coordinate is the point of the paddle's extent nearest to the ball centre on that axis |
| PongProperties.CollisionIffTouches | script.js:62-75 | the collision test is true exactly when some point of the paddle box is within BALL_RADIUS of the ball centre (both directions), with corners included |
| PongProperties.PlayerHitDoesNotRetrigger | script.js:93-95 | after a hit on an approaching ball, the next frame's move takes it out of reach of the player paddle at every height |
| PongProperties.OpponentHitDoesNotRetrigger | script.js:109-111 | after a hit on an approaching ball, the next frame's move takes it out of reach of the opponent paddle at every height |
| PongProperties.CentreHitExample | script.js:93-99 | a ball at (42, 250) moving left onto a paddle spanning y 200..300 is placed at x = 52, with vx = +6 and vy = 0 |
| PongProperties.WallsClampAndReflect | script.js:83-90 | the two wall tests together clamp ballY into [BALL_RADIUS, H − BALL_RADIUS]. They negate vy exactly when ballY was outside that range |
| PongProperties.OpponentApproaches | script.js:102-106 | in one frame the opponent moves at most PADDLE_SPEED, never away from the ball and never past it, and not at all inside the dead band. With a reachable ball outside the dead band, the distance shrinks by exactly PADDLE_SPEED or the paddle lands in the dead band |
| PongProperties.OpponentNeverRecedes | script.js:102-106 | against a still ball, the opponent stays on the canvas over any number of frames. Its distance to the ball never grows and never changes sign |
| PongProperties.OpponentSettles | script.js:102-104 | against a still ball, once the opponent is inside the dead band it never moves again |
| PongProperties.OpponentConverges | script.js:102-106 | against a still, reachable ball, the opponent is inside the dead band after n frames whenever n·PADDLE_SPEED covers the distance minus the dead band |
| PongProperties.ScoringRules | script.js:118-125 | ballX < 0 gives the opponent exactly one point and a fresh serve. Otherwise ballX > W gives the player exactly one point and a fresh serve. Otherwise nothing changes, and never both |
| PongProperties.StepScores | script.js:117-125 | over a frame neither score decreases, and their sum rises by at most one |
| PongProperties.StepKeepsInv | script.js:77-126 | a frame keeps both paddles on the canvas, ballY in [BALL_RADIUS, H − BALL_RADIUS], \|vx\| = BALL_SPEED and \|vy\| <= MAX_SPIN |
| PongGame.Game.constructor | script.js:5-18 | the object starts in the state `Initial` gives, which satisfies the invariant |
| PongGame.Game.SetPlayerFromMouse | script.js:23-25 | the pointer handler sets playerY to `PaddleFromPointer` and changes nothing else. playerY ends in [0, H − PADDLE_HEIGHT] |
| PongGame.Game.ResetBall | script.js:55-60 | the reset writes the four ball fields as `Reset` gives them and keeps the invariant |
| PongGame.Game.AdvanceBall | script.js:79-80 | moves the ball in place exactly as `MoveBall` |
| PongGame.Game.BounceOffWalls | script.js:83-90 | reflects off the walls in place exactly as `BounceWalls`, leaving ballY between the walls |
| PongGame.Game.ResolvePlayerHit | script.js:93-99 | resolves a player-paddle hit in place exactly as `PlayerHit` |
| PongGame.Game.FollowBall | script.js:101-106 | moves the opponent in place exactly as `MoveOpponent`, leaving aiY on the canvas |
| PongGame.Game.ResolveOpponentHit | script.js:109-115 | resolves an opponent-paddle hit in place exactly as `OpponentHit` |
| PongGame.Game.AwardPoint | script.js:117-125 | scores and serves in place exactly as `Scoring` |
| PongGame.Game.Update | script.js:77-126 | one frame leaves the object in `Step` of its old state and keeps the invariant. playerY is unchanged, no score decreases, and the scores together rise by at most one |

## Left out

- Rendering (`drawRect`, `drawCircle`, `drawNet`, `drawScore`, `render`, script.js:28-53, 128-140) is left out. It draws and decides nothing.
- The `requestAnimationFrame` loop (script.js:142-148) is left out. The model gives one frame, `Game.Update`, which a caller may repeat.
- Canvas lookup and event wiring (script.js:1-2, 20-22) are left out. The pointer's height on the canvas is the parameter `mouseY` of `SetPlayerFromMouse`.
- `Math.random` is not modelled. Each call is a parameter in [0, 1). `Update` takes one pair, which is enough because at most one reset happens per frame.
- IEEE-754 rounding of JavaScript numbers is not modelled. All quantities are exact reals.
- Canvas sizes that break `W > 0`, `H >= PADDLE_HEIGHT` or `H >= 2 * BALL_RADIUS` are not modelled. Every member whose contract depends on them requires them.
- OpponentConverges: it is stated only for a ball the paddle centre can come within the dead band of. A ball closer than 30 to the top or bottom wall is out of reach, and the opponent then stops at the wall without converging.
- PlayerHitDoesNotRetrigger: it is stated for a ball arriving with vx = −BALL_SPEED. A ball that is already moving away when it touches the paddle is reversed back into it, as in the code.
