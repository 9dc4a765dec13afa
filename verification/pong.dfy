/**
 * The pong game's state and its transitions.
 *
 * Every atomic static of the game becomes one field of the immutable `Game`
 * record. Handlers never run concurrently, so each operation is a pure
 * function from the whole record before the call to the whole record after.
 * The game's `i32` fields are unbounded integers here.
 */
module Pong {

  const ScreenWidth: int := 640
  const ScreenHeight: int := 480
  const PaddleWidth: int := 10
  const PaddleHeight: int := 60
  const BallSize: int := 10
  /** Horizontal distance from a screen edge to the paddle's outer side. */
  const PaddleOffset: int := 20
  const PaddleSpeed: int := 5
  const InitialBallSpeedX: int := 2
  const InitialBallSpeedY: int := 2
  /** Ticks a held key stays effective after its last press. */
  const KeyReleaseDelay: int := 5
  const RightPaddleSpeed: int := 3

  /** Largest paddle Y that keeps the whole paddle on screen (420). */
  const PaddleMaxY: int := ScreenHeight - PaddleHeight
  /** Ball X at or beyond which the left player scores (630). */
  const BallMaxX: int := ScreenWidth - BallSize
  /** Ball Y at or beyond which the ball bounces off the bottom wall (470). */
  const BallMaxY: int := ScreenHeight - BallSize
  /** Ball X after bouncing off the left paddle: its inner face (30). */
  const LeftPaddleFace: int := PaddleOffset + PaddleWidth
  /** Ball X after bouncing off the right paddle: one ball width left of its inner face (600). */
  const RightPaddleFace: int := ScreenWidth - PaddleOffset - PaddleWidth - BallSize

  datatype Game = Game(
    leftPaddleY: int,
    rightPaddleY: int,
    ballX: int,
    ballY: int,
    ballVelX: int,
    ballVelY: int,
    leftScore: int,
    rightScore: int,
    active: bool,
    keyW: bool,
    keyS: bool,
    /** Ticks since the last W/S press (the auto-release counter). */
    releaseTimer: int,
    /** Direction of the computer-driven right paddle: 1 = down, -1 = up. */
    rightPaddleDir: int)

  /** The ball's part of the state, as `update_game` loads it into locals. */
  datatype Ball = Ball(x: int, y: int, velX: int, velY: int)

  function Abs(x: int): int { if x < 0 then -x else x }
  function Min(a: int, b: int): int { if a <= b then a else b }
  function Max(a: int, b: int): int { if a >= b then a else b }

  /**
   * Initial values of the statics, before `init_game` runs: everything
   * centred, serving down-right at (2, 2), scores 0–0, the game inactive,
   * no key held, the counter at 0 and the right paddle heading down.
   */
  function Statics(): (r: Game)
    ensures r.leftPaddleY == 210 && r.rightPaddleY == 210
    ensures r.ballX == 315 && r.ballY == 235
    ensures r.ballVelX == 2 && r.ballVelY == 2
    ensures r.leftScore == 0 && r.rightScore == 0
    ensures !r.active && !r.keyW && !r.keyS
    ensures r.releaseTimer == 0 && r.rightPaddleDir == 1
  {
    Game(
      (ScreenHeight - PaddleHeight) / 2, (ScreenHeight - PaddleHeight) / 2,
      (ScreenWidth - BallSize) / 2, (ScreenHeight - BallSize) / 2,
      InitialBallSpeedX, InitialBallSpeedY,
      0, 0,
      false, false, false,
      0, 1)
  }

  /**
   * `init_game`: both paddles centred, ball centred moving down-right, scores
   * cleared, game active, keys released, right paddle heading down. The
   * auto-release counter is the one field it does not touch.
   */
  function InitGame(g: Game): (r: Game)
    ensures r.leftPaddleY == 210 && r.rightPaddleY == 210
    ensures r.ballX == 315 && r.ballY == 235
    ensures r.ballVelX == 2 && r.ballVelY == 2
    ensures r.leftScore == 0 && r.rightScore == 0
    ensures r.active && !r.keyW && !r.keyS
    ensures r.rightPaddleDir == 1
    ensures r.releaseTimer == g.releaseTimer
  {
    g.(leftPaddleY := (ScreenHeight - PaddleHeight) / 2,
       rightPaddleY := (ScreenHeight - PaddleHeight) / 2,
       ballX := (ScreenWidth - BallSize) / 2,
       ballY := (ScreenHeight - BallSize) / 2,
       ballVelX := InitialBallSpeedX,
       ballVelY := InitialBallSpeedY,
       leftScore := 0,
       rightScore := 0,
       active := true,
       keyW := false,
       keyS := false,
       rightPaddleDir := 1)
  }

  /** `set_key_w`: record the W flag; a press also restarts the auto-release counter. */
  function SetKeyW(g: Game, pressed: bool): (r: Game)
    ensures r.keyW == pressed
    ensures pressed ==> r.releaseTimer == 0
    ensures !pressed ==> r.releaseTimer == g.releaseTimer
    ensures r.(keyW := g.keyW, releaseTimer := g.releaseTimer) == g
  {
    if pressed then g.(keyW := true, releaseTimer := 0) else g.(keyW := false)
  }

  /** `set_key_s`: record the S flag; a press also restarts the auto-release counter. */
  function SetKeyS(g: Game, pressed: bool): (r: Game)
    ensures r.keyS == pressed
    ensures pressed ==> r.releaseTimer == 0
    ensures !pressed ==> r.releaseTimer == g.releaseTimer
    ensures r.(keyS := g.keyS, releaseTimer := g.releaseTimer) == g
  {
    if pressed then g.(keyS := true, releaseTimer := 0) else g.(keyS := false)
  }

  /** `start_game`: sets the active flag and nothing else (no reset of positions or scores). */
  function StartGame(g: Game): (r: Game)
    ensures r.active
    ensures r.(active := g.active) == g
  {
    g.(active := true)
  }

  /** `move_left_paddle_up`: five units up, stopping at the top edge; inert while inactive. */
  function MoveLeftPaddleUp(g: Game): (r: Game)
    ensures !g.active ==> r == g
    ensures g.active ==> r.leftPaddleY == Max(0, g.leftPaddleY - PaddleSpeed)
    ensures g.active ==> r.leftPaddleY >= 0
    ensures r.(leftPaddleY := g.leftPaddleY) == g
  {
    if !g.active then g
    else if g.leftPaddleY > PaddleSpeed then g.(leftPaddleY := g.leftPaddleY - PaddleSpeed)
    else g.(leftPaddleY := 0)
  }

  /** `move_left_paddle_down`: five units down, stopping at the bottom edge; inert while inactive. */
  function MoveLeftPaddleDown(g: Game): (r: Game)
    ensures !g.active ==> r == g
    ensures g.active ==> r.leftPaddleY == Min(PaddleMaxY, g.leftPaddleY + PaddleSpeed)
    ensures g.active ==> r.leftPaddleY <= PaddleMaxY
    ensures r.(leftPaddleY := g.leftPaddleY) == g
  {
    if !g.active then g
    else if g.leftPaddleY < PaddleMaxY - PaddleSpeed then g.(leftPaddleY := g.leftPaddleY + PaddleSpeed)
    else g.(leftPaddleY := PaddleMaxY)
  }

  /** Left paddle Y after the up move (if `up`) and then the down move (if `down`), each clamped to the screen. */
  function LeftPaddleAfterKeys(y: int, up: bool, down: bool): int {
    var y' := if up then Max(0, y - PaddleSpeed) else y;
    if down then Min(PaddleMaxY, y' + PaddleSpeed) else y'
  }

  /** First step of a tick: count the tick; once the count before it reached the delay, release both keys. */
  function AutoRelease(g: Game): Game {
    if g.releaseTimer >= KeyReleaseDelay then g.(releaseTimer := 0, keyW := false, keyS := false)
    else g.(releaseTimer := g.releaseTimer + 1)
  }

  /** Second step of a tick: apply the held keys to the left paddle, up first, then down. */
  function MoveByKeys(g: Game): Game {
    var up := if g.keyW then MoveLeftPaddleUp(g) else g;
    if up.keyS then MoveLeftPaddleDown(up) else up
  }

  /**
   * Third step of a tick: the right paddle's oscillation, from the Y and
   * direction loaded at the start of the step. The edge test first stores a
   * direction; the move then overwrites it whenever the paddle reaches an edge.
   */
  function StepRightPaddle(y: int, dir: int): (r: (int, int))
    ensures dir > 0 ==> r.0 == Min(y + RightPaddleSpeed, PaddleMaxY)
    ensures dir <= 0 ==> r.0 == Max(y - RightPaddleSpeed, 0)
    ensures r.0 == PaddleMaxY ==> r.1 == -1
    ensures r.0 == 0 ==> r.1 == 1
    ensures 0 <= y <= PaddleMaxY && (dir == 1 || dir == -1) ==>
      && 0 <= r.0 <= PaddleMaxY
      && (r.1 == 1 || r.1 == -1)
      && -RightPaddleSpeed <= r.0 - y <= RightPaddleSpeed
      && (0 < r.0 < PaddleMaxY ==> r.1 == dir)
  {
    var stored := if y <= 0 then 1 else if y >= PaddleMaxY then -1 else dir;
    if dir > 0 then
      if y < PaddleMaxY - RightPaddleSpeed then (y + RightPaddleSpeed, stored) else (PaddleMaxY, -1)
    else
      if y > RightPaddleSpeed then (y - RightPaddleSpeed, stored) else (0, 1)
  }

  /**
   * Steps 1-3 of an active tick: auto-release, the left paddle by the held
   * keys, the right paddle's oscillation. The ball and scores are untouched.
   */
  function Players(g: Game): (r: Game)
    requires g.active
    ensures r.releaseTimer == (if g.releaseTimer >= KeyReleaseDelay then 0 else g.releaseTimer + 1)
    ensures r.keyW == (g.keyW && g.releaseTimer < KeyReleaseDelay)
    ensures r.keyS == (g.keyS && g.releaseTimer < KeyReleaseDelay)
    ensures r.leftPaddleY == LeftPaddleAfterKeys(g.leftPaddleY, r.keyW, r.keyS)
    ensures (r.rightPaddleY, r.rightPaddleDir) == StepRightPaddle(g.rightPaddleY, g.rightPaddleDir)
    ensures r.(leftPaddleY := g.leftPaddleY, rightPaddleY := g.rightPaddleY, rightPaddleDir := g.rightPaddleDir,
               releaseTimer := g.releaseTimer, keyW := g.keyW, keyS := g.keyS) == g
  {
    var keyed := MoveByKeys(AutoRelease(g));
    var (rightY, rightDir) := StepRightPaddle(g.rightPaddleY, g.rightPaddleDir);
    keyed.(rightPaddleY := rightY, rightPaddleDir := rightDir)
  }

  function BallOf(g: Game): Ball {
    Ball(g.ballX, g.ballY, g.ballVelX, g.ballVelY)
  }

  /** The ball after this tick's integration and wall test, before any paddle test. */
  function Flight(g: Game): (b: Ball)
    ensures b.x == g.ballX + g.ballVelX && b.y == g.ballY + g.ballVelY && b.velX == g.ballVelX
    ensures b.velY == g.ballVelY || b.velY == -g.ballVelY
    ensures b.y <= 0 || b.y >= BallMaxY ==> b.velY == -g.ballVelY
    ensures 0 < b.y < BallMaxY ==> b.velY == g.ballVelY
  {
    var x, y := g.ballX + g.ballVelX, g.ballY + g.ballVelY;
    var vy := if y <= 0 || y >= BallMaxY then -g.ballVelY else g.ballVelY;
    Ball(x, y, g.ballVelX, vy)
  }

  /** A paddle hit negates the horizontal velocity and adds one unit of speed. */
  function Rebound(v: int): (r: int)
    ensures Abs(r) == Abs(v) + 1
    ensures v > 0 ==> r < 0
    ensures v < 0 ==> r > 0
  {
    var flipped := -v;
    if flipped < 0 then flipped - 1 else flipped + 1
  }

  /** The ball's left edge is within the left paddle's band and the two overlap vertically. */
  predicate HitsLeftPaddle(b: Ball, paddleY: int) {
    && b.x <= PaddleOffset + PaddleWidth
    && b.x >= PaddleOffset
    && b.y + BallSize >= paddleY
    && b.y <= paddleY + PaddleHeight
  }

  /** The ball's right edge is within the right paddle's band and the two overlap vertically. */
  predicate HitsRightPaddle(b: Ball, paddleY: int) {
    && b.x + BallSize >= ScreenWidth - PaddleOffset - PaddleWidth
    && b.x + BallSize <= ScreenWidth - PaddleOffset
    && b.y + BallSize >= paddleY
    && b.y <= paddleY + PaddleHeight
  }

  /**
   * The two paddle tests, left first; the right test sees the ball as the left
   * one left it. At most one of them takes effect.
   */
  function Paddles(b: Ball, leftY: int, rightY: int): (r: Ball)
    ensures HitsLeftPaddle(b, leftY) ==>
      r == b.(x := LeftPaddleFace, velX := Rebound(b.velX))
    ensures !HitsLeftPaddle(b, leftY) && HitsRightPaddle(b, rightY) ==>
      r == b.(x := RightPaddleFace, velX := Rebound(b.velX))
    ensures !HitsLeftPaddle(b, leftY) && !HitsRightPaddle(b, rightY) ==> r == b
    ensures Abs(r.velX) <= Abs(b.velX) + 1
  {
    var afterLeft :=
      if HitsLeftPaddle(b, leftY) then b.(x := LeftPaddleFace, velX := Rebound(b.velX)) else b;
    if HitsRightPaddle(afterLeft, rightY) then afterLeft.(x := RightPaddleFace, velX := Rebound(afterLeft.velX))
    else afterLeft
  }

  /** The ball at the end of a tick's physics, given the left paddle's Y after this tick's keys. */
  function Struck(g: Game, leftY: int): Ball {
    Paddles(Flight(g), leftY, g.rightPaddleY)
  }

  /**
   * `reset_ball`: ball back to the centre, vertical speed 2, horizontal speed 2
   * pointing the opposite way from the STORED horizontal velocity (a stored
   * zero counts as rightwards).
   */
  function ResetBall(g: Game): (r: Game)
    ensures r.ballX == 315 && r.ballY == 235
    ensures r.ballVelY == 2
    ensures Abs(r.ballVelX) == 2
    ensures r.ballVelX > 0 <==> g.ballVelX < 0
    ensures r.(ballX := g.ballX, ballY := g.ballY, ballVelX := g.ballVelX, ballVelY := g.ballVelY) == g
  {
    g.(ballX := (ScreenWidth - BallSize) / 2,
       ballY := (ScreenHeight - BallSize) / 2,
       ballVelX := if g.ballVelX < 0 then InitialBallSpeedX else -InitialBallSpeedX,
       ballVelY := InitialBallSpeedY)
  }

  /**
   * Steps 7-8 of an active tick, given the players' state `m` and the ball `b`
   * at the end of the physics: a ball at or past the left edge is a point for
   * the right player, one at or past the right edge a point for the left
   * player, and either resets the ball from `m`'s stored velocity; otherwise
   * `b` is stored.
   */
  function Settle(m: Game, b: Ball): (r: Game)
    ensures r.rightScore == m.rightScore + (if b.x <= 0 then 1 else 0)
    ensures r.leftScore == m.leftScore + (if b.x >= BallMaxX then 1 else 0)
    ensures b.x <= 0 || b.x >= BallMaxX ==> r == ResetBall(r.(ballVelX := m.ballVelX))
    ensures 0 < b.x < BallMaxX ==> BallOf(r) == b
    ensures r.(ballX := m.ballX, ballY := m.ballY, ballVelX := m.ballVelX, ballVelY := m.ballVelY,
               leftScore := m.leftScore, rightScore := m.rightScore) == m
  {
    if b.x <= 0 then
      ResetBall(m.(rightScore := m.rightScore + 1))
    else if b.x >= BallMaxX then
      ResetBall(m.(leftScore := m.leftScore + 1))
    else
      m.(ballX := b.x, ballY := b.y, ballVelX := b.velX, ballVelY := b.velY)
  }

  /** A tick changed a score. */
  predicate Scored(g: Game, r: Game) {
    r.leftScore != g.leftScore || r.rightScore != g.rightScore
  }

  /**
   * `update_game`: one fixed simulation step. Inert while inactive; otherwise
   * auto-release, left paddle, right paddle, ball integration, walls, paddles,
   * then either a score (ball reset, this tick's ball values discarded) or the
   * new ball values stored.
   */
  function UpdateGame(g: Game): (r: Game)
    // an inactive game is left exactly as it is, and no tick changes the flag
    ensures !g.active ==> r == g
    ensures r.active == g.active
    // auto-release counter and flags
    ensures g.active ==>
      r.releaseTimer == (if g.releaseTimer >= KeyReleaseDelay then 0 else g.releaseTimer + 1)
    ensures g.active ==> (r.keyW <==> g.keyW && g.releaseTimer < KeyReleaseDelay)
    ensures g.active ==> (r.keyS <==> g.keyS && g.releaseTimer < KeyReleaseDelay)
    ensures 0 <= g.releaseTimer <= KeyReleaseDelay ==> 0 <= r.releaseTimer <= KeyReleaseDelay
    // left paddle: up by the surviving W flag, then down by the surviving S flag, clamped
    ensures g.active ==> r.leftPaddleY == LeftPaddleAfterKeys(g.leftPaddleY, r.keyW, r.keyS)
    ensures 0 <= g.leftPaddleY <= PaddleMaxY ==> 0 <= r.leftPaddleY <= PaddleMaxY
    // right paddle
    ensures g.active ==> (r.rightPaddleY, r.rightPaddleDir) == StepRightPaddle(g.rightPaddleY, g.rightPaddleDir)
    ensures 0 <= g.rightPaddleY <= PaddleMaxY && (g.rightPaddleDir == 1 || g.rightPaddleDir == -1) ==>
      && 0 <= r.rightPaddleY <= PaddleMaxY
      && (r.rightPaddleDir == 1 || r.rightPaddleDir == -1)
      && -RightPaddleSpeed <= r.rightPaddleY - g.rightPaddleY <= RightPaddleSpeed
    // paddle collisions (the right test uses the right paddle's Y from before this tick's move)
    ensures g.active && HitsLeftPaddle(Flight(g), r.leftPaddleY) ==>
      && !Scored(g, r)
      && r.ballX == LeftPaddleFace
      && r.ballVelX == Rebound(g.ballVelX)
    ensures g.active && !HitsLeftPaddle(Flight(g), r.leftPaddleY) && HitsRightPaddle(Flight(g), g.rightPaddleY) ==>
      && !Scored(g, r)
      && r.ballX == RightPaddleFace
      && r.ballVelX == Rebound(g.ballVelX)
    ensures !Scored(g, r) ==> Abs(r.ballVelX) <= Abs(g.ballVelX) + 1
    // scoring
    ensures r.leftScore == g.leftScore || r.leftScore == g.leftScore + 1
    ensures r.rightScore == g.rightScore || r.rightScore == g.rightScore + 1
    ensures !(r.leftScore != g.leftScore && r.rightScore != g.rightScore)
    ensures g.active ==> (r.rightScore != g.rightScore <==> Struck(g, r.leftPaddleY).x <= 0)
    ensures g.active ==> (r.leftScore != g.leftScore <==> Struck(g, r.leftPaddleY).x >= BallMaxX)
    ensures Scored(g, r) ==>
      && r.ballX == 315 && r.ballY == 235 && r.ballVelY == 2
      && Abs(r.ballVelX) == 2
      && (r.ballVelX > 0 <==> g.ballVelX < 0)
    ensures g.active && !Scored(g, r) ==>
      && 0 < r.ballX < BallMaxX
      && BallOf(r) == Struck(g, r.leftPaddleY)
    // vertical velocity is only ever negated or reset
    ensures r.ballVelY == g.ballVelY || r.ballVelY == -g.ballVelY || r.ballVelY == InitialBallSpeedY
  {
    if !g.active then g
    else
      var m := Players(g);
      Settle(m, Struck(g, m.leftPaddleY))
  }
}
