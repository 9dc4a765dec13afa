/**
 * Properties of the game that span more than one call: the state invariant
 * that `init_game` establishes and every tick keeps, the life of a key press
 * under auto-release, where the ball is served after a point, and worked
 * single ticks.
 */
module PongInvariant {
  import opened Pong

  /** The ball's vertical state: within one step of the walls, with a speed of 2, heading back in at a wall. */
  predicate BallYInv(g: Game) {
    && -1 <= g.ballY <= BallMaxY + 1
    && Abs(g.ballVelY) == InitialBallSpeedY
    && (g.ballY <= 0 ==> g.ballVelY > 0)
    && (g.ballY >= BallMaxY ==> g.ballVelY < 0)
  }

  /** What holds of the game after `init_game` and after every later tick. */
  predicate Inv(g: Game) {
    && 0 <= g.leftPaddleY <= PaddleMaxY
    && 0 <= g.rightPaddleY <= PaddleMaxY
    && (g.rightPaddleDir == 1 || g.rightPaddleDir == -1)
    && 0 <= g.releaseTimer <= KeyReleaseDelay
    && 0 < g.ballX < BallMaxX
    && g.ballVelX != 0
    && BallYInv(g)
    && 0 <= g.leftScore && 0 <= g.rightScore
  }

  lemma InitGameEstablishesInv(g: Game)
    requires 0 <= g.releaseTimer <= KeyReleaseDelay
    ensures Inv(InitGame(g))
  {
  }

  /**
   * The statics already hold the values `init_game` stores, so at boot
   * `init_game` only switches the game on; the statics satisfy the invariant.
   */
  lemma InitGameAtBootOnlyActivates()
    ensures InitGame(Statics()) == Statics().(active := true)
    ensures Inv(Statics())
  {
  }

  /** The paddle stage never moves the ball vertically nor changes its vertical speed. */
  lemma PaddlesKeepVertical(b: Ball, leftY: int, rightY: int)
    ensures Paddles(b, leftY, rightY).y == b.y
    ensures Paddles(b, leftY, rightY).velY == b.velY
    ensures Paddles(b, leftY, rightY).velX != 0 || b.velX == 0
  {
  }

  /** One tick keeps the invariant. */
  lemma UpdateGamePreservesInv(g: Game)
    requires Inv(g)
    ensures Inv(UpdateGame(g))
  {
  }

  /** `n` consecutive ticks with no other input. */
  function Ticks(g: Game, n: nat): Game
    decreases n
  {
    if n == 0 then g else Ticks(UpdateGame(g), n - 1)
  }

  lemma {:induction false} TicksPreserveInv(g: Game, n: nat)
    requires Inv(g)
    ensures Inv(Ticks(g, n))
    ensures Ticks(g, n).leftScore >= g.leftScore && Ticks(g, n).rightScore >= g.rightScore
    ensures Ticks(g, n).leftScore + Ticks(g, n).rightScore <= g.leftScore + g.rightScore + n
    decreases n
  {
    if n > 0 {
      UpdateGamePreservesInv(g);
      TicksPreserveInv(UpdateGame(g), n - 1);
    }
  }

  /** A tick that does not trigger auto-release keeps both keys, counts up, and moves the left paddle by them. */
  lemma TickKeepsKeys(t: Game)
    requires t.active && t.releaseTimer < KeyReleaseDelay
    ensures UpdateGame(t).active
    ensures UpdateGame(t).keyW == t.keyW && UpdateGame(t).keyS == t.keyS
    ensures UpdateGame(t).releaseTimer == t.releaseTimer + 1
    ensures UpdateGame(t).leftPaddleY == LeftPaddleAfterKeys(t.leftPaddleY, t.keyW, t.keyS)
  {
  }

  /** The last of `n + 1` ticks is one tick after the first `n`. */
  lemma {:induction false} TicksLast(g: Game, n: nat)
    ensures Ticks(g, n + 1) == UpdateGame(Ticks(g, n))
    decreases n
  {
    if n > 0 {
      TicksLast(UpdateGame(g), n - 1);
    }
  }

  /**
   * While the counter has not reached the release threshold, a held key stays
   * held and the counter counts up with the ticks: from a fresh press (counter
   * 0), for five ticks.
   */
  lemma {:induction false} HeldKeyLastsFiveTicks(g: Game, n: nat)
    requires g.active && g.releaseTimer + n <= KeyReleaseDelay
    ensures Ticks(g, n).active
    ensures Ticks(g, n).keyW == g.keyW && Ticks(g, n).keyS == g.keyS
    ensures Ticks(g, n).releaseTimer == g.releaseTimer + n
    decreases n
  {
    if n > 0 {
      TickKeepsKeys(g);
      HeldKeyLastsFiveTicks(UpdateGame(g), n - 1);
    }
  }

  /** Over those ticks a lone held W moves the left paddle up one clamped step (5 units) per tick. */
  lemma {:induction false} HeldWMovesPaddleUp(g: Game, n: nat)
    requires g.active && g.releaseTimer + n <= KeyReleaseDelay && g.keyW && !g.keyS
    requires 0 <= g.leftPaddleY <= PaddleMaxY
    ensures Ticks(g, n).leftPaddleY == Max(0, g.leftPaddleY - 5 * n)
    decreases n
  {
    if n > 0 {
      TickKeepsKeys(g);
      HeldWMovesPaddleUp(UpdateGame(g), n - 1);
    }
  }

  /** Over those ticks a lone held S moves the left paddle down one clamped step (5 units) per tick. */
  lemma {:induction false} HeldSMovesPaddleDown(g: Game, n: nat)
    requires g.active && g.releaseTimer + n <= KeyReleaseDelay && g.keyS && !g.keyW
    requires 0 <= g.leftPaddleY <= PaddleMaxY
    ensures Ticks(g, n).leftPaddleY == Min(PaddleMaxY, g.leftPaddleY + 5 * n)
    decreases n
  {
    if n > 0 {
      TickKeepsKeys(g);
      HeldSMovesPaddleDown(UpdateGame(g), n - 1);
    }
  }

  /** On the sixth tick after a press both keys are released, the counter restarts and the left paddle stays put. */
  lemma AutoReleaseOnSixthTick(g: Game)
    requires g.active && g.releaseTimer == 0
    ensures Ticks(g, 5).keyW == g.keyW && Ticks(g, 5).keyS == g.keyS
    ensures !Ticks(g, 6).keyW && !Ticks(g, 6).keyS
    ensures Ticks(g, 6).releaseTimer == 0
    ensures Ticks(g, 6).leftPaddleY == Ticks(g, 5).leftPaddleY
  {
    HeldKeyLastsFiveTicks(g, 5);
    TicksLast(g, 5);
  }

  /**
   * After a point the ball is served towards the player who scored: a ball
   * that left on the left side comes back moving right, and vice versa.
   */
  lemma ServeTowardsScorer(g: Game)
    requires Inv(g)
    ensures UpdateGame(g).rightScore > g.rightScore ==> UpdateGame(g).ballVelX == InitialBallSpeedX
    ensures UpdateGame(g).leftScore > g.leftScore ==> UpdateGame(g).ballVelX == -InitialBallSpeedX
  {
    var r := UpdateGame(g);
    if Scored(g, r) {
      var b := Struck(g, r.leftPaddleY);
      assert !HitsLeftPaddle(Flight(g), r.leftPaddleY);
      assert !HitsRightPaddle(Flight(g), g.rightPaddleY);
      assert b.x == g.ballX + g.ballVelX;
    }
  }

  /** A ball 15 units from the left edge moving left at speed 2 lands at 13, outside the paddle band: no hit, no point. */
  lemma LeftBandMissExample()
    ensures var g := Statics().(active := true, ballX := 15, ballY := 240, ballVelX := -2, ballVelY := 0);
      && UpdateGame(g).ballX == 13
      && UpdateGame(g).ballVelX == -2
      && !Scored(g, UpdateGame(g))
  {
  }

  /** A ball landing at 23, inside the band, in front of the centred left paddle, bounces to 30 with speed 3. */
  lemma LeftPaddleHitExample()
    ensures var g := Statics().(active := true, ballX := 25, ballY := 240, ballVelX := -2, ballVelY := 0);
      && UpdateGame(g).ballX == LeftPaddleFace
      && UpdateGame(g).ballVelX == 3
      && !Scored(g, UpdateGame(g))
  {
  }

  /** A ball 2 units from the left edge moving left at speed 3 is a point for the right player and is served rightwards. */
  lemma RightScoresExample()
    ensures var g := Statics().(active := true, ballX := 2, ballY := 240, ballVelX := -3, ballVelY := 0);
      && UpdateGame(g).rightScore == 1
      && UpdateGame(g).leftScore == 0
      && UpdateGame(g).ballX == 315 && UpdateGame(g).ballY == 235
      && UpdateGame(g).ballVelX == 2 && UpdateGame(g).ballVelY == 2
  {
  }
}
