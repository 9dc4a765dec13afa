/**
 * The kernel's entry points into the game: the keyboard callback `key`,
 * which routes decoded keys to the game's setters, and the timer callback
 * `tick`, which runs one simulation step. At boot the game statics hold
 * their initial values and `init_game` runs once; after that the game only
 * changes through these two callbacks, one at a time.
 */
module Kernel {
  import opened Pong
  import opened PongInvariant

  /** Raw key codes, reduced to the two the router acts on and all others. */
  datatype KeyCode = W | S | OtherCode

  /** A decoded keyboard event: a character, or a key without one. */
  datatype Key = Unicode(c: char) | RawKey(code: KeyCode)

  predicate PressesW(k: Key) {
    k == Unicode('w') || k == RawKey(W)
  }

  predicate PressesS(k: Key) {
    k == Unicode('s') || k == RawKey(S)
  }

  /** Keys the router does not act on (it only echoes them). */
  predicate Inert(k: Key) {
    !PressesW(k) && !PressesS(k) && k != Unicode(' ') && k != Unicode('q')
  }

  /**
   * `key`: 'w' or raw W presses W, 's' or raw S presses S, space starts the
   * game and releases both keys, 'q' releases both keys; every other key
   * leaves the game alone.
   */
  function HandleKey(g: Game, k: Key): (r: Game)
    ensures PressesW(k) ==> r == g.(keyW := true, releaseTimer := 0)
    ensures PressesS(k) ==> r == g.(keyS := true, releaseTimer := 0)
    ensures k == Unicode(' ') ==> r == g.(active := true, keyW := false, keyS := false)
    ensures k == Unicode('q') ==> r == g.(keyW := false, keyS := false)
    ensures Inert(k) ==> r == g
    // no key moves a paddle or the ball, or touches a score
    ensures r.leftPaddleY == g.leftPaddleY && r.rightPaddleY == g.rightPaddleY
    ensures BallOf(r) == BallOf(g)
    ensures r.leftScore == g.leftScore && r.rightScore == g.rightScore
    ensures r.rightPaddleDir == g.rightPaddleDir
  {
    match k
    case Unicode(c) =>
      if c == 'w' then SetKeyW(g, true)
      else if c == 's' then SetKeyS(g, true)
      else if c == ' ' then SetKeyS(SetKeyW(StartGame(g), false), false)
      else if c == 'q' then SetKeyS(SetKeyW(g, false), false)
      else g
    case RawKey(code) =>
      match code
      case W => SetKeyW(g, true)
      case S => SetKeyS(g, true)
      case OtherCode => g
  }

  /** Handling the same key twice has the effect of handling it once. */
  lemma HandleKeyIdempotent(g: Game, k: Key)
    ensures HandleKey(HandleKey(g, k), k) == HandleKey(g, k)
  {
  }

  lemma HandleKeyPreservesInv(g: Game, k: Key)
    requires Inv(g)
    ensures Inv(HandleKey(g, k))
  {
  }

  /** `tick`: the timer callback delegates to exactly one `update_game` step. */
  function Tick(g: Game): (r: Game)
    ensures r == UpdateGame(g)
  {
    UpdateGame(g)
  }

  /** One interrupt the game sees. */
  datatype Event = TimerTick | KeyPress(key: Key)

  function Dispatch(g: Game, e: Event): Game {
    match e
    case TimerTick => Tick(g)
    case KeyPress(k) => HandleKey(g, k)
  }

  /** The game after the interrupts `es`, handled one at a time, in order. */
  function Run(g: Game, es: seq<Event>): Game
    decreases |es|
  {
    if |es| == 0 then g else Run(Dispatch(g, es[0]), es[1..])
  }

  /** The game as boot leaves it: the statics' initial values, then `init_game`. */
  function Boot(): (r: Game)
    ensures Inv(r)
    ensures r.active && r.releaseTimer == 0
  {
    InitGameEstablishesInv(Statics());
    InitGame(Statics())
  }

  /** Any interleaving of ticks and keys keeps the invariant, and scores never go down. */
  lemma {:induction false} RunPreservesInv(g: Game, es: seq<Event>)
    requires Inv(g)
    ensures Inv(Run(g, es))
    ensures Run(g, es).leftScore >= g.leftScore && Run(g, es).rightScore >= g.rightScore
    decreases |es|
  {
    if |es| > 0 {
      var g' := Dispatch(g, es[0]);
      match es[0] {
        case TimerTick => UpdateGamePreservesInv(g);
        case KeyPress(k) => HandleKeyPreservesInv(g, k);
      }
      RunPreservesInv(g', es[1..]);
    }
  }

  /**
   * From boot, whatever the interrupts: paddles on screen, the right paddle
   * heading up or down, the counter within [0, 5], and a vertical ball speed
   * of exactly 2.
   */
  lemma BootedGameInvariant(es: seq<Event>)
    ensures Inv(Run(Boot(), es))
    ensures Abs(Run(Boot(), es).ballVelY) == 2
  {
    RunPreservesInv(Boot(), es);
  }

  /**
   * After W is pressed (with S not held) and no further input arrives, the
   * left paddle moves up on each of the next five ticks and the key is
   * released on the sixth.
   */
  lemma PressWThenIdle(g: Game, k: Key)
    requires Inv(g) && g.active && !g.keyS
    requires PressesW(k)
    ensures var p := HandleKey(g, k);
      && Ticks(p, 5).keyW
      && Ticks(p, 5).leftPaddleY == Max(0, g.leftPaddleY - 5 * PaddleSpeed)
      && !Ticks(p, 6).keyW
      && Ticks(p, 6).leftPaddleY == Ticks(p, 5).leftPaddleY
  {
    var p := HandleKey(g, k);
    HeldKeyLastsFiveTicks(p, 5);
    HeldWMovesPaddleUp(p, 5);
    AutoReleaseOnSixthTick(p);
  }

  /** The same for S (with W not held): five ticks down, released on the sixth. */
  lemma PressSThenIdle(g: Game, k: Key)
    requires Inv(g) && g.active && !g.keyW
    requires PressesS(k)
    ensures var p := HandleKey(g, k);
      && Ticks(p, 5).keyS
      && Ticks(p, 5).leftPaddleY == Min(PaddleMaxY, g.leftPaddleY + 5 * PaddleSpeed)
      && !Ticks(p, 6).keyS
      && Ticks(p, 6).leftPaddleY == Ticks(p, 5).leftPaddleY
  {
    var p := HandleKey(g, k);
    HeldKeyLastsFiveTicks(p, 5);
    HeldSMovesPaddleDown(p, 5);
    AutoReleaseOnSixthTick(p);
  }
}
