/** The rules of one frame of the game, as values: the game's global state is a `World`
    and one call of `Update` in main.c is the function `Next`.  The class in game.dfy
    performs the same frame step by step on fields and is proved equal to `Next`.

    Coordinates are screen pixels, y growing downwards.  Note the sign convention of
    the source: the ball moves by MINUS `ballDir` times its speed, so `ballDir.x == 1`
    carries the ball to the left (towards player A) and `ballDir.x == -1` to the right. */
module Rules {
  import opened Raylib

  /** NUM_FRAMES: the racket texture holds two sprite frames stacked vertically. */
  const NumFrames: real := 2.0
  /** racketSpeed: pixels a paddle moves per frame. */
  const RacketSpeed: real := 5.0
  /** ballSpeed: pixels the ball moves per frame along each axis, per unit of ballDir. */
  const BallSpeed: real := 5.0
  /** Horizontal distance of each paddle's centre from its edge of the screen. */
  const PaddleInset: real := 20.0
  /** Divisor turning the contact offset into the new vertical direction. */
  const BounceDivisor: real := -90.0

  /** What the frame reads from raylib and the loaded textures, fixed for a run:
      the screen size and the pixel size of the racket and ball textures. */
  datatype Config = Config(
    screenWidth: nat, screenHeight: nat,
    racketTexWidth: nat, racketTexHeight: nat,
    ballTexWidth: nat, ballTexHeight: nat)

  /** The key state polled in one frame: IsKeyDown for W, S, UP and DOWN and
      IsKeyPressed for SPACE. */
  datatype Keys = Keys(keyW: bool, keyS: bool, keyUp: bool, keyDown: bool, spacePressed: bool)

  /** The game's globals: the two paddle positions, the ball position, its direction
      vector, the launch flag and the two score counters. */
  datatype World = World(
    playerA: Vec2, playerB: Vec2,
    ball: Vec2, ballDir: Vec2,
    launched: bool,
    scoreA: int, scoreB: int)

  function ScreenW(cfg: Config): real { cfg.screenWidth as real }
  function ScreenH(cfg: Config): real { cfg.screenHeight as real }

  /** Half the height of one racket sprite frame: the paddle's half-height. */
  function HalfRacket(cfg: Config): real { cfg.racketTexHeight as real / 2.0 / NumFrames }

  /** racketRec's width and height: one sprite frame of the racket texture. */
  function RacketRecWidth(cfg: Config): real { cfg.racketTexWidth as real }
  function RacketRecHeight(cfg: Config): real { cfg.racketTexHeight as real / NumFrames }

  /** The screen is tall enough for a whole paddle. */
  predicate Fits(cfg: Config)
  {
    ScreenH(cfg) >= 2.0 * HalfRacket(cfg)
  }

  /** The band a paddle centre cannot leave: the movement guards stop it at most one
      step beyond its half-height from either edge. */
  predicate InBand(cfg: Config, y: real)
  {
    HalfRacket(cfg) - RacketSpeed <= y <= ScreenH(cfg) - HalfRacket(cfg) + RacketSpeed
  }

  predicate PaddlesInBand(cfg: Config, w: World)
  {
    InBand(cfg, w.playerA.y) && InBand(cfg, w.playerB.y)
  }

  /** What every reachable state satisfies: the ball always heads straight left or
      right (|ballDir.x| == 1), the paddles never leave their columns, scores are
      non-negative, and a ball waiting for launch sits at the centre of the screen with
      no vertical direction. */
  predicate Invariant(cfg: Config, w: World)
  {
    (w.ballDir.x == 1.0 || w.ballDir.x == -1.0) &&
    w.playerA.x == PaddleInset && w.playerB.x == ScreenW(cfg) - PaddleInset &&
    w.scoreA >= 0 && w.scoreB >= 0 &&
    (!w.launched ==> w.ball == BallStart(cfg) && w.ballDir.y == 0.0)
  }

  function PlayerAStart(cfg: Config): Vec2 { Vec2(PaddleInset, ScreenH(cfg) / 2.0) }
  function PlayerBStart(cfg: Config): Vec2 { Vec2(ScreenW(cfg) - PaddleInset, ScreenH(cfg) / 2.0) }
  function BallStart(cfg: Config): Vec2 { Vec2(ScreenW(cfg) / 2.0, ScreenH(cfg) / 2.0) }

  /** The state before the first frame: the globals' initialisers and the positions
      set by Start. */
  function Initial(cfg: Config): (w: World)
    ensures Invariant(cfg, w)
    ensures Fits(cfg) ==> PaddlesInBand(cfg, w)
    ensures w.scoreA == 0 && w.scoreB == 0 && !w.launched
    ensures w.ballDir == Vec2(1.0, 0.0)
    ensures w.playerA.y == w.playerB.y == w.ball.y == ScreenH(cfg) / 2.0
  {
    World(PlayerAStart(cfg), PlayerBStart(cfg), BallStart(cfg), Vec2(1.0, 0.0), false, 0, 0)
  }

  /** One paddle's move for the frame: the up move is tried first and, only when its
      key is up or its guard `y >= halfH` fails, the down move under its own guard
      (else-if); each guard tests the paddle's current position. */
  function MovePaddle(cfg: Config, y: real, upKey: bool, downKey: bool): (r: real)
    ensures r == y - RacketSpeed || r == y || r == y + RacketSpeed
    ensures r < y <==> upKey && y >= HalfRacket(cfg)
    ensures r > y <==> !(upKey && y >= HalfRacket(cfg)) && downKey && y <= ScreenH(cfg) - HalfRacket(cfg)
    ensures !upKey && !downKey ==> r == y
    ensures InBand(cfg, y) ==> InBand(cfg, r)
  {
    if upKey && y >= HalfRacket(cfg) then y - RacketSpeed
    else if downKey && y <= ScreenH(cfg) - HalfRacket(cfg) then y + RacketSpeed
    else y
  }

  /** How far the ball moves in one frame while heading in direction dir. */
  function Motion(dir: Vec2): Vec2
  {
    Vec2(-dir.x * BallSpeed, -dir.y * BallSpeed)
  }

  /** The fixed-speed step of a launched ball: opposite to ballDir, as the source
      subtracts it. */
  function AdvanceBall(p: Vec2, dir: Vec2): Vec2
  {
    Vec2(p.x + Motion(dir).x, p.y + Motion(dir).y)
  }

  /** The collision rectangles, as written in the source: the ball's texture with its
      top-left corner at the ball's position, and one racket frame per paddle.  Paddle
      B's rectangle is centred on paddle B; paddle A's has its left edge at paddle A's
      centre plus half the racket width, one full racket width right of centred. */
  function BallRect(cfg: Config, ball: Vec2): Rect
  {
    Rect(ball.x, ball.y, cfg.ballTexWidth as real, cfg.ballTexHeight as real)
  }

  function PaddleARect(cfg: Config, pa: Vec2): Rect
  {
    Rect(pa.x + RacketRecWidth(cfg) / 2.0, pa.y - RacketRecHeight(cfg) / 2.0,
         RacketRecWidth(cfg), RacketRecHeight(cfg))
  }

  function PaddleBRect(cfg: Config, pb: Vec2): Rect
  {
    Rect(pb.x - RacketRecWidth(cfg) / 2.0, pb.y - RacketRecHeight(cfg) / 2.0,
         RacketRecWidth(cfg), RacketRecHeight(cfg))
  }

  predicate HitsA(cfg: Config, ball: Vec2, pa: Vec2)
  {
    CheckCollisionRecs(BallRect(cfg, ball), PaddleARect(cfg, pa))
  }

  predicate HitsB(cfg: Config, ball: Vec2, pb: Vec2)
  {
    CheckCollisionRecs(BallRect(cfg, ball), PaddleBRect(cfg, pb))
  }

  predicate AtBottomWall(cfg: Config, ball: Vec2)
  {
    ball.y >= ScreenH(cfg) - cfg.ballTexHeight as real / 2.0
  }

  predicate AtTopWall(cfg: Config, ball: Vec2)
  {
    ball.y <= 0.0 + cfg.ballTexHeight as real / 2.0
  }

  /** The direction after the bounce tests on the stepped ball, tried in order: left
      paddle, right paddle, bottom wall, top wall.  A paddle hit sends the ball away
      from that paddle at full horizontal speed, deflected vertically in proportion to
      its offset from the paddle centre (gain BallSpeed / 90); a wall flips the vertical
      direction only. */
  function Bounce(cfg: Config, ball: Vec2, pa: Vec2, pb: Vec2, dir: Vec2): (d: Vec2)
    ensures HitsA(cfg, ball, pa) ==>
      Motion(d) == Vec2(BallSpeed, (ball.y - pa.y) * BallSpeed / 90.0)
    ensures !HitsA(cfg, ball, pa) && HitsB(cfg, ball, pb) ==>
      Motion(d) == Vec2(-BallSpeed, (ball.y - pb.y) * BallSpeed / 90.0)
    ensures !HitsA(cfg, ball, pa) && !HitsB(cfg, ball, pb) ==>
      d.x == dir.x &&
      d.y == (if AtBottomWall(cfg, ball) || AtTopWall(cfg, ball) then -dir.y else dir.y)
    ensures (dir.x == 1.0 || dir.x == -1.0) ==> (d.x == 1.0 || d.x == -1.0)
  {
    if HitsA(cfg, ball, pa) then
      Vec2(-1.0, (ball.y - pa.y) / BounceDivisor)
    else if HitsB(cfg, ball, pb) then
      Vec2(1.0, (ball.y - pb.y) / BounceDivisor)
    else if AtBottomWall(cfg, ball) then
      dir.(y := dir.y * -1.0)
    else if AtTopWall(cfg, ball) then
      dir.(y := dir.y * -1.0)
    else
      dir
  }

  /** The state after a point: everything back at its start position, the launch
      flag cleared, and the ball aimed at the player who conceded. */
  function ResetAfterPoint(cfg: Config, dir: Vec2, scoreA: int, scoreB: int): World
  {
    World(PlayerAStart(cfg), PlayerBStart(cfg), BallStart(cfg), dir, false, scoreA, scoreB)
  }

  /** A point was scored between w and r. */
  predicate Scored(w: World, r: World)
  {
    r.scoreA + r.scoreB > w.scoreA + w.scoreB
  }

  /** One frame: both paddles move, SPACE launches, and a launched ball steps,
      bounces, and scores a point when it reaches either side. */
  function Next(cfg: Config, w: World, keys: Keys): (r: World)
    // Scores never decrease, and at most one point is scored per frame.
    ensures r.scoreA >= w.scoreA && r.scoreB >= w.scoreB
    ensures r.scoreA + r.scoreB <= w.scoreA + w.scoreB + 1
    // The launch flag: set by SPACE or already set, cleared exactly when a point is scored.
    ensures r.launched <==> (w.launched || keys.spacePressed) && !Scored(w, r)
    ensures Scored(w, r) ==> w.launched || keys.spacePressed
    // A ball that is not launched stays where it is and nobody scores.
    ensures !(w.launched || keys.spacePressed) ==>
      r.ball == w.ball && r.ballDir == w.ballDir && r.scoreA == w.scoreA && r.scoreB == w.scoreB
    // Without a point each paddle makes its own guarded move; the columns are unchanged.
    ensures !Scored(w, r) ==>
      r.playerA == w.playerA.(y := MovePaddle(cfg, w.playerA.y, keys.keyW, keys.keyS)) &&
      r.playerB == w.playerB.(y := MovePaddle(cfg, w.playerB.y, keys.keyUp, keys.keyDown))
    // Reaching the left side scores for player B and resets everything, aiming left.
    ensures (w.launched || keys.spacePressed) && AdvanceBall(w.ball, w.ballDir).x <= 0.0 ==>
      r == Initial(cfg).(scoreA := w.scoreA, scoreB := w.scoreB + 1)
    // Reaching the right side scores for player A and resets everything, aiming right.
    ensures (w.launched || keys.spacePressed) && !(AdvanceBall(w.ball, w.ballDir).x <= 0.0) &&
            AdvanceBall(w.ball, w.ballDir).x >= ScreenW(cfg) ==>
      r == Initial(cfg).(ballDir := Vec2(-1.0, 0.0), scoreA := w.scoreA + 1, scoreB := w.scoreB)
    // Otherwise a launched ball takes its step and bounces off the MOVED paddles.
    ensures (w.launched || keys.spacePressed) && 0.0 < AdvanceBall(w.ball, w.ballDir).x < ScreenW(cfg) ==>
      !Scored(w, r) && r.ball == AdvanceBall(w.ball, w.ballDir) &&
      r.ballDir == Bounce(cfg, r.ball, r.playerA, r.playerB, w.ballDir)
    // The invariants are kept; the paddle band needs a screen tall enough to recentre in it.
    ensures Invariant(cfg, w) ==> Invariant(cfg, r)
    ensures Fits(cfg) && PaddlesInBand(cfg, w) ==> PaddlesInBand(cfg, r)
  {
    var pa := w.playerA.(y := MovePaddle(cfg, w.playerA.y, keys.keyW, keys.keyS));
    var pb := w.playerB.(y := MovePaddle(cfg, w.playerB.y, keys.keyUp, keys.keyDown));
    if !(w.launched || keys.spacePressed) then
      w.(playerA := pa, playerB := pb)
    else
      var ball := AdvanceBall(w.ball, w.ballDir);
      var dir := Bounce(cfg, ball, pa, pb, w.ballDir);
      if ball.x <= 0.0 then
        ResetAfterPoint(cfg, Vec2(1.0, 0.0), w.scoreA, w.scoreB + 1)
      else if ball.x >= ScreenW(cfg) then
        ResetAfterPoint(cfg, Vec2(-1.0, 0.0), w.scoreA + 1, w.scoreB)
      else
        World(pa, pb, ball, dir, true, w.scoreA, w.scoreB)
  }
}
