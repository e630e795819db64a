/** The game as the source runs it: the globals of main.c as the fields of one object,
    initialised as Start does, and `Update` changing them in place, one statement after
    another, in the source's order.  Each frame is proved to have the effect `Next`
    gives it in rules.dfy, and to keep the game's invariants. */
module Game {
  import opened Raylib
  import opened Rules

  class Pong {
    /** Screen and texture sizes, fixed for the run. */
    const cfg: Config

    var playerA: Vec2
    var playerB: Vec2
    var ball: Vec2
    var ballDir: Vec2
    var ballLaunched: bool
    var playerAScore: int
    var playerBScore: int

    /** The globals as one value. */
    ghost function State(): World
      reads this
    {
      World(playerA, playerB, ball, ballDir, ballLaunched, playerAScore, playerBScore)
    }

    ghost predicate Valid()
      reads this
    {
      Invariant(cfg, State()) && (Fits(cfg) ==> PaddlesInBand(cfg, State()))
    }

    /** The globals' initialisers followed by Start's position set-up. */
    constructor (cfg: Config)
      ensures this.cfg == cfg
      ensures State() == Initial(cfg)
      ensures Valid()
    {
      this.cfg := cfg;
      ballLaunched := false;
      playerAScore := 0;
      playerBScore := 0;
      ballDir := Vec2(1.0, 0.0);
      playerA := Vec2(PaddleInset, cfg.screenHeight as real / 2.0);
      playerB := Vec2(cfg.screenWidth as real - PaddleInset, cfg.screenHeight as real / 2.0);
      ball := Vec2(cfg.screenWidth as real / 2.0, cfg.screenHeight as real / 2.0);
    }

    /** One frame of the game, driven by this frame's key state. */
    method Update(keys: Keys)
      requires Valid()
      modifies this
      ensures Valid()
      ensures State() == Next(cfg, old(State()), keys)
    {
      var screenW := cfg.screenWidth as real;
      var screenH := cfg.screenHeight as real;
      ghost var w := State();

      MovePaddles(keys);

      if keys.spacePressed {
        ballLaunched := true;
      }

      if ballLaunched {
        ball := ball.(x := ball.x - ballDir.x * BallSpeed);
        ball := ball.(y := ball.y - ballDir.y * BallSpeed);

        assert ball == AdvanceBall(w.ball, w.ballDir);
        BounceBall();

        if ball.x <= 0.0 {
          playerBScore := playerBScore + 1;
          ballLaunched := false;
          ball := Vec2(screenW / 2.0, screenH / 2.0);
          playerA := Vec2(PaddleInset, screenH / 2.0);
          playerB := Vec2(screenW - PaddleInset, screenH / 2.0);
          ballDir := Vec2(1.0, 0.0);
        } else if ball.x >= screenW {
          playerAScore := playerAScore + 1;
          ballLaunched := false;
          ball := Vec2(screenW / 2.0, screenH / 2.0);
          playerA := Vec2(PaddleInset, screenH / 2.0);
          playerB := Vec2(screenW - PaddleInset, screenH / 2.0);
          ballDir := Vec2(-1.0, 0.0);
        }
      }
    }

    /** Each paddle's guarded else-if move for this frame (main.c:69-85). */
    method MovePaddles(keys: Keys)
      modifies this`playerA, this`playerB
      ensures playerA == old(playerA).(y := MovePaddle(cfg, old(playerA.y), keys.keyW, keys.keyS))
      ensures playerB == old(playerB).(y := MovePaddle(cfg, old(playerB.y), keys.keyUp, keys.keyDown))
    {
      var halfRacket := cfg.racketTexHeight as real / 2.0 / NumFrames;
      var screenH := cfg.screenHeight as real;
      if keys.keyW && playerA.y >= halfRacket {
        playerA := playerA.(y := playerA.y - RacketSpeed);
      } else if keys.keyS && playerA.y <= screenH - halfRacket {
        playerA := playerA.(y := playerA.y + RacketSpeed);
      }

      if keys.keyUp && playerB.y >= halfRacket {
        playerB := playerB.(y := playerB.y - RacketSpeed);
      } else if keys.keyDown && playerB.y <= screenH - halfRacket {
        playerB := playerB.(y := playerB.y + RacketSpeed);
      }
    }

    /** The else-if chain of paddle and wall tests on the stepped ball (main.c:99-121). */
    method BounceBall()
      modifies this`ballDir
      ensures ballDir == Bounce(cfg, ball, playerA, playerB, old(ballDir))
    {
      var ballRect := Rect(ball.x, ball.y, cfg.ballTexWidth as real, cfg.ballTexHeight as real);
      var racketW := cfg.racketTexWidth as real;
      var racketH := cfg.racketTexHeight as real / NumFrames;
      if CheckCollisionRecs(ballRect, Rect(playerA.x + racketW / 2.0, playerA.y - racketH / 2.0, racketW, racketH)) {
        ballDir := ballDir.(x := -1.0);
        ballDir := ballDir.(y := (ball.y - playerA.y) / BounceDivisor);
      } else if CheckCollisionRecs(ballRect, Rect(playerB.x - racketW / 2.0, playerB.y - racketH / 2.0, racketW, racketH)) {
        ballDir := ballDir.(x := 1.0);
        ballDir := ballDir.(y := (ball.y - playerB.y) / BounceDivisor);
      } else if ball.y >= cfg.screenHeight as real - cfg.ballTexHeight as real / 2.0 {
        ballDir := ballDir.(y := ballDir.y * -1.0);
      } else if ball.y <= 0.0 + cfg.ballTexHeight as real / 2.0 {
        ballDir := ballDir.(y := ballDir.y * -1.0);
      }
    }
  }
}
