# Pong frame step, modelled in Dafny

This project models the per-frame game step of a raylib Pong clone (`Update` in
`main.c`). The game keeps a handful of globals:

- the two paddle positions (`PlayerA` on the left, `PlayerB` on the right);
- the ball position and its direction vector `ballDir`;
- the `bBallLaunched` flag;
- the two score counters.

In each frame, in this order:

1. Each paddle makes one guarded else-if move from its keys. W/S drive paddle A and UP/DOWN drive paddle B. With both keys held, up wins when its guard `y >= halfH` holds; otherwise the down move is tried under its own guard `y <= H - halfH`.
2. SPACE launches the ball.
3. A launched ball takes a fixed-speed step against `ballDir`. An else-if chain then picks at most one bounce: left paddle, right paddle, bottom wall, top wall.
4. A ball that reaches either side scores one point for the opponent and resets every position. The ball is then aimed at the player who conceded.

Files:

- `raylib.dfy` (module `Raylib`): the library's `Vector2` and `Rectangle` records, and `CheckCollisionRecs`.
- `rules.dfy` (module `Rules`): the globals as one value `World`, the initial state, each phase of the frame as a function, and `Next`, one whole frame. The per-frame guarantees are stated and proved as `ensures` clauses.
- `game.dfy` (module `Game`): the class `Pong`, whose fields are the globals. Its constructor performs the global initialisers and `Start`'s position set-up. `Update` changes the fields in place in the source's order. `Update` is proved to have exactly the effect of `Next` and to keep the class invariant. The paddle moves and the bounce chain are written as the methods `MovePaddles` and `BounceBall`, which `Update` calls at the point where the source has that code. This split only keeps the proof small.
- `runs.dfy` (module `Runs`): many frames in a row, as the main loop calls `Update`. Lemmas proved by induction lift the per-frame guarantees to whole runs.

Conventions that follow the code:

- The ball moves by *minus* `ballDir` times `ballSpeed`. So `ballDir.x == 1` carries the ball to the left, towards player A.
- A left-paddle hit sets `ballDir.x = -1`, which sends the ball to the right.
- After player B scores (the ball left on the left side), the new direction `(1, 0)` sends the ball to player A first.
- The collision rectangles are modelled exactly as the source builds them, and they are not mirror images. Paddle B's rectangle is centred on paddle B. Paddle A's rectangle starts at paddle A's centre plus half a racket width, so it lies one full racket width to the right of a rectangle centred on paddle A. The ball's rectangle has its top-left corner at the ball's position.

What this version of the game does and does not do:

- There is no physics engine, no menu and no serve possession.
- A waiting ball sits at the centre of the screen, not at a paddle's edge.
- Paddles are not clamped. Their moves are guarded, so a paddle can end up one step (`racketSpeed`) beyond the guard. The proved band is therefore `halfH - racketSpeed <= y <= H - halfH + racketSpeed`, where `halfH` is half the height of one racket sprite frame.
- The paddle band needs the screen to be at least one paddle tall (`Fits`): recentring at `H/2` after a point must land inside the band.

## Model

| member | source | states |
|---|---|---|
| `Rules.Initial` | main.c:24-54 | The start state satisfies the invariant and lies in the paddle band, given a screen at least one paddle tall. Both scores are 0, the ball is not launched, `ballDir == (1, 0)`, and the paddles and the ball are centred vertically. |
| `Rules.MovePaddle` | main.c:69-85 | A paddle moves by exactly one `racketSpeed` step or not at all. It moves up if and only if the up key is held and `y >= halfH`. It moves down if and only if it does not move up, the down key is held and `y <= H - halfH`. With no key held it stays put. The band `halfH - racketSpeed <= y <= H - halfH + racketSpeed` is preserved. |
| `Rules.Bounce` | main.c:99-121 | After a left-paddle hit the ball moves right at full speed. Its vertical motion is its offset from paddle A's centre times 5/90. A right-paddle hit counts only if the left paddle missed: the ball then moves left, deflected by its offset from paddle B's centre. Walls are tested only if neither paddle was hit: a wall hit negates `ballDir.y`, otherwise the direction is unchanged, and `ballDir.x` is unchanged either way. A horizontal direction of +1 or -1 stays +1 or -1. |
| `Rules.Next` | main.c:67-146 | Scores never decrease, and their sum grows by at most 1 per frame. The launch flag is set by SPACE, or stays set, and is cleared exactly when a point is scored. If the ball is not launched after the SPACE check, its position, direction and both scores are unchanged. Without a point, each paddle makes its own guarded move. Reaching x <= 0 gives player B one point and resets to the initial state with player A's score kept. Otherwise, reaching x >= W gives player A one point and resets with `ballDir == (-1, 0)`. Otherwise the ball takes its step and bounces off the moved paddles. The invariant is preserved, and so is the paddle band when the screen fits a paddle. |
| `Game.Pong.constructor` | main.c:24-54 | The fields start as the state `Initial` describes, and the class invariant holds. |
| `Game.Pong.MovePaddles` | main.c:69-85 | Each paddle's y becomes what `MovePaddle` gives, with paddle A driven by W/S and paddle B by UP/DOWN. The x positions are unchanged. |
| `Game.Pong.BounceBall` | main.c:99-121 | The in-place else-if chain leaves `ballDir` equal to what `Bounce` gives for the stepped ball and the moved paddles. |
| `Game.Pong.Update` | main.c:67-146 | The in-place frame leaves the globals equal to `Next` of their old values, and keeps the invariant: horizontal direction of +1 or -1, fixed paddle columns, non-negative scores, a waiting ball at the centre, and paddles in their band. |
| `Runs.RunKeepsInvariant` | main.c:163-166 | After any number of frames the invariant still holds. On a screen that fits a paddle, the paddles are still in their band. |
| `Runs.ReachableStatesAreValid` | main.c:160-166 | Every state reached from the initial state satisfies the invariant, and, on a screen that fits a paddle, the paddle band. |
| `Runs.RunScores` | main.c:123-140 | Over any run neither score decreases, and no more points are scored than frames are played. |
| `Runs.RunWithoutLaunch` | main.c:87-92 | If the ball is not launched and SPACE is never pressed, the ball stays where it is with its direction unchanged, nobody scores, and it stays unlaunched, whatever the paddles do. |

## Left out

- Rendering and windowing are not modelled: `DrawTextureOnScreen`, the draw calls, `InitWindow`, `SetTargetFPS`, `CloseWindow` and the main loop's window handling. They only present the state. A run of the main loop is modelled only as a sequence of frames (`Runs.Run`).
- Texture loading in `Start` is not modelled. Texture sizes are fixed inputs (`Rules.Config`).
- The debug and score strings (`malloc`, `sprintf`) are not modelled. They are presentation only.
- The sprite frame `racketRec.y` is not modelled. It only selects which sprite frame is drawn and never affects the game state.
- raylib is not part of this model, so its functions become inputs. The key queries are one `Rules.Keys` value per frame. Screen and texture sizes are fixed `Rules.Config` values: the window is created at a fixed size and never made resizable, but the model does not cover a size that changes at run time.
- `CheckCollisionRecs` is assumed to be the usual strict axis-aligned overlap test. This is not derived from raylib's source.
- Floating point is not modelled: positions and directions are mathematical reals, so single-precision rounding is ignored.
- Score overflow is not modelled: the scores are unbounded integers, while the source uses C `int`, which would overflow after 2^31 - 1 points.
- Frame pacing (120 FPS) is not modelled. The program is single-threaded, and pacing does not affect the game logic.
