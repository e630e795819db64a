/** Many frames in a row: the main loop calls Update once per frame, so a run of the
    game from a state is `Next` applied to each frame's key state in turn.  The lemmas
    lift the per-frame guarantees of `Next` to whole runs. */
module Runs {
  import opened Rules

  /** The state after playing the frames in order, starting from w. */
  function Run(cfg: Config, w: World, frames: seq<Keys>): World
    decreases |frames|
  {
    if frames == [] then w else Run(cfg, Next(cfg, w, frames[0]), frames[1..])
  }

  /** The invariants hold after any number of frames: the ball keeps a horizontal
      direction of exactly +1 or -1 and, on a screen tall enough for a paddle, the
      paddles never leave their band. */
  lemma {:induction false} RunKeepsInvariant(cfg: Config, w: World, frames: seq<Keys>)
    requires Invariant(cfg, w)
    ensures Invariant(cfg, Run(cfg, w, frames))
    ensures Fits(cfg) && PaddlesInBand(cfg, w) ==> PaddlesInBand(cfg, Run(cfg, w, frames))
    decreases |frames|
  {
    if frames != [] {
      RunKeepsInvariant(cfg, Next(cfg, w, frames[0]), frames[1..]);
    }
  }

  /** Every state the game reaches from its start satisfies the invariants. */
  lemma ReachableStatesAreValid(cfg: Config, frames: seq<Keys>)
    ensures Invariant(cfg, Run(cfg, Initial(cfg), frames))
    ensures Fits(cfg) ==> PaddlesInBand(cfg, Run(cfg, Initial(cfg), frames))
  {
    RunKeepsInvariant(cfg, Initial(cfg), frames);
  }

  /** Over a run no score decreases, and no more points are scored than frames played. */
  lemma {:induction false} RunScores(cfg: Config, w: World, frames: seq<Keys>)
    ensures Run(cfg, w, frames).scoreA >= w.scoreA
    ensures Run(cfg, w, frames).scoreB >= w.scoreB
    ensures Run(cfg, w, frames).scoreA + Run(cfg, w, frames).scoreB <= w.scoreA + w.scoreB + |frames|
    decreases |frames|
  {
    if frames != [] {
      RunScores(cfg, Next(cfg, w, frames[0]), frames[1..]);
    }
  }

  /** SPACE was never pressed during the frames. */
  predicate NoLaunchPressed(frames: seq<Keys>)
  {
    forall i :: 0 <= i < |frames| ==> !frames[i].spacePressed
  }

  /** A ball that is not launched and never gets launched does not move, its direction
      stays as it was, and nobody scores, whatever the paddles do. */
  lemma {:induction false} RunWithoutLaunch(cfg: Config, w: World, frames: seq<Keys>)
    requires !w.launched && NoLaunchPressed(frames)
    ensures !Run(cfg, w, frames).launched
    ensures Run(cfg, w, frames).ball == w.ball && Run(cfg, w, frames).ballDir == w.ballDir
    ensures Run(cfg, w, frames).scoreA == w.scoreA && Run(cfg, w, frames).scoreB == w.scoreB
    decreases |frames|
  {
    if frames != [] {
      assert !frames[0].spacePressed;
      assert NoLaunchPressed(frames[1..]) by {
        forall i | 0 <= i < |frames[1..]| ensures !frames[1..][i].spacePressed {
          assert frames[1..][i] == frames[i + 1];
        }
      }
      RunWithoutLaunch(cfg, Next(cfg, w, frames[0]), frames[1..]);
    }
  }
}
