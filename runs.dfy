/** Arbitrary interleavings of the events that drive the game — key and
    button presses, animation frames, obstacle interval firings, spawns and
    restarts — and the properties that hold along every one of them. */
module Runs {
  import opened Geometry
  import opened Rules

  datatype Event =
    | Press
    | Frame
    | Tick(handle: nat, player: Rect, obstacle: Rect, width: nat)
    | Spawn(containerWidth: nat)
    | Restart(containerWidth: nat)

  function Apply(w: World, e: Event): World
  {
    match e
    case Press => Jump(w)
    case Frame => UpdatePlayer(w)
    case Tick(h, player, obstacle, width) => ObstacleTick(w, h, player, obstacle, width)
    case Spawn(containerWidth) => CreateObstacle(w, containerWidth)
    case Restart(containerWidth) => InitGame(w, containerWidth)
  }

  function Run(w: World, es: seq<Event>): World
    decreases |es|
  {
    if es == [] then w else Run(Apply(w, es[0]), es[1..])
  }

  predicate NoRestart(es: seq<Event>)
  {
    forall i :: 0 <= i < |es| ==> !es[i].Restart?
  }

  lemma ApplyKeepsInv(w: World, e: Event)
    requires Inv(w) && Stopped(w)
    ensures Inv(Apply(w, e)) && Stopped(Apply(w, e))
  {
  }

  /** Every event sequence keeps the invariant; in particular the player is
      never below the floor, the stored best score equals the best score, and
      once the game is over no obstacle interval runs. */
  lemma {:induction false} RunKeepsInv(w: World, es: seq<Event>)
    requires Inv(w) && Stopped(w)
    ensures Inv(Run(w, es)) && Stopped(Run(w, es))
    ensures Run(w, es).bottom >= FLOOR && Run(w, es).stored == Run(w, es).highscore
    decreases |es|
  {
    if es != [] {
      ApplyKeepsInv(w, es[0]);
      RunKeepsInv(Apply(w, es[0]), es[1..]);
    }
  }

  /** The best score and its stored copy never decrease. */
  lemma {:induction false} HighscoreNeverDecreases(w: World, es: seq<Event>)
    requires Inv(w) && Stopped(w)
    ensures Run(w, es).highscore >= w.highscore
    ensures Run(w, es).stored >= w.stored
    decreases |es|
  {
    if es != [] {
      ApplyKeepsInv(w, es[0]);
      HighscoreNeverDecreases(Apply(w, es[0]), es[1..]);
    }
  }

  /** Without a restart the score never decreases. */
  lemma {:induction false} ScoreNeverDecreasesWithinRun(w: World, es: seq<Event>)
    requires NoRestart(es)
    ensures Run(w, es).score >= w.score
    decreases |es|
  {
    if es != [] {
      assert !es[0].Restart?;
      ScoreNeverDecreasesWithinRun(Apply(w, es[0]), es[1..]);
    }
  }

  /** The obstacle speed never decreases, restarts included. */
  lemma {:induction false} SpeedNeverDecreases(w: World, es: seq<Event>)
    ensures Run(w, es).obstacleSpeed >= w.obstacleSpeed
    decreases |es|
  {
    if es != [] {
      SpeedNeverDecreases(Apply(w, es[0]), es[1..]);
    }
  }

  /** Once shown, the secret message stays shown, restarts included. */
  lemma {:induction false} SecretStaysVisible(w: World, es: seq<Event>)
    requires w.secretVisible
    ensures Run(w, es).secretVisible
    decreases |es|
  {
    if es != [] {
      SecretStaysVisible(Apply(w, es[0]), es[1..]);
    }
  }

  /** Any number of presses has the effect of one. */
  lemma {:induction false} PressesAbsorbed(w: World, es: seq<Event>)
    requires forall i :: 0 <= i < |es| ==> es[i].Press?
    ensures Run(w, es) == if es == [] then w else Jump(w)
    decreases |es|
  {
    if es != [] {
      assert es[0].Press?;
      PressesAbsorbed(Apply(w, es[0]), es[1..]);
    }
  }

  /** Once the game is over, nothing but a restart changes anything. */
  lemma {:induction false} FrozenOnceOver(w: World, es: seq<Event>)
    requires Inv(w) && Stopped(w) && w.isGameOver
    requires NoRestart(es)
    ensures Run(w, es) == w
    decreases |es|
  {
    if es != [] {
      assert !es[0].Restart?;
      FrozenOnceOver(Apply(w, es[0]), es[1..]);
    }
  }

  lemma ApplyKeepsCapturedSpeed(w: World, e: Event)
    ensures Apply(w, e).nextHandle >= w.nextHandle
    ensures forall g :: g in Apply(w, e).obstacles && g < w.nextHandle ==>
      g in w.obstacles && Apply(w, e).obstacles[g].moveSpeed == w.obstacles[g].moveSpeed
  {
  }

  /** An obstacle that already had its handle keeps the speed it was spawned
      with, whatever happens to the global obstacle speed; and one that is
      gone never comes back. */
  lemma {:induction false} CapturedSpeed(w: World, es: seq<Event>, h: nat)
    requires h < w.nextHandle
    requires h in Run(w, es).obstacles
    ensures h in w.obstacles
    ensures Run(w, es).obstacles[h].moveSpeed == w.obstacles[h].moveSpeed
    decreases |es|
  {
    if es != [] {
      ApplyKeepsCapturedSpeed(w, es[0]);
      CapturedSpeed(Apply(w, es[0]), es[1..], h);
    }
  }

  /** A page loaded with no stored best score: the first point becomes the
      best score, is stored and is celebrated. */
  lemma FirstPointIsStored(containerWidth: nat)
    ensures var w := IncreaseScore(InitGame(Declared(0), containerWidth));
      w.score == 1 && w.highscore == 1 && w.stored == 1 && w.effects == [HighscoreBurst]
  {
  }
}
