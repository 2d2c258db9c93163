/** The game's state as a value, and each operation of the game as a
    function from the state before to the state after. The class
    Session.GameSession performs these same steps on its fields; the
    functions here are what its methods are proved against. */
module Rules {
  import opened Geometry

  /** The player's resting height above the container's bottom edge. */
  const FLOOR: real := 10.0
  /** Added to the vertical velocity on every frame. */
  const GRAVITY: real := 0.5
  /** The velocity a jump starts with (negative means upwards). */
  const JUMP_FORCE: real := -9.0
  /** The obstacle speed of a freshly loaded page. */
  const INITIAL_SPEED: real := 3.0
  /** How much the obstacle speed grows at the ramp. */
  const SPEED_STEP: real := 0.5
  /** The score that reveals the secret message. */
  const MILESTONE: nat := 10
  /** The ramp is written to fire on scores that are multiples of this. */
  const RAMP_EVERY: nat := 5

  /** One live obstacle: its distance from the container's left edge and the
      obstacle speed that was current when it was spawned. */
  datatype Obstacle = Obstacle(position: real, moveSpeed: real)

  /** A fire-and-forget effect the game asks for: a sound cue or a burst of
      confetti. */
  datatype Effect = JumpCue | GameOverCue | ShieldCue | HighscoreBurst | SecretBurst

  /** Everything the game keeps between events.
      - isJumping, velocity, score, highscore, isGameOver, obstacleSpeed and
        obstacleIntervals are the game's own variables;
      - bottom is the player's bottom offset in px;
      - stored is the best score in durable storage (absence reads as 0);
      - liveTimers are the interval handles whose callbacks still run,
        nextHandle the next handle the timer facility hands out;
      - obstacles maps each handle to the obstacle on screen it moves;
      - secretVisible and restartVisible are the two visibility switches;
      - effects is the log of every effect requested so far. */
  datatype World = World(
    isJumping: bool,
    velocity: real,
    bottom: real,
    score: nat,
    highscore: nat,
    stored: nat,
    isGameOver: bool,
    obstacleSpeed: real,
    obstacleIntervals: seq<nat>,
    liveTimers: set<nat>,
    obstacles: map<nat, Obstacle>,
    nextHandle: nat,
    secretVisible: bool,
    restartVisible: bool,
    effects: seq<Effect>)

  /** The handles listed in s. */
  function Handles(s: seq<nat>): (hs: set<nat>)
  {
    set h | h in s
  }

  /** What every reachable state satisfies. */
  ghost predicate Inv(w: World)
  {
    w.bottom >= FLOOR &&
    w.score <= w.highscore &&
    w.stored == w.highscore &&
    w.obstacleSpeed >= INITIAL_SPEED &&
    w.liveTimers <= Handles(w.obstacleIntervals) &&
    w.liveTimers <= w.obstacles.Keys &&
    (forall h :: h in w.obstacleIntervals ==> h < w.nextHandle) &&
    (forall h :: h in w.obstacles ==> h < w.nextHandle)
  }

  /** Once the game is over no obstacle interval runs any more. */
  ghost predicate Stopped(w: World)
  {
    w.isGameOver ==> w.liveTimers == {}
  }

  /** The integer part of x, rounding towards zero, as integer parsing of a
      decimal "...px" string yields it. */
  function Truncate(x: real): (r: int)
    ensures x >= 0.0 ==> 0 <= r && r as real <= x < r as real + 1.0
    ensures x < 0.0 ==> r <= 0 && r as real - 1.0 < x <= r as real
  {
    if x >= 0.0 then x.Floor else -((-x).Floor)
  }

  /** The player's bottom offset as a frame reads it back: parsed as an
      integer, with 0 replaced by the floor height. */
  function ReadBottom(bottom: real): (r: int)
    ensures bottom >= FLOOR ==> r == bottom.Floor && r >= 10
    ensures Truncate(bottom) == 0 ==> r == 10
    ensures r != 0
  {
    var t := Truncate(bottom);
    if t == 0 then 10 else t
  }

  /** The variables as lines 34-44 declare them, before the first restart. */
  function Declared(stored: nat): (w: World)
    ensures Inv(w)
    ensures w.score == 0 && w.highscore == stored && !w.isGameOver
    ensures w.obstacleSpeed == INITIAL_SPEED && w.obstacleIntervals == []
    ensures !w.isJumping && w.velocity == 0.0 && w.bottom == FLOOR
    ensures !w.secretVisible && !w.restartVisible && w.effects == []
    ensures w.liveTimers == {} && w.obstacles == map[] && w.nextHandle == 1
  {
    World(false, 0.0, FLOOR, 0, stored, stored, false, INITIAL_SPEED,
          [], {}, map[], 1, false, false, [])
  }

  /** Start a jump, unless the player is airborne or the game is over. */
  function Jump(w: World): (r: World)
    ensures (w.isJumping || w.isGameOver) <==> r == w
    ensures r != w ==>
      r.isJumping && r.velocity == JUMP_FORCE && r.effects == w.effects + [JumpCue]
    ensures r.(isJumping := w.isJumping, velocity := w.velocity, effects := w.effects) == w
    ensures r.isJumping || r.isGameOver
    ensures Inv(w) ==> Inv(r)
  {
    if !w.isJumping && !w.isGameOver then
      w.(isJumping := true, velocity := JUMP_FORCE, effects := w.effects + [JumpCue])
    else
      w
  }

  /** One frame of vertical motion: gravity, then the new height from the
      height read back, floored at FLOOR; landing ends the jump. */
  function UpdatePlayer(w: World): (r: World)
    ensures w.isGameOver ==> r == w
    ensures !w.isGameOver ==> r.bottom >= FLOOR
    ensures !w.isGameOver ==>
      (r.bottom == FLOOR <==> ReadBottom(w.bottom) as real - (w.velocity + GRAVITY) <= FLOOR)
    ensures !w.isGameOver && r.bottom == FLOOR ==> !r.isJumping && r.velocity == 0.0
    ensures !w.isGameOver && r.bottom > FLOOR ==>
      r.velocity == w.velocity + GRAVITY && r.isJumping == w.isJumping &&
      r.bottom == ReadBottom(w.bottom) as real - r.velocity
    ensures r.(bottom := w.bottom, velocity := w.velocity, isJumping := w.isJumping) == w
    ensures Inv(w) ==> Inv(r)
  {
    if w.isGameOver then w
    else
      var current := ReadBottom(w.bottom) as real;
      var v := w.velocity + GRAVITY;
      var next := Max(FLOOR, current - v);
      if next <= FLOOR then
        w.(bottom := FLOOR, isJumping := false, velocity := 0.0)
      else
        w.(bottom := next, velocity := v)
  }

  /** Add one point; keep the best score and its stored copy; at the
      milestone reveal the secret and run the speed ramp. */
  function IncreaseScore(w: World): (r: World)
    ensures r.score == w.score + 1
    ensures r.highscore == if r.score > w.highscore then r.score else w.highscore
    ensures r.highscore >= w.highscore && r.highscore >= r.score
    ensures r.stored == if r.highscore > w.highscore then r.highscore else w.stored
    ensures r.obstacleSpeed ==
      if r.score == MILESTONE then w.obstacleSpeed + SPEED_STEP else w.obstacleSpeed
    ensures r.secretVisible == (w.secretVisible || r.score == MILESTONE)
    ensures r.effects == w.effects
      + (if r.highscore > w.highscore then [HighscoreBurst] else [])
      + (if r.score == MILESTONE then [SecretBurst, ShieldCue] else [])
    ensures r.(score := w.score, highscore := w.highscore, stored := w.stored,
               obstacleSpeed := w.obstacleSpeed, secretVisible := w.secretVisible,
               effects := w.effects) == w
    ensures Inv(w) ==> Inv(r)
  {
    Milestone(RecordBest(w.(score := w.score + 1)))
  }

  /** A score above the best one becomes the best one and is stored. */
  function RecordBest(w: World): (r: World)
    ensures r.highscore >= w.highscore && r.highscore >= w.score
    ensures r.highscore == w.highscore || r.highscore == w.score
    ensures r.highscore > w.highscore ==> r.stored == r.highscore
    ensures r.stored != w.stored ==> r.highscore > w.highscore
    ensures w.stored == w.highscore ==> r.stored == r.highscore
    ensures r.effects == w.effects + if r.highscore > w.highscore then [HighscoreBurst] else []
    ensures r.(highscore := w.highscore, stored := w.stored, effects := w.effects) == w
  {
    if w.score > w.highscore then
      w.(highscore := w.score, stored := w.score, effects := w.effects + [HighscoreBurst])
    else
      w
  }

  /** At the milestone score the secret is revealed, and the speed ramp,
      written as a check for multiples of RAMP_EVERY, is run. */
  function Milestone(w: World): (r: World)
    ensures r.obstacleSpeed ==
      if w.score == MILESTONE then w.obstacleSpeed + SPEED_STEP else w.obstacleSpeed
    ensures r.secretVisible == (w.secretVisible || w.score == MILESTONE)
    ensures r.effects == w.effects + if w.score == MILESTONE then [SecretBurst, ShieldCue] else []
    ensures r.(obstacleSpeed := w.obstacleSpeed, secretVisible := w.secretVisible,
               effects := w.effects) == w
  {
    if w.score == MILESTONE then
      Ramp(w.(secretVisible := true, effects := w.effects + [SecretBurst]))
    else
      w
  }

  function Ramp(w: World): (r: World)
  {
    if w.score % RAMP_EVERY == 0 then
      w.(obstacleSpeed := w.obstacleSpeed + SPEED_STEP, effects := w.effects + [ShieldCue])
    else
      w
  }

  /** End the run, once: stop every interval in the handle list, empty the
      list, show the restart control. */
  function GameOver(w: World): (r: World)
    ensures w.isGameOver ==> r == w
    ensures r.isGameOver
    ensures !w.isGameOver ==>
      r.obstacleIntervals == [] &&
      r.liveTimers == w.liveTimers - Handles(w.obstacleIntervals) &&
      r.restartVisible &&
      r.effects == w.effects + [GameOverCue]
    ensures r.(isGameOver := w.isGameOver, obstacleIntervals := w.obstacleIntervals,
               liveTimers := w.liveTimers, restartVisible := w.restartVisible,
               effects := w.effects) == w
    ensures Inv(w) ==> Inv(r)
    ensures Inv(w) && Stopped(w) ==> r.liveTimers == {}
  {
    if w.isGameOver then w
    else
      w.(isGameOver := true,
         effects := w.effects + [GameOverCue],
         restartVisible := true,
         liveTimers := w.liveTimers - Handles(w.obstacleIntervals),
         obstacleIntervals := [])
  }

  /** Spawn one obstacle at the right edge, moving at the current obstacle
      speed, and record its interval handle; nothing once the game is over. */
  function CreateObstacle(w: World, containerWidth: nat): (r: World)
    ensures w.isGameOver ==> r == w
    ensures !w.isGameOver ==>
      r.obstacleIntervals == w.obstacleIntervals + [w.nextHandle] &&
      r.liveTimers == w.liveTimers + {w.nextHandle} &&
      r.obstacles == w.obstacles[w.nextHandle := Obstacle(containerWidth as real, w.obstacleSpeed)] &&
      r.nextHandle > w.nextHandle
    ensures Inv(w) && !w.isGameOver ==> w.nextHandle !in w.obstacles && w.nextHandle !in w.liveTimers
    ensures r.(obstacleIntervals := w.obstacleIntervals, liveTimers := w.liveTimers,
               obstacles := w.obstacles, nextHandle := w.nextHandle) == w
    ensures Inv(w) ==> Inv(r)
  {
    if w.isGameOver then w
    else
      var h := w.nextHandle;
      w.(obstacles := w.obstacles[h := Obstacle(containerWidth as real, w.obstacleSpeed)],
         liveTimers := w.liveTimers + {h},
         obstacleIntervals := w.obstacleIntervals + [h],
         nextHandle := h + 1)
  }

  /** The obstacle of handle h is live, and the game is running. */
  predicate Active(w: World, h: nat)
  {
    h in w.liveTimers && h in w.obstacles && !w.isGameOver
  }

  /** The obstacle of handle h after one move by its own captured speed. */
  function Moved(w: World, h: nat): (o: Obstacle)
    requires h in w.obstacles
    ensures o.position == w.obstacles[h].position - w.obstacles[h].moveSpeed
    ensures o.moveSpeed == w.obstacles[h].moveSpeed
  {
    var o := w.obstacles[h];
    o.(position := o.position - o.moveSpeed)
  }

  /** One firing of the interval of handle h: stop if the game is over;
      otherwise Advance the obstacle. The rectangles are the rendered boxes
      of the player and of this obstacle after the move, width the
      obstacle's rendered width. */
  function ObstacleTick(w: World, h: nat, player: Rect, obstacle: Rect, width: nat): (r: World)
    ensures h !in w.liveTimers ==> r == w
    ensures h in w.liveTimers && w.isGameOver ==> r == w.(liveTimers := w.liveTimers - {h})
    ensures Active(w, h) ==> r == Advance(w, h, player, obstacle, width)
    ensures forall g :: g in w.obstacles && g != h ==> g in r.obstacles && r.obstacles[g] == w.obstacles[g]
    ensures forall g :: g in r.obstacles ==>
      g in w.obstacles && r.obstacles[g].moveSpeed == w.obstacles[g].moveSpeed
    ensures r.nextHandle == w.nextHandle
    ensures Inv(w) ==> Inv(r)
  {
    if h !in w.liveTimers then w
    else if w.isGameOver then w.(liveTimers := w.liveTimers - {h})
    else if h !in w.obstacles then w
    else Advance(w, h, player, obstacle, width)
  }

  /** The running game's part of a firing: move the obstacle by its own
      captured speed; on a hit end the game and stop this interval; else,
      once the obstacle is past its own width beyond the left edge, stop
      this interval, remove the obstacle and score. */
  function Advance(w: World, h: nat, player: Rect, obstacle: Rect, width: nat): (r: World)
    requires Active(w, h)
    ensures Hits(player, obstacle) ==>
      r == (var g := GameOver(w.(obstacles := w.obstacles[h := Moved(w, h)]));
            g.(liveTimers := g.liveTimers - {h}))
    ensures !Hits(player, obstacle) && Moved(w, h).position < -(width as real) ==>
      r == IncreaseScore(w.(liveTimers := w.liveTimers - {h}, obstacles := w.obstacles - {h}))
    ensures !Hits(player, obstacle) && Moved(w, h).position >= -(width as real) ==>
      r == w.(obstacles := w.obstacles[h := Moved(w, h)])
    ensures Hits(player, obstacle) ==>
      r.isGameOver && r.restartVisible && r.effects == w.effects + [GameOverCue] &&
      r.liveTimers == w.liveTimers - Handles(w.obstacleIntervals) - {h} &&
      r.obstacleIntervals == [] && r.score == w.score &&
      h in r.obstacles && r.obstacles[h] == Moved(w, h)
    ensures !Hits(player, obstacle) && Moved(w, h).position < -(width as real) ==>
      r.score == w.score + 1 && !r.isGameOver && h !in r.obstacles &&
      r.liveTimers == w.liveTimers - {h}
    ensures forall g :: g in w.obstacles && g != h ==> g in r.obstacles && r.obstacles[g] == w.obstacles[g]
    ensures forall g :: g in r.obstacles ==>
      g in w.obstacles && r.obstacles[g].moveSpeed == w.obstacles[g].moveSpeed
    ensures r.nextHandle == w.nextHandle
    ensures Inv(w) ==> Inv(r)
  {
    var moved := Moved(w, h);
    var w1 := w.(obstacles := w.obstacles[h := moved]);
    if Hits(player, obstacle) then
      var w2 := GameOver(w1);
      w2.(liveTimers := w2.liveTimers - {h})
    else if moved.position < -(width as real) then
      IncreaseScore(w1.(liveTimers := w1.liveTimers - {h}, obstacles := w1.obstacles - {h}))
    else
      w1
  }

  /** Restart: reset the run, clear every obstacle and every listed
      interval, spawn the first obstacle, and run the first frame. */
  function InitGame(w: World, containerWidth: nat): (r: World)
    ensures r.score == 0 && !r.isGameOver && !r.restartVisible
    ensures r.obstacleIntervals == [w.nextHandle]
    ensures r.liveTimers == (w.liveTimers - Handles(w.obstacleIntervals)) + {w.nextHandle}
    ensures r.obstacles == map[w.nextHandle := Obstacle(containerWidth as real, w.obstacleSpeed)]
    ensures r.highscore == w.highscore && r.stored == w.stored
    ensures r.obstacleSpeed == w.obstacleSpeed && r.secretVisible == w.secretVisible
    ensures r.effects == w.effects
    ensures r.nextHandle == w.nextHandle + 1
    ensures r == UpdatePlayer(r.(bottom := FLOOR, isJumping := w.isJumping, velocity := w.velocity))
    ensures Inv(w) ==> Inv(r) && r.liveTimers == {w.nextHandle}
  {
    UpdatePlayer(CreateObstacle(Reset(w), containerWidth))
  }

  /** The first part of a restart: a fresh run with no obstacle and no
      listed interval. */
  function Reset(w: World): (r: World)
    ensures r.score == 0 && !r.isGameOver && !r.restartVisible && r.bottom == FLOOR
    ensures r.obstacleIntervals == [] && r.obstacles == map[]
    ensures r.liveTimers == w.liveTimers - Handles(w.obstacleIntervals)
    ensures r.(restartVisible := w.restartVisible, bottom := w.bottom, isGameOver := w.isGameOver,
               score := w.score, obstacles := w.obstacles, liveTimers := w.liveTimers,
               obstacleIntervals := w.obstacleIntervals) == w
    ensures Inv(w) ==> Inv(r) && r.liveTimers == {}
  {
    w.(restartVisible := false, bottom := FLOOR, isGameOver := false, score := 0,
       obstacles := map[],
       liveTimers := w.liveTimers - Handles(w.obstacleIntervals),
       obstacleIntervals := [])
  }
}
