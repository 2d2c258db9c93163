/** The game session as the page keeps it: one object whose fields are the
    game's variables, and one method per game function, each of which
    updates the fields step by step. Every method is proved to perform
    exactly the corresponding step of module Rules. */
module Session {
  import opened Geometry
  import opened Rules

  class GameSession {
    var isJumping: bool
    var velocity: real
    /** The player's bottom offset in px. */
    var bottom: real
    var score: nat
    var highscore: nat
    /** The best score in durable storage. */
    var stored: nat
    var isGameOver: bool
    var obstacleSpeed: real
    var obstacleIntervals: seq<nat>
    /** The interval handles whose callbacks still run. */
    var liveTimers: set<nat>
    /** The obstacle each live interval moves, by handle. */
    var obstacles: map<nat, Obstacle>
    var nextHandle: nat
    var secretVisible: bool
    var restartVisible: bool
    /** The effects requested so far. */
    var effects: seq<Effect>

    ghost function Snapshot(): World
      reads this
    {
      World(isJumping, velocity, bottom, score, highscore, stored, isGameOver,
            obstacleSpeed, obstacleIntervals, liveTimers, obstacles, nextHandle,
            secretVisible, restartVisible, effects)
    }

    ghost predicate Valid()
      reads this
    {
      Inv(Snapshot())
    }

    /** Page load: declare the variables, reading the stored best score,
        then start the first run. */
    constructor (storedHighscore: nat, containerWidth: nat)
      ensures Valid()
      ensures Snapshot() == Rules.InitGame(Rules.Declared(storedHighscore), containerWidth)
    {
      isJumping, velocity, bottom := false, 0.0, FLOOR;
      score, highscore, stored := 0, storedHighscore, storedHighscore;
      isGameOver, obstacleSpeed := false, INITIAL_SPEED;
      obstacleIntervals, liveTimers, obstacles, nextHandle := [], {}, map[], 1;
      secretVisible, restartVisible, effects := false, false, [];
      new;
      InitGame(containerWidth);
    }

    /** Stop the interval of every handle in the list. */
    method ClearIntervals()
      modifies this
      ensures Snapshot() == old(Snapshot()).(liveTimers := old(liveTimers) - Handles(obstacleIntervals))
    {
      var i := 0;
      while i < |obstacleIntervals|
        invariant 0 <= i <= |obstacleIntervals|
        invariant liveTimers == old(liveTimers) - Handles(obstacleIntervals[..i])
        invariant Snapshot() == old(Snapshot()).(liveTimers := liveTimers)
      {
        assert obstacleIntervals[..i + 1] == obstacleIntervals[..i] + [obstacleIntervals[i]];
        liveTimers := liveTimers - {obstacleIntervals[i]};
        i := i + 1;
      }
      assert obstacleIntervals[..i] == obstacleIntervals;
    }

    method Jump()
      requires Valid()
      modifies this
      ensures Valid()
      ensures Snapshot() == Rules.Jump(old(Snapshot()))
    {
      if !isJumping && !isGameOver {
        isJumping := true;
        velocity := JUMP_FORCE;
        effects := effects + [JumpCue];
      }
    }

    method UpdatePlayer()
      requires Valid()
      modifies this
      ensures Valid()
      ensures Snapshot() == Rules.UpdatePlayer(old(Snapshot()))
    {
      if !isGameOver {
        var current := ReadBottom(bottom) as real;
        velocity := velocity + GRAVITY;
        var next := Max(FLOOR, current - velocity);
        bottom := next;
        if next <= FLOOR {
          bottom := FLOOR;
          isJumping := false;
          velocity := 0.0;
        }
      }
    }

    /** One animation frame: move the player, and report whether the next
        frame is requested. */
    method GameLoop() returns (again: bool)
      requires Valid()
      modifies this
      ensures Valid()
      ensures Snapshot() == Rules.UpdatePlayer(old(Snapshot()))
      ensures again == !isGameOver
    {
      UpdatePlayer();
      again := !isGameOver;
    }

    method IncreaseScore()
      requires Valid()
      modifies this
      ensures Valid()
      ensures Snapshot() == Rules.IncreaseScore(old(Snapshot()))
    {
      score := score + 1;
      RecordBest();
      Milestone();
    }

    /** Keep a new best score, in memory and in storage, with a burst. */
    method RecordBest()
      modifies this
      ensures Snapshot() == Rules.RecordBest(old(Snapshot()))
    {
      if score > highscore {
        highscore := score;
        stored := highscore;
        effects := effects + [HighscoreBurst];
      }
    }

    /** At score 10: show the secret and, on a multiple of 5, ramp the speed. */
    method Milestone()
      modifies this
      ensures Snapshot() == Rules.Milestone(old(Snapshot()))
    {
      if score == MILESTONE {
        secretVisible := true;
        effects := effects + [SecretBurst];
        ghost var shown := Snapshot();
        if score % RAMP_EVERY == 0 {
          obstacleSpeed := obstacleSpeed + SPEED_STEP;
          effects := effects + [ShieldCue];
        }
        assert Snapshot() == Ramp(shown);
      }
    }

    method GameOver()
      requires Valid()
      modifies this
      ensures Valid()
      ensures Snapshot() == Rules.GameOver(old(Snapshot()))
    {
      if isGameOver {
        return;
      }
      isGameOver := true;
      effects := effects + [GameOverCue];
      restartVisible := true;
      ClearIntervals();
      obstacleIntervals := [];
    }

    /** Spawn one obstacle at the container's right edge and start its
        interval. */
    method CreateObstacle(containerWidth: nat) returns (handle: nat)
      requires Valid()
      modifies this
      ensures Valid()
      ensures Snapshot() == Rules.CreateObstacle(old(Snapshot()), containerWidth)
      ensures !old(isGameOver) ==> handle == old(nextHandle) && handle in liveTimers
    {
      handle := nextHandle;
      if isGameOver {
        return;
      }
      obstacles := obstacles[handle := Obstacle(containerWidth as real, obstacleSpeed)];
      liveTimers := liveTimers + {handle};
      nextHandle := nextHandle + 1;
      obstacleIntervals := obstacleIntervals + [handle];
    }

    /** One firing of the interval of a live handle. */
    method ObstacleTick(h: nat, player: Rect, obstacle: Rect, width: nat)
      requires Valid()
      requires h in liveTimers
      modifies this
      ensures Valid()
      ensures Snapshot() == Rules.ObstacleTick(old(Snapshot()), h, player, obstacle, width)
    {
      if isGameOver {
        liveTimers := liveTimers - {h};
        return;
      }
      var position := obstacles[h].position - obstacles[h].moveSpeed;
      obstacles := obstacles[h := obstacles[h].(position := position)];
      if Hits(player, obstacle) {
        GameOver();
        liveTimers := liveTimers - {h};
        return;
      }
      if position < -(width as real) {
        liveTimers := liveTimers - {h};
        obstacles := obstacles - {h};
        IncreaseScore();
      }
    }

    /** Start a fresh run: hide the restart control, put the player on the
        floor, drop every obstacle and stop every listed interval. */
    method Reset()
      modifies this
      ensures Snapshot() == Rules.Reset(old(Snapshot()))
    {
      ghost var before := Snapshot();
      restartVisible, bottom, isGameOver, score, obstacles := false, FLOOR, false, 0, map[];
      ghost var cleared := Snapshot();
      assert cleared == before.(restartVisible := false, bottom := FLOOR, isGameOver := false,
                                score := 0, obstacles := map[]);
      ClearIntervals();
      obstacleIntervals := [];
    }

    /** Restart the game (also the first start, from the constructor). */
    method InitGame(containerWidth: nat)
      requires Valid()
      modifies this
      ensures Valid()
      ensures Snapshot() == Rules.InitGame(old(Snapshot()), containerWidth)
    {
      Reset();
      var _ := CreateObstacle(containerWidth);
      var _ := GameLoop();
    }
  }
}
