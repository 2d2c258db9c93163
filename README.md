# Love Runner, modelled in Dafny

Love Runner is a small endless-runner game for the browser. The player
jumps in place. Heart-shaped obstacles enter from the right edge and move
left. An obstacle that reaches the player ends the run. An obstacle that
leaves the screen on the left scores one point. The page keeps a best score
in local storage. At score 10 a secret message is shown, and the obstacle
speed goes up by 0.5 for obstacles spawned after that. All of the logic is
in one file, `love-runner-game.js`. This project models its game state and
proves properties of that model.

The model has four modules:

- `Geometry` (`geometry.dfy`) holds the rendered bounding boxes and the
  collision test from the obstacle tick. The test has a 10-unit forgiveness
  margin.
- `Rules` (`rules.dfy`) describes the whole game state as one value,
  `World`. Each game function of the source is a function
  from the old state to the new one: `Jump`, `UpdatePlayer`,
  `IncreaseScore`, `GameOver`, `CreateObstacle`, `ObstacleTick` and `InitGame`.
  Some are split into parts that follow the blocks of the source function:
  `RecordBest` and `Milestone` for `IncreaseScore`, `Advance` for the
  running-game part of `ObstacleTick`, and `Reset` for the first half of
  `InitGame`.
  `Inv` is the invariant every reachable state keeps. `Stopped` says that
  after game over no obstacle interval runs.
- `Session` (`session.dfy`) holds the class `GameSession`. Its fields are
  the game's closure variables. Its methods update those fields step by
  step, as the source does. Each method is proved to perform exactly the
  matching step of `Rules`.
- `Runs` (`runs.dfy`) covers any interleaving of presses, animation frames,
  interval firings, spawns and restarts. It proves what holds along every
  such sequence: the invariant, monotone best score and speed, absorbed
  jump triggers, a frozen game after game over, and obstacles keeping the
  speed they were spawned with.

Choices of representation:

- Velocities, speeds and positions are Dafny `real`. They are all
  multiples of 0.5, so nothing is rounded. Score, best score, the stored
  best score and the rendered widths are `nat`. The bounding boxes are
  `real` rectangles handed in from layout.
- The player's bottom offset is read back through integer parsing
  (`Truncate`, rounding towards zero), with `|| 10` turning a 0 into 10.
  The next height is therefore `max(10, floor(bottom) - velocity)`.
  The model assumes that the computed style returns the inline value.
- The browser's timers take two fields. `liveTimers` is the set of
  interval handles whose callbacks still fire. `nextHandle` is the next
  handle the timer facility hands out. `ObstacleTick` is one firing of one
  interval. Animation frames are explicit `Frame` events, or
  `GameSession.GameLoop` calls.
- The obstacle elements are the map `obstacles`, keyed by interval handle.
  Each entry records the obstacle's position and the speed it captured at
  spawn.
- Sounds and confetti are appended to the log `effects`, so the model can
  say when one was requested. The model assumes that the three audio
  elements exist.
- Local storage is the `nat` field `stored`. An absent value reads as 0.
  The stored value given to the constructor is the page's input.

Behaviour of the code that the model keeps, although a reader of the game
might expect otherwise:

- The collision margin is 10 in total on each side. Only the obstacle's
  box is shrunk; the player's box is not shrunk.
- A restart does not hide the secret message again (`Runs.SecretStaysVisible`).
- A restart does not reset `isJumping`, `velocity` or `obstacleSpeed`.
  Restarting after dying in mid-air therefore resumes the jump from the
  floor on the first frame.
- The speed ramp is nested inside the `score === 10` branch. Speed changes
  only when the score becomes exactly 10, although the source's comment
  says "every 5 points".
- A restart does not read local storage again: it only redisplays the
  highscore variable.

## Model

| member | source | states |
|---|---|---|
| Geometry.Hits | love-runner-game.js:120-124 | a player box clear of the obstacle's box shrunk by 10 on any side (right of player at most obstacle left + 10, and so on) is never a hit |
| Geometry.HitsIffInteriorsMeet | love-runner-game.js:120-124 | for a player box of positive size and an obstacle larger than two margins, a hit is reported exactly when the player's interior and the shrunk obstacle's interior share a point |
| Rules.Truncate | love-runner-game.js:80 | the parsed integer is the real rounded towards zero: r <= x < r + 1 for x >= 0, r - 1 < x <= r for x < 0 |
| Rules.ReadBottom | love-runner-game.js:80 | a bottom offset at or above the floor reads back as its floor (at least 10); an offset that parses to 0 reads back as 10, so the read value is never 0 |
| Rules.Declared | love-runner-game.js:34-44 | the declared state satisfies the invariant: not jumping, velocity 0, player on the floor, score 0, best score equal to the stored one, game not over, speed 3, no handle listed or live, no obstacle, secret and restart control hidden, no effect requested, next handle 1 |
| Rules.Jump | love-runner-game.js:64-76 | the state is unchanged exactly when the player is jumping or the game is over; otherwise a jump starts with velocity -9 and a jump cue, and nothing else changes; afterwards a further press is absorbed; the invariant is kept |
| Rules.UpdatePlayer | love-runner-game.js:78-92 | no change once the game is over; otherwise bottom >= 10, the player lands (bottom 10, not jumping, velocity 0) exactly when floor(bottom) - (velocity + 0.5) <= 10, else bottom = floor(old bottom) - new velocity with velocity + 0.5; only the player fields change |
| Rules.IncreaseScore | love-runner-game.js:145-183 | score + 1; best score = max(old best, score); storage written only when the best score rises; speed + 0.5 and secret shown exactly when the score becomes 10; the exact effects requested; nothing else changes |
| Rules.RecordBest | love-runner-game.js:151-163 | the best score afterwards is at least the old best score and at least the score, and equals one of them; the stored value changes only when the best score rises, and then equals it; a stored value equal to the best score stays equal to it; one confetti burst is requested exactly when the best score rises; no other field changes |
| Rules.Milestone | love-runner-game.js:165-182 | at score 10 the secret is shown, speed rises by 0.5 and both effects are requested; at any other score nothing changes |
| Rules.GameOver | love-runner-game.js:185-199 | no change if already over; otherwise over, handle list empty, every listed interval stopped, restart control shown, one game-over cue; nothing else changes; no interval runs afterwards |
| Rules.CreateObstacle | love-runner-game.js:94-143 | nothing once over; otherwise one fresh handle is appended and started, and its obstacle sits at the container width with the current speed; only the timer fields change |
| Rules.ObstacleTick | love-runner-game.js:108-136 | a stopped interval does nothing; once the game is over the interval only stops itself; for a live interval of a running game the result is Rules.Advance; obstacles other than this one are untouched, no obstacle changes its speed, no handle is handed out, and the invariant is kept |
| Rules.Advance | love-runner-game.js:113-135 | on a hit the result is exactly Rules.GameOver of the state with the moved obstacle, with this interval stopped as well: the game is over, the restart control shown, one game-over cue requested, the listed intervals stopped and the score unchanged; without a hit, once the moved obstacle is past minus its width, the result is exactly Rules.IncreaseScore of the state with this interval stopped and this obstacle removed; otherwise only this obstacle moves, by its own captured speed; the invariant is kept |
| Rules.InitGame | love-runner-game.js:46-62 | score 0, not over, restart hidden, the old listed intervals stopped, exactly one new handle and obstacle, the next handle advanced by one; best score, storage, speed, secret and effects unchanged; then one frame from the floor with the old velocity |
| Rules.Reset | love-runner-game.js:48-58 | score 0, game not over, restart control hidden, player on the floor, no obstacle, empty handle list, and the listed intervals stopped; nothing else changes; from a state satisfying the invariant the result satisfies it too, with no interval running |
| Session.GameSession.constructor | love-runner-game.js:34-44 | the page's declarations followed by the first start give Rules.InitGame of the declared state |
| Session.GameSession.ClearIntervals | love-runner-game.js:57 | the loop over the handle list stops exactly the listed intervals and changes no other field |
| Session.GameSession.Jump | love-runner-game.js:64-76 | a press changes the fields exactly as Rules.Jump does and keeps the invariant |
| Session.GameSession.UpdatePlayer | love-runner-game.js:78-92 | one player update changes the fields exactly as Rules.UpdatePlayer does and keeps the invariant |
| Session.GameSession.GameLoop | love-runner-game.js:201-206 | one frame changes the fields exactly as Rules.UpdatePlayer does, and the next frame is requested exactly when the game is not over |
| Session.GameSession.IncreaseScore | love-runner-game.js:145-183 | scoring a point changes the fields exactly as Rules.IncreaseScore does and keeps the invariant |
| Session.GameSession.RecordBest | love-runner-game.js:151-163 | the new-best block changes the fields exactly as Rules.RecordBest does |
| Session.GameSession.Milestone | love-runner-game.js:165-182 | the score-10 block changes the fields exactly as Rules.Milestone does |
| Session.GameSession.GameOver | love-runner-game.js:185-199 | ending the game changes the fields exactly as Rules.GameOver does and keeps the invariant |
| Session.GameSession.CreateObstacle | love-runner-game.js:94-143 | a spawn changes the fields exactly as Rules.CreateObstacle does, and in a running game returns the fresh handle, which is live |
| Session.GameSession.ObstacleTick | love-runner-game.js:108-136 | one firing of a live interval changes the fields exactly as Rules.ObstacleTick does and keeps the invariant |
| Session.GameSession.Reset | love-runner-game.js:48-58 | the reset steps of a restart change the fields exactly as Rules.Reset does |
| Session.GameSession.InitGame | love-runner-game.js:46-62 | a restart changes the fields exactly as Rules.InitGame does and keeps the invariant |
| Runs.RunKeepsInv | love-runner-game.js:78-199 | along every event sequence the invariant holds: player at or above the floor, stored best score equal to the best score, every live interval listed and moving an obstacle, none running once over |
| Runs.HighscoreNeverDecreases | love-runner-game.js:145-154 | along every event sequence neither the best score nor the stored best score decreases |
| Runs.ScoreNeverDecreasesWithinRun | love-runner-game.js:145-146 | along every event sequence without a restart the score never decreases |
| Runs.SpeedNeverDecreases | love-runner-game.js:165-176 | the obstacle speed never decreases, restarts included |
| Runs.SecretStaysVisible | love-runner-game.js:46-62 | once shown, the secret message stays shown, restarts included |
| Runs.PressesAbsorbed | love-runner-game.js:64-68 | any non-empty sequence of presses has the effect of exactly one jump |
| Runs.FrozenOnceOver | love-runner-game.js:185-199 | from a game-over state, every sequence without a restart leaves the state unchanged |
| Runs.CapturedSpeed | love-runner-game.js:104-114 | an obstacle whose handle existed before a sequence and is still present after it keeps its spawn-time speed, and a removed obstacle never comes back |
| Runs.FirstPointIsStored | love-runner-game.js:145-154 | a page with no stored best score: after the first start and one point, the best score and the stored value are 1, with one confetti burst |

## Left out

- DOM construction, styling, text updates and the player sprite
  (lines 2-23, 47-51, 97-102, 193-195) are presentation only. The model
  keeps only the visibility of the secret message and of the restart
  control, and line 49, which puts the player back at 10px: that reset is
  `bottom := FLOOR` in `Reset`.
- The check for missing elements at lines 25-28 is left out: the model
  assumes the page has all of them.
- Audio playback and confetti (71-74, 157-162, 169-174, 178-180, 189-191)
  are calls into code outside the game. Each request is logged in
  `effects`; playback and its failures are not modelled.
- The random spawn delay and the `setTimeout` spawn chain (line 141) are
  left out, as is the chain that a quick restart can leave pending. Both
  depend on real time. Any extra spawn is covered instead: `Spawn`
  events may come at any point.
- Real timing of `setInterval` and `requestAnimationFrame` (lines 136, 204)
  is left out. Each firing is an explicit call or event.
- The rendered geometry (`getBoundingClientRect`, `offsetWidth`) is passed
  in as parameters.
- Rules.ObstacleTick: the model does not tie the obstacle rectangle passed
  in to the obstacle's position, because that link is made by the browser's
  layout.
- Local storage holds strings. The string coercion at line 42 is not
  modelled; the stored best score is a `nat`.
- Key and click bindings (lines 208-218) are left out. Presses are `Press`
  events, and clicks on restart are `Restart` events.
