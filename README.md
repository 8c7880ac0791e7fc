# Space shooter with AI enemies — a verified model of the game loop

This project models the game state and the per-frame logic of a small
arcade shooter. The ship moves left and right along the bottom of a
600 × 400 screen and fires bullets upwards. Enemies spawn at the top, and
spawn more often as the score grows. Each frame an enemy drifts away from
the centre of the screen when a bullet is above it and horizontally within 30 units,
sometimes turns towards the ship, and always descends.
Destroyed enemies may drop shield, double-shot or bomb power-ups. An enemy
that reaches the bottom costs a life unless the shield takes the hit. With
no lives left the game is over until R is pressed.

The model has two layers:

- **Pure passes.** Each pass of the main loop is a function over a `State`
  value (module `Arena`), in the pass's own module:
  - `Controls`: key events, ship movement, bullet drift;
  - `Difficulty`: spawn interval and spawning;
  - `Behaviour`: `enemy_ai`;
  - `Collision`: bullets against enemies;
  - `Boundary`: enemies reaching the bottom;
  - `PowerUps`: falling, collection and shield expiry.

  `Frame.Tick` composes them in the loop's order: the key events first, then
  the simulation unless the game is over.
- **The game session.** `Game.Session` is a class whose fields are the
  game's global variables. Its methods update those fields the way the loop
  body does, loop by loop. Each method is proved to leave the object in the
  state the corresponding pure function gives (`Snapshot() == Tick(old(Snapshot()), ...)`).

The properties proved include:

- Every tick keeps the state consistent:
  - lives never above 3;
  - game over exactly when no life is left;
  - score and frame counter non-negative;
  - every enemy horizontally on screen.
- The collision pass collects hits first and removes enemies afterwards.
  Two bullets inside one enemy score two points and remove one enemy. In
  general the score rises by exactly the number of bullets consumed, and at
  most that many enemies disappear.
- Several enemies reaching the bottom in one tick: the shield absorbs only
  the first, and lives can fall below zero.
- The chase decision of `enemy_ai` overrides the dodge decision, but only
  when the ship is not level with the enemy.
- Ship movement is guarded, not clamped, so the ship can end up past the
  right edge of the field.
- A restart yields exactly the initial state.
- On the game-over screen a tick without R changes nothing.

Randomness is an input. A `Draws` value supplies:

- the column of a spawned enemy;
- the chase draw of the enemy at each position;
- the drop draw of the n-th hit of the tick.

`None` means no power-up, and `Some(kind)` stands for a successful 0.2 draw
followed by the uniform choice of kind. The clock is one reading `now` per
tick. The sprite sizes are a `Sprites` parameter, because they come from
image files.

Three behaviours of the code are worth stating outright, because a
reader might expect otherwise:

- **Movement is guarded, not clamped.** Each step is allowed or refused
  from the ship's position before it. The ship can therefore end up to one
  step past the right edge of the field (`Controls.MoveCanOvershoot`).
- **Chase overwrites dodge.** A successful chase draw replaces the dodge
  value, unless the ship is level with the enemy (`Behaviour.DriftCases`).
- **Lives can go below zero.** Several breaches in one tick each cost a
  life (`-1` in `Boundary.LivesBelowZeroScenario`). This is why the
  consistency invariant states `lives <= 3` and `gameOver <==> lives <= 0`,
  and not `lives >= 0`.

## Model

| member | source | states |
|---|---|---|
| Arena.ResetGame | space3.py:55-64 | score 0, lives 3, no bullets, enemies or power-ups, frame counter 0, both buffs off, shield timer 0, spawn interval 50; the game-over flag and the ship position are untouched |
| Arena.ResetGameIdempotent | space3.py:55-64 | resetting twice is the same as resetting once |
| Arena.RestartIsInitial | space3.py:133-137 | pressing R on the game-over screen yields exactly the state the loop starts from, whatever the state before |
| Controls.Shots | space3.py:128-132 | a fire press adds one bullet at the ship's centre, or two 10 units inside its edges with double shot, all 20 units above the ship |
| Controls.KeysWhilePlaying | space3.py:123-132 | while playing, events change only the bullet list: the bullets in flight followed by one Shots volley per fire press, in order |
| Controls.KeysOnGameOver | space3.py:126-140 | on the game-over screen, events without R change nothing (no firing) |
| Controls.HandleKeysConcat | space3.py:123 | the events of a tick are handled one after the other, so splitting them composes |
| Controls.RestartMidTick | space3.py:126-137 | on the game-over screen the first R restarts: events before it do nothing, those after it act on the initial state |
| Controls.MovePlayer | space3.py:143-147 | only the ship's x changes, by -6, 0 or +6; a lone held key moves it by exactly 6 when its guard (x > 0, or x < WIDTH - pw) holds, and only then; no key held, no move |
| Controls.MoveCases | space3.py:144-147 | both keys held: the right guard is tested against the position after the left step, so the steps cancel unless a guard fails, case by case |
| Controls.MoveStaysNearField | space3.py:144-147 | the guards keep the ship within one step of the field: -6 < x < WIDTH - pw + 6 is preserved |
| Controls.MoveCanOvershoot | space3.py:146-147 | the guard is not a clamp: from x = 558 with pw = 40 a right step ends at 564, past WIDTH - pw |
| Controls.MoveBullets | space3.py:150 | the bullets kept are exactly those with y > 0, each moved up by 7 |
| Controls.MoveBulletsConcat | space3.py:150 | bullet drift keeps the bullets' order: it distributes over concatenation |
| Difficulty.SpawnInterval | space3.py:153-157 | the interval is one of 50, 40, 30, 20, 15 frames |
| Difficulty.SpawnIntervalNonIncreasing | space3.py:153-157 | a higher score never gives a longer interval |
| Difficulty.SpawnIntervalBands | space3.py:153-157 | the band boundaries at scores 10, 20, 40 and 70 |
| Difficulty.Spawn | space3.py:152-163 | interval from the score, frame counter +1, an enemy at (spawnX, 0) appended exactly when the counter is a multiple of the interval; nothing else changes |
| Difficulty.SpawnCount | space3.py:159-163 | at a fixed score, n ticks from frame f spawn (f + n) / t - f / t enemies: one per multiple of the interval |
| Behaviour.Drift | space3.py:96-104 | an enemy's horizontal move is one of -5, -3, 0, 3, 5 |
| Behaviour.DriftCases | space3.py:96-104 | a successful chase with the ship not level gives ±3 towards the ship; otherwise ±5 away from the centre when some bullet is above and within 30, else 0 |
| Behaviour.Steer | space3.py:105-107 | the enemy descends by 2 and ends horizontally on screen: a move within the field is applied unchanged, one past the left edge gives x = 0, one past the right edge gives x = WIDTH - ew |
| Behaviour.EnemyAi | space3.py:93-109 | a new list with one moved enemy per old one, each as Steer gives it with its own chase draw |
| Collision.FirstHit | space3.py:174-184 | the enemy that consumes a bullet is the lowest index whose box strictly contains it; none when no box does |
| Collision.ScanEnemies | space3.py:174-184 | the inner search finds a hit exactly when some enemy is hit, and then the index FirstHit names |
| Collision.ScanBullets | space3.py:172-185 | the scan yields hit_enemies, new_bullets and the drops as HitIndices, Misses and Drops define them |
| Collision.ConsumedOrSurvives | space3.py:172-185 | counts only: the bullets kept plus the bullets that hit an enemy add up to the bullets scanned |
| Collision.MissesExactly | space3.py:185-186 | a bullet survives exactly when it hits no enemy |
| Collision.MissesConcat | space3.py:173-185 | the scan keeps the bullets' order: it distributes over concatenation |
| Collision.HitIndicesConsumed | space3.py:175-177 | every collected index names an enemy that some bullet hit first |
| Collision.HitCollected | space3.py:175-177 | conversely, the enemy any bullet hits first has its index collected |
| Collision.CollectedExactly | space3.py:172-177 | an index is collected if and only if some bullet hits that enemy first |
| Collision.DropsAtMostHits | space3.py:178-183 | at most one power-up drops per collected hit |
| Collision.DropsAtHitEnemies | space3.py:180-183 | every dropped power-up sits 20 units right of a hit enemy, at that enemy's height |
| Collision.WithoutIndicesExactly | space3.py:187 | the enemies kept are exactly those at an index that was not collected |
| Collision.RemovedAreDistinctHits | space3.py:187 | the number of enemies removed is the number of distinct collected indices |
| Collision.ResolveHitsScore | space3.py:172-187 | the score rises by exactly the number of bullets consumed, and at most that many enemies are removed |
| Collision.SingleHitScenario | space3.py:172-187 | one bullet in one enemy: one point, both removed |
| Collision.DoubleHitScenario | space3.py:172-187 | two bullets in the same enemy in one tick: two points, both bullets gone, one enemy removed |
| Collision.EdgeIsNoHit | space3.py:176 | a bullet on an enemy's left edge is no hit: score, bullets and enemies unchanged |
| Boundary.BreachesClosedForm | space3.py:191-199 | k breaches: an active shield absorbs only the first, every other costs a life and clears double shot, game over exactly when a life lost leaves none |
| Boundary.AboveRowExactly | space3.py:190-202 | the enemies kept are exactly those above the breach row, and every enemy is either kept or counted as a breach |
| Boundary.AboveRowConcat | space3.py:190-202 | the survivors keep their order: the pass distributes over concatenation |
| Boundary.LastLifeScenario | space3.py:190-202 | no shield, one life, one enemy at the row: lives 0, game over, double shot off, enemy removed |
| Boundary.ShieldScenario | space3.py:190-202 | an active shield takes the hit: lives and double shot unchanged, shield off, enemy removed |
| Boundary.LivesBelowZeroScenario | space3.py:190-202 | two breaches with one life and no shield leave lives at -1 |
| PowerUps.Fall | space3.py:169 | the power-ups kept are exactly those with y < HEIGHT, each moved down by 2 with its kind |
| PowerUps.FallConcat | space3.py:169 | falling keeps the power-ups' order: it distributes over concatenation |
| PowerUps.PickupsClosedForm | space3.py:205-215 | collection turns the shield on and restarts its timer if a shield is caught, turns double shot on if a double is caught, clears the enemies if a bomb is caught; nothing else changes |
| PowerUps.UncaughtExactly | space3.py:205-217 | the power-ups kept are exactly those the ship does not catch, and there are no more of them than before |
| PowerUps.UncaughtConcat | space3.py:205-217 | the power-ups kept keep their order: the pass distributes over concatenation |
| PowerUps.FreshShieldHolds | space3.py:208-221 | a shield caught in a tick is still on at the end of that tick |
| PowerUps.ExpiryIsStrict | space3.py:220-221 | the shield stays on exactly when it was on and at most 5000 ms have passed |
| PowerUps.BombScenario | space3.py:207-214 | a bomb caught with five enemies on screen removes all five |
| Frame.InitialConsistent | space3.py:114-116 | the start state is consistent |
| Frame.KeysKeepConsistent | space3.py:123-140 | key events keep the state consistent |
| Frame.AdvanceFacts | space3.py:141-169 | the movement passes count one frame, keep score, lives and game over, and keep enemies on screen |
| Frame.ResolveHitsFacts | space3.py:172-187 | the collision pass never lowers the score and keeps enemies on screen |
| Frame.CheckBottomFacts | space3.py:189-202 | the bottom pass never adds lives, and game over holds exactly when no life is left |
| Frame.CollectFacts | space3.py:204-221 | collection and expiry keep score, lives and game over |
| Frame.SimulateKeepsConsistent | space3.py:141-221 | the simulation passes keep the state consistent, count one frame, never lower the score, never add lives |
| Frame.TickWhilePlaying | space3.py:118-221 | a tick while playing keeps the state consistent, counts one frame, never lowers the score, never adds lives |
| Frame.TickKeepsConsistent | space3.py:118-221 | every tick from a consistent state yields a consistent state |
| Frame.GameOverIsFrozen | space3.py:126-141 | on the game-over screen, a tick without R changes nothing |
| Frame.RestartTick | space3.py:123-141 | on the game-over screen, the events before the first R have no effect and the tick runs from the initial state with the events after it |
| Game.Session.constructor | space3.py:114-116 | a new session is in the initial state |
| Game.Session.Reset | space3.py:55-64 | the fields become ResetGame of the fields before |
| Game.Session.HandleEvents | space3.py:123-140 | the event loop leaves the fields as HandleKeys gives them |
| Game.Session.PressKey | space3.py:126-137 | one key-down event leaves the fields as HandleKey gives them |
| Game.Session.MoveShip | space3.py:143-147 | the fields become MovePlayer of the fields before |
| Game.Session.SpawnEnemy | space3.py:152-163 | the fields become Spawn of the fields before |
| Game.Session.SteerEnemies | space3.py:166 | only the enemy list changes, to Steered |
| Game.Session.MoveEntities | space3.py:141-169 | the movement part of the loop body leaves the fields as Frame.Advance gives them |
| Game.Session.ResolveBulletHits | space3.py:172-187 | the collision pass leaves the fields as ResolveHits gives them |
| Game.Session.RemoveBreaches | space3.py:189-202 | the bottom pass leaves the fields as CheckBottom gives them |
| Game.Session.LoseLife | space3.py:193-199 | one breach leaves the fields as Breach gives them |
| Game.Session.CollectPowerUps | space3.py:204-217 | the collection pass leaves the fields as Collect gives them |
| Game.Session.ApplyPowerUp | space3.py:208-214 | one collected power-up leaves the fields as Apply gives them |
| Game.Session.ResolveInteractions | space3.py:171-221 | the interaction part of the loop body leaves the fields as Frame.Interact gives them |
| Game.Session.Step | space3.py:118-221 | one iteration of the main loop leaves the fields as Frame.Tick gives them |

## Left out

- Drawing is not modelled: the stars, sprites, texts, screen fill and
  display update (lines 65-91, 120-121, 223-238) change no game state.
- Window and process setup is not modelled: pygame initialisation, image
  loading, fonts and the frame clock (`clock.tick(30)`).
- The `running` flag is not modelled. A window close, or Escape on the
  game-over screen, ends the process after the current iteration. While
  playing, Escape does nothing. Neither changes game state.
- Probabilities are not modelled. The 0.02 chase draw, the 0.2 drop draw,
  the uniform choice of power-up kind and the spawn column come in as
  `Draws`. The model does not state their distributions, only that the
  spawn column lies in `[0, WIDTH - enemy_width]`.
- The clock is read twice in the source (lines 210 and 220). The model uses
  one reading `now` for both.
- Sprite sizes come from image files and are a parameter `Sprites`, with
  positive sizes and an enemy no wider than the screen.
- Game.Session.ResolveBulletHits and Collision.ScanBullets do not keep the
  source's order of updates. The source adds each point and each dropped
  power-up to the globals during the scan. The model's scan collects them
  in local values, and the method adds them to the fields once the scan is
  over. Nothing reads those fields during the scan, so the resulting state
  is the same.
- Integers are unbounded, as in Python. No wrap-around exists to model.
