/** Geometry, speeds and the value-typed entities of the space shooter,
    plus a snapshot of the session's global variables. */
module Arena {

  const WIDTH := 600
  const HEIGHT := 400
  const PLAYER_SPEED := 6
  /** Bullets move by this much per tick (upwards, hence negative). */
  const BULLET_SPEED := -7
  const ENEMY_SPEED := 2
  const POWERUP_SPEED := 2
  /** An enemy whose top edge reaches this row has breached the bottom. */
  const BREACH_ROW := HEIGHT - 30
  const START_LIVES := 3
  const START_SPAWN_TIME := 50
  /** Milliseconds a collected shield lasts. */
  const SHIELD_MILLIS := 5000
  /** Where the ship stands at start and after a restart. */
  const START_X := WIDTH / 2
  const START_Y := HEIGHT - 60

  datatype Option<T> = None | Some(value: T)

  datatype Kind = Shield | Double | Bomb

  datatype Bullet = Bullet(x: int, y: int)
  datatype Enemy = Enemy(x: int, y: int)
  datatype PowerUp = PowerUp(x: int, y: int, kind: Kind)

  /** Widths and heights of the player and enemy images, read from the
      loaded sprites at start-up. */
  datatype Sprites = Sprites(pw: int, ph: int, ew: int, eh: int) {
    predicate Valid() {
      pw > 0 && ph > 0 && 0 < ew <= WIDTH && eh > 0
    }
  }

  /** The globals the main loop reads and writes, as one value. */
  datatype State = State(
    score: int,
    lives: int,
    frameCount: int,
    spawnTime: int,
    bullets: seq<Bullet>,
    enemies: seq<Enemy>,
    powerups: seq<PowerUp>,
    doubleShoot: bool,
    shieldActive: bool,
    shieldTimer: int,
    gameOver: bool,
    playerX: int,
    playerY: int)

  /** reset_game: every session counter and collection back to its start
      value; the ship's position and the game-over flag are left alone. */
  function ResetGame(s: State): (r: State)
    ensures r.score == 0 && r.lives == START_LIVES && r.frameCount == 0
    ensures r.spawnTime == START_SPAWN_TIME && r.shieldTimer == 0
    ensures r.bullets == [] && r.enemies == [] && r.powerups == []
    ensures !r.doubleShoot && !r.shieldActive
    ensures r.gameOver == s.gameOver && r.playerX == s.playerX && r.playerY == s.playerY
  {
    s.(score := 0, lives := START_LIVES, bullets := [], enemies := [], powerups := [],
       frameCount := 0, doubleShoot := false, shieldActive := false, shieldTimer := 0,
       spawnTime := START_SPAWN_TIME)
  }

  /** Pressing R on the game-over screen: reset_game, leave game over,
      put the ship back at its start position. */
  function Restart(s: State): State {
    ResetGame(s).(gameOver := false, playerX := START_X, playerY := START_Y)
  }

  /** The state the main loop starts from. */
  function Initial(): State {
    State(0, START_LIVES, 0, START_SPAWN_TIME, [], [], [], false, false, 0, false, START_X, START_Y)
  }

  lemma ResetGameIdempotent(s: State)
    ensures ResetGame(ResetGame(s)) == ResetGame(s)
  {
  }

  /** A restart forgets everything about the state it started from. */
  lemma RestartIsInitial(s: State)
    ensures Restart(s) == Initial()
  {
  }
}
