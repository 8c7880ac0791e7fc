/** The game session: the module-level variables of the game as the fields
    of one object, the main loop's body as its Step method, and each pass of
    that body that loops over a list as a method of its own. Every method is
    proved to leave the object in the state the functions of Frame and the
    pass modules describe. */
module Game {
  import opened Arena
  import opened Controls
  import opened Difficulty
  import opened Behaviour
  import opened Collision
  import opened Boundary
  import opened PowerUps
  import opened Frame

  class Session {
    /** Sizes of the loaded images; fixed for the whole run. */
    const sprites: Sprites

    var score: int
    var lives: int
    var bullets: seq<Bullet>
    var enemies: seq<Enemy>
    var enemySpawnTime: int
    var frameCount: int
    var powerups: seq<PowerUp>
    var doubleShoot: bool
    var shieldActive: bool
    var shieldTimer: int
    var gameOver: bool
    var playerX: int
    var playerY: int

    /** The session's variables as one value. */
    ghost function Snapshot(): State
      reads this
    {
      State(score, lives, frameCount, enemySpawnTime, bullets, enemies, powerups,
            doubleShoot, shieldActive, shieldTimer, gameOver, playerX, playerY)
    }

    /** Start-up: the initial values of the globals, the ship at its start
        position, then reset_game. */
    constructor (sp: Sprites)
      requires sp.Valid()
      ensures sprites == sp
      ensures Snapshot() == Initial()
    {
      sprites := sp;
      score, lives := 0, START_LIVES;
      bullets, enemies, powerups := [], [], [];
      enemySpawnTime, frameCount := START_SPAWN_TIME, 0;
      doubleShoot, shieldActive, shieldTimer := false, false, 0;
      gameOver := false;
      playerX, playerY := START_X, START_Y;
      new;
      Reset();
    }

    /** reset_game. */
    method Reset()
      modifies this
      ensures Snapshot() == ResetGame(old(Snapshot()))
    {
      score, lives, frameCount, enemySpawnTime := 0, START_LIVES, 0, START_SPAWN_TIME;
      bullets, enemies, powerups := [], [], [];
      doubleShoot, shieldActive, shieldTimer := false, false, 0;
    }

    /** The event loop of one tick: fire on Space while playing, restart on
        R when the game is over. */
    method HandleEvents(keys: seq<Key>)
      requires sprites.Valid()
      modifies this
      ensures Snapshot() == HandleKeys(old(Snapshot()), keys, sprites)
    {
      var i := 0;
      while i < |keys|
        invariant 0 <= i <= |keys|
        invariant Snapshot() == HandleKeys(old(Snapshot()), keys[..i], sprites)
      {
        assert keys[..i + 1][..i] == keys[..i];
        PressKey(keys[i]);
        i := i + 1;
      }
      assert keys[..i] == keys;
    }

    /** One key-down event. */
    method PressKey(key: Key)
      requires sprites.Valid()
      modifies this
      ensures Snapshot() == HandleKey(old(Snapshot()), key, sprites)
    {
      if !gameOver && key == Space {
        if doubleShoot {
          bullets := bullets + [Bullet(playerX + 10, playerY - 20)];
          bullets := bullets + [Bullet(playerX + sprites.pw - 10, playerY - 20)];
        } else {
          bullets := bullets + [Bullet(playerX + sprites.pw / 2, playerY - 20)];
        }
      }
      ghost var fired := Snapshot();
      if gameOver && key == LetterR {
        Reset();
        gameOver := false;
        playerX, playerY := START_X, START_Y;
        assert Snapshot() == Restart(fired);
      }
    }

    /** Bullet collisions: scan every bullet against the enemies, then
        score the hits, add the dropped power-ups, keep the bullets that hit
        nothing and remove the enemies hit, only after the scan. */
    method ResolveBulletHits(drop: nat -> Option<Kind>)
      requires sprites.Valid()
      modifies this
      ensures Snapshot() == ResolveHits(old(Snapshot()), drop, sprites)
    {
      var hitEnemies, newBullets, dropped := ScanBullets(bullets, enemies, drop, sprites);
      score := score + |hitEnemies|;
      powerups := powerups + dropped;
      bullets := newBullets;
      enemies := WithoutIndices(enemies, hitEnemies);
    }

    /** Enemies reaching the bottom: rebuild the list without them, and for
        each one use up the shield or lose a life. */
    method RemoveBreaches()
      modifies this
      ensures Snapshot() == CheckBottom(old(Snapshot()))
    {
      ghost var s0 := Snapshot();
      ghost var seen: seq<Enemy> := [];
      var survived: seq<Enemy> := [];
      var k := 0;
      while k < |enemies|
        invariant 0 <= k <= |enemies| && enemies == s0.enemies && seen == enemies[..k]
        invariant survived == AboveRow(seen)
        invariant Snapshot() == Breaches(s0, BreachCount(seen))
      {
        var e := enemies[k];
        assert (seen + [e])[..|seen|] == seen;
        if e.y >= BREACH_ROW {
          LoseLife();
        } else {
          survived := survived + [e];
        }
        seen := seen + [e];
        k := k + 1;
      }
      assert seen == enemies;
      enemies := survived;
    }

    /** One enemy at the bottom: the shield absorbs it, or a life is lost
        with double shot, and the game ends when no life is left. */
    method LoseLife()
      modifies this
      ensures Snapshot() == Breach(old(Snapshot()))
    {
      if !shieldActive {
        lives := lives - 1;
        doubleShoot := false;
        if lives <= 0 {
          gameOver := true;
        }
      } else {
        shieldActive := false;
      }
    }

    /** Power-up collection: apply the effect of each power-up the ship
        catches and keep the others. */
    method CollectPowerUps(now: int)
      requires sprites.Valid()
      modifies this
      ensures Snapshot() == Collect(old(Snapshot()), now, sprites)
    {
      ghost var s0 := Snapshot();
      ghost var seen: seq<PowerUp> := [];
      var newPowerups: seq<PowerUp> := [];
      var k := 0;
      while k < |powerups|
        invariant 0 <= k <= |powerups| && powerups == s0.powerups && seen == powerups[..k]
        invariant playerX == s0.playerX && playerY == s0.playerY
        invariant newPowerups == Uncaught(seen, playerX, playerY, sprites)
        invariant Snapshot() == Pickups(s0, seen, playerX, playerY, now, sprites)
      {
        var p := powerups[k];
        assert (seen + [p])[..|seen|] == seen;
        if playerX < p.x < playerX + sprites.pw && playerY - PICKUP_REACH < p.y < playerY + sprites.ph {
          ApplyPowerUp(p.kind, now);
        } else {
          newPowerups := newPowerups + [p];
        }
        seen := seen + [p];
        k := k + 1;
      }
      assert seen == powerups;
      powerups := newPowerups;
    }

    /** The effect of one collected power-up. */
    method ApplyPowerUp(kind: Kind, now: int)
      modifies this
      ensures Snapshot() == Apply(old(Snapshot()), kind, now)
    {
      match kind {
        case Shield =>
          shieldActive := true;
          shieldTimer := now;
        case Double =>
          doubleShoot := true;
        case Bomb =>
          enemies := [];
      }
    }

    /** One iteration of the main loop (drawing left out). */
    method Step(input: Input, d: Draws, now: int)
      requires sprites.Valid()
      modifies this
      ensures Snapshot() == Tick(old(Snapshot()), input, d, now, sprites)
    {
      HandleEvents(input.keys);
      if !gameOver {
        MoveEntities(input.left, input.right, d);
        ResolveInteractions(d, now);
      }
    }

    /** The movement part of the loop body: the ship follows the arrow
        keys, bullets fly, the spawn interval is updated and an enemy may
        appear, the enemies steer, and the power-ups fall. */
    method MoveEntities(left: bool, right: bool, d: Draws)
      requires sprites.Valid()
      modifies this
      ensures Snapshot() == Advance(old(Snapshot()), left, right, d, sprites)
    {
      MoveShip(left, right);
      ghost var moved := Snapshot();
      bullets := MoveBullets(bullets);
      ghost var drifted := Snapshot();
      assert drifted == moved.(bullets := MoveBullets(moved.bullets));
      SpawnEnemy(d.spawnX);
      SteerEnemies(d.chase);
      powerups := Fall(powerups);
    }

    /** The spawn interval follows the score; an enemy appears at the drawn
        column whenever the frame count reaches a multiple of it. */
    method SpawnEnemy(spawnX: int)
      modifies this
      ensures Snapshot() == Spawn(old(Snapshot()), spawnX)
    {
      enemySpawnTime := SpawnInterval(score);
      frameCount := frameCount + 1;
      if frameCount % enemySpawnTime == 0 {
        enemies := enemies + [Enemy(spawnX, 0)];
      }
    }

    /** enemy_ai applied to the enemy list. */
    method SteerEnemies(chase: nat -> bool)
      requires sprites.Valid()
      modifies this
      ensures Snapshot() == old(Snapshot()).(enemies := Steered(old(enemies), bullets, playerX, chase, sprites.ew))
    {
      enemies := EnemyAi(enemies, bullets, playerX, chase, sprites.ew);
    }

    /** Player movement: a step of PLAYER_SPEED in each held direction
        whose guard allows it. */
    method MoveShip(left: bool, right: bool)
      requires sprites.Valid()
      modifies this
      ensures Snapshot() == MovePlayer(old(Snapshot()), left, right, sprites)
    {
      if left && playerX > 0 {
        playerX := playerX - PLAYER_SPEED;
      }
      if right && playerX < WIDTH - sprites.pw {
        playerX := playerX + PLAYER_SPEED;
      }
    }

    /** The interaction part of the loop body: bullet collisions, enemies
        reaching the bottom, power-up collection, and shield expiry. */
    method ResolveInteractions(d: Draws, now: int)
      requires sprites.Valid()
      modifies this
      ensures Snapshot() == Interact(old(Snapshot()), d, now, sprites)
    {
      ResolveBulletHits(d.drop);
      RemoveBreaches();
      CollectPowerUps(now);
      if shieldActive && now - shieldTimer > SHIELD_MILLIS {
        shieldActive := false;
      }
    }
  }
}
