/** One iteration of the main loop, as a function of the state before it:
    the key events first, then, unless the game is over, the simulation
    passes in the order the loop runs them. */
module Frame {
  import opened Arena
  import opened Controls
  import opened Difficulty
  import opened Behaviour
  import opened Collision
  import opened Boundary
  import opened PowerUps

  /** What the player did during the tick: the key-down events in order,
      and whether the arrow keys are held when sampled. */
  datatype Input = Input(keys: seq<Key>, left: bool, right: bool)

  /** The random draws of one tick: the column of a spawned enemy, the
      chase draw of the enemy at each position, and the drop draw of the
      n-th hit (None: no drop). */
  datatype Draws = Draws(spawnX: int, chase: nat -> bool, drop: nat -> Option<Kind>)

  /** The spawn column is drawn from [0, WIDTH - ew]. */
  predicate ValidDraws(d: Draws, sp: Sprites) {
    0 <= d.spawnX <= WIDTH - sp.ew
  }

  /** The movement passes of a tick: the ship, the bullets, spawning, the
      enemies and the falling power-ups. */
  function Advance(s: State, left: bool, right: bool, d: Draws, sp: Sprites): State
    requires sp.Valid()
  {
    var moved := MovePlayer(s, left, right, sp);
    var drifted := moved.(bullets := MoveBullets(moved.bullets));
    var spawned := Spawn(drifted, d.spawnX);
    var steered := spawned.(enemies := Steered(spawned.enemies, spawned.bullets, spawned.playerX, d.chase, sp.ew));
    steered.(powerups := Fall(steered.powerups))
  }

  /** The interaction passes of a tick: collisions, the bottom row,
      power-up collection and shield expiry. */
  function Interact(s: State, d: Draws, now: int, sp: Sprites): State
    requires sp.Valid()
  {
    ExpireShield(Collect(CheckBottom(ResolveHits(s, d.drop, sp)), now, sp), now)
  }

  /** The simulation part of one tick, pass by pass. */
  function Simulate(s: State, left: bool, right: bool, d: Draws, now: int, sp: Sprites): State
    requires sp.Valid()
  {
    Interact(Advance(s, left, right, d, sp), d, now, sp)
  }

  /** One whole tick. */
  function Tick(s: State, input: Input, d: Draws, now: int, sp: Sprites): State
    requires sp.Valid()
  {
    var handled := HandleKeys(s, input.keys, sp);
    if handled.gameOver then handled else Simulate(handled, input.left, input.right, d, now, sp)
  }

  /** What holds of every state the loop reaches: at most the starting
      lives, game over exactly when no life is left, non-negative counters,
      and every enemy horizontally on screen. */
  predicate Consistent(s: State, sp: Sprites) {
    s.lives <= START_LIVES && (s.gameOver <==> s.lives <= 0) &&
    s.score >= 0 && s.frameCount >= 0 && OnScreen(s.enemies, sp)
  }

  lemma InitialConsistent(sp: Sprites)
    requires sp.Valid()
    ensures Consistent(Initial(), sp)
  {
  }

  /** Key events keep the state consistent: firing only adds bullets and a
      restart yields the initial state. */
  lemma {:induction false} KeysKeepConsistent(s: State, keys: seq<Key>, sp: Sprites)
    requires sp.Valid() && Consistent(s, sp)
    ensures Consistent(HandleKeys(s, keys, sp), sp)
    decreases |keys|
  {
    if keys != [] {
      KeysKeepConsistent(s, keys[..|keys| - 1], sp);
      RestartIsInitial(HandleKeys(s, keys[..|keys| - 1], sp));
    }
  }

  predicate OnScreen(es: seq<Enemy>, sp: Sprites) {
    forall e :: e in es ==> 0 <= e.x <= WIDTH - sp.ew
  }

  /** What the movement passes do to the counters. */
  lemma AdvanceFacts(s: State, left: bool, right: bool, d: Draws, sp: Sprites)
    requires sp.Valid() && ValidDraws(d, sp) && OnScreen(s.enemies, sp)
    ensures var r := Advance(s, left, right, d, sp);
      r.score == s.score && r.lives == s.lives && r.gameOver == s.gameOver &&
      r.frameCount == s.frameCount + 1 && OnScreen(r.enemies, sp)
  {
    var moved := MovePlayer(s, left, right, sp);
    var drifted := moved.(bullets := MoveBullets(moved.bullets));
    var spawned := Spawn(drifted, d.spawnX);
    forall e | e in spawned.enemies ensures 0 <= e.x <= WIDTH - sp.ew {
      var i :| 0 <= i < |spawned.enemies| && spawned.enemies[i] == e;
      if i < |drifted.enemies| {
        assert e == spawned.enemies[..|drifted.enemies|][i];
        assert e in drifted.enemies;
      }
    }
    var steered := Steered(spawned.enemies, spawned.bullets, spawned.playerX, d.chase, sp.ew);
    forall e | e in steered ensures 0 <= e.x <= WIDTH - sp.ew {
      var i :| 0 <= i < |steered| && steered[i] == e;
      assert e == Steer(spawned.enemies[i], spawned.bullets, spawned.playerX, d.chase(i), sp.ew);
    }
  }

  lemma ResolveHitsFacts(s: State, drop: nat -> Option<Kind>, sp: Sprites)
    requires OnScreen(s.enemies, sp)
    ensures var r := ResolveHits(s, drop, sp);
      r.score >= s.score && r.lives == s.lives && r.gameOver == s.gameOver &&
      r.frameCount == s.frameCount && OnScreen(r.enemies, sp)
  {
    var hit := HitIndices(s.bullets, s.enemies, sp);
    forall e | e in WithoutIndices(s.enemies, hit) ensures 0 <= e.x <= WIDTH - sp.ew {
      WithoutIndicesExactly(s.enemies, hit, e);
    }
  }

  lemma CheckBottomFacts(s: State, sp: Sprites)
    requires OnScreen(s.enemies, sp) && !s.gameOver && s.lives > 0
    ensures var r := CheckBottom(s);
      r.score == s.score && r.lives <= s.lives && (r.gameOver <==> r.lives <= 0) &&
      r.frameCount == s.frameCount && OnScreen(r.enemies, sp)
  {
    BreachesClosedForm(s, BreachCount(s.enemies));
    forall e | e in AboveRow(s.enemies) ensures 0 <= e.x <= WIDTH - sp.ew {
      AboveRowExactly(s.enemies, e);
    }
  }

  lemma CollectFacts(s: State, now: int, sp: Sprites)
    requires OnScreen(s.enemies, sp)
    ensures var r := ExpireShield(Collect(s, now, sp), now);
      r.score == s.score && r.lives == s.lives && r.gameOver == s.gameOver &&
      r.frameCount == s.frameCount && OnScreen(r.enemies, sp)
  {
    PickupsClosedForm(s, s.powerups, s.playerX, s.playerY, now, sp);
  }

  /** The simulation passes keep the state consistent. */
  lemma SimulateKeepsConsistent(s: State, left: bool, right: bool, d: Draws, now: int, sp: Sprites)
    requires sp.Valid() && ValidDraws(d, sp) && Consistent(s, sp) && !s.gameOver
    ensures var r := Simulate(s, left, right, d, now, sp);
      Consistent(r, sp) && r.frameCount == s.frameCount + 1 &&
      r.score >= s.score && r.lives <= s.lives
  {
    var fallen := Advance(s, left, right, d, sp);
    AdvanceFacts(s, left, right, d, sp);
    var shot := ResolveHits(fallen, d.drop, sp);
    ResolveHitsFacts(fallen, d.drop, sp);
    var bottomed := CheckBottom(shot);
    CheckBottomFacts(shot, sp);
    CollectFacts(bottomed, now, sp);
  }

  /** While playing, a tick counts exactly one frame, never lowers the
      score and never adds lives, and keeps the state consistent. */
  lemma TickWhilePlaying(s: State, input: Input, d: Draws, now: int, sp: Sprites)
    requires sp.Valid() && ValidDraws(d, sp) && Consistent(s, sp) && !s.gameOver
    ensures var r := Tick(s, input, d, now, sp);
      Consistent(r, sp) && r.frameCount == s.frameCount + 1 &&
      r.score >= s.score && r.lives <= s.lives
  {
    KeysWhilePlaying(s, input.keys, sp);
    var handled := HandleKeys(s, input.keys, sp);
    SimulateKeepsConsistent(handled, input.left, input.right, d, now, sp);
  }

  /** Every tick keeps the state consistent, from any consistent state. */
  lemma TickKeepsConsistent(s: State, input: Input, d: Draws, now: int, sp: Sprites)
    requires sp.Valid() && ValidDraws(d, sp) && Consistent(s, sp)
    ensures Consistent(Tick(s, input, d, now, sp), sp)
  {
    KeysKeepConsistent(s, input.keys, sp);
    var handled := HandleKeys(s, input.keys, sp);
    if !handled.gameOver {
      SimulateKeepsConsistent(handled, input.left, input.right, d, now, sp);
    }
  }

  /** On the game-over screen, a tick without R changes nothing at all. */
  lemma GameOverIsFrozen(s: State, input: Input, d: Draws, now: int, sp: Sprites)
    requires sp.Valid() && s.gameOver && LetterR !in input.keys
    ensures Tick(s, input, d, now, sp) == s
  {
    KeysOnGameOver(s, input.keys, sp);
  }

  /** Pressing R on the game-over screen starts a fresh game in the same
      tick: the events before the first R have no effect, and the tick runs
      from the initial state with the events after it. */
  lemma RestartTick(s: State, input: Input, pre: seq<Key>, post: seq<Key>, d: Draws, now: int, sp: Sprites)
    requires sp.Valid() && s.gameOver
    requires input.keys == pre + [LetterR] + post && LetterR !in pre
    ensures Tick(s, input, d, now, sp) == Tick(Initial(), Input(post, input.left, input.right), d, now, sp)
  {
    RestartMidTick(s, pre, post, sp);
  }
}
