/** Key events, firing, ship movement and bullet drift: the part of the main
    loop that runs before the enemies move. */
module Controls {
  import opened Arena

  /** A key-down event of one tick. Escape on the game-over screen only
      stops the process, and elsewhere does nothing; it never changes game
      state. */
  datatype Key = Space | LetterR | Escape | OtherKey

  /** The bullets a press of the fire key adds while playing: one from the
      middle of the ship, or two from near its edges with double shot. */
  function Shots(s: State, sp: Sprites): (r: seq<Bullet>)
    requires sp.Valid()
    ensures |r| == if s.doubleShoot then 2 else 1
    ensures forall b :: b in r ==> b.y == s.playerY - 20
    ensures !s.doubleShoot ==> r[0].x == s.playerX + sp.pw / 2
    ensures s.doubleShoot ==> r[0].x - s.playerX == s.playerX + sp.pw - r[1].x == 10
  {
    if s.doubleShoot then
      [Bullet(s.playerX + 10, s.playerY - 20), Bullet(s.playerX + sp.pw - 10, s.playerY - 20)]
    else
      [Bullet(s.playerX + sp.pw / 2, s.playerY - 20)]
  }

  /** One key-down event: Space fires unless the game is over; R on the
      game-over screen restarts. The two tests run one after the other on
      the same event. */
  function HandleKey(s: State, k: Key, sp: Sprites): State
    requires sp.Valid()
  {
    var fired := if !s.gameOver && k == Space then s.(bullets := s.bullets + Shots(s, sp)) else s;
    if fired.gameOver && k == LetterR then Restart(fired) else fired
  }

  /** The events of one tick, in the order they were polled. */
  function HandleKeys(s: State, keys: seq<Key>, sp: Sprites): State
    requires sp.Valid()
    decreases |keys|
  {
    if keys == [] then s else HandleKey(HandleKeys(s, keys[..|keys| - 1], sp), keys[|keys| - 1], sp)
  }

  /** Number of fire-key presses in a list of events. */
  function Presses(keys: seq<Key>): nat {
    if keys == [] then 0 else Presses(keys[..|keys| - 1]) + (if keys[|keys| - 1] == Space then 1 else 0)
  }

  /** n copies of the same volley, one after the other. */
  function Volleys(v: seq<Bullet>, n: nat): (r: seq<Bullet>)
    ensures |r| == n * |v|
  {
    if n == 0 then [] else Volleys(v, n - 1) + v
  }

  /** While playing, events only add bullets: per fire press the volley
      Shots gives (one bullet, or two with double shot), appended after the
      bullets already in flight. */
  lemma {:induction false} KeysWhilePlaying(s: State, keys: seq<Key>, sp: Sprites)
    requires sp.Valid() && !s.gameOver
    ensures var r := HandleKeys(s, keys, sp);
      r == s.(bullets := r.bullets) &&
      r.bullets == s.bullets + Volleys(Shots(s, sp), Presses(keys)) &&
      |r.bullets| == |s.bullets| + Presses(keys) * (if s.doubleShoot then 2 else 1)
    decreases |keys|
  {
    if keys != [] {
      var init := keys[..|keys| - 1];
      KeysWhilePlaying(s, init, sp);
      var r0 := HandleKeys(s, init, sp);
      assert Shots(r0, sp) == Shots(s, sp);
    }
  }

  /** On the game-over screen nothing but R has an effect: no bullets
      are fired. */
  lemma {:induction false} KeysOnGameOver(s: State, keys: seq<Key>, sp: Sprites)
    requires sp.Valid() && s.gameOver && LetterR !in keys
    ensures HandleKeys(s, keys, sp) == s
    decreases |keys|
  {
    if keys != [] {
      assert keys[|keys| - 1] in keys;
      var init := keys[..|keys| - 1];
      assert forall k :: k in init ==> k in keys;
      KeysOnGameOver(s, init, sp);
    }
  }

  /** Held arrow keys: left then right, each guarded by the ship's position
      before it (and not clamped to the screen). */
  function MovePlayer(s: State, left: bool, right: bool, sp: Sprites): (r: State)
    ensures r == s.(playerX := r.playerX)
    ensures r.playerX - s.playerX in {-PLAYER_SPEED, 0, PLAYER_SPEED}
    ensures r.playerX < s.playerX ==> left && s.playerX > 0
    ensures r.playerX > s.playerX ==> right && s.playerX < WIDTH - sp.pw
    ensures left && !right && s.playerX > 0 ==> r.playerX == s.playerX - PLAYER_SPEED
    ensures right && !left && s.playerX < WIDTH - sp.pw ==> r.playerX == s.playerX + PLAYER_SPEED
    ensures !left && !right ==> r.playerX == s.playerX
  {
    var x := if left && s.playerX > 0 then s.playerX - PLAYER_SPEED else s.playerX;
    var x' := if right && x < WIDTH - sp.pw then x + PLAYER_SPEED else x;
    s.(playerX := x')
  }

  /** Both arrow keys held: the right guard is tested against the position
      after the left step, so the steps cancel out unless one of the guards
      fails. */
  lemma MoveCases(s: State, sp: Sprites)
    ensures var x := s.playerX;
      var x' := MovePlayer(s, true, true, sp).playerX;
      (x > 0 && x - PLAYER_SPEED < WIDTH - sp.pw ==> x' == x) &&
      (x > 0 && x - PLAYER_SPEED >= WIDTH - sp.pw ==> x' == x - PLAYER_SPEED) &&
      (x <= 0 && x < WIDTH - sp.pw ==> x' == x + PLAYER_SPEED) &&
      (x <= 0 && x >= WIDTH - sp.pw ==> x' == x)
  {
  }

  /** The guard keeps the ship within one step of the playing field. */
  lemma MoveStaysNearField(s: State, left: bool, right: bool, sp: Sprites)
    requires -PLAYER_SPEED < s.playerX < WIDTH - sp.pw + PLAYER_SPEED
    ensures var x := MovePlayer(s, left, right, sp).playerX;
      -PLAYER_SPEED < x < WIDTH - sp.pw + PLAYER_SPEED
  {
  }

  /** The guard is not a clamp: a ship 2 units left of the right edge still
      moves a full step and ends beyond it. */
  lemma MoveCanOvershoot()
    ensures var sp := Sprites(40, 40, 40, 40);
      var r := MovePlayer(Initial().(playerX := 558), false, true, sp);
      r.playerX == 564 && r.playerX > WIDTH - sp.pw
  {
  }

  /** Bullet drift: bullets still below the top edge move up, the others
      are dropped; the order is kept. */
  function MoveBullets(bs: seq<Bullet>): (r: seq<Bullet>)
    ensures |r| <= |bs|
    ensures forall b :: b in r <==> exists c :: c in bs && c.y > 0 && b == Bullet(c.x, c.y + BULLET_SPEED)
    decreases |bs|
  {
    if bs == [] then []
    else
      var c := bs[|bs| - 1];
      MoveBullets(bs[..|bs| - 1]) + (if c.y > 0 then [Bullet(c.x, c.y + BULLET_SPEED)] else [])
  }

  /** Bullet drift keeps the order: it distributes over concatenation. */
  lemma {:induction false} MoveBulletsConcat(a: seq<Bullet>, b: seq<Bullet>)
    ensures MoveBullets(a + b) == MoveBullets(a) + MoveBullets(b)
    decreases |b|
  {
    if b == [] {
      assert a + b == a;
    } else {
      var init := b[..|b| - 1];
      MoveBulletsConcat(a, init);
      assert (a + b)[..|a + b| - 1] == a + init;
    }
  }

  /** Key events run one after the other: the events of a tick split at any
      point are the first part followed by the second. */
  lemma {:induction false} HandleKeysConcat(s: State, a: seq<Key>, b: seq<Key>, sp: Sprites)
    requires sp.Valid()
    ensures HandleKeys(s, a + b, sp) == HandleKeys(HandleKeys(s, a, sp), b, sp)
    decreases |b|
  {
    if b == [] {
      assert a + b == a;
    } else {
      var init := b[..|b| - 1];
      HandleKeysConcat(s, a, init, sp);
      assert (a + b)[..|a + b| - 1] == a + init;
    }
  }

  /** On the game-over screen, the first R of the tick restarts: the events
      before it have no effect, and those after it act on the initial
      state. */
  lemma RestartMidTick(s: State, pre: seq<Key>, post: seq<Key>, sp: Sprites)
    requires sp.Valid() && s.gameOver && LetterR !in pre
    ensures HandleKeys(s, pre + [LetterR] + post, sp) == HandleKeys(Initial(), post, sp)
  {
    HandleKeysConcat(s, pre + [LetterR], post, sp);
    HandleKeysConcat(s, pre, [LetterR], sp);
    KeysOnGameOver(s, pre, sp);
    assert [LetterR][..0] == [];
    RestartIsInitial(s);
  }
}
