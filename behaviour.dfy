/** enemy_ai: each enemy dodges bullets that are above it and close
    horizontally, sometimes turns towards the ship instead, always descends,
    and is kept inside the screen horizontally. */
module Behaviour {
  import opened Arena

  const DODGE_BAND := 30
  const DODGE_DRIFT := 5
  const CHASE_DRIFT := 3

  function Abs(n: int): nat {
    if n < 0 then -n else n
  }

  function Min(a: int, b: int): int {
    if a <= b then a else b
  }

  function Max(a: int, b: int): int {
    if a >= b then a else b
  }

  /** A bullet within the horizontal band around the enemy and above it. */
  predicate Threatens(b: Bullet, e: Enemy) {
    Abs(b.x - e.x) < DODGE_BAND && b.y < e.y
  }

  predicate Threatened(e: Enemy, bs: seq<Bullet>) {
    exists b :: b in bs && Threatens(b, e)
  }

  lemma ThreatenedAppend(e: Enemy, bs: seq<Bullet>, b: Bullet)
    ensures Threatened(e, bs + [b]) <==> Threatened(e, bs) || Threatens(b, e)
  {
    if Threatened(e, bs + [b]) {
      var c :| c in bs + [b] && Threatens(c, e);
      assert c in bs || c == b;
    }
    if Threatens(b, e) {
      assert b in bs + [b];
    }
    if Threatened(e, bs) {
      var c :| c in bs && Threatens(c, e);
      assert c in bs + [b];
    }
  }

  /** Enemies in the right half dodge right, the others left. */
  function DodgeDrift(e: Enemy): int {
    if e.x > WIDTH / 2 then DODGE_DRIFT else -DODGE_DRIFT
  }

  /** The horizontal move of one enemy in one tick: the dodge decision
      first, then, when the chase draw succeeded, a step towards the ship
      that replaces it (unless the ship is level with the enemy). */
  function Drift(e: Enemy, bs: seq<Bullet>, playerX: int, chase: bool): (d: int)
    ensures d in {-DODGE_DRIFT, -CHASE_DRIFT, 0, CHASE_DRIFT, DODGE_DRIFT}
  {
    var dodge := if Threatened(e, bs) then DodgeDrift(e) else 0;
    if chase && playerX > e.x then CHASE_DRIFT
    else if chase && playerX < e.x then -CHASE_DRIFT
    else dodge
  }

  /** The drift table, case by case. */
  lemma DriftCases(e: Enemy, bs: seq<Bullet>, playerX: int, chase: bool)
    ensures chase && playerX != e.x ==>
      Drift(e, bs, playerX, chase) == (if playerX > e.x then CHASE_DRIFT else -CHASE_DRIFT)
    ensures (!chase || playerX == e.x) && Threatened(e, bs) ==>
      Drift(e, bs, playerX, chase) == (if e.x > WIDTH / 2 then DODGE_DRIFT else -DODGE_DRIFT)
    ensures (!chase || playerX == e.x) && !Threatened(e, bs) ==> Drift(e, bs, playerX, chase) == 0
  {
  }

  /** One enemy after one tick. */
  function Steer(e: Enemy, bs: seq<Bullet>, playerX: int, chase: bool, ew: int): (r: Enemy)
    ensures r.y == e.y + ENEMY_SPEED
    ensures 0 <= r.x && (ew <= WIDTH ==> r.x <= WIDTH - ew)
    ensures 0 <= e.x + Drift(e, bs, playerX, chase) <= WIDTH - ew ==> r.x == e.x + Drift(e, bs, playerX, chase)
    ensures e.x + Drift(e, bs, playerX, chase) < 0 ==> r.x == 0
    ensures ew <= WIDTH && e.x + Drift(e, bs, playerX, chase) > WIDTH - ew ==> r.x == WIDTH - ew
  {
    Enemy(Max(0, Min(WIDTH - ew, e.x + Drift(e, bs, playerX, chase))), e.y + ENEMY_SPEED)
  }

  /** All enemies after one tick, in their order; `chase(i)` is the chase
      draw made for the enemy at position i. */
  function Steered(es: seq<Enemy>, bs: seq<Bullet>, playerX: int, chase: nat -> bool, ew: int): seq<Enemy> {
    seq(|es|, i requires 0 <= i < |es| => Steer(es[i], bs, playerX, chase(i), ew))
  }

  /** enemy_ai, loop by loop: a new list with one moved enemy per old one. */
  method EnemyAi(enemies: seq<Enemy>, bullets: seq<Bullet>, playerX: int, chase: nat -> bool, ew: int)
    returns (moved: seq<Enemy>)
    ensures |moved| == |enemies|
    ensures forall i :: 0 <= i < |enemies| ==>
      moved[i] == Steer(enemies[i], bullets, playerX, chase(i), ew)
  {
    moved := [];
    var k := 0;
    while k < |enemies|
      invariant 0 <= k <= |enemies|
      invariant |moved| == k
      invariant forall i :: 0 <= i < k ==> moved[i] == Steer(enemies[i], bullets, playerX, chase(i), ew)
    {
      var ex, ey := enemies[k].x, enemies[k].y;
      var moveX := 0;
      var j := 0;
      while j < |bullets|
        invariant 0 <= j <= |bullets|
        invariant moveX == if Threatened(enemies[k], bullets[..j]) then DodgeDrift(enemies[k]) else 0
      {
        var b := bullets[j];
        assert bullets[..j + 1] == bullets[..j] + [b];
        ThreatenedAppend(enemies[k], bullets[..j], b);
        if Abs(b.x - ex) < DODGE_BAND && b.y < ey {
          moveX := if ex > WIDTH / 2 then DODGE_DRIFT else -DODGE_DRIFT;
        }
        j := j + 1;
      }
      assert bullets[..j] == bullets;
      if chase(k) {
        if playerX > ex {
          moveX := CHASE_DRIFT;
        } else if playerX < ex {
          moveX := -CHASE_DRIFT;
        }
      }
      ex := ex + moveX;
      ey := ey + ENEMY_SPEED;
      ex := Max(0, Min(WIDTH - ew, ex));
      moved := moved + [Enemy(ex, ey)];
      k := k + 1;
    }
  }
}
