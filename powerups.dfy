/** Power-ups: they fall, the ship collects those inside its box (stretched
    30 units upwards), and a collected shield lasts 5000 ms. */
module PowerUps {
  import opened Arena

  /** How far above the ship's top edge a power-up still counts as caught. */
  const PICKUP_REACH := 30

  /** Power-up fall: those still above the bottom edge move down, the others
      are dropped; x and kind are kept, and so is the order. */
  function Fall(ps: seq<PowerUp>): (r: seq<PowerUp>)
    ensures |r| <= |ps|
    ensures forall p :: p in r <==>
      exists q :: q in ps && q.y < HEIGHT && p == PowerUp(q.x, q.y + POWERUP_SPEED, q.kind)
    decreases |ps|
  {
    if ps == [] then []
    else
      var q := ps[|ps| - 1];
      Fall(ps[..|ps| - 1]) + if q.y < HEIGHT then [PowerUp(q.x, q.y + POWERUP_SPEED, q.kind)] else []
  }

  /** Strictly inside the ship's box stretched PICKUP_REACH upwards. */
  predicate Caught(p: PowerUp, x: int, y: int, sp: Sprites) {
    x < p.x < x + sp.pw && y - PICKUP_REACH < p.y < y + sp.ph
  }

  /** The effect of collecting one power-up. */
  function Apply(s: State, k: Kind, now: int): State {
    match k
    case Shield => s.(shieldActive := true, shieldTimer := now)
    case Double => s.(doubleShoot := true)
    case Bomb => s.(enemies := [])
  }

  /** The effects of the power-ups in ps that the ship at (x, y) catches,
      applied in order. */
  function Pickups(s: State, ps: seq<PowerUp>, x: int, y: int, now: int, sp: Sprites): State
    decreases |ps|
  {
    if ps == [] then s
    else
      var r := Pickups(s, ps[..|ps| - 1], x, y, now, sp);
      var p := ps[|ps| - 1];
      if Caught(p, x, y, sp) then Apply(r, p.kind, now) else r
  }

  /** new_powerups: the power-ups not caught, in order. */
  function Uncaught(ps: seq<PowerUp>, x: int, y: int, sp: Sprites): seq<PowerUp>
    decreases |ps|
  {
    if ps == [] then []
    else
      var p := ps[|ps| - 1];
      Uncaught(ps[..|ps| - 1], x, y, sp) + if Caught(p, x, y, sp) then [] else [p]
  }

  /** The collection pass over the whole state. */
  function Collect(s: State, now: int, sp: Sprites): State {
    Pickups(s, s.powerups, s.playerX, s.playerY, now, sp)
      .(powerups := Uncaught(s.powerups, s.playerX, s.playerY, sp))
  }

  /** Shield expiry: only strictly more than SHIELD_MILLIS after pick-up. */
  function ExpireShield(s: State, now: int): State {
    if s.shieldActive && now - s.shieldTimer > SHIELD_MILLIS then s.(shieldActive := false) else s
  }

  predicate AnyCaught(ps: seq<PowerUp>, k: Kind, x: int, y: int, sp: Sprites) {
    exists p :: p in ps && p.kind == k && Caught(p, x, y, sp)
  }

  lemma AnyCaughtAppend(ps: seq<PowerUp>, p: PowerUp, k: Kind, x: int, y: int, sp: Sprites)
    ensures AnyCaught(ps + [p], k, x, y, sp) <==>
      AnyCaught(ps, k, x, y, sp) || (p.kind == k && Caught(p, x, y, sp))
  {
    if AnyCaught(ps + [p], k, x, y, sp) {
      var q :| q in ps + [p] && q.kind == k && Caught(q, x, y, sp);
      assert q in ps || q == p;
    }
    if AnyCaught(ps, k, x, y, sp) {
      var q :| q in ps && q.kind == k && Caught(q, x, y, sp);
      assert q in ps + [p];
    }
    assert p in ps + [p];
  }

  /** The pick-ups in closed form: a caught shield turns the shield on and
      restarts its timer, a caught double turns double shot on, a caught
      bomb clears the enemies; nothing else changes. */
  lemma {:induction false} PickupsClosedForm(s: State, ps: seq<PowerUp>, x: int, y: int, now: int, sp: Sprites)
    ensures var r := Pickups(s, ps, x, y, now, sp);
      r == s.(shieldActive := r.shieldActive, shieldTimer := r.shieldTimer,
              doubleShoot := r.doubleShoot, enemies := r.enemies) &&
      r.shieldActive == (s.shieldActive || AnyCaught(ps, Shield, x, y, sp)) &&
      r.shieldTimer == (if AnyCaught(ps, Shield, x, y, sp) then now else s.shieldTimer) &&
      r.doubleShoot == (s.doubleShoot || AnyCaught(ps, Double, x, y, sp)) &&
      r.enemies == (if AnyCaught(ps, Bomb, x, y, sp) then [] else s.enemies)
    decreases |ps|
  {
    if ps != [] {
      var init := ps[..|ps| - 1];
      var p := ps[|ps| - 1];
      PickupsClosedForm(s, init, x, y, now, sp);
      assert ps == init + [p];
      AnyCaughtAppend(init, p, Shield, x, y, sp);
      AnyCaughtAppend(init, p, Double, x, y, sp);
      AnyCaughtAppend(init, p, Bomb, x, y, sp);
    }
  }

  /** The power-ups left are exactly those not caught. */
  lemma {:induction false} UncaughtExactly(ps: seq<PowerUp>, x: int, y: int, sp: Sprites, p: PowerUp)
    ensures |Uncaught(ps, x, y, sp)| <= |ps|
    ensures p in Uncaught(ps, x, y, sp) <==> p in ps && !Caught(p, x, y, sp)
    decreases |ps|
  {
    if ps != [] {
      var init := ps[..|ps| - 1];
      UncaughtExactly(init, x, y, sp, p);
      assert ps == init + [ps[|ps| - 1]];
    }
  }

  /** A shield caught in this tick is still on at the end of the tick. */
  lemma FreshShieldHolds(s: State, now: int, sp: Sprites)
    requires AnyCaught(s.powerups, Shield, s.playerX, s.playerY, sp)
    ensures ExpireShield(Collect(s, now, sp), now).shieldActive
  {
    PickupsClosedForm(s, s.powerups, s.playerX, s.playerY, now, sp);
  }

  /** The shield goes off only when strictly more than SHIELD_MILLIS have
      passed: at exactly SHIELD_MILLIS it is still on. */
  lemma ExpiryIsStrict(s: State, now: int)
    ensures ExpireShield(s, now).shieldActive <==>
      s.shieldActive && now - s.shieldTimer <= SHIELD_MILLIS
  {
  }

  /** A bomb caught with five enemies on screen removes all five. */
  lemma BombScenario(s: State, now: int)
    requires s.playerX == 300 && s.playerY == 340
    requires s.powerups == [PowerUp(310, 330, Bomb)] && |s.enemies| == 5
    ensures Collect(s, now, Sprites(40, 40, 40, 40)).enemies == []
  {
    var sp := Sprites(40, 40, 40, 40);
    assert s.powerups[0] in s.powerups;
    PickupsClosedForm(s, s.powerups, 300, 340, now, sp);
  }

  /** Power-up fall keeps the order: it distributes over concatenation. */
  lemma {:induction false} FallConcat(a: seq<PowerUp>, b: seq<PowerUp>)
    ensures Fall(a + b) == Fall(a) + Fall(b)
    decreases |b|
  {
    if b == [] {
      assert a + b == a;
    } else {
      var init := b[..|b| - 1];
      FallConcat(a, init);
      assert (a + b)[..|a + b| - 1] == a + init;
    }
  }

  /** The power-ups kept keep their order: the pass distributes over
      concatenation. */
  lemma {:induction false} UncaughtConcat(a: seq<PowerUp>, b: seq<PowerUp>, x: int, y: int, sp: Sprites)
    ensures Uncaught(a + b, x, y, sp) == Uncaught(a, x, y, sp) + Uncaught(b, x, y, sp)
    decreases |b|
  {
    if b == [] {
      assert a + b == a;
    } else {
      var init := b[..|b| - 1];
      UncaughtConcat(a, init, x, y, sp);
      assert (a + b)[..|a + b| - 1] == a + init;
    }
  }
}
