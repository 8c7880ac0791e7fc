/** Bullet-enemy collisions and scoring. Every bullet is tested against the
    enemies in order and consumed by the first one whose box strictly
    contains it; the indices of the enemies hit are collected during the
    scan and the enemies removed only afterwards, so two bullets can score
    on the same enemy in one tick. */
module Collision {
  import opened Arena

  /** A power-up dropped by a destroyed enemy appears this far to the right
      of the enemy's left edge. */
  const DROP_OFFSET := 20

  /** Strict inequalities: a bullet on the box's edge is not a hit. */
  predicate Hits(b: Bullet, e: Enemy, sp: Sprites) {
    e.x < b.x < e.x + sp.ew && e.y < b.y < e.y + sp.eh
  }

  /** The enemy that consumes a bullet: the lowest index it hits, if any. */
  function FirstHit(b: Bullet, es: seq<Enemy>, sp: Sprites): (r: Option<nat>)
    ensures r.Some? ==> r.value < |es| && Hits(b, es[r.value], sp)
    ensures r.Some? ==> forall j :: 0 <= j < r.value ==> !Hits(b, es[j], sp)
    ensures r.None? <==> forall j :: 0 <= j < |es| ==> !Hits(b, es[j], sp)
    decreases |es|
  {
    if es == [] then None
    else if Hits(b, es[0], sp) then Some(0)
    else match FirstHit(b, es[1..], sp)
      case None => None
      case Some(i) => Some(i + 1)
  }

  /** The inner loop of the collision pass: walk the enemies in order
      until the bullet hits one. */
  method ScanEnemies(b: Bullet, es: seq<Enemy>, sp: Sprites) returns (hit: bool, i: nat)
    ensures hit <==> FirstHit(b, es, sp).Some?
    ensures hit ==> FirstHit(b, es, sp) == Some(i)
  {
    hit := false;
    i := 0;
    while i < |es| && !hit
      invariant 0 <= i <= |es|
      invariant forall j :: 0 <= j < i ==> !Hits(b, es[j], sp)
      invariant hit ==> i < |es| && Hits(b, es[i], sp)
      decreases |es| - i, !hit
    {
      var e := es[i];
      if e.x < b.x < e.x + sp.ew && e.y < b.y < e.y + sp.eh {
        hit := true;
      } else {
        i := i + 1;
      }
    }
  }

  /** hit_enemies: one enemy index per consumed bullet, in bullet order. */
  function HitIndices(bs: seq<Bullet>, es: seq<Enemy>, sp: Sprites): seq<nat>
    decreases |bs|
  {
    if bs == [] then []
    else
      HitIndices(bs[..|bs| - 1], es, sp) +
      match FirstHit(bs[|bs| - 1], es, sp)
      case None => []
      case Some(i) => [i]
  }

  /** new_bullets: the bullets that hit nothing, in their order. */
  function Misses(bs: seq<Bullet>, es: seq<Enemy>, sp: Sprites): seq<Bullet>
    decreases |bs|
  {
    if bs == [] then []
    else
      var b := bs[|bs| - 1];
      Misses(bs[..|bs| - 1], es, sp) + if FirstHit(b, es, sp).None? then [b] else []
  }

  /** The power-ups dropped during the scan. The n-th hit of the tick (from
      0) consults the draw `drop(n)`: None for no drop, Some(kind) for a
      drop of that kind at the enemy's position. */
  function Drops(bs: seq<Bullet>, es: seq<Enemy>, drop: nat -> Option<Kind>, sp: Sprites): seq<PowerUp>
    decreases |bs|
  {
    if bs == [] then []
    else
      var init := bs[..|bs| - 1];
      Drops(init, es, drop, sp) +
      match FirstHit(bs[|bs| - 1], es, sp)
      case None => []
      case Some(i) => DropAt(es[i], drop(|HitIndices(init, es, sp)|))
  }

  /** The power-up an enemy destroyed with the given draw leaves behind. */
  function DropAt(e: Enemy, draw: Option<Kind>): seq<PowerUp> {
    match draw
    case None => []
    case Some(k) => [PowerUp(e.x + DROP_OFFSET, e.y, k)]
  }

  /** The enemies whose index is not among the hit indices, in order. */
  function WithoutIndices(es: seq<Enemy>, hit: seq<nat>): seq<Enemy>
    decreases |es|
  {
    if es == [] then []
    else WithoutIndices(es[..|es| - 1], hit) + if |es| - 1 in hit then [] else [es[|es| - 1]]
  }

  /** One more bullet that hits enemy i: its index joins hit_enemies and
      its drop joins the drops; new_bullets is unchanged. */
  lemma ScanHit(seen: seq<Bullet>, b: Bullet, es: seq<Enemy>, drop: nat -> Option<Kind>, sp: Sprites, i: nat)
    requires FirstHit(b, es, sp) == Some(i)
    ensures i < |es|
    ensures HitIndices(seen + [b], es, sp) == HitIndices(seen, es, sp) + [i]
    ensures Misses(seen + [b], es, sp) == Misses(seen, es, sp)
    ensures Drops(seen + [b], es, drop, sp) ==
      Drops(seen, es, drop, sp) + DropAt(es[i], drop(|HitIndices(seen, es, sp)|))
  {
    assert (seen + [b])[..|seen|] == seen;
  }

  /** One more bullet that hits nothing: it joins new_bullets, and
      hit_enemies and the drops are unchanged. */
  lemma ScanMiss(seen: seq<Bullet>, b: Bullet, es: seq<Enemy>, drop: nat -> Option<Kind>, sp: Sprites)
    requires FirstHit(b, es, sp).None?
    ensures HitIndices(seen + [b], es, sp) == HitIndices(seen, es, sp)
    ensures Misses(seen + [b], es, sp) == Misses(seen, es, sp) + [b]
    ensures Drops(seen + [b], es, drop, sp) == Drops(seen, es, drop, sp)
  {
    assert (seen + [b])[..|seen|] == seen;
  }

  /** The scan of the collision pass: for each bullet in order, the index
      of the first enemy it hits (hit_enemies) or the bullet itself when it
      hits none (new_bullets), and the power-ups the hits drop. */
  method ScanBullets(bs: seq<Bullet>, es: seq<Enemy>, drop: nat -> Option<Kind>, sp: Sprites)
    returns (hitEnemies: seq<nat>, newBullets: seq<Bullet>, dropped: seq<PowerUp>)
    ensures hitEnemies == HitIndices(bs, es, sp)
    ensures newBullets == Misses(bs, es, sp)
    ensures dropped == Drops(bs, es, drop, sp)
  {
    hitEnemies, newBullets, dropped := [], [], [];
    ghost var seen: seq<Bullet> := [];
    var k := 0;
    while k < |bs|
      invariant 0 <= k <= |bs| && seen == bs[..k]
      invariant hitEnemies == HitIndices(seen, es, sp)
      invariant newBullets == Misses(seen, es, sp)
      invariant dropped == Drops(seen, es, drop, sp)
    {
      var b := bs[k];
      var hit, i := ScanEnemies(b, es, sp);
      if hit {
        ScanHit(seen, b, es, drop, sp, i);
        match drop(|hitEnemies|) {
          case Some(kd) => dropped := dropped + [PowerUp(es[i].x + DROP_OFFSET, es[i].y, kd)];
          case None =>
        }
        hitEnemies := hitEnemies + [i];
      } else {
        ScanMiss(seen, b, es, drop, sp);
        newBullets := newBullets + [b];
      }
      seen := seen + [b];
      k := k + 1;
    }
    assert seen == bs;
  }

  /** The collision pass over the whole state. */
  function ResolveHits(s: State, drop: nat -> Option<Kind>, sp: Sprites): State {
    var hit := HitIndices(s.bullets, s.enemies, sp);
    s.(score := s.score + |hit|,
       bullets := Misses(s.bullets, s.enemies, sp),
       powerups := s.powerups + Drops(s.bullets, s.enemies, drop, sp),
       enemies := WithoutIndices(s.enemies, hit))
  }

  /** Every bullet is either consumed (and scores) or survives. */
  lemma {:induction false} ConsumedOrSurvives(bs: seq<Bullet>, es: seq<Enemy>, sp: Sprites)
    ensures |HitIndices(bs, es, sp)| + |Misses(bs, es, sp)| == |bs|
    decreases |bs|
  {
    if bs != [] {
      ConsumedOrSurvives(bs[..|bs| - 1], es, sp);
    }
  }

  /** The surviving bullets are exactly those that hit no enemy. */
  lemma {:induction false} MissesExactly(bs: seq<Bullet>, es: seq<Enemy>, sp: Sprites, b: Bullet)
    ensures b in Misses(bs, es, sp) <==> b in bs && FirstHit(b, es, sp).None?
    decreases |bs|
  {
    if bs != [] {
      var init := bs[..|bs| - 1];
      MissesExactly(init, es, sp, b);
      assert bs == init + [bs[|bs| - 1]];
    }
  }

  /** The scan keeps the bullets' order: it distributes over concatenation. */
  lemma {:induction false} MissesConcat(bs: seq<Bullet>, cs: seq<Bullet>, es: seq<Enemy>, sp: Sprites)
    ensures Misses(bs + cs, es, sp) == Misses(bs, es, sp) + Misses(cs, es, sp)
    decreases |cs|
  {
    if cs == [] {
      assert bs + cs == bs;
    } else {
      var init := cs[..|cs| - 1];
      MissesConcat(bs, init, es, sp);
      assert (bs + cs)[..|bs + cs| - 1] == bs + init;
    }
  }

  /** Each collected index names an enemy that some bullet consumed. */
  lemma {:induction false} HitIndicesConsumed(bs: seq<Bullet>, es: seq<Enemy>, sp: Sprites, i: nat)
    requires i in HitIndices(bs, es, sp)
    ensures i < |es|
    ensures exists b :: b in bs && FirstHit(b, es, sp) == Some(i)
    decreases |bs|
  {
    var init := bs[..|bs| - 1];
    var b := bs[|bs| - 1];
    assert b in bs;
    if i in HitIndices(init, es, sp) {
      HitIndicesConsumed(init, es, sp, i);
      var c :| c in init && FirstHit(c, es, sp) == Some(i);
      assert c in bs;
    }
  }

  /** Conversely, the enemy a bullet hits first has its index collected. */
  lemma {:induction false} HitCollected(bs: seq<Bullet>, es: seq<Enemy>, sp: Sprites, b: Bullet, i: nat)
    requires b in bs && FirstHit(b, es, sp) == Some(i)
    ensures i in HitIndices(bs, es, sp)
    decreases |bs|
  {
    var init := bs[..|bs| - 1];
    assert bs == init + [bs[|bs| - 1]];
    if b != bs[|bs| - 1] {
      assert b in init;
      HitCollected(init, es, sp, b, i);
    }
  }

  /** An index is collected exactly when some bullet hits that enemy
      first. */
  lemma CollectedExactly(bs: seq<Bullet>, es: seq<Enemy>, sp: Sprites, i: nat)
    ensures i in HitIndices(bs, es, sp) <==> exists b :: b in bs && FirstHit(b, es, sp) == Some(i)
  {
    if i in HitIndices(bs, es, sp) {
      HitIndicesConsumed(bs, es, sp, i);
    }
    if exists b :: b in bs && FirstHit(b, es, sp) == Some(i) {
      var b :| b in bs && FirstHit(b, es, sp) == Some(i);
      HitCollected(bs, es, sp, b, i);
    }
  }

  /** At most one power-up drops per hit. */
  lemma {:induction false} DropsAtMostHits(bs: seq<Bullet>, es: seq<Enemy>, drop: nat -> Option<Kind>, sp: Sprites)
    ensures |Drops(bs, es, drop, sp)| <= |HitIndices(bs, es, sp)|
    decreases |bs|
  {
    if bs != [] {
      DropsAtMostHits(bs[..|bs| - 1], es, drop, sp);
    }
  }

  /** Every dropped power-up lies DROP_OFFSET to the right of an enemy whose
      index was collected, at that enemy's height. */
  lemma {:induction false} DropsAtHitEnemies(bs: seq<Bullet>, es: seq<Enemy>, drop: nat -> Option<Kind>, sp: Sprites, p: PowerUp)
    requires p in Drops(bs, es, drop, sp)
    ensures exists i :: i in HitIndices(bs, es, sp) && i < |es| && p.x == es[i].x + DROP_OFFSET && p.y == es[i].y
    decreases |bs|
  {
    var init := bs[..|bs| - 1];
    if p in Drops(init, es, drop, sp) {
      DropsAtHitEnemies(init, es, drop, sp, p);
      var i :| i in HitIndices(init, es, sp) && i < |es| && p.x == es[i].x + DROP_OFFSET && p.y == es[i].y;
      assert i in HitIndices(bs, es, sp);
    } else {
      var i := FirstHit(bs[|bs| - 1], es, sp).value;
      assert i in HitIndices(bs, es, sp);
    }
  }

  /** The enemies kept are exactly those at an index that was not hit. */
  lemma {:induction false} WithoutIndicesExactly(es: seq<Enemy>, hit: seq<nat>, e: Enemy)
    ensures e in WithoutIndices(es, hit) <==> exists i :: 0 <= i < |es| && i !in hit && es[i] == e
    decreases |es|
  {
    if es != [] {
      var n := |es| - 1;
      var init := es[..n];
      WithoutIndicesExactly(init, hit, e);
      if e in WithoutIndices(es, hit) {
        if e in WithoutIndices(init, hit) {
          var i :| 0 <= i < n && i !in hit && init[i] == e;
          assert es[i] == e;
        } else {
          assert es[n] == e;
        }
      }
      if exists i :: 0 <= i < |es| && i !in hit && es[i] == e {
        var i :| 0 <= i < |es| && i !in hit && es[i] == e;
        if i < n {
          assert init[i] == e;
        }
      }
    }
  }

  /** The indices below n that are in the list, as a set. */
  function IndexSet(hit: seq<nat>, n: int): set<nat> {
    set i | i in hit && i < n
  }

  /** The enemies removed are exactly the distinct hit indices. */
  lemma {:induction false} RemovedAreDistinctHits(es: seq<Enemy>, hit: seq<nat>)
    ensures |WithoutIndices(es, hit)| == |es| - |IndexSet(hit, |es|)|
    decreases |es|
  {
    if es != [] {
      var n := |es| - 1;
      RemovedAreDistinctHits(es[..n], hit);
      if n in hit {
        assert IndexSet(hit, |es|) == IndexSet(hit, n) + {n};
      } else {
        assert IndexSet(hit, |es|) == IndexSet(hit, n);
      }
    }
  }

  lemma {:induction false} DistinctAtMostLength(hit: seq<nat>, n: int)
    ensures |IndexSet(hit, n)| <= |hit|
    decreases |hit|
  {
    if hit != [] {
      var init := hit[..|hit| - 1];
      DistinctAtMostLength(init, n);
      assert hit == init + [hit[|hit| - 1]];
      assert IndexSet(hit, n) <= IndexSet(init, n) + {hit[|hit| - 1]};
      assert |IndexSet(init, n) + {hit[|hit| - 1]}| <= |IndexSet(init, n)| + 1;
      SubsetCard(IndexSet(hit, n), IndexSet(init, n) + {hit[|hit| - 1]});
    }
  }

  lemma SubsetCard(a: set<nat>, b: set<nat>)
    requires a <= b
    ensures |a| <= |b|
  {
    assert b == a + (b - a);
  }

  /** The collision pass: score rises by exactly the number of consumed
      bullets, the consumed bullets leave, and at most that many enemies
      leave (fewer when two bullets hit the same enemy). */
  lemma ResolveHitsScore(s: State, drop: nat -> Option<Kind>, sp: Sprites)
    ensures var r := ResolveHits(s, drop, sp);
      r.score - s.score == |s.bullets| - |r.bullets| &&
      0 <= |s.enemies| - |r.enemies| <= r.score - s.score
  {
    ConsumedOrSurvives(s.bullets, s.enemies, sp);
    var hit := HitIndices(s.bullets, s.enemies, sp);
    RemovedAreDistinctHits(s.enemies, hit);
    DistinctAtMostLength(hit, |s.enemies|);
  }

  /** One bullet inside an enemy's box: consumed, enemy removed, one point. */
  lemma SingleHitScenario(s: State, drop: nat -> Option<Kind>)
    requires s.enemies == [Enemy(100, 100)] && s.bullets == [Bullet(105, 105)]
    ensures var r := ResolveHits(s, drop, Sprites(40, 40, 40, 40));
      r.score == s.score + 1 && r.bullets == [] && r.enemies == []
  {
    var sp := Sprites(40, 40, 40, 40);
    assert FirstHit(Bullet(105, 105), s.enemies, sp) == Some(0);
    assert s.bullets[..0] == [];
    assert HitIndices(s.bullets, s.enemies, sp) == [0];
    assert Misses(s.bullets, s.enemies, sp) == [];
    assert s.enemies[..0] == [];
    assert WithoutIndices(s.enemies, [0]) == [];
  }

  /** Two bullets inside the same enemy in one tick: two points, one enemy
      removed. */
  lemma DoubleHitScenario(s: State, drop: nat -> Option<Kind>)
    requires s.enemies == [Enemy(100, 100)] && s.bullets == [Bullet(105, 105), Bullet(120, 130)]
    ensures var r := ResolveHits(s, drop, Sprites(40, 40, 40, 40));
      r.score == s.score + 2 && r.bullets == [] && r.enemies == []
  {
    var sp := Sprites(40, 40, 40, 40);
    assert FirstHit(Bullet(105, 105), s.enemies, sp) == Some(0);
    assert FirstHit(Bullet(120, 130), s.enemies, sp) == Some(0);
    assert s.bullets[..1] == [Bullet(105, 105)];
    assert s.bullets[..1][..0] == [];
    assert HitIndices(s.bullets[..1], s.enemies, sp) == [0];
    assert HitIndices(s.bullets, s.enemies, sp) == [0, 0];
    assert Misses(s.bullets[..1], s.enemies, sp) == [];
    assert Misses(s.bullets, s.enemies, sp) == [];
    assert s.enemies[..0] == [];
    assert WithoutIndices(s.enemies, [0, 0]) == [];
  }

  /** A bullet on an enemy's left edge is not a hit. */
  lemma EdgeIsNoHit(s: State, drop: nat -> Option<Kind>)
    requires s.enemies == [Enemy(100, 100)] && s.bullets == [Bullet(100, 105)]
    ensures var r := ResolveHits(s, drop, Sprites(40, 40, 40, 40));
      r.score == s.score && r.bullets == s.bullets && r.enemies == s.enemies
  {
    var sp := Sprites(40, 40, 40, 40);
    assert FirstHit(Bullet(100, 105), s.enemies, sp) == None;
    assert s.bullets[..0] == [];
    assert s.enemies[..0] == [];
    assert HitIndices(s.bullets, s.enemies, sp) == [];
    assert Misses(s.bullets, s.enemies, sp) == s.bullets;
    assert WithoutIndices(s.enemies, []) == s.enemies;
  }
}
