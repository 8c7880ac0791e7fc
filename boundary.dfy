/** Enemies reaching the bottom. Each one that has reached the breach row
    is removed; for each of them in turn an active shield is used up, or else
    a life is lost, double shot ends, and the game is over once the lives
    run out. */
module Boundary {
  import opened Arena

  predicate Breached(e: Enemy) {
    e.y >= BREACH_ROW
  }

  /** survived: the enemies still above the breach row, in order. */
  function AboveRow(es: seq<Enemy>): seq<Enemy>
    decreases |es|
  {
    if es == [] then []
    else AboveRow(es[..|es| - 1]) + if Breached(es[|es| - 1]) then [] else [es[|es| - 1]]
  }

  function BreachCount(es: seq<Enemy>): nat
    decreases |es|
  {
    if es == [] then 0
    else BreachCount(es[..|es| - 1]) + if Breached(es[|es| - 1]) then 1 else 0
  }

  /** The effect of one enemy reaching the bottom. */
  function Breach(s: State): State {
    if !s.shieldActive then
      s.(lives := s.lives - 1, doubleShoot := false, gameOver := s.gameOver || s.lives - 1 <= 0)
    else
      s.(shieldActive := false)
  }

  /** The effect of k enemies reaching the bottom, one after the other. */
  function Breaches(s: State, k: nat): State {
    if k == 0 then s else Breach(Breaches(s, k - 1))
  }

  /** Lives lost to k breaches: the first is absorbed by an active shield. */
  function LivesLost(shield: bool, k: nat): nat {
    if shield && k >= 1 then k - 1 else k
  }

  /** The enemies-reaching-bottom pass over the whole state. */
  function CheckBottom(s: State): State {
    Breaches(s, BreachCount(s.enemies)).(enemies := AboveRow(s.enemies))
  }

  /** k breaches in closed form: a shield absorbs only the first, every
      life lost clears double shot, and the game is over exactly when a
      lost life leaves none. */
  lemma {:induction false} BreachesClosedForm(s: State, k: nat)
    ensures var r := Breaches(s, k);
      var lost := LivesLost(s.shieldActive, k);
      r == s.(lives := r.lives, shieldActive := r.shieldActive,
              doubleShoot := r.doubleShoot, gameOver := r.gameOver) &&
      r.lives == s.lives - lost &&
      r.shieldActive == (s.shieldActive && k == 0) &&
      r.doubleShoot == (s.doubleShoot && lost == 0) &&
      r.gameOver == (s.gameOver || (lost > 0 && r.lives <= 0))
  {
    if k > 0 {
      BreachesClosedForm(s, k - 1);
    }
  }

  /** Every enemy is either kept or counted as a breach, and the kept ones
      are exactly those above the row. */
  lemma {:induction false} AboveRowExactly(es: seq<Enemy>, e: Enemy)
    ensures |AboveRow(es)| + BreachCount(es) == |es|
    ensures e in AboveRow(es) <==> e in es && !Breached(e)
    decreases |es|
  {
    if es != [] {
      var init := es[..|es| - 1];
      AboveRowExactly(init, e);
      assert es == init + [es[|es| - 1]];
    }
  }

  /** No shield, one life, one enemy at the breach row: the game is over. */
  lemma LastLifeScenario(s: State)
    requires !s.shieldActive && !s.gameOver && s.lives == 1 && s.enemies == [Enemy(100, BREACH_ROW)]
    ensures var r := CheckBottom(s);
      r.lives == 0 && r.gameOver && !r.doubleShoot && r.enemies == []
  {
    assert s.enemies[..0] == [];
    assert BreachCount(s.enemies) == 1;
    assert AboveRow(s.enemies) == [];
    BreachesClosedForm(s, 1);
  }

  /** An active shield takes the hit: no life lost, the enemy still goes. */
  lemma ShieldScenario(s: State)
    requires s.shieldActive && s.enemies == [Enemy(100, BREACH_ROW + 5)]
    ensures var r := CheckBottom(s);
      r.lives == s.lives && !r.shieldActive && r.doubleShoot == s.doubleShoot && r.enemies == []
  {
    assert s.enemies[..0] == [];
    assert BreachCount(s.enemies) == 1;
    assert AboveRow(s.enemies) == [];
    BreachesClosedForm(s, 1);
  }

  /** Two breaches in one tick with one life left take the lives below 0. */
  lemma LivesBelowZeroScenario(s: State)
    requires !s.shieldActive && !s.gameOver && s.lives == 1
    requires s.enemies == [Enemy(0, BREACH_ROW), Enemy(50, BREACH_ROW)]
    ensures var r := CheckBottom(s);
      r.lives == -1 && r.gameOver
  {
    assert s.enemies[..1] == [Enemy(0, BREACH_ROW)];
    assert s.enemies[..1][..0] == [];
    assert BreachCount(s.enemies[..1]) == 1;
    assert BreachCount(s.enemies) == 2;
    BreachesClosedForm(s, 2);
  }

  /** The survivors keep their order: the pass distributes over
      concatenation. */
  lemma {:induction false} AboveRowConcat(a: seq<Enemy>, b: seq<Enemy>)
    ensures AboveRow(a + b) == AboveRow(a) + AboveRow(b)
    decreases |b|
  {
    if b == [] {
      assert a + b == a;
    } else {
      var init := b[..|b| - 1];
      AboveRowConcat(a, init);
      assert (a + b)[..|a + b| - 1] == a + init;
    }
  }
}
