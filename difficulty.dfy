/** Difficulty scaling: the spawn interval shrinks as the score grows, and
    one enemy appears at the top whenever the frame counter is a multiple
    of it. */
module Difficulty {
  import opened Arena

  /** Frames between two spawns, a step function of the score. */
  function SpawnInterval(score: int): (t: int)
    ensures t in {50, 40, 30, 20, 15}
  {
    if score < 10 then 50
    else if score < 20 then 40
    else if score < 40 then 30
    else if score < 70 then 20
    else 15
  }

  /** A higher score never slows the spawning down. */
  lemma SpawnIntervalNonIncreasing(a: int, b: int)
    requires a <= b
    ensures SpawnInterval(b) <= SpawnInterval(a)
  {
  }

  lemma SpawnIntervalBands()
    ensures SpawnInterval(0) == 50 && SpawnInterval(9) == 50
    ensures SpawnInterval(10) == 40 && SpawnInterval(15) == 40 && SpawnInterval(19) == 40
    ensures SpawnInterval(20) == 30 && SpawnInterval(39) == 30
    ensures SpawnInterval(40) == 20 && SpawnInterval(69) == 20
    ensures SpawnInterval(70) == 15 && SpawnInterval(1000) == 15
  {
  }

  /** One tick of the scheduler: recompute the interval from the score,
      count the frame, and append an enemy at (spawnX, 0) on a multiple of
      the interval. spawnX is the random column drawn for it. */
  function Spawn(s: State, spawnX: int): (r: State)
    ensures r == s.(spawnTime := r.spawnTime, frameCount := r.frameCount, enemies := r.enemies)
    ensures r.spawnTime == SpawnInterval(s.score) && r.frameCount == s.frameCount + 1
    ensures |r.enemies| == |s.enemies| + (if r.frameCount % r.spawnTime == 0 then 1 else 0)
    ensures r.enemies[..|s.enemies|] == s.enemies
    ensures |r.enemies| > |s.enemies| ==> r.enemies[|s.enemies|] == Enemy(spawnX, 0)
  {
    var t := SpawnInterval(s.score);
    var f := s.frameCount + 1;
    s.(spawnTime := t, frameCount := f,
       enemies := if f % t == 0 then s.enemies + [Enemy(spawnX, 0)] else s.enemies)
  }

  /** Several ticks of the scheduler, one column draw per tick. */
  function Spawns(s: State, xs: seq<int>): (r: State)
    ensures r.score == s.score
    decreases |xs|
  {
    if xs == [] then s else Spawn(Spawns(s, xs[..|xs| - 1]), xs[|xs| - 1])
  }

  lemma NextMultiple(m: int, t: int)
    requires t in {50, 40, 30, 20, 15}
    ensures (m + 1) / t == m / t + (if (m + 1) % t == 0 then 1 else 0)
  {
  }

  /** While the score stays put, n ticks starting at frame f spawn exactly
      one enemy per multiple of the interval in (f, f + n]: the interval
      really is the number of frames between two spawns. */
  lemma {:induction false} SpawnCount(s: State, xs: seq<int>)
    ensures var t := SpawnInterval(s.score);
      |Spawns(s, xs).enemies| == |s.enemies| + (s.frameCount + |xs|) / t - s.frameCount / t
    ensures Spawns(s, xs).frameCount == s.frameCount + |xs|
    decreases |xs|
  {
    if xs != [] {
      SpawnCount(s, xs[..|xs| - 1]);
      NextMultiple(s.frameCount + |xs| - 1, SpawnInterval(s.score));
    }
  }
}
