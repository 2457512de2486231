/** The two projectile updates of a tick: the player's shots and shockwave rings,
    rebuilt by filtering while they damage enemies, and the enemy shots, which are
    stopped by trees, by the player and by the arena wall. */
module Projectiles {
  import opened Entities
  import opened Geometry

  // -------------------------------------------------------- player projectiles

  /** Rings grow by RingGrowth per tick, exist while their radius is below RingLimit
      and hurt enemies within RingBand of the wave front. */
  const RingGrowth: real := 20.0
  const RingLimit: real := 600.0
  const RingBand: real := 20.0

  /** The index of the first enemy whose body contains `p`, or |enemies|. */
  function FirstHit(enemies: seq<Enemy>, p: Vec): (k: nat)
    ensures k <= |enemies|
    ensures k < |enemies| ==> InsideEnemy(enemies[k], p)
    ensures forall j :: 0 <= j < k ==> !InsideEnemy(enemies[j], p)
  {
    if enemies == [] then 0
    else if InsideEnemy(enemies[0], p) then 0
    else 1 + FirstHit(enemies[1..], p)
  }

  /** An enemy at squared distance `d2` from a ring's centre is within RingBand of a
      wave front of radius `r`: |d - r| < RingBand with d the (non-negative) distance. */
  predicate InBand(d2: real, r: real)
  {
    0.0 < r + RingBand && d2 < (r + RingBand) * (r + RingBand) &&
    (r - RingBand < 0.0 || (r - RingBand) * (r - RingBand) < d2)
  }

  /** The ring's damage pass: every enemy in the band loses ShockwaveDamage. */
  function RingDamage(enemies: seq<Enemy>, c: Vec, r: real): (es: seq<Enemy>)
    ensures |es| == |enemies|
    ensures forall k :: 0 <= k < |es| ==>
      es[k] == enemies[k].(hp := if InBand(DistSq(enemies[k].pos, c), r) then enemies[k].hp - ShockwaveDamage else enemies[k].hp)
  {
    if enemies == [] then []
    else
      var e := enemies[0];
      [e.(hp := if InBand(DistSq(e.pos, c), r) then e.hp - ShockwaveDamage else e.hp)] + RingDamage(enemies[1..], c, r)
  }

  /** Python's int() of a non-negative float truncates, which is the floor. */
  function Truncate(r: real): int
  {
    if r >= 0.0 then r.Floor else -((-r).Floor)
  }

  /** A projectile advanced by one tick, whether or not it survives the tick. */
  function Advanced(b: Bullet): Bullet
  {
    match b
    case Shot(pos, vel, kind) => Shot(Vec(pos.x + vel.x, pos.y + vel.y), vel, kind)
    case Ring(pos, radius) => Ring(pos, radius + RingGrowth)
  }

  /** The projectiles a tick keeps and the enemies after their damage. */
  datatype Volley = Volley(kept: seq<Bullet>, enemies: seq<Enemy>)

  /** One projectile's tick against the current enemies. A shot moves, is dropped
      outside the arena or when a tree stands between its old and new position, and
      otherwise damages the first enemy it is inside and is spent, or is kept. A ring
      grows, hurts the enemies in its band when its truncated radius is a multiple of
      20, and is kept while below RingLimit. */
  function BulletStep(trees: seq<Tree>, enemies: seq<Enemy>, b: Bullet): (v: Volley)
    ensures v.kept == [] || v.kept == [Advanced(b)]
    ensures |v.enemies| == |enemies|
    ensures forall k :: 0 <= k < |enemies| ==> v.enemies[k] == enemies[k].(hp := v.enemies[k].hp)
    ensures b.Shot? ==>
      var p := Advanced(b).pos;
      (v.kept != [] <==> Inside(p, 0.0) && LineOfSight(trees, Segment(Vec(p.x - b.vel.x, p.y - b.vel.y), p)) &&
                         FirstHit(enemies, p) == |enemies|) &&
      var k := FirstHit(enemies, p);
      (Inside(p, 0.0) && LineOfSight(trees, Segment(Vec(p.x - b.vel.x, p.y - b.vel.y), p)) && k < |enemies| ==>
        v.enemies == enemies[k := enemies[k].(hp := enemies[k].hp - ShotDamage(b.kind))]) &&
      (!(Inside(p, 0.0) && LineOfSight(trees, Segment(Vec(p.x - b.vel.x, p.y - b.vel.y), p)) && k < |enemies|) ==>
        v.enemies == enemies)
    ensures b.Ring? ==> (v.kept != [] <==> b.radius + RingGrowth < RingLimit)
    ensures b.Ring? ==>
      var r := b.radius + RingGrowth;
      v.enemies == (if r < RingLimit && Truncate(r) % 20 == 0 then RingDamage(enemies, b.pos, r) else enemies)
  {
    match b
    case Shot(pos, vel, kind) =>
      var p := Vec(pos.x + vel.x, pos.y + vel.y);
      if !Inside(p, 0.0) then Volley([], enemies)
      else if !LineOfSight(trees, Segment(Vec(p.x - vel.x, p.y - vel.y), p)) then Volley([], enemies)
      else
        var k := FirstHit(enemies, p);
        if k < |enemies| then Volley([], enemies[k := enemies[k].(hp := enemies[k].hp - ShotDamage(kind))])
        else Volley([Shot(p, vel, kind)], enemies)
    case Ring(pos, radius) =>
      var r := radius + RingGrowth;
      if r < RingLimit then
        var es := if Truncate(r) % 20 == 0 then RingDamage(enemies, pos, r) else enemies;
        Volley([Ring(pos, r)], es)
      else Volley([], enemies)
  }

  /** The projectile update over the first |bs| projectiles, in list order, each
      seeing the damage done by the ones before it. */
  function BulletsPass(trees: seq<Tree>, enemies: seq<Enemy>, bs: seq<Bullet>): Volley
  {
    if bs == [] then Volley([], enemies)
    else
      var v := BulletsPass(trees, enemies, bs[..|bs| - 1]);
      var w := BulletStep(trees, v.enemies, bs[|bs| - 1]);
      Volley(v.kept + w.kept, w.enemies)
  }

  /** The player projectiles' pass as a loop: the list is rebuilt from the kept
      projectiles while the enemies take the damage. */
  method SweepBullets(trees: seq<Tree>, enemies: seq<Enemy>, bullets: seq<Bullet>) returns (v: Volley)
    ensures v == BulletsPass(trees, enemies, bullets)
  {
    var kept: seq<Bullet> := [];
    var es := enemies;
    var k := 0;
    while k < |bullets|
      invariant 0 <= k <= |bullets|
      invariant Volley(kept, es) == BulletsPass(trees, enemies, bullets[..k])
    {
      assert bullets[..k + 1][..k] == bullets[..k];
      var step := BulletStep(trees, es, bullets[k]);
      kept := kept + step.kept;
      es := step.enemies;
      k := k + 1;
    }
    assert bullets[..k] == bullets;
    v := Volley(kept, es);
  }

  function AdvancedAll(bs: seq<Bullet>): (r: seq<Bullet>)
    ensures |r| == |bs| && forall k :: 0 <= k < |bs| ==> r[k] == Advanced(bs[k])
  {
    if bs == [] then [] else AdvancedAll(bs[..|bs| - 1]) + [Advanced(bs[|bs| - 1])]
  }

  /** `a` can be obtained from `b` by deleting elements (checked greedily from the
      end, which is complete for subsequences). */
  predicate IsSubseq<T(==)>(a: seq<T>, b: seq<T>)
  {
    if a == [] then true
    else if b == [] then false
    else if a[|a| - 1] == b[|b| - 1] then IsSubseq(a[..|a| - 1], b[..|b| - 1])
    else IsSubseq(a, b[..|b| - 1])
  }

  lemma {:induction false} SubseqDropLast<T>(a: seq<T>, b: seq<T>)
    requires a != [] && IsSubseq(a, b)
    ensures IsSubseq(a[..|a| - 1], b)
    decreases |b|, 0
  {
    var b0 := b[..|b| - 1];
    assert b0 + [b[|b| - 1]] == b;
    if a[|a| - 1] != b[|b| - 1] {
      SubseqDropLast(a, b0);
    }
    SubseqExtendEither(a[..|a| - 1], b0, b[|b| - 1]);
  }

  lemma SubseqExtend<T>(a: seq<T>, b: seq<T>, x: T)
    requires IsSubseq(a, b)
    ensures IsSubseq(a + [x], b + [x])
  {
    assert (a + [x])[..|a|] == a;
    assert (b + [x])[..|b|] == b;
  }

  /** A subsequence stays one when an element is appended to the longer sequence. */
  lemma {:induction false} SubseqExtendEither<T>(a: seq<T>, b: seq<T>, x: T)
    requires IsSubseq(a, b)
    ensures IsSubseq(a, b + [x])
    decreases |b|, 1
  {
    assert (b + [x])[..|b|] == b;
    if a != [] && a[|a| - 1] == x {
      SubseqDropLast(a, b);
    }
  }

  /** A projectile update never lengthens the list: what it keeps is, in order, a
      selection of the advanced projectiles; and it never adds or removes enemies. */
  lemma {:induction false} BulletsPassSelects(trees: seq<Tree>, enemies: seq<Enemy>, bs: seq<Bullet>)
    ensures IsSubseq(BulletsPass(trees, enemies, bs).kept, AdvancedAll(bs))
    ensures |BulletsPass(trees, enemies, bs).kept| <= |bs|
    ensures |BulletsPass(trees, enemies, bs).enemies| == |enemies|
  {
    if bs != [] {
      var init := bs[..|bs| - 1];
      var b := bs[|bs| - 1];
      BulletsPassSelects(trees, enemies, init);
      var v := BulletsPass(trees, enemies, init);
      var w := BulletStep(trees, v.enemies, b);
      assert AdvancedAll(bs) == AdvancedAll(init) + [Advanced(b)];
      if w.kept == [] {
        assert v.kept + w.kept == v.kept;
        SubseqExtendEither(v.kept, AdvancedAll(init), Advanced(b));
      } else {
        SubseqExtend(v.kept, AdvancedAll(init), Advanced(b));
      }
      SubseqLength(BulletsPass(trees, enemies, bs).kept, AdvancedAll(bs));
    }
  }

  lemma {:induction false} SubseqLength<T>(a: seq<T>, b: seq<T>)
    requires IsSubseq(a, b)
    ensures |a| <= |b|
    decreases |b|
  {
    if a != [] {
      if a[|a| - 1] == b[|b| - 1] {
        SubseqLength(a[..|a| - 1], b[..|b| - 1]);
      } else {
        SubseqLength(a, b[..|b| - 1]);
      }
    }
  }

  /** A shockwave fired with radius 0 has radius 20(n+1) after its (n+1)-th tick; each
      of those radii is a multiple of 20, so it hurts on every tick, and it is kept
      for 29 ticks, up to radius 580. */
  function RingAfter(n: nat): real
  {
    RingGrowth * (n as real + 1.0)
  }

  lemma RingLifetime(trees: seq<Tree>, enemies: seq<Enemy>, c: Vec, n: nat)
    ensures BulletStep(trees, enemies, Ring(c, if n == 0 then 0.0 else RingAfter(n - 1))).kept ==
      (if n < 29 then [Ring(c, RingAfter(n))] else [])
    ensures n < 29 ==>
      (Truncate(RingAfter(n)) % 20 == 0 &&
       BulletStep(trees, enemies, Ring(c, if n == 0 then 0.0 else RingAfter(n - 1))).enemies ==
         RingDamage(enemies, c, RingAfter(n)))
  {
    var r := RingAfter(n);
    assert r == (20 * (n + 1)) as real;
    assert r.Floor == 20 * (n + 1);
  }

  // ---------------------------------------------------------- enemy projectiles

  /** The outcome of one enemy shot's tick: kept (moved) or not, and the damage to
      the player. */
  datatype Impact = Impact(kept: seq<EnemyShot>, damage: nat)

  /** An enemy shot is dropped when a tree stands on its next step (tested before it
      moves); otherwise it moves, and is spent on the player if it ends within the
      player's radius, or dropped outside the arena. */
  function EnemyShotStep(trees: seq<Tree>, player: Vec, s: EnemyShot): (r: Impact)
    ensures r.kept == [] || r.kept == [s.(pos := Vec(s.pos.x + s.vel.x, s.pos.y + s.vel.y))]
    ensures r.damage == 0 || r.damage == s.damage
    ensures r.damage > 0 ==> r.kept == []
    ensures var p := Vec(s.pos.x + s.vel.x, s.pos.y + s.vel.y);
      var clear := LineOfSight(trees, Segment(s.pos, p));
      var hits := DistSq(p, player) < PlayerRadius * PlayerRadius;
      (r.kept != [] <==> clear && !hits && Inside(p, 0.0)) &&
      (clear && hits ==> r.damage == s.damage) &&
      (r.damage > 0 <==> clear && hits && s.damage > 0)
  {
    var p := Vec(s.pos.x + s.vel.x, s.pos.y + s.vel.y);
    if !LineOfSight(trees, Segment(s.pos, p)) then Impact([], 0)
    else if DistSq(p, player) < PlayerRadius * PlayerRadius then Impact([], s.damage)
    else if !Inside(p, 0.0) then Impact([], 0)
    else Impact([s.(pos := p)], 0)
  }

  /** The enemy shot update over the first |ss| shots: the shots kept, in order, and
      the total damage to the player. */
  function EnemyShotsPass(trees: seq<Tree>, player: Vec, ss: seq<EnemyShot>): Impact
  {
    if ss == [] then Impact([], 0)
    else
      var v := EnemyShotsPass(trees, player, ss[..|ss| - 1]);
      var w := EnemyShotStep(trees, player, ss[|ss| - 1]);
      Impact(v.kept + w.kept, v.damage + w.damage)
  }

  /** The enemy projectiles' pass as a loop: the kept shots and the damage dealt. */
  method SweepEnemyShots(trees: seq<Tree>, player: Vec, shots: seq<EnemyShot>) returns (kept: seq<EnemyShot>, damage: nat)
    ensures Impact(kept, damage) == EnemyShotsPass(trees, player, shots)
  {
    kept, damage := [], 0;
    var k := 0;
    while k < |shots|
      invariant 0 <= k <= |shots|
      invariant Impact(kept, damage) == EnemyShotsPass(trees, player, shots[..k])
    {
      assert shots[..k + 1][..k] == shots[..k];
      var r := EnemyShotStep(trees, player, shots[k]);
      kept := kept + r.kept;
      damage := damage + r.damage;
      k := k + 1;
    }
    assert shots[..k] == shots;
  }

  function DamageSum(ss: seq<EnemyShot>): nat
  {
    if ss == [] then 0 else DamageSum(ss[..|ss| - 1]) + ss[|ss| - 1].damage
  }

  /** Every kept enemy shot has moved by its velocity and is inside the arena; no shot
      is kept and damages; so the kept shots are at most as many as before and the
      damage at most the sum of all shots' damage. */
  lemma {:induction false} EnemyShotsPassBounds(trees: seq<Tree>, player: Vec, ss: seq<EnemyShot>)
    ensures var r := EnemyShotsPass(trees, player, ss);
      |r.kept| <= |ss| && r.damage <= DamageSum(ss) &&
      forall k :: 0 <= k < |r.kept| ==>
        (Inside(r.kept[k].pos, 0.0) && DistSq(r.kept[k].pos, player) >= PlayerRadius * PlayerRadius)
  {
    if ss != [] {
      var init := ss[..|ss| - 1];
      EnemyShotsPassBounds(trees, player, init);
      var v := EnemyShotsPass(trees, player, init);
      var w := EnemyShotStep(trees, player, ss[|ss| - 1]);
      assert EnemyShotsPass(trees, player, ss).kept == v.kept + w.kept;
    }
  }
}
