/** Weapons: the firing gate, the cooldown and burst counters advanced once per tick,
    and the laser's choice of target along the gun ray. */
module Combat {
  import opened Entities
  import opened Geometry

  // ---------------------------------------------------------------- the gate

  /** A press of the fire button fires only while playing, with the cooldown run out,
      and never for the laser (which fires while the button is held). */
  predicate MayShoot(state: GameState, cooldown: nat, weapon: Weapon)
  {
    state == Playing && cooldown == 0 && weapon != Laser
  }

  /** The outcome of a press that passes the gate: the projectiles added, the new
      cooldown and the new count of burst shots still owed. */
  datatype Salvo = Salvo(added: seq<Bullet>, cooldown: nat, burst: nat)

  /** What a gated press of `weapon` does for a player at `player` whose gun tip is
      `tip` and whose aim is the unit vector `aim`; `burst` is the count owed before. */
  function Fire(weapon: Weapon, player: Vec, tip: Vec, aim: Vec, burst: nat): (s: Salvo)
    requires weapon != Laser
    ensures weapon == Normal ==>
      s.added == [Shot(tip, Vec(BulletSpeed * aim.x, BulletSpeed * aim.y), NormalShot)] &&
      s.cooldown == NormalCooldown && s.burst == burst
    // the burst itself is fired later, by the tick counters
    ensures weapon == Burst ==> s.added == [] && s.cooldown == BurstCooldown && s.burst == 3
    ensures weapon == Shockwave ==>
      s.added == [Ring(player, 0.0)] && s.cooldown == ShockwaveCooldown && s.burst == burst
    ensures |s.added| <= 1 && s.cooldown > 0
  {
    match weapon
    case Normal => Salvo([Shot(tip, Vec(BulletSpeed * aim.x, BulletSpeed * aim.y), NormalShot)], NormalCooldown, burst)
    case Burst => Salvo([], BurstCooldown, 3)
    case Shockwave => Salvo([Ring(player, 0.0)], ShockwaveCooldown, burst)
  }

  // -------------------------------------------------------- the tick counters

  /** The cooldown and the burst count after one tick, and whether a burst shot left. */
  datatype Counters = Counters(cooldown: nat, burst: nat, fired: bool)

  /** One tick of the counters: the cooldown counts down when positive; if a burst is
      owed and the cooldown has reached 0, one burst shot leaves and the cooldown is
      re-armed only if more are owed. */
  function Tick(cooldown: nat, burst: nat): (r: Counters)
    ensures r.fired <==> burst > 0 && cooldown <= 1
    ensures r.burst == (if r.fired then burst - 1 else burst)
    ensures r.fired ==> r.cooldown == (if r.burst > 0 then BurstCooldown else 0)
    ensures !r.fired ==> r.cooldown == (if cooldown > 0 then cooldown - 1 else 0)
  {
    var cd := if cooldown > 0 then cooldown - 1 else cooldown;
    if burst > 0 && cd == 0 then
      Counters(if burst - 1 > 0 then BurstCooldown else cd, burst - 1, true)
    else
      Counters(cd, burst, false)
  }

  /** Between ticks, a burst in progress always has its cooldown running, so no press
      can fire over it; and neither counter exceeds what a press sets. */
  predicate CountersValid(cooldown: nat, burst: nat)
  {
    cooldown <= ShockwaveCooldown && burst <= 3 && (burst > 0 ==> 1 <= cooldown <= BurstCooldown)
  }

  lemma TickKeepsValid(cooldown: nat, burst: nat)
    requires CountersValid(cooldown, burst)
    ensures CountersValid(Tick(cooldown, burst).cooldown, Tick(cooldown, burst).burst)
  {
  }

  lemma FireKeepsValid(weapon: Weapon, player: Vec, tip: Vec, aim: Vec, cooldown: nat, burst: nat)
    requires CountersValid(cooldown, burst) && weapon != Laser && cooldown == 0
    ensures CountersValid(Fire(weapon, player, tip, aim, burst).cooldown, Fire(weapon, player, tip, aim, burst).burst)
  {
  }

  /** Burst shots fired during `n` ticks from the given counters. */
  function ShotsIn(cooldown: nat, burst: nat, n: nat): nat
    decreases n
  {
    if n == 0 then 0
    else
      var r := Tick(cooldown, burst);
      (if r.fired then 1 else 0) + ShotsIn(r.cooldown, r.burst, n - 1)
  }

  function Min(a: int, b: int): int
  {
    if a <= b then a else b
  }

  /** With `burst` shots owed and the cooldown at `cooldown`, the shots leave at ticks
      cooldown, cooldown + 5, cooldown + 10, ... until none is owed. */
  lemma {:induction false} BurstSchedule(cooldown: nat, burst: nat, n: nat)
    requires burst > 0 && 1 <= cooldown <= BurstCooldown
    ensures ShotsIn(cooldown, burst, n) == if n < cooldown then 0 else Min(burst, (n - cooldown) / 5 + 1)
    decreases n
  {
    if n > 0 {
      var r := Tick(cooldown, burst);
      if cooldown > 1 {
        BurstSchedule(cooldown - 1, burst, n - 1);
      } else if r.burst > 0 {
        BurstSchedule(BurstCooldown, r.burst, n - 1);
      } else {
        NothingOwed(r.cooldown, n - 1);
      }
    }
  }

  lemma {:induction false} NothingOwed(cooldown: nat, n: nat)
    ensures ShotsIn(cooldown, 0, n) == 0
    decreases n
  {
    if n > 0 {
      NothingOwed(Tick(cooldown, 0).cooldown, n - 1);
    }
  }

  /** One press of the burst weapon yields a shot every five ticks, three in all. */
  lemma BurstPressYieldsThree(player: Vec, tip: Vec, aim: Vec, burst: nat, n: nat)
    ensures var s := Fire(Burst, player, tip, aim, burst);
      ShotsIn(s.cooldown, s.burst, n) == Min(3, n / 5) && (n >= 15 ==> ShotsIn(s.cooldown, s.burst, n) == 3)
  {
    BurstSchedule(BurstCooldown, 3, n);
  }

  // ---------------------------------------------------------------- the laser

  /** Range and the distance along the ray to where an enemy's centre projects. */
  const LaserRange: real := 1500.0

  function RayParam(e: Enemy, start: Vec, dir: Vec): real
  {
    (e.pos.x - start.x) * dir.x + (e.pos.y - start.y) * dir.y
  }

  /** The laser can hit `e`: the projection falls strictly inside (0, LaserRange)
      and the centre lies within the enemy's radius of the projected point. */
  predicate OnRay(e: Enemy, start: Vec, dir: Vec)
  {
    var t := RayParam(e, start, dir);
    0.0 < t < LaserRange &&
    DistSq(e.pos, Vec(start.x + t * dir.x, start.y + t * dir.y)) < Stats(e.kind).radius * Stats(e.kind).radius
  }

  /** The scan of the laser over the enemies in list order: the enemy hit so far and
      its distance along the ray (LaserRange while none). An enemy replaces the current
      one only when strictly nearer, so ties keep the earlier enemy. */
  datatype Scan = Scan(hit: Option<nat>, best: real)

  function LaserScan(enemies: seq<Enemy>, start: Vec, dir: Vec): (s: Scan)
    ensures s.hit.None? ==> s.best == LaserRange
    ensures s.hit.Some? ==> s.hit.value < |enemies| && s.best == RayParam(enemies[s.hit.value], start, dir)
  {
    if enemies == [] then Scan(None, LaserRange)
    else
      var n := |enemies| - 1;
      var s := LaserScan(enemies[..n], start, dir);
      var t := RayParam(enemies[n], start, dir);
      if OnRay(enemies[n], start, dir) && t < s.best then Scan(Some(n), t) else s
  }

  /** The laser hits the first, in list order, of the enemies on the ray that are
      nearest along it, and nothing when no enemy is on the ray. */
  lemma {:induction false} LaserScanClosest(enemies: seq<Enemy>, start: Vec, dir: Vec)
    ensures var s := LaserScan(enemies, start, dir);
      (s.hit.None? <==> forall j :: 0 <= j < |enemies| ==> !OnRay(enemies[j], start, dir)) &&
      (s.hit.Some? ==> OnRay(enemies[s.hit.value], start, dir)) &&
      (s.hit.Some? ==> forall j :: 0 <= j < |enemies| && OnRay(enemies[j], start, dir) ==>
         RayParam(enemies[s.hit.value], start, dir) <= RayParam(enemies[j], start, dir)) &&
      (s.hit.Some? ==> forall j :: 0 <= j < s.hit.value && OnRay(enemies[j], start, dir) ==>
         RayParam(enemies[s.hit.value], start, dir) < RayParam(enemies[j], start, dir))
  {
    if enemies != [] {
      var n := |enemies| - 1;
      var init := enemies[..n];
      LaserScanClosest(init, start, dir);
      assert forall j :: 0 <= j < n ==> init[j] == enemies[j];
    }
  }

  /** The laser's scan as a loop over the enemy list. */
  method ClosestOnRay(enemies: seq<Enemy>, start: Vec, dir: Vec) returns (hit: Option<nat>)
    ensures hit == LaserScan(enemies, start, dir).hit
  {
    hit := None;
    var best := LaserRange;
    var i := 0;
    while i < |enemies|
      invariant 0 <= i <= |enemies|
      invariant Scan(hit, best) == LaserScan(enemies[..i], start, dir)
    {
      assert enemies[..i + 1][..i] == enemies[..i];
      var t := RayParam(enemies[i], start, dir);
      if OnRay(enemies[i], start, dir) && t < best {
        hit := Some(i);
        best := t;
      }
      i := i + 1;
    }
    assert enemies[..i] == enemies;
  }
}
