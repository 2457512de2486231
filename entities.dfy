/** The entities of the simulation: points, trees, the five enemy archetypes and
    their stat table, enemies, projectiles, weapons and the game states. */
module Entities {

  datatype Option<T> = None | Some(value: T)

  /** A point or a direction on the ground plane. */
  datatype Vec = Vec(x: real, y: real)

  /** The arena is the open square (-GridLength, GridLength)^2. */
  const GridLength: real := 1800.0
  const TreeRadius: real := 15.0
  const PlayerRadius: real := 25.0
  const GunLength: real := 55.0
  const BoosterRadius: real := 25.0
  const PlayerMaxHp: int := 500

  /** Degrees per rotation key press and distance per move key press. */
  const TurnStep: real := 2.5
  const MoveStep: real := 18.0
  const BulletSpeed: real := 15.0

  /** A tree: only its centre matters to the rules (its drawing scale does not). */
  datatype Tree = Tree(pos: Vec)

  /** The five enemy archetypes 0..4: 1 is the tank, 2 the splitter, 3 the stationary
      sniper, 4 the kamikaze and 0 the basic enemy. */
  type Kind = k: int | 0 <= k < 5

  const Basic: Kind := 0
  const Tank: Kind := 1
  const Splitter: Kind := 2
  const Sniper: Kind := 3
  const Kamikaze: Kind := 4

  datatype EnemyStats = EnemyStats(
    hp: real, speed: real, stopDist: real, fireRate: nat,
    bulletSpeed: real, bulletDamage: nat, radius: real, kamikazeDamage: nat)

  /** The archetype table. */
  function Stats(k: Kind): EnemyStats
  {
    if k == 0 then EnemyStats(60.0, 1.8, 120.0, 180, 4.0, 10, 20.0, 0)
    else if k == 1 then EnemyStats(200.0, 0.8, 220.0, 300, 6.0, 40, 40.0, 0)
    else if k == 2 then EnemyStats(60.0, 1.2, 130.0, 140, 5.0, 15, 20.0, 0)
    else if k == 3 then EnemyStats(50.0, 0.0, 0.0, 360, 20.0, 75, 20.0, 0)
    else EnemyStats(50.0, 2.5, 5.0, 9999, 0.0, 0, 25.0, 150)
  }

  /** Archetypes whose fire rate reaches this bound never shoot. */
  const NeverFires: nat := 9000

  /** An enemy. `grace` suspends movement and firing while positive; `fireCd` counts
      down to the next shot and is not floored; `contactCd` is a vestigial counter
      that only ever counts down. */
  datatype Enemy = Enemy(
    pos: Vec, kind: Kind, hp: real, maxHp: real, speed: real,
    grace: nat, fireCd: int, contactCd: int)

  /** A discrete player projectile: a normal shot or one shot of a burst. */
  datatype ShotKind = NormalShot | BurstShot

  datatype Bullet =
    | Shot(pos: Vec, vel: Vec, kind: ShotKind)
    | Ring(pos: Vec, radius: real)

  /** A projectile fired by an enemy of archetype `owner`. */
  datatype EnemyShot = EnemyShot(pos: Vec, vel: Vec, damage: nat, owner: Kind)

  datatype Weapon = Normal | Laser | Burst | Shockwave

  datatype GameState = Playing | Paused | Over

  /** Cooldown (in ticks) set by each weapon. */
  const NormalCooldown: nat := 10
  const LaserCooldown: nat := 1
  const BurstCooldown: nat := 5
  const ShockwaveCooldown: nat := 40

  const LaserDamage: real := 2.5
  const ShockwaveDamage: real := 100.0

  function ShotDamage(k: ShotKind): real
  {
    match k
    case NormalShot => 50.0
    case BurstShot => 45.0
  }
}
