/** The game as a whole: a snapshot of every piece of simulation state, the input
    handlers and the tick as transitions between snapshots, and the properties of
    the state machine they make up. */
module Rules {
  import opened Entities
  import opened Geometry
  import opened Movement
  import opened EnemyRules
  import opened Combat
  import opened Projectiles
  import opened Collisions

  /** Numerics the model does not compute: the distance between two points given
      their differences (math.hypot), and the unit heading (cos, sin) of an angle in
      degrees. */
  datatype Numerics = Numerics(hypot: (real, real) -> real, heading: real -> Vec)

  /** Every piece of simulation state. `fireHeld` is whether the left button is down. */
  datatype World = World(
    state: GameState, score: nat, difficulty: nat, hp: int,
    player: Vec, gunAngle: real, weapon: Weapon,
    fireCooldown: nat, burstRemaining: nat, fireHeld: bool,
    laserActive: bool, laserTarget: Vec, booster: Vec,
    trees: seq<Tree>, enemies: seq<Enemy>, bullets: seq<Bullet>, enemyShots: seq<EnemyShot>)

  /** What holds between handler calls: hit points never exceed the maximum, a
      finished game has none left, the difficulty is the score's level, and the
      weapon counters are in their range. */
  predicate Valid(w: World)
  {
    w.hp <= PlayerMaxHp && (w.state == Over ==> w.hp <= 0) &&
    w.difficulty == DifficultyFor(w.score) && CountersValid(w.fireCooldown, w.burstRemaining)
  }

  /** The player's start pose. */
  const StartPos: Vec := Vec(0.0, -150.0)
  const StartAngle: real := 0.0

  // ------------------------------------------------------------ random inputs

  /** The draws of one tick: a candidate spot for the booster, one spawn and the
      jitter of split children. */
  datatype TickDraws = TickDraws(booster: Vec, spawn: SpawnDraw, jitter: (nat, nat) -> Vec)

  predicate TickDrawsOk(d: TickDraws)
  {
    0 <= d.spawn.fireRoll <= Stats(d.spawn.kind).fireRate
  }

  /** The draws of a (re)start: the scenery, a candidate spot for the booster and one
      placement per slot of the initial wave. */
  datatype StartDraws = StartDraws(trees: seq<Tree>, booster: Vec, wave: seq<PlacementDraw>)

  predicate StartDrawsOk(d: StartDraws)
  {
    |d.wave| == 7 && RollsInRange(d.wave)
  }

  // -------------------------------------------------------------- the booster

  /** The booster is moved to the candidate spot when that clears every tree by
      TreeRadius + BoosterRadius, and otherwise stays where it is. */
  function BoosterAfter(trees: seq<Tree>, current: Vec, candidate: Vec): (r: Vec)
    ensures r == candidate || r == current
    ensures r == candidate <==> ClearOfTrees(trees, candidate, TreeRadius + BoosterRadius) || candidate == current
  {
    if ClearOfTrees(trees, candidate, TreeRadius + BoosterRadius) then candidate else current
  }

  predicate TouchesBooster(w: World)
  {
    DistSq(w.player, w.booster) < (PlayerRadius + BoosterRadius) * (PlayerRadius + BoosterRadius)
  }

  // -------------------------------------------------------------- the keyboard

  datatype Key = Space | KeyR | KeyW | KeyS | KeyA | KeyD | Key1 | Key2 | Key3 | Key4 | OtherKey

  function TogglePause(w: World): World
  {
    if w.state == Playing then w.(state := Paused)
    else if w.state == Paused then w.(state := Playing)
    else w
  }

  predicate MayRestart(s: GameState)
  {
    s == Over || s == Paused
  }

  /** A restart: new scenery, score and difficulty 0, full hit points, the start
      pose, the normal weapon, the three lists emptied, the booster moved and the
      initial wave placed. The weapon counters and the laser flags are kept. */
  function Restarted(w: World, d: StartDraws): World
  {
    w.(state := Playing, score := 0, difficulty := 0, hp := PlayerMaxHp,
       player := StartPos, gunAngle := StartAngle, weapon := Normal,
       booster := BoosterAfter(d.trees, w.booster, d.booster),
       trees := d.trees, enemies := Wave(d.trees, d.wave), bullets := [], enemyShots := [])
  }

  function MovePlayer(w: World, dir: MoveDir, num: Numerics): World
  {
    w.(player := MoveTarget(w.trees, w.player, MoveDelta(num.heading(w.gunAngle), dir)))
  }

  function RotateGun(w: World, dir: TurnDir, num: Numerics): World
  {
    var a := TurnedAngle(w.gunAngle, dir);
    if GunTipValid(w.trees, w.enemies, GunTip(w.player, num.heading(a))) then w.(gunAngle := a) else w
  }

  function WeaponKey(key: Key, current: Weapon): Weapon
  {
    match key
    case Key1 => Normal
    case Key2 => Laser
    case Key3 => Burst
    case Key4 => Shockwave
    case _ => current
  }

  /** A key press: space, then the restart key, then the movement keys (honoured
      only while playing), then the weapon keys (honoured in every state). */
  function Keyboard(w: World, key: Key, d: StartDraws, num: Numerics): World
  {
    WeaponStage(MoveStage(RestartStage(PauseStage(w, key), key, d), key, num), key)
  }

  function PauseStage(w: World, key: Key): World
  {
    if key == Space then TogglePause(w) else w
  }

  function RestartStage(w: World, key: Key, d: StartDraws): World
  {
    if key == KeyR && MayRestart(w.state) then Restarted(w, d) else w
  }

  function MoveStage(w: World, key: Key, num: Numerics): World
  {
    if w.state != Playing then w
    else if key == KeyW then MovePlayer(w, Forward, num)
    else if key == KeyS then MovePlayer(w, Backward, num)
    else if key == KeyA then RotateGun(w, Left, num)
    else if key == KeyD then RotateGun(w, Right, num)
    else w
  }

  function WeaponStage(w: World, key: Key): World
  {
    w.(weapon := WeaponKey(key, w.weapon))
  }

  // ---------------------------------------------------------------- the mouse

  function Shoot(w: World, num: Numerics): World
  {
    if !MayShoot(w.state, w.fireCooldown, w.weapon) then w
    else
      var h := num.heading(w.gunAngle);
      var s := Fire(w.weapon, w.player, GunTip(w.player, h), h, w.burstRemaining);
      w.(bullets := w.bullets + s.added, fireCooldown := s.cooldown, burstRemaining := s.burst)
  }

  /** A mouse event: the left button's state is recorded, and any press fires. */
  function Mouse(w: World, left: bool, down: bool, num: Numerics): World
  {
    var w1 := if left then w.(fireHeld := down) else w;
    if down then Shoot(w1, num) else w1
  }

  // ----------------------------------------------------------------- the tick

  /** The laser while its button is held: when the cooldown allows, the beam is on,
      the cooldown is set, and the enemy it hits loses LaserDamage. */
  function FireLaser(w: World, num: Numerics): World
  {
    if w.fireCooldown > 0 then w
    else
      var h := num.heading(w.gunAngle);
      var start := GunTip(w.player, h);
      LaserStrike(LaserArmed(w, start, h), start, h)
  }

  /** The beam switched on, towards its full range. */
  function LaserArmed(w: World, start: Vec, dir: Vec): World
  {
    w.(laserActive := true, fireCooldown := LaserCooldown,
       laserTarget := Vec(start.x + dir.x * LaserRange, start.y + dir.y * LaserRange))
  }

  /** The damage to the enemy the beam hits, whose centre becomes the beam's end. */
  function LaserStrike(w: World, start: Vec, dir: Vec): World
  {
    match LaserScan(w.enemies, start, dir).hit
    case None => w
    case Some(k) =>
      w.(enemies := w.enemies[k := w.enemies[k].(hp := w.enemies[k].hp - LaserDamage)],
         laserTarget := w.enemies[k].pos)
  }

  function TakeBooster(w: World, candidate: Vec): World
  {
    if TouchesBooster(w) then w.(hp := PlayerMaxHp, booster := BoosterAfter(w.trees, w.booster, candidate)) else w
  }

  function EnemiesAfter(w: World, jitter: (nat, nat) -> Vec, num: Numerics): World
  {
    var q := UpdateEnemies(w.enemies, w.score, w.hp, w.enemyShots,
                           Env(w.trees, w.player, w.difficulty, num.hypot, jitter));
    w.(enemies := q.enemies, score := q.score, hp := q.hp, enemyShots := q.shots)
  }

  function Collide(w: World, num: Numerics): World
  {
    var (p, es) := PlayerPushes(w.player, w.enemies, 0, num.hypot);
    w.(player := p, enemies := PairPushes(es, 0, 1, num.hypot))
  }

  function SpawnedList(o: Option<Enemy>): seq<Enemy>
  {
    match o
    case None => []
    case Some(e) => [e]
  }

  function Spawn(w: World, draw: SpawnDraw): World
    requires 0 <= draw.fireRoll <= Stats(draw.kind).fireRate
  {
    var d := DifficultyFor(w.score);
    w.(difficulty := d, enemies := w.enemies + SpawnedList(SpawnAttempt(w.trees, |w.enemies|, d, draw)))
  }

  function LaserIfHeld(w: World, num: Numerics): World
  {
    var w1 := w.(laserActive := false);
    if w1.weapon == Laser && w1.fireHeld then FireLaser(w1, num) else w1
  }

  /** The game update: the end of the game when hit points are gone, and otherwise
      the booster, the enemies, the collisions, the spawner and the laser. */
  function UpdateGame(w: World, d: TickDraws, num: Numerics): World
    requires TickDrawsOk(d)
  {
    if w.hp <= 0 then w.(state := Over, hp := 0)
    else
      LaserIfHeld(Spawn(Collide(EnemiesAfter(TakeBooster(w, d.booster), d.jitter, num), num), d.spawn), num)
  }

  function BulletsUpdated(w: World): World
  {
    var v := BulletsPass(w.trees, w.enemies, w.bullets);
    w.(bullets := v.kept, enemies := v.enemies)
  }

  function EnemyShotsUpdated(w: World): World
  {
    var r := EnemyShotsPass(w.trees, w.player, w.enemyShots);
    w.(enemyShots := r.kept, hp := w.hp - r.damage)
  }

  /** The counters' tick and the burst shot it may release. */
  function BurstStep(w: World, num: Numerics): World
  {
    var c := Tick(w.fireCooldown, w.burstRemaining);
    var h := num.heading(w.gunAngle);
    var shot := if c.fired then [Shot(GunTip(w.player, h), Vec(BulletSpeed * h.x, BulletSpeed * h.y), BurstShot)] else [];
    w.(fireCooldown := c.cooldown, burstRemaining := c.burst, bullets := w.bullets + shot)
  }

  /** One idle tick: nothing happens unless playing; then the counters, the game
      update, and both projectile updates (these also in the tick that ends the game). */
  function Idle(w: World, d: TickDraws, num: Numerics): World
    requires TickDrawsOk(d)
  {
    if w.state != Playing then w
    else EnemyShotsUpdated(BulletsUpdated(UpdateGame(BurstStep(w, num), d, num)))
  }

  // ------------------------------------------------------------ the properties

  /** Space swaps playing and paused and does nothing in a finished game. */
  lemma SpaceToggles(w: World, d: StartDraws, num: Numerics)
    ensures Keyboard(w, Space, d, num).state ==
      (if w.state == Playing then Paused else if w.state == Paused then Playing else Over)
    ensures Keyboard(w, Space, d, num) == w.(state := Keyboard(w, Space, d, num).state)
    ensures Keyboard(Keyboard(w, Space, d, num), Space, d, num) == w
  {
  }

  /** The restart key is honoured only from a finished or paused game, and then
      resets the game to its start: new trees, the booster moved against them (or
      left where it was), the initial wave in place with its tanks first, and the
      firing counters and laser flags as they were. */
  lemma RestartKey(w: World, d: StartDraws, num: Numerics)
    requires StartDrawsOk(d)
    ensures !MayRestart(w.state) ==> Keyboard(w, KeyR, d, num) == w
    ensures MayRestart(w.state) ==>
      var r := Keyboard(w, KeyR, d, num);
      r.state == Playing && r.score == 0 && r.difficulty == 0 && r.hp == PlayerMaxHp &&
      r.player == StartPos && r.gunAngle == StartAngle && r.weapon == Normal &&
      r.bullets == [] && r.enemyShots == [] && r.trees == d.trees &&
      r.booster == BoosterAfter(d.trees, w.booster, d.booster) &&
      r.fireCooldown == w.fireCooldown && r.burstRemaining == w.burstRemaining &&
      r.fireHeld == w.fireHeld && r.laserActive == w.laserActive && r.laserTarget == w.laserTarget &&
      r.enemies == Wave(d.trees, d.wave) &&
      |r.enemies| <= 7 && (forall j :: 0 <= j < |r.enemies| ==> WaveMember(d.trees, r.enemies[j])) &&
      (forall j, j' :: 0 <= j < j' < |r.enemies| && r.enemies[j].kind == Basic ==> r.enemies[j'].kind == Basic)
  {
    WaveMembers(d.trees, d.wave);
    WaveTanksFirst(d.trees, d.wave);
  }

  /** Movement and rotation keys change nothing unless playing; weapon keys select
      their weapon in every state. */
  lemma MovementGated(w: World, key: Key, d: StartDraws, num: Numerics)
    requires key != Space && key != KeyR && w.state != Playing
    ensures Keyboard(w, key, d, num) == w.(weapon := WeaponKey(key, w.weapon))
  {
  }

  /** A rotation key turns the gun by TurnStep (left adds, right subtracts) exactly
      when the gun tip at the new angle is valid, and otherwise changes nothing; it
      never changes anything but the angle. */
  lemma RotateGunEffect(w: World, dir: TurnDir, num: Numerics)
    ensures var r := RotateGun(w, dir, num);
      var a := w.gunAngle + (if dir == Left then TurnStep else -TurnStep);
      r == w.(gunAngle := r.gunAngle) &&
      (r.gunAngle == a <==> GunTipValid(w.trees, w.enemies, GunTip(w.player, num.heading(a)))) &&
      (!GunTipValid(w.trees, w.enemies, GunTip(w.player, num.heading(a))) ==> r == w)
  {
  }

  /** A move keeps a valid player position valid. */
  lemma MoveKeepsPositionValid(w: World, dir: MoveDir, num: Numerics)
    requires PositionValidForPlayer(w.trees, w.player)
    ensures PositionValidForPlayer(MovePlayer(w, dir, num).trees, MovePlayer(w, dir, num).player)
  {
  }

  /** A press fires only while playing, off cooldown and with a weapon other than the
      laser; otherwise only the button state is recorded. */
  lemma FiringGate(w: World, left: bool, down: bool, num: Numerics)
    ensures !MayShoot(w.state, w.fireCooldown, w.weapon) ==>
      Mouse(w, left, down, num) == (if left then w.(fireHeld := down) else w)
    ensures MayShoot(w.state, w.fireCooldown, w.weapon) && down ==>
      var r := Mouse(w, left, down, num);
      r.fireCooldown > 0 && |w.bullets| <= |r.bullets| <= |w.bullets| + 1 &&
      r.bullets[..|w.bullets|] == w.bullets && r.enemies == w.enemies
  {
  }

  /** A finished game ignores ticks and presses, and leaves only through the restart key. */
  lemma OverIsAbsorbing(w: World, key: Key, dt: TickDraws, ds: StartDraws, left: bool, down: bool, num: Numerics)
    requires w.state == Over && TickDrawsOk(dt)
    ensures Idle(w, dt, num) == w
    ensures Mouse(w, left, down, num).state == Over
    ensures key != KeyR ==> Keyboard(w, key, ds, num) == w.(weapon := WeaponKey(key, w.weapon))
  {
  }

  /** The tick that finds no hit points left ends the game with 0, then still runs
      both projectile updates: enemy shots landing in that tick take hit points below
      0 again, and the score and difficulty stay. */
  lemma DeathTick(w: World, d: TickDraws, num: Numerics)
    requires TickDrawsOk(d) && w.state == Playing && w.hp <= 0
    ensures var r := Idle(w, d, num);
      r.state == Over && r.score == w.score && r.difficulty == w.difficulty && r.player == w.player &&
      r.hp + EnemyShotsPass(w.trees, w.player, w.enemyShots).damage == 0 &&
      r.hp <= 0
  {
    var w1 := BurstStep(w, num);
    var w2 := w1.(state := Over, hp := 0);
    assert UpdateGame(w1, d, num) == w2;
    var w3 := BulletsUpdated(w2);
    assert w3.hp == 0 && w3.trees == w.trees && w3.player == w.player && w3.enemyShots == w.enemyShots;
    assert Idle(w, d, num) == EnemyShotsUpdated(w3);
  }

  lemma {:induction false} UpdateGameAccounting(w: World, d: TickDraws, num: Numerics)
    requires TickDrawsOk(d) && 0 < w.hp <= PlayerMaxHp
    ensures var r := UpdateGame(w, d, num);
      r.score >= w.score && r.difficulty == DifficultyFor(r.score) && r.hp <= PlayerMaxHp &&
      (!TouchesBooster(w) ==> r.hp <= w.hp)
  {
    var w1 := TakeBooster(w, d.booster);
    var env := Env(w1.trees, w1.player, w1.difficulty, num.hypot, d.jitter);
    UpdateEnemiesAccounting(w1.enemies, w1.score, w1.hp, w1.enemyShots, env);
  }

  lemma EnemyShotsHurt(w: World)
    ensures EnemyShotsUpdated(w).hp <= w.hp
  {
  }

  /** Every handler keeps the invariant. */
  lemma {:induction false} IdleKeepsValid(w: World, d: TickDraws, num: Numerics)
    requires Valid(w) && TickDrawsOk(d)
    ensures Valid(Idle(w, d, num))
  {
    if w.state == Playing {
      var w1 := BurstStep(w, num);
      TickKeepsValid(w.fireCooldown, w.burstRemaining);
      UpdateGameKeepsValid(w1, d, num);
      var w3 := BulletsUpdated(UpdateGame(w1, d, num));
      EnemyShotsHurt(w3);
    }
  }

  lemma {:induction false} UpdateGameKeepsValid(w: World, d: TickDraws, num: Numerics)
    requires Valid(w) && TickDrawsOk(d)
    ensures Valid(UpdateGame(w, d, num))
  {
    if w.hp > 0 {
      UpdateGameAccounting(w, d, num);
      UpdateGameCounters(w, d, num);
    }
  }

  /** Only the laser touches the counters during the game update, and only from 0. */
  lemma UpdateGameCounters(w: World, d: TickDraws, num: Numerics)
    requires TickDrawsOk(d) && w.hp > 0 && CountersValid(w.fireCooldown, w.burstRemaining)
    ensures CountersValid(UpdateGame(w, d, num).fireCooldown, UpdateGame(w, d, num).burstRemaining)
  {
    var w4 := Spawn(Collide(EnemiesAfter(TakeBooster(w, d.booster), d.jitter, num), num), d.spawn);
    assert w4.fireCooldown == w.fireCooldown && w4.burstRemaining == w.burstRemaining;
  }

  lemma KeyboardKeepsValid(w: World, key: Key, d: StartDraws, num: Numerics)
    requires Valid(w)
    ensures Valid(Keyboard(w, key, d, num))
  {
    var w1 := PauseStage(w, key);
    assert Valid(w1);
    var w2 := RestartStage(w1, key, d);
    assert Valid(w2);
    var w3 := MoveStage(w2, key, num);
    assert Valid(w3);
  }

  lemma MouseKeepsValid(w: World, left: bool, down: bool, num: Numerics)
    requires Valid(w)
    ensures Valid(Mouse(w, left, down, num))
  {
    var w1 := if left then w.(fireHeld := down) else w;
    if down && MayShoot(w1.state, w1.fireCooldown, w1.weapon) {
      var h := num.heading(w1.gunAngle);
      FireKeepsValid(w1.weapon, w1.player, GunTip(w1.player, h), h, w1.fireCooldown, w1.burstRemaining);
    }
  }

  /** The start of a game, as the program's entry point sets it up. */
  function Start(d: StartDraws): (w: World)
    requires StartDrawsOk(d)
    ensures Valid(w) && w.state == Playing && w.hp == PlayerMaxHp
  {
    World(Playing, 0, 0, PlayerMaxHp, StartPos, StartAngle, Normal, 0, 0, false, false,
          Vec(0.0, 0.0), BoosterAfter(d.trees, Vec(0.0, 0.0), d.booster),
          d.trees, Wave(d.trees, d.wave), [], [])
  }
}
