/** The running game: the program's globals as the fields of one object, updated in
    place by the input handlers and the idle tick. Every method is proved to move the
    snapshot View() exactly as the corresponding transition of Rules does, so the
    properties proved there hold of the object. */
module Simulation {
  import opened Entities
  import opened Geometry
  import opened Movement
  import opened EnemyRules
  import opened Combat
  import opened Projectiles
  import opened Collisions
  import opened Rules

  class Game {
    var state: GameState
    var score: nat
    var difficulty: nat
    var hp: int
    var player: Vec
    var gunAngle: real
    var weapon: Weapon
    var fireCooldown: nat
    var burstRemaining: nat
    var fireHeld: bool
    var laserActive: bool
    var laserTarget: Vec
    var booster: Vec
    var trees: seq<Tree>
    var enemies: seq<Enemy>
    var bullets: seq<Bullet>
    var enemyShots: seq<EnemyShot>
    const num: Numerics

    function View(): World
      reads this
    {
      World(state, score, difficulty, hp, player, gunAngle, weapon, fireCooldown, burstRemaining,
            fireHeld, laserActive, laserTarget, booster, trees, enemies, bullets, enemyShots)
    }

    /** The program's start: scenery, then the booster, then the initial wave. */
    constructor (d: StartDraws, num: Numerics)
      requires StartDrawsOk(d)
      ensures View() == Start(d) && this.num == num && Valid(View())
    {
      state := Playing;
      score := 0;
      difficulty := 0;
      hp := PlayerMaxHp;
      player := StartPos;
      gunAngle := StartAngle;
      weapon := Normal;
      fireCooldown := 0;
      burstRemaining := 0;
      fireHeld := false;
      laserActive := false;
      laserTarget := Vec(0.0, 0.0);
      booster := Vec(0.0, 0.0);
      trees := d.trees;
      enemies := [];
      bullets := [];
      enemyShots := [];
      this.num := num;
      new;
      MoveHealthBooster(d.booster);
      InitialSpawn(d.wave);
    }

    // -------------------------------------------------------------- placement

    method MoveHealthBooster(candidate: Vec)
      modifies this
      ensures View() == old(View()).(booster := BoosterAfter(old(trees), old(booster), candidate))
    {
      if ClearOfTrees(trees, candidate, TreeRadius + BoosterRadius) {
        booster := candidate;
      }
    }

    method InitialSpawn(wave: seq<PlacementDraw>)
      modifies this
      ensures View() == old(View()).(enemies := Wave(old(trees), wave))
    {
      enemies := [];
      var slot := 0;
      while slot < |wave|
        invariant 0 <= slot <= |wave|
        invariant enemies == Wave(trees, wave[..slot])
        invariant View() == old(View()).(enemies := enemies)
      {
        WaveNext(trees, wave, slot);
        var e := Candidate(slot, wave[slot]);
        if PositionValidForEnemy(trees, e.pos, Stats(e.kind).radius) {
          enemies := enemies + [e];
        }
        slot := slot + 1;
      }
      assert wave[..slot] == wave;
    }

    // --------------------------------------------------------------- keyboard

    method TogglePause()
      modifies this
      ensures View() == Rules.TogglePause(old(View()))
    {
      if state == Playing {
        state := Paused;
      } else if state == Paused {
        state := Playing;
      }
    }

    method Restart(d: StartDraws)
      modifies this
      ensures View() == Restarted(old(View()), d)
    {
      ResetRound(d.trees);
      MoveHealthBooster(d.booster);
      InitialSpawn(d.wave);
      weapon := Normal;
    }

    /** The part of a restart that does not draw: everything but the booster, the
        wave and the weapon back to the start of a round, on the new scenery. */
    method ResetRound(scenery: seq<Tree>)
      modifies this
      ensures View() == old(View()).(state := Playing, score := 0, difficulty := 0, hp := PlayerMaxHp,
        player := StartPos, gunAngle := StartAngle, trees := scenery, enemies := [], bullets := [], enemyShots := [])
    {
      ResetPlayer();
      ClearArena(scenery);
    }

    method ResetPlayer()
      modifies this
      ensures View() == old(View()).(state := Playing, score := 0, difficulty := 0, hp := PlayerMaxHp,
        player := StartPos, gunAngle := StartAngle)
    {
      state, score, hp, difficulty, player, gunAngle := Playing, 0, PlayerMaxHp, 0, StartPos, StartAngle;
    }

    method ClearArena(scenery: seq<Tree>)
      modifies this
      ensures View() == old(View()).(trees := scenery, enemies := [], bullets := [], enemyShots := [])
    {
      enemies := [];
      bullets := [];
      enemyShots := [];
      trees := scenery;
    }

    method TryMovePlayer(dir: MoveDir)
      modifies this
      ensures View() == MovePlayer(old(View()), dir, num)
    {
      var delta := MoveDelta(num.heading(gunAngle), dir);
      var next := Vec(player.x + delta.x, player.y + delta.y);
      if PositionValidForPlayer(trees, Vec(next.x, player.y)) {
        player := Vec(next.x, player.y);
      }
      if PositionValidForPlayer(trees, Vec(player.x, next.y)) {
        player := Vec(player.x, next.y);
      }
    }

    method TryRotateGun(dir: TurnDir)
      modifies this
      ensures View() == RotateGun(old(View()), dir, num)
    {
      var next := TurnedAngle(gunAngle, dir);
      if GunTipValid(trees, enemies, GunTip(player, num.heading(next))) {
        gunAngle := next;
      }
    }

    method KeyboardListener(key: Key, d: StartDraws)
      requires Valid(View())
      modifies this
      ensures View() == Keyboard(old(View()), key, d, num) && Valid(View())
    {
      HandleSpace(key);
      HandleRestart(key, d);
      HandleMovement(key);
      HandleWeaponKeys(key);
      KeyboardKeepsValid(old(View()), key, d, num);
    }

    method HandleSpace(key: Key)
      modifies this
      ensures View() == PauseStage(old(View()), key)
    {
      if key == Space {
        TogglePause();
      }
    }

    method HandleRestart(key: Key, d: StartDraws)
      modifies this
      ensures View() == RestartStage(old(View()), key, d)
    {
      if key == KeyR && (state == Over || state == Paused) {
        Restart(d);
      }
    }

    method HandleMovement(key: Key)
      modifies this
      ensures View() == MoveStage(old(View()), key, num)
    {
      if state == Playing {
        if key == KeyW {
          TryMovePlayer(Forward);
        }
        if key == KeyS {
          TryMovePlayer(Backward);
        }
        if key == KeyA {
          TryRotateGun(Left);
        }
        if key == KeyD {
          TryRotateGun(Right);
        }
      }
    }

    method HandleWeaponKeys(key: Key)
      modifies this
      ensures View() == WeaponStage(old(View()), key)
    {
      if key == Key1 {
        weapon := Normal;
      }
      if key == Key2 {
        weapon := Laser;
      }
      if key == Key3 {
        weapon := Burst;
      }
      if key == Key4 {
        weapon := Shockwave;
      }
    }

    // ------------------------------------------------------------------ mouse

    method ShootWeapon()
      modifies this
      ensures View() == Shoot(old(View()), num)
    {
      if state != Playing || fireCooldown > 0 || weapon == Laser {
        return;
      }
      var h := num.heading(gunAngle);
      var tip := GunTip(player, h);
      if weapon == Normal {
        bullets := bullets + [Shot(tip, Vec(BulletSpeed * h.x, BulletSpeed * h.y), NormalShot)];
        fireCooldown := NormalCooldown;
      } else if weapon == Burst {
        burstRemaining := 3;
        fireCooldown := BurstCooldown;
      } else if weapon == Shockwave {
        bullets := bullets + [Ring(player, 0.0)];
        fireCooldown := ShockwaveCooldown;
      }
    }

    method MouseListener(left: bool, down: bool)
      requires Valid(View())
      modifies this
      ensures View() == Mouse(old(View()), left, down, num) && Valid(View())
    {
      if left {
        fireHeld := down;
      }
      if down {
        ShootWeapon();
      }
      MouseKeepsValid(old(View()), left, down, num);
    }

    // ------------------------------------------------------------ enemy update

    method SplitEnemy(parent: Enemy, i: nat, jitter: (nat, nat) -> Vec)
      modifies this
      ensures View() == old(View()).(enemies := old(enemies) + SplitChildren(parent, difficulty, jitter, i))
    {
      var c := 0;
      while c < 3
        invariant 0 <= c <= 3
        invariant View() == old(View()).(enemies := old(enemies) + SplitChildren(parent, difficulty, jitter, i)[..c])
      {
        enemies := enemies + [SplitChild(parent.pos, difficulty, jitter(i, c))];
        c := c + 1;
      }
    }

    method UpdateEnemies(jitter: (nat, nat) -> Vec)
      modifies this
      ensures View() == EnemiesAfter(old(View()), jitter, num)
    {
      var env := Env(trees, player, difficulty, num.hypot, jitter);
      ghost var v0 := View();
      ghost var removed: seq<Enemy> := [];
      var i := 0;
      while i < |enemies|
        invariant RunPass(Pass(enemies, score, hp, enemyShots, removed), i, env) ==
                  RunPass(Pass(v0.enemies, v0.score, v0.hp, v0.enemyShots, []), 0, env)
        invariant View() == v0.(enemies := enemies, score := score, hp := hp, enemyShots := enemyShots)
        decreases Pending(enemies, i), Unvisited(enemies, i)
      {
        ghost var before := Pass(enemies, score, hp, enemyShots, removed);
        StepDecreases(before, i, env);
        removed := Visit(i, env, removed);
        i := i + 1;
      }
    }

    /** The visit of index `i` in the enemy pass: a dead enemy is scored, split and
        popped, a living one takes its turn. */
    method Visit(i: nat, env: Env, ghost removed: seq<Enemy>) returns (ghost removed': seq<Enemy>)
      requires i < |enemies| && env.difficulty == difficulty
      modifies this
      ensures Pass(enemies, score, hp, enemyShots, removed') ==
              Step(Pass(old(enemies), old(score), old(hp), old(enemyShots), removed), i, env)
      ensures View() == old(View()).(enemies := enemies, score := score, hp := hp, enemyShots := enemyShots)
    {
      var e := enemies[i];
      if e.hp <= 0.0 {
        PopDead(i, env.jitter);
        removed' := removed + [e];
      } else {
        TakeTurn(i, env);
        removed' := removed;
      }
    }

    /** A dead enemy at index `i` is scored, split if it is a splitter, and popped. */
    method PopDead(i: nat, jitter: (nat, nat) -> Vec)
      requires i < |enemies| && enemies[i].hp <= 0.0
      modifies this
      ensures var e := old(enemies)[i];
        View() == old(View()).(score := old(score) + Reward(e.kind),
          enemies := old(enemies)[..i] + old(enemies)[i + 1..] +
                     (if e.kind == Splitter then SplitChildren(e, difficulty, jitter, i) else []))
    {
      var e := enemies[i];
      score := score + Reward(e.kind);
      if e.kind == Splitter {
        SplitEnemy(e, i, jitter);
      }
      ghost var grown := enemies;
      enemies := enemies[..i] + enemies[i + 1..];
      assert enemies == old(enemies)[..i] + old(enemies)[i + 1..] + grown[|old(enemies)|..];
    }

    /** A living enemy at index `i` takes its turn. */
    method TakeTurn(i: nat, env: Env)
      requires i < |enemies| && !(enemies[i].hp <= 0.0)
      modifies this
      ensures var t := Act(old(enemies)[i], env);
        View() == old(View()).(enemies := old(enemies)[i := t.enemy], hp := old(hp) - t.hpLoss,
          enemyShots := old(enemyShots) + t.shots)
    {
      var t := Act(enemies[i], env);
      enemies, hp, enemyShots := enemies[i := t.enemy], hp - t.hpLoss, enemyShots + t.shots;
    }

    method ResolveCollisions()
      modifies this
      ensures View() == Collide(old(View()), num)
    {
      var p, es := SeparatePlayer(player, enemies, num.hypot);
      es := SeparatePairs(es, num.hypot);
      player, enemies := p, es;
    }

    method ManageEnemySpawning(draw: SpawnDraw)
      requires 0 <= draw.fireRoll <= Stats(draw.kind).fireRate
      modifies this
      ensures View() == Spawn(old(View()), draw)
    {
      difficulty := score / 30;
      var cap := 8 + difficulty * 2;
      if |enemies| < cap {
        var st := Stats(draw.kind);
        var p := SpawnPoint(draw.kind, draw.dir);
        if SpawnPointAccepted(trees, draw.kind, p) {
          var life := st.hp * (1.0 + difficulty as real * 0.15);
          enemies := enemies + [Enemy(p, draw.kind, life, life, st.speed * (1.0 + difficulty as real * 0.08), 0, draw.fireRoll, 0)];
        }
      }
    }

    // ------------------------------------------------------------------- tick

    method HandleLaser()
      modifies this
      ensures View() == FireLaser(old(View()), num)
    {
      if fireCooldown > 0 {
        return;
      }
      var h := num.heading(gunAngle);
      var start := GunTip(player, h);
      ArmLaser(start, h);
      StrikeClosest(start, h);
    }

    method ArmLaser(start: Vec, dir: Vec)
      modifies this
      ensures View() == LaserArmed(old(View()), start, dir)
    {
      laserActive := true;
      fireCooldown := LaserCooldown;
      laserTarget := Vec(start.x + dir.x * LaserRange, start.y + dir.y * LaserRange);
    }

    method StrikeClosest(start: Vec, dir: Vec)
      modifies this
      ensures View() == LaserStrike(old(View()), start, dir)
    {
      var hit := ClosestOnRay(enemies, start, dir);
      if hit.Some? {
        var k := hit.value;
        enemies := enemies[k := enemies[k].(hp := enemies[k].hp - LaserDamage)];
        laserTarget := enemies[k].pos;
      }
    }

    method UpdateGame(d: TickDraws)
      requires TickDrawsOk(d)
      modifies this
      ensures View() == Rules.UpdateGame(old(View()), d, num)
    {
      if hp <= 0 {
        state := Over;
        hp := 0;
        return;
      }
      PickUpBooster(d.booster);
      UpdateEnemies(d.jitter);
      ResolveCollisions();
      ManageEnemySpawning(d.spawn);
      LaserWhileHeld();
    }

    method PickUpBooster(candidate: Vec)
      modifies this
      ensures View() == TakeBooster(old(View()), candidate)
    {
      if DistSq(player, booster) < (PlayerRadius + BoosterRadius) * (PlayerRadius + BoosterRadius) {
        hp := PlayerMaxHp;
        MoveHealthBooster(candidate);
      }
    }

    method LaserWhileHeld()
      modifies this
      ensures View() == LaserIfHeld(old(View()), num)
    {
      laserActive := false;
      if weapon == Laser && fireHeld {
        HandleLaser();
      }
    }

    method UpdateBullets()
      modifies this
      ensures View() == BulletsUpdated(old(View()))
    {
      var v := SweepBullets(trees, enemies, bullets);
      bullets, enemies := v.kept, v.enemies;
    }

    method UpdateEnemyBullets()
      modifies this
      ensures View() == EnemyShotsUpdated(old(View()))
    {
      var kept, damage := SweepEnemyShots(trees, player, enemyShots);
      enemyShots, hp := kept, hp - damage;
    }

    method Idle(d: TickDraws)
      requires TickDrawsOk(d) && Valid(View())
      modifies this
      ensures View() == Rules.Idle(old(View()), d, num) && Valid(View())
    {
      if state != Playing {
        return;
      }
      if fireCooldown > 0 {
        fireCooldown := fireCooldown - 1;
      }
      if burstRemaining > 0 && fireCooldown == 0 {
        burstRemaining := burstRemaining - 1;
        var h := num.heading(gunAngle);
        bullets := bullets + [Shot(GunTip(player, h), Vec(BulletSpeed * h.x, BulletSpeed * h.y), BurstShot)];
        if burstRemaining > 0 {
          fireCooldown := BurstCooldown;
        }
      }
      assert View() == BurstStep(old(View()), num);
      UpdateGame(d);
      UpdateBullets();
      UpdateEnemyBullets();
      IdleKeepsValid(old(View()), d, num);
    }
  }
}
