/** Enemy bookkeeping: one pass of the enemy update (death, scoring and splitting,
    grace countdown, kamikaze contact, steering and firing), the spawn director and
    the initial wave. Random draws and square roots are supplied by the caller. */
module EnemyRules {
  import opened Entities
  import opened Geometry
  import opened Movement

  /** Score awarded when a dead enemy of kind `k` is removed. */
  function Reward(k: Kind): nat
  {
    if k == Tank then 30 else if k == Splitter then 15 else if k == Kamikaze then 10 else 5
  }

  // ------------------------------------------------------------------ splitting

  /** One of the three basic enemies left by a dead splitter at `at`, displaced by
      the jitter `off`, with stats scaled by the current difficulty. */
  function SplitChild(at: Vec, difficulty: nat, off: Vec): Enemy
  {
    var hp := Stats(Basic).hp * (1.0 + difficulty as real * 0.1);
    var speed := Stats(Basic).speed * (1.0 + difficulty as real * 0.05);
    Enemy(Vec(at.x + off.x, at.y + off.y), Basic, hp, hp, speed, 0, Stats(Basic).fireRate as int, 0)
  }

  /** The children appended when the enemy at index `i` of the pass splits; `jitter(i, c)`
      is the random offset of child c. */
  function SplitChildren(parent: Enemy, difficulty: nat, jitter: (nat, nat) -> Vec, i: nat): (kids: seq<Enemy>)
    ensures |kids| == 3
    ensures forall c :: 0 <= c < 3 ==>
      kids[c].kind == Basic && kids[c].hp == kids[c].maxHp == 60.0 * (1.0 + difficulty as real * 0.1) &&
      kids[c].hp > 0.0 && kids[c].grace == 0 && kids[c].fireCd == 180 && kids[c].contactCd == 0 &&
      kids[c].speed == 1.8 * (1.0 + difficulty as real * 0.05) &&
      kids[c].pos == Vec(parent.pos.x + jitter(i, c).x, parent.pos.y + jitter(i, c).y)
  {
    [SplitChild(parent.pos, difficulty, jitter(i, 0)),
     SplitChild(parent.pos, difficulty, jitter(i, 1)),
     SplitChild(parent.pos, difficulty, jitter(i, 2))]
  }

  // --------------------------------------------------------- the turn of one enemy

  /** What one pass of the enemy update sees of the rest of the world. `hypot` stands
      for math.hypot. */
  datatype Env = Env(
    trees: seq<Tree>, player: Vec, difficulty: nat,
    hypot: (real, real) -> real, jitter: (nat, nat) -> Vec)

  /** The turn of a living enemy: its new record, the damage it does to the player and
      the shots it fires. */
  datatype Turn = Turn(enemy: Enemy, hpLoss: nat, shots: seq<EnemyShot>)

  /** The distance to the player used for steering; the source's 0.01 stands in for a
      zero distance so that normalising never divides by zero. */
  function DistanceToPlayer(e: Enemy, env: Env): (d: real)
    ensures d > 0.0
  {
    var h := env.hypot(env.player.x - e.pos.x, env.player.y - e.pos.y);
    if h > 0.0 then h else 0.01
  }

  /** The unit vector towards the player. */
  function Toward(e: Enemy, env: Env): Vec
  {
    var d := DistanceToPlayer(e, env);
    Vec((env.player.x - e.pos.x) / d, (env.player.y - e.pos.y) / d)
  }

  /** The kamikaze detonates within its radius + PlayerRadius + 10 of the player. The
      comparison is on squared distances; SourceComparisonsAgree shows it decides what
      the source's comparison of the distance decides. */
  predicate Detonates(e: Enemy, env: Env)
  {
    var reach := Stats(e.kind).radius + PlayerRadius + 10.0;
    e.kind == Kamikaze && DistSq(env.player, e.pos) < reach * reach
  }

  /** The enemy steers this turn: its archetype moves and the player is farther than
      its stop distance (squared distances again, see SourceComparisonsAgree). */
  predicate Chases(e: Enemy, env: Env)
  {
    Stats(e.kind).speed > 0.0 && DistSq(env.player, e.pos) > Stats(e.kind).stopDist * Stats(e.kind).stopDist
  }

  /** Between non-negative reals, `<` is decided by the squares. */
  lemma SquareMonotone(a: real, b: real)
    requires a >= 0.0 && b >= 0.0
    ensures a < b <==> a * a < b * b
  {
    if a < b {
      calc {
        a * a;
      <= a * b;
      <  b * b;
      }
    } else {
      calc {
        b * b;
      <= b * a;
      <= a * a;
      }
    }
  }

  /** When `hypot` is the true distance, the squared comparisons of Detonates and
      Chases decide exactly what the source's comparisons of dist_to_player decide,
      the 0.01 stand-in for a zero distance included. */
  lemma SourceComparisonsAgree(e: Enemy, env: Env)
    requires var h := env.hypot(env.player.x - e.pos.x, env.player.y - e.pos.y);
      h >= 0.0 && h * h == DistSq(env.player, e.pos)
    ensures Detonates(e, env) <==>
      e.kind == Kamikaze && DistanceToPlayer(e, env) < Stats(e.kind).radius + PlayerRadius + 10.0
    ensures Chases(e, env) <==>
      Stats(e.kind).speed > 0.0 && DistanceToPlayer(e, env) > Stats(e.kind).stopDist
  {
    var h := env.hypot(env.player.x - e.pos.x, env.player.y - e.pos.y);
    var reach := Stats(e.kind).radius + PlayerRadius + 10.0;
    var stop := Stats(e.kind).stopDist;
    if h > 0.0 {
      SquareMonotone(h, reach);
      SquareMonotone(stop, h);
    } else {
      assert DistSq(env.player, e.pos) == 0.0;
      assert reach * reach > 0.0;
      assert stop * stop >= 0.0;
    }
  }

  /** The turn of a living enemy (hp > 0). */
  function Act(e: Enemy, env: Env): (t: Turn)
    // the archetype, the spawn stats and the vestigial counter's sign never change
    ensures t.enemy.kind == e.kind && t.enemy.maxHp == e.maxHp && t.enemy.speed == e.speed
    ensures |t.shots| <= 1
    // in the grace period only the grace counter moves
    ensures e.grace > 0 ==> t == Turn(e.(grace := e.grace - 1), 0, [])
    ensures e.grace == 0 ==>
      (t.enemy.grace == 0 && t.enemy.contactCd == (if e.contactCd > 0 then e.contactCd - 1 else e.contactCd))
    // a kamikaze in reach deals its contact damage and is marked dead in place
    ensures e.grace == 0 && Detonates(e, env) ==>
      t.enemy.hp == 0.0 && t.hpLoss == 150 && t.shots == [] && t.enemy.pos == e.pos
    ensures !(e.grace == 0 && Detonates(e, env)) ==> t.enemy.hp == e.hp && t.hpLoss == 0
    // otherwise it steers (or stays) and its fire counter counts down or re-arms
    ensures e.grace == 0 && !Detonates(e, env) ==>
      t.enemy.pos == (if Chases(e, env)
                      then Steer(env.trees, e.pos, Toward(e, env), e.speed, Stats(e.kind).radius)
                      else e.pos)
    ensures e.grace == 0 && !Detonates(e, env) && t.shots == [] ==> t.enemy.fireCd == e.fireCd - 1
    // a shot leaves exactly when the counter has run out, the archetype fires and the
    // line from the new position to the player is clear
    ensures e.grace == 0 && !Detonates(e, env) ==>
      (t.shots != [] <==> e.fireCd - 1 <= 0 && Stats(e.kind).fireRate < NeverFires &&
                          LineOfSight(env.trees, Segment(t.enemy.pos, env.player)))
    ensures t.shots != [] ==>
      t.shots[0].vel == Vec(Toward(e, env).x * Stats(e.kind).bulletSpeed, Toward(e, env).y * Stats(e.kind).bulletSpeed)
    ensures t.shots != [] ==>
      e.fireCd - 1 <= 0 && Stats(e.kind).fireRate < NeverFires &&
      LineOfSight(env.trees, Segment(t.enemy.pos, env.player)) &&
      t.enemy.fireCd == Stats(e.kind).fireRate &&
      t.shots[0].pos == t.enemy.pos && t.shots[0].damage == Stats(e.kind).bulletDamage &&
      t.shots[0].owner == e.kind
  {
    if e.grace > 0 then Turn(e.(grace := e.grace - 1), 0, [])
    else
      var st := Stats(e.kind);
      var e1 := e.(contactCd := if e.contactCd > 0 then e.contactCd - 1 else e.contactCd);
      if Detonates(e, env) then Turn(e1.(hp := 0.0), st.kamikazeDamage, [])
      else
        var n := Toward(e, env);
        var pos := if Chases(e, env) then Steer(env.trees, e.pos, n, e.speed, st.radius) else e.pos;
        var cd := e.fireCd - 1;
        if cd <= 0 && st.fireRate < NeverFires && LineOfSight(env.trees, Segment(pos, env.player)) then
          var shot := EnemyShot(pos, Vec(n.x * st.bulletSpeed, n.y * st.bulletSpeed), st.bulletDamage, e.kind);
          Turn(e1.(pos := pos, fireCd := st.fireRate), 0, [shot])
        else
          Turn(e1.(pos := pos, fireCd := cd), 0, [])
  }

  /** A kamikaze never re-arms its fire counter (its fire rate is NeverFires or more),
      so while it is not in reach the counter only goes down, below zero too. */
  lemma KamikazeCounterUnfloored(e: Enemy, env: Env)
    requires e.kind == Kamikaze && e.grace == 0 && !Detonates(e, env)
    ensures Act(e, env).enemy.fireCd == e.fireCd - 1 && Act(e, env).shots == []
  {
  }

  // ----------------------------------------------------------------- the pass

  /** The state of one pass: the live enemy list, the score, the player's hit points,
      the enemy projectiles and (for the proofs) the enemies removed so far. */
  datatype Pass = Pass(enemies: seq<Enemy>, score: nat, hp: int, shots: seq<EnemyShot>, removed: seq<Enemy>)

  /** The visit of index `i`. A dead enemy is scored, split if it is a splitter (the
      children go to the end of the list) and popped; a living one takes its turn. */
  function Step(p: Pass, i: nat, env: Env): Pass
    requires i < |p.enemies|
  {
    var e := p.enemies[i];
    if e.hp <= 0.0 then
      var kids := if e.kind == Splitter then SplitChildren(e, env.difficulty, env.jitter, i) else [];
      Pass(p.enemies[..i] + p.enemies[i + 1..] + kids, p.score + Reward(e.kind), p.hp, p.shots, p.removed + [e])
    else
      var t := Act(e, env);
      Pass(p.enemies[i := t.enemy], p.score, p.hp - t.hpLoss, p.shots + t.shots, p.removed)
  }

  /** A dead splitter: the only enemies whose visit lengthens the list. */
  predicate WillSplit(e: Enemy)
  {
    e.hp <= 0.0 && e.kind == Splitter
  }

  function Splitters(s: seq<Enemy>): nat
  {
    if s == [] then 0 else (if WillSplit(s[0]) then 1 else 0) + Splitters(s[1..])
  }

  /** Dead splitters not yet visited, and the number of indices not yet visited: the
      pass ends because each visit lowers the first or keeps it and lowers the second. */
  function Pending(es: seq<Enemy>, i: nat): nat
  {
    if i <= |es| then Splitters(es[i..]) else 0
  }

  function Unvisited(es: seq<Enemy>, i: nat): nat
  {
    if i <= |es| then |es| - i else 0
  }

  lemma {:induction false} SplittersAppend(a: seq<Enemy>, b: seq<Enemy>)
    ensures Splitters(a + b) == Splitters(a) + Splitters(b)
  {
    if a == [] {
      assert a + b == b;
    } else {
      assert (a + b)[1..] == a[1..] + b;
      SplittersAppend(a[1..], b);
    }
  }

  lemma SplittersOfChildren(kids: seq<Enemy>)
    requires forall c :: 0 <= c < |kids| ==> kids[c].hp > 0.0
    ensures Splitters(kids) == 0
  {
    if kids != [] {
      SplittersOfChildren(kids[1..]);
    }
  }

  lemma StepDecreases(p: Pass, i: nat, env: Env)
    requires i < |p.enemies|
    ensures var q := Step(p, i, env).enemies;
      Pending(q, i + 1) < Pending(p.enemies, i) ||
      (Pending(q, i + 1) == Pending(p.enemies, i) && Unvisited(q, i + 1) < Unvisited(p.enemies, i))
  {
    var es := p.enemies;
    var e := es[i];
    var q := Step(p, i, env).enemies;
    assert es[i..] == [e] + es[i + 1..];
    assert Splitters(es[i..]) == (if WillSplit(e) then 1 else 0) + Splitters(es[i + 1..]);
    if e.hp <= 0.0 {
      var kids := if e.kind == Splitter then SplitChildren(e, env.difficulty, env.jitter, i) else [];
      assert q == es[..i] + (es[i + 1..] + kids);
      SplittersOfChildren(kids);
      SplittersAppend(es[i + 1..], kids);
      var rest := es[i + 1..] + kids;
      if rest != [] {
        assert q[i + 1..] == rest[1..];
        assert Splitters(rest[1..]) <= Splitters(rest);
      }
    } else {
      assert q[i + 1..] == es[i + 1..];
    }
  }

  /** The rest of the pass from index `i`, as the source's enumerate loop runs it: the
      index advances by one after every visit, also after a pop, so the enemy that
      slides into a popped slot is not visited, and appended children are. */
  function RunPass(p: Pass, i: nat, env: Env): Pass
    decreases Pending(p.enemies, i), Unvisited(p.enemies, i)
  {
    if i >= |p.enemies| then p
    else
      StepDecreases(p, i, env);
      RunPass(Step(p, i, env), i + 1, env)
  }

  /** update_enemies on the given list, score, player hit points and enemy projectiles. */
  function UpdateEnemies(enemies: seq<Enemy>, score: nat, hp: int, shots: seq<EnemyShot>, env: Env): Pass
  {
    RunPass(Pass(enemies, score, hp, shots, []), 0, env)
  }

  // ----------------------------------------------------------- pass accounting

  function RewardSum(rs: seq<Enemy>): nat
  {
    if rs == [] then 0 else Reward(rs[0].kind) + RewardSum(rs[1..])
  }

  function SplitCount(rs: seq<Enemy>): nat
  {
    if rs == [] then 0 else (if rs[0].kind == Splitter then 1 else 0) + SplitCount(rs[1..])
  }

  lemma {:induction false} SumsAppendOne(rs: seq<Enemy>, e: Enemy)
    ensures RewardSum(rs + [e]) == RewardSum(rs) + Reward(e.kind)
    ensures SplitCount(rs + [e]) == SplitCount(rs) + (if e.kind == Splitter then 1 else 0)
  {
    if rs != [] {
      assert (rs + [e])[1..] == rs[1..] + [e];
      SumsAppendOne(rs[1..], e);
    }
  }

  /** What a visit keeps: the score minus the rewards of the removed enemies, and the
      list length plus the removed count minus three per split, are unchanged; the
      removed enemies only grow, by dead ones; hit points never rise; projectiles are
      only appended. */
  lemma StepAccounting(p: Pass, i: nat, env: Env)
    requires i < |p.enemies|
    ensures var q := Step(p, i, env);
      q.score - RewardSum(q.removed) == p.score - RewardSum(p.removed) &&
      |q.enemies| + |q.removed| - 3 * SplitCount(q.removed) ==
        |p.enemies| + |p.removed| - 3 * SplitCount(p.removed) &&
      (q.removed == p.removed || q.removed == p.removed + [p.enemies[i]]) &&
      (q.removed != p.removed ==> p.enemies[i].hp <= 0.0) &&
      q.hp <= p.hp && |q.shots| >= |p.shots| && q.shots[..|p.shots|] == p.shots
  {
    var e := p.enemies[i];
    SumsAppendOne(p.removed, e);
    var q := Step(p, i, env);
    if e.hp > 0.0 {
      assert q.shots[..|p.shots|] == p.shots;
    }
  }

  /** Over the rest of a pass, the score gained is the rewards of the enemies removed
      and the list length moves by one per removal and three per split. */
  lemma {:induction false} RunPassAccounting(p: Pass, i: nat, env: Env)
    ensures var q := RunPass(p, i, env);
      q.score - RewardSum(q.removed) == p.score - RewardSum(p.removed) &&
      |q.enemies| + |q.removed| - 3 * SplitCount(q.removed) ==
        |p.enemies| + |p.removed| - 3 * SplitCount(p.removed)
    decreases Pending(p.enemies, i), Unvisited(p.enemies, i)
  {
    if i < |p.enemies| {
      StepDecreases(p, i, env);
      StepAccounting(p, i, env);
      RunPassAccounting(Step(p, i, env), i + 1, env);
    }
  }

  /** Over the rest of a pass, the removed list and the enemy shots only grow at the
      end, only dead enemies are removed, and the player's hit points never rise. */
  lemma {:induction false} RunPassPrefixes(p: Pass, i: nat, env: Env)
    ensures var q := RunPass(p, i, env);
      |q.removed| >= |p.removed| && q.removed[..|p.removed|] == p.removed &&
      (forall k :: |p.removed| <= k < |q.removed| ==> q.removed[k].hp <= 0.0) &&
      q.hp <= p.hp && |q.shots| >= |p.shots| && q.shots[..|p.shots|] == p.shots
    decreases Pending(p.enemies, i), Unvisited(p.enemies, i)
  {
    if i < |p.enemies| {
      StepDecreases(p, i, env);
      var p1 := Step(p, i, env);
      StepAccounting(p, i, env);
      RunPassPrefixes(p1, i + 1, env);
      var q := RunPass(p, i, env);
      assert q == RunPass(p1, i + 1, env);
      assert q.removed[..|p1.removed|] == p1.removed;
      assert q.removed[..|p.removed|] == p1.removed[..|p.removed|];
      assert q.shots[..|p.shots|] == q.shots[..|p1.shots|][..|p.shots|];
    }
  }

  /** One enemy update: the score rises by exactly the rewards of the removed enemies,
      the list shrinks by one per removal and grows by three per split, only enemies
      that were dead are removed, and the player's hit points never rise. */
  lemma UpdateEnemiesAccounting(enemies: seq<Enemy>, score: nat, hp: int, shots: seq<EnemyShot>, env: Env)
    ensures var q := UpdateEnemies(enemies, score, hp, shots, env);
      q.score == score + RewardSum(q.removed) &&
      |q.enemies| == |enemies| - |q.removed| + 3 * SplitCount(q.removed) &&
      (forall k :: 0 <= k < |q.removed| ==> q.removed[k].hp <= 0.0) &&
      q.hp <= hp && |q.shots| >= |shots| && q.shots[..|shots|] == shots
  {
    RunPassAccounting(Pass(enemies, score, hp, shots, []), 0, env);
    RunPassPrefixes(Pass(enemies, score, hp, shots, []), 0, env);
  }

  /** Every enemy that one visit leaves unvisited and dead was already unvisited and
      dead before, or it is an original still: the children of a split have full hit
      points and cannot be removed, nor split again, in the pass that made them. */
  lemma StepKeepsDeadOriginal(p: Pass, i: nat, env: Env, orig: seq<Enemy>)
    requires i < |p.enemies|
    requires forall k :: i <= k < |p.enemies| && p.enemies[k].hp <= 0.0 ==> p.enemies[k] in orig
    ensures var q := Step(p, i, env).enemies;
      forall k :: i + 1 <= k < |q| && q[k].hp <= 0.0 ==> q[k] in orig
  {
    var es := p.enemies;
    var e := es[i];
    var q := Step(p, i, env).enemies;
    if e.hp <= 0.0 {
      var kids := if e.kind == Splitter then SplitChildren(e, env.difficulty, env.jitter, i) else [];
      var rest := es[i + 1..] + kids;
      assert q == es[..i] + rest;
      forall k | i + 1 <= k < |q| ensures q[k].hp <= 0.0 ==> q[k] in orig {
        assert q[k] == rest[k - i];
        if k < |es| - 1 {
          assert q[k] == es[k + 1];
        } else {
          assert q[k] == kids[k - |es| + 1];
        }
      }
    } else {
      forall k | i + 1 <= k < |q| ensures q[k] == es[k] { }
    }
  }

  lemma {:induction false} RunPassRemovesOriginals(p: Pass, i: nat, env: Env, orig: seq<Enemy>)
    requires forall k :: i <= k < |p.enemies| && p.enemies[k].hp <= 0.0 ==> p.enemies[k] in orig
    requires forall k :: 0 <= k < |p.removed| ==> p.removed[k] in orig
    ensures forall k :: 0 <= k < |RunPass(p, i, env).removed| ==> RunPass(p, i, env).removed[k] in orig
    decreases Pending(p.enemies, i), Unvisited(p.enemies, i)
  {
    if i < |p.enemies| {
      StepDecreases(p, i, env);
      StepKeepsDeadOriginal(p, i, env, orig);
      var p1 := Step(p, i, env);
      assert forall k :: 0 <= k < |p1.removed| ==> p1.removed[k] in orig;
      RunPassRemovesOriginals(p1, i + 1, env, orig);
      var q := RunPass(p, i, env);
      assert q == RunPass(p1, i + 1, env);
      assert forall k :: 0 <= k < |q.removed| ==> q.removed[k] in orig;
    }
  }

  /** Every enemy removed by an update was in the list before it. */
  lemma UpdateEnemiesRemovesOriginals(enemies: seq<Enemy>, score: nat, hp: int, shots: seq<EnemyShot>, env: Env)
    ensures var q := UpdateEnemies(enemies, score, hp, shots, env);
      forall k :: 0 <= k < |q.removed| ==> q.removed[k] in enemies
  {
    var p := Pass(enemies, score, hp, shots, []);
    RunPassRemovesOriginals(p, 0, env, enemies);
    var q := RunPass(p, 0, env);
    assert forall k :: 0 <= k < |q.removed| ==> q.removed[k] in enemies;
  }

  /** The popped slot is taken by the next enemy, which the pass then steps over: of
      two adjacent dead enemies only the first is removed in this update. */
  lemma AdjacentDeadSkipped(a: Enemy, b: Enemy, score: nat, hp: int, env: Env)
    requires a.hp <= 0.0 && b.hp <= 0.0 && a.kind != Splitter
    ensures UpdateEnemies([a, b], score, hp, [], env).enemies == [b]
    ensures UpdateEnemies([a, b], score, hp, [], env).score == score + Reward(a.kind)
  {
    var p0 := Pass([a, b], score, hp, [], []);
    var p1 := Step(p0, 0, env);
    assert p1.enemies == [b];
    StepDecreases(p0, 0, env);
    assert RunPass(p0, 0, env) == RunPass(p1, 1, env);
    assert RunPass(p1, 1, env) == p1;
  }

  // --------------------------------------------------------------- spawning

  /** Difficulty level and population cap of the spawn director. */
  function DifficultyFor(score: nat): nat
  {
    score / 30
  }

  function PopulationCap(difficulty: nat): nat
  {
    8 + 2 * difficulty
  }

  /** The random draws of one spawn: the archetype, the direction of the spawn point
      on its ring (cos, sin of a random angle) and the fire counter roll. */
  datatype SpawnDraw = SpawnDraw(kind: Kind, dir: Vec, fireRoll: int)

  function SpawnPoint(k: Kind, dir: Vec): Vec
  {
    var d := GridLength - Stats(k).radius - 100.0;
    Vec(d * dir.x, d * dir.y)
  }

  /** A spawn candidate is accepted where the body fits, and for the stationary
      sniper only with a clear line to the arena centre. */
  predicate SpawnPointAccepted(trees: seq<Tree>, k: Kind, p: Vec)
  {
    PositionValidForEnemy(trees, p, Stats(k).radius) &&
    (k == Sniper ==> LineOfSight(trees, Segment(p, Vec(0.0, 0.0))))
  }

  /** The enemy a spawn adds, or None. The source retries spawn points until one is
      accepted; here the drawn point either is accepted or nothing is spawned. */
  function SpawnAttempt(trees: seq<Tree>, count: nat, difficulty: nat, draw: SpawnDraw): (r: Option<Enemy>)
    requires 0 <= draw.fireRoll <= Stats(draw.kind).fireRate
    ensures r.Some? <==>
      count < PopulationCap(difficulty) && SpawnPointAccepted(trees, draw.kind, SpawnPoint(draw.kind, draw.dir))
    ensures r.Some? ==>
      var e := r.value;
      e.kind == draw.kind && e.pos == SpawnPoint(draw.kind, draw.dir) &&
      PositionValidForEnemy(trees, e.pos, Stats(e.kind).radius) &&
      e.hp == e.maxHp == Stats(e.kind).hp * (1.0 + difficulty as real * 0.15) && e.hp > 0.0 &&
      e.speed == Stats(e.kind).speed * (1.0 + difficulty as real * 0.08) &&
      e.grace == 0 && 0 <= e.fireCd <= Stats(e.kind).fireRate && e.contactCd == 0
  {
    if count < PopulationCap(difficulty) && SpawnPointAccepted(trees, draw.kind, SpawnPoint(draw.kind, draw.dir)) then
      var st := Stats(draw.kind);
      var hp := st.hp * (1.0 + difficulty as real * 0.15);
      Some(Enemy(SpawnPoint(draw.kind, draw.dir), draw.kind, hp, hp,
                 st.speed * (1.0 + difficulty as real * 0.08), 0, draw.fireRoll, 0))
    else None
  }

  // ---------------------------------------------------------- the initial wave

  /** The initial wave is three tanks followed by four basic enemies. */
  function WaveKind(slot: nat): Kind
  {
    if slot < 3 then Tank else Basic
  }

  /** The random draws of one initial placement: distance, direction (cos, sin) and
      the fire counter roll. */
  datatype PlacementDraw = PlacementDraw(dist: real, dir: Vec, fireRoll: int)

  predicate RollsInRange(draws: seq<PlacementDraw>)
  {
    forall k :: 0 <= k < |draws| ==> 0 <= draws[k].fireRoll <= Stats(WaveKind(k)).fireRate
  }

  /** The enemy drawn for `slot`: its archetype at base stats, at distance `dist`
      along `dir`, with its drawn fire counter. */
  function Candidate(slot: nat, d: PlacementDraw): Enemy
  {
    var k := WaveKind(slot);
    Enemy(Vec(d.dist * d.dir.x, d.dist * d.dir.y), k, Stats(k).hp, Stats(k).hp, Stats(k).speed, 0, d.fireRoll, 0)
  }

  /** The candidate of `slot` when its point fits, and none otherwise. */
  function Placement(trees: seq<Tree>, slot: nat, d: PlacementDraw): seq<Enemy>
  {
    var e := Candidate(slot, d);
    if PositionValidForEnemy(trees, e.pos, Stats(e.kind).radius) then [e] else []
  }

  /** The enemies placed by the first |draws| slots of the initial wave. */
  function Wave(trees: seq<Tree>, draws: seq<PlacementDraw>): seq<Enemy>
  {
    if draws == [] then []
    else Wave(trees, draws[..|draws| - 1]) + Placement(trees, |draws| - 1, draws[|draws| - 1])
  }

  /** An enemy of the initial wave: it fits where it stands, is a tank or a basic
      enemy at its archetype's base stats, without grace, with a fire counter within
      its fire rate. */
  predicate WaveMember(trees: seq<Tree>, e: Enemy)
  {
    PositionValidForEnemy(trees, e.pos, Stats(e.kind).radius) &&
    (e.kind == Tank || e.kind == Basic) &&
    e.hp == e.maxHp == Stats(e.kind).hp && e.speed == Stats(e.kind).speed &&
    e.grace == 0 && 0 <= e.fireCd <= Stats(e.kind).fireRate && e.contactCd == 0
  }

  lemma PlacementShape(trees: seq<Tree>, slot: nat, d: PlacementDraw)
    requires 0 <= d.fireRoll <= Stats(WaveKind(slot)).fireRate
    ensures |Placement(trees, slot, d)| <= 1
    ensures |Placement(trees, slot, d)| == 1 ==>
      Placement(trees, slot, d)[0].kind == WaveKind(slot) && WaveMember(trees, Placement(trees, slot, d)[0])
  {
  }

  /** The wave of one more slot adds that slot's placement at the end. */
  lemma WaveNext(trees: seq<Tree>, draws: seq<PlacementDraw>, slot: nat)
    requires slot < |draws|
    ensures Wave(trees, draws[..slot + 1]) == Wave(trees, draws[..slot]) + Placement(trees, slot, draws[slot])
  {
    assert draws[..slot + 1][..slot] == draws[..slot];
  }

  lemma RollsInRangePrefix(draws: seq<PlacementDraw>, n: nat)
    requires RollsInRange(draws) && n <= |draws|
    ensures RollsInRange(draws[..n])
  {
    forall k | 0 <= k < n ensures 0 <= draws[..n][k].fireRoll <= Stats(WaveKind(k)).fireRate {
      assert draws[..n][k] == draws[k];
    }
  }

  /** At most one enemy per slot, and every placed enemy is a wave member. */
  lemma {:induction false} WaveMembers(trees: seq<Tree>, draws: seq<PlacementDraw>)
    requires RollsInRange(draws)
    ensures |Wave(trees, draws)| <= |draws|
    ensures forall j :: 0 <= j < |Wave(trees, draws)| ==> WaveMember(trees, Wave(trees, draws)[j])
  {
    if draws != [] {
      var n := |draws| - 1;
      RollsInRangePrefix(draws, n);
      WaveMembers(trees, draws[..n]);
      PlacementShape(trees, n, draws[n]);
    }
  }

  /** No basic enemy comes before a tank. */
  lemma {:induction false} WaveTanksFirst(trees: seq<Tree>, draws: seq<PlacementDraw>)
    ensures forall j, j' :: 0 <= j < j' < |Wave(trees, draws)| && Wave(trees, draws)[j].kind == Basic ==>
      Wave(trees, draws)[j'].kind == Basic
  {
    if draws != [] {
      var n := |draws| - 1;
      var w0 := Wave(trees, draws[..n]);
      var pl := Placement(trees, n, draws[n]);
      WaveTanksFirst(trees, draws[..n]);
      assert Wave(trees, draws) == w0 + pl;
      if pl != [] && n < 3 {
        WaveKindsBefore(trees, draws[..n]);
      }
    }
  }

  /** When every drawn point fits, the wave is exactly one enemy per slot, of the
      slot's kind: three tanks then basic enemies. */
  lemma {:induction false} WaveComplete(trees: seq<Tree>, draws: seq<PlacementDraw>)
    requires forall s :: 0 <= s < |draws| ==> |Placement(trees, s, draws[s])| == 1
    ensures |Wave(trees, draws)| == |draws|
    ensures forall j :: 0 <= j < |draws| ==> Wave(trees, draws)[j].kind == WaveKind(j)
  {
    if draws != [] {
      var n := |draws| - 1;
      var init := draws[..n];
      forall s | 0 <= s < |init| ensures |Placement(trees, s, init[s])| == 1 {
        assert init[s] == draws[s];
      }
      WaveComplete(trees, init);
      assert Wave(trees, draws) == Wave(trees, init) + Placement(trees, n, draws[n]);
    }
  }

  /** Placements up to slot n < 3 are all tanks. */
  lemma {:induction false} WaveKindsBefore(trees: seq<Tree>, draws: seq<PlacementDraw>)
    requires |draws| <= 3
    ensures forall j :: 0 <= j < |Wave(trees, draws)| ==> Wave(trees, draws)[j].kind == Tank
  {
    if draws != [] {
      WaveKindsBefore(trees, draws[..|draws| - 1]);
    }
  }
}
