# Sentinel Siege — simulation core in Dafny

Sentinel Siege is a top-down arena shooter. The player is a turret inside a square arena of
half-width 1800 that is dotted with trees. It moves, aims, and fires four weapons: normal
shots, a held laser, a three-shot burst, and a growing shockwave ring. It fights five enemy
archetypes:

- a basic enemy;
- a tank;
- a splitter, which leaves three basic enemies when it dies;
- a stationary sniper;
- a kamikaze, which detonates on contact.

This project models the rules of that simulation and proves properties of them. The
rendering is not modelled.

Each layer has its own module:

- `Entities` (`entities.dfy`): the records and constants. This covers the archetype table,
  enemies, player projectiles (shots and rings), enemy shots, weapons, the cooldowns and the
  three game states.
- `Geometry` (`geometry.dfy`):
  - the placement tests for the player, enemies and the gun tip;
  - the line-of-sight test. Trees are the only obstacles. A tree blocks a segment when it
    lies within 20 of the segment's clamped closest point.
- `Movement` (`movement.dfy`): player moves, where each axis is committed separately; gun
  rotation; and the greedy four-direction steering of enemies.
- `EnemyRules` (`enemies.dfy`):
  - the enemy update pass: death and score, splitting, grace, the kamikaze, steering and
    firing;
  - the spawn director: difficulty is score / 30 and the population cap is 8 + 2 ×
    difficulty;
  - the initial wave: three tanks, then four basic enemies.
- `Combat` (`combat.dfy`): the firing gate, the weapon counters, the burst schedule, and
  how the laser picks its target.
- `Projectiles` (`projectiles.dfy`):
  - the player projectile pass, which rebuilds the list by filtering;
  - the enemy shot pass: the line-of-sight test before the move, then the player hit, then
    the arena bounds.
- `Collisions` (`collisions.dfy`): pushing overlapping bodies apart. First the player
  against each enemy, then every pair of enemies.
- `Rules` (`rules.dfy`): the whole game state as a `World` value. The keyboard, mouse and
  idle handlers are transitions between worlds. The state-machine properties and the
  invariant `Valid` are proved here.
- `Simulation` (`game.dfy`): class `Game`. Its fields are the program's global variables,
  and its methods update them in place as the handlers of `Project.py` do. Each method's
  contract is `View() == <transition of Rules>(old(View()), …)`, so every property proved
  in `Rules` also holds of the object.

The model computes no trigonometry or square roots. The `Numerics` value supplies them:

- `heading(angle)` gives (cos, sin) of an angle in degrees;
- `hypot(dx, dy)` stands for `math.hypot`.

`hypot` is used only where the source divides by a distance:

- the enemy's direction to the player, which sets its steering and its shot's velocity;
- the collision push, including its overlap test `0 < d < min`, which is made on that
  same distance.

Every other distance comparison is modelled exactly, as a comparison of squared
distances. This includes the kamikaze's reach and the stop distance of steering.
`EnemyRules.SourceComparisonsAgree` proves that, whenever `hypot` returns the true
distance, these squared comparisons decide exactly what the source's comparisons of
`dist_to_player` decide, including at distance 0, where the source substitutes 0.01.

Random draws are arguments:

- `TickDraws`: the booster candidate, the spawn kind, direction and fire roll, and the split
  jitter;
- `StartDraws`: the trees, the booster candidate, and one placement draw per wave slot.

## Model

| member | source | states |
|---|---|---|
| Entities.Stats | Project.py:64-70 | definition: the archetype table (hp, speed, stop distance, fire rate, shot speed and damage, radius, kamikaze damage); its values enter `EnemyRules.SplitChildren`, `EnemyRules.SpawnAttempt`, `EnemyRules.WaveMembers` and `EnemyRules.Act` |
| Entities.ShotDamage | Project.py:44-46 | definition: a normal shot deals 50 and a burst shot 45; its use is in `Projectiles.BulletStep` |
| Geometry.ClearOfTrees | Project.py:599-601 | true exactly when no tree centre is closer than the clearance |
| Geometry.ClearOfEnemies | Project.py:594-596 | true exactly when the point is outside every enemy body |
| Geometry.PositionValidForPlayer | Project.py:598-602 | valid exactly when the point is 25 inside the walls and at least 40 from every tree centre |
| Geometry.PositionValidForEnemy | Project.py:604-608 | valid exactly when the point is `radius` inside the walls and at least `radius + 15` from every tree |
| Geometry.GunTipValid | Project.py:587-596 | valid exactly when the tip is 5 inside the walls, outside every trunk and outside every enemy body |
| Geometry.SegmentClear | Project.py:111-117 | the segment is clear exactly when no tree occludes it |
| Geometry.LineOfSight | Project.py:105-117 | a zero-length segment and an empty forest always pass; otherwise sight fails exactly when some tree occludes |
| Geometry.ClosestParamIsNearest | Project.py:112-113 | the clamped projection gives the point of the segment nearest to the tree |
| Geometry.OccludesIffTouches | Project.py:112-115 | a tree occludes exactly when some point of the segment is within 20 of it |
| Geometry.LineOfSightMeaning | Project.py:105-117 | sight is blocked exactly when some tree comes within 20 of some point of the segment |
| Geometry.LineOfSightSymmetric | Project.py:105-117 | line of sight does not depend on the direction of the segment |
| Geometry.Inside | Project.py:602 | definition: strictly inside the walls, `margin` away from them; its uses are in `PositionValidForPlayer`, `PositionValidForEnemy` and `GunTipValid` |
| Geometry.TreeTooClose | Project.py:599-601 | definition: a tree centre nearer than the clearance; its meaning is in `ClearOfTrees` |
| Geometry.InsideEnemy | Project.py:593-595 | definition: a point inside an enemy body; its meaning is in `ClearOfEnemies` |
| Geometry.ClosestParam | Project.py:112-113 | definition: the clamped projection parameter; its properties are in `ClosestParamIsNearest` |
| Geometry.Occludes | Project.py:112-115 | definition: the tree is within 20 of the clamped closest point; its properties are in `OccludesIffTouches` and `LineOfSightSymmetric` |
| Movement.MoveTarget | Project.py:623-631 | x is committed when (new x, old y) is valid, then y when (current x, new y) is valid; a valid start stays valid |
| Movement.FirstOpen | Project.py:759-766 | the first candidate direction whose destination is a valid enemy position, all earlier ones being invalid |
| Movement.Steer | Project.py:741-766 | the enemy moves to the first valid of approach, left, right, retreat, and stays only when none is valid |
| Movement.MoveDelta | Project.py:617-620 | definition: 18 along the heading forward, 18 against it backward; its properties are in `MoveTarget` and `Rules.MoveKeepsPositionValid` |
| Movement.TurnedAngle | Project.py:637-640 | definition: left adds 2.5°, right subtracts it; its properties are in `Rules.RotateGunEffect` |
| Movement.GunTip | Project.py:644-646 | definition: the point 55 along the heading from the player; its properties are in `Rules.RotateGunEffect` and `Geometry.GunTipValid` |
| Movement.Candidates | Project.py:747-757 | definition: approach, left perpendicular, right perpendicular, retreat; its properties are in `FirstOpen` and `Steer` |
| Movement.Destination | Project.py:760-761 | definition: one step of `speed` along a direction; its properties are in `FirstOpen` and `Steer` |
| EnemyRules.SplitChildren | Project.py:651-659 | three basic enemies at the parent's position plus jitter, with hp 60 × (1 + 0.1 × difficulty), speed 1.8 × (1 + 0.05 × difficulty), grace 0, fire counter 180 and contact counter 0 |
| EnemyRules.DistanceToPlayer | Project.py:730-732 | the steering distance is always positive (0.01 stands in for 0) |
| EnemyRules.SourceComparisonsAgree | Project.py:730-741 | when `hypot` is the true distance, `Detonates` holds exactly when the kamikaze's `dist_to_player` (0.01 at distance 0) is below its reach, and `Chases` exactly when a moving enemy's `dist_to_player` exceeds its stop distance |
| EnemyRules.Act | Project.py:722-774 | the grace period only counts down; a kamikaze within 60 of the player deals 150 and is marked dead; otherwise the enemy steers. A shot leaves exactly when the counter runs out, the archetype fires and the line from the new position is clear. The shot has the archetype's damage and speed towards the player, and the counter re-arms; otherwise the counter counts down |
| EnemyRules.KamikazeCounterUnfloored | Project.py:769-770 | a kamikaze never fires, and its fire counter keeps going below zero |
| EnemyRules.StepDecreases | Project.py:707-720 | each visit lowers (dead splitters ahead, unvisited indices), so the pass over the growing list ends |
| EnemyRules.StepAccounting | Project.py:707-774 | one visit keeps score minus rewards and length plus removals minus 3 × splits; only a dead enemy is removed; hp never rises |
| EnemyRules.RunPassAccounting | Project.py:704-774 | over the pass, the score gained is the removed enemies' rewards and the length moves by −1 per removal and +3 per split |
| EnemyRules.RunPassPrefixes | Project.py:704-774 | over the pass, removals and enemy shots are only appended, only dead enemies are removed, and hp never rises |
| EnemyRules.UpdateEnemiesAccounting | Project.py:704-774 | score == old score + rewards of the removed; length == old − removed + 3 × splits; the removed were dead; hp never rises; old shots kept |
| EnemyRules.RunPassRemovesOriginals | Project.py:707-720 | every enemy removed in the rest of a pass was dead and present at its start |
| EnemyRules.UpdateEnemiesRemovesOriginals | Project.py:707-720 | children made in a pass are never removed in that pass: every removed enemy was in the list before |
| EnemyRules.AdjacentDeadSkipped | Project.py:707-720 | the slot freed by pop(i) is skipped: of two adjacent dead enemies only the first is removed this update |
| EnemyRules.SpawnAttempt | Project.py:661-686 | an enemy spawns exactly when below the cap 8 + 2d and the drawn point fits (snipers also need sight of the centre), with hp × (1 + 0.15d) and speed × (1 + 0.08d) |
| EnemyRules.PlacementShape | Project.py:693-702 | a wave slot places at most one enemy, of the slot's kind, at base stats, where it fits |
| EnemyRules.WaveMembers | Project.py:688-702 | the wave has at most one enemy per slot, each a tank or a basic enemy at base stats placed where it fits |
| EnemyRules.WaveTanksFirst | Project.py:690-700 | no basic enemy comes before a tank |
| EnemyRules.WaveComplete | Project.py:688-702 | when every draw fits, the wave is exactly one enemy per slot: three tanks, then basic enemies |
| EnemyRules.WaveKindsBefore | Project.py:690-693 | the first three slots place only tanks |
| EnemyRules.Reward | Project.py:709-718 | definition: 30 for a tank, 15 for a splitter, 10 for a kamikaze, 5 otherwise; its properties are in `RunPassAccounting` and `UpdateEnemiesAccounting` |
| EnemyRules.SplitChild | Project.py:652-659 | definition: one basic child of a splitter; its properties are in `SplitChildren` |
| EnemyRules.Toward | Project.py:744-745 | definition: the direction to the player divided by `DistanceToPlayer`; its properties are in `Act` and `Movement.Steer` |
| EnemyRules.Detonates | Project.py:735 | definition: a kamikaze within its reach; its agreement with the source is in `SourceComparisonsAgree`, its effect in `Act` |
| EnemyRules.Chases | Project.py:741 | definition: a moving archetype farther than its stop distance; its agreement with the source is in `SourceComparisonsAgree`, its effect in `Act` |
| EnemyRules.Step | Project.py:707-774 | definition: one visit of the pass; its properties are in `StepAccounting`, `StepDecreases` and `StepKeepsDeadOriginal` |
| EnemyRules.WillSplit | Project.py:712-714 | definition: a dead splitter; its properties are in `StepDecreases` |
| EnemyRules.RunPass | Project.py:704-774 | definition: the pass from index i on; its properties are in `RunPassAccounting`, `RunPassPrefixes`, `RunPassRemovesOriginals` and `AdjacentDeadSkipped` |
| EnemyRules.UpdateEnemies | Project.py:704-774 | definition: the pass from index 0; its properties are in `UpdateEnemiesAccounting` and `UpdateEnemiesRemovesOriginals` |
| EnemyRules.DifficultyFor | Project.py:663 | definition: score // 30; its properties are in `SpawnAttempt` and `Rules.UpdateGameAccounting` |
| EnemyRules.PopulationCap | Project.py:664 | definition: 8 + 2 × difficulty; its properties are in `SpawnAttempt` |
| EnemyRules.SpawnPoint | Project.py:673-675 | definition: the point at GridLength − radius − 100 along the drawn direction; its properties are in `SpawnAttempt` |
| EnemyRules.SpawnPointAccepted | Project.py:677-682 | definition: the body fits, and a sniper sees the centre; its properties are in `SpawnAttempt` |
| EnemyRules.WaveKind | Project.py:690-693 | definition: tanks for slots 0-2, basic enemies after; its properties are in `WaveTanksFirst` and `WaveComplete` |
| EnemyRules.Candidate | Project.py:694-702 | definition: the enemy drawn for a slot at base stats; its properties are in `PlacementShape` |
| EnemyRules.Placement | Project.py:695-702 | definition: the candidate when its point fits; its properties are in `PlacementShape` |
| EnemyRules.Wave | Project.py:688-702 | definition: the placements of all slots in order; its properties are in `WaveMembers`, `WaveTanksFirst` and `WaveComplete` |
| EnemyRules.WaveMember | Project.py:690-702 | definition: a tank or basic enemy at base stats placed where it fits; its properties are in `WaveMembers` |
| Combat.Fire | Project.py:844-852 | normal: one shot and cooldown 10; burst: nothing yet, 3 owed and cooldown 5; shockwave: a ring of radius 0 and cooldown 40 |
| Combat.Tick | Project.py:1058-1068 | the cooldown counts down; a burst shot leaves exactly when one is owed and the cooldown is at most 1, re-arming 5 only if more are owed |
| Combat.TickKeepsValid | Project.py:1058-1068 | a tick keeps the counters in range, with a burst in progress always on cooldown |
| Combat.FireKeepsValid | Project.py:844-852 | a gated press keeps the counters in range |
| Combat.BurstSchedule | Project.py:1058-1068 | shots owed leave at ticks c, c + 5, c + 10, … until none is owed |
| Combat.NothingOwed | Project.py:1063-1068 | with nothing owed, no burst shot ever leaves |
| Combat.BurstPressYieldsThree | Project.py:1058-1068 | one burst press yields min(3, n / 5) shots in n ticks, so 3 from tick 15 on |
| Combat.LaserScan | Project.py:873-882 | the scan's best distance is the range when nothing is hit and the hit enemy's ray distance otherwise |
| Combat.LaserScanClosest | Project.py:873-887 | no hit exactly when no enemy is on the ray (0 < t < 1500 and within its radius); otherwise the hit is on the ray, nearest, and strictly nearer than every earlier enemy on it |
| Combat.ClosestOnRay | Project.py:873-882 | the loop picks the same enemy as the scan's specification |
| Combat.MayShoot | Project.py:835 | definition: playing, off cooldown and not the laser; its properties are in `Rules.FiringGate` |
| Combat.CountersValid | Project.py:1059-1069 | definition: the range of the cooldown and of the burst shots owed; its properties are in `TickKeepsValid` and `FireKeepsValid` |
| Combat.ShotsIn | Project.py:1059-1069 | definition: the burst shots released in n ticks; its properties are in `BurstSchedule` and `BurstPressYieldsThree` |
| Combat.RayParam | Project.py:874-876 | definition: the enemy's distance along the beam; its properties are in `LaserScanClosest` |
| Combat.OnRay | Project.py:878-881 | definition: 0 < t < 1500 and within the enemy's radius of the beam; its properties are in `LaserScanClosest` |
| Projectiles.FirstHit | Project.py:906-911 | the first enemy whose body contains the point, all earlier ones not containing it |
| Projectiles.RingDamage | Project.py:924-926 | every enemy within 20 of the wave front loses 100, and nothing else changes |
| Projectiles.BulletStep | Project.py:893-927 | a shot is kept exactly when it lands inside, with a clear step and no hit; a hit takes the shot's damage off exactly the first enemy containing it, and no other case damages anyone. A ring grows by 20, is kept while below 600, and then hurts the band exactly when its truncated radius is a multiple of 20 |
| Projectiles.SweepBullets | Project.py:889-929 | the loop's kept list and damaged enemies are those of the pass specification |
| Projectiles.BulletsPassSelects | Project.py:889-929 | the kept projectiles are, in order, a selection of the advanced ones; the enemy count never changes |
| Projectiles.RingLifetime | Project.py:916-927 | a ring from radius 0 hurts on every tick, is kept for 29 ticks and is gone at the 30th |
| Projectiles.EnemyShotStep | Project.py:934-948 | a shot survives exactly when its step is clear, it misses the player and it stays inside; it damages exactly when its step is clear, it hits, and its damage is positive |
| Projectiles.SweepEnemyShots | Project.py:931-948 | the loop's kept shots and damage are those of the pass specification |
| Projectiles.EnemyShotsPassBounds | Project.py:931-948 | kept shots are at most as many, inside the arena and outside the player; the damage is at most the shots' total |
| Projectiles.InBand | Project.py:925 | definition: within 20 of the wave front; its properties are in `RingDamage` |
| Projectiles.Truncate | Project.py:923 | definition: Python's int() of a float, truncating toward zero; its properties are in `BulletStep` and `RingLifetime` |
| Projectiles.Advanced | Project.py:896-920 | definition: a shot moved by its velocity, a ring grown by 20; its properties are in `BulletsPassSelects` |
| Projectiles.BulletsPass | Project.py:889-929 | definition: the projectile pass; its properties are in `BulletsPassSelects`, and `SweepBullets` computes it |
| Projectiles.RingAfter | Project.py:919-927 | definition: a ring's radius after n ticks; its properties are in `RingLifetime` |
| Projectiles.EnemyShotsPass | Project.py:931-948 | definition: the enemy shot pass; its properties are in `EnemyShotsPassBounds` and `Rules.EnemyShotsHurt`, and `SweepEnemyShots` computes it |
| Collisions.Separate | Project.py:783-792 | an overlapping pair moves by equal and opposite amounts; a non-overlapping or coincident pair does not move |
| Collisions.SeparateClears | Project.py:783-792 | with the true distance, a push leaves the pair strictly farther apart than the minimum |
| Collisions.PushPair | Project.py:796-810 | enemies i and j take the positions `Separate` gives for their summed radii and their `hypot` distance, every other enemy is untouched, only positions change, and the sum of centres is kept |
| Collisions.PlayerPushesConserve | Project.py:779-792 | the player pass changes only positions and keeps the player's centre plus the enemies' centres |
| Collisions.PairPushesMoveOnly | Project.py:794-810 | the pair pass changes only enemy positions |
| Collisions.PairPushesConserve | Project.py:794-810 | the pair pass keeps the sum of enemy centres |
| Collisions.SeparatePlayer | Project.py:779-792 | the loop over enemies gives the player pass of the specification |
| Collisions.SeparatePairs | Project.py:794-810 | the nested i < j loops give the pair pass of the specification |
| Collisions.PlayerPushes | Project.py:779-792 | definition: the player pass from enemy i on; its properties are in `PlayerPushesConserve`, and `SeparatePlayer` computes it |
| Collisions.PairPushes | Project.py:794-810 | definition: the pair pass from (i, j) on; its properties are in `PairPushesMoveOnly` and `PairPushesConserve`, and `SeparatePairs` computes it |
| Rules.BoosterAfter | Project.py:571-585 | the booster moves to the candidate exactly when it clears every tree by 40, and otherwise stays |
| Rules.SpaceToggles | Project.py:990-994 | space swaps playing and paused, changes nothing else, does nothing when over, and two presses cancel |
| Rules.RestartKey | Project.py:996-1008 | `r` does nothing unless over or paused; then it resets the state, score, difficulty, hp, pose and weapon, empties the projectile lists, takes the new trees, moves the booster as `BoosterAfter` says from where it was, keeps the firing counters and laser flags, and makes the enemies exactly the initial wave: at most seven wave members, tanks first |
| Rules.MovementGated | Project.py:1011-1028 | outside play, keys other than space and `r` only select a weapon |
| Rules.RotateGunEffect | Project.py:633-649 | a rotation adds or subtracts 2.5° exactly when the tip at the new angle is valid, and otherwise changes nothing; nothing but the angle ever changes |
| Rules.MoveKeepsPositionValid | Project.py:610-631 | a move keeps a valid player position valid |
| Rules.FiringGate | Project.py:832-852 | a press fires only while playing, off cooldown and with a weapon other than the laser; firing sets a cooldown and appends at most one projectile |
| Rules.OverIsAbsorbing | Project.py:1052-1055 | a finished game ignores ticks and presses, and only `r` leaves it |
| Rules.DeathTick | Project.py:812-818 | the tick that finds hp ≤ 0 ends the game with hp 0, then enemy shots in that tick take hp below 0 again |
| Rules.UpdateGameAccounting | Project.py:812-830 | the game update never lowers the score, sets the difficulty to its level, never exceeds max hp, and raises hp only through the booster |
| Rules.UpdateGameCounters | Project.py:812-830 | the game update keeps the weapon counters in range |
| Rules.UpdateGameKeepsValid | Project.py:812-830 | the game update keeps the invariant |
| Rules.EnemyShotsHurt | Project.py:939-942 | the enemy shot pass never raises hp |
| Rules.IdleKeepsValid | Project.py:1052-1073 | an idle tick keeps the invariant |
| Rules.KeyboardKeepsValid | Project.py:986-1030 | a key press keeps the invariant |
| Rules.MouseKeepsValid | Project.py:1046-1050 | a mouse event keeps the invariant |
| Rules.Start | Project.py:1123-1125 | the start is playing, at full hp, and satisfies the invariant |
| Rules.Valid | Project.py:812-818 | definition: hp at most the maximum, none left once over, the difficulty the score's level and the counters in range; its preservation is in `KeyboardKeepsValid`, `MouseKeepsValid` and `IdleKeepsValid` |
| Rules.TogglePause | Project.py:990-994 | definition: playing and paused swap; its properties are in `SpaceToggles` |
| Rules.MayRestart | Project.py:996 | definition: over or paused; its properties are in `RestartKey` |
| Rules.Restarted | Project.py:996-1008 | definition: the reset world; its properties are in `RestartKey` |
| Rules.MovePlayer | Project.py:610-631 | definition: a move along the gun's heading; its properties are in `MoveKeepsPositionValid` and `Movement.MoveTarget` |
| Rules.RotateGun | Project.py:633-649 | definition: a turn honoured when the new tip is valid; its properties are in `RotateGunEffect` |
| Rules.WeaponKey | Project.py:1021-1028 | definition: keys 1-4 select a weapon; its properties are in `MovementGated` |
| Rules.PauseStage | Project.py:990-994 | definition: the space stage; its properties are in `SpaceToggles` |
| Rules.RestartStage | Project.py:996-1009 | definition: the restart stage; its properties are in `RestartKey` |
| Rules.MoveStage | Project.py:1011-1019 | definition: the movement stage, only while playing; its properties are in `MovementGated` |
| Rules.WeaponStage | Project.py:1021-1028 | definition: the weapon stage; its properties are in `MovementGated` |
| Rules.Keyboard | Project.py:986-1030 | definition: the four stages in order; its properties are in `SpaceToggles`, `RestartKey`, `MovementGated` and `KeyboardKeepsValid` |
| Rules.Shoot | Project.py:832-852 | definition: a gated press; its properties are in `FiringGate` and `Combat.Fire` |
| Rules.Mouse | Project.py:1046-1050 | definition: the button state, then a press on button down; its properties are in `MouseKeepsValid` and `FiringGate` |
| Rules.LaserArmed | Project.py:860-870 | definition: the beam on at full range with cooldown 1; its properties are in `IdleKeepsValid` |
| Rules.LaserStrike | Project.py:884-887 | definition: 2.5 damage to the scan's hit, which ends the beam; its properties are in `Combat.LaserScanClosest` |
| Rules.FireLaser | Project.py:854-887 | definition: the laser, idle on cooldown; its properties are in `Combat.LaserScanClosest` and `IdleKeepsValid` |
| Rules.TouchesBooster | Project.py:820 | definition: the player overlaps the booster; its effect is in `UpdateGameAccounting` |
| Rules.TakeBooster | Project.py:820-822 | definition: max hp and a moved booster; its properties are in `UpdateGameAccounting` |
| Rules.EnemiesAfter | Project.py:824 | definition: the enemy pass on the world; its properties are in `UpdateGameAccounting` and `EnemyRules.UpdateEnemiesAccounting` |
| Rules.Collide | Project.py:776-810 | definition: the player pass then the pair pass; its properties are in `Collisions.PlayerPushesConserve`, `Collisions.PairPushesMoveOnly` and `Collisions.PairPushesConserve` |
| Rules.SpawnedList | Project.py:686 | definition: the spawned enemy as a list to append; its properties are in `EnemyRules.SpawnAttempt` |
| Rules.Spawn | Project.py:661-686 | definition: the spawn director on the world; its properties are in `EnemyRules.SpawnAttempt` and `UpdateGameAccounting` |
| Rules.LaserIfHeld | Project.py:828-830 | definition: the beam off, then the laser while held; its properties are in `UpdateGameCounters` |
| Rules.UpdateGame | Project.py:812-830 | definition: the game update; its properties are in `DeathTick`, `UpdateGameAccounting`, `UpdateGameCounters` and `UpdateGameKeepsValid` |
| Rules.BulletsUpdated | Project.py:1072 | definition: the projectile pass on the world; its properties are in `Projectiles.BulletsPassSelects` |
| Rules.EnemyShotsUpdated | Project.py:1073 | definition: the enemy shot pass on the world; its properties are in `EnemyShotsHurt` |
| Rules.BurstStep | Project.py:1059-1069 | definition: the counters' tick and its burst shot; its properties are in `Combat.Tick` and `Combat.TickKeepsValid` |
| Rules.Idle | Project.py:1052-1073 | definition: the idle tick; its properties are in `OverIsAbsorbing` and `IdleKeepsValid` |
| Simulation.Game.constructor | Project.py:1123-1125 | the object starts in the start world |
| Simulation.Game.MoveHealthBooster | Project.py:571-585 | the booster moves as `BoosterAfter` says, and nothing else changes |
| Simulation.Game.InitialSpawn | Project.py:688-702 | the enemy list becomes the initial wave, and nothing else changes |
| Simulation.Game.TogglePause | Project.py:990-994 | the state is swapped as in `Rules.TogglePause` |
| Simulation.Game.Restart | Project.py:997-1008 | the object becomes the restarted world |
| Simulation.Game.ResetRound | Project.py:997-1005 | the player, the score and the lists are reset on the new scenery |
| Simulation.Game.ResetPlayer | Project.py:997-1001 | the state, score, hp, difficulty and pose are reset |
| Simulation.Game.ClearArena | Project.py:1002-1005 | the three lists are emptied and the scenery is replaced |
| Simulation.Game.TryMovePlayer | Project.py:610-631 | the player moves as `MoveTarget` says along the gun's heading |
| Simulation.Game.TryRotateGun | Project.py:633-649 | the gun turns by 2.5° exactly when the new tip is valid |
| Simulation.Game.KeyboardListener | Project.py:986-1030 | the object makes the keyboard transition and keeps the invariant |
| Simulation.Game.HandleSpace | Project.py:990-994 | the space stage of the keyboard transition |
| Simulation.Game.HandleRestart | Project.py:996-1009 | the restart stage of the keyboard transition |
| Simulation.Game.HandleMovement | Project.py:1011-1019 | the movement stage, honoured only while playing |
| Simulation.Game.HandleWeaponKeys | Project.py:1021-1028 | the weapon keys, honoured in every state |
| Simulation.Game.ShootWeapon | Project.py:832-852 | the gated press as in `Rules.Shoot` |
| Simulation.Game.MouseListener | Project.py:1046-1050 | the mouse transition, keeping the invariant |
| Simulation.Game.SplitEnemy | Project.py:651-659 | the splitter's three children are appended, and nothing else changes |
| Simulation.Game.UpdateEnemies | Project.py:704-774 | the in-place pass gives the enemies, score, hp and enemy shots of the pass specification |
| Simulation.Game.Visit | Project.py:707-774 | one iteration of the pass is one `Step` |
| Simulation.Game.PopDead | Project.py:708-720 | a dead enemy is scored, split if a splitter, and popped |
| Simulation.Game.TakeTurn | Project.py:722-774 | a living enemy's turn as `Act` says |
| Simulation.Game.ResolveCollisions | Project.py:776-810 | the player pass then the pair pass, as in `Rules.Collide` |
| Simulation.Game.ManageEnemySpawning | Project.py:661-686 | the difficulty is set and the spawn of `SpawnAttempt` is appended |
| Simulation.Game.HandleLaser | Project.py:854-887 | the laser as in `Rules.FireLaser`: nothing while on cooldown, else the beam, cooldown 1, and 2.5 damage to the enemy hit |
| Simulation.Game.ArmLaser | Project.py:860-871 | the beam switched on towards its full range |
| Simulation.Game.StrikeClosest | Project.py:873-887 | the enemy picked by the scan loses 2.5 and becomes the beam's end |
| Simulation.Game.UpdateGame | Project.py:812-830 | the game update transition |
| Simulation.Game.PickUpBooster | Project.py:820-822 | touching the booster restores max hp and moves the booster |
| Simulation.Game.LaserWhileHeld | Project.py:828-830 | the beam is reset, and the laser fires while its button is held |
| Simulation.Game.UpdateBullets | Project.py:889-929 | the projectile list and the enemies become those of the pass specification |
| Simulation.Game.UpdateEnemyBullets | Project.py:931-948 | the enemy shots and hp become those of the pass specification |
| Simulation.Game.Idle | Project.py:1052-1073 | the idle transition: nothing unless playing, else the counters, the game update and both projectile passes; keeps the invariant |

## Left out

- Rendering, the camera, the HUD and the `q` and arrow keys: none of them affect the
  simulation. The booster's and enemies' pulse animation, and every z coordinate, are left
  out for the same reason.
- Trigonometry and square roots: `Numerics` supplies them, and its values are not
  constrained. `SeparateClears` assumes that `hypot` returns the true distance.
- Collisions.Separate: the overlap test `0 < d < min` (Project.py:784 and 802) compares
  the supplied `hypot` value. Its geometric meaning therefore holds only when that value
  is the true distance, which is what `SeparateClears` assumes.
- Floating point: coordinates, hit points and speeds are exact reals, so rounding is not
  modelled. The push in `Collisions.Separate` is written with one division, as
  (a − b) × (overlap × 0.51 / d). In exact arithmetic this equals the source's
  ((a − b) / d) × (overlap × 0.51).
- Random retry loops: `move_health_booster`, `manage_enemy_spawning` and `initial_spawn`
  draw until a draw is accepted. The model takes one draw, supplied by the caller.
  - A rejected booster candidate leaves the booster where it was.
  - A rejected spawn point spawns nothing this tick.
  - A rejected wave slot places no enemy.
- Probabilities: the model does not capture the weights of the spawn kind, the ranges of
  the random angles and distances, or the ±30 range of the split jitter.
- `create_scenery` is not modelled. The trees are supplied by the caller, so its placement
  rules (distance from the centre and from the pond) are not modelled.
- The enemy record's fields 10 and 11: they are always 0 and nothing reads them.
- The contact cooldown, field 9: it is kept as `contactCd`, which only counts down.
  Nothing reads it.
- `enemy_bullets.remove(b)` removes the first element with the same value. The model
  removes the shot just processed. The two agree except when identical shots coexist, and
  even then only the order of the kept shots can differ.
- Simulation.Game methods loop over local copies and write the result back once. Examples:
  `resolve_collisions`, `update_bullets`, `update_enemy_bullets` and `handle_laser` (see
  `SeparatePairs`, `SweepBullets`, `SweepEnemyShots` and `ClosestOnRay`). The source loops
  over the shared lists directly. With no aliasing in the model, the results are the same.
- The weapon cooldown and burst fields are `nat`. The source never drives them below 0.
