# Cyberpunk arcade shooter: the frame simulation in Dafny

This project models the simulation core of a browser arcade shooter (`script.js`). The player
ship moves with four direction keys or the pointer and shoots upward. Enemies and a boss fall
from the top of the canvas. The boss fires at its attack interval and becomes enraged (phase 2)
at or below half health. Power-ups repair the ship or add score. Three collisions end the game.

The model covers these parts of the source:

- `isColliding`;
- the frame step `update`;
- the constructors `shoot`, `createEnemy`, `createBoss`, `createParticles` and `createPowerUp`;
- `startGame`;
- the state change of `gameOver`;
- the pointer-move and click handlers, which change the state directly.

Modules:

| file | module | what it holds |
|---|---|---|
| `geometry.dfy` | `Geometry` | boxes and the overlap test |
| `entities.dfy` | `Entities` | the entity records, their constructors, and one frame of each single entity |
| `pools.dfy` | `Pools` | `splice`, and `forEach` walks that splice inside the callback |
| `rules.dfy` | `Rules` | the whole session as a value `World`, with one function per loop of `update` |
| `contacts.dfy` | `ContactFacts` | what the contact walks and the power-up walk do |
| `progress.dfy` | `Progress` | the session invariant and one-way progression, proved for every walk and for the whole frame |
| `game.dfy` | `Arcade` | class `Game`: the globals as fields and the pools as sequence fields. Its methods run the source's loops and are proved to produce exactly the state that the `Rules` function of the same step describes. |
| `scenarios.dfy` | `Scenarios` | small pools that show how a splice inside `forEach` behaves |

Units: every length and speed is in tenths of a canvas pixel (`Px = 10`). With that unit, the
boss speed `1 + 0.2 * level` and all other distances are exact integers. `gameSpeed` is also kept
in tenths: it starts at 10 and grows by 2 per boss kill. The canvas size is in whole pixels. The
pointer position given to `PointerMove` is in tenths, relative to the canvas.

Randomness comes in as data, in `Rules.Rolls`:

- the enemy spawn roll, with the new enemy's position and speed;
- the boss spawn roll;
- one `Drop` per enemy kill, taken in kill order; a kill after the list runs out drops nothing.

Every `forEach` with a `splice` inside follows section 23.1.3.15 of ECMA-262. The number of
visits is fixed when the walk starts. A visit at an index past the current end does nothing. The
element that slides into a removed element's index is not visited in that walk.

## Model

| member | source | states |
|---|---|---|
| Geometry.Colliding | script.js:186-191 | `isColliding`: strict overlap on all four sides. A collision needs, on each axis, the two sizes to add up to more than 0 |
| Geometry.CollidingSymmetric | script.js:186-191 | the overlap test gives the same answer with its arguments swapped |
| Geometry.TouchingIsNotColliding | script.js:186-191 | boxes that only share an edge do not collide: the test is strict on all four sides |
| Geometry.CollidingIffSharedCell | script.js:186-191 | for boxes of positive size, colliding holds exactly when the boxes share a unit cell (both directions) |
| Entities.FreshPlayer | script.js:25-36 | the starting player has its left edge at the canvas middle, sits 100 pixels above the bottom, and is not flashing with timer 0 |
| Entities.Clamp | script.js:204-205 | `max(0, min(hi, v))`: the result is in `[0, hi]` when `hi >= 0`; it is `v` when `v` is already in range, 0 below the range and `hi` above it |
| Entities.Steered | script.js:197-205 | after the key moves and the clamp, the player is inside any canvas at least as large as the player, wherever the pointer left it. From inside, left and up subtract one step (5 px) and right and down add one, each stopping at the canvas edge. Opposite keys cancel, and no key means no move. Flash state is unchanged. |
| Entities.TickFlash | script.js:208-213 | while flashing, the timer drops by exactly 1 and flashing continues exactly while the timer is positive. Otherwise nothing changes. The flash invariant (1..60 while flashing, 0 otherwise) is kept. |
| Entities.FlashLasts | script.js:208-213 | a flash with `t` frames left lasts exactly `t` countdowns, ending with the timer at 0 |
| Entities.PlayerShot | script.js:107-118 | a shot is a player bullet with damage 10 and speed 10, centred on the player's top edge |
| Entities.NewEnemy | script.js:121-133 | a new enemy starts just above the top edge at the given position and speed, with health exactly `20 + 5 * level` (at least 25 from level 1 on) |
| Entities.NewBoss | script.js:136-152 | a new boss is centred, just above the top edge, at full health `200 + 50 * level`. It has speed `1 + 0.2 * level` and starts in phase 1 with timer 0 and interval 60. |
| Entities.Volley | script.js:239-271 | every boss bullet is an enemy bullet. Phase 1 fires one bullet (damage 20, speed 5). Phase 2 fires three (damage 15, `vx` -2, 0, 2). Any other phase fires nothing. |
| Entities.AdvanceBoss | script.js:233-271 | the boss moves down by its speed and its timer counts up. When the timer reaches the interval it returns to 0 and the boss fires its volley. Phase and interval are kept, and a boss in its phase state machine fires exactly when the timer runs out. |
| Entities.Struck | script.js:323-336 | the hit takes the bullet's damage off the boss. Phase changes only from 1 to 2, exactly on a non-lethal hit that leaves at most half of max health, and the change sets interval 40. Phase 2 is never left. |
| Entities.Burst | script.js:155-169 | a burst holds `count` particles at the given point, each with 30 frames of life |
| Pools.Remove | script.js:219 | `splice(i, 1)` shortens the pool by one and shifts the elements after `i` down; past the end it changes nothing |
| Pools.SweepFrom | script.js:216-229 | the `forEach` walk with a splice inside, from visit `k` of `n` (`Pools.Sweep` is the whole walk): when the pool has at least `k` elements, the first `k`, already visited, are kept as they are |
| Pools.SweepFromShrinks | script.js:216-229 | a moving walk never lengthens its pool |
| Pools.SweepFromRemovesOnlyGone | script.js:216-229 | a walk that shortens its pool has met, at or after its start, at least one element that is gone once moved |
| Pools.SweepFromKeepsOrder | script.js:216-229 | the survivors of a walk keep their relative order, and each is either the element as it was or its moved copy that stayed in bounds. Every element that does not survive was at or after the walk's start and gone once moved: nothing else is spliced. |
| Pools.SweepFromMovesRest | script.js:216-229 | when nobody leaves, the walk from `k` on moves each element in place |
| Pools.SweepMapsAll | script.js:216-229 | when nobody leaves, the walk moves every element exactly once and keeps the order |
| Pools.SweepSkipsFollower | script.js:216-221 | when the first of two elements leaves, the second is not moved or tested in that walk |
| Rules.Initial | script.js:17-43 | the page-load state satisfies the session invariant and is neither started nor running |
| Rules.Start | script.js:76-104 | after a start the game is marked started. A started game is left unchanged. Otherwise the result is the fresh session, running. |
| Rules.Hurt | script.js:342-352 | an unflashed contact adds its amount to the collision count and sets the player flashing for 60 frames. It appends the burst's particles at the player's centre and keeps the existing ones. The game stops exactly when the count reaches 3. Nothing else changes. |
| Rules.Collect | script.js:388-398 | `health` sets the count to `max(0, count - 1)` and leaves the score. `weapon` adds exactly 50 and leaves the count. Either way the power-up is spliced out and 5 particles are appended at its centre after the existing ones, and nothing else changes. |
| Rules.Frame | script.js:194 | a frame of a game that is not running changes nothing |
| ContactFacts.EnemyContactsFromOnce | script.js:341-353 | the enemy-contact walk applies one hurt by 1 (burst 5) if any enemy touches the unflashed player, and otherwise changes nothing. Enemies survive. |
| ContactFacts.BossContactsFromOnce | script.js:356-368 | the boss-contact walk applies one hurt by 2 (burst 8) if any boss touches the unflashed player, and otherwise changes nothing |
| ContactFacts.ShotContactsFromOnce | script.js:371-384 | if an enemy bullet touches the unflashed player, the first such bullet is spliced out and the player is hurt by 1, once. Otherwise nothing changes. |
| ContactFacts.ContactsWhileFlashing | script.js:341-384 | while the player flashes, the contact walks change nothing: not the count, not the timer, not the bullet pool |
| ContactFacts.ContactsAtMostOnce | script.js:341-384 | the three contact walks apply at most one hurt per frame and at most one bullet removal, which is of a touching enemy bullet. Enemies and bosses are kept. |
| ContactFacts.ContactCount | script.js:341-384 | the count rises by 0, 1 or 2. A rise sets a full 60-frame flash, and the game stops exactly when the new count is 3 or more. |
| ContactFacts.PickUpsFromEffects | script.js:387-399 | each pickup removes a power-up, takes off at most one collision and never goes below 0. It scores at most 50 and adds 5 particles. Nothing else changes. |
| Progress.AdvanceBossesFromKeeps | script.js:232-277 | the boss walk adds no boss, keeps every boss in its phase state machine, and changes only bosses and bullets |
| Progress.AdvanceBossesFromFires | script.js:232-277 | the boss walk keeps the bullets there were, and appends only enemy bullets |
| Progress.HitEnemyCounts | script.js:303-317 | one enemy visit kills at most one enemy, for exactly 10 points and 8 particles and at most one power-up |
| Progress.HitEnemyDamage | script.js:303-310 | a bullet that misses enemy `k` changes nothing. A touching bullet is spliced at its index and takes `damage` off the enemy. The enemy is spliced out for 10 points exactly when its health drops to 0 or below, and otherwise stays at `k` with the reduced health. |
| Progress.HitEnemiesFromCounts | script.js:302-318 | a bullet's enemy walk scores exactly 10 per kill and adds 8 particles per kill and at most one power-up per kill. It never adds bullets. |
| Progress.HitEnemiesFromKeeps | script.js:302-318 | a bullet's enemy walk changes only score, enemies, particles, power-ups and bullets |
| Progress.HitBossCounts | script.js:322-336 | one boss visit kills at most one boss. A kill scores `100 * level` at the old level, raises the level by 1 and the speed by 0.2, and bursts 15 particles. |
| Progress.HitBossDamage | script.js:322-336 | a bullet that misses boss `k` changes nothing. A touching bullet is spliced at its index. The struck boss is spliced out exactly when its health drops to 0 or below, and otherwise replaces the boss at `k`. |
| Progress.HitBossesFromCounts | script.js:321-337 | a bullet's boss walk raises level and speed per kill and adds 15 particles per kill. With at most one boss, it scores exactly `100 * level` for the kill. |
| Progress.HitBossesFromKeeps | script.js:321-337 | a bullet's boss walk changes only score, level, game speed, bosses, particles and bullets |
| Progress.HitBossesFromPhases | script.js:321-337 | surviving bosses stay in the phase state machine, and a boss in phase 2 stays in phase 2 |
| Progress.ShotsFromOk | script.js:299-338 | the bullet walk keeps the session invariant and moves progression only forward. It leaves the player, the count and the running flag alone. |
| Progress.MovementOk | script.js:196-295 | the movement steps keep the session invariant and change only the player and the pools |
| Progress.SpawnOk | script.js:402-409 | the spawn gates keep the invariant: a boss is added only when there is none, so there is never more than one |
| Progress.FrameOk | script.js:193-410 | a frame keeps the session invariant: score and count non-negative, level at least 1, a running game has fewer than 3 collisions, a consistent flash timer, at most one boss, in its state machine. Score, level and speed never drop, and a stopped game never restarts. |
| Progress.StartOk | script.js:76-104 | a start keeps the invariant and sets a never-started game running; a second start changes nothing |
| Progress.GameOverAtThree | script.js:341-384 | a frame that ends with 3 or more collisions has stopped the game |
| Arcade.Game.constructor | script.js:17-43 | the page-load state is `Rules.Initial` and satisfies the invariant |
| Arcade.Game.StartGame | script.js:76-104 | the new state is `Rules.Start` of the old one; the invariant is kept |
| Arcade.Game.GameOver | script.js:518-519 | only `gameRunning` is cleared |
| Arcade.Game.Shoot | script.js:107-118 | one player shot is pushed onto the bullet pool |
| Arcade.Game.Click | script.js:69-73 | a click shoots while running and does nothing otherwise; the invariant is kept |
| Arcade.Game.PointerMove | script.js:61-67 | while running, the pointer centres the player on itself, unclamped; the invariant is kept |
| Arcade.Game.CreateParticles | script.js:155-169 | the loop pushes exactly the burst of `count` particles |
| Arcade.Game.CreatePowerUp | script.js:172-183 | one power-up of the rolled kind is pushed |
| Arcade.Game.CreateEnemy | script.js:121-133 | one new enemy is pushed |
| Arcade.Game.CreateBoss | script.js:136-152 | one new boss is pushed |
| Arcade.Game.MovePlayer | script.js:196-205 | the player is moved and clamped as `Entities.Steered` says |
| Arcade.Game.CountDownFlash | script.js:208-213 | the flash timer counts down as `Entities.TickFlash` says |
| Arcade.Game.MoveBullets | script.js:216-221 | the loop equals the `forEach` walk: it moves each visited bullet up and splices out those above the canvas; the follower of a spliced bullet is skipped |
| Arcade.Game.MoveEnemies | script.js:224-229 | the loop equals the `forEach` walk: it moves each visited enemy down and splices out those below the canvas; the follower of a spliced enemy is skipped |
| Arcade.Game.Fire | script.js:239-271 | exactly the boss's volley is appended to the bullet pool |
| Arcade.Game.AdvanceBossAt | script.js:233-276 | one boss visit equals `Rules.AdvanceBossAt` |
| Arcade.Game.AdvanceBosses | script.js:232-277 | the loop equals the boss walk `Rules.AdvanceBosses` |
| Arcade.Game.AgeParticles | script.js:280-287 | the loop equals the `forEach` walk: it ages each visited particle and splices out the dead; the follower of a spliced particle is skipped |
| Arcade.Game.MovePowerUps | script.js:290-295 | the loop equals the `forEach` walk: it moves each visited power-up down and splices out those below the canvas; the follower of a spliced power-up is skipped |
| Arcade.Game.HitEnemy | script.js:303-317 | one enemy visit of a bullet equals `Rules.HitEnemy`, including the drop roll it uses |
| Arcade.Game.HitEnemies | script.js:302-318 | the loop equals a bullet's enemy walk `Rules.HitEnemiesFrom` |
| Arcade.Game.HitBoss | script.js:322-336 | one boss visit of a bullet equals `Rules.HitBoss` |
| Arcade.Game.KillBoss | script.js:326-331 | a boss kill equals `Rules.KillBoss` |
| Arcade.Game.HitBosses | script.js:321-337 | the loop equals a bullet's boss walk `Rules.HitBossesFrom` |
| Arcade.Game.ResolveShots | script.js:299-338 | the loop equals the bullet walk `Rules.Shots`, and returns the drop rolls left over |
| Arcade.Game.Hurt | script.js:342-352 | an unflashed contact changes the state as `Rules.Hurt` says |
| Arcade.Game.EnemyContacts | script.js:341-353 | the loop equals the enemy-contact walk |
| Arcade.Game.BossContacts | script.js:356-368 | the loop equals the boss-contact walk |
| Arcade.Game.ShotContacts | script.js:371-384 | the loop equals the enemy-bullet contact walk |
| Arcade.Game.Collect | script.js:388-398 | one pickup changes the state as `Rules.Collect` says |
| Arcade.Game.PickUps | script.js:387-399 | the loop equals the power-up walk |
| Arcade.Game.Update | script.js:193-410 | the frame produces exactly `Rules.Frame` of the old state. It keeps the session invariant (`Progress.FrameOk`) and progression only moves forward. |
| Scenarios.BulletPiercesEnemies | script.js:302-318 | a bullet over two enemies that survive damages both. The two hits splice the bullet pool twice, so the bullet behind it disappears as well. |
| Scenarios.KillSkipsNextEnemy | script.js:302-318 | after a kill, the next enemy slides into the killed one's index and is not hit by that bullet in this frame |
| Scenarios.GameOverAtTwo | script.js:341-399 | a third collision stops the game, and a health pickup later in the same frame brings the count back to 2 while the game stays stopped |

## Quirks of the code

The model follows the code in each of these cases:

- **A player bullet is not used up by a hit.** The bullet captured by the outer `forEach` keeps
  going after its splice (script.js:299-338). It damages every enemy it overlaps that the enemy
  walk still visits, and then runs the boss loop as well. Each hit splices whatever bullet sits
  at the captured bullet's old index, so a second hit removes a different bullet
  (`Scenarios.BulletPiercesEnemies`).
- **A splice skips the next element.** Every walk with a splice inside skips the element that
  slides into the removed element's index (`Pools.SweepSkipsFollower`,
  `Scenarios.KillSkipsNextEnemy`). In the movement walks, that element is neither moved nor
  removed in that frame.
- **A click does not start the game.** The start screen tells the player to click or press space
  to start (script.js:512). The click handler only shoots while the game runs (script.js:69-73).
  Only the space key calls `startGame` (script.js:49-54).
- **Game over can leave the count at 2.** `gameOver` runs as soon as a contact brings the count to
  3 or more, but the frame goes on. A health pickup later in the same frame takes the count back to
  2, and the game stays stopped (`Scenarios.GameOverAtTwo`). The model proves the direction that
  always holds: a frame that ends with 3 or more collisions has stopped the game.
- **Particle bursts on a player hit have fixed sizes.** A hit from an enemy or an enemy bullet
  bursts 5 particles, and a boss contact bursts 8 (script.js:347, 362, 378).

## Left out

- Rendering: `draw` and every canvas call, `init`, and the background builders.
- Frame scheduling: `gameLoop` and `requestAnimationFrame`. `startGame` runs the first frame
  itself (script.js:102), but `Arcade.Game.StartGame` does not: the driver's first call to
  `Arcade.Game.Update` stands for that frame.
- The page: the DOM text updates, the game-over panel, and the `setTimeout`, `window.close` and
  `alert` chain after game over. Of `gameOver`, only `gameRunning := false` is kept.
- `resizeCanvas`: the canvas size is fixed for a `Game`, so resizing during a session is not modelled.
- The key listeners. The key map is four booleans (`a`/ArrowLeft, `d`/ArrowRight, `w`/ArrowUp,
  `s`/ArrowDown). The space key's call to `startGame` is `Arcade.Game.StartGame` itself.
- Probabilities. The spawn chances `0.02 * gameSpeed` and `0.005 * level`, the 10% drop chance
  and the 50/50 power-up kind are rolls passed in, so the model makes no claim about
  distributions.
- Random ranges. `Arcade.Game.CreateEnemy` takes any position and speed, so it does not state the
  ranges `[0, W - 30)` and `2 + [0, 2 * gameSpeed)`.
- Rounding. Speeds and positions are whole tenths of a pixel, so finer fractions of a random
  speed or position are not modelled.
- Number width. Numbers are unbounded integers; the source's doubles do not overflow at the
  values the game reaches.
- Particles. Their velocity, movement, size, colour and `maxLife` are left out; only their number,
  position at birth and `life` countdown are modelled. All colours and the enemy `type` tag are
  left out too.
- Unused player fields. `player.health` (never read) is left out, and `player.width`/`height`/`speed`
  are the constants `PlayerSize` and `PlayerSpeed`.
- Boss fan-shot fields. The `vx`/`vy` of the fan shots are kept as `Heading.Fanned` but, as in the
  source, nothing reads them.
- Object sharing. The source's objects are shared references. The model's records are values
  written back into their pools, which gives the same result because nothing else holds them
  during a walk.
