/** The game's entities as values, their constructors, and what one frame does to a single entity.
    All lengths are in tenths of a canvas pixel (`Px` per pixel), so that the boss speed
    `1 + 0.2 * level` and every other distance of the game is an exact integer. */
module Entities {
  import opened Geometry

  const Px := 10

  const PlayerSize := 30 * Px
  const PlayerSpeed := 5 * Px
  const FlashDuration := 60

  const ShotWidth := 4 * Px
  const ShotHeight := 10 * Px
  const ShotSpeed := 10 * Px
  const ShotDamage := 10

  const EnemySize := 30 * Px

  const BossSize := 100 * Px
  const BossShotWidth := 6 * Px
  const BossShotHeight := 12 * Px
  const BossInterval := 60
  const EnragedInterval := 40

  const PowerUpSize := 20 * Px
  const PowerUpSpeed := 2 * Px

  const ParticleLife := 30

  /** The canvas size in whole pixels. */
  datatype Canvas = Canvas(width: int, height: int)

  /** Which of the four directions is held (a/ArrowLeft, d/ArrowRight, w/ArrowUp, s/ArrowDown). */
  datatype Keys = Keys(left: bool, right: bool, up: bool, down: bool)

  datatype Player = Player(x: int, y: int, isFlashing: bool, flashTimer: int)
  {
    function Rect(): Box { Box(x, y, PlayerSize, PlayerSize) }
  }

  /** How a bullet was aimed: the boss's fan shots carry a `vx`/`vy` that nothing reads. */
  datatype Heading = Straight | Fanned(vx: int, vy: int)

  datatype Bullet = Bullet(x: int, y: int, width: int, height: int, speed: int, damage: int,
                           isEnemyBullet: bool, heading: Heading)
  {
    function Rect(): Box { Box(x, y, width, height) }
  }

  datatype Enemy = Enemy(x: int, y: int, speed: int, health: int)
  {
    function Rect(): Box { Box(x, y, EnemySize, EnemySize) }
  }

  datatype Boss = Boss(x: int, y: int, speed: int, health: int, maxHealth: int,
                       phase: int, attackTimer: int, attackInterval: int, bulletPattern: int)
  {
    function Rect(): Box { Box(x, y, BossSize, BossSize) }
  }

  datatype Particle = Particle(x: int, y: int, life: int)

  datatype PowerKind = Health | Weapon

  datatype PowerUp = PowerUp(x: int, y: int, kind: PowerKind)
  {
    function Rect(): Box { Box(x, y, PowerUpSize, PowerUpSize) }
  }

  // ---------------------------------------------------------------- the player

  /** The player of a fresh session: horizontally at the canvas middle, 100 pixels above the bottom. */
  function FreshPlayer(canvas: Canvas): (p: Player)
    ensures 2 * p.x == canvas.width * Px && p.y + 100 * Px == canvas.height * Px
    ensures !p.isFlashing && p.flashTimer == 0
  {
    Player(canvas.width * (Px / 2), (canvas.height - 100) * Px, false, 0)
  }

  /** `Math.max(0, Math.min(hi, v))`. */
  function Clamp(v: int, hi: int): (r: int)
    ensures hi >= 0 ==> 0 <= r <= hi
    ensures 0 <= v <= hi ==> r == v
    ensures v < 0 || hi < 0 ==> r == 0
    ensures 0 <= hi < v ==> r == hi
  {
    var m := if hi < v then hi else v;
    if m < 0 then 0 else m
  }

  predicate Inside(p: Player, canvas: Canvas)
  {
    0 <= p.x <= canvas.width * Px - PlayerSize && 0 <= p.y <= canvas.height * Px - PlayerSize
  }

  /** The movement step: each held key moves the player by its speed, then the position is
      clamped to the canvas. Wherever the player was (the pointer can leave it anywhere), the
      result lies inside a canvas at least as large as the player. From inside, left and up move
      one step towards 0, right and down one step towards the far edge, each stopping at the edge,
      and two opposite keys cancel out. */
  function Steered(p: Player, keys: Keys, canvas: Canvas): (q: Player)
    ensures canvas.width * Px >= PlayerSize && canvas.height * Px >= PlayerSize ==> Inside(q, canvas)
    ensures Inside(p, canvas) ==>
              -PlayerSpeed <= q.x - p.x <= PlayerSpeed && -PlayerSpeed <= q.y - p.y <= PlayerSpeed
    ensures Inside(p, canvas) && keys == Keys(false, false, false, false) ==> q == p
    ensures Inside(p, canvas) && keys.left && !keys.right ==>
              q.x == (if p.x < PlayerSpeed then 0 else p.x - PlayerSpeed)
    ensures Inside(p, canvas) && keys.right && !keys.left ==>
              q.x == (if p.x + PlayerSpeed > canvas.width * Px - PlayerSize then canvas.width * Px - PlayerSize
                      else p.x + PlayerSpeed)
    ensures Inside(p, canvas) && keys.left == keys.right ==> q.x == p.x
    ensures Inside(p, canvas) && keys.up && !keys.down ==>
              q.y == (if p.y < PlayerSpeed then 0 else p.y - PlayerSpeed)
    ensures Inside(p, canvas) && keys.down && !keys.up ==>
              q.y == (if p.y + PlayerSpeed > canvas.height * Px - PlayerSize then canvas.height * Px - PlayerSize
                      else p.y + PlayerSpeed)
    ensures Inside(p, canvas) && keys.up == keys.down ==> q.y == p.y
    ensures q.isFlashing == p.isFlashing && q.flashTimer == p.flashTimer
  {
    var x1 := if keys.left then p.x - PlayerSpeed else p.x;
    var x2 := if keys.right then x1 + PlayerSpeed else x1;
    var y1 := if keys.up then p.y - PlayerSpeed else p.y;
    var y2 := if keys.down then y1 + PlayerSpeed else y1;
    p.(x := Clamp(x2, canvas.width * Px - PlayerSize), y := Clamp(y2, canvas.height * Px - PlayerSize))
  }

  /** The flash-immunity state a session keeps: flashing with 1..60 frames left, or idle at 0. */
  predicate FlashOk(p: Player)
  {
    if p.isFlashing then 1 <= p.flashTimer <= FlashDuration else p.flashTimer == 0
  }

  /** The once-per-frame countdown of flash immunity. */
  function TickFlash(p: Player): (q: Player)
    ensures p.isFlashing ==> q.flashTimer == p.flashTimer - 1 && (q.isFlashing <==> q.flashTimer > 0)
    ensures !p.isFlashing ==> q == p
    ensures q.x == p.x && q.y == p.y
    ensures FlashOk(p) ==> FlashOk(q)
  {
    if p.isFlashing then
      var t := p.flashTimer - 1;
      p.(flashTimer := t, isFlashing := t > 0)
    else p
  }

  /** `j` frames of countdown. */
  function Ticks(p: Player, j: nat): Player
  {
    if j == 0 then p else TickFlash(Ticks(p, j - 1))
  }

  /** A flash that starts with `t` frames left lasts exactly `t` frames: the player is immune for
      the next `t - 1` countdowns and vulnerable again from the `t`-th on, with the timer at 0. */
  lemma {:induction false} FlashLasts(p: Player, j: nat)
    requires p.isFlashing && FlashOk(p)
    ensures Ticks(p, j).isFlashing <==> j < p.flashTimer
    ensures Ticks(p, j).flashTimer == if j < p.flashTimer then p.flashTimer - j else 0
  {
    if j > 0 {
      FlashLasts(p, j - 1);
    }
  }

  // ---------------------------------------------------------------- bullets

  /** `shoot`: a player bullet leaves the middle of the player's top edge. */
  function PlayerShot(p: Player): (b: Bullet)
    ensures !b.isEnemyBullet && b.damage == ShotDamage && b.speed == ShotSpeed
    ensures 2 * b.x == 2 * p.x + PlayerSize && b.y == p.y
  {
    Bullet(p.x + PlayerSize / 2, p.y, ShotWidth, ShotHeight, ShotSpeed, ShotDamage, false, Straight)
  }

  /** Every bullet, the boss's included, moves up by its speed. */
  function MoveBullet(b: Bullet): Bullet { b.(y := b.y - b.speed) }

  /** A bullet is dropped once its top edge is above the canvas; the limit is unused. */
  predicate BulletGone(b: Bullet, limit: int) { b.y < 0 }

  // ---------------------------------------------------------------- enemies

  /** `createEnemy`: the horizontal position and the speed are random draws passed in; the enemy
      starts just above the top edge with health `20 + 5 * level`. */
  function NewEnemy(x: int, speed: int, level: int): (e: Enemy)
    ensures e.y + EnemySize == 0 && e.x == x && e.speed == speed
    ensures e.health == 20 + 5 * level
    ensures level >= 1 ==> e.health >= 25
  {
    Enemy(x, -EnemySize, speed, 20 + level * 5)
  }

  function MoveEnemy(e: Enemy): Enemy { e.(y := e.y + e.speed) }

  /** An enemy is dropped once its top edge is below the canvas bottom `limit`. */
  predicate EnemyGone(e: Enemy, limit: int) { e.y > limit }

  // ---------------------------------------------------------------- the boss

  /** The phase state machine a boss is always in: phase 1 attacking every 60 frames or phase 2
      attacking every 40, with the attack timer below 60. */
  predicate BossOk(b: Boss)
  {
    ((b.phase == 1 && b.attackInterval == BossInterval) ||
     (b.phase == 2 && b.attackInterval == EnragedInterval)) &&
    0 <= b.attackTimer < BossInterval
  }

  /** `createBoss`: centred horizontally, just above the top edge, at full health
      `200 + 50 * level`, speed `1 + 0.2 * level` pixels, in phase 1. */
  function NewBoss(canvas: Canvas, level: int): (b: Boss)
    ensures BossOk(b) && b.phase == 1 && b.attackTimer == 0
    ensures b.health == b.maxHealth == 200 + 50 * level
    ensures 2 * b.x + BossSize == canvas.width * Px && b.y + BossSize == 0
    ensures b.speed * 5 == (5 + level) * Px
  {
    Boss(canvas.width * (Px / 2) - BossSize / 2, -BossSize, Px + 2 * level,
         200 + level * 50, 200 + level * 50, 1, 0, BossInterval, 0)
  }

  /** One boss bullet, fired from the middle of the boss's bottom edge. */
  function BossShot(b: Boss, speed: int, damage: int, heading: Heading): Bullet
  {
    Bullet(b.x + BossSize / 2, b.y + BossSize, BossShotWidth, BossShotHeight, speed, damage, true, heading)
  }

  /** The `i`-th bullet of the phase-2 fan. */
  function FanShot(b: Boss, i: int): Bullet
  {
    BossShot(b, 4 * Px, 15, Fanned((i - 1) * 2 * Px, 4 * Px))
  }

  /** What a boss fires when its timer runs out: all enemy bullets; one straight bullet of
      damage 20 and speed 5 in phase 1, a fan of three of damage 15 with `vx` -2, 0, 2 in phase 2. */
  function Volley(b: Boss): (shots: seq<Bullet>)
    ensures forall s :: s in shots ==> s.isEnemyBullet
    ensures b.phase == 1 ==> |shots| == 1 && shots[0].damage == 20 && shots[0].speed == 5 * Px
    ensures b.phase == 2 ==>
              |shots| == 3 &&
              forall i :: 0 <= i < 3 ==> shots[i].damage == 15 && shots[i].heading == Fanned((i - 1) * 2 * Px, 4 * Px)
    ensures b.phase != 1 && b.phase != 2 ==> shots == []
  {
    if b.phase == 1 then [BossShot(b, 5 * Px, 20, Straight)]
    else if b.phase == 2 then [FanShot(b, 0), FanShot(b, 1), FanShot(b, 2)]
    else []
  }

  /** One frame of a boss: it moves down by its speed and its attack timer counts up; when the
      timer reaches the interval it returns to 0 and the boss fires. The phase state machine is
      kept, and a boss in it fires exactly when its timer runs out. */
  function AdvanceBoss(b: Boss): (r: (Boss, seq<Bullet>))
    ensures r.0.y == b.y + b.speed
    ensures r.0.(y := b.y, attackTimer := b.attackTimer) == b
    ensures BossOk(b) ==> BossOk(r.0) && (|r.1| > 0 <==> b.attackTimer + 1 >= b.attackInterval)
    ensures b.attackTimer + 1 >= b.attackInterval ==> r.0.attackTimer == 0 && r.1 == Volley(r.0)
    ensures b.attackTimer + 1 < b.attackInterval ==> r.0.attackTimer == b.attackTimer + 1 && r.1 == []
  {
    var moved := b.(y := b.y + b.speed, attackTimer := b.attackTimer + 1);
    if moved.attackTimer >= moved.attackInterval then
      var reset := moved.(attackTimer := 0);
      (reset, Volley(reset))
    else (moved, [])
  }

  /** A boss is dropped once its top edge is below the canvas bottom `limit`. */
  predicate BossGone(b: Boss, limit: int) { b.y > limit }

  /** A player bullet's hit on a boss. The only phase change is 1 to 2, on a hit that leaves the
      boss alive at no more than half its maximum health, and it shortens the attack interval
      to 40; a boss in phase 2 stays there. */
  function Struck(b: Boss, damage: int): (r: Boss)
    ensures r.health == b.health - damage
    ensures r.phase != b.phase ==>
              b.phase == 1 && r.phase == 2 && r.health > 0 && 2 * r.health <= r.maxHealth &&
              r.attackInterval == EnragedInterval
    ensures b.phase == 1 && r.health > 0 && 2 * r.health <= b.maxHealth ==> r.phase == 2
    ensures r.phase == b.phase ==> r.attackInterval == b.attackInterval
    ensures r.(health := b.health, phase := b.phase, attackInterval := b.attackInterval) == b
    ensures BossOk(b) ==> BossOk(r)
  {
    var hit := b.(health := b.health - damage);
    if hit.health > 0 && 2 * hit.health <= hit.maxHealth && hit.phase == 1 then
      hit.(phase := 2, attackInterval := EnragedInterval)
    else hit
  }

  // ---------------------------------------------------------------- particles and power-ups

  /** `createParticles`: `count` particles at one point, each with 30 frames to live. */
  function Burst(x: int, y: int, count: nat): (ps: seq<Particle>)
    ensures |ps| == count
    ensures forall p :: p in ps ==> p == Particle(x, y, ParticleLife)
  {
    if count == 0 then [] else Burst(x, y, count - 1) + [Particle(x, y, ParticleLife)]
  }

  function AgeParticle(p: Particle): Particle { p.(life := p.life - 1) }

  /** A particle is dropped when its life is used up; the limit is unused. */
  predicate ParticleGone(p: Particle, limit: int) { p.life <= 0 }

  function MovePowerUp(p: PowerUp): PowerUp { p.(y := p.y + PowerUpSpeed) }

  predicate PowerUpGone(p: PowerUp, limit: int) { p.y > limit }
}
