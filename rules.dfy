/** The whole game state as one value, and one function per step of the frame. Each pool walk is
    written in the shape of the `forEach` it models: an index `k`, the number of visits `n` fixed
    when the walk starts, and `Remove` where the callback splices. The class `Arcade.Game` runs
    the same walks as loops and is proved to agree with these functions. */
module Rules {
  import opened Geometry
  import opened Entities
  import opened Pools

  /** The outcome of the roll made on each enemy kill: no power-up (90%), or one of a kind. */
  datatype Drop = NoDrop | Dropped(kind: PowerKind)

  /** The `Math.random()` outcomes one frame uses: the drop rolls in kill order (kills past the end
      of the list drop nothing), the enemy spawn roll with the new enemy's position and speed,
      and the boss spawn roll. */
  datatype Rolls = Rolls(drops: seq<Drop>, spawnEnemy: bool, enemyX: int, enemySpeed: int, spawnBoss: bool)

  /** The session: progression counters, the player, and the five pools. `gameSpeed` is in
      tenths (1.0 is 10). */
  datatype World = World(
    canvas: Canvas,
    gameRunning: bool,
    gameStarted: bool,
    score: int,
    level: int,
    playerCollisionCount: int,
    gameSpeed: int,
    player: Player,
    bullets: seq<Bullet>,
    enemies: seq<Enemy>,
    particles: seq<Particle>,
    powerUps: seq<PowerUp>,
    bosses: seq<Boss>)

  /** The canvas bottom, below which falling entities are dropped. */
  function Bottom(w: World): int { w.canvas.height * Px }

  // ---------------------------------------------------------------- invariants

  /** What holds of every session state: non-negative score and collision count, level at least
      1, a running game has fewer than 3 collisions, a consistent flash timer, and at most one
      boss, in its phase state machine. */
  predicate Inv(w: World)
  {
    w.score >= 0 && w.level >= 1 && w.gameSpeed >= 10 && w.playerCollisionCount >= 0 &&
    (w.gameRunning ==> w.gameStarted && w.playerCollisionCount < 3) &&
    FlashOk(w.player) &&
    |w.bosses| <= 1 && (forall b :: b in w.bosses ==> BossOk(b))
  }

  /** What only goes one way: score, level and game speed never drop, a stopped game never
      resumes, and the canvas and the started flag stay as they are. */
  predicate Advances(w: World, r: World)
  {
    r.canvas == w.canvas && r.gameStarted == w.gameStarted && (r.gameRunning ==> w.gameRunning) &&
    r.score >= w.score && r.level >= w.level && r.gameSpeed >= w.gameSpeed
  }

  // ---------------------------------------------------------------- session

  /** The state before the first start: nothing running, level 1, game speed 1.0. */
  function Initial(canvas: Canvas): (w: World)
    ensures Inv(w) && !w.gameStarted && !w.gameRunning
  {
    World(canvas, false, false, 0, 1, 0, 10, FreshPlayer(canvas), [], [], [], [], [])
  }

  /** `startGame`: acts only before the first start; it then resets progression, pools and player
      to a fresh session and sets it running. */
  function Start(w: World): (r: World)
    ensures r.gameStarted
    ensures w.gameStarted ==> r == w
    ensures !w.gameStarted ==> r == Initial(w.canvas).(gameStarted := true, gameRunning := true)
  {
    if w.gameStarted then w
    else
      w.(gameStarted := true, gameRunning := true, score := 0, level := 1,
         playerCollisionCount := 0, gameSpeed := 10,
         bullets := [], enemies := [], particles := [], powerUps := [], bosses := [],
         player := w.player.(x := w.canvas.width * (Px / 2), y := (w.canvas.height - 100) * Px,
                             isFlashing := false, flashTimer := 0))
  }

  /** The state change of `gameOver`. */
  function GameOver(w: World): World { w.(gameRunning := false) }

  /** `shoot`. */
  function Shoot(w: World): World { w.(bullets := w.bullets + [PlayerShot(w.player)]) }

  /** A click shoots while the game runs. */
  function Click(w: World): World { if w.gameRunning then Shoot(w) else w }

  /** A pointer move to (`px`, `py`), relative to the canvas, centres the player on the pointer
      while the game runs; nothing keeps it inside the canvas until the next frame. */
  function PointerMove(w: World, px: int, py: int): World
  {
    if w.gameRunning then w.(player := w.player.(x := px - PlayerSize / 2, y := py - PlayerSize / 2))
    else w
  }

  function AddParticles(w: World, x: int, y: int, count: nat): World
  {
    w.(particles := w.particles + Burst(x, y, count))
  }

  function AddPowerUp(w: World, x: int, y: int, kind: PowerKind): World
  {
    w.(powerUps := w.powerUps + [PowerUp(x, y, kind)])
  }

  function AddEnemy(w: World, x: int, speed: int): World
  {
    w.(enemies := w.enemies + [NewEnemy(x, speed, w.level)])
  }

  function AddBoss(w: World): World
  {
    w.(bosses := w.bosses + [NewBoss(w.canvas, w.level)])
  }

  // ---------------------------------------------------------------- movement

  function Steer(w: World, keys: Keys): World { w.(player := Steered(w.player, keys, w.canvas)) }

  function CountDownFlash(w: World): World { w.(player := TickFlash(w.player)) }

  function MoveBullets(w: World): World
  {
    w.(bullets := Sweep(w.bullets, MoveBullet, BulletGone, Bottom(w)))
  }

  function MoveEnemies(w: World): World
  {
    w.(enemies := Sweep(w.enemies, MoveEnemy, EnemyGone, Bottom(w)))
  }

  /** One visit of the boss walk, at `k < |w.bosses|`: the boss moves and may fire (its bullets
      are appended to the bullet pool even when the boss then leaves), and a boss below the
      canvas is spliced out. */
  function AdvanceBossAt(w: World, k: nat): World
    requires k < |w.bosses|
  {
    var (b, fired) := AdvanceBoss(w.bosses[k]);
    var w1 := w.(bullets := w.bullets + fired);
    if BossGone(b, Bottom(w)) then w1.(bosses := Remove(w1.bosses, k))
    else w1.(bosses := w1.bosses[k := b])
  }

  /** The boss walk. */
  function AdvanceBossesFrom(w: World, k: nat, n: nat): World
    decreases n - k
  {
    if k >= n || k >= |w.bosses| then w
    else AdvanceBossesFrom(AdvanceBossAt(w, k), k + 1, n)
  }

  function AdvanceBosses(w: World): World { AdvanceBossesFrom(w, 0, |w.bosses|) }

  function AgeParticles(w: World): World
  {
    w.(particles := Sweep(w.particles, AgeParticle, ParticleGone, Bottom(w)))
  }

  function MovePowerUps(w: World): World
  {
    w.(powerUps := Sweep(w.powerUps, MovePowerUp, PowerUpGone, Bottom(w)))
  }

  // ---------------------------------------------------------------- player bullets

  /** One visit of the enemy walk made for the player bullet `b`, captured at index `bi` of the
      bullet walk, at enemy `k`. A hit costs the enemy the bullet's damage and splices the
      bullet pool at `bi` (whatever bullet is there by then). A kill bursts 8 particles, splices
      the enemy out, scores 10 and takes one drop roll. */
  function HitEnemy(w: World, drops: seq<Drop>, b: Bullet, bi: nat, k: nat): (World, seq<Drop>)
    requires k < |w.enemies|
  {
    var e := w.enemies[k];
    if !Colliding(b.Rect(), e.Rect()) then (w, drops)
    else
      var hit := e.(health := e.health - b.damage);
      var w1 := w.(bullets := Remove(w.bullets, bi));
      if hit.health <= 0 then
        var cx := hit.x + EnemySize / 2;
        var cy := hit.y + EnemySize / 2;
        var w2 := AddParticles(w1, cx, cy, 8);
        var w3 := w2.(enemies := Remove(w2.enemies, k), score := w2.score + 10);
        var drop := if drops == [] then NoDrop else drops[0];
        var rest := if drops == [] then [] else drops[1..];
        (if drop.Dropped? then AddPowerUp(w3, cx, cy, drop.kind) else w3, rest)
      else (w1.(enemies := w1.enemies[k := hit]), drops)
  }

  /** The enemy walk of `b`: `b` goes on to the next enemies after a hit. */
  function HitEnemiesFrom(w: World, drops: seq<Drop>, b: Bullet, bi: nat, k: nat, n: nat): (World, seq<Drop>)
    decreases n - k
  {
    if k >= n || k >= |w.enemies| then (w, drops)
    else
      var (next, rest) := HitEnemy(w, drops, b, bi, k);
      HitEnemiesFrom(next, rest, b, bi, k + 1, n)
  }

  /** One visit of the boss walk made for the player bullet `b` after its enemy walk, at boss
      `k`. A hit costs the boss the bullet's damage and splices the bullet pool at `bi`; the
      boss is killed (`KillBoss`) or may change phase (`Struck`). */
  function HitBoss(w: World, b: Bullet, bi: nat, k: nat): World
    requires k < |w.bosses|
  {
    var boss := w.bosses[k];
    if !Colliding(b.Rect(), boss.Rect()) then w
    else
      var hit := Struck(boss, b.damage);
      var w1 := w.(bullets := Remove(w.bullets, bi));
      if hit.health <= 0 then KillBoss(w1, k)
      else w1.(bosses := w1.bosses[k := hit])
  }

  /** The boss at `k` is killed: 15 particles burst at its centre, it is spliced out, the kill
      scores `100 * level`, then the level goes up by 1 and the game speed by 0.2. */
  function KillBoss(w: World, k: nat): World
    requires k < |w.bosses|
  {
    var boss := w.bosses[k];
    var w1 := AddParticles(w, boss.x + BossSize / 2, boss.y + BossSize / 2, 15);
    w1.(bosses := Remove(w1.bosses, k), score := w1.score + 100 * w1.level,
        level := w1.level + 1, gameSpeed := w1.gameSpeed + 2)
  }

  /** The boss walk of `b`. */
  function HitBossesFrom(w: World, b: Bullet, bi: nat, k: nat, n: nat): World
    decreases n - k
  {
    if k >= n || k >= |w.bosses| then w
    else HitBossesFrom(HitBoss(w, b, bi, k), b, bi, k + 1, n)
  }

  /** The bullet walk: every player bullet still at its index runs the enemy walk, then the boss
      walk; enemy bullets are passed over. Returns the drop rolls not used. */
  function ShotsFrom(w: World, drops: seq<Drop>, i: nat, n: nat): (World, seq<Drop>)
    decreases n - i
  {
    if i >= n || i >= |w.bullets| then (w, drops)
    else
      var b := w.bullets[i];
      if b.isEnemyBullet then ShotsFrom(w, drops, i + 1, n)
      else
        var (w1, rest) := HitEnemiesFrom(w, drops, b, i, 0, |w.enemies|);
        var w2 := HitBossesFrom(w1, b, i, 0, |w1.bosses|);
        ShotsFrom(w2, rest, i + 1, n)
  }

  function Shots(w: World, drops: seq<Drop>): (World, seq<Drop>) { ShotsFrom(w, drops, 0, |w.bullets|) }

  // ---------------------------------------------------------------- contact with the player

  /** An unflashed contact: the collision count goes up by `amount`, the player flashes for 60
      frames, `burst` particles appear at the player's centre, and the game ends when the count
      reaches 3. Nothing else changes. */
  function Hurt(w: World, amount: int, burst: nat): (r: World)
    ensures r.playerCollisionCount == w.playerCollisionCount + amount
    ensures r.player == w.player.(isFlashing := true, flashTimer := FlashDuration)
    ensures r.particles == w.particles + Burst(w.player.x + PlayerSize / 2, w.player.y + PlayerSize / 2, burst)
    ensures |r.particles| == |w.particles| + burst
    ensures r.gameRunning == (w.gameRunning && w.playerCollisionCount + amount < 3)
    ensures r.(playerCollisionCount := w.playerCollisionCount, player := w.player,
               particles := w.particles, gameRunning := w.gameRunning) == w
  {
    var p := w.player;
    var w1 := w.(playerCollisionCount := w.playerCollisionCount + amount,
                 player := p.(isFlashing := true, flashTimer := FlashDuration));
    var w2 := AddParticles(w1, p.x + PlayerSize / 2, p.y + PlayerSize / 2, burst);
    if w2.playerCollisionCount >= 3 then GameOver(w2) else w2
  }

  /** The enemy-contact walk: an enemy touching an unflashed player hurts it by 1 and survives. */
  function EnemyContactsFrom(w: World, k: nat, n: nat): World
    decreases n - k
  {
    if k >= n || k >= |w.enemies| then w
    else if Colliding(w.enemies[k].Rect(), w.player.Rect()) && !w.player.isFlashing then
      EnemyContactsFrom(Hurt(w, 1, 5), k + 1, n)
    else EnemyContactsFrom(w, k + 1, n)
  }

  function EnemyContacts(w: World): World { EnemyContactsFrom(w, 0, |w.enemies|) }

  /** The boss-contact walk: a boss touching an unflashed player hurts it by 2 and survives. */
  function BossContactsFrom(w: World, k: nat, n: nat): World
    decreases n - k
  {
    if k >= n || k >= |w.bosses| then w
    else if Colliding(w.bosses[k].Rect(), w.player.Rect()) && !w.player.isFlashing then
      BossContactsFrom(Hurt(w, 2, 8), k + 1, n)
    else BossContactsFrom(w, k + 1, n)
  }

  function BossContacts(w: World): World { BossContactsFrom(w, 0, |w.bosses|) }

  /** The bullet at `k` is an enemy bullet touching the player. */
  predicate ShotTouches(w: World, k: nat)
  {
    k < |w.bullets| && w.bullets[k].isEnemyBullet && Colliding(w.bullets[k].Rect(), w.player.Rect())
  }

  /** The enemy-bullet walk: an enemy bullet touching an unflashed player hurts it by 1 and is
      spliced out. */
  function ShotContactsFrom(w: World, k: nat, n: nat): World
    decreases n - k
  {
    if k >= n || k >= |w.bullets| then w
    else if ShotTouches(w, k) && !w.player.isFlashing then
      ShotContactsFrom(Hurt(w, 1, 5).(bullets := Remove(w.bullets, k)), k + 1, n)
    else ShotContactsFrom(w, k + 1, n)
  }

  function ShotContacts(w: World): World { ShotContactsFrom(w, 0, |w.bullets|) }

  /** Picking up the power-up at `k`, whatever the flash state: `health` takes one collision off
      (never below 0), `weapon` scores 50; the power-up is spliced out in a burst of 5. */
  function Collect(w: World, k: nat): (r: World)
    requires k < |w.powerUps|
    ensures w.powerUps[k].kind == Health ==>
              r.playerCollisionCount == (if w.playerCollisionCount >= 1 then w.playerCollisionCount - 1 else 0) &&
              r.score == w.score
    ensures w.powerUps[k].kind == Weapon ==>
              r.score == w.score + 50 && r.playerCollisionCount == w.playerCollisionCount
    ensures r.powerUps == Remove(w.powerUps, k) && |r.particles| == |w.particles| + 5
    ensures var p := w.powerUps[k];
            r.particles == w.particles + Burst(p.x + PowerUpSize / 2, p.y + PowerUpSize / 2, 5)
    ensures r.(playerCollisionCount := w.playerCollisionCount, score := w.score,
               powerUps := w.powerUps, particles := w.particles) == w
  {
    var p := w.powerUps[k];
    var w1 := match p.kind
      case Health =>
        w.(playerCollisionCount := if w.playerCollisionCount - 1 < 0 then 0 else w.playerCollisionCount - 1)
      case Weapon => w.(score := w.score + 50);
    AddParticles(w1.(powerUps := Remove(w1.powerUps, k)), p.x + PowerUpSize / 2, p.y + PowerUpSize / 2, 5)
  }

  /** The power-up walk. */
  function PickUpsFrom(w: World, k: nat, n: nat): World
    decreases n - k
  {
    if k >= n || k >= |w.powerUps| then w
    else if Colliding(w.powerUps[k].Rect(), w.player.Rect()) then PickUpsFrom(Collect(w, k), k + 1, n)
    else PickUpsFrom(w, k + 1, n)
  }

  function PickUps(w: World): World { PickUpsFrom(w, 0, |w.powerUps|) }

  // ---------------------------------------------------------------- spawning and the frame

  /** The spawn gates: an enemy on its roll; a boss on its roll, only while no boss is alive. */
  function Spawn(w: World, rolls: Rolls): World
  {
    var w1 := if rolls.spawnEnemy then AddEnemy(w, rolls.enemyX, rolls.enemySpeed) else w;
    if |w1.bosses| == 0 && rolls.spawnBoss then AddBoss(w1) else w1
  }

  /** The contact walks, in their order in the frame. */
  function Contacts(w: World): World { ShotContacts(BossContacts(EnemyContacts(w))) }

  /** `update`: nothing while the game is not running; otherwise the steps in the source's order. */
  function Frame(w: World, keys: Keys, rolls: Rolls): (r: World)
    ensures !w.gameRunning ==> r == w
  {
    if !w.gameRunning then w
    else
      var w1 := CountDownFlash(Steer(w, keys));
      var w2 := MovePowerUps(AgeParticles(AdvanceBosses(MoveEnemies(MoveBullets(w1)))));
      var w3 := Shots(w2, rolls.drops).0;
      var w4 := PickUps(Contacts(w3));
      Spawn(w4, rolls)
  }
}
