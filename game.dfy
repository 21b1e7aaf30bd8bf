/** The game as the browser runs it: the session's globals are the fields of one `Game`, every
    pool is a sequence the methods reassign with `push` (`+ [x]`) and `splice` (`Remove`), and
    every `forEach` of the frame is a loop over an index `k` with the number of visits `n` fixed
    before it starts. Each method is proved to change the state exactly as the function of
    `Rules` with the same name describes; what those functions guarantee is proved in
    `ContactFacts` and `Progress`. */
module Arcade {
  import opened Geometry
  import opened Entities
  import opened Pools
  import Rules
  import Progress

  class Game {
    const canvas: Canvas
    var gameRunning: bool
    var gameStarted: bool
    var score: int
    var level: int
    var playerCollisionCount: int
    /** In tenths: 1.0 is 10. */
    var gameSpeed: int
    var player: Player
    var bullets: seq<Bullet>
    var enemies: seq<Enemy>
    var particles: seq<Particle>
    var powerUps: seq<PowerUp>
    var bosses: seq<Boss>

    /** The session as one value. */
    ghost function State(): Rules.World
      reads this
    {
      Rules.World(canvas, gameRunning, gameStarted, score, level, playerCollisionCount, gameSpeed,
                  player, bullets, enemies, particles, powerUps, bosses)
    }

    ghost predicate Valid()
      reads this
    {
      Rules.Inv(State())
    }

    /** The page load: nothing running yet, level 1, game speed 1.0, the player placed. */
    constructor (canvas: Canvas)
      ensures State() == Rules.Initial(canvas) && Valid()
    {
      this.canvas := canvas;
      gameRunning, gameStarted := false, false;
      score, level, playerCollisionCount, gameSpeed := 0, 1, 0, 10;
      player := Player(canvas.width * (Px / 2), (canvas.height - 100) * Px, false, 0);
      bullets, enemies, particles, powerUps, bosses := [], [], [], [], [];
    }

    // -------------------------------------------------------------- session and input

    /** `startGame`: only the first call does anything. */
    method StartGame()
      requires Valid()
      modifies this
      ensures Valid() && State() == Rules.Start(old(State()))
      ensures gameStarted && (!old(gameStarted) ==> gameRunning)
    {
      if !gameStarted {
        gameStarted := true;
        gameRunning := true;
        score := 0;
        level := 1;
        playerCollisionCount := 0;
        gameSpeed := 10;
        bullets, enemies, particles, powerUps, bosses := [], [], [], [], [];
        player := player.(x := canvas.width * (Px / 2), y := (canvas.height - 100) * Px);
        player := player.(isFlashing := false, flashTimer := 0);
      }
      Progress.StartOk(old(State()));
    }

    /** `gameOver`, as far as the state goes. */
    method GameOver()
      modifies this
      ensures State() == Rules.GameOver(old(State()))
      ensures old(Valid()) ==> Valid()
    {
      gameRunning := false;
    }

    method Shoot()
      modifies this
      ensures State() == Rules.Shoot(old(State()))
    {
      var bullet := Bullet(player.x + PlayerSize / 2, player.y, ShotWidth, ShotHeight, ShotSpeed, ShotDamage,
                           false, Straight);
      bullets := bullets + [bullet];
    }

    /** The click handler. */
    method Click()
      requires Valid()
      modifies this
      ensures Valid() && State() == Rules.Click(old(State()))
    {
      if gameRunning {
        Shoot();
      }
    }

    /** The pointer-move handler, given the pointer's position relative to the canvas. */
    method PointerMove(px: int, py: int)
      requires Valid()
      modifies this
      ensures Valid() && State() == Rules.PointerMove(old(State()), px, py)
    {
      if gameRunning {
        player := player.(x := px - PlayerSize / 2);
        player := player.(y := py - PlayerSize / 2);
      }
    }

    // -------------------------------------------------------------- creation

    /** `createParticles`: `count` pushes. */
    method CreateParticles(x: int, y: int, count: nat)
      modifies this
      ensures State() == Rules.AddParticles(old(State()), x, y, count)
    {
      var i := 0;
      while i < count
        invariant i <= count
        invariant State() == Rules.AddParticles(old(State()), x, y, i)
      {
        particles := particles + [Particle(x, y, ParticleLife)];
        i := i + 1;
      }
    }

    /** `createPowerUp`, with the rolled kind passed in. */
    method CreatePowerUp(x: int, y: int, kind: PowerKind)
      modifies this
      ensures State() == Rules.AddPowerUp(old(State()), x, y, kind)
    {
      powerUps := powerUps + [PowerUp(x, y, kind)];
    }

    /** `createEnemy`, with the random position and speed passed in. */
    method CreateEnemy(x: int, speed: int)
      modifies this
      ensures State() == Rules.AddEnemy(old(State()), x, speed)
    {
      enemies := enemies + [Enemy(x, -EnemySize, speed, 20 + level * 5)];
    }

    method CreateBoss()
      modifies this
      ensures State() == Rules.AddBoss(old(State()))
    {
      var health := 200 + level * 50;
      var boss := Boss(canvas.width * (Px / 2) - BossSize / 2, -BossSize, Px + 2 * level,
                       health, health, 1, 0, BossInterval, 0);
      bosses := bosses + [boss];
    }

    // -------------------------------------------------------------- movement

    method MovePlayer(keys: Keys)
      modifies this
      ensures State() == Rules.Steer(old(State()), keys)
    {
      var x, y := player.x, player.y;
      if keys.left { x := x - PlayerSpeed; }
      if keys.right { x := x + PlayerSpeed; }
      if keys.up { y := y - PlayerSpeed; }
      if keys.down { y := y + PlayerSpeed; }
      player := player.(x := Clamp(x, canvas.width * Px - PlayerSize), y := Clamp(y, canvas.height * Px - PlayerSize));
    }

    method CountDownFlash()
      modifies this
      ensures State() == Rules.CountDownFlash(old(State()))
    {
      if player.isFlashing {
        player := player.(flashTimer := player.flashTimer - 1);
        if player.flashTimer <= 0 {
          player := player.(isFlashing := false);
        }
      }
    }

    method MoveBullets()
      modifies this
      ensures State() == Rules.MoveBullets(old(State()))
    {
      var n := |bullets|;
      var k := 0;
      while k < n
        invariant k <= n
        invariant State() == old(State()).(bullets := bullets)
        invariant SweepFrom(bullets, k, n, MoveBullet, BulletGone, canvas.height * Px) ==
                  Sweep(old(bullets), MoveBullet, BulletGone, canvas.height * Px)
      {
        ghost var before := bullets;
        if k < |bullets| {
          var bullet := bullets[k];
          bullet := bullet.(y := bullet.y - bullet.speed);
          assert bullet == MoveBullet(before[k]);
          if bullet.y < 0 {
            bullets := Remove(bullets, k);
          } else {
            bullets := bullets[k := bullet];
          }
        }
        assert SweepFrom(before, k, n, MoveBullet, BulletGone, canvas.height * Px) ==
               SweepFrom(bullets, k + 1, n, MoveBullet, BulletGone, canvas.height * Px);
        k := k + 1;
      }
    }

    method MoveEnemies()
      modifies this
      ensures State() == Rules.MoveEnemies(old(State()))
    {
      var n := |enemies|;
      var k := 0;
      while k < n
        invariant k <= n
        invariant State() == old(State()).(enemies := enemies)
        invariant SweepFrom(enemies, k, n, MoveEnemy, EnemyGone, canvas.height * Px) ==
                  Sweep(old(enemies), MoveEnemy, EnemyGone, canvas.height * Px)
      {
        ghost var before := enemies;
        if k < |enemies| {
          var enemy := enemies[k];
          enemy := enemy.(y := enemy.y + enemy.speed);
          assert enemy == MoveEnemy(before[k]);
          if enemy.y > canvas.height * Px {
            enemies := Remove(enemies, k);
          } else {
            enemies := enemies[k := enemy];
          }
        }
        assert SweepFrom(before, k, n, MoveEnemy, EnemyGone, canvas.height * Px) ==
               SweepFrom(enemies, k + 1, n, MoveEnemy, EnemyGone, canvas.height * Px);
        k := k + 1;
      }
    }

    /** A boss's attack: one straight bullet in phase 1, a fan of three in phase 2. */
    method Fire(boss: Boss)
      modifies this
      ensures State() == old(State()).(bullets := old(bullets) + Volley(boss))
    {
      if boss.phase == 1 {
        bullets := bullets + [Bullet(boss.x + BossSize / 2, boss.y + BossSize, BossShotWidth, BossShotHeight,
                                     5 * Px, 20, true, Straight)];
      } else if boss.phase == 2 {
        for i := 0 to 3
          invariant State() == old(State()).(bullets := old(bullets) + Volley(boss)[..i])
        {
          bullets := bullets + [Bullet(boss.x + BossSize / 2, boss.y + BossSize, BossShotWidth, BossShotHeight,
                                       4 * Px, 15, true, Fanned((i - 1) * 2 * Px, 4 * Px))];
          assert Volley(boss)[..i + 1] == Volley(boss)[..i] + [FanShot(boss, i)];
        }
        assert Volley(boss)[..3] == Volley(boss);
      }
    }

    /** The boss walk's visit to boss `k`: it moves, counts up its attack timer and fires when
        the timer reaches the interval, then leaves if it is below the canvas. */
    method AdvanceBossAt(k: nat)
      requires k < |bosses|
      modifies this
      ensures State() == Rules.AdvanceBossAt(old(State()), k)
    {
      var boss := bosses[k];
      boss := boss.(y := boss.y + boss.speed);
      boss := boss.(attackTimer := boss.attackTimer + 1);
      if boss.attackTimer >= boss.attackInterval {
        boss := boss.(attackTimer := 0);
        Fire(boss);
      }
      if boss.y > canvas.height * Px {
        bosses := Remove(bosses, k);
      } else {
        bosses := bosses[k := boss];
      }
    }

    method AdvanceBosses()
      modifies this
      ensures State() == Rules.AdvanceBosses(old(State()))
    {
      var n := |bosses|;
      var k := 0;
      while k < n
        invariant k <= n
        invariant Rules.AdvanceBossesFrom(State(), k, n) == Rules.AdvanceBosses(old(State()))
      {
        if k < |bosses| {
          ghost var before := State();
          AdvanceBossAt(k);
          assert Rules.AdvanceBossesFrom(before, k, n) == Rules.AdvanceBossesFrom(State(), k + 1, n);
        }
        k := k + 1;
      }
    }

    method AgeParticles()
      modifies this
      ensures State() == Rules.AgeParticles(old(State()))
    {
      var n := |particles|;
      var k := 0;
      while k < n
        invariant k <= n
        invariant State() == old(State()).(particles := particles)
        invariant SweepFrom(particles, k, n, AgeParticle, ParticleGone, canvas.height * Px) ==
                  Sweep(old(particles), AgeParticle, ParticleGone, canvas.height * Px)
      {
        ghost var before := particles;
        if k < |particles| {
          var particle := particles[k];
          particle := particle.(life := particle.life - 1);
          assert particle == AgeParticle(before[k]);
          if particle.life <= 0 {
            particles := Remove(particles, k);
          } else {
            particles := particles[k := particle];
          }
        }
        assert SweepFrom(before, k, n, AgeParticle, ParticleGone, canvas.height * Px) ==
               SweepFrom(particles, k + 1, n, AgeParticle, ParticleGone, canvas.height * Px);
        k := k + 1;
      }
    }

    method MovePowerUps()
      modifies this
      ensures State() == Rules.MovePowerUps(old(State()))
    {
      var n := |powerUps|;
      var k := 0;
      while k < n
        invariant k <= n
        invariant State() == old(State()).(powerUps := powerUps)
        invariant SweepFrom(powerUps, k, n, MovePowerUp, PowerUpGone, canvas.height * Px) ==
                  Sweep(old(powerUps), MovePowerUp, PowerUpGone, canvas.height * Px)
      {
        ghost var before := powerUps;
        if k < |powerUps| {
          var powerUp := powerUps[k];
          powerUp := powerUp.(y := powerUp.y + PowerUpSpeed);
          assert powerUp == MovePowerUp(before[k]);
          if powerUp.y > canvas.height * Px {
            powerUps := Remove(powerUps, k);
          } else {
            powerUps := powerUps[k := powerUp];
          }
        }
        assert SweepFrom(before, k, n, MovePowerUp, PowerUpGone, canvas.height * Px) ==
               SweepFrom(powerUps, k + 1, n, MovePowerUp, PowerUpGone, canvas.height * Px);
        k := k + 1;
      }
    }

    // -------------------------------------------------------------- player bullets

    /** The enemy walk's visit to enemy `k` for the player bullet `bullet` found at
        `bulletIndex`; `drops` are the drop rolls still to come, and `rest` what is left of them. */
    method HitEnemy(bullet: Bullet, bulletIndex: nat, k: nat, drops: seq<Rules.Drop>) returns (rest: seq<Rules.Drop>)
      requires k < |enemies|
      modifies this
      ensures (State(), rest) == Rules.HitEnemy(old(State()), drops, bullet, bulletIndex, k)
    {
      rest := drops;
      var enemy := enemies[k];
      if Colliding(bullet.Rect(), enemy.Rect()) {
        enemy := enemy.(health := enemy.health - bullet.damage);
        bullets := Remove(bullets, bulletIndex);
        if enemy.health <= 0 {
          CreateParticles(enemy.x + EnemySize / 2, enemy.y + EnemySize / 2, 8);
          enemies := Remove(enemies, k);
          score := score + 10;
          var drop := if rest == [] then Rules.NoDrop else rest[0];
          rest := if rest == [] then [] else rest[1..];
          if drop.Dropped? {
            CreatePowerUp(enemy.x + EnemySize / 2, enemy.y + EnemySize / 2, drop.kind);
          }
        } else {
          enemies := enemies[k := enemy];
        }
      }
    }

    /** The enemy walk for the player bullet `bullet` found at `bulletIndex`. */
    method HitEnemies(bullet: Bullet, bulletIndex: nat, drops: seq<Rules.Drop>) returns (rest: seq<Rules.Drop>)
      modifies this
      ensures (State(), rest) == Rules.HitEnemiesFrom(old(State()), drops, bullet, bulletIndex, 0, old(|enemies|))
    {
      rest := drops;
      var n := |enemies|;
      var k := 0;
      while k < n
        invariant k <= n
        invariant Rules.HitEnemiesFrom(State(), rest, bullet, bulletIndex, k, n) ==
                  Rules.HitEnemiesFrom(old(State()), drops, bullet, bulletIndex, 0, n)
      {
        if k < |enemies| {
          rest := HitEnemy(bullet, bulletIndex, k, rest);
        }
        k := k + 1;
      }
    }

    /** The boss walk's visit to boss `k` for the player bullet `bullet` found at `bulletIndex`. */
    method HitBoss(bullet: Bullet, bulletIndex: nat, k: nat)
      requires k < |bosses|
      modifies this
      ensures State() == Rules.HitBoss(old(State()), bullet, bulletIndex, k)
    {
      var boss := bosses[k];
      if Colliding(bullet.Rect(), boss.Rect()) {
        boss := boss.(health := boss.health - bullet.damage);
        bullets := Remove(bullets, bulletIndex);
        if boss.health <= 0 {
          KillBoss(k);
        } else {
          if 2 * boss.health <= boss.maxHealth && boss.phase == 1 {
            boss := boss.(phase := 2, attackInterval := EnragedInterval);
          }
          bosses := bosses[k := boss];
        }
      }
    }

    method KillBoss(k: nat)
      requires k < |bosses|
      modifies this
      ensures State() == Rules.KillBoss(old(State()), k)
    {
      var boss := bosses[k];
      CreateParticles(boss.x + BossSize / 2, boss.y + BossSize / 2, 15);
      bosses := Remove(bosses, k);
      score := score + 100 * level;
      level := level + 1;
      gameSpeed := gameSpeed + 2;
    }

    /** The boss walk for the player bullet `bullet` found at `bulletIndex`. */
    method HitBosses(bullet: Bullet, bulletIndex: nat)
      modifies this
      ensures State() == Rules.HitBossesFrom(old(State()), bullet, bulletIndex, 0, old(|bosses|))
    {
      var n := |bosses|;
      var k := 0;
      while k < n
        invariant k <= n
        invariant Rules.HitBossesFrom(State(), bullet, bulletIndex, k, n) ==
                  Rules.HitBossesFrom(old(State()), bullet, bulletIndex, 0, n)
      {
        if k < |bosses| {
          HitBoss(bullet, bulletIndex, k);
        }
        k := k + 1;
      }
    }

    /** The bullet walk of the frame; returns the drop rolls it did not use. */
    method ResolveShots(drops: seq<Rules.Drop>) returns (rest: seq<Rules.Drop>)
      modifies this
      ensures (State(), rest) == Rules.Shots(old(State()), drops)
    {
      rest := drops;
      var n := |bullets|;
      var i := 0;
      while i < n
        invariant i <= n
        invariant Rules.ShotsFrom(State(), rest, i, n) == Rules.Shots(old(State()), drops)
      {
        if i < |bullets| {
          var bullet := bullets[i];
          if !bullet.isEnemyBullet {
            rest := HitEnemies(bullet, i, rest);
            HitBosses(bullet, i);
          }
        }
        i := i + 1;
      }
    }

    // -------------------------------------------------------------- contact with the player

    /** What each of the three contact checks does on an unflashed contact. */
    method Hurt(amount: int, burst: nat)
      modifies this
      ensures State() == Rules.Hurt(old(State()), amount, burst)
    {
      playerCollisionCount := playerCollisionCount + amount;
      player := player.(isFlashing := true, flashTimer := FlashDuration);
      CreateParticles(player.x + PlayerSize / 2, player.y + PlayerSize / 2, burst);
      if playerCollisionCount >= 3 {
        GameOver();
      }
    }

    method EnemyContacts()
      modifies this
      ensures State() == Rules.EnemyContacts(old(State()))
    {
      var n := |enemies|;
      var k := 0;
      while k < n
        invariant k <= n
        invariant Rules.EnemyContactsFrom(State(), k, n) == Rules.EnemyContacts(old(State()))
      {
        if k < |enemies| && Colliding(enemies[k].Rect(), player.Rect()) && !player.isFlashing {
          Hurt(1, 5);
        }
        k := k + 1;
      }
    }

    method BossContacts()
      modifies this
      ensures State() == Rules.BossContacts(old(State()))
    {
      var n := |bosses|;
      var k := 0;
      while k < n
        invariant k <= n
        invariant Rules.BossContactsFrom(State(), k, n) == Rules.BossContacts(old(State()))
      {
        if k < |bosses| && Colliding(bosses[k].Rect(), player.Rect()) && !player.isFlashing {
          Hurt(2, 8);
        }
        k := k + 1;
      }
    }

    method ShotContacts()
      modifies this
      ensures State() == Rules.ShotContacts(old(State()))
    {
      var n := |bullets|;
      var k := 0;
      while k < n
        invariant k <= n
        invariant Rules.ShotContactsFrom(State(), k, n) == Rules.ShotContacts(old(State()))
      {
        if k < |bullets| && bullets[k].isEnemyBullet && Colliding(bullets[k].Rect(), player.Rect()) &&
           !player.isFlashing {
          bullets := Remove(bullets, k);
          Hurt(1, 5);
        }
        k := k + 1;
      }
    }

    /** Picking up the power-up at `k`. */
    method Collect(k: nat)
      requires k < |powerUps|
      modifies this
      ensures State() == Rules.Collect(old(State()), k)
    {
      var powerUp := powerUps[k];
      match powerUp.kind {
        case Health =>
          playerCollisionCount := if playerCollisionCount - 1 < 0 then 0 else playerCollisionCount - 1;
        case Weapon =>
          score := score + 50;
      }
      powerUps := Remove(powerUps, k);
      ghost var picked := State();
      CreateParticles(powerUp.x + PowerUpSize / 2, powerUp.y + PowerUpSize / 2, 5);
      assert State() == Rules.AddParticles(picked, powerUp.x + PowerUpSize / 2, powerUp.y + PowerUpSize / 2, 5);
    }

    method PickUps()
      modifies this
      ensures State() == Rules.PickUps(old(State()))
    {
      var n := |powerUps|;
      var k := 0;
      while k < n
        invariant k <= n
        invariant Rules.PickUpsFrom(State(), k, n) == Rules.PickUps(old(State()))
      {
        if k < |powerUps| && Colliding(powerUps[k].Rect(), player.Rect()) {
          Collect(k);
        }
        k := k + 1;
      }
    }

    // -------------------------------------------------------------- the frame

    /** `update`: one frame, with the frame's random outcomes in `rolls`. It keeps the session's
        invariant, and what only goes one way (score, level, speed, a stopped game) does so. */
    method Update(keys: Keys, rolls: Rules.Rolls)
      requires Valid()
      modifies this
      ensures Valid() && State() == Rules.Frame(old(State()), keys, rolls)
      ensures Rules.Advances(old(State()), State())
    {
      Progress.FrameOk(State(), keys, rolls);
      if !gameRunning {
        return;
      }
      MovePlayer(keys);
      CountDownFlash();
      MoveBullets();
      MoveEnemies();
      AdvanceBosses();
      AgeParticles();
      MovePowerUps();
      var unused := ResolveShots(rolls.drops);
      EnemyContacts();
      BossContacts();
      ShotContacts();
      PickUps();
      if rolls.spawnEnemy {
        CreateEnemy(rolls.enemyX, rolls.enemySpeed);
      }
      if |bosses| == 0 && rolls.spawnBoss {
        CreateBoss();
      }
    }
  }
}
