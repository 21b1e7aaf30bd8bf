/** The frame keeps the session invariant, and progression only goes forward: what each pool walk
    of the frame contributes, then the whole frame and the session transitions. */
module Progress {
  import opened Geometry
  import opened Entities
  import opened Pools
  import opened Rules
  import opened ContactFacts

  lemma UpdateKeepsBosses(s: seq<Boss>, k: nat, b: Boss)
    requires k < |s| && BossOk(b) && forall x :: x in s ==> BossOk(x)
    ensures forall x :: x in s[k := b] ==> BossOk(x)
  {
    forall x | x in s[k := b] ensures BossOk(x) {
      var j :| 0 <= j < |s[k := b]| && s[k := b][j] == x;
      if j != k { assert x == s[j]; }
    }
  }

  /** `r` is `s` with enemy bullets appended. */
  predicate EnemyFireAppended(s: seq<Bullet>, r: seq<Bullet>)
  {
    |s| <= |r| && r[..|s|] == s && forall j :: |s| <= j < |r| ==> r[j].isEnemyBullet
  }

  lemma EnemyFireAppendedTrans(s: seq<Bullet>, t: seq<Bullet>, r: seq<Bullet>)
    requires EnemyFireAppended(s, t) && EnemyFireAppended(t, r)
    ensures EnemyFireAppended(s, r)
  {
    assert r[..|s|] == r[..|t|][..|s|];
  }

  /** The boss walk never adds a boss, keeps every boss in its phase state machine, and changes
      nothing but the bosses and the bullets. */
  lemma {:induction false} AdvanceBossesFromKeeps(w: World, k: nat, n: nat)
    ensures var r := AdvanceBossesFrom(w, k, n);
            |r.bosses| <= |w.bosses| &&
            ((forall x :: x in w.bosses ==> BossOk(x)) ==> forall x :: x in r.bosses ==> BossOk(x)) &&
            r.(bosses := w.bosses, bullets := w.bullets) == w
    decreases n - k
  {
    if k < n && k < |w.bosses| {
      var (b, fired) := AdvanceBoss(w.bosses[k]);
      var w1 := w.(bullets := w.bullets + fired);
      var next := if BossGone(b, Bottom(w)) then w1.(bosses := Remove(w1.bosses, k)) else w1.(bosses := w1.bosses[k := b]);
      assert AdvanceBossesFrom(w, k, n) == AdvanceBossesFrom(next, k + 1, n);
      AdvanceBossesFromKeeps(next, k + 1, n);
      if forall x :: x in w.bosses ==> BossOk(x) {
        assert BossOk(w.bosses[k]);
        if !BossGone(b, Bottom(w)) { UpdateKeepsBosses(w.bosses, k, b); }
      }
    }
  }

  /** The boss walk keeps the bullets there were, and every bullet it adds is an enemy bullet. */
  lemma {:induction false} AdvanceBossesFromFires(w: World, k: nat, n: nat)
    ensures EnemyFireAppended(w.bullets, AdvanceBossesFrom(w, k, n).bullets)
    decreases n - k
  {
    if k < n && k < |w.bosses| {
      var (b, fired) := AdvanceBoss(w.bosses[k]);
      var w1 := w.(bullets := w.bullets + fired);
      var next := if BossGone(b, Bottom(w)) then w1.(bosses := Remove(w1.bosses, k)) else w1.(bosses := w1.bosses[k := b]);
      assert AdvanceBossesFrom(w, k, n) == AdvanceBossesFrom(next, k + 1, n);
      AdvanceBossesFromFires(next, k + 1, n);
      assert EnemyFireAppended(w.bullets, next.bullets) by {
        assert next.bullets[..|w.bullets|] == w.bullets;
        forall j | |w.bullets| <= j < |next.bullets| ensures next.bullets[j].isEnemyBullet {
          assert next.bullets[j] == fired[j - |w.bullets|];
          assert fired[j - |w.bullets|] in fired;
        }
      }
      EnemyFireAppendedTrans(w.bullets, next.bullets, AdvanceBossesFrom(next, k + 1, n).bullets);
    }
  }

  /** One visit of the enemy walk kills at most one enemy, for 10 points, 8 particles and at
      most one power-up. */
  lemma HitEnemyCounts(w: World, drops: seq<Drop>, b: Bullet, bi: nat, k: nat)
    requires k < |w.enemies|
    ensures var r := HitEnemy(w, drops, b, bi, k).0;
            var kills := |w.enemies| - |r.enemies|;
            0 <= kills <= 1 &&
            r.score == w.score + 10 * kills &&
            |r.particles| == |w.particles| + 8 * kills &&
            |w.powerUps| <= |r.powerUps| <= |w.powerUps| + kills &&
            |r.bullets| <= |w.bullets|
  {
  }

  /** One visit of the enemy walk, by its damage: a bullet that does not touch enemy `k` changes
      nothing; one that does is spliced at `bi` and takes its damage off the enemy, which is spliced
      out for 10 points exactly when its health drops to 0 or below, and otherwise stays at `k`
      with the reduced health. */
  lemma HitEnemyDamage(w: World, drops: seq<Drop>, b: Bullet, bi: nat, k: nat)
    requires k < |w.enemies|
    ensures var e := w.enemies[k];
            var r := HitEnemy(w, drops, b, bi, k).0;
            (!Colliding(b.Rect(), e.Rect()) ==> HitEnemy(w, drops, b, bi, k) == (w, drops)) &&
            (Colliding(b.Rect(), e.Rect()) ==>
               r.bullets == Remove(w.bullets, bi) &&
               (e.health - b.damage <= 0 ==> r.enemies == Remove(w.enemies, k) && r.score == w.score + 10) &&
               (e.health - b.damage > 0 ==>
                  r.enemies == w.enemies[k := e.(health := e.health - b.damage)] && r.score == w.score))
  {
  }

  /** The enemy walk of one player bullet, counted by the enemies it kills: 10 points and 8
      particles per kill, at most one power-up per kill, and no new bullet. */
  lemma {:induction false} HitEnemiesFromCounts(w: World, drops: seq<Drop>, b: Bullet, bi: nat, k: nat, n: nat)
    ensures var r := HitEnemiesFrom(w, drops, b, bi, k, n).0;
            var kills := |w.enemies| - |r.enemies|;
            kills >= 0 &&
            r.score == w.score + 10 * kills &&
            |r.particles| == |w.particles| + 8 * kills &&
            |w.powerUps| <= |r.powerUps| <= |w.powerUps| + kills &&
            |r.bullets| <= |w.bullets|
    decreases n - k
  {
    if k < n && k < |w.enemies| {
      var (next, rest) := HitEnemy(w, drops, b, bi, k);
      HitEnemyCounts(w, drops, b, bi, k);
      HitEnemiesFromCounts(next, rest, b, bi, k + 1, n);
    }
  }

  /** The enemy walk of one player bullet changes nothing but score, enemies, particles,
      power-ups and bullets. */
  lemma {:induction false} HitEnemiesFromKeeps(w: World, drops: seq<Drop>, b: Bullet, bi: nat, k: nat, n: nat)
    ensures HitEnemiesFrom(w, drops, b, bi, k, n).0.(score := w.score, enemies := w.enemies,
              particles := w.particles, powerUps := w.powerUps, bullets := w.bullets) == w
    decreases n - k
  {
    if k < n && k < |w.enemies| {
      var (next, rest) := HitEnemy(w, drops, b, bi, k);
      HitEnemiesFromKeeps(next, rest, b, bi, k + 1, n);
    }
  }

  /** One visit of the boss walk kills at most one boss; a kill raises the level by 1 and the
      game speed by 0.2, bursts 15 particles and scores `100 * level`. */
  lemma HitBossCounts(w: World, b: Bullet, bi: nat, k: nat)
    requires k < |w.bosses|
    ensures var r := HitBoss(w, b, bi, k);
            var kills := |w.bosses| - |r.bosses|;
            0 <= kills <= 1 &&
            r.level == w.level + kills && r.gameSpeed == w.gameSpeed + 2 * kills &&
            |r.particles| == |w.particles| + 15 * kills &&
            r.score == w.score + (if kills == 0 then 0 else 100 * w.level) &&
            |r.bullets| <= |w.bullets|
  {
  }

  /** One visit of the boss walk, by its damage: a bullet that does not touch boss `k` changes
      nothing; one that does is spliced at `bi`, and the struck boss is spliced out exactly when its
      health drops to 0 or below, and otherwise replaces the boss at `k`. */
  lemma HitBossDamage(w: World, b: Bullet, bi: nat, k: nat)
    requires k < |w.bosses|
    ensures var boss := w.bosses[k];
            var hit := Struck(boss, b.damage);
            var r := HitBoss(w, b, bi, k);
            (!Colliding(b.Rect(), boss.Rect()) ==> r == w) &&
            (Colliding(b.Rect(), boss.Rect()) ==>
               r.bullets == Remove(w.bullets, bi) &&
               (hit.health <= 0 ==> r.bosses == Remove(w.bosses, k)) &&
               (hit.health > 0 ==> r.bosses == w.bosses[k := hit]))
  {
  }

  /** The boss walk of one player bullet, counted by the bosses it kills: each kill raises the
      level by 1 and the game speed by 0.2 and bursts 15 particles; with at most one boss, a kill
      scores exactly `100 * level` at the level before the kill. */
  lemma {:induction false} HitBossesFromCounts(w: World, b: Bullet, bi: nat, k: nat, n: nat)
    ensures var r := HitBossesFrom(w, b, bi, k, n);
            var kills := |w.bosses| - |r.bosses|;
            kills >= 0 &&
            r.level == w.level + kills && r.gameSpeed == w.gameSpeed + 2 * kills &&
            |r.particles| == |w.particles| + 15 * kills &&
            (w.level >= 0 ==> r.score >= w.score) &&
            (|w.bosses| <= 1 ==> r.score == w.score + (if kills == 0 then 0 else 100 * w.level)) &&
            |r.bullets| <= |w.bullets|
    decreases n - k
  {
    if k < n && k < |w.bosses| {
      var next := HitBoss(w, b, bi, k);
      HitBossCounts(w, b, bi, k);
      HitBossesFromCounts(next, b, bi, k + 1, n);
    }
  }

  /** The boss walk of one player bullet changes nothing but score, level, game speed, bosses,
      particles and bullets. */
  lemma {:induction false} HitBossesFromKeeps(w: World, b: Bullet, bi: nat, k: nat, n: nat)
    ensures HitBossesFrom(w, b, bi, k, n).(score := w.score, level := w.level, gameSpeed := w.gameSpeed,
              bosses := w.bosses, particles := w.particles, bullets := w.bullets) == w
    decreases n - k
  {
    if k < n && k < |w.bosses| {
      HitBossesFromKeeps(HitBoss(w, b, bi, k), b, bi, k + 1, n);
    }
  }

  /** Bosses that survive the boss walk stay in their phase state machine, and a boss in phase 2
      stays in phase 2. */
  lemma {:induction false} HitBossesFromPhases(w: World, b: Bullet, bi: nat, k: nat, n: nat)
    ensures var r := HitBossesFrom(w, b, bi, k, n);
            ((forall x :: x in w.bosses ==> BossOk(x)) ==> forall x :: x in r.bosses ==> BossOk(x)) &&
            ((forall x :: x in w.bosses ==> x.phase == 2) ==> forall x :: x in r.bosses ==> x.phase == 2)
    decreases n - k
  {
    if k < n && k < |w.bosses| {
      var next := HitBoss(w, b, bi, k);
      HitBossesFromPhases(next, b, bi, k + 1, n);
      var boss := w.bosses[k];
      var hit := Struck(boss, b.damage);
      if Colliding(b.Rect(), boss.Rect()) && hit.health > 0 {
        assert next.bosses == w.bosses[k := hit];
        if forall x :: x in w.bosses ==> BossOk(x) {
          UpdateKeepsBosses(w.bosses, k, hit);
        }
        if forall x :: x in w.bosses ==> x.phase == 2 {
          assert boss.phase == 2;
          forall x | x in next.bosses ensures x.phase == 2 {
            var j :| 0 <= j < |next.bosses| && next.bosses[j] == x;
            if j != k { assert x == w.bosses[j]; }
          }
        }
      }
    }
  }

  /** The bullet walk keeps the session invariant and only moves progression forward; it does
      not touch the player, the collision count or the running flag. */
  lemma {:induction false} ShotsFromOk(w: World, drops: seq<Drop>, i: nat, n: nat)
    requires Inv(w)
    ensures var r := ShotsFrom(w, drops, i, n).0;
            Inv(r) && Advances(w, r) &&
            r.player == w.player && r.playerCollisionCount == w.playerCollisionCount &&
            r.gameRunning == w.gameRunning
    decreases n - i
  {
    if i < n && i < |w.bullets| {
      var b := w.bullets[i];
      if b.isEnemyBullet {
        ShotsFromOk(w, drops, i + 1, n);
      } else {
        var (w1, rest) := HitEnemiesFrom(w, drops, b, i, 0, |w.enemies|);
        HitEnemiesFromCounts(w, drops, b, i, 0, |w.enemies|);
        HitEnemiesFromKeeps(w, drops, b, i, 0, |w.enemies|);
        var w2 := HitBossesFrom(w1, b, i, 0, |w1.bosses|);
        HitBossesFromCounts(w1, b, i, 0, |w1.bosses|);
        HitBossesFromKeeps(w1, b, i, 0, |w1.bosses|);
        HitBossesFromPhases(w1, b, i, 0, |w1.bosses|);
        assert Inv(w2) && Advances(w, w2);
        ShotsFromOk(w2, rest, i + 1, n);
      }
    }
  }

  /** The movement walks keep the invariant; only the boss walk needs an argument. */
  lemma MovementOk(w: World, keys: Keys)
    requires Inv(w) && w.gameRunning
    ensures var r := MovePowerUps(AgeParticles(AdvanceBosses(MoveEnemies(MoveBullets(CountDownFlash(Steer(w, keys)))))));
            Inv(r) && r.(player := w.player, bullets := w.bullets, enemies := w.enemies, bosses := w.bosses,
                         particles := w.particles, powerUps := w.powerUps) == w
  {
    var w1 := MoveEnemies(MoveBullets(CountDownFlash(Steer(w, keys))));
    assert Inv(w1);
    AdvanceBossesFromKeeps(w1, 0, |w1.bosses|);
  }

  /** The spawn gates add at most one enemy and at most one boss, a boss only when there is none,
      so there is never more than one boss. */
  lemma SpawnOk(w: World, rolls: Rolls)
    requires Inv(w)
    ensures Inv(Spawn(w, rolls)) && Advances(w, Spawn(w, rolls))
    ensures |Spawn(w, rolls).bosses| <= 1
  {
  }

  /** The frame keeps the session invariant (at most one boss, a running game has fewer than 3
      collisions, flash timer and boss phases consistent) and moves progression only forward:
      score, level and game speed never drop and a stopped game stays stopped. */
  lemma FrameOk(w: World, keys: Keys, rolls: Rolls)
    requires Inv(w)
    ensures Inv(Frame(w, keys, rolls)) && Advances(w, Frame(w, keys, rolls))
  {
    if w.gameRunning {
      var w2 := MovePowerUps(AgeParticles(AdvanceBosses(MoveEnemies(MoveBullets(CountDownFlash(Steer(w, keys)))))));
      MovementOk(w, keys);
      var w3 := Shots(w2, rolls.drops).0;
      ShotsFromOk(w2, rolls.drops, 0, |w2.bullets|);
      var c := Contacts(w3);
      ContactCount(w3);
      ContactsAtMostOnce(w3);
      assert Inv(c) && Advances(w3, c);
      var w4 := PickUps(c);
      PickUpsFromEffects(c, 0, |c.powerUps|);
      assert Inv(w4) && Advances(c, w4);
      SpawnOk(w4, rolls);
    }
  }

  /** The start of a session keeps the invariant, sets a never-started game running, and only the
      first start acts: a second start, even after game over, changes nothing. */
  lemma StartOk(w: World)
    requires Inv(w)
    ensures Inv(Start(w)) && (!w.gameStarted ==> Start(w).gameRunning)
    ensures Start(Start(w)) == Start(w)
  {
  }

  /** The invariant's consequence the game promises: a running game has at most one boss and
      fewer than 3 collisions; so a frame that ends with 3 or more collisions has stopped. */
  lemma GameOverAtThree(w: World, keys: Keys, rolls: Rolls)
    requires Inv(w)
    ensures var r := Frame(w, keys, rolls);
            r.playerCollisionCount >= 3 ==> !r.gameRunning
  {
    FrameOk(w, keys, rolls);
  }
}
