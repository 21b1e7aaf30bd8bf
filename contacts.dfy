/** What the walks that touch the player do, stated against independent descriptions: at most
    one contact per frame, none while flashing, and what a power-up pickup costs and pays. */
module ContactFacts {
  import opened Geometry
  import opened Entities
  import opened Pools
  import opened Rules

  predicate EnemyTouches(w: World, j: nat)
  {
    j < |w.enemies| && Colliding(w.enemies[j].Rect(), w.player.Rect())
  }

  predicate BossTouches(w: World, j: nat)
  {
    j < |w.bosses| && Colliding(w.bosses[j].Rect(), w.player.Rect())
  }

  /** The enemy-contact walk is one hurt by 1 if some enemy touches the unflashed player, and
      no change otherwise, however many enemies touch. */
  lemma {:induction false} EnemyContactsFromOnce(w: World, k: nat, n: nat)
    ensures EnemyContactsFrom(w, k, n) ==
              if !w.player.isFlashing && exists j :: k <= j < n && EnemyTouches(w, j) then Hurt(w, 1, 5) else w
    decreases n - k
  {
    if k < n && k < |w.enemies| {
      if EnemyTouches(w, k) && !w.player.isFlashing {
        EnemyContactsFromOnce(Hurt(w, 1, 5), k + 1, n);
      } else {
        EnemyContactsFromOnce(w, k + 1, n);
      }
    }
  }

  /** The boss-contact walk is one hurt by 2 if some boss touches the unflashed player. */
  lemma {:induction false} BossContactsFromOnce(w: World, k: nat, n: nat)
    ensures BossContactsFrom(w, k, n) ==
              if !w.player.isFlashing && exists j :: k <= j < n && BossTouches(w, j) then Hurt(w, 2, 8) else w
    decreases n - k
  {
    if k < n && k < |w.bosses| {
      if BossTouches(w, k) && !w.player.isFlashing {
        BossContactsFromOnce(Hurt(w, 2, 8), k + 1, n);
      } else {
        BossContactsFromOnce(w, k + 1, n);
      }
    }
  }

  /** The enemy-bullet walk: if an enemy bullet touches the unflashed player, the first such
      bullet is spliced out and the player is hurt by 1, once; otherwise nothing changes. */
  lemma {:induction false} ShotContactsFromOnce(w: World, k: nat, n: nat)
    ensures var r := ShotContactsFrom(w, k, n);
            if !w.player.isFlashing && exists j :: k <= j < n && ShotTouches(w, j) then
              exists j :: k <= j < n && ShotTouches(w, j) && (forall i :: k <= i < j ==> !ShotTouches(w, i)) &&
                          r == Hurt(w, 1, 5).(bullets := Remove(w.bullets, j))
            else r == w
    decreases n - k
  {
    var r := ShotContactsFrom(w, k, n);
    if k < n && k < |w.bullets| {
      if ShotTouches(w, k) && !w.player.isFlashing {
        var h := Hurt(w, 1, 5).(bullets := Remove(w.bullets, k));
        ShotContactsFromOnce(h, k + 1, n);
        assert r == h;
      } else {
        ShotContactsFromOnce(w, k + 1, n);
        if !w.player.isFlashing && exists j :: k <= j < n && ShotTouches(w, j) {
          var j :| k + 1 <= j < n && ShotTouches(w, j) && (forall i :: k + 1 <= i < j ==> !ShotTouches(w, i)) &&
                   r == Hurt(w, 1, 5).(bullets := Remove(w.bullets, j));
          assert forall i :: k <= i < j ==> !ShotTouches(w, i);
        }
      }
    }
  }

  /** Flash immunity: while the player flashes, the three contact walks change nothing at all:
      not the collision count, not the flash timer, not the bullet pool. */
  lemma ContactsWhileFlashing(w: World)
    requires w.player.isFlashing
    ensures Contacts(w) == w
  {
    EnemyContactsFromOnce(w, 0, |w.enemies|);
    BossContactsFromOnce(w, 0, |w.bosses|);
    ShotContactsFromOnce(w, 0, |w.bullets|);
  }

  /** At most one contact counts per frame: the contact walks leave the state as it was, or apply
      exactly one hurt (1 for an enemy, 2 for a boss, 1 for an enemy bullet, which is then gone).
      Enemies and bosses always survive contact. */
  lemma ContactsAtMostOnce(w: World)
    ensures var r := Contacts(w);
            r.enemies == w.enemies && r.bosses == w.bosses &&
            (r.(bullets := w.bullets) == w || r.(bullets := w.bullets) == Hurt(w, 1, 5) ||
             r.(bullets := w.bullets) == Hurt(w, 2, 8)) &&
            (r.bullets == w.bullets || exists j :: ShotTouches(w, j) && r.bullets == Remove(w.bullets, j))
  {
    var e := EnemyContacts(w);
    EnemyContactsFromOnce(w, 0, |w.enemies|);
    var b := BossContacts(e);
    BossContactsFromOnce(e, 0, |e.bosses|);
    ShotContactsFromOnce(b, 0, |b.bullets|);
    if e != w {
      assert e.player.isFlashing;
      ContactsWhileFlashing(e);
    } else if b != w {
      assert b.player.isFlashing;
    }
  }

  /** The collision count after the contact walks: unchanged, or up by 1 or 2 with the player
      flashing for a full 60 frames; the game stops exactly when such a rise reaches 3. */
  lemma ContactCount(w: World)
    ensures var r := Contacts(w);
            w.playerCollisionCount <= r.playerCollisionCount <= w.playerCollisionCount + 2 &&
            (r.playerCollisionCount == w.playerCollisionCount ==> r.gameRunning == w.gameRunning && r.player == w.player) &&
            (r.playerCollisionCount != w.playerCollisionCount ==>
               r.player.isFlashing && r.player.flashTimer == FlashDuration &&
               r.gameRunning == (w.gameRunning && r.playerCollisionCount < 3))
  {
    ContactsAtMostOnce(w);
  }

  /** The power-up walk, counted by the power-ups it removes: each pickup takes at most one
      collision off, scores at most 50 and bursts 5 particles; the count never goes negative,
      and nothing outside count, score and those two pools changes. */
  lemma {:induction false} PickUpsFromEffects(w: World, k: nat, n: nat)
    ensures var r := PickUpsFrom(w, k, n);
            var taken := |w.powerUps| - |r.powerUps|;
            taken >= 0 &&
            w.playerCollisionCount - taken <= r.playerCollisionCount &&
            (w.playerCollisionCount >= 0 ==> 0 <= r.playerCollisionCount <= w.playerCollisionCount) &&
            w.score <= r.score <= w.score + 50 * taken &&
            |r.particles| == |w.particles| + 5 * taken &&
            r.(playerCollisionCount := w.playerCollisionCount, score := w.score,
               powerUps := w.powerUps, particles := w.particles) == w
    decreases n - k
  {
    if k < n && k < |w.powerUps| {
      if Colliding(w.powerUps[k].Rect(), w.player.Rect()) {
        PickUpsFromEffects(Collect(w, k), k + 1, n);
      } else {
        PickUpsFromEffects(w, k + 1, n);
      }
    }
  }
}
