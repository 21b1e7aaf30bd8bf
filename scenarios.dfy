/** Frame behaviours that follow from the splices inside `forEach`, stated on small pools. */
module Scenarios {
  import opened Geometry
  import opened Entities
  import opened Rules
  import opened ContactFacts

  /** A player bullet is not used up by a hit: it damages every enemy it overlaps that the enemy
      walk still visits, and each hit splices the bullet pool at the bullet's old index, so two
      hits remove the bullet and the one that took its place. */
  lemma BulletPiercesEnemies(w: World, drops: seq<Drop>, e1: Enemy, e2: Enemy)
    requires |w.bullets| >= 2 && w.enemies == [e1, e2]
    requires Colliding(w.bullets[0].Rect(), e1.Rect()) && Colliding(w.bullets[0].Rect(), e2.Rect())
    requires e1.health > w.bullets[0].damage && e2.health > w.bullets[0].damage
    ensures var b := w.bullets[0];
            HitEnemiesFrom(w, drops, b, 0, 0, 2) ==
              (w.(bullets := w.bullets[2..],
                  enemies := [e1.(health := e1.health - b.damage), e2.(health := e2.health - b.damage)]), drops)
  {
    var b := w.bullets[0];
    var (w1, d1) := HitEnemy(w, drops, b, 0, 0);
    assert w1 == w.(bullets := w.bullets[1..], enemies := [e1.(health := e1.health - b.damage), e2]);
    var (w2, d2) := HitEnemy(w1, d1, b, 0, 1);
    assert w1.bullets[1..] == w.bullets[2..];
    assert w2 == w.(bullets := w.bullets[2..],
                    enemies := [e1.(health := e1.health - b.damage), e2.(health := e2.health - b.damage)]);
  }

  /** A kill moves the next enemy into the killed one's index, which the walk has passed: that
      enemy is not hit by the bullet in this frame, even when they overlap. */
  lemma KillSkipsNextEnemy(w: World, e1: Enemy, e2: Enemy)
    requires |w.bullets| >= 1 && w.enemies == [e1, e2]
    requires Colliding(w.bullets[0].Rect(), e1.Rect()) && e1.health <= w.bullets[0].damage
    ensures HitEnemiesFrom(w, [], w.bullets[0], 0, 0, 2).0.enemies == [e2]
  {
    var b := w.bullets[0];
    var (w1, d1) := HitEnemy(w, [], b, 0, 0);
    assert w1.enemies == [e2];
    assert HitEnemiesFrom(w, [], b, 0, 0, 2) == HitEnemiesFrom(w1, d1, b, 0, 1, 2);
  }

  /** Game over does not end the frame: when the third collision stops the game, a health
      power-up picked up later in the same frame takes the count back to 2, and the game stays
      stopped. */
  lemma GameOverAtTwo(w: World, e: Enemy, p: PowerUp)
    requires w.gameRunning && w.playerCollisionCount == 2 && !w.player.isFlashing
    requires w.enemies == [e] && w.bosses == [] && w.bullets == [] && w.powerUps == [p]
    requires Colliding(e.Rect(), w.player.Rect())
    requires p.kind == Health && Colliding(p.Rect(), w.player.Rect())
    ensures var r := PickUps(Contacts(w));
            !r.gameRunning && r.playerCollisionCount == 2 && r.powerUps == []
  {
    EnemyContactsFromOnce(w, 0, 1);
    assert EnemyTouches(w, 0);
    var h := Hurt(w, 1, 5);
    assert Contacts(w) == h;
    assert PickUps(h) == Collect(h, 0);
  }
}
