/**
 * The two class-level kill counters of the game (`Enemy.enemies_killed` and
 * `ProjectileEnemy.projectile_enemies_killed`), gathered in one shared object
 * that every enemy and the game loop receive.
 */
module Scores {
  class KillCounters {
    /** Melee and fluid enemies killed in the current run. */
    var enemiesKilled: int
    /** Projectile enemies killed in the current run. */
    var projectileEnemiesKilled: int

    constructor ()
      ensures enemiesKilled == 0 && projectileEnemiesKilled == 0
    {
      enemiesKilled, projectileEnemiesKilled := 0, 0;
    }

    /** The reset done by the game loop on defeat, victory, pause-menu exit and window close. */
    method Reset()
      modifies this
      ensures enemiesKilled == 0 && projectileEnemiesKilled == 0
    {
      enemiesKilled, projectileEnemiesKilled := 0, 0;
    }
  }
}
