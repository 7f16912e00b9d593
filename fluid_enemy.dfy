/**
 * The fluid enemy: a melee enemy (held as `base`, standing in for the
 * subclass relation) that in addition lights a flame on its attack frames.
 */
module FluidEnemies {
  import opened Options
  import opened Geometry
  import opened Projectiles
  import opened Players
  import opened Scores
  import opened Enemies

  class FluidEnemy {
    /** The inherited melee-enemy state; damage, kills and movement are all the base's. */
    const base: Enemy
    const flameDuration: int
    var flameTimer: int

    /** The flame timer is either unset or at the flame duration: nothing ever decrements it. */
    ghost predicate Valid()
      reads this
    {
      flameTimer == 0 || flameTimer == flameDuration
    }

    constructor (x: int, y: int, health: int, speed: int, w: nat, h: nat, damage: int, attackCooldown: int, flameDuration: int)
      ensures Valid() && fresh(base)
      ensures base.Bounds() == Rect(x, y, w, h) && base.facing == Left
      ensures base.health == health && base.speed == speed && base.damage == damage && base.attackCooldown == attackCooldown
      ensures base.attackTimer == 0 && base.splatTimer == 0 && base.hitPosition == None && !base.isDestroyed
      ensures this.flameDuration == flameDuration && flameTimer == 0
    {
      base := new Enemy(x, y, health, speed, w, h, damage, attackCooldown);
      this.flameDuration := flameDuration;
      flameTimer := 0;
    }

    /**
     * `update`: the whole melee update first, then the flame is lit when the
     * attack timer has just been reset, i.e. on an attack frame.
     */
    method Update(group: ProjectileGroup, player: Player, others: seq<Rect>, selfIndex: int, step: Point, counters: KillCounters)
      requires group.Valid() && Valid()
      modifies this`flameTimer, base, player`health, player`isKilled, player`hitPosition, player`splatTimer
      modifies group`members, counters`enemiesKilled
      ensures group.Valid() && Valid()
      ensures base.Acted(old(base.Snapshot(player)), base.AfterOf(player), step, others, selfIndex)
      ensures Consumed(old(group.Bounds()), old(base.StruckState(group, counters)).(bounds := base.Bounds(),
                       hitPosition := base.SplatAfterAct(old(base.Snapshot(player)), step, others, selfIndex).hit),
                       base.StruckState(group, counters))
      ensures flameTimer == if base.attackTimer == 0 then flameDuration else old(flameTimer)
    {
      base.Update(group, player, others, selfIndex, step, counters);
      if base.attackTimer == 0 {
        flameTimer := flameDuration;
      }
    }

    /**
     * The guard of `draw_flame`: a flame is shown only while the flame timer is
     * set and the attack timer is 0, in the variant of the current facing.
     */
    function ShownFlame(): (f: Option<Facing>)
      reads this, base
      ensures f.Some? <==> flameTimer > 0 && base.attackTimer == 0
      ensures f.Some? ==> f.value == base.facing
    {
      if flameTimer > 0 && base.attackTimer == 0 then Some(base.facing) else None
    }
  }
}
