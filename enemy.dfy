/**
 * The melee enemy: it walks towards the player while staying clear of the
 * other enemies, hits the player on contact once per attack cooldown, shows a
 * splat where it hit, and is damaged by the first player projectile that
 * touches it.
 */
module Enemies {
  import opened Options
  import opened Geometry
  import opened Timers
  import opened Projectiles
  import opened Players
  import opened Scores

  /** The state `update` starts from: the enemy's pose, attack timer and splat, and the player's state. */
  datatype Before = Before(pose: Pose, attackTimer: int, splat: Splat, playerCentre: Point, playerBounds: Rect,
                           playerVital: Vitals, playerSplat: Splat, playerSplatDuration: nat)

  /** The state the movement, attack and splat part of `update` leaves: the enemy's pose and timers, and the player's state. */
  datatype After = After(pose: Pose, attackTimer: int, splatTimer: nat, playerVital: Vitals, playerSplat: Splat)

  class Enemy {
    var x: int
    var y: int
    /** The size of the rectangle, taken from the left image and never recomputed. */
    const w: nat
    const h: nat
    var health: int
    /** Movement speed in tenths of a pixel per frame; the step itself is an input of `MoveTowards`. */
    const speed: int
    /** The tracking distance. */
    const radius: nat := 100000
    const damage: int
    const attackCooldown: int
    var attackTimer: int
    var hitPosition: Option<Point>
    var isDestroyed: bool
    const splatDuration: nat := 120
    var splatTimer: nat
    var facing: Facing

    function Bounds(): Rect
      reads this`x, this`y
    {
      Rect(x, y, w, h)
    }

    function CurrentPose(): Pose
      reads this`x, this`y, this`facing
    {
      Pose(Point(x, y), facing)
    }

    function SplatState(): Splat
      reads this`splatTimer, this`hitPosition
    {
      Splat(splatTimer, hitPosition)
    }

    constructor (x: int, y: int, health: int, speed: int, w: nat, h: nat, damage: int, attackCooldown: int)
      ensures Bounds() == Rect(x, y, w, h) && facing == Left
      ensures this.health == health && this.speed == speed && this.damage == damage && this.attackCooldown == attackCooldown
      ensures attackTimer == 0 && splatTimer == 0 && hitPosition == None && !isDestroyed
    {
      this.x, this.y, this.w, this.h := x, y, w, h;
      this.health, this.speed, this.damage, this.attackCooldown := health, speed, damage, attackCooldown;
      attackTimer, splatTimer, hitPosition, isDestroyed := 0, 0, None, false;
      facing := Left;
    }

    /**
     * `move_towards(target, other_enemies)`. `step` is the speed-scaled unit
     * direction towards the target; `others` are the rectangles of the enemy
     * list passed in, of which the entry at `selfIndex` is this enemy.
     */
    method MoveTowards(target: Point, step: Point, others: seq<Rect>, selfIndex: int)
      modifies this`x, this`y, this`facing
      ensures CurrentPose() == Approach(old(CurrentPose()), target, step, w, h, others, selfIndex)
    {
      if target != Point(x, y) {
        ghost var start := Point(x + step.x, y + step.y);
        var nx, ny := x + step.x, y + step.y;
        var i := 0;
        while i < |others|
          invariant 0 <= i <= |others|
          invariant Resolve(Point(nx, ny), w, h, others[i..], selfIndex - i) == Resolve(start, w, h, others, selfIndex)
        {
          assert others[i..][1..] == others[i + 1..];
          if i != selfIndex && Overlaps(Rect(nx, ny, w, h), others[i]) {
            var p := AvoidOverlap(Point(nx, ny), w, h, others[i]);
            nx, ny := p.x, p.y;
          }
          i := i + 1;
        }
        var dx := target.x - x;
        x, y := nx, ny;
        if dx > 0 {
          facing := Right;
        } else if dx < 0 {
          facing := Left;
        }
      }
    }

    /** `receive_damage`: health drops, the hit is marked, and a kill is counted at or below zero. */
    method ReceiveDamage(damage: int, position: Point, counters: KillCounters)
      modifies this`health, this`hitPosition, this`isDestroyed, counters`enemiesKilled
      ensures health == old(health) - damage
      ensures hitPosition == Some(position)
      ensures isDestroyed <==> old(isDestroyed) || health <= 0
      ensures counters.enemiesKilled == old(counters.enemiesKilled) + (if health <= 0 then 1 else 0)
    {
      health := health - damage;
      if health <= 0 {
        hitPosition := Some(position);
        isDestroyed := true;
        counters.enemiesKilled := counters.enemiesKilled + 1;
      } else {
        hitPosition := Some(position);
      }
    }

    /** `deal_damage_to_player`: on contact, hurt the player and start this enemy's splat at the player's centre. */
    method DealDamageToPlayer(player: Player)
      modifies player`health, player`isKilled, player`hitPosition, player`splatTimer
      modifies this`hitPosition, this`splatTimer
      ensures Overlaps(Bounds(), player.Bounds()) ==>
        player.Vital() == Hurt(old(player.Vital()), damage) &&
        player.SplatState() == Splat(player.splatDuration, Some(player.Centre())) &&
        SplatState() == Splat(splatDuration, Some(player.Centre()))
      ensures !Overlaps(Bounds(), player.Bounds()) ==>
        player.Vital() == old(player.Vital()) && player.SplatState() == old(player.SplatState()) &&
        SplatState() == old(SplatState())
    {
      if Overlaps(Bounds(), player.Bounds()) {
        player.HandleDamage(damage);
        hitPosition := Some(player.Centre());
        splatTimer := splatDuration;
      }
    }

    /** `check_collision`: the first projectile in the group that overlaps this enemy is consumed. */
    method CheckCollision(group: ProjectileGroup, counters: KillCounters)
      requires group.Valid()
      modifies this`health, this`hitPosition, this`isDestroyed, group`members, counters`enemiesKilled
      ensures group.Valid()
      ensures Consumed(old(group.Bounds()), old(StruckState(group, counters)), StruckState(group, counters))
      ensures RectsOf(old(group.members)) == old(group.Bounds())
    {
      var k := group.FirstOverlap(Bounds());
      if k.Some? {
        ConsumeAt(group, counters, k.value);
      }
    }

    /** The body of the search loop on a hit: receive member i's damage at its centre, then remove it. */
    method ConsumeAt(group: ProjectileGroup, counters: KillCounters, i: nat)
      requires group.Valid() && i < |group.members|
      modifies this`health, this`hitPosition, this`isDestroyed, group`members, counters`enemiesKilled
      ensures group.Valid()
      ensures group.members == old(group.members)[..i] + old(group.members)[i + 1..]
      ensures health == old(health) - old(group.members)[i].damage
      ensures hitPosition == Some(old(group.members[i].Bounds()).Center())
      ensures isDestroyed <==> old(isDestroyed) || health <= 0
      ensures counters.enemiesKilled == old(counters.enemiesKilled) + (if health <= 0 then 1 else 0)
    {
      var p := group.members[i];
      ReceiveDamage(p.damage, p.Bounds().Center(), counters);
      group.Remove(p);
    }

    /** This enemy's part of the state `check_collision` works on. */
    function StruckState(group: ProjectileGroup, counters: KillCounters): Struck
      reads this`x, this`y, this`health, this`hitPosition, this`isDestroyed, group`members, counters`enemiesKilled
    {
      Struck(Bounds(), group.members, health, hitPosition, isDestroyed, counters.enemiesKilled)
    }

    /** What `update` reads before it changes anything: this enemy's and the player's state. */
    function Snapshot(player: Player): Before
      reads this, player
    {
      Before(CurrentPose(), attackTimer, SplatState(), player.Centre(), player.Bounds(), player.Vital(), player.SplatState(), player.splatDuration)
    }

    /** Where `update` moves the enemy: towards the player's centre when it is within the tracking radius. */
    function MovedPose(b: Before, step: Point, others: seq<Rect>, selfIndex: int): Pose {
      if WithinDistance(b.pose.pos, b.playerCentre, radius) then Approach(b.pose, b.playerCentre, step, w, h, others, selfIndex)
      else b.pose
    }

    /** The attack of this update lands: the cooldown runs out while the moved enemy touches the player. */
    predicate Lands(b: Before, step: Point, others: seq<Rect>, selfIndex: int) {
      var moved := MovedPose(b, step, others, selfIndex);
      AttackTick(b.attackTimer, attackCooldown).fires && Overlaps(Rect(moved.pos.x, moved.pos.y, w, h), b.playerBounds)
    }

    /** The splat after this update: restarted at the player's centre by a landed attack, then counted down. */
    function SplatAfterAct(b: Before, step: Point, others: seq<Rect>, selfIndex: int): Splat {
      SplatTick(if Lands(b, step, others, selfIndex) then Splat(splatDuration, Some(b.playerCentre)) else b.splat)
    }

    /** The state the movement, attack and splat part of `update` writes. */
    function AfterOf(player: Player): After
      reads this`x, this`y, this`facing, this`attackTimer, this`splatTimer
      reads player`health, player`isKilled, player`hitPosition, player`splatTimer
    {
      After(CurrentPose(), attackTimer, splatTimer, player.Vital(), player.SplatState())
    }

    /**
     * The movement, attack and splat part of `update`, in the source's order,
     * from state b to state a: move if the player is within the tracking
     * radius, count the attack cooldown and attack on its expiry, count the
     * splat down.
     */
    predicate Acted(b: Before, a: After, step: Point, others: seq<Rect>, selfIndex: int) {
      var landed := Lands(b, step, others, selfIndex);
      && a.pose == MovedPose(b, step, others, selfIndex)
      && a.attackTimer == AttackTick(b.attackTimer, attackCooldown).timer
      && (1 <= attackCooldown && 0 <= b.attackTimer < attackCooldown ==> 0 <= a.attackTimer < attackCooldown)
      && a.playerVital == (if landed then Hurt(b.playerVital, damage) else b.playerVital)
      && a.playerSplat == (if landed then Splat(b.playerSplatDuration, Some(b.playerCentre)) else b.playerSplat)
      && a.splatTimer == SplatAfterAct(b, step, others, selfIndex).timer
    }

    method Act(player: Player, others: seq<Rect>, selfIndex: int, step: Point)
      modifies this`x, this`y, this`facing, this`attackTimer, this`splatTimer, this`hitPosition
      modifies player`health, player`isKilled, player`hitPosition, player`splatTimer
      ensures Acted(old(Snapshot(player)), AfterOf(player), step, others, selfIndex)
      ensures hitPosition == SplatAfterAct(old(Snapshot(player)), step, others, selfIndex).hit
    {
      ghost var b := Snapshot(player);
      var pc := player.Centre();
      if WithinDistance(Point(x, y), pc, radius) {
        MoveTowards(pc, step, others, selfIndex);
      }
      assert CurrentPose() == MovedPose(b, step, others, selfIndex);
      ghost var landed := Lands(b, step, others, selfIndex);
      attackTimer := attackTimer + 1;
      if attackTimer >= attackCooldown {
        attackTimer := 0;
        DealDamageToPlayer(player);
      }
      assert player.Vital() == (if landed then Hurt(b.playerVital, damage) else b.playerVital);
      assert SplatState() == (if landed then Splat(splatDuration, Some(pc)) else b.splat);
      if splatTimer > 0 {
        splatTimer := splatTimer - 1;
        if splatTimer == 0 {
          hitPosition := None;
        }
      }
    }

    /** `update`: the movement, attack and splat part, then the first overlapping projectile is consumed. */
    method Update(group: ProjectileGroup, player: Player, others: seq<Rect>, selfIndex: int, step: Point, counters: KillCounters)
      requires group.Valid()
      modifies this`x, this`y, this`facing, this`attackTimer, this`splatTimer, this`hitPosition, this`health, this`isDestroyed
      modifies player`health, player`isKilled, player`hitPosition, player`splatTimer, group`members, counters`enemiesKilled
      ensures group.Valid()
      ensures Acted(old(Snapshot(player)), AfterOf(player), step, others, selfIndex)
      ensures Consumed(old(group.Bounds()), old(StruckState(group, counters)).(bounds := Bounds(),
                       hitPosition := SplatAfterAct(old(Snapshot(player)), step, others, selfIndex).hit), StruckState(group, counters))
    {
      ghost var rects := group.Bounds();
      ghost var s0 := StruckState(group, counters);
      ghost var hit := SplatAfterAct(Snapshot(player), step, others, selfIndex).hit;
      Act(player, others, selfIndex, step);
      ghost var a := AfterOf(player);
      assert StruckState(group, counters) == s0.(bounds := Bounds(), hitPosition := hit);
      assert group.Bounds() == rects;
      CheckCollision(group, counters);
      assert AfterOf(player) == a;
    }

    /** The only draw-side state: drawing consumes the splat marker. */
    method Draw()
      modifies this`hitPosition
      ensures hitPosition == None
    {
      hitPosition := None;
    }

    function IsEnemyDestroyed(): (b: bool)
      reads this
      ensures b == isDestroyed
    {
      isDestroyed
    }
  }
}
