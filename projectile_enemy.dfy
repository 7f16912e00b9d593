/**
 * The ranged enemy: it closes in on the player down to a stand-off distance,
 * fires a projectile at the player once per cooldown while the player is in
 * range, and owns the projectiles it fired.
 */
module ProjectileEnemies {
  import opened Options
  import opened Geometry
  import opened Timers
  import opened Projectiles
  import opened Players
  import opened Scores

  /** The members visited so far by `deal_damage_to_player` that missed, and how many hit. */
  datatype Tally = Tally(kept: seq<Projectile>, hits: nat)

  /** The tally over the first i members of `snapshot`, whose rectangles are `rs`. */
  function TallyAfter(snapshot: seq<Projectile>, rs: seq<Rect>, pb: Rect, i: nat): Tally
    requires |snapshot| == |rs| && i <= |snapshot|
  {
    if i == 0 then Tally([], 0)
    else
      var t := TallyAfter(snapshot, rs, pb, i - 1);
      if Overlaps(rs[i - 1], pb) then Tally(t.kept, t.hits + 1) else Tally(t.kept + [snapshot[i - 1]], t.hits)
  }

  /** The tally is the misses and the hit count of the prefix. */
  lemma {:induction false} TallyIsMisses(snapshot: seq<Projectile>, rs: seq<Rect>, pb: Rect, i: nat)
    requires |snapshot| == |rs| && i <= |snapshot|
    ensures TallyAfter(snapshot, rs, pb, i) == Tally(Misses(snapshot[..i], rs[..i], pb), HitCount(rs[..i], pb))
  {
    if i > 0 {
      TallyIsMisses(snapshot, rs, pb, i - 1);
      PrefixStep(snapshot, rs, i - 1, pb);
    }
  }

  /**
   * The state of `deal_damage_to_player` after its first i members of
   * `snapshot`: the group holds the misses so far followed by the members not
   * yet visited, the player has been hurt once per hit so far, and the splat
   * was restarted (to `marked`) exactly when there was a hit.
   */
  predicate Dealt(snapshot: seq<Projectile>, rs: seq<Rect>, pb: Rect, damage: int, v0: Vitals, s0: Splat, marked: Splat,
                  i: nat, members: seq<Projectile>, vital: Vitals, splat: Splat)
  {
    && |snapshot| == |rs| && i <= |snapshot|
    && var t := TallyAfter(snapshot, rs, pb, i);
    && members == t.kept + snapshot[i..]
    && vital == HurtTimes(v0, damage, t.hits)
    && (t.hits == 0 ==> splat == s0)
    && (t.hits > 0 ==> splat == marked)
  }

  /** Before the step at i, the member at index i sits right after the misses so far. */
  lemma DealtMember(snapshot: seq<Projectile>, rs: seq<Rect>, pb: Rect, damage: int, v0: Vitals, s0: Splat, marked: Splat,
                    i: nat, members: seq<Projectile>, vital: Vitals, splat: Splat)
    requires Dealt(snapshot, rs, pb, damage, v0, s0, marked, i, members, vital, splat) && i < |snapshot|
    ensures var kept := TallyAfter(snapshot, rs, pb, i).kept;
      |kept| < |members| && members[|kept|] == snapshot[i] && members[..|kept|] + members[|kept| + 1..] == kept + snapshot[i + 1..]
  {
    var kept := TallyAfter(snapshot, rs, pb, i).kept;
    assert members[..|kept|] == kept && members[|kept| + 1..] == snapshot[i + 1..];
  }

  /**
   * The step at i: a member that overlaps the player hurts it, restarts the
   * splat and leaves the group; one that misses leaves everything as it was.
   */
  lemma DealtStep(snapshot: seq<Projectile>, rs: seq<Rect>, pb: Rect, damage: int, v0: Vitals, s0: Splat, marked: Splat,
                  i: nat, members: seq<Projectile>, vital: Vitals, splat: Splat,
                  members': seq<Projectile>, vital': Vitals, splat': Splat)
    requires Dealt(snapshot, rs, pb, damage, v0, s0, marked, i, members, vital, splat) && i < |snapshot|
    requires Overlaps(rs[i], pb) ==>
      var k := |TallyAfter(snapshot, rs, pb, i).kept|;
      k < |members| && members' == members[..k] + members[k + 1..] && vital' == Hurt(vital, damage) && splat' == marked
    requires !Overlaps(rs[i], pb) ==> members' == members && vital' == vital && splat' == splat
    ensures Dealt(snapshot, rs, pb, damage, v0, s0, marked, i + 1, members', vital', splat')
  {
    var kept := TallyAfter(snapshot, rs, pb, i).kept;
    ShiftOne(kept, snapshot, i);
    if Overlaps(rs[i], pb) {
      assert members[..|kept|] == kept && members[|kept| + 1..] == snapshot[i + 1..];
    }
  }

  /** After every member, the loop state is the outcome over the whole group. */
  lemma DealtAll(snapshot: seq<Projectile>, rs: seq<Rect>, pb: Rect, damage: int, v0: Vitals, s0: Splat, marked: Splat,
                 members: seq<Projectile>, vital: Vitals, splat: Splat)
    requires Dealt(snapshot, rs, pb, damage, v0, s0, marked, |snapshot|, members, vital, splat)
    ensures members == Misses(snapshot, rs, pb) && vital == HurtTimes(v0, damage, HitCount(rs, pb))
    ensures HitCount(rs, pb) == 0 ==> splat == s0
    ensures HitCount(rs, pb) > 0 ==> splat == marked
  {
    TallyIsMisses(snapshot, rs, pb, |snapshot|);
    assert snapshot[..|snapshot|] == snapshot && rs[..|rs|] == rs;
  }

  class ProjectileEnemy {
    var x: int
    var y: int
    const w: nat
    const h: nat
    var health: int
    /**
     * Movement speed in tenths of a pixel per frame. The constructor's speed
     * argument is discarded: the bullet speed is stored here.
     */
    const speed: int
    const radius: nat := 1000000
    /** The enemy stops approaching at this distance from the player. */
    const threshold: nat := 100
    const damage: int
    const attackCooldown: int
    var attackTimer: int
    var hitPosition: Option<Point>
    var isDestroyed: bool
    var facing: Facing
    /** The projectiles this enemy has fired and that have not hit the player. */
    const projectiles: ProjectileGroup
    /** The size of the projectile image. */
    const projectileW: nat
    const projectileH: nat

    ghost predicate Valid()
      reads projectiles`members
    {
      projectiles.Valid()
    }

    function Bounds(): Rect
      reads this`x, this`y
    {
      Rect(x, y, w, h)
    }

    function CurrentPose(): Pose
      reads this`x, this`y, this`facing
    {
      Pose(Point(x, y), facing)
    }

    constructor (x: int, y: int, health: int, speed: int, w: nat, h: nat, damage: int, attackCooldown: int,
                 projectileW: nat, projectileH: nat, bulletSpeed: int)
      ensures Valid() && fresh(projectiles) && projectiles.members == []
      ensures Bounds() == Rect(x, y, w, h) && facing == Left
      ensures this.speed == bulletSpeed
      ensures this.health == health && this.damage == damage && this.attackCooldown == attackCooldown
      ensures this.projectileW == projectileW && this.projectileH == projectileH
      ensures attackTimer == 0 && hitPosition == None && !isDestroyed
    {
      this.x, this.y, this.w, this.h := x, y, w, h;
      this.health, this.damage, this.attackCooldown := health, damage, attackCooldown;
      attackTimer, hitPosition, isDestroyed := 0, None, false;
      facing := Left;
      projectiles := new ProjectileGroup();
      this.projectileW, this.projectileH := projectileW, projectileH;
      this.speed := bulletSpeed;
    }

    /** `move_towards(target)`: as the melee enemy's, with no other enemies to avoid. */
    method MoveTowards(target: Point, step: Point)
      modifies this`x, this`y, this`facing
      ensures CurrentPose() == Approach(old(CurrentPose()), target, step, w, h, [], 0)
    {
      if target != Point(x, y) {
        var dx := target.x - x;
        x, y := x + step.x, y + step.y;
        if dx > 0 {
          facing := Right;
        } else if dx < 0 {
          facing := Left;
        }
      }
    }

    /** `fire_projectile`: one new projectile with this enemy's damage, centred on it, joins its group. */
    method FireProjectile(velocity: Point)
      requires Valid()
      modifies projectiles`members
      ensures Valid()
      ensures |projectiles.members| == |old(projectiles.members)| + 1
      ensures projectiles.members[..|old(projectiles.members)|] == old(projectiles.members)
      ensures var p := projectiles.members[|old(projectiles.members)|];
        fresh(p) && p.damage == damage && p.Bounds() == CenteredAt(Bounds().Center(), projectileW, projectileH) &&
        p.vx == velocity.x && p.vy == velocity.y
    {
      var p := new Projectile(CenteredAt(Bounds().Center(), projectileW, projectileH), velocity, damage);
      projectiles.Add(p);
    }

    method ReceiveDamage(damage: int, position: Point, counters: KillCounters)
      modifies this`health, this`hitPosition, this`isDestroyed, counters`projectileEnemiesKilled
      ensures health == old(health) - damage
      ensures hitPosition == Some(position)
      ensures isDestroyed <==> old(isDestroyed) || health <= 0
      ensures counters.projectileEnemiesKilled == old(counters.projectileEnemiesKilled) + (if health <= 0 then 1 else 0)
    {
      health := health - damage;
      if health <= 0 {
        hitPosition := Some(position);
        isDestroyed := true;
        counters.projectileEnemiesKilled := counters.projectileEnemiesKilled + 1;
      } else {
        hitPosition := Some(position);
      }
    }

    /** `check_collision`: the first player projectile that overlaps this enemy is consumed. */
    method CheckCollision(group: ProjectileGroup, counters: KillCounters)
      requires group.Valid()
      modifies this`health, this`hitPosition, this`isDestroyed, group`members, counters`projectileEnemiesKilled
      ensures group.Valid()
      ensures Consumed(old(group.Bounds()), old(StruckState(group, counters)), StruckState(group, counters))
      ensures RectsOf(old(group.members)) == old(group.Bounds())
      ensures group != projectiles ==> FlightState() == old(FlightState())
    {
      var k := group.FirstOverlap(Bounds());
      if k.Some? {
        ConsumeAt(group, counters, k.value);
      }
    }

    /** The body of the search loop on a hit: receive member i's damage at its centre, then remove it. */
    method ConsumeAt(group: ProjectileGroup, counters: KillCounters, i: nat)
      requires group.Valid() && i < |group.members|
      modifies this`health, this`hitPosition, this`isDestroyed, group`members, counters`projectileEnemiesKilled
      ensures group.Valid()
      ensures group.members == old(group.members)[..i] + old(group.members)[i + 1..]
      ensures health == old(health) - old(group.members)[i].damage
      ensures hitPosition == Some(old(group.members[i].Bounds()).Center())
      ensures isDestroyed <==> old(isDestroyed) || health <= 0
      ensures counters.projectileEnemiesKilled == old(counters.projectileEnemiesKilled) + (if health <= 0 then 1 else 0)
      ensures group != projectiles ==> FlightState() == old(FlightState())
    {
      var p := group.members[i];
      ReceiveDamage(p.damage, p.Bounds().Center(), counters);
      group.Remove(p);
    }

    /** This enemy's part of the state `check_collision` works on; kills are counted among the projectile enemies. */
    function StruckState(group: ProjectileGroup, counters: KillCounters): Struck
      reads this`x, this`y, this`health, this`hitPosition, this`isDestroyed, group`members, counters`projectileEnemiesKilled
    {
      Struck(Bounds(), group.members, health, hitPosition, isDestroyed, counters.projectileEnemiesKilled)
    }

    /** The state the movement and firing half of `update` reads and writes. */
    function FlightState(): Flight
      reads this`x, this`y, this`facing, this`attackTimer, projectiles`members, projectiles.members
    {
      Flight(CurrentPose(), attackTimer, projectiles.members, RectsOf(projectiles.members))
    }

    /**
     * The movement and firing half of `update`, from player centre `pc`: within
     * the radius the enemy approaches while it is farther than the threshold and
     * fires when the cooldown has run out; the timer then counts the update, and
     * every owned projectile (a new one from its spawn point) flies one frame.
     * `step` is the speed-scaled direction towards the player and `velocity` the
     * velocity of a projectile fired now.
     */
    predicate Advanced(f0: Flight, pc: Point, step: Point, velocity: Point, f: Flight) {
      var within := WithinDistance(f0.pose.pos, pc, radius);
      var approach := within && !WithinDistance(f0.pose.pos, pc, threshold);
      var tick := FireTick(f0.attackTimer, attackCooldown, within);
      var n := |f0.members|;
      && |f0.rects| == n
      && |f.rects| == |f.members|
      && f.pose == (if approach then Approach(f0.pose, pc, step, w, h, [], 0) else f0.pose)
      && f.attackTimer == tick.timer
      && |f.members| == n + (if tick.fires then 1 else 0)
      && f.members[..n] == f0.members
      && (forall i :: 0 <= i < n ==> f.rects[i] == f0.rects[i].MovedBy(f0.members[i].vx, f0.members[i].vy))
      && (tick.fires ==> var p := f.members[n];
            p.damage == damage && p.vx == velocity.x && p.vy == velocity.y &&
            f.rects[n] == CenteredAt(Rect(f.pose.pos.x, f.pose.pos.y, w, h).Center(), projectileW, projectileH).MovedBy(velocity.x, velocity.y))
    }

    /**
     * The movement and firing part of `update`, before the projectiles fly:
     * within the radius the enemy approaches while it is farther than the
     * threshold and fires when the cooldown has run out, and the timer counts
     * the update. A projectile fired now is appended, centred on the enemy.
     */
    predicate Aimed(f0: Flight, pc: Point, step: Point, velocity: Point, f: Flight) {
      var within := WithinDistance(f0.pose.pos, pc, radius);
      var approach := within && !WithinDistance(f0.pose.pos, pc, threshold);
      var tick := FireTick(f0.attackTimer, attackCooldown, within);
      var n := |f0.members|;
      && |f0.rects| == n
      && |f.rects| == |f.members|
      && f.pose == (if approach then Approach(f0.pose, pc, step, w, h, [], 0) else f0.pose)
      && f.attackTimer == tick.timer
      && |f.members| == n + (if tick.fires then 1 else 0)
      && f.members[..n] == f0.members
      && (forall i :: 0 <= i < n ==> f.rects[i] == f0.rects[i])
      && (tick.fires ==> var p := f.members[n];
            p.damage == damage && p.vx == velocity.x && p.vy == velocity.y &&
            f.rects[n] == CenteredAt(Rect(f.pose.pos.x, f.pose.pos.y, w, h).Center(), projectileW, projectileH))
    }

    /** Flying every projectile of an aimed state once completes the movement and firing half. */
    lemma FlyAfterAim(f0: Flight, pc: Point, step: Point, velocity: Point, f1: Flight, f: Flight)
      requires Aimed(f0, pc, step, velocity, f1)
      requires f.pose == f1.pose && f.attackTimer == f1.attackTimer && f.members == f1.members && |f.rects| == |f1.rects|
      requires forall i :: 0 <= i < |f1.members| ==> f.rects[i] == f1.rects[i].MovedBy(f1.members[i].vx, f1.members[i].vy)
      ensures Advanced(f0, pc, step, velocity, f)
    {
      var n := |f0.members|;
      forall i | 0 <= i < n
        ensures f.rects[i] == f0.rects[i].MovedBy(f0.members[i].vx, f0.members[i].vy)
      {
        assert f1.members[..n][i] == f1.members[i];
      }
    }

    /** The movement and firing part of `update`; see `Aimed`. */
    method Aim(pc: Point, step: Point, velocity: Point)
      requires Valid()
      modifies this`x, this`y, this`facing, this`attackTimer, projectiles`members
      ensures Valid()
      ensures Aimed(old(FlightState()), pc, step, velocity, FlightState())
      ensures |projectiles.members| > |old(projectiles.members)| ==> fresh(projectiles.members[|old(projectiles.members)|])
    {
      ghost var before := projectiles.members;
      ghost var pose := CurrentPose();
      var within := WithinDistance(Point(x, y), pc, radius);
      ghost var approach := within && !WithinDistance(Point(x, y), pc, threshold);
      ghost var tick := FireTick(attackTimer, attackCooldown, within);
      if within {
        if !WithinDistance(Point(x, y), pc, threshold) {
          MoveTowards(pc, step);
        }
        if attackTimer >= attackCooldown {
          FireProjectile(velocity);
          attackTimer := 0;
        }
      }
      attackTimer := attackTimer + 1;
      assert attackTimer == tick.timer;
      assert CurrentPose() == (if approach then Approach(pose, pc, step, w, h, [], 0) else pose);
    }

    method Advance(pc: Point, step: Point, velocity: Point)
      requires Valid()
      modifies this`x, this`y, this`facing, this`attackTimer, projectiles`members, projectiles.members
      ensures Valid()
      ensures Advanced(old(FlightState()), pc, step, velocity, FlightState())
      ensures |projectiles.members| > |old(projectiles.members)| ==> fresh(projectiles.members[|old(projectiles.members)|])
    {
      ghost var f0 := FlightState();
      Aim(pc, step, velocity);
      ghost var f1 := FlightState();
      projectiles.UpdateAll();
      FlyAfterAim(f0, pc, step, velocity, f1, FlightState());
    }

    /**
     * `update`: the movement and firing half, then the first overlapping player
     * projectile is consumed.
     */
    method Update(group: ProjectileGroup, player: Player, step: Point, velocity: Point, counters: KillCounters)
      requires group.Valid() && Valid()
      requires group != projectiles
      modifies this`x, this`y, this`facing, this`attackTimer, projectiles`members, projectiles.members
      modifies this`health, this`hitPosition, this`isDestroyed, group`members, counters`projectileEnemiesKilled
      ensures group.Valid() && Valid()
      ensures Advanced(old(FlightState()), old(player.Centre()), step, velocity, FlightState())
      ensures |projectiles.members| > |old(projectiles.members)| ==> fresh(projectiles.members[|old(projectiles.members)|])
      ensures Consumed(RectsOf(old(group.members)), old(StruckState(group, counters)).(bounds := Bounds()), StruckState(group, counters))
    {
      ghost var s0 := StruckState(group, counters);
      Advance(player.Centre(), step, velocity);
      ghost var f := FlightState();
      label advanced:
      assert StruckState(group, counters) == s0.(bounds := Bounds());
      CheckCollision(group, counters);
      assert RectsOf(old(group.members)) == old@advanced(group.Bounds());
    }

    /**
     * `deal_damage_to_player`: every owned projectile that overlaps the player
     * hurts it by this enemy's damage and leaves the group; the others stay, in
     * order.
     */
    method DealDamageToPlayer(player: Player)
      requires Valid()
      modifies player`health, player`isKilled, player`hitPosition, player`splatTimer, projectiles`members
      ensures Valid()
      ensures var rs := old(projectiles.Bounds());
        && projectiles.members == Misses(old(projectiles.members), rs, player.Bounds())
        && player.Vital() == HurtTimes(old(player.Vital()), damage, HitCount(rs, player.Bounds()))
        && (HitCount(rs, player.Bounds()) == 0 ==> player.SplatState() == old(player.SplatState()))
        && (HitCount(rs, player.Bounds()) > 0 ==> player.SplatState() == Splat(player.splatDuration, Some(player.Centre())))
    {
      var snapshot := projectiles.members;
      ghost var rs := projectiles.Bounds();
      ghost var v0, s0 := player.Vital(), player.SplatState();
      ghost var pb := player.Bounds();
      ghost var marked := Splat(player.splatDuration, Some(player.Centre()));
      var i := 0;
      while i < |snapshot|
        invariant 0 <= i <= |snapshot|
        invariant Valid()
        invariant rs == RectsOf(snapshot)
        invariant player.Bounds() == pb && Splat(player.splatDuration, Some(player.Centre())) == marked
        invariant Dealt(snapshot, rs, pb, damage, v0, s0, marked, i, projectiles.members, player.Vital(), player.SplatState())
      {
        var hit := HitPlayer(player, snapshot, i, rs, v0, s0);
        i := i + 1;
      }
      DealtAll(snapshot, rs, pb, damage, v0, s0, marked, projectiles.members, player.Vital(), player.SplatState());
    }

    /**
     * One iteration of `deal_damage_to_player`, on the member at index i of the
     * group as it was when the loop started: if it overlaps the player, the
     * player takes this enemy's damage and the member leaves the group. The
     * loop state moves from after i members to after i + 1.
     */
    method HitPlayer(player: Player, snapshot: seq<Projectile>, i: nat, ghost rs: seq<Rect>, ghost v0: Vitals, ghost s0: Splat)
      returns (hit: bool)
      requires Valid() && |snapshot| == |rs| && i < |snapshot| && rs[i] == snapshot[i].Bounds()
      requires Dealt(snapshot, rs, player.Bounds(), damage, v0, s0, Splat(player.splatDuration, Some(player.Centre())),
                     i, projectiles.members, player.Vital(), player.SplatState())
      modifies player`health, player`isKilled, player`hitPosition, player`splatTimer, projectiles`members
      ensures Valid()
      ensures hit <==> Overlaps(rs[i], player.Bounds())
      ensures RectsOf(snapshot) == old(RectsOf(snapshot))
      ensures player.Bounds() == old(player.Bounds()) && player.Centre() == old(player.Centre())
      ensures Dealt(snapshot, rs, player.Bounds(), damage, v0, s0, Splat(player.splatDuration, Some(player.Centre())),
                    i + 1, projectiles.members, player.Vital(), player.SplatState())
    {
      ghost var pb := player.Bounds();
      ghost var members, vital, splat := projectiles.members, player.Vital(), player.SplatState();
      var p := snapshot[i];
      hit := Overlaps(p.Bounds(), player.Bounds());
      if hit {
        player.HandleDamage(damage);
        DealtMember(snapshot, rs, pb, damage, v0, s0, Splat(player.splatDuration, Some(player.Centre())), i, members, vital, splat);
        projectiles.Remove(p);
      }
      DealtStep(snapshot, rs, pb, damage, v0, s0, Splat(player.splatDuration, Some(player.Centre())), i,
                members, vital, splat, projectiles.members, player.Vital(), player.SplatState());
    }

    method Draw()
      modifies this`hitPosition
      ensures hitPosition == None
    {
      hitPosition := None;
    }

    function IsEnemyDestroyed(): (b: bool)
      reads this
      ensures b == isDestroyed
    {
      isDestroyed
    }
  }
}
