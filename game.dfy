/**
 * The state `run_start_screen` keeps between frames (the player, the three
 * enemy lists, the global wave number, the class-level kill counters and the
 * `running` flag) with the three pieces of the frame that are modelled:
 * `spawn_wave`, the boundary check on the player and the end-of-frame
 * bookkeeping.
 */
module Games {
  import opened Options
  import opened Geometry
  import opened Scores
  import opened Players
  import opened Enemies
  import opened FluidEnemies
  import opened ProjectileEnemies
  import opened Waves
  import opened Runs

  lemma ConcatAssoc<T>(a: seq<T>, b: seq<T>, c: seq<T>)
    ensures a + b + c == a + (b + c)
  {
  }

  /** The size of an image. */
  datatype Size = Size(w: nat, h: nat)

  class Game {
    const Width: int := 800
    const Height: int := 600
    const player: Player
    const counters: KillCounters
    /** The size of each archetype's image and of the image of the projectile it fires. */
    const spriteSize: Kind -> Size
    const bulletSize: Kind -> Size
    var enemies: seq<Enemy>
    var projectileEnemies: seq<ProjectileEnemy>
    var fluidEnemies: seq<FluidEnemy>
    /** The global wave number. */
    var wave: int
    var running: bool

    /** A run starts with empty lists at the current global wave number. */
    constructor (player: Player, counters: KillCounters, wave: int, spriteSize: Kind -> Size, bulletSize: Kind -> Size)
      ensures this.player == player && this.counters == counters && this.wave == wave
      ensures this.spriteSize == spriteSize && this.bulletSize == bulletSize
      ensures enemies == [] && projectileEnemies == [] && fluidEnemies == [] && running
    {
      this.player, this.counters, this.wave := player, counters, wave;
      this.spriteSize, this.bulletSize := spriteSize, bulletSize;
      enemies, projectileEnemies, fluidEnemies := [], [], [];
      running := true;
    }

    function State(): RunState
      reads this, counters
    {
      RunState(wave, counters.enemiesKilled, counters.projectileEnemiesKilled, running)
    }

    predicate AllEmpty()
      reads this
    {
      enemies == [] && projectileEnemies == [] && fluidEnemies == []
    }

    /** e is a freshly constructed melee enemy of archetype s.kind standing at s.pos. */
    predicate MeleeAt(e: Enemy, s: Spawn)
      reads e
    {
      var p := ParamsOf(s.kind);
      && e.Bounds() == Rect(s.pos.x, s.pos.y, spriteSize(s.kind).w, spriteSize(s.kind).h)
      && e.health == p.health && e.speed == p.speed && e.damage == p.damage && e.attackCooldown == p.cooldown
      && e.attackTimer == 0 && e.splatTimer == 0 && e.hitPosition == None && !e.isDestroyed && e.facing == Left
    }

    /** e is a freshly constructed ranged enemy of archetype s.kind, moving at its bullet speed. */
    predicate RangedAt(e: ProjectileEnemy, s: Spawn)
      reads e, e.projectiles
    {
      var p := ParamsOf(s.kind);
      && e.Bounds() == Rect(s.pos.x, s.pos.y, spriteSize(s.kind).w, spriteSize(s.kind).h)
      && e.health == p.health && e.speed == p.bulletSpeed && e.damage == p.damage && e.attackCooldown == p.cooldown
      && e.projectileW == bulletSize(s.kind).w && e.projectileH == bulletSize(s.kind).h
      && e.attackTimer == 0 && e.hitPosition == None && !e.isDestroyed && e.facing == Left
      && e.projectiles.members == []
    }

    /** f is a freshly constructed fluid enemy of archetype s.kind with an unset flame. */
    predicate FluidAt(f: FluidEnemy, s: Spawn)
      reads f, f.base
    {
      var p := ParamsOf(s.kind);
      && f.base.Bounds() == Rect(s.pos.x, s.pos.y, spriteSize(s.kind).w, spriteSize(s.kind).h)
      && f.base.health == p.health && f.base.speed == p.speed && f.base.damage == p.damage
      && f.base.attackCooldown == p.cooldown && f.flameDuration == p.flameDuration && f.flameTimer == 0
      && f.base.attackTimer == 0 && f.base.splatTimer == 0 && f.base.hitPosition == None
      && !f.base.isDestroyed && f.base.facing == Left
    }

    predicate MeleeSpawned(es: seq<Enemy>, plan: seq<Spawn>)
      reads es
    {
      |es| == |plan| && forall i :: 0 <= i < |es| ==> MeleeAt(es[i], plan[i])
    }

    predicate RangedSpawned(es: seq<ProjectileEnemy>, plan: seq<Spawn>)
      reads es, set e | e in es :: e.projectiles
    {
      |es| == |plan| && forall i :: 0 <= i < |es| ==> RangedAt(es[i], plan[i])
    }

    predicate FluidSpawned(fs: seq<FluidEnemy>, plan: seq<Spawn>)
      reads fs, set f | f in fs :: f.base
    {
      |fs| == |plan| && forall i :: 0 <= i < |fs| ==> FluidAt(fs[i], plan[i])
    }

    /** One `for i in range(n)` loop creating melee enemies of archetype k, appended in order. */
    method SpawnMelee(k: Kind, n: int) returns (added: seq<Enemy>)
      modifies this`enemies
      ensures enemies == old(enemies) + added
      ensures MeleeSpawned(added, Instances(k, RangeLen(n)))
      ensures forall e :: e in added ==> fresh(e)
    {
      added := [];
      var i := 0;
      while i < n
        invariant 0 <= i <= RangeLen(n)
        invariant enemies == old(enemies) + added
        invariant |added| == i
        invariant forall j :: 0 <= j < i ==> MeleeAt(added[j], Instances(k, i)[j])
        invariant forall e :: e in added ==> fresh(e)
      {
        var e := NewMelee(k, i);
        enemies := enemies + [e];
        added := added + [e];
        i := i + 1;
      }
    }

    /** The body of one melee loop: instance i of archetype k. */
    method NewMelee(k: Kind, i: nat) returns (e: Enemy)
      ensures fresh(e)
      ensures MeleeAt(e, Spawn(k, Point(ParamsOf(k).offset * (i + 1), ParamsOf(k).offset * (i + 1))))
    {
      var p, z := ParamsOf(k), spriteSize(k);
      var c := p.offset * (i + 1);
      e := new Enemy(c, c, p.health, p.speed, z.w, z.h, p.damage, p.cooldown);
    }

    /** One loop creating ranged enemies of archetype k. */
    method SpawnRanged(k: Kind, n: int) returns (added: seq<ProjectileEnemy>)
      modifies this`projectileEnemies
      ensures projectileEnemies == old(projectileEnemies) + added
      ensures RangedSpawned(added, Instances(k, RangeLen(n)))
      ensures forall e :: e in added ==> fresh(e) && fresh(e.projectiles)
    {
      added := [];
      var i := 0;
      while i < n
        invariant 0 <= i <= RangeLen(n)
        invariant projectileEnemies == old(projectileEnemies) + added
        invariant |added| == i
        invariant forall j :: 0 <= j < i ==> RangedAt(added[j], Instances(k, i)[j])
        invariant forall e :: e in added ==> fresh(e) && fresh(e.projectiles)
      {
        var e := NewRanged(k, i);
        projectileEnemies := projectileEnemies + [e];
        added := added + [e];
        i := i + 1;
      }
    }

    /** The body of one ranged loop: instance i of archetype k. */
    method NewRanged(k: Kind, i: nat) returns (e: ProjectileEnemy)
      ensures fresh(e) && fresh(e.projectiles)
      ensures RangedAt(e, Spawn(k, Point(ParamsOf(k).offset * (i + 1), ParamsOf(k).offset * (i + 1))))
    {
      var p, z, b := ParamsOf(k), spriteSize(k), bulletSize(k);
      var c := p.offset * (i + 1);
      e := new ProjectileEnemy(c, c, p.health, p.speed, z.w, z.h, p.damage, p.cooldown, b.w, b.h, p.bulletSpeed);
    }

    /** One loop creating fluid enemies of archetype k. */
    method SpawnFluid(k: Kind, n: int) returns (added: seq<FluidEnemy>)
      modifies this`fluidEnemies
      ensures fluidEnemies == old(fluidEnemies) + added
      ensures FluidSpawned(added, Instances(k, RangeLen(n)))
      ensures forall f :: f in added ==> fresh(f) && fresh(f.base)
    {
      added := [];
      var i := 0;
      while i < n
        invariant 0 <= i <= RangeLen(n)
        invariant fluidEnemies == old(fluidEnemies) + added
        invariant |added| == i
        invariant forall j :: 0 <= j < i ==> FluidAt(added[j], Instances(k, i)[j])
        invariant forall f :: f in added ==> fresh(f) && fresh(f.base)
      {
        var f := NewFluid(k, i);
        fluidEnemies := fluidEnemies + [f];
        added := added + [f];
        i := i + 1;
      }
    }

    /** The body of one fluid loop: instance i of archetype k. */
    method NewFluid(k: Kind, i: nat) returns (f: FluidEnemy)
      ensures fresh(f) && fresh(f.base)
      ensures FluidAt(f, Spawn(k, Point(ParamsOf(k).offset * (i + 1), ParamsOf(k).offset * (i + 1))))
    {
      var p, z := ParamsOf(k), spriteSize(k);
      var c := p.offset * (i + 1);
      f := new FluidEnemy(c, c, p.health, p.speed, z.w, z.h, p.damage, p.cooldown, p.flameDuration);
    }

    /**
     * `spawn_wave(w)`: the stage's loops in order, each appending to its list;
     * the lists keep what they held, and waves from 18 on add nothing.
     */
    method SpawnWave(w: int) returns (m: seq<Enemy>, r: seq<ProjectileEnemy>, f: seq<FluidEnemy>)
      modifies this`enemies, this`projectileEnemies, this`fluidEnemies
      ensures enemies == old(enemies) + m && MeleeSpawned(m, MeleeSpawns(w))
      ensures projectileEnemies == old(projectileEnemies) + r && RangedSpawned(r, RangedSpawns(w))
      ensures fluidEnemies == old(fluidEnemies) + f && FluidSpawned(f, FluidSpawns(w))
    {
      if w <= 8 {
        m, r, f := SpawnStageOne(w);
      } else if w <= 13 && w > 8 {
        m, r, f := SpawnStageTwo(w);
      } else if w <= 17 && w > 13 {
        m, r, f := SpawnStageThree(w);
      } else {
        m, r, f := [], [], [];
      }
    }

    /** Stage one: the melee loop, then the regular, grunt and elite loops. */
    method SpawnStageOne(w: int) returns (m: seq<Enemy>, r: seq<ProjectileEnemy>, f: seq<FluidEnemy>)
      requires w <= 8
      modifies this`enemies, this`projectileEnemies, this`fluidEnemies
      ensures enemies == old(enemies) + m && MeleeSpawned(m, MeleeSpawns(w))
      ensures projectileEnemies == old(projectileEnemies) + r && RangedSpawned(r, RangedSpawns(w))
      ensures fluidEnemies == old(fluidEnemies) + f && FluidSpawned(f, FluidSpawns(w))
    {
      m := SpawnMelee(Melee, w + 3);
      r := SpawnStageOneRanged(w);
      f := [];
      StageOnePlan(w);
    }

    method SpawnStageOneRanged(w: int) returns (r: seq<ProjectileEnemy>)
      requires w <= 8
      modifies this`projectileEnemies
      ensures projectileEnemies == old(projectileEnemies) + r && RangedSpawned(r, RangedSpawns(w))
    {
      ghost var p1, p2, p3 := Instances(Regular, RangeLen(w + 2)), Instances(Grunt, RangeLen(w - 3)), Instances(Elite, RangeLen(w - 5));
      var r1 := SpawnRanged(Regular, w + 2);
      var r2 := SpawnRanged(Grunt, w - 3);
      var r3 := SpawnRanged(Elite, w - 5);
      r := r1 + r2 + r3;
      assert projectileEnemies == old(projectileEnemies) + r by {
        assert projectileEnemies == old(projectileEnemies) + r1 + r2 + r3;
        ConcatAssoc(old(projectileEnemies), r1, r2);
        ConcatAssoc(old(projectileEnemies), r1 + r2, r3);
      }
      RangedJoin(r1, r2, p1, p2);
      RangedJoin(r1 + r2, r3, p1 + p2, p3);
      StageOnePlan(w);
    }

    /** Stage two: the worker loop, then the two hazmat loops. */
    method SpawnStageTwo(w: int) returns (m: seq<Enemy>, r: seq<ProjectileEnemy>, f: seq<FluidEnemy>)
      requires 8 < w <= 13
      modifies this`enemies, this`projectileEnemies, this`fluidEnemies
      ensures enemies == old(enemies) + m && MeleeSpawned(m, MeleeSpawns(w))
      ensures projectileEnemies == old(projectileEnemies) + r && RangedSpawned(r, RangedSpawns(w))
      ensures fluidEnemies == old(fluidEnemies) + f && FluidSpawned(f, FluidSpawns(w))
    {
      StageTwoPlan(w);
      f := SpawnFluid(Worker, w * 3 - 20);
      assert FluidSpawned(f, FluidSpawns(w));
      r := SpawnStageTwoRanged(w);
      m := [];
    }

    method SpawnStageTwoRanged(w: int) returns (r: seq<ProjectileEnemy>)
      requires 8 < w <= 13
      modifies this`projectileEnemies
      ensures projectileEnemies == old(projectileEnemies) + r && RangedSpawned(r, RangedSpawns(w))
    {
      ghost var p1, p2 := Instances(Hazmat, RangeLen(w + 3)), Instances(HazmatTwo, RangeLen(w - 5));
      var r1 := SpawnRanged(Hazmat, w + 3);
      var r2 := SpawnRanged(HazmatTwo, w - 5);
      r := r1 + r2;
      assert projectileEnemies == old(projectileEnemies) + r by {
        assert projectileEnemies == old(projectileEnemies) + r1 + r2;
        ConcatAssoc(old(projectileEnemies), r1, r2);
      }
      RangedJoin(r1, r2, p1, p2);
      StageTwoPlan(w);
    }

    /** Stage three: the soldier, commander, suppressor and charger loops. */
    method SpawnStageThree(w: int) returns (m: seq<Enemy>, r: seq<ProjectileEnemy>, f: seq<FluidEnemy>)
      requires 13 < w <= 17
      modifies this`enemies, this`projectileEnemies, this`fluidEnemies
      ensures enemies == old(enemies) + m && MeleeSpawned(m, MeleeSpawns(w))
      ensures projectileEnemies == old(projectileEnemies) + r && RangedSpawned(r, RangedSpawns(w))
      ensures fluidEnemies == old(fluidEnemies) + f && FluidSpawned(f, FluidSpawns(w))
    {
      r := SpawnStageThreeRanged(w);
      m, f := [], [];
      StageThreePlan(w);
    }

    method SpawnStageThreeRanged(w: int) returns (r: seq<ProjectileEnemy>)
      requires 13 < w <= 17
      modifies this`projectileEnemies
      ensures projectileEnemies == old(projectileEnemies) + r && RangedSpawned(r, RangedSpawns(w))
    {
      ghost var p1, p2 := Instances(QzSoldier, RangeLen(w - 5)), Instances(QzCommander, RangeLen(w - 8));
      ghost var p3, p4 := Instances(QzSuppressor, RangeLen(w - 7)), Instances(QzCharger, RangeLen(w - 8));
      var r1 := SpawnRanged(QzSoldier, w - 5);
      var r2 := SpawnRanged(QzCommander, w - 8);
      var r3 := SpawnRanged(QzSuppressor, w - 7);
      var r4 := SpawnRanged(QzCharger, w - 8);
      r := r1 + r2 + r3 + r4;
      assert projectileEnemies == old(projectileEnemies) + r by {
        assert projectileEnemies == old(projectileEnemies) + r1 + r2 + r3 + r4;
        ConcatAssoc(old(projectileEnemies), r1, r2);
        ConcatAssoc(old(projectileEnemies), r1 + r2, r3);
        ConcatAssoc(old(projectileEnemies), r1 + r2 + r3, r4);
      }
      RangedJoin(r1, r2, p1, p2);
      RangedJoin(r1 + r2, r3, p1 + p2, p3);
      RangedJoin(r1 + r2 + r3, r4, p1 + p2 + p3, p4);
      StageThreePlan(w);
    }

    /** Ranged enemies spawned by two consecutive loops line up with the two loops' spawns. */
    lemma RangedJoin(a: seq<ProjectileEnemy>, b: seq<ProjectileEnemy>, pa: seq<Spawn>, pb: seq<Spawn>)
      requires RangedSpawned(a, pa) && RangedSpawned(b, pb)
      ensures RangedSpawned(a + b, pa + pb)
    {
      forall i | 0 <= i < |a + b|
        ensures RangedAt((a + b)[i], (pa + pb)[i])
      {
        if i >= |a| {
          assert (a + b)[i] == b[i - |a|] && (pa + pb)[i] == pb[i - |a|];
        }
      }
    }

    /**
     * The boundary check: the flag-driven step taken once more from the
     * player's position, then each coordinate clamped to the screen.
     */
    method ClampPlayer()
      modifies player`x, player`y
      ensures var n := Steered(old(Point(player.x, player.y)), player.KeyState(), player.playerSpeed);
        player.x == Clamp(n.x, 0, Width - player.w) && player.y == Clamp(n.y, 0, Height - player.h)
      ensures player.w <= Width ==> 0 <= player.x <= Width - player.w
      ensures player.h <= Height ==> 0 <= player.y <= Height - player.h
    {
      var nx, ny := player.x, player.y;
      if player.movingLeft { nx := nx - player.playerSpeed; }
      if player.movingRight { nx := nx + player.playerSpeed; }
      if player.movingUp { ny := ny - player.playerSpeed; }
      if player.movingDown { ny := ny + player.playerSpeed; }
      var mx := if nx < 0 then 0 else nx;
      var my := if ny < 0 then 0 else ny;
      player.x := if mx < Width - player.w then mx else Width - player.w;
      player.y := if my < Height - player.h then my else Height - player.h;
    }

    /**
     * The end of a frame: the defeat check, which ends the frame, and otherwise,
     * once all three lists are empty, victory after the last wave (the wave
     * number goes to -1), the stage clears, the advance of the wave number and
     * the spawn of the new wave.
     */
    method EndFrame() returns (m: seq<Enemy>, r: seq<ProjectileEnemy>, f: seq<FluidEnemy>)
      modifies this`wave, this`running, this`enemies, this`projectileEnemies, this`fluidEnemies, counters
      ensures var fe := Frame(old(State()), old(player.IsDestroyed()), old(AllEmpty()));
        && State() == fe.state
        && enemies == old(enemies) + m && projectileEnemies == old(projectileEnemies) + r && fluidEnemies == old(fluidEnemies) + f
        && (fe.spawned.None? ==> m == [] && r == [] && f == [])
        && (fe.spawned.Some? ==>
              MeleeSpawned(m, MeleeSpawns(fe.spawned.value)) && RangedSpawned(r, RangedSpawns(fe.spawned.value)) &&
              FluidSpawned(f, FluidSpawns(fe.spawned.value)))
    {
      m, r, f := [], [], [];
      if player.IsDestroyed() {
        if wave < 18 {
          counters.Reset();
          wave := 0;
        }
        running := false;
        return;
      }
      if enemies == [] && projectileEnemies == [] && fluidEnemies == [] {
        if wave == LastWave {
          counters.Reset();
          wave := -1;
          running := false;
        }
        if wave == 9 {
          projectileEnemies := [];
          enemies := [];
        }
        if wave == 13 {
          projectileEnemies := [];
          enemies := [];
        }
        if wave == 18 {
          projectileEnemies := [];
          fluidEnemies := [];
          enemies := [];
        }
        wave := wave + 1;
        m, r, f := SpawnWave(wave);
      }
    }
  }
}
