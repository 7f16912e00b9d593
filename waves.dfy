/**
 * The wave plan of `spawn_wave`: which archetypes a wave spawns, how many of
 * each (an affine formula of the wave number per stage, where a negative
 * count spawns nothing, as `range` of a negative number is empty), and where
 * each instance starts (on the diagonal, at multiples of the archetype's
 * offset).
 */
module Waves {
  import opened Geometry
  import opened Timers

  /** The eleven archetypes, in the order `spawn_wave` creates them. */
  datatype Kind =
    | Melee | Regular | Grunt | Elite                     // stage one
    | Worker | Hazmat | HazmatTwo                         // stage two
    | QzSoldier | QzCommander | QzSuppressor | QzCharger  // stage three

  /** Which of the three enemy lists an archetype goes to. */
  datatype Role = MeleeRole | RangedRole | FluidRole

  function RoleOf(k: Kind): Role {
    match k
    case Melee => MeleeRole
    case Worker => FluidRole
    case _ => RangedRole
  }

  /**
   * The constructor arguments of an archetype. Speeds are in tenths of a pixel
   * per frame (the source passes 0.4, 0.7, 1.2, 6.5, 7.5, ...); `bulletSpeed`
   * is used by ranged archetypes only and `flameDuration` by fluid ones.
   */
  datatype Params = Params(health: int, speed: int, damage: int, cooldown: int, offset: nat,
                           bulletSpeed: int, flameDuration: int)

  function ParamsOf(k: Kind): (p: Params)
    ensures p.bulletSpeed > 0 <==> RoleOf(k) == RangedRole
    ensures p.flameDuration > 0 <==> RoleOf(k) == FluidRole
    ensures 100 <= p.offset <= 400 && p.offset % 100 == 0
    ensures p.health > 0 && p.speed > 0 && p.damage > 0 && p.cooldown > 0
  {
    match k
    case Melee        => Params(70, 30, 5, 360, 100, 0, 0)
    case Regular      => Params(100, 7, 8, 60, 200, 65, 0)
    case Grunt        => Params(300, 4, 10, 45, 300, 40, 0)
    case Elite        => Params(200, 12, 20, 30, 400, 80, 0)
    case Worker       => Params(25, 40, 10, 20, 100, 0, 300000)
    case Hazmat       => Params(100, 12, 20, 30, 400, 80, 0)
    case HazmatTwo    => Params(400, 30, 50, 160, 400, 40, 0)
    case QzSoldier    => Params(100, 7, 8, 40, 200, 75, 0)
    case QzCommander  => Params(100, 7, 10, 60, 200, 70, 0)
    case QzSuppressor => Params(300, 4, 8, 45, 300, 50, 0)
    case QzCharger    => Params(200, 12, 3, 5, 400, 40, 0)
  }

  /** One `for i in range(count)` loop of `spawn_wave`. */
  datatype Batch = Batch(kind: Kind, count: int)

  /** The loops `spawn_wave` runs for wave w, in order, with their counts. */
  function Plan(w: int): (r: seq<Batch>)
    ensures r == [] <==> w > 17
    ensures forall i, j :: 0 <= i < j < |r| ==> r[i].kind != r[j].kind
  {
    if w <= 8 then
      [Batch(Melee, w + 3), Batch(Regular, w + 2), Batch(Grunt, w - 3), Batch(Elite, w - 5)]
    else if w <= 13 then
      [Batch(Worker, w * 3 - 20), Batch(Hazmat, w + 3), Batch(HazmatTwo, w - 5)]
    else if w <= 17 then
      [Batch(QzSoldier, w - 5), Batch(QzCommander, w - 8), Batch(QzSuppressor, w - 7), Batch(QzCharger, w - 8)]
    else
      []
  }

  /** The number of iterations of `range(n)`. */
  function RangeLen(n: int): nat {
    if n < 0 then 0 else n
  }

  /** One enemy to create: its archetype and its top-left corner. */
  datatype Spawn = Spawn(kind: Kind, pos: Point)

  /** The first n instances of a loop: instance i starts at (k * (i + 1), k * (i + 1)). */
  function Instances(k: Kind, n: nat): (r: seq<Spawn>)
    ensures |r| == n
  {
    if n == 0 then []
    else
      var c := ParamsOf(k).offset * n;
      Instances(k, n - 1) + [Spawn(k, Point(c, c))]
  }

  function BatchSpawns(b: Batch): seq<Spawn> {
    Instances(b.kind, RangeLen(b.count))
  }

  /** What loop b contributes to list `role`: its instances if its archetype goes there, else nothing. */
  function Share(b: Batch, role: Role): seq<Spawn> {
    if RoleOf(b.kind) == role then BatchSpawns(b) else []
  }

  /** The spawns of the loops in `plan` whose archetype goes to list `role`, in loop order. */
  function RoleSpawns(plan: seq<Batch>, role: Role): seq<Spawn> {
    if plan == [] then []
    else RoleSpawns(plan[..|plan| - 1], role) + Share(plan[|plan| - 1], role)
  }

  function MeleeSpawns(w: int): seq<Spawn> { RoleSpawns(Plan(w), MeleeRole) }
  function RangedSpawns(w: int): seq<Spawn> { RoleSpawns(Plan(w), RangedRole) }
  function FluidSpawns(w: int): seq<Spawn> { RoleSpawns(Plan(w), FluidRole) }

  /** Instance i of a loop is of the loop's archetype and stands on the diagonal at offset * (i + 1). */
  lemma {:induction false} InstancesPositions(k: Kind, n: nat)
    ensures |Instances(k, n)| == n
    ensures forall i :: 0 <= i < n ==>
      Instances(k, n)[i] == Spawn(k, Point(ParamsOf(k).offset * (i + 1), ParamsOf(k).offset * (i + 1)))
  {
    if n > 0 {
      InstancesPositions(k, n - 1);
    }
  }

  /** How many enemies loop b puts in list `role`; counts below zero spawn nothing. */
  function Part(b: Batch, role: Role): nat {
    if RoleOf(b.kind) == role then RangeLen(b.count) else 0
  }

  lemma {:induction false} BatchLength(b: Batch, role: Role)
    ensures |Share(b, role)| == Part(b, role)
  {
    InstancesPositions(b.kind, RangeLen(b.count));
  }

  /** A three-loop plan puts in each list what its loops contribute to it, in loop order. */
  lemma ThreeLoops(a: Batch, b: Batch, c: Batch, role: Role)
    ensures RoleSpawns([a, b, c], role) == Share(a, role) + Share(b, role) + Share(c, role)
    ensures |RoleSpawns([a, b, c], role)| == Part(a, role) + Part(b, role) + Part(c, role)
  {
    assert [a, b, c][..2] == [a, b] && [a, b][..1] == [a] && [a][..0] == [];
    assert RoleSpawns([a, b, c], role) == RoleSpawns([a, b], role) + Share(c, role);
    assert RoleSpawns([a, b], role) == RoleSpawns([a], role) + Share(b, role);
    assert RoleSpawns([a], role) == Share(a, role);
    BatchLength(a, role);
    BatchLength(b, role);
    BatchLength(c, role);
  }

  /** A four-loop plan puts in each list what its loops contribute to it, in loop order. */
  lemma FourLoops(a: Batch, b: Batch, c: Batch, d: Batch, role: Role)
    ensures RoleSpawns([a, b, c, d], role) == Share(a, role) + Share(b, role) + Share(c, role) + Share(d, role)
    ensures |RoleSpawns([a, b, c, d], role)| == Part(a, role) + Part(b, role) + Part(c, role) + Part(d, role)
  {
    assert [a, b, c, d][..3] == [a, b, c];
    assert RoleSpawns([a, b, c, d], role) == RoleSpawns([a, b, c], role) + Share(d, role);
    ThreeLoops(a, b, c, role);
    BatchLength(d, role);
  }

  /** Every spawned enemy belongs to the list it is put in. */
  lemma {:induction false} RoleSpawnsKinds(plan: seq<Batch>, role: Role)
    ensures forall s :: s in RoleSpawns(plan, role) ==> RoleOf(s.kind) == role
  {
    if plan != [] {
      var last := plan[|plan| - 1];
      RoleSpawnsKinds(plan[..|plan| - 1], role);
      InstancesPositions(last.kind, RangeLen(last.count));
    }
  }

  /** The instances of one loop stand on the diagonal at positive multiples of the offset. */
  lemma {:induction false} InstancesOnDiagonal(k: Kind, n: nat)
    ensures forall s :: s in Instances(k, n) ==>
      s.kind == k && s.pos.x == s.pos.y && s.pos.x >= ParamsOf(k).offset && s.pos.x % ParamsOf(k).offset == 0
  {
    if n > 0 {
      InstancesOnDiagonal(k, n - 1);
      DivModUnique(ParamsOf(k).offset * n, ParamsOf(k).offset, n, 0);
    }
  }

  /** Every spawned enemy starts on the diagonal at a positive multiple of its archetype's offset. */
  lemma {:induction false} RoleSpawnsOnDiagonal(plan: seq<Batch>, role: Role)
    ensures forall s :: s in RoleSpawns(plan, role) ==>
      s.pos.x == s.pos.y && s.pos.x >= ParamsOf(s.kind).offset && s.pos.x % ParamsOf(s.kind).offset == 0
  {
    if plan != [] {
      var last := plan[|plan| - 1];
      RoleSpawnsOnDiagonal(plan[..|plan| - 1], role);
      InstancesOnDiagonal(last.kind, RangeLen(last.count));
    }
  }

  /** Stage one's lists, loop by loop. */
  lemma StageOnePlan(w: int)
    requires w <= 8
    ensures MeleeSpawns(w) == BatchSpawns(Batch(Melee, w + 3))
    ensures RangedSpawns(w) ==
      BatchSpawns(Batch(Regular, w + 2)) + BatchSpawns(Batch(Grunt, w - 3)) + BatchSpawns(Batch(Elite, w - 5))
    ensures FluidSpawns(w) == []
  {
    var a, b, c, d := Batch(Melee, w + 3), Batch(Regular, w + 2), Batch(Grunt, w - 3), Batch(Elite, w - 5);
    assert Plan(w) == [a, b, c, d];
    FourLoops(a, b, c, d, MeleeRole);
    assert Share(b, MeleeRole) == [] && Share(c, MeleeRole) == [] && Share(d, MeleeRole) == [];
    assert Share(a, MeleeRole) == BatchSpawns(a);
    assert BatchSpawns(a) + [] + [] + [] == BatchSpawns(a);
    FourLoops(a, b, c, d, RangedRole);
    assert Share(a, RangedRole) == [] && Share(b, RangedRole) == BatchSpawns(b);
    assert Share(c, RangedRole) == BatchSpawns(c) && Share(d, RangedRole) == BatchSpawns(d);
    assert [] + BatchSpawns(b) == BatchSpawns(b);
    FourLoops(a, b, c, d, FluidRole);
    assert Share(a, FluidRole) == [] && Share(b, FluidRole) == [] && Share(c, FluidRole) == [] && Share(d, FluidRole) == [];
  }

  /** Stage two's lists, loop by loop. */
  lemma StageTwoPlan(w: int)
    requires 8 < w <= 13
    ensures MeleeSpawns(w) == []
    ensures RangedSpawns(w) == BatchSpawns(Batch(Hazmat, w + 3)) + BatchSpawns(Batch(HazmatTwo, w - 5))
    ensures FluidSpawns(w) == BatchSpawns(Batch(Worker, w * 3 - 20))
  {
    var a, b, c := Batch(Worker, w * 3 - 20), Batch(Hazmat, w + 3), Batch(HazmatTwo, w - 5);
    assert Plan(w) == [a, b, c];
    ThreeLoops(a, b, c, MeleeRole);
    assert Share(a, MeleeRole) == [] && Share(b, MeleeRole) == [] && Share(c, MeleeRole) == [];
    ThreeLoops(a, b, c, RangedRole);
    assert Share(a, RangedRole) == [] && Share(b, RangedRole) == BatchSpawns(b) && Share(c, RangedRole) == BatchSpawns(c);
    assert [] + BatchSpawns(b) == BatchSpawns(b);
    ThreeLoops(a, b, c, FluidRole);
    assert Share(b, FluidRole) == [] && Share(c, FluidRole) == [];
    assert Share(a, FluidRole) == BatchSpawns(a);
    assert BatchSpawns(a) + [] + [] == BatchSpawns(a);
  }

  /** Stage three's lists, loop by loop. */
  lemma StageThreePlan(w: int)
    requires 13 < w <= 17
    ensures MeleeSpawns(w) == []
    ensures RangedSpawns(w) ==
      BatchSpawns(Batch(QzSoldier, w - 5)) + BatchSpawns(Batch(QzCommander, w - 8)) +
      BatchSpawns(Batch(QzSuppressor, w - 7)) + BatchSpawns(Batch(QzCharger, w - 8))
    ensures FluidSpawns(w) == []
  {
    var p := Plan(w);
    FourLoops(p[0], p[1], p[2], p[3], MeleeRole);
    FourLoops(p[0], p[1], p[2], p[3], RangedRole);
    FourLoops(p[0], p[1], p[2], p[3], FluidRole);
  }

  /** Stage one (waves up to 8): w + 3 melee enemies, three ranged loops, no fluid enemies. */
  lemma StageOneCounts(w: int)
    requires w <= 8
    ensures |MeleeSpawns(w)| == RangeLen(w + 3)
    ensures |RangedSpawns(w)| == RangeLen(w + 2) + RangeLen(w - 3) + RangeLen(w - 5)
    ensures |FluidSpawns(w)| == 0
  {
    var p := Plan(w);
    FourLoops(p[0], p[1], p[2], p[3], MeleeRole);
    FourLoops(p[0], p[1], p[2], p[3], RangedRole);
    FourLoops(p[0], p[1], p[2], p[3], FluidRole);
  }

  /** Stage two (waves 9 to 13): 3w - 20 fluid enemies, two ranged loops, no melee enemies. */
  lemma StageTwoCounts(w: int)
    requires 9 <= w <= 13
    ensures |MeleeSpawns(w)| == 0
    ensures |RangedSpawns(w)| == RangeLen(w + 3) + RangeLen(w - 5)
    ensures |FluidSpawns(w)| == RangeLen(w * 3 - 20)
  {
    var p := Plan(w);
    ThreeLoops(p[0], p[1], p[2], MeleeRole);
    ThreeLoops(p[0], p[1], p[2], RangedRole);
    ThreeLoops(p[0], p[1], p[2], FluidRole);
  }

  /** Stage three (waves 14 to 17): four ranged loops and nothing else. */
  lemma StageThreeCounts(w: int)
    requires 14 <= w <= 17
    ensures |MeleeSpawns(w)| == 0
    ensures |RangedSpawns(w)| == RangeLen(w - 5) + RangeLen(w - 8) + RangeLen(w - 7) + RangeLen(w - 8)
    ensures |FluidSpawns(w)| == 0
  {
    var p := Plan(w);
    FourLoops(p[0], p[1], p[2], p[3], MeleeRole);
    FourLoops(p[0], p[1], p[2], p[3], RangedRole);
    FourLoops(p[0], p[1], p[2], p[3], FluidRole);
  }

  /** Waves from 18 on spawn nothing at all. */
  lemma BeyondLastStage(w: int)
    requires w >= 18
    ensures MeleeSpawns(w) == [] && RangedSpawns(w) == [] && FluidSpawns(w) == []
  {
  }

  /** Wave 0, spawned after a victory: 3 melee and 2 regular ranged enemies. */
  lemma WaveZero()
    ensures |MeleeSpawns(0)| == 3 && |RangedSpawns(0)| == 2 && FluidSpawns(0) == []
    ensures MeleeSpawns(0) == Instances(Melee, 3) && RangedSpawns(0) == Instances(Regular, 2)
  {
    StageOneCounts(0);
    StageOnePlan(0);
  }
}
