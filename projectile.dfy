/**
 * Projectiles and the sprite groups that own them. A projectile moves by a
 * velocity fixed when it is fired; a group is an insertion-ordered collection
 * holding each projectile at most once.
 */
module Projectiles {
  import opened Options
  import opened Geometry

  class Projectile {
    var x: int
    var y: int
    const w: nat
    const h: nat
    /** The velocity is a constant: nothing can change it after construction. */
    const vx: int
    const vy: int
    const damage: int

    function Bounds(): Rect
      reads this
    {
      Rect(x, y, w, h)
    }

    constructor (rect: Rect, velocity: Point, damage: int)
      ensures Bounds() == rect
      ensures vx == velocity.x && vy == velocity.y && this.damage == damage
    {
      x, y, w, h := rect.x, rect.y, rect.w, rect.h;
      vx, vy := velocity.x, velocity.y;
      this.damage := damage;
    }

    /** One frame of flight: the rectangle moves by exactly the velocity. */
    method Update()
      modifies this`x, this`y
      ensures Bounds() == old(Bounds()).MovedBy(vx, vy)
    {
      x := x + vx;
      y := y + vy;
    }

    /** The damage handed over on impact: always the damage given at construction. */
    function GetDamage(): (d: int)
      ensures d == damage
    {
      damage
    }

    /** Leave the owning group when this projectile overlaps the target; otherwise do nothing. */
    method HandleCollision(target: Rect, group: ProjectileGroup)
      requires group.Valid()
      modifies group`members
      ensures group.Valid()
      ensures Overlaps(Bounds(), target) ==> group.members == Without(old(group.members), this)
      ensures !Overlaps(Bounds(), target) ==> group.members == old(group.members)
    {
      if Overlaps(Bounds(), target) {
        group.Remove(this);
      }
    }
  }

  /** The position of a projectile with velocity (vx, vy) after n frames of flight. */
  function Flown(r: Rect, vx: int, vy: int, n: nat): Rect {
    if n == 0 then r else Flown(r, vx, vy, n - 1).MovedBy(vx, vy)
  }

  /** No acceleration and no damping: after n frames the projectile is n velocities away. */
  lemma {:induction false} FlownClosedForm(r: Rect, vx: int, vy: int, n: nat)
    ensures Flown(r, vx, vy, n) == Rect(r.x + n * vx, r.y + n * vy, r.w, r.h)
  {
    if n > 0 {
      FlownClosedForm(r, vx, vy, n - 1);
      assert (n - 1) * vx + vx == n * vx;
      assert (n - 1) * vy + vy == n * vy;
    }
  }

  /** Positions i and j of s hold different elements. */
  ghost predicate Apart<T>(s: seq<T>, i: nat, j: nat)
    requires i < |s| && j < |s|
  {
    s[i] != s[j]
  }

  /**
   * No element occurs twice. Stated through `Apart`, so that the verifier
   * compares two positions only where a proof names them.
   */
  ghost predicate Distinct<T>(s: seq<T>) {
    forall i, j :: 0 <= i < j < |s| ==> Apart(s, i, j)
  }

  /** Two different positions of a sequence without repetitions hold different elements. */
  lemma DistinctAt<T>(s: seq<T>, a: nat, b: nat)
    requires Distinct(s) && a < |s| && b < |s| && a != b
    ensures s[a] != s[b]
  {
    if a < b {
      assert Apart(s, a, b);
    } else {
      assert Apart(s, b, a);
    }
  }

  /** The sequence with every occurrence of p taken out (a group's `remove`, a sprite's `kill`). */
  function Without<T(==)>(s: seq<T>, p: T): (r: seq<T>)
    ensures p !in s ==> r == s
    ensures |r| <= |s|
  {
    if s == [] then []
    else if s[0] == p then Without(s[1..], p)
    else [s[0]] + Without(s[1..], p)
  }

  /** What is left is everything but p. */
  lemma {:induction false} WithoutContents<T>(s: seq<T>, p: T)
    ensures forall i :: 0 <= i < |Without(s, p)| ==> Without(s, p)[i] in s && Without(s, p)[i] != p
    ensures forall i :: 0 <= i < |s| && s[i] != p ==> s[i] in Without(s, p)
  {
    if s != [] {
      WithoutContents(s[1..], p);
      assert forall i :: 0 <= i < |s| - 1 ==> s[1..][i] == s[i + 1];
    }
  }

  /** In a sequence without repetitions, removing the element at index i removes just that position. */
  lemma {:induction false} WithoutDistinct<T>(s: seq<T>, i: nat)
    requires Distinct(s) && i < |s|
    ensures Without(s, s[i]) == s[..i] + s[i + 1..]
    ensures Distinct(s[..i] + s[i + 1..])
  {
    if i == 0 {
      forall k | 1 <= k < |s| ensures s[k] != s[0] {
        assert Apart(s, 0, k);
      }
      assert s[0] !in s[1..];
      assert s[..0] + s[1..] == s[1..];
    } else {
      var t := s[1..];
      forall a, b | 0 <= a < b < |t| ensures Apart(t, a, b) {
        assert Apart(s, a + 1, b + 1);
      }
      assert t[i - 1] == s[i];
      assert Apart(s, 0, i);
      WithoutDistinct(t, i - 1);
      assert Without(s, s[i]) == [s[0]] + (t[..i - 1] + t[i..]);
      assert [s[0]] + (t[..i - 1] + t[i..]) == s[..i] + s[i + 1..];
    }
    DeleteKeepsDistinct(s, i);
  }

  lemma DeleteKeepsDistinct<T>(s: seq<T>, i: nat)
    requires Distinct(s) && i < |s|
    ensures Distinct(s[..i] + s[i + 1..])
  {
    var t := s[..i] + s[i + 1..];
    forall a, b | 0 <= a < b < |t| ensures Apart(t, a, b) {
      var a' := if a < i then a else a + 1;
      var b' := if b < i then b else b + 1;
      assert t[a] == s[a'] && t[b] == s[b'] && a' < b';
      assert Apart(s, a', b');
    }
  }

  /**
   * The index of the first rectangle in iteration order that overlaps `r`, if
   * any: the projectile an enemy's `check_collision` consumes.
   */
  function FirstHit(r: Rect, rects: seq<Rect>): (k: Option<nat>)
    ensures k.Some? ==> k.value < |rects| && Overlaps(r, rects[k.value])
    ensures k.Some? ==> forall j :: 0 <= j < k.value ==> !Overlaps(r, rects[j])
    ensures k.None? <==> forall j :: 0 <= j < |rects| ==> !Overlaps(r, rects[j])
  {
    if rects == [] then None
    else if Overlaps(r, rects[0]) then Some(0)
    else match FirstHit(r, rects[1..])
      case None => None
      case Some(k) => Some(k + 1)
  }

  /**
   * The part of an enemy's state that its `check_collision` reads or changes:
   * its rectangle, the player's projectiles, its health, hit marker and
   * destroyed flag, and its kind's kill counter.
   */
  datatype Struck = Struck(bounds: Rect, members: seq<Projectile>, health: int, hitPosition: Option<Point>,
                           isDestroyed: bool, killed: int)

  /**
   * What `check_collision` does to an enemy in state s0 whose group members
   * have the rectangles `rects0`: nothing if none overlaps the enemy;
   * otherwise the first overlapping one leaves the group, its damage is taken
   * and marked at its centre, and a kill is counted when health drops to 0 or
   * below.
   */
  predicate Consumed(rects0: seq<Rect>, s0: Struck, s: Struck) {
    |s0.members| == |rects0| && s.bounds == s0.bounds &&
    match FirstHit(s0.bounds, rects0)
    case None => s == s0
    case Some(k) =>
      k < |s0.members| &&
      s.members == s0.members[..k] + s0.members[k + 1..] &&
      s.health == s0.health - s0.members[k].damage &&
      s.hitPosition == Some(rects0[k].Center()) &&
      (s.isDestroyed <==> s0.isDestroyed || s.health <= 0) &&
      s.killed == s0.killed + (if s.health <= 0 then 1 else 0)
  }

  /** A ranged enemy's pose and fire timer, with its projectiles and their rectangles. */
  datatype Flight = Flight(pose: Pose, attackTimer: int, members: seq<Projectile>, rects: seq<Rect>)

  /** The rectangles of a sequence of projectiles, in order. */
  function RectsOf(ps: seq<Projectile>): (r: seq<Rect>)
    reads ps
    ensures |r| == |ps|
    ensures forall i :: 0 <= i < |ps| ==> r[i] == ps[i].Bounds()
  {
    seq(|ps|, i reads ps requires 0 <= i < |ps| => ps[i].Bounds())
  }

  /**
   * The elements of `ps`, in order, whose rectangle (the entry of `rs` at the
   * same index) does not overlap `target`.
   */
  function Misses<T>(ps: seq<T>, rs: seq<Rect>, target: Rect): (r: seq<T>)
    requires |ps| == |rs|
    ensures |r| <= |ps|
  {
    if ps == [] then []
    else
      var n := |ps| - 1;
      Misses(ps[..n], rs[..n], target) + (if Overlaps(rs[n], target) then [] else [ps[n]])
  }

  /** Every element is either a miss or a hit. */
  lemma {:induction false} MissesCount<T>(ps: seq<T>, rs: seq<Rect>, target: Rect)
    requires |ps| == |rs|
    ensures |Misses(ps, rs, target)| + HitCount(rs, target) == |ps|
  {
    if ps != [] {
      var n := |ps| - 1;
      MissesCount(ps[..n], rs[..n], target);
    }
  }

  /** How many of the rectangles overlap `target`. */
  function HitCount(rs: seq<Rect>, target: Rect): (n: nat)
    ensures n <= |rs|
  {
    if rs == [] then 0
    else
      var n := |rs| - 1;
      HitCount(rs[..n], target) + (if Overlaps(rs[n], target) then 1 else 0)
  }

  /** No hits exactly when no rectangle overlaps the target. */
  lemma {:induction false} HitCountZero(rs: seq<Rect>, target: Rect)
    ensures HitCount(rs, target) == 0 <==> forall i :: 0 <= i < |rs| ==> !Overlaps(rs[i], target)
  {
    if rs != [] {
      var n := |rs| - 1;
      HitCountZero(rs[..n], target);
      assert forall i :: 0 <= i < n ==> rs[..n][i] == rs[i];
    }
  }

  /** The misses are exactly the elements whose rectangle does not overlap `target`. */
  lemma {:induction false} MissesContents<T>(ps: seq<T>, rs: seq<Rect>, target: Rect)
    requires |ps| == |rs|
    ensures forall x :: x in Misses(ps, rs, target) ==>
      exists i :: 0 <= i < |ps| && ps[i] == x && !Overlaps(rs[i], target)
    ensures forall i :: 0 <= i < |ps| && !Overlaps(rs[i], target) ==> ps[i] in Misses(ps, rs, target)
  {
    if ps != [] {
      var n := |ps| - 1;
      MissesContents(ps[..n], rs[..n], target);
      assert forall i :: 0 <= i < n ==> ps[..n][i] == ps[i] && rs[..n][i] == rs[i];
    }
  }

  /** Extending the prefix by one element extends the misses and the hit count by that element's outcome. */
  lemma PrefixStep<T>(ps: seq<T>, rs: seq<Rect>, i: nat, target: Rect)
    requires |ps| == |rs| && i < |ps|
    ensures Overlaps(rs[i], target) ==> Misses(ps[..i + 1], rs[..i + 1], target) == Misses(ps[..i], rs[..i], target)
    ensures !Overlaps(rs[i], target) ==> Misses(ps[..i + 1], rs[..i + 1], target) == Misses(ps[..i], rs[..i], target) + [ps[i]]
    ensures HitCount(rs[..i + 1], target) == HitCount(rs[..i], target) + (if Overlaps(rs[i], target) then 1 else 0)
  {
    assert ps[..i + 1][..i] == ps[..i];
    assert rs[..i + 1][..i] == rs[..i];
  }

  lemma ShiftOne<T>(a: seq<T>, b: seq<T>, i: nat)
    requires i < |b|
    ensures a + b[i..] == (a + [b[i]]) + b[i + 1..]
  {
    assert b[i..] == [b[i]] + b[i + 1..];
  }

  /**
   * A pygame `sprite.Group` of projectiles: members in insertion order, each at
   * most once.
   */
  class ProjectileGroup {
    var members: seq<Projectile>

    ghost predicate Valid()
      reads this`members
    {
      Distinct(members)
    }

    constructor ()
      ensures members == [] && Valid()
    {
      members := [];
    }

    /** The rectangles of the members, in order. */
    function Bounds(): (r: seq<Rect>)
      reads this, members
      ensures |r| == |members|
      ensures forall i :: 0 <= i < |members| ==> r[i] == members[i].Bounds()
    {
      RectsOf(members)
    }

    /**
     * The search of a `for` loop over the group that stops at the first member
     * whose rectangle overlaps `r`: its index, or nothing when none does.
     */
    method FirstOverlap(r: Rect) returns (k: Option<nat>)
      ensures k == FirstHit(r, Bounds())
    {
      var i := 0;
      while i < |members| && !Overlaps(r, members[i].Bounds())
        invariant 0 <= i <= |members|
        invariant forall j :: 0 <= j < i ==> !Overlaps(r, members[j].Bounds())
      {
        i := i + 1;
      }
      k := if i < |members| then Some(i) else None;
    }

    /** Adding keeps a projectile already in the group where it is. */
    method Add(p: Projectile)
      requires Valid()
      modifies this`members
      ensures Valid()
      ensures members == if p in old(members) then old(members) else old(members) + [p]
    {
      if p !in members {
        forall a, b | 0 <= a < b < |members| + 1 ensures Apart(members + [p], a, b) {
          if b < |members| {
            assert Apart(members, a, b);
          }
        }
        members := members + [p];
      }
    }

    method Remove(p: Projectile)
      requires Valid()
      modifies this`members
      ensures Valid()
      ensures members == Without(old(members), p)
      ensures forall i :: 0 <= i < |old(members)| && old(members)[i] == p ==>
        members == old(members)[..i] + old(members)[i + 1..]
    {
      if p in members {
        var i :| 0 <= i < |members| && members[i] == p;
        WithoutDistinct(members, i);
        forall j | 0 <= j < |members| && members[j] == p ensures j == i {
          if j != i {
            DistinctAt(members, j, i);
          }
        }
      } else {
        assert members == Without(members, p);
      }
      members := Without(members, p);
    }

    /** The group's `update`: every member flies one frame, the membership is unchanged. */
    method UpdateAll()
      requires Valid()
      modifies members
      ensures members == old(members)
      ensures forall i :: 0 <= i < |members| ==> members[i].Bounds() == old(members[i].Bounds()).MovedBy(members[i].vx, members[i].vy)
    {
      var i := 0;
      while i < |members|
        invariant 0 <= i <= |members|
        invariant forall k :: 0 <= k < i ==> members[k].Bounds() == old(members[k].Bounds()).MovedBy(members[k].vx, members[k].vy)
        invariant forall k :: i <= k < |members| ==> members[k].Bounds() == old(members[k].Bounds())
      {
        forall k | 0 <= k < |members| && k != i ensures members[k] != members[i] {
          DistinctAt(members, k, i);
        }
        members[i].Update();
        i := i + 1;
      }
    }
  }
}
