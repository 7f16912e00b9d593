/** Small value types shared by the whole model. */
module Options {
  datatype Option<T> = None | Some(value: T)
}

/**
 * Integer plane geometry: points, pygame-style rectangles, the rectangle
 * overlap test (`colliderect`), the per-axis push-out an enemy uses to avoid
 * another enemy, the avoidance pass over all other enemies, the facing rule and
 * the screen clamp.
 */
module Geometry {
  datatype Point = Point(x: int, y: int)

  /** Which of the two sprite variants (left image, right image) is shown. */
  datatype Facing = Left | Right

  /** A rectangle given by its top-left corner and a non-negative size. */
  datatype Rect = Rect(x: int, y: int, w: nat, h: nat) {
    function Right(): int { x + w }
    function Bottom(): int { y + h }
    /** pygame's `center`: the size is halved with floor division. */
    function Center(): Point { Point(x + w / 2, y + h / 2) }
    function MovedBy(dx: int, dy: int): Rect { Rect(x + dx, y + dy, w, h) }
  }

  /** The rectangle of size w x h whose `center` is c (pygame's `get_rect(center=c)`). */
  function CenteredAt(c: Point, w: nat, h: nat): (r: Rect)
    ensures r.w == w && r.h == h
    ensures r.Center() == c
  {
    Rect(c.x - w / 2, c.y - h / 2, w, h)
  }

  /** The half-open spans [a, a + aw) and [b, b + bw) share a point. */
  predicate SpanOverlap(a: int, aw: nat, b: int, bw: nat) {
    0 < aw && 0 < bw && a < b + bw && b < a + aw
  }

  /** `r.colliderect(s)`: the two rectangles share an interior point. */
  predicate Overlaps(r: Rect, s: Rect) {
    SpanOverlap(r.x, r.w, s.x, s.w) && SpanOverlap(r.y, r.h, s.y, s.h)
  }

  lemma OverlapsSymmetric(r: Rect, s: Rect)
    ensures Overlaps(r, s) <==> Overlaps(s, r)
  {
  }

  /** Squared Euclidean distance; the source compares square roots, the model compares squares. */
  function DistSq(p: Point, q: Point): (d: nat)
    ensures d == 0 <==> p == q
  {
    var dx := p.x - q.x;
    var dy := p.y - q.y;
    assert dx * dx >= 0 && dy * dy >= 0;
    assert dx * dx == 0 <==> dx == 0;
    assert dy * dy == 0 <==> dy == 0;
    dx * dx + dy * dy
  }

  /**
   * `sqrt(DistSq(p, q)) <= limit` for a non-negative limit: the disc of radius
   * `limit` around q, which holds the diamond |dx| + |dy| <= limit and lies in
   * the square |dx|, |dy| <= limit.
   */
  function WithinDistance(p: Point, q: Point, limit: nat): (b: bool)
    ensures Abs(p.x - q.x) + Abs(p.y - q.y) <= limit ==> b
    ensures b ==> Abs(p.x - q.x) <= limit && Abs(p.y - q.y) <= limit
  {
    SquareBounds(p.x - q.x, p.y - q.y, limit);
    DistSq(p, q) <= limit * limit
  }

  function Abs(v: int): nat {
    if v < 0 then -v else v
  }

  lemma SquareMono(a: nat, b: nat)
    requires a <= b
    ensures a * a <= b * b
  {
    assert a * a <= a * b;
    assert a * b <= b * b;
  }

  /** A coordinate difference beyond the limit makes its square alone exceed the limit's square. */
  lemma SquareExceeds(a: nat, limit: nat)
    requires a > limit
    ensures a * a > limit * limit
  {
    SquareMono(limit + 1, a);
  }

  /** A sum of two squares bounds each square, and a bound on |dx| + |dy| bounds the sum. */
  lemma SquareBounds(dx: int, dy: int, limit: nat)
    ensures dx * dx + dy * dy <= limit * limit ==> Abs(dx) <= limit && Abs(dy) <= limit
    ensures Abs(dx) + Abs(dy) <= limit ==> dx * dx + dy * dy <= limit * limit
  {
    var a, b := Abs(dx), Abs(dy);
    assert dx * dx == a * a && dy * dy == b * b;
    if a > limit {
      SquareExceeds(a, limit);
    }
    if b > limit {
      SquareExceeds(b, limit);
    }
    if a + b <= limit {
      SquareMono(a + b, limit);
      SumSquare(a, b);
    }
  }

  lemma SumSquare(a: nat, b: nat)
    ensures a * a + b * b <= (a + b) * (a + b)
  {
    assert (a + b) * (a + b) == a * a + 2 * (a * b) + b * b;
  }

  /**
   * One axis of `Enemy.avoid_overlap`: a coordinate c of a span of length size
   * is pushed out of the obstacle span [lo, lo + len).
   */
  function PushOut(c: int, size: nat, lo: int, len: nat): (r: int)
    ensures c < lo ==> r == lo - size
    ensures lo <= c && c > lo + len - size ==> r == lo + len
    ensures lo <= c <= lo + len - size ==> r == c
    ensures c < lo || c > lo + len - size ==> !SpanOverlap(r, size, lo, len)
  {
    if c < lo then lo - size
    else if c > lo + len - size then lo + len
    else c
  }

  /**
   * `Enemy.avoid_overlap(new_x, new_y, other_rect)` for an enemy of size w x h:
   * each axis independently. Whenever it moves the candidate at all, the moved
   * rectangle no longer overlaps the obstacle.
   */
  function AvoidOverlap(p: Point, w: nat, h: nat, other: Rect): (r: Point)
    ensures r.x == PushOut(p.x, w, other.x, other.w)
    ensures r.y == PushOut(p.y, h, other.y, other.h)
    ensures r != p ==> !Overlaps(Rect(r.x, r.y, w, h), other)
    ensures other.x <= p.x <= other.Right() - w && other.y <= p.y <= other.Bottom() - h ==> r == p
  {
    Point(PushOut(p.x, w, other.x, other.w), PushOut(p.y, h, other.y, other.h))
  }

  /**
   * The avoidance pass of `Enemy.move_towards`: walk the list of enemies in
   * order, skipping the entry at index `skip` (the moving enemy itself), and
   * push the candidate out of every enemy it overlaps at that moment.
   */
  function Resolve(p: Point, w: nat, h: nat, others: seq<Rect>, skip: int): Point
    decreases |others|
  {
    if others == [] then p
    else
      var p' := if skip != 0 && Overlaps(Rect(p.x, p.y, w, h), others[0])
                then AvoidOverlap(p, w, h, others[0]) else p;
      Resolve(p', w, h, others[1..], skip - 1)
  }

  /**
   * The avoidance pass only ever moves a coordinate flush against an edge of
   * some other enemy: each coordinate of the result is the candidate's own or
   * sits just outside one of the rectangles.
   */
  lemma {:induction false} ResolveEdges(p: Point, w: nat, h: nat, others: seq<Rect>, skip: int)
    ensures var r := Resolve(p, w, h, others, skip);
      r.x == p.x || exists i :: 0 <= i < |others| && (r.x == others[i].x - w || r.x == others[i].Right())
    ensures var r := Resolve(p, w, h, others, skip);
      r.y == p.y || exists i :: 0 <= i < |others| && (r.y == others[i].y - h || r.y == others[i].Bottom())
    decreases |others|
  {
    if others != [] {
      var p' := if skip != 0 && Overlaps(Rect(p.x, p.y, w, h), others[0])
                then AvoidOverlap(p, w, h, others[0]) else p;
      ResolveEdges(p', w, h, others[1..], skip - 1);
      assert forall i :: 0 <= i < |others[1..]| ==> others[1..][i] == others[i + 1];
    }
  }

  /** A candidate that touches no other enemy is left where it is. */
  lemma {:induction false} ResolveWithoutContact(p: Point, w: nat, h: nat, others: seq<Rect>, skip: int)
    requires forall i :: 0 <= i < |others| && i != skip ==> !Overlaps(Rect(p.x, p.y, w, h), others[i])
    ensures Resolve(p, w, h, others, skip) == p
    decreases |others|
  {
    if others != [] {
      forall i | 0 <= i < |others[1..]| && i != skip - 1
        ensures !Overlaps(Rect(p.x, p.y, w, h), others[1..][i])
      {
        assert others[1..][i] == others[i + 1];
      }
      ResolveWithoutContact(p, w, h, others[1..], skip - 1);
    }
  }

  /** The entry at the skipped index never influences the result. */
  lemma {:induction false} ResolveIgnoresSelf(p: Point, w: nat, h: nat, others: seq<Rect>, skip: nat, r: Rect)
    requires skip < |others|
    ensures Resolve(p, w, h, others[skip := r], skip) == Resolve(p, w, h, others, skip)
    decreases |others|
  {
    if skip > 0 {
      assert others[skip := r][1..] == others[1..][skip - 1 := r];
      ResolveIgnoresSelf(if Overlaps(Rect(p.x, p.y, w, h), others[0]) then AvoidOverlap(p, w, h, others[0]) else p,
                         w, h, others[1..], skip - 1, r);
    } else {
      assert others[skip := r][1..] == others[1..];
    }
  }

  /** The facing rule of both `move_towards`: only the sign of the horizontal direction matters. */
  function Turn(f: Facing, dx: int): (r: Facing)
    ensures dx > 0 ==> r == Right
    ensures dx < 0 ==> r == Left
    ensures dx == 0 ==> r == f
  {
    if dx > 0 then Right else if dx < 0 then Left else f
  }

  /** Where an enemy stands and which way it faces. */
  datatype Pose = Pose(pos: Point, facing: Facing)

  /**
   * `move_towards(target)` for an enemy of size w x h at `pose`. `step` is the
   * unit direction towards the target scaled by the speed, computed outside the
   * model; the move itself, the avoidance of `others` and the facing rule are
   * modelled.
   */
  function Approach(pose: Pose, target: Point, step: Point, w: nat, h: nat, others: seq<Rect>, skip: int): (r: Pose)
    ensures target == pose.pos ==> r == pose
    ensures target != pose.pos ==>
      r.pos == Resolve(Point(pose.pos.x + step.x, pose.pos.y + step.y), w, h, others, skip)
    ensures target != pose.pos ==> r.facing == Turn(pose.facing, target.x - pose.pos.x)
    ensures target != pose.pos && target.x > pose.pos.x ==> r.facing == Right
    ensures target != pose.pos && target.x < pose.pos.x ==> r.facing == Left
    ensures target.x == pose.pos.x ==> r.facing == pose.facing
  {
    if target == pose.pos then pose
    else
      Pose(Resolve(Point(pose.pos.x + step.x, pose.pos.y + step.y), w, h, others, skip),
           Turn(pose.facing, target.x - pose.pos.x))
  }

  /** `min(max(v, lo), hi)`, the boundary check of the game loop. */
  function Clamp(v: int, lo: int, hi: int): (r: int)
    ensures r <= hi
    ensures lo <= hi ==> lo <= r
    ensures lo <= v <= hi ==> r == v
    ensures v < lo && lo <= hi ==> r == lo
    ensures v > hi ==> r == hi
  {
    var m := if v < lo then lo else v;
    if m < hi then m else hi
  }
}
