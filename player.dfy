/**
 * The player: keyboard-driven movement flags, the facing rule towards the
 * cursor, health with the killed flag, the splat marker shown after a hit and
 * the group of projectiles the player has fired.
 */
module Players {
  import opened Options
  import opened Geometry
  import opened Timers
  import opened Projectiles

  /** The keys the movement code distinguishes; every other key is `OtherKey`. */
  datatype Key = KeyA | KeyD | KeyW | KeyS | OtherKey

  /** The events `handle_movement` looks at; mouse, quit and the rest are `OtherEvent`. */
  datatype Event = KeyDown(key: Key) | KeyUp(key: Key) | OtherEvent

  /** The four movement flags: a moves left, d right, w up, s down. */
  datatype Keys = Keys(left: bool, right: bool, up: bool, down: bool)

  /** The flag a movement key drives (false for `OtherKey`, which drives none). */
  function Flag(k: Keys, key: Key): bool {
    match key
    case KeyA => k.left
    case KeyD => k.right
    case KeyW => k.up
    case KeyS => k.down
    case OtherKey => false
  }

  function SetFlag(k: Keys, key: Key, v: bool): Keys {
    match key
    case KeyA => k.(left := v)
    case KeyD => k.(right := v)
    case KeyW => k.(up := v)
    case KeyS => k.(down := v)
    case OtherKey => k
  }

  /**
   * `handle_movement(event)`: a key press raises the flag of its key, a release
   * lowers it, and no other flag moves; any other event or key changes nothing.
   */
  function Press(k: Keys, e: Event): (r: Keys)
    ensures e.KeyDown? && e.key != OtherKey ==> Flag(r, e.key)
    ensures e.KeyUp? && e.key != OtherKey ==> !Flag(r, e.key)
    ensures forall key :: key != OtherKey && !(e.KeyDown? || e.KeyUp?) ==> Flag(r, key) == Flag(k, key)
    ensures forall key :: key != OtherKey && (e.KeyDown? || e.KeyUp?) && key != e.key ==> Flag(r, key) == Flag(k, key)
    ensures e == OtherEvent || e == KeyDown(OtherKey) || e == KeyUp(OtherKey) ==> r == k
  {
    match e
    case KeyDown(key) => SetFlag(k, key, true)
    case KeyUp(key) => SetFlag(k, key, false)
    case OtherEvent => k
  }

  /** Releasing a key undoes pressing it when its flag was down; pressing twice is pressing once. */
  lemma PressRelease(k: Keys, key: Key)
    requires key != OtherKey && !Flag(k, key)
    ensures Press(Press(k, KeyDown(key)), KeyUp(key)) == k
    ensures Press(Press(k, KeyDown(key)), KeyDown(key)) == Press(k, KeyDown(key))
  {
  }

  function Sign(b: bool): int { if b then 1 else 0 }

  /**
   * `move_player`: the four flags applied in the order left, right, up, down.
   * Opposite flags cancel out.
   */
  function Steered(p: Point, k: Keys, speed: int): (r: Point)
    ensures r.x == p.x + speed * (Sign(k.right) - Sign(k.left))
    ensures r.y == p.y + speed * (Sign(k.down) - Sign(k.up))
  {
    var x1 := if k.left then p.x - speed else p.x;
    var x2 := if k.right then x1 + speed else x1;
    var y1 := if k.up then p.y - speed else p.y;
    var y2 := if k.down then y1 + speed else y1;
    Point(x2, y2)
  }

  /**
   * The facing rule of `Player.update`: the angle towards the cursor lies in
   * [-90, 90] degrees exactly when the cursor is not left of the centre.
   */
  function FacingTowards(cursor: Point, centre: Point): (f: Facing)
    ensures f == Right <==> cursor.x >= centre.x
    ensures f == Left <==> cursor.x < centre.x
  {
    if cursor.x - centre.x >= 0 then Right else Left
  }

  /** Health and the killed flag. */
  datatype Vitals = Vitals(health: int, killed: bool)

  /** One `handle_damage(damage)`, seen on health and the killed flag. */
  function Hurt(v: Vitals, damage: int): (r: Vitals)
    ensures r.health == v.health - damage
    ensures r.killed <==> v.killed || r.health <= 0
    ensures v.killed ==> r.killed
  {
    var h := v.health - damage;
    Vitals(h, if h <= 0 then true else v.killed)
  }

  /** n consecutive hits of the same damage. */
  function HurtTimes(v: Vitals, damage: int, n: nat): Vitals {
    if n == 0 then v else Hurt(HurtTimes(v, damage, n - 1), damage)
  }

  /**
   * n hits take n times the damage; with non-negative damage the player ends up
   * killed exactly when it already was, or was hit and ended at or below zero.
   */
  lemma {:induction false} HurtTimesClosedForm(v: Vitals, damage: int, n: nat)
    ensures HurtTimes(v, damage, n).health == v.health - n * damage
    ensures v.killed ==> HurtTimes(v, damage, n).killed
    ensures damage >= 0 ==>
      (HurtTimes(v, damage, n).killed <==> v.killed || (n > 0 && HurtTimes(v, damage, n).health <= 0))
  {
    if n > 0 {
      HurtTimesClosedForm(v, damage, n - 1);
      assert (n - 1) * damage + damage == n * damage;
      if damage >= 0 && n > 1 {
        assert v.health - (n - 1) * damage >= v.health - n * damage;
      }
    }
  }

  class Player {
    var x: int
    var y: int
    const w: nat
    const h: nat
    const projectiles: ProjectileGroup
    const projectileDamage: int := 50
    const playerSpeed: int := 2
    const splatDuration: nat := 360
    var health: int
    var isKilled: bool
    var splatTimer: nat
    var hitPosition: Option<Point>
    var facing: Facing
    var movingLeft: bool
    var movingRight: bool
    var movingUp: bool
    var movingDown: bool

    ghost predicate Valid()
      reads this, projectiles
    {
      projectiles.Valid()
    }

    function Bounds(): Rect
      reads this`x, this`y
    {
      Rect(x, y, w, h)
    }

    /** `get_coords`: the centre of the player's rectangle. */
    function Centre(): Point
      reads this`x, this`y
    {
      Bounds().Center()
    }

    function KeyState(): Keys
      reads this
    {
      Keys(movingLeft, movingRight, movingUp, movingDown)
    }

    function Vital(): Vitals
      reads this`health, this`isKilled
    {
      Vitals(health, isKilled)
    }

    function SplatState(): Splat
      reads this`splatTimer, this`hitPosition
    {
      Splat(splatTimer, hitPosition)
    }

    /** A w x h player centred on a screen of the given size, facing left, at full health. */
    constructor (screenWidth: nat, screenHeight: nat, w: nat, h: nat)
      ensures Valid() && fresh(projectiles) && projectiles.members == []
      ensures Bounds() == CenteredAt(Point(screenWidth / 2, screenHeight / 2), w, h)
      ensures health == 30000 && !isKilled && splatTimer == 0 && hitPosition == None && facing == Left
      ensures KeyState() == Keys(false, false, false, false)
    {
      var r := CenteredAt(Point(screenWidth / 2, screenHeight / 2), w, h);
      x, y, this.w, this.h := r.x, r.y, w, h;
      projectiles := new ProjectileGroup();
      health, isKilled := 30000, false;
      splatTimer, hitPosition := 0, None;
      facing := Left;
      movingLeft, movingRight, movingUp, movingDown := false, false, false, false;
    }

    /**
     * `update(cursor)`: face the cursor, fly every projectile one frame and count
     * the splat marker down.
     */
    method Update(cursor: Point)
      requires Valid()
      modifies this`facing, this`splatTimer, this`hitPosition, projectiles.members
      ensures Valid()
      ensures facing == FacingTowards(cursor, Centre())
      ensures SplatState() == SplatTick(old(SplatState()))
      ensures projectiles.members == old(projectiles.members)
      ensures forall i :: 0 <= i < |projectiles.members| ==>
        projectiles.members[i].Bounds() == old(projectiles.members[i].Bounds()).MovedBy(projectiles.members[i].vx, projectiles.members[i].vy)
    {
      facing := if cursor.x - Centre().x >= 0 then Right else Left;
      projectiles.UpdateAll();
      if splatTimer > 0 {
        splatTimer := splatTimer - 1;
        if splatTimer == 0 {
          hitPosition := None;
        }
      }
    }

    method MovePlayer()
      modifies this`x, this`y
      ensures Point(x, y) == Steered(old(Point(x, y)), KeyState(), playerSpeed)
    {
      if movingLeft { x := x - playerSpeed; }
      if movingRight { x := x + playerSpeed; }
      if movingUp { y := y - playerSpeed; }
      if movingDown { y := y + playerSpeed; }
    }

    method HandleMovement(e: Event)
      modifies this`movingLeft, this`movingRight, this`movingUp, this`movingDown
      ensures KeyState() == Press(old(KeyState()), e)
    {
      match e {
        case KeyDown(key) =>
          if key == KeyA { movingLeft := true; }
          else if key == KeyD { movingRight := true; }
          else if key == KeyW { movingUp := true; }
          else if key == KeyS { movingDown := true; }
        case KeyUp(key) =>
          if key == KeyA { movingLeft := false; }
          else if key == KeyD { movingRight := false; }
          else if key == KeyW { movingUp := false; }
          else if key == KeyS { movingDown := false; }
        case OtherEvent =>
      }
    }

    /**
     * `shoot`: one new projectile of size pw x ph, centred on the player, with
     * the given velocity and the player's projectile damage, appended to the group.
     */
    method Shoot(velocity: Point, pw: nat, ph: nat)
      requires Valid()
      modifies projectiles`members
      ensures Valid()
      ensures |projectiles.members| == |old(projectiles.members)| + 1
      ensures projectiles.members[..|old(projectiles.members)|] == old(projectiles.members)
      ensures var p := projectiles.members[|old(projectiles.members)|];
        fresh(p) && p.damage == projectileDamage && p.Bounds() == CenteredAt(Centre(), pw, ph) &&
        p.vx == velocity.x && p.vy == velocity.y
    {
      var p := new Projectile(CenteredAt(Centre(), pw, ph), velocity, projectileDamage);
      projectiles.Add(p);
    }

    /** `handle_damage`: lose health, mark the hit at the centre, start the splat countdown. */
    method HandleDamage(damage: int)
      modifies this`health, this`isKilled, this`hitPosition, this`splatTimer
      ensures Vital() == Hurt(old(Vital()), damage)
      ensures health == old(health) - damage
      ensures isKilled <==> old(isKilled) || health <= 0
      ensures SplatState() == Splat(splatDuration, Some(Centre()))
    {
      health := health - damage;
      hitPosition := Some(Centre());
      splatTimer := splatDuration;
      if health <= 0 {
        isKilled := true;
      }
    }

    method SetHealth(health: int)
      modifies this`health
      ensures this.health == health
    {
      this.health := health;
    }

    /** The only draw-side state: drawing consumes the splat marker. */
    method Draw()
      modifies this`hitPosition
      ensures hitPosition == None
    {
      hitPosition := None;
    }

    function IsDestroyed(): (b: bool)
      reads this
      ensures b <==> Vital().killed
    {
      isKilled
    }
  }
}
