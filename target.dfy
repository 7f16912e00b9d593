/**
 * The practice target: a fixed rectangle with health, a hit effect that lasts
 * a fixed number of updates after each hit, and a destroyed flag.
 */
module Targets {
  import opened Geometry
  import opened Timers

  /** What `draw` puts over the target image. */
  datatype Overlay = NoOverlay | HitOverlay | DestroyOverlay

  class Target {
    var x: int
    var y: int
    const w: nat
    const h: nat
    const hitEffectDuration: nat := 30
    var hitEffectTimer: nat
    var health: int
    var isDestroyed: bool
    var isHit: bool

    function Bounds(): Rect
      reads this
    {
      Rect(x, y, w, h)
    }

    function Effect(): HitEffect
      reads this
    {
      HitEffect(hitEffectTimer, isHit)
    }

    /** A w x h target centred on (x, y), unhit and intact. */
    constructor (x: int, y: int, health: int, w: nat, h: nat)
      ensures Bounds() == CenteredAt(Point(x, y), w, h) && Coords() == Point(x, y)
      ensures this.health == health && !isDestroyed
      ensures Effect() == HitEffect(0, false)
    {
      var r := CenteredAt(Point(x, y), w, h);
      this.x, this.y, this.w, this.h := r.x, r.y, w, h;
      hitEffectTimer := 0;
      this.health := health;
      isDestroyed, isHit := false, false;
    }

    /** `hit`: the effect restarts at its full duration. */
    method Hit()
      modifies this`hitEffectTimer, this`isHit
      ensures Effect() == HitEffect(hitEffectDuration, true)
    {
      hitEffectTimer := hitEffectDuration;
      isHit := true;
    }

    /** `update`: one step of the hit effect, as `TargetTick`. */
    method Update()
      modifies this`hitEffectTimer, this`isHit
      ensures Effect() == TargetTick(old(Effect()))
    {
      if hitEffectTimer > 0 && isHit {
        hitEffectTimer := hitEffectTimer - 1;
      } else {
        isHit := false;
      }
    }

    /** The overlay `draw` chooses: the hit image while the effect runs on an intact target, the destroyed image once destroyed. */
    function Shown(): (o: Overlay)
      reads this
      ensures o == DestroyOverlay <==> isDestroyed
      ensures o == HitOverlay <==> hitEffectTimer > 0 && !isDestroyed
      ensures o == NoOverlay <==> hitEffectTimer == 0 && !isDestroyed
    {
      if hitEffectTimer > 0 && !isDestroyed then HitOverlay
      else if isDestroyed then DestroyOverlay
      else NoOverlay
    }

    function IsTargetHit(): (b: bool)
      reads this
      ensures b == Effect().isHit
    {
      isHit
    }

    function IsTargetDestroyed(): (b: bool)
      reads this
      ensures b == isDestroyed
    {
      isDestroyed
    }

    /** `receive_damage`: health drops, and the target is destroyed once at or below zero, for good. */
    method ReceiveDamage(damage: int)
      modifies this`health, this`isDestroyed
      ensures health == old(health) - damage
      ensures isDestroyed <==> old(isDestroyed) || health <= 0
    {
      health := health - damage;
      if health <= 0 {
        isDestroyed := true;
      }
    }

    /** `get_coords`: the centre of the rectangle, which is where the target was placed. */
    function Coords(): Point
      reads this
    {
      Bounds().Center()
    }
  }
}
