/**
 * The countdown and cooldown rules of the game as pure step functions on
 * integers, with the lemmas that say what repeated updates do. The classes of
 * the entity modules run these steps on their fields.
 */
module Timers {
  import opened Options
  import opened Geometry

  /** A timer value after one update, and whether the update triggered an action. */
  datatype Tick = Tick(timer: int, fires: bool)

  // ---------------------------------------------------------------------------
  // Melee attack cooldown (`Enemy.update`): count up, then attack and reset.

  /** One update of the melee timer: it counts up, and on reaching the cooldown it fires and drops back to 0. */
  function AttackTick(timer: int, cooldown: int): (r: Tick)
    ensures r.fires <==> timer + 1 >= cooldown
    ensures r.timer == if r.fires then 0 else timer + 1
    ensures 1 <= cooldown && 0 <= timer < cooldown ==> 0 <= r.timer < cooldown && (r.fires <==> r.timer == 0)
  {
    if timer + 1 >= cooldown then Tick(0, true) else Tick(timer + 1, false)
  }

  /** The attack timer after n updates of a freshly spawned enemy (the timer starts at 0). */
  function AttackTimerAfter(cooldown: int, n: nat): int {
    if n == 0 then 0 else AttackTick(AttackTimerAfter(cooldown, n - 1), cooldown).timer
  }

  /** Update number n (counting from 1) is an attack frame. */
  predicate AttacksOnUpdate(cooldown: int, n: nat)
    requires n >= 1
  {
    AttackTick(AttackTimerAfter(cooldown, n - 1), cooldown).fires
  }

  lemma MulAtLeast(k: int, d: int)
    requires k >= 1 && d >= 1
    ensures k * d >= d
  {
    assert k * d == (k - 1) * d + d;
    assert (k - 1) * d >= 0;
  }

  /** Euclidean division is determined by quotient and remainder. */
  lemma DivModUnique(m: int, d: int, q: int, r: int)
    requires d >= 1 && 0 <= r < d && m == q * d + r
    ensures m % d == r && m / d == q
  {
    var q', r' := m / d, m % d;
    assert m == q' * d + r';
    assert (q - q') * d == r' - r;
    assert (q' - q) * d == r - r';
    if q > q' { MulAtLeast(q - q', d); assert false; }
    if q < q' { MulAtLeast(q' - q, d); assert false; }
  }

  lemma ModStep(m: nat, d: int)
    requires d >= 1
    ensures (m + 1) % d == if m % d + 1 == d then 0 else m % d + 1
  {
    var q, r := m / d, m % d;
    assert m == q * d + r;
    if r + 1 == d {
      DivModUnique(m + 1, d, q + 1, 0);
    } else {
      DivModUnique(m + 1, d, q, r + 1);
    }
  }

  /** The attack timer counts the updates modulo the cooldown, so it stays in [0, cooldown). */
  lemma {:induction false} AttackTimerIsRemainder(cooldown: int, n: nat)
    requires cooldown >= 1
    ensures AttackTimerAfter(cooldown, n) == n % cooldown
    ensures 0 <= AttackTimerAfter(cooldown, n) < cooldown
  {
    if n > 0 {
      AttackTimerIsRemainder(cooldown, n - 1);
      ModStep(n - 1, cooldown);
    }
  }

  /** The enemy attempts contact damage on exactly every cooldown-th update. */
  lemma AttackOnEveryCooldownth(cooldown: int, n: nat)
    requires cooldown >= 1 && n >= 1
    ensures AttacksOnUpdate(cooldown, n) <==> n % cooldown == 0
  {
    AttackTimerIsRemainder(cooldown, n - 1);
    ModStep(n - 1, cooldown);
  }

  // ---------------------------------------------------------------------------
  // Ranged fire cooldown (`ProjectileEnemy.update`): fire when the timer has
  // reached the cooldown, reset, then count the update.

  /**
   * One update of the ranged timer: with the player in range and the timer at
   * or above the cooldown, a shot is fired and the timer reset; in every case
   * the update is then counted.
   */
  function FireTick(timer: int, cooldown: int, inRange: bool): (r: Tick)
    ensures r.fires <==> inRange && timer >= cooldown
    ensures r.fires ==> r.timer == 1
    ensures !r.fires ==> r.timer == timer + 1
  {
    if inRange && timer >= cooldown then Tick(1, true) else Tick(timer + 1, false)
  }

  /** The fire timer after n updates with the player always in range (the timer starts at 0). */
  function FireTimerAfter(cooldown: int, n: nat): int {
    if n == 0 then 0 else FireTick(FireTimerAfter(cooldown, n - 1), cooldown, true).timer
  }

  /** Update number n (counting from 1) fires a projectile, the player being in range throughout. */
  predicate FiresOnUpdate(cooldown: int, n: nat)
    requires n >= 1
  {
    FireTick(FireTimerAfter(cooldown, n - 1), cooldown, true).fires
  }

  /** After n >= 1 updates the fire timer is ((n - 1) mod cooldown) + 1, so it lies in [1, cooldown]. */
  lemma {:induction false} FireTimerClosedForm(cooldown: int, n: nat)
    requires cooldown >= 1 && n >= 1
    ensures FireTimerAfter(cooldown, n) == (n - 1) % cooldown + 1
    ensures 1 <= FireTimerAfter(cooldown, n) <= cooldown
  {
    if n > 1 {
      FireTimerClosedForm(cooldown, n - 1);
      ModStep(n - 2, cooldown);
    }
  }

  /** The first shot is on update cooldown + 1, and then one on every cooldown-th update. */
  lemma FiresExactly(cooldown: int, n: nat)
    requires cooldown >= 1 && n >= 1
    ensures FiresOnUpdate(cooldown, n) <==> n > 1 && (n - 1) % cooldown == 0
  {
    if n > 1 {
      FireTimerClosedForm(cooldown, n - 1);
      ModStep(n - 2, cooldown);
    }
  }

  /** Consecutive shots are exactly cooldown updates apart. */
  lemma ShotsAreCooldownApart(cooldown: int, n: nat, j: nat)
    requires cooldown >= 1 && n >= 1 && FiresOnUpdate(cooldown, n)
    ensures FiresOnUpdate(cooldown, n + cooldown)
    ensures 0 < j < cooldown ==> !FiresOnUpdate(cooldown, n + j)
  {
    FiresExactly(cooldown, n);
    FiresExactly(cooldown, n + cooldown);
    var q := (n - 1) / cooldown;
    assert n - 1 == q * cooldown;
    DivModUnique(n - 1 + cooldown, cooldown, q + 1, 0);
    if 0 < j < cooldown {
      FiresExactly(cooldown, n + j);
      DivModUnique(n + j - 1, cooldown, q, j);
    }
  }

  // ---------------------------------------------------------------------------
  // Splat countdown (`Enemy.update`, `Player.update`).

  /** The splat countdown together with the hit marker it keeps alive. */
  datatype Splat = Splat(timer: nat, hit: Option<Point>)

  /** One update of the splat countdown: a running countdown goes down by one, and the marker is dropped when it reaches 0. */
  function SplatTick(s: Splat): (r: Splat)
    ensures s.timer > 0 ==> r.timer == s.timer - 1
    ensures s.timer == 0 ==> r == s
    ensures s.timer > 0 && r.timer == 0 ==> r.hit == None
    ensures r.timer > 0 ==> r.hit == s.hit
  {
    if s.timer > 0 then
      (if s.timer - 1 == 0 then Splat(0, None) else Splat(s.timer - 1, s.hit))
    else s
  }

  function SplatAfter(s: Splat, n: nat): Splat {
    if n == 0 then s else SplatTick(SplatAfter(s, n - 1))
  }

  /**
   * A countdown started at t keeps its marker for t - 1 updates and clears it on
   * the t-th; after that nothing changes.
   */
  lemma {:induction false} SplatCountdown(t: nat, hit: Option<Point>, n: nat)
    ensures SplatAfter(Splat(t, hit), n) ==
      if n < t then Splat(t - n, hit) else Splat(0, if t > 0 then None else hit)
  {
    if n > 0 {
      SplatCountdown(t, hit, n - 1);
    }
  }

  // ---------------------------------------------------------------------------
  // Target hit effect (`Target.update`).

  datatype HitEffect = HitEffect(timer: nat, isHit: bool)

  /** One update of the target's hit effect: a live effect counts down; otherwise the hit flag is cleared. */
  function TargetTick(e: HitEffect): (r: HitEffect)
    ensures e.timer > 0 && e.isHit ==> r == HitEffect(e.timer - 1, true)
    ensures !(e.timer > 0 && e.isHit) ==> r == HitEffect(e.timer, false)
  {
    if e.timer > 0 && e.isHit then HitEffect(e.timer - 1, true) else HitEffect(e.timer, false)
  }

  function HitEffectAfter(e: HitEffect, n: nat): HitEffect {
    if n == 0 then e else TargetTick(HitEffectAfter(e, n - 1))
  }

  /** Started at t, the effect counts down while is_hit stays true. */
  lemma {:induction false} HitEffectCountdown(t: nat, n: nat)
    requires n <= t
    ensures HitEffectAfter(HitEffect(t, true), n) == HitEffect(t - n, true)
  {
    if n > 0 {
      HitEffectCountdown(t, n - 1);
    }
  }

  /** is_hit holds for the t updates after a hit and is false from update t + 1 on. */
  lemma {:induction false} HitEffectLasts(t: nat, n: nat)
    ensures n <= t ==> HitEffectAfter(HitEffect(t, true), n).isHit
    ensures n > t ==> HitEffectAfter(HitEffect(t, true), n) == HitEffect(0, false)
  {
    if n <= t {
      HitEffectCountdown(t, n);
    } else if n == t + 1 {
      HitEffectCountdown(t, t);
    } else {
      HitEffectLasts(t, n - 1);
    }
  }
}
