// AEnemy: health with a clamp at zero, an unguarded Die, the hit-reaction
// gate with its reset callback, and the single health-bar timer.
module Enemies {
  import opened Shared
  import Damage

  class Enemy {
    var health: real
    var maxHealth: real
    var healthBarDisplayTime: real
    var bCanHitReact: bool
    var hitReactTimeMin: real
    var hitReactTimeMax: real
    var bIsDead: bool
    /** How many times Die's body has run. */
    var deathsRun: nat
    /** Set by AActor::Destroy. */
    var destroyed: bool
    /** The pending HealthBarTimer (which hides the bar), with its duration. */
    var healthBarTimer: Option<real>
    /** The pending HitReactTimer (which calls ResetHitReactTimer), with its
        duration. */
    var hitReactTimer: Option<real>

    /** AEnemy's constructor defaults. bIsDead is only set in BeginPlay. */
    constructor ()
      ensures health == 100.0 && maxHealth == 100.0 && healthBarDisplayTime == 4.0
      ensures bCanHitReact && hitReactTimeMin == 0.5 && hitReactTimeMax == 3.0
      ensures deathsRun == 0 && !destroyed && healthBarTimer == None && hitReactTimer == None
    {
      health := 100.0;
      maxHealth := 100.0;
      healthBarDisplayTime := 4.0;
      bCanHitReact := true;
      hitReactTimeMin := 0.5;
      hitReactTimeMax := 3.0;
      deathsRun := 0;
      destroyed := false;
      healthBarTimer := None;
      hitReactTimer := None;
    }

    function Vitals(): Damage.Vitals
      reads this
    {
      Damage.Vitals(health, bIsDead, deathsRun)
    }

    method BeginPlay()
      modifies this`bIsDead
      ensures !bIsDead
    {
      bIsDead := false;
    }

    /** ShowHealthBar: clear and re-set the one health-bar timer, so only the
        latest hide is pending. */
    method ShowHealthBar()
      modifies this`healthBarTimer
      ensures healthBarTimer == Some(healthBarDisplayTime)
    {
      healthBarTimer := None;
      healthBarTimer := Some(healthBarDisplayTime);
    }

    /** Die: no guard; mark dead and destroy the actor. */
    method Die()
      modifies this`bIsDead, this`deathsRun, this`destroyed
      ensures Vitals() == Damage.EnemyDie(old(Vitals()))
      ensures destroyed
    {
      bIsDead := true;
      deathsRun := deathsRun + 1;
      destroyed := true;
    }

    /** PlayHitMontage: react only when allowed, then close the gate and
        schedule its reset after `hitReactTime`, the random draw in
        [HitReactTimeMin, HitReactTimeMax]. */
    method PlayHitMontage(hitReactTime: real)
      requires bCanHitReact ==> hitReactTimeMin <= hitReactTime <= hitReactTimeMax
      modifies this`bCanHitReact, this`hitReactTimer
      ensures !bCanHitReact
      ensures old(bCanHitReact) ==> hitReactTimer == Some(hitReactTime)
      ensures !old(bCanHitReact) ==> hitReactTimer == old(hitReactTimer)
    {
      if bCanHitReact {
        bCanHitReact := false;
        hitReactTimer := Some(hitReactTime);
      }
    }

    /** The HitReactTimer callback. */
    method ResetHitReactTimer()
      modifies this`bCanHitReact, this`hitReactTimer
      ensures bCanHitReact && hitReactTimer == None
    {
      hitReactTimer := None;
      bCanHitReact := true;
    }

    /** BulletHit: show the health bar and try to react. */
    method BulletHit(hitReactTime: real)
      requires bCanHitReact ==> hitReactTimeMin <= hitReactTime <= hitReactTimeMax
      modifies this`healthBarTimer, this`bCanHitReact, this`hitReactTimer
      ensures healthBarTimer == Some(healthBarDisplayTime) && !bCanHitReact
      ensures old(bCanHitReact) ==> hitReactTimer == Some(hitReactTime)
      ensures !old(bCanHitReact) ==> hitReactTimer == old(hitReactTimer)
    {
      ShowHealthBar();
      PlayHitMontage(hitReactTime);
    }

    /** TakeDamage: returns the damage it was given. */
    method TakeDamage(damageAmount: real) returns (taken: real)
      modifies this`health, this`bIsDead, this`deathsRun, this`destroyed
      ensures taken == damageAmount
      ensures Vitals() == Damage.EnemyHit(old(Vitals()), damageAmount)
      ensures destroyed <==> old(destroyed) || Damage.Lethal(old(health), damageAmount)
    {
      if health - damageAmount <= 0.0 {
        health := 0.0;
        Die();
      } else {
        health := health - damageAmount;
      }
      taken := damageAmount;
    }
  }
}
