// Health and death bookkeeping shared by the player and the enemy: a hit
// clamps health at zero and a lethal hit runs Die. The player's Die runs its
// body once; the enemy's runs on every lethal hit.
module Damage {

  /** Health, the death flag, and how many times Die's body has run (the
      player plays its death montage there, the enemy destroys itself). */
  datatype Vitals = Vitals(health: real, dead: bool, deaths: nat)

  /** The test both TakeDamage implementations make. */
  predicate Lethal(health: real, damage: real)
  {
    health - damage <= 0.0
  }

  /** Health after a hit: zero on a lethal hit, otherwise reduced by the
      damage. Never negative, and never above the health before a
      non-negative hit. */
  function DamagedHealth(health: real, damage: real): (h: real)
    ensures h >= 0.0
    ensures h == 0.0 <==> Lethal(health, damage)
    ensures !Lethal(health, damage) ==> h == health - damage
    ensures 0.0 <= damage && 0.0 <= health ==> h <= health
  {
    if Lethal(health, damage) then 0.0 else health - damage
  }

  /** APlayerCharacter::Die: a no-op once dead, otherwise mark dead and run
      the death montage. */
  function PlayerDie(v: Vitals): (r: Vitals)
    ensures r.dead && r.health == v.health
    ensures v.dead ==> r == v
    ensures !v.dead ==> r.deaths == v.deaths + 1
  {
    if v.dead then v else v.(dead := true, deaths := v.deaths + 1)
  }

  /** AEnemy::Die: no guard, so every call counts. */
  function EnemyDie(v: Vitals): (r: Vitals)
    ensures r.dead && r.health == v.health && r.deaths == v.deaths + 1
  {
    v.(dead := true, deaths := v.deaths + 1)
  }

  /** APlayerCharacter::TakeDamage on the vitals. */
  function PlayerHit(v: Vitals, damage: real): (r: Vitals)
    ensures r.health == DamagedHealth(v.health, damage)
    ensures r.dead <==> v.dead || Lethal(v.health, damage)
    ensures r.deaths == if Lethal(v.health, damage) && !v.dead then v.deaths + 1 else v.deaths
  {
    if Lethal(v.health, damage) then PlayerDie(v.(health := 0.0))
    else v.(health := v.health - damage)
  }

  /** AEnemy::TakeDamage on the vitals. */
  function EnemyHit(v: Vitals, damage: real): (r: Vitals)
    ensures r.health == DamagedHealth(v.health, damage)
    ensures r.dead <==> v.dead || Lethal(v.health, damage)
    ensures r.deaths == if Lethal(v.health, damage) then v.deaths + 1 else v.deaths
  {
    if Lethal(v.health, damage) then EnemyDie(v.(health := 0.0))
    else v.(health := v.health - damage)
  }

  function PlayerHits(v: Vitals, damages: seq<real>): Vitals
    decreases |damages|
  {
    if damages == [] then v else PlayerHits(PlayerHit(v, damages[0]), damages[1..])
  }

  function EnemyHits(v: Vitals, damages: seq<real>): Vitals
    decreases |damages|
  {
    if damages == [] then v else EnemyHits(EnemyHit(v, damages[0]), damages[1..])
  }

  predicate NonNegative(damages: seq<real>)
  {
    forall i :: 0 <= i < |damages| ==> damages[i] >= 0.0
  }

  /** The player's death runs at most once: over any sequence of hits the
      death count is 1 once dead and 0 before, and health stays between 0
      and where it started when every hit is non-negative. */
  lemma {:induction false} PlayerDiesOnce(v: Vitals, damages: seq<real>)
    requires v.deaths == (if v.dead then 1 else 0)
    requires 0.0 <= v.health && NonNegative(damages)
    ensures PlayerHits(v, damages).deaths == (if PlayerHits(v, damages).dead then 1 else 0)
    ensures 0.0 <= PlayerHits(v, damages).health <= v.health
    ensures v.dead ==> PlayerHits(v, damages).dead
    decreases |damages|
  {
    if damages != [] {
      var v' := PlayerHit(v, damages[0]);
      assert NonNegative(damages[1..]) by {
        forall i | 0 <= i < |damages[1..]| ensures damages[1..][i] >= 0.0 {
          assert damages[1..][i] == damages[i + 1];
        }
      }
      PlayerDiesOnce(v', damages[1..]);
    }
  }

  /** The enemy's death is not guarded: a living 10-health enemy hit for 15
      and then for 5 runs Die twice. */
  lemma EnemyDiesTwice()
    ensures EnemyHits(Vitals(10.0, false, 0), [15.0, 5.0]) == Vitals(0.0, true, 2)
  {
  }

  /** The player under the same hits dies once. */
  lemma PlayerDiesOnceExample()
    ensures PlayerHits(Vitals(10.0, false, 0), [15.0, 5.0]) == Vitals(0.0, true, 1)
  {
  }
}
