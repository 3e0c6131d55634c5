/** A bomb (`BombBehaviour`): its first accepted hit costs the player lives
    and marks it for removal; it never adds points. */
module Bombs {
  import opened Weapons
  import opened ScoreTracking
  import opened Shootables

  class Bomb {
    /** The amount handed to `GetDamage`, whose argument the call site omits. */
    const damage: int
    var isActive: bool
    var markedForRemoval: bool

    function State(): ShootableState
      reads this
    {
      ShootableState(isActive, markedForRemoval)
    }

    constructor (damage: int)
      ensures State() == Spawned && this.damage == damage
    {
      this.damage := damage;
      isActive, markedForRemoval := true, false;
    }

    /** `CheckHit(projectileData)`: as for a target, the projectile is not
        looked at; only `isActive` decides. */
    method CheckHit(weaponType: WeaponType, score: ScoreManager)
      requires score.Valid()
      modifies this, score
      ensures score.Valid()
      ensures State() == CheckHitStep(BombKind(damage), old(State())).state
      ensures score.State() ==
        ApplyEffect(old(score.State()), CheckHitStep(BombKind(damage), old(State())).effect).state
      ensures score.events ==
        old(score.events) + ApplyEffect(old(score.State()), CheckHitStep(BombKind(damage), old(State())).effect).events
    {
      if !isActive {
        return;
      }
      OnValidHit(score);
    }

    /** Deactivate, damage the player once, and hand the object to the
        engine's deferred destruction. The explosion effect is presentation. */
    method OnValidHit(score: ScoreManager)
      requires score.Valid()
      modifies this, score
      ensures score.Valid()
      ensures State() == ShootableState(false, true)
      ensures score.State() == GetDamageStep(old(score.State()), damage).state
      ensures score.events == old(score.events) + GetDamageStep(old(score.State()), damage).events
    {
      isActive := false;
      score.GetDamage(damage);
      markedForRemoval := true;
    }
  }
}
