/** A scoring target (`TargetBehaviour`): its first accepted hit adds one
    point to the shared tracker and marks it for removal. */
module Targets {
  import opened Weapons
  import opened ScoreTracking
  import opened Shootables

  class Target {
    var isActive: bool
    var markedForRemoval: bool

    function State(): ShootableState
      reads this
    {
      ShootableState(isActive, markedForRemoval)
    }

    constructor ()
      ensures State() == Spawned
    {
      isActive, markedForRemoval := true, false;
    }

    /** `CheckHit(projectileData)`. The projectile's weapon type is received
        and not looked at, so acceptance depends on `isActive` alone. */
    method CheckHit(weaponType: WeaponType, score: ScoreManager)
      requires score.Valid()
      modifies this, score
      ensures score.Valid()
      ensures State() == CheckHitStep(TargetKind, old(State())).state
      ensures score.State() == ApplyEffect(old(score.State()), CheckHitStep(TargetKind, old(State())).effect).state
      ensures score.events ==
        old(score.events) + ApplyEffect(old(score.State()), CheckHitStep(TargetKind, old(State())).effect).events
    {
      if !isActive {
        return;
      }
      OnValidHit(score);
    }

    /** Deactivate, add the default one point, and hand the object to the
        engine's deferred destruction (directly, or after the colour tween). */
    method OnValidHit(score: ScoreManager)
      requires score.Valid()
      modifies this, score
      ensures score.Valid()
      ensures State() == ShootableState(false, true)
      ensures score.State() == AddPointsStep(old(score.State()), 1).state
      ensures score.events == old(score.events) + AddPointsStep(old(score.State()), 1).events
    {
      isActive := false;
      score.AddPoints(1);
      markedForRemoval := true;
    }
  }
}
