/** The one-shot projectile (`ProjectileData`): it carries the firing
    weapon's type and identity, ignores contacts with that weapon, and
    resolves on its first other contact, delivering `CheckHit` at most once. */
module Projectiles {
  import opened Basics
  import opened Weapons
  import opened ScoreTracking
  import opened Shootables
  import opened Targets

  /** A contact reported to `OnCollisionEnter`: the struck object and the
      chain of its transform parents, nearest first. */
  datatype Collision = Collision(struck: EntityId, parents: seq<EntityId>)

  /** The projectile's fields; `removalRequested` records the `Destroy` issued
      by `HandleHit`. */
  datatype ProjectileState = ProjectileState(
    weaponType: WeaponType,
    sourceWeapon: Option<EntityId>,
    hasHit: bool,
    removalRequested: bool)

  datatype CollisionResult = CollisionResult(state: ProjectileState, deliversCheckHit: bool)

  datatype CollisionRunResult = CollisionRunResult(state: ProjectileState, deliveries: nat)

  /** A projectile as instantiated, before the weapon tags it: C#'s defaults. */
  const Instantiated := ProjectileState(Pistol, None, false, false)

  /** The guard at the top of `OnCollisionEnter`: the struck object is the
      source weapon or lies below it in the transform hierarchy. */
  predicate IsSelfHit(p: ProjectileState, c: Collision) {
    p.sourceWeapon.Some? && (c.struck == p.sourceWeapon.value || p.sourceWeapon.value in c.parents)
  }

  /** `Start`: a timed destruction after `lifetime` seconds is scheduled
      exactly when `lifetime` is positive. */
  function LifetimeRule(lifetime: Time): (r: Option<Time>)
    ensures r.Some? <==> lifetime > 0.0
    ensures r.Some? ==> r.value == lifetime
  {
    if lifetime > 0.0 then Some(lifetime) else None
  }

  /** `HandleHit`: resolve once and request removal. */
  function HandleHitStep(p: ProjectileState): (r: ProjectileState)
    ensures r.hasHit
    ensures p.hasHit ==> r == p
    ensures !p.hasHit ==> r.removalRequested
    ensures r.weaponType == p.weaponType && r.sourceWeapon == p.sourceWeapon
  {
    if p.hasHit then p else p.(hasHit := true, removalRequested := true)
  }

  /** `OnCollisionEnter` for contact `c`, where `hasTarget` says whether the
      struck object carries a `TargetBehaviour` (no other shootable is looked
      up, so a bomb is never sent `CheckHit` on this path). */
  function CollideStep(p: ProjectileState, c: Collision, hasTarget: bool): (r: CollisionResult)
    ensures IsSelfHit(p, c) || p.hasHit ==> r == CollisionResult(p, false)
    ensures !IsSelfHit(p, c) && !p.hasHit ==>
      r.state == p.(hasHit := true, removalRequested := true) && r.deliversCheckHit == hasTarget
    ensures r.state.weaponType == p.weaponType && r.state.sourceWeapon == p.sourceWeapon
  {
    if IsSelfHit(p, c) then CollisionResult(p, false)
    else if p.hasHit then CollisionResult(p, false)
    else CollisionResult(HandleHitStep(p), hasTarget)
  }

  /** The projectile a weapon's shot becomes once `SetWeaponType` and
      `SetSourceWeapon` have run on a fresh instance. */
  function Tagged(shot: Shot): (p: ProjectileState)
    ensures p.weaponType == shot.weaponType && p.sourceWeapon == Some(shot.sourceWeapon)
    ensures !p.hasHit && !p.removalRequested
  {
    Instantiated.(weaponType := shot.weaponType, sourceWeapon := Some(shot.sourceWeapon))
  }

  /** A contact with the weapon `w`, or with an object below it in the
      transform hierarchy. */
  predicate TouchesWeapon(w: EntityId, c: Collision) {
    c.struck == w || w in c.parents
  }

  /** A series of contacts reported for one projectile; `targets[i]` says
      whether the object struck by `cs[i]` carries a `TargetBehaviour`. */
  function CollisionRun(p: ProjectileState, cs: seq<Collision>, targets: seq<bool>): CollisionRunResult
    requires |targets| == |cs|
    decreases |cs|
  {
    if cs == [] then CollisionRunResult(p, 0)
    else
      var first := CollideStep(p, cs[0], targets[0]);
      var rest := CollisionRun(first.state, cs[1..], targets[1..]);
      CollisionRunResult(rest.state, (if first.deliversCheckHit then 1 else 0) + rest.deliveries)
  }

  /** Whatever contacts are reported, `CheckHit` is delivered at most once,
      and never by a projectile that has already hit. */
  lemma {:induction false} CheckHitDeliveredAtMostOnce(p: ProjectileState, cs: seq<Collision>, targets: seq<bool>)
    requires |targets| == |cs|
    ensures CollisionRun(p, cs, targets).deliveries <= (if p.hasHit then 0 else 1)
    ensures p.hasHit ==> CollisionRun(p, cs, targets).state == p
    decreases |cs|
  {
    if cs != [] {
      CheckHitDeliveredAtMostOnce(CollideStep(p, cs[0], targets[0]).state, cs[1..], targets[1..]);
    }
  }

  /** Contacts with the source weapon or its descendants change nothing. */
  lemma {:induction false} SelfHitsAreIgnored(p: ProjectileState, cs: seq<Collision>, targets: seq<bool>)
    requires |targets| == |cs|
    requires forall i :: 0 <= i < |cs| ==> IsSelfHit(p, cs[i])
    ensures CollisionRun(p, cs, targets) == CollisionRunResult(p, 0)
    decreases |cs|
  {
    if cs != [] {
      SelfHitsAreIgnored(p, cs[1..], targets[1..]);
    }
  }

  /** A shot's projectile ignores every contact with the weapon that fired
      it: it stays unresolved and delivers nothing. */
  lemma {:induction false} TaggedProjectileIgnoresItsWeapon(shot: Shot, cs: seq<Collision>, targets: seq<bool>)
    requires |targets| == |cs|
    requires forall i :: 0 <= i < |cs| ==> TouchesWeapon(shot.sourceWeapon, cs[i])
    ensures CollisionRun(Tagged(shot), cs, targets) == CollisionRunResult(Tagged(shot), 0)
  {
    forall i | 0 <= i < |cs| ensures IsSelfHit(Tagged(shot), cs[i]) {
      assert TouchesWeapon(shot.sourceWeapon, cs[i]);
    }
    SelfHitsAreIgnored(Tagged(shot), cs, targets);
  }

  /** Whenever `Fire` produces a projectile, that projectile carries the
      weapon's type, is linked to the firing weapon, and ignores contacts
      with it. */
  lemma FiredProjectileIgnoresItsWeapon(cfg: WeaponConfig, id: EntityId, s: WeaponState, now: Time, cs: seq<Collision>, targets: seq<bool>)
    requires FireStep(cfg, id, s, now).shot.Some?
    requires |targets| == |cs|
    requires forall i :: 0 <= i < |cs| ==> TouchesWeapon(id, cs[i])
    ensures Tagged(FireStep(cfg, id, s, now).shot.value).weaponType == cfg.weaponType
    ensures Tagged(FireStep(cfg, id, s, now).shot.value).sourceWeapon == Some(id)
    ensures CollisionRun(Tagged(FireStep(cfg, id, s, now).shot.value), cs, targets) ==
      CollisionRunResult(Tagged(FireStep(cfg, id, s, now).shot.value), 0)
  {
    TaggedProjectileIgnoresItsWeapon(FireStep(cfg, id, s, now).shot.value, cs, targets);
  }

  /** The first contact that is not a self-hit resolves an unresolved
      projectile and requests its removal, whether or not it struck a
      target; `CheckHit` is delivered exactly when that object is a target. */
  lemma {:induction false} FirstOtherContactResolves(p: ProjectileState, selfHits: seq<Collision>, c: Collision, later: seq<Collision>, targets: seq<bool>)
    requires !p.hasHit && !IsSelfHit(p, c)
    requires forall i :: 0 <= i < |selfHits| ==> IsSelfHit(p, selfHits[i])
    requires |targets| == |selfHits| + 1 + |later|
    ensures CollisionRun(p, selfHits + [c] + later, targets).state == p.(hasHit := true, removalRequested := true)
    ensures CollisionRun(p, selfHits + [c] + later, targets).deliveries == (if targets[|selfHits|] then 1 else 0)
    decreases |selfHits|
  {
    var cs := selfHits + [c] + later;
    if selfHits == [] {
      assert cs[0] == c && cs[1..] == later;
      var first := CollideStep(p, c, targets[0]);
      CheckHitDeliveredAtMostOnce(first.state, later, targets[1..]);
      assert CollisionRun(p, cs, targets) ==
        CollisionRunResult(CollisionRun(first.state, later, targets[1..]).state,
          (if targets[0] then 1 else 0) + CollisionRun(first.state, later, targets[1..]).deliveries);
    } else {
      assert cs[0] == selfHits[0] && cs[1..] == selfHits[1..] + [c] + later;
      assert CollideStep(p, cs[0], targets[0]) == CollisionResult(p, false);
      assert targets[1..][|selfHits| - 1] == targets[|selfHits|];
      FirstOtherContactResolves(p, selfHits[1..], c, later, targets[1..]);
      assert CollisionRun(p, cs, targets) == CollisionRun(p, cs[1..], targets[1..]);
    }
  }

  class Projectile {
    const lifetime: Time
    var weaponType: WeaponType
    var sourceWeapon: Option<EntityId>
    var hasHit: bool
    var removalRequested: bool
    /** The delay of the timed destruction scheduled by `Start`, if any. */
    var scheduledDestroy: Option<Time>
    /** How many times this projectile has called `CheckHit`. */
    ghost var checkHitsDelivered: nat

    function State(): ProjectileState
      reads this
    {
      ProjectileState(weaponType, sourceWeapon, hasHit, removalRequested)
    }

    /** A projectile delivers `CheckHit` at most once, and only as it
        resolves; it requests removal exactly when it has resolved. */
    ghost predicate Valid()
      reads this
    {
      && checkHitsDelivered <= 1
      && (checkHitsDelivered == 1 ==> hasHit)
      && removalRequested == hasHit
    }

    constructor (lifetime: Time)
      ensures Valid() && this.lifetime == lifetime
      ensures State() == Instantiated && scheduledDestroy == None && checkHitsDelivered == 0
    {
      this.lifetime := lifetime;
      weaponType, sourceWeapon := Pistol, None;
      hasHit, removalRequested := false, false;
      scheduledDestroy := None;
      checkHitsDelivered := 0;
    }

    method SetWeaponType(t: WeaponType)
      modifies this`weaponType
      ensures weaponType == t
    {
      weaponType := t;
    }

    method GetWeaponType() returns (t: WeaponType)
      ensures t == weaponType
    {
      t := weaponType;
    }

    /** The collision-ignoring set-up it also performs is physics plumbing. */
    method SetSourceWeapon(weapon: Option<EntityId>)
      modifies this`sourceWeapon
      ensures sourceWeapon == weapon
    {
      sourceWeapon := weapon;
    }

    method Start()
      modifies this`scheduledDestroy
      ensures scheduledDestroy == if LifetimeRule(lifetime).Some? then LifetimeRule(lifetime) else old(scheduledDestroy)
    {
      if lifetime > 0.0 {
        scheduledDestroy := Some(lifetime);
      }
    }

    /** `OnCollisionEnter(collision)`, where `target` is the struck object's
        `TargetBehaviour` component, or null when it has none. */
    method OnCollisionEnter(c: Collision, target: Target?, score: ScoreManager)
      requires Valid() && score.Valid()
      modifies this, target, score
      ensures Valid() && score.Valid()
      ensures State() == CollideStep(old(State()), c, target != null).state
      ensures checkHitsDelivered ==
        old(checkHitsDelivered) + if CollideStep(old(State()), c, target != null).deliversCheckHit then 1 else 0
      ensures CollideStep(old(State()), c, target != null).deliversCheckHit ==>
        && target.State() == CheckHitStep(TargetKind, old(target.State())).state
        && score.State() == ApplyEffect(old(score.State()), CheckHitStep(TargetKind, old(target.State())).effect).state
        && score.events == old(score.events) +
             ApplyEffect(old(score.State()), CheckHitStep(TargetKind, old(target.State())).effect).events
      ensures !CollideStep(old(State()), c, target != null).deliversCheckHit ==>
        && score.State() == old(score.State()) && score.events == old(score.events)
        && (target != null ==> target.State() == old(target.State()))
      ensures scheduledDestroy == old(scheduledDestroy)
    {
      if sourceWeapon.Some? && (c.struck == sourceWeapon.value || sourceWeapon.value in c.parents) {
        return;
      }
      if hasHit {
        return;
      }
      if target != null {
        target.CheckHit(weaponType, score);
        checkHitsDelivered := checkHitsDelivered + 1;
      }
      HandleHit();
    }

    /** Resolve once and request removal; the impact effect is presentation. */
    method HandleHit()
      modifies this`hasHit, this`removalRequested
      ensures State() == HandleHitStep(old(State()))
    {
      if hasHit {
        return;
      }
      hasHit := true;
      removalRequested := true;
    }
  }

  /** The part of `SpawnProjectile` that creates the projectile: instantiate
      the prefab, then tag the new `ProjectileData` with the shot's weapon
      type and source weapon. */
  method InstantiateTagged(shot: Shot, lifetime: Time) returns (p: Projectile)
    ensures fresh(p) && p.Valid()
    ensures p.State() == Tagged(shot) && p.lifetime == lifetime
    ensures p.scheduledDestroy == None && p.checkHitsDelivered == 0
  {
    p := new Projectile(lifetime);
    p.SetWeaponType(shot.weaponType);
    p.SetSourceWeapon(Some(shot.sourceWeapon));
  }
}
