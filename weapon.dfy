/** The weapon state machine (`WeaponBehaviour`): magazine, reserve
    (negative means unlimited), a cooldown deadline and a reload in progress.
    The reload coroutine becomes a completion deadline that `Tick` finishes. */
module Weapons {
  import opened Basics

  datatype WeaponType = Pistol | Rifle | Shotgun | Any

  /** Inspector settings of one weapon; they do not change while it runs.
      The two `has` flags say whether a projectile prefab and a muzzle
      transform are assigned. */
  datatype WeaponConfig = WeaponConfig(
    weaponType: WeaponType,
    hasProjectilePrefab: bool,
    hasMuzzle: bool,
    fireCooldown: Time,
    magazineSize: int,
    reloadDuration: Time,
    autoReloadOnEmpty: bool)

  /** A spawned projectile as `SpawnProjectile` tags it: the firing weapon's
      type and the firing weapon itself. */
  datatype Shot = Shot(weaponType: WeaponType, sourceWeapon: EntityId)

  /** The mutable part of a weapon. `reloadDoneAt` is the time at which the
      running reload completes; it means nothing while `isReloading` is false. */
  datatype WeaponState = WeaponState(
    currentAmmo: int,
    ammoInReserve: int,
    nextAllowedFireTime: Time,
    isReloading: bool,
    reloadDoneAt: Time)

  datatype Gate = Gate(canFire: bool, state: WeaponState)

  datatype FireResult = FireResult(state: WeaponState, shot: Option<Shot>)

  datatype FireRunResult = FireRunResult(state: WeaponState, shots: seq<Shot>)

  /** The magazine stays within [0, magazineSize] (within [0, 0] for a
      negative size), and a reload only runs while it can load something. */
  predicate AmmoInvariant(cfg: WeaponConfig, s: WeaponState) {
    && 0 <= s.currentAmmo <= Max(cfg.magazineSize, 0)
    && (s.isReloading ==> s.currentAmmo < cfg.magazineSize && s.ammoInReserve != 0)
  }

  /** `Awake`: the magazine starts as `Mathf.Clamp(magazineSize, 0, magazineSize)`. */
  function InitialAmmo(cfg: WeaponConfig): (r: int)
    ensures cfg.magazineSize >= 0 ==> r == cfg.magazineSize
    ensures cfg.magazineSize < 0 ==> r == 0
  {
    Clamp(cfg.magazineSize, 0, cfg.magazineSize)
  }

  /** The state right after `Awake`; the reserve is the inspector value and
      the fire deadline is C#'s default 0. */
  function AwakeState(cfg: WeaponConfig, reserve: int): (r: WeaponState)
    ensures AmmoInvariant(cfg, r)
    ensures !r.isReloading && r.ammoInReserve == reserve && r.currentAmmo == InitialAmmo(cfg)
  {
    WeaponState(InitialAmmo(cfg), reserve, 0.0, false, 0.0)
  }

  /** How long a reload waits: `reloadDuration`, or one frame (no time) when
      it is not positive. */
  function ReloadDelay(cfg: WeaponConfig): (d: Time)
    ensures d >= 0.0
    ensures cfg.reloadDuration > 0.0 ==> d == cfg.reloadDuration
    ensures cfg.reloadDuration <= 0.0 ==> d == 0.0
  {
    if cfg.reloadDuration > 0.0 then cfg.reloadDuration else 0.0
  }

  /** `Reload` starts the routine exactly when no reload is running, the
      magazine is not full and the reserve is not empty. */
  predicate ReloadStarts(cfg: WeaponConfig, s: WeaponState) {
    !s.isReloading && s.currentAmmo < cfg.magazineSize && s.ammoInReserve != 0
  }

  /** `Reload`, with the start of `ReloadRoutine` up to its first wait. */
  function ReloadStep(cfg: WeaponConfig, s: WeaponState, now: Time): (r: WeaponState)
    ensures !ReloadStarts(cfg, s) ==> r == s
    ensures ReloadStarts(cfg, s) ==> r.isReloading && r.reloadDoneAt == now + ReloadDelay(cfg)
    ensures r.currentAmmo == s.currentAmmo && r.ammoInReserve == s.ammoInReserve
    ensures r.nextAllowedFireTime == s.nextAllowedFireTime
    ensures AmmoInvariant(cfg, s) ==> AmmoInvariant(cfg, r)
  {
    if s.isReloading || s.currentAmmo >= cfg.magazineSize then s
    else if s.ammoInReserve == 0 then s
    else s.(isReloading := true, reloadDoneAt := now + ReloadDelay(cfg))
  }

  /** The checks of `CanFire` that come before the magazine is looked at. */
  predicate FireReady(cfg: WeaponConfig, s: WeaponState, now: Time) {
    !s.isReloading && now >= s.nextAllowedFireTime && cfg.hasProjectilePrefab && cfg.hasMuzzle
  }

  /** `CanFire`: firing is allowed exactly when the weapon is ready and the
      magazine holds a round; an empty magazine instead asks for a reload
      when `autoReloadOnEmpty` is set. */
  function CanFireStep(cfg: WeaponConfig, s: WeaponState, now: Time): (r: Gate)
    ensures r.canFire <==> FireReady(cfg, s, now) && s.currentAmmo > 0
    ensures r.canFire ==> r.state == s
    ensures !r.canFire ==>
      r.state == if FireReady(cfg, s, now) && cfg.autoReloadOnEmpty then ReloadStep(cfg, s, now) else s
  {
    if s.isReloading then Gate(false, s)
    else if now < s.nextAllowedFireTime then Gate(false, s)
    else if !cfg.hasProjectilePrefab || !cfg.hasMuzzle then Gate(false, s)
    else if s.currentAmmo <= 0 then
      Gate(false, if cfg.autoReloadOnEmpty then ReloadStep(cfg, s, now) else s)
    else Gate(true, s)
  }

  /** `ConsumeAmmo`: one round less, and a reload when that emptied the
      magazine and `autoReloadOnEmpty` is set. */
  function ConsumeAmmoStep(cfg: WeaponConfig, s: WeaponState, now: Time): (r: WeaponState)
    ensures s.currentAmmo <= 0 ==> r == s
    ensures s.currentAmmo > 0 ==>
      r == if s.currentAmmo == 1 && cfg.autoReloadOnEmpty
           then ReloadStep(cfg, s.(currentAmmo := 0), now)
           else s.(currentAmmo := s.currentAmmo - 1)
  {
    if s.currentAmmo <= 0 then s
    else
      var s1 := s.(currentAmmo := s.currentAmmo - 1);
      if s1.currentAmmo <= 0 && cfg.autoReloadOnEmpty then ReloadStep(cfg, s1, now) else s1
  }

  /** `Fire` by weapon `id` at time `now`. */
  function FireStep(cfg: WeaponConfig, id: EntityId, s: WeaponState, now: Time): (r: FireResult)
    ensures r.shot.Some? <==> FireReady(cfg, s, now) && s.currentAmmo > 0
    ensures r.shot.Some? ==>
      && r.shot.value == Shot(cfg.weaponType, id)
      && r.state.currentAmmo == s.currentAmmo - 1
      && r.state.ammoInReserve == s.ammoInReserve
      && r.state.nextAllowedFireTime == now + cfg.fireCooldown
      && (r.state.isReloading <==>
            r.state.currentAmmo == 0 && cfg.autoReloadOnEmpty && 0 < cfg.magazineSize && s.ammoInReserve != 0)
    ensures r.shot.None? ==>
      r.state == if FireReady(cfg, s, now) && cfg.autoReloadOnEmpty then ReloadStep(cfg, s, now) else s
    ensures !cfg.hasProjectilePrefab || !cfg.hasMuzzle ==> r.shot.None? && r.state == s
    ensures AmmoInvariant(cfg, s) ==> AmmoInvariant(cfg, r.state)
  {
    var gate := CanFireStep(cfg, s, now);
    if !gate.canFire then FireResult(gate.state, None)
    else
      var s1 := ConsumeAmmoStep(cfg, gate.state, now);
      FireResult(s1.(nextAllowedFireTime := now + cfg.fireCooldown), Some(Shot(cfg.weaponType, id)))
  }

  /** The end of `ReloadRoutine` at time `now`. */
  function CompleteReload(cfg: WeaponConfig, s: WeaponState, now: Time): (r: WeaponState)
    ensures !r.isReloading && r.nextAllowedFireTime == now + cfg.fireCooldown
    ensures AmmoInvariant(cfg, s) && s.isReloading && s.ammoInReserve < 0 ==>
      r.currentAmmo == cfg.magazineSize && r.ammoInReserve == s.ammoInReserve
    ensures AmmoInvariant(cfg, s) && s.isReloading && s.ammoInReserve >= 0 ==>
      && r.currentAmmo == s.currentAmmo + Min(cfg.magazineSize - s.currentAmmo, s.ammoInReserve)
      && r.currentAmmo + r.ammoInReserve == s.currentAmmo + s.ammoInReserve
      && r.ammoInReserve >= 0
    ensures AmmoInvariant(cfg, s) ==> AmmoInvariant(cfg, r)
  {
    var missingAmmo := cfg.magazineSize - s.currentAmmo;
    var ammoToLoad := if s.ammoInReserve < 0 then missingAmmo else Min(missingAmmo, s.ammoInReserve);
    var reserve := if s.ammoInReserve < 0 then s.ammoInReserve else s.ammoInReserve - ammoToLoad;
    s.(currentAmmo := Clamp(s.currentAmmo + ammoToLoad, 0, cfg.magazineSize),
       ammoInReserve := reserve,
       isReloading := false,
       nextAllowedFireTime := now + cfg.fireCooldown)
  }

  /** One frame of the reload coroutine: it finishes once its deadline has
      passed and otherwise changes nothing. */
  function TickStep(cfg: WeaponConfig, s: WeaponState, now: Time): (r: WeaponState)
    ensures s.isReloading && now >= s.reloadDoneAt ==> r == CompleteReload(cfg, s, now)
    ensures !(s.isReloading && now >= s.reloadDoneAt) ==> r == s
  {
    if s.isReloading && now >= s.reloadDoneAt then CompleteReload(cfg, s, now) else s
  }

  /** A series of `Fire` calls at the given times, and the shots they produce. */
  function FireRun(cfg: WeaponConfig, id: EntityId, s: WeaponState, times: seq<Time>): FireRunResult
    decreases |times|
  {
    if times == [] then FireRunResult(s, [])
    else
      var first := FireStep(cfg, id, s, times[0]);
      var rest := FireRun(cfg, id, first.state, times[1..]);
      FireRunResult(rest.state, (if first.shot.Some? then [first.shot.value] else []) + rest.shots)
  }

  /** Before the fire deadline every `Fire` is a no-op. */
  lemma {:induction false} NoShotBeforeDeadline(cfg: WeaponConfig, id: EntityId, s: WeaponState, times: seq<Time>)
    requires forall j :: 0 <= j < |times| ==> times[j] < s.nextAllowedFireTime
    ensures FireRun(cfg, id, s, times) == FireRunResult(s, [])
    decreases |times|
  {
    if times != [] {
      NoShotBeforeDeadline(cfg, id, s, times[1..]);
    }
  }

  /** Any number of `Fire` calls within one window shorter than `fireCooldown`
      produce at most one projectile, and exactly one when the first call
      finds the weapon ready with a round in the magazine. */
  lemma {:induction false} OneShotPerCooldownWindow(cfg: WeaponConfig, id: EntityId, s: WeaponState, start: Time, times: seq<Time>)
    requires forall j :: 0 <= j < |times| ==> start <= times[j] < start + cfg.fireCooldown
    ensures |FireRun(cfg, id, s, times).shots| <= 1
    ensures times != [] && FireReady(cfg, s, times[0]) && s.currentAmmo > 0 ==>
      |FireRun(cfg, id, s, times).shots| == 1
    decreases |times|
  {
    if times != [] {
      var first := FireStep(cfg, id, s, times[0]);
      if first.shot.Some? {
        NoShotBeforeDeadline(cfg, id, first.state, times[1..]);
      } else {
        OneShotPerCooldownWindow(cfg, id, first.state, start, times[1..]);
      }
    }
  }

  /** Firing a ready weapon whose reserve is unlimited once per cooldown until
      its magazine of `k` rounds is empty yields `k` shots and leaves it
      reloading, with the reload due `reloadDuration` after the last shot. */
  lemma {:induction false} EmptyingMagazineStartsReload(cfg: WeaponConfig, id: EntityId, s: WeaponState, times: seq<Time>)
    requires cfg.hasProjectilePrefab && cfg.hasMuzzle && cfg.autoReloadOnEmpty && cfg.fireCooldown >= 0.0
    requires AmmoInvariant(cfg, s) && !s.isReloading && s.ammoInReserve < 0
    requires |times| == s.currentAmmo > 0
    requires times[0] >= s.nextAllowedFireTime
    requires forall j :: 0 < j < |times| ==> times[j] >= times[j - 1] + cfg.fireCooldown
    ensures |FireRun(cfg, id, s, times).shots| == |times|
    ensures FireRun(cfg, id, s, times).state.currentAmmo == 0
    ensures FireRun(cfg, id, s, times).state.isReloading
    ensures FireRun(cfg, id, s, times).state.reloadDoneAt == times[|times| - 1] + ReloadDelay(cfg)
    decreases |times|
  {
    var first := FireStep(cfg, id, s, times[0]);
    if |times| > 1 {
      assert times[1] >= times[0] + cfg.fireCooldown;
      EmptyingMagazineStartsReload(cfg, id, first.state, times[1..]);
    }
  }

  /** While a reload runs no shot is possible, and once it completes an
      unlimited reserve gives a full magazine. */
  lemma ReloadWindowThenFullMagazine(cfg: WeaponConfig, id: EntityId, s: WeaponState, during: Time, after: Time)
    requires AmmoInvariant(cfg, s) && s.isReloading && s.ammoInReserve < 0
    requires during < s.reloadDoneAt <= after
    ensures FireStep(cfg, id, s, during).shot.None?
    ensures TickStep(cfg, s, during) == s
    ensures TickStep(cfg, s, after).currentAmmo == cfg.magazineSize
    ensures !TickStep(cfg, s, after).isReloading
  {
  }

  /** A weapon whose reserve is exactly 0 never starts a reload. */
  lemma EmptyReserveNeverReloads(cfg: WeaponConfig, s: WeaponState, now: Time)
    requires s.ammoInReserve == 0
    ensures ReloadStep(cfg, s, now) == s
  {
  }

  /** One weapon object. */
  class Weapon {
    const config: WeaponConfig
    /** The weapon's own game object, which its projectiles record. */
    const id: EntityId
    var currentAmmo: int
    var ammoInReserve: int
    var nextAllowedFireTime: Time
    var isReloading: bool
    var reloadDoneAt: Time

    function State(): WeaponState
      reads this
    {
      WeaponState(currentAmmo, ammoInReserve, nextAllowedFireTime, isReloading, reloadDoneAt)
    }

    ghost predicate Valid()
      reads this
    {
      AmmoInvariant(config, State())
    }

    /** Construction with the inspector settings, followed by `Awake`. */
    constructor (config: WeaponConfig, id: EntityId, reserve: int)
      ensures Valid() && this.config == config && this.id == id
      ensures State() == AwakeState(config, reserve)
    {
      this.config := config;
      this.id := id;
      currentAmmo := Clamp(config.magazineSize, 0, config.magazineSize);
      ammoInReserve := reserve;
      nextAllowedFireTime := 0.0;
      isReloading := false;
      reloadDoneAt := 0.0;
    }

    method Fire(now: Time) returns (shot: Option<Shot>)
      requires Valid()
      modifies this
      ensures Valid()
      ensures State() == FireStep(config, id, old(State()), now).state
      ensures shot == FireStep(config, id, old(State()), now).shot
    {
      var ok := CanFire(now);
      if !ok {
        return None;
      }
      var projectile := SpawnProjectile();
      shot := Some(projectile);
      ConsumeAmmo(now);
      nextAllowedFireTime := now + config.fireCooldown;
    }

    method CanFire(now: Time) returns (ok: bool)
      requires Valid()
      modifies this
      ensures Valid()
      ensures ok == CanFireStep(config, old(State()), now).canFire
      ensures State() == CanFireStep(config, old(State()), now).state
    {
      if isReloading {
        return false;
      }
      if now < nextAllowedFireTime {
        return false;
      }
      if !config.hasProjectilePrefab || !config.hasMuzzle {
        return false;
      }
      if currentAmmo <= 0 {
        if config.autoReloadOnEmpty {
          Reload(now);
        }
        return false;
      }
      return true;
    }

    /** The tags the new projectile receives: this weapon's type and this
        weapon (`Projectiles.InstantiateTagged` creates and tags it). */
    method SpawnProjectile() returns (shot: Shot)
      ensures shot.weaponType == config.weaponType && shot.sourceWeapon == id
    {
      shot := Shot(config.weaponType, id);
    }

    method Reload(now: Time)
      requires Valid()
      modifies this
      ensures Valid()
      ensures State() == ReloadStep(config, old(State()), now)
    {
      if isReloading || currentAmmo >= config.magazineSize {
        return;
      }
      if ammoInReserve == 0 {
        return;
      }
      isReloading := true;
      reloadDoneAt := now + ReloadDelay(config);
    }

    method ConsumeAmmo(now: Time)
      requires Valid()
      modifies this
      ensures Valid()
      ensures State() == ConsumeAmmoStep(config, old(State()), now)
    {
      if currentAmmo <= 0 {
        return;
      }
      currentAmmo := currentAmmo - 1;
      if currentAmmo <= 0 && config.autoReloadOnEmpty {
        Reload(now);
      }
    }

    /** The reload coroutine's resumption in the frame at time `now`. */
    method Tick(now: Time)
      requires Valid()
      modifies this
      ensures Valid()
      ensures State() == TickStep(config, old(State()), now)
    {
      if !isReloading || now < reloadDoneAt {
        return;
      }
      var missingAmmo := config.magazineSize - currentAmmo;
      var ammoToLoad: int;
      if ammoInReserve < 0 {
        ammoToLoad := missingAmmo;
      } else {
        ammoToLoad := Min(missingAmmo, ammoInReserve);
        ammoInReserve := ammoInReserve - ammoToLoad;
      }
      currentAmmo := currentAmmo + ammoToLoad;
      currentAmmo := Clamp(currentAmmo, 0, config.magazineSize);
      isReloading := false;
      nextAllowedFireTime := now + config.fireCooldown;
    }
  }
}
