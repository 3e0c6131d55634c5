# Combat loop of a VR duck-hunt shooter, modelled in Dafny

This project models the combat loop of a Unity VR shooting game. It covers
the score and lives tracker, the weapon's ammo, cooldown and reload state
machine, the one-shot projectile, the targets and bombs it can hit, the
self-destruct countdown on spawned objects, the spawn scheduler with its
escalating difficulty, the session controller (pause, game over, panels,
time scale) and the level lookup.

Each C# component that updates its own fields is a Dafny class with the same
state fields, plus a few the model adds (a reload deadline, a removal flag, the
spawner's child set). Its state is also given as a value (`State()`). Most methods are
proved to produce the state that a pure step function computes from the old
state (`ensures State() == FireStep(config, id, old(State()), now).state`).
Lemmas over runs of those step functions prove the promises that span
several calls: at most one `CheckHit` per projectile, at most one effect per
target, at most one game-over per episode, one projectile per cooldown
window, and the best score as the running maximum. `LevelSpawner` has no
state and is a function returning an outcome.

Modelling conventions:

- Engine time (`Time.time`) is a `real` passed in as `now`. Frame time
  (`Time.deltaTime`) is a `real` parameter. A paused game is one whose caller
  stops advancing `now`. Time is exact; float rounding is not modelled.
- Each `Random.value` draw is a parameter: `draw(i)` for the `i`-th spawn
  of a frame.
- The tracker is passed explicitly; there is no singleton. Its two Unity
  events are appended, in order, to the ghost log `ScoreManager.events`.
  A score-changed entry also records the best score that a listener reading
  `maxScore` during dispatch would see. `AddPoints` raises the event before it
  updates the best score, so that value is the previous best.
- The reload coroutine is a deadline, `reloadDoneAt`. `Weapon.Tick(now)` is
  the coroutine's resumption in a later frame and completes the reload once
  the deadline has passed. A non-positive `reloadDuration` (one `yield return
  null`) gives a deadline of `now`, so the next `Tick` completes it.
- The engine's deferred `Destroy` is a "removal requested" flag on the
  object. The spawner's children are a set of entity ids that it hands out.
  `RemoveChild` removes an id once the engine has destroyed that object.
- Several calls in the source have no definition, and each is kept as an
  explicit hook or parameter. `TargetSpawner` has no `StartGame` or `StopGame`,
  but `GameController` calls both. The model's two hooks only record that
  they were called. `ScoreManager` has no `SetTargetScore`, so the level
  lookup returns that call as an action. `GetDamage()` is called without its
  `damage` argument, so bombs and countdowns take the amount as a
  configuration parameter.
- `ProjectileData` looks up `TargetBehaviour`, not the shared shootable
  interface. So a projectile never sends `CheckHit` to a bomb.
  `CollideStep` gets only a "struck object has a `TargetBehaviour`" flag.

Behaviour of the code that the model keeps:

- Lives are not clamped at 0.
- Level-lost is raised on every damage call that leaves lives at or below
  0. The tracker has no once-only guard; the guard is in `GameController`
  (`LevelLostOnEveryLaterDamage`, `RepeatedLevelLostEndsGameOnce`).
- `Reset` raises only score-changed. There is no lives-changed event, no
  level-complete event and no target-countdown mode.
- The spawner chooses between a target and a bomb with one threshold,
  `bombSpawnChance`. It has no weighted candidate table.
- One `Update` spawns the whole deficit. The required count starts at 0,
  and the first `Update` levels it up to 1.
- Stopping the session does not cancel a running reload.

## Model

| member | source | states |
|---|---|---|
| Basics.Clamp | Assets/Scripts/Weapons/WeaponBehaviour.cs:181 | Unity's integer clamp: the identity inside the range, `min` below it, `max` above it; the lower bound is tested first, so an empty range gives `min` or `max` |
| Basics.Min | Assets/Scripts/Weapons/WeaponBehaviour.cs:176 | Unity's `Mathf.Min`: the result is one of the two arguments and no larger than either |
| ScoreTracking.ResetStep | Assets/Scripts/ScoreManager.cs:56-61 | score 0, lives = `lifeCount`, best score untouched, exactly one score-changed(0) event; keeps the tracker consistent |
| ScoreTracking.AddPointsStep | Assets/Scripts/ScoreManager.cs:67-75 | score raised by exactly `points`, lives untouched, best = max(old best, new score), one score-changed event carrying the new score and the pre-update best |
| ScoreTracking.GetDamageStep | Assets/Scripts/ScoreManager.cs:77-84 | lives lowered by exactly `damage` with no clamp; level-lost(lives) raised iff lives end at or below 0; score and best untouched |
| ScoreTracking.MaxScoreIsBestObserved | Assets/Scripts/ScoreManager.cs:67-75 | over any series of `AddPoints`, the best score is the maximum of the earlier best and every score observed; the score is the sum; one score-changed per call reports each observed score |
| ScoreTracking.NonNegativePointsKeepMaxAtFinal | Assets/Scripts/ScoreManager.cs:71-74 | with non-negative points from consistent counters, the score never falls and the best is max(earlier best, final score) |
| ScoreTracking.LevelLostOnEveryLaterDamage | Assets/Scripts/ScoreManager.cs:79-83 | once lives are at or below 0, every further non-negative damage call raises level-lost again, and lives drop by the total damage |
| ScoreTracking.ScoreManager.constructor | Assets/Scripts/ScoreManager.cs:10-19 | counters start at 0 with an empty event log and the configured life count |
| ScoreTracking.ScoreManager.Reset | Assets/Scripts/ScoreManager.cs:56-61 | new counters and appended events are those of `ResetStep`; consistency kept |
| ScoreTracking.ScoreManager.AddPoints | Assets/Scripts/ScoreManager.cs:67-75 | new counters and appended events are those of `AddPointsStep`, the event logged before the best is updated; best never below score |
| ScoreTracking.ScoreManager.GetDamage | Assets/Scripts/ScoreManager.cs:77-84 | new counters and appended events are those of `GetDamageStep` |
| Weapons.InitialAmmo | Assets/Scripts/Weapons/WeaponBehaviour.cs:55-58 | the magazine starts full, or empty for a negative magazine size |
| Weapons.AwakeState | Assets/Scripts/Weapons/WeaponBehaviour.cs:45-58 | the state after `Awake` is not reloading, has the configured reserve, and satisfies the ammo invariant |
| Weapons.ReloadDelay | Assets/Scripts/Weapons/WeaponBehaviour.cs:158-165 | the reload waits exactly `reloadDuration` when it is positive, otherwise exactly 0 (one frame) |
| Weapons.ReloadStep | Assets/Scripts/Weapons/WeaponBehaviour.cs:134-156 | a no-op when already reloading, the magazine is full, or the reserve is 0; otherwise starts reloading with a deadline `now + delay`; ammo, reserve and cooldown untouched; invariant kept |
| Weapons.CanFireStep | Assets/Scripts/Weapons/WeaponBehaviour.cs:77-106 | fire allowed iff not reloading, `now >= nextAllowedFireTime`, prefab and muzzle set, and a round loaded; an empty magazine on a ready weapon starts a reload when auto-reload is on |
| Weapons.ConsumeAmmoStep | Assets/Scripts/Weapons/WeaponBehaviour.cs:188-201 | one round less; a reload requested when that emptied the magazine and auto-reload is on; nothing when already empty |
| Weapons.FireStep | Assets/Scripts/Weapons/WeaponBehaviour.cs:63-75 | a projectile iff ready with a round; it is tagged with the weapon type and weapon, ammo drops by 1, reserve kept, cooldown deadline `now + fireCooldown`, reloading iff the last round went with auto-reload on and a non-empty reserve; no projectile without prefab or muzzle; an empty-magazine fire only starts a reload; invariant kept |
| Weapons.CompleteReload | Assets/Scripts/Weapons/WeaponBehaviour.cs:167-185 | clears reloading and sets the fire deadline to completion + cooldown; an unlimited reserve fills the magazine and is unchanged; a finite one loads min(missing, reserve) and conserves ammo + reserve |
| Weapons.TickStep | Assets/Scripts/Weapons/WeaponBehaviour.cs:158-186 | the reload completes exactly on a frame at or past its deadline; before that nothing changes |
| Weapons.NoShotBeforeDeadline | Assets/Scripts/Weapons/WeaponBehaviour.cs:84-87 | any series of `Fire` calls before the fire deadline changes nothing and produces no projectile |
| Weapons.OneShotPerCooldownWindow | Assets/Scripts/Weapons/WeaponBehaviour.cs:74-87 | any number of `Fire` calls within a window shorter than `fireCooldown` produce at most one projectile, exactly one when the first finds the weapon ready and loaded |
| Weapons.EmptyingMagazineStartsReload | Assets/Scripts/Weapons/WeaponBehaviour.cs:188-200 | firing a loaded magazine of k rounds (unlimited reserve, auto-reload) once per cooldown yields k shots, an empty magazine, and a reload due `reloadDuration` after the last shot |
| Weapons.ReloadWindowThenFullMagazine | Assets/Scripts/Weapons/WeaponBehaviour.cs:79-82 | during a reload no shot is possible and nothing completes; after its deadline an unlimited reserve gives a full magazine |
| Weapons.EmptyReserveNeverReloads | Assets/Scripts/Weapons/WeaponBehaviour.cs:141-144 | with a reserve of exactly 0, `Reload` leaves the weapon unchanged |
| Weapons.Weapon.constructor | Assets/Scripts/Weapons/WeaponBehaviour.cs:55-58 | the weapon starts in `AwakeState` with its configuration and identity |
| Weapons.Weapon.Fire | Assets/Scripts/Weapons/WeaponBehaviour.cs:63-75 | new state and returned projectile are those of `FireStep`; ammo invariant kept |
| Weapons.Weapon.CanFire | Assets/Scripts/Weapons/WeaponBehaviour.cs:77-106 | returned verdict and new state are those of `CanFireStep` |
| Weapons.Weapon.SpawnProjectile | Assets/Scripts/Weapons/WeaponBehaviour.cs:108-116 | the tags the new projectile receives are this weapon's type and this weapon; `Projectiles.InstantiateTagged` creates and tags the projectile from them |
| Weapons.Weapon.Reload | Assets/Scripts/Weapons/WeaponBehaviour.cs:134-156 | new state is that of `ReloadStep` |
| Weapons.Weapon.ConsumeAmmo | Assets/Scripts/Weapons/WeaponBehaviour.cs:188-201 | new state is that of `ConsumeAmmoStep` |
| Weapons.Weapon.Tick | Assets/Scripts/Weapons/WeaponBehaviour.cs:154-186 | new state is that of `TickStep`; ammo stays within [0, magazineSize] |
| Shootables.EffectOf | Assets/Scripts/Targets/TargetBehaviour.cs:42 | a target's effect is one point through the default argument; a bomb's is its damage |
| Shootables.CheckHitStep | Assets/Scripts/Targets/TargetBehaviour.cs:27-42 | after any hit the object is inactive; an effect is applied iff it was active, and then it is marked for removal; a hit on an inactive object changes nothing; targets never damage, bombs never score |
| Shootables.ApplyEffect | Assets/Scripts/Targets/BombBehaviour.cs:33 | an effect is the tracker's `AddPoints` or `GetDamage` step, or nothing |
| Shootables.EffectAppliedAtMostOnce | Assets/Scripts/Targets/TargetBehaviour.cs:29-32 | however many hits, the effect is applied at most once: exactly once, first, when the object was active and hit |
| Targets.Target.constructor | Assets/Scripts/Targets/TargetBehaviour.cs:17 | a target starts active and not marked for removal |
| Targets.Target.CheckHit | Assets/Scripts/Targets/TargetBehaviour.cs:27-36 | new state and tracker change are those of `CheckHitStep` for a target; the projectile's weapon type plays no part |
| Targets.Target.OnValidHit | Assets/Scripts/Targets/TargetBehaviour.cs:38-57 | deactivates, adds exactly one point (the tracker's `AddPointsStep`), and marks the target for removal |
| Bombs.Bomb.constructor | Assets/Scripts/Targets/BombBehaviour.cs:16 | a bomb starts active and not marked for removal, with its damage amount |
| Bombs.Bomb.CheckHit | Assets/Scripts/Targets/BombBehaviour.cs:18-27 | new state and tracker change are those of `CheckHitStep` for a bomb; the projectile plays no part |
| Bombs.Bomb.OnValidHit | Assets/Scripts/Targets/BombBehaviour.cs:29-50 | deactivates, applies the tracker's `GetDamageStep` once with no points, and marks the bomb for removal |
| Projectiles.LifetimeRule | Assets/Scripts/Weapons/ProjectileData.cs:65-71 | a timed destruction after `lifetime` is scheduled iff `lifetime > 0` |
| Projectiles.HandleHitStep | Assets/Scripts/Weapons/ProjectileData.cs:102-112 | afterwards the projectile has hit; the first call requests its removal, later ones change nothing |
| Projectiles.CollideStep | Assets/Scripts/Weapons/ProjectileData.cs:73-95 | self-hits and hits after the first are ignored; the first other contact sets `hasHit`, requests removal, and delivers `CheckHit` iff the struck object has a `TargetBehaviour` |
| Projectiles.Tagged | Assets/Scripts/Weapons/WeaponBehaviour.cs:113-115 | a shot's projectile carries the shot's weapon type and its firing weapon as source, and is unresolved |
| Projectiles.InstantiateTagged | Assets/Scripts/Weapons/WeaponBehaviour.cs:110-115 | a fresh `Projectile`, tagged through `SetWeaponType` and `SetSourceWeapon`, in state `Tagged(shot)`, with nothing scheduled or delivered |
| Projectiles.TaggedProjectileIgnoresItsWeapon | Assets/Scripts/Weapons/ProjectileData.cs:75-79 | a shot's projectile ignores every contact with its firing weapon or anything below it: it stays unresolved and delivers nothing |
| Projectiles.FiredProjectileIgnoresItsWeapon | Assets/Scripts/Weapons/WeaponBehaviour.cs:63-75 | whenever `Fire` produces a projectile, it carries the weapon's type, is linked to that weapon, and ignores contacts with it |
| Projectiles.CheckHitDeliveredAtMostOnce | Assets/Scripts/Weapons/ProjectileData.cs:82-91 | whatever contacts are reported, `CheckHit` is delivered at most once, and never after the projectile has hit |
| Projectiles.SelfHitsAreIgnored | Assets/Scripts/Weapons/ProjectileData.cs:75-79 | contacts with the source weapon or its descendants change nothing and deliver nothing |
| Projectiles.FirstOtherContactResolves | Assets/Scripts/Weapons/ProjectileData.cs:88-94 | the first non-self contact resolves the projectile and requests removal even when it struck no target; `CheckHit` is delivered iff that object is a target |
| Projectiles.Projectile.constructor | Assets/Scripts/Weapons/ProjectileData.cs:16-18 | a projectile starts unresolved, untagged, with no source and nothing delivered |
| Projectiles.Projectile.SetWeaponType | Assets/Scripts/Weapons/ProjectileData.cs:29-32 | sets the weapon type and nothing else |
| Projectiles.Projectile.GetWeaponType | Assets/Scripts/Weapons/ProjectileData.cs:37-40 | returns the weapon type last set |
| Projectiles.Projectile.SetSourceWeapon | Assets/Scripts/Weapons/ProjectileData.cs:45-48 | sets the source weapon and nothing else |
| Projectiles.Projectile.Start | Assets/Scripts/Weapons/ProjectileData.cs:65-71 | schedules the timed destruction as `LifetimeRule` says, otherwise leaves it |
| Projectiles.Projectile.OnCollisionEnter | Assets/Scripts/Weapons/ProjectileData.cs:73-95 | new state is that of `CollideStep`; when it delivers, the target and tracker change as `CheckHitStep`/`ApplyEffect` say, otherwise neither changes; the delivered count stays at most 1 |
| Projectiles.Projectile.HandleHit | Assets/Scripts/Weapons/ProjectileData.cs:102-112 | new state is that of `HandleHitStep` |
| DestroyTimers.StartStep | Assets/Scripts/Targets/DestroyObject.cs:22-25 | the countdown becomes active, with timer and removal untouched |
| DestroyTimers.UpdateStep | Assets/Scripts/Targets/DestroyObject.cs:27-44 | inactive: nothing; active: adds exactly `dt` and finishes iff the total reaches `destroyTimer`, then inactive with removal requested |
| DestroyTimers.FinishEffect | Assets/Scripts/Targets/DestroyObject.cs:55-58 | the player is damaged iff the countdown finished and `damagePlayerOnDestroy` is set |
| DestroyTimers.FinishesAtMostOnce | Assets/Scripts/Targets/DestroyObject.cs:29-31 | over any frames the countdown finishes at most once, and an inactive one never changes |
| DestroyTimers.NotFinishedBeforeDue | Assets/Scripts/Targets/DestroyObject.cs:33-43 | with non-negative frame times, it does not finish while the accumulated time stays below the limit, and it has added exactly the frame times |
| DestroyTimers.DestroyObject.constructor | Assets/Scripts/Targets/DestroyObject.cs:19-20 | the countdown starts at 0, inactive, not started |
| DestroyTimers.DestroyObject.Start | Assets/Scripts/Targets/DestroyObject.cs:22-25 | new state is that of `StartStep` |
| DestroyTimers.DestroyObject.Update | Assets/Scripts/Targets/DestroyObject.cs:27-44 | new state is that of `UpdateStep`; the tracker changes only by `FinishEffect`; finishes at most once in the object's life |
| DestroyTimers.DestroyObject.OnTimerFinished | Assets/Scripts/Targets/DestroyObject.cs:52-62 | deactivates, damages the player only when configured, and requests removal |
| Spawning.ChooseKind | Assets/Scripts/Targets/TargetSpawner.cs:65-66 | a spawn is a bomb iff the draw is below `bombSpawnChance` |
| Spawning.LevelUpStep | Assets/Scripts/Targets/TargetSpawner.cs:38-50 | required count up by exactly 1; the advanced interval iff the count reached the threshold; next level-up one interval after `now` |
| Spawning.Deficit | Assets/Scripts/Targets/TargetSpawner.cs:54-60 | the top-up creates max(0, required - live) objects, after which live >= required |
| Spawning.UpdateStep | Assets/Scripts/Targets/TargetSpawner.cs:28-36 | the top-up uses the count before this frame's level-up; the level-up happens iff `now >= nextLevelUpTime` |
| Spawning.LevelUpsEscalate | Assets/Scripts/Targets/TargetSpawner.cs:40-49 | after k level-ups the count has grown by exactly k; the interval is the advanced one iff the count reached the threshold; the next level-up is one interval after the last |
| Spawning.AdvancedIntervalNeverReverts | Assets/Scripts/Targets/TargetSpawner.cs:41-44 | once a level-up reaches the advanced threshold, every later level-up keeps the advanced interval |
| Spawning.IncrementFilledOnNextUpdate | Assets/Scripts/Targets/TargetSpawner.cs:30-35 | a levelling frame fills only the old count; the next frame spawns the one new object |
| Spawning.TargetSpawner.constructor | Assets/Scripts/Targets/TargetSpawner.cs:24-26 | zero required count, interval and level-up time; no children |
| Spawning.TargetSpawner.Update | Assets/Scripts/Targets/TargetSpawner.cs:28-36 | new plan is that of `UpdateStep`; exactly its spawn count of new children, with the kinds the draws choose |
| Spawning.TargetSpawner.LevelUp | Assets/Scripts/Targets/TargetSpawner.cs:38-50 | new plan is that of `LevelUpStep` |
| Spawning.TargetSpawner.SpawnUntilRequiredCount | Assets/Scripts/Targets/TargetSpawner.cs:52-61 | adds exactly `Deficit(required, live)` new children, keeps the old ones, and logs one chosen kind per spawn |
| Spawning.TargetSpawner.SpawnTarget | Assets/Scripts/Targets/TargetSpawner.cs:63-70 | adds one fresh child of the kind `ChooseKind` gives for the draw |
| Spawning.TargetSpawner.RemoveChild | Assets/Scripts/Targets/TargetSpawner.cs:54 | a destroyed object no longer counts as a child |
| Spawning.TargetSpawner.StartGame | Assets/Scripts/UI/GameController.cs:92 | only records that it was called |
| Spawning.TargetSpawner.StopGame | Assets/Scripts/UI/GameController.cs:78 | only records that it was called |
| Session.PauseStep | Assets/Scripts/UI/GameController.cs:33-43 | a no-op once the game is over; otherwise paused, time scale 0, pause panel shown |
| Session.ResumeStep | Assets/Scripts/UI/GameController.cs:45-50 | not paused, time scale 1, pause panel hidden, all else kept |
| Session.ToggleStep | Assets/Scripts/UI/GameController.cs:52-67 | nothing while both the game and pause panels are hidden; otherwise resume when paused and pause when not, so a running game's pause flag flips |
| Session.LevelLostStep | Assets/Scripts/UI/GameController.cs:69-81 | acts iff the game is not over; acting sets game over, hides the game panel and shows the lose panel |
| Session.StartClickedStep | Assets/Scripts/UI/GameController.cs:83-90 | clears both flags, time scale 1, menu hidden, game panel shown |
| Session.ReturnToMenuStep | Assets/Scripts/UI/GameController.cs:95-105 | clears both flags, time scale 1, only the menu panel shown |
| Session.LevelLostActsOncePerEpisode | Assets/Scripts/UI/GameController.cs:71-76 | with no start or return to menu in between, level-lost is acted on at most once and the game stays over |
| Session.RepeatedLevelLostEndsGameOnce | Assets/Scripts/UI/GameController.cs:69-81 | delivering the tracker's events to a running game ends it exactly once iff any level-lost was raised |
| Session.GameOverIgnoresEvents | Assets/Scripts/UI/GameController.cs:71-74 | a finished game ignores every further notification |
| Session.DeliverEvents | Assets/Scripts/UI/GameController.cs:23 | the tracker's notifications as seen by the `onLevelLost` listener (raised at Assets/Scripts/ScoreManager.cs:82): at most one loss, none once the game is over, and a game that registers a loss ends over |
| Session.DeliverEventsIsCommandRun | Assets/Scripts/UI/GameController.cs:23 | delivering the tracker's notifications is the same as running the controller on the `OnLevelLost` commands they amount to; score-changed has no listener |
| Session.GameController.constructor | Assets/Scripts/UI/GameController.cs:9-19 | flags false, time scale 1, panels as the scene sets them |
| Session.GameController.Start | Assets/Scripts/UI/GameController.cs:21-26 | new state is that of `ResumeStep` |
| Session.GameController.PauseGame | Assets/Scripts/UI/GameController.cs:33-43 | new state is that of `PauseStep` |
| Session.GameController.ResumeGame | Assets/Scripts/UI/GameController.cs:45-50 | new state is that of `ResumeStep` |
| Session.GameController.TogglePause | Assets/Scripts/UI/GameController.cs:52-67 | new state is that of `ToggleStep` |
| Session.GameController.OnLevelLost | Assets/Scripts/UI/GameController.cs:69-81 | new state is that of `LevelLostStep`; the spawner is stopped iff it acted |
| Session.GameController.OnStartButtonClicked | Assets/Scripts/UI/GameController.cs:83-93 | new state is that of `StartClickedStep`; the tracker is reset (`ResetStep`); the spawner is started |
| Session.GameController.ReturnToMainMenu | Assets/Scripts/UI/GameController.cs:95-108 | new state is that of `ReturnToMenuStep`; the spawner is stopped; the tracker is reset (`ResetStep`) |
| Levels.SpawnLevel | Assets/Scripts/LevelSpawner.cs:11-35 | an index out of range, or an entry without prefab, logs its error and does nothing; no error happens iff the index is in range and the entry has a prefab, and then exactly its prefab is instantiated and its target score set |

## Left out

- Singleton plumbing (`ScoreManager.Instance`, `Awake`, `DontDestroyOnLoad`): one tracker is passed explicitly instead.
- Unity event dispatch and listener registration (`AddListener`/`RemoveListener` in `GameController.Start` and `OnDestroy`): events go to a ghost log, and `DeliverEvents` is the level-lost listener.
- Presentation: muzzle flash, haptics, projectile velocity, hit and explosion particles, colour tweens, the countdown slider (`UpdateTimerDisplay`), and debug logging.
- Physics details: the `Physics.IgnoreCollision` set-up in `SetSourceWeapon`, contact points and rotations. A contact is the struck object and its chain of transform parents.
- Spawn geometry (`GetRandomSpawnPosition`) and the random chance of a target to move (`TargetBehaviour.Start`, `TargetMotion`).
- The engine's deferred and timed `Destroy`. Removal is a "requested" flag, and `Projectile.Start` records only the requested delay.
- The `StopCoroutine` branch of `Reload`. When `Reload` gets past its guards no reload is running, so that branch is never taken.
- `Weapons.Weapon.Tick`: the caller must call it only in frames after the one that started the reload. A one-frame wait has deadline `now`, so a `Tick` in the same frame would complete it at once.
- `ProjectileData.Awake` assertions and `OnDestroy` logging: they have no effect on state.
- The model assumes the particle references are assigned: `hitEffectParticle` (asserted in `ProjectileData.Awake`) and `BombBehaviour.explosionParticles`. With one unassigned, `Instantiate` throws before `Destroy`, so the projectile stays resolved but not removed and the bomb stays inactive in the scene. The model always requests removal.
- The `levelListData` reference in `LevelSpawner` can be left unassigned, and the model assumes it is assigned. It also takes the serialised `levels` array and its entries as never null, which Unity guarantees for serialised arrays of serialisable classes.
- Float arithmetic: times are exact reals and counters are unbounded integers. 32-bit overflow of the score or lives is not modelled.
- VRMovementDisabler.cs, SoundManager.cs, SoundSlider.cs, GameUIUpdater.cs, MaxScoreDisplay.cs, WeaponFireInputHandler.cs, PauseInputHandler.cs and TargetMotion.cs are not part of this model. They are input bindings, UI text, audio, animation or reflection over a third-party library.
