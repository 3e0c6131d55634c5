/** The spawn scheduler (`TargetSpawner`): every frame it tops the live
    children up to the required count, then, once the level-up time has come,
    raises the required count by one and picks the next interval. */
module Spawning {
  import opened Basics

  /** Inspector settings. `bombSpawnChance` is compared with a uniform draw. */
  datatype SpawnerConfig = SpawnerConfig(
    initialSpawnInterval: Time,
    advancedSpawnInterval: Time,
    advancedThreshold: int,
    bombSpawnChance: real)

  datatype SpawnKind = TargetSpawn | BombSpawn

  /** The escalation state: `_requiredTargets`, `_currentSpawnInterval`,
      `_nextLevelUpTime`. */
  datatype LevelPlan = LevelPlan(requiredTargets: int, currentSpawnInterval: Time, nextLevelUpTime: Time)

  datatype UpdateResult = UpdateResult(plan: LevelPlan, spawned: nat)

  /** A call `GameController` makes on the spawner although `TargetSpawner`
      defines no such method. */
  datatype HookCall = StartGameCalled | StopGameCalled

  /** The fields as initialised: all zero, so the first frame levels up. */
  const Initial := LevelPlan(0, 0.0, 0.0)

  /** `SpawnTarget`'s choice for a draw of `Random.value`. */
  function ChooseKind(cfg: SpawnerConfig, draw: real): (k: SpawnKind)
    ensures k == BombSpawn <==> draw < cfg.bombSpawnChance
  {
    if draw < cfg.bombSpawnChance then BombSpawn else TargetSpawn
  }

  /** `LevelUp` at time `now`. */
  function LevelUpStep(cfg: SpawnerConfig, p: LevelPlan, now: Time): (r: LevelPlan)
    ensures r.requiredTargets == p.requiredTargets + 1
    ensures r.requiredTargets >= cfg.advancedThreshold ==> r.currentSpawnInterval == cfg.advancedSpawnInterval
    ensures r.requiredTargets < cfg.advancedThreshold ==> r.currentSpawnInterval == cfg.initialSpawnInterval
    ensures r.nextLevelUpTime == now + r.currentSpawnInterval
  {
    var required := p.requiredTargets + 1;
    var interval := if required >= cfg.advancedThreshold then cfg.advancedSpawnInterval else cfg.initialSpawnInterval;
    LevelPlan(required, interval, now + interval)
  }

  /** How many objects `SpawnUntilRequiredCount` creates with `live` children. */
  function Deficit(required: int, live: nat): (n: nat)
    ensures live + n >= required
    ensures n > 0 ==> live + n == required
  {
    if live < required then required - live else 0
  }

  /** One frame (`Update`) at time `now` with `live` children: the top-up
      uses the required count from before this frame's level-up. */
  function UpdateStep(cfg: SpawnerConfig, p: LevelPlan, live: nat, now: Time): (r: UpdateResult)
    ensures r.spawned == Deficit(p.requiredTargets, live)
    ensures now >= p.nextLevelUpTime ==> r.plan == LevelUpStep(cfg, p, now)
    ensures now < p.nextLevelUpTime ==> r.plan == p
  {
    var spawned := Deficit(p.requiredTargets, live);
    UpdateResult(if now >= p.nextLevelUpTime then LevelUpStep(cfg, p, now) else p, spawned)
  }

  /** The kinds chosen for `n` successive spawns, the `i`-th using `draw(i)`. */
  function SpawnKinds(cfg: SpawnerConfig, draw: int -> real, n: nat): seq<SpawnKind> {
    seq(n, i => ChooseKind(cfg, draw(i)))
  }

  /** Level-ups at the given times. */
  function LevelUpRun(cfg: SpawnerConfig, p: LevelPlan, times: seq<Time>): LevelPlan
    decreases |times|
  {
    if times == [] then p else LevelUpRun(cfg, LevelUpStep(cfg, p, times[0]), times[1..])
  }

  /** After `k` level-ups the required count has grown by exactly `k`, the
      interval is the advanced one exactly when the count has reached the
      threshold, and the next level-up is one interval after the last. */
  lemma {:induction false} LevelUpsEscalate(cfg: SpawnerConfig, p: LevelPlan, times: seq<Time>)
    ensures LevelUpRun(cfg, p, times).requiredTargets == p.requiredTargets + |times|
    ensures times != [] && p.requiredTargets + |times| >= cfg.advancedThreshold ==>
      LevelUpRun(cfg, p, times).currentSpawnInterval == cfg.advancedSpawnInterval
    ensures times != [] && p.requiredTargets + |times| < cfg.advancedThreshold ==>
      LevelUpRun(cfg, p, times).currentSpawnInterval == cfg.initialSpawnInterval
    ensures times != [] ==>
      LevelUpRun(cfg, p, times).nextLevelUpTime ==
        times[|times| - 1] + LevelUpRun(cfg, p, times).currentSpawnInterval
    decreases |times|
  {
    if times != [] {
      var next := LevelUpStep(cfg, p, times[0]);
      LevelUpsEscalate(cfg, next, times[1..]);
      if |times| > 1 {
        assert times[1..][|times[1..]| - 1] == times[|times| - 1];
      }
    }
  }

  /** Once a level-up has switched to the advanced interval, every later
      level-up keeps it. */
  lemma AdvancedIntervalNeverReverts(cfg: SpawnerConfig, p: LevelPlan, times: seq<Time>, k: nat, j: nat)
    requires 0 < k <= j <= |times|
    requires LevelUpRun(cfg, p, times[..k]).requiredTargets >= cfg.advancedThreshold
    ensures LevelUpRun(cfg, p, times[..j]).currentSpawnInterval == cfg.advancedSpawnInterval
  {
    LevelUpsEscalate(cfg, p, times[..k]);
    LevelUpsEscalate(cfg, p, times[..j]);
  }

  /** A frame that levels up has already topped up to the old count, so the
      new increment is missing until the next frame, whose top-up fills it. */
  lemma IncrementFilledOnNextUpdate(cfg: SpawnerConfig, p: LevelPlan, live: nat, now1: Time, now2: Time)
    requires now1 >= p.nextLevelUpTime && live <= p.requiredTargets
    ensures live + UpdateStep(cfg, p, live, now1).spawned == p.requiredTargets
    ensures UpdateStep(cfg, p, live, now1).plan.requiredTargets == p.requiredTargets + 1
    ensures UpdateStep(cfg, UpdateStep(cfg, p, live, now1).plan, p.requiredTargets, now2).spawned == 1
  {
  }

  class TargetSpawner {
    const config: SpawnerConfig
    var requiredTargets: int
    var currentSpawnInterval: Time
    var nextLevelUpTime: Time
    /** The live child objects under the spawner's transform. */
    var children: set<EntityId>
    /** The identity the next spawned object receives. */
    var nextId: EntityId
    /** The kinds spawned so far, oldest first. */
    ghost var spawnLog: seq<SpawnKind>
    /** Calls of the two hooks that `GameController` uses. */
    ghost var hookCalls: seq<HookCall>

    function Plan(): LevelPlan
      reads this
    {
      LevelPlan(requiredTargets, currentSpawnInterval, nextLevelUpTime)
    }

    /** Every child was handed out by this spawner. */
    ghost predicate Valid()
      reads this
    {
      forall id :: id in children ==> id < nextId
    }

    constructor (config: SpawnerConfig)
      ensures Valid() && this.config == config
      ensures Plan() == Initial && children == {} && spawnLog == [] && hookCalls == []
    {
      this.config := config;
      requiredTargets, currentSpawnInterval, nextLevelUpTime := 0, 0.0, 0.0;
      children, nextId := {}, 0;
      spawnLog, hookCalls := [], [];
    }

    /** `Update` at time `now`; `draw(i)` is the `Random.value` of the `i`-th
        spawn of this frame. */
    method Update(now: Time, draw: int -> real)
      requires Valid()
      modifies this
      ensures Valid() && hookCalls == old(hookCalls)
      ensures Plan() == UpdateStep(config, old(Plan()), old(|children|), now).plan
      ensures old(children) <= children
      ensures |children| == old(|children|) + UpdateStep(config, old(Plan()), old(|children|), now).spawned
      ensures spawnLog ==
        old(spawnLog) + SpawnKinds(config, draw, UpdateStep(config, old(Plan()), old(|children|), now).spawned)
    {
      SpawnUntilRequiredCount(draw);
      if now >= nextLevelUpTime {
        LevelUp(now);
      }
    }

    method LevelUp(now: Time)
      modifies this`requiredTargets, this`currentSpawnInterval, this`nextLevelUpTime
      ensures Plan() == LevelUpStep(config, old(Plan()), now)
    {
      requiredTargets := requiredTargets + 1;
      if requiredTargets >= config.advancedThreshold {
        currentSpawnInterval := config.advancedSpawnInterval;
      } else {
        currentSpawnInterval := config.initialSpawnInterval;
      }
      nextLevelUpTime := now + currentSpawnInterval;
    }

    /** Spawn until the child count read at entry reaches the required count. */
    method SpawnUntilRequiredCount(draw: int -> real)
      requires Valid()
      modifies this`children, this`nextId, this`spawnLog
      ensures Valid()
      ensures old(children) <= children
      ensures |children| == old(|children|) + Deficit(requiredTargets, old(|children|))
      ensures spawnLog == old(spawnLog) + SpawnKinds(config, draw, Deficit(requiredTargets, old(|children|)))
    {
      var currentCount := |children|;
      var k: nat := 0;
      while currentCount < requiredTargets
        invariant Valid()
        invariant currentCount == old(|children|) + k == |children|
        invariant currentCount <= Max(requiredTargets, old(|children|))
        invariant old(children) <= children
        invariant spawnLog == old(spawnLog) + SpawnKinds(config, draw, k)
        decreases requiredTargets - currentCount
      {
        var _ := SpawnTarget(draw(k));
        currentCount := currentCount + 1;
        k := k + 1;
        assert SpawnKinds(config, draw, k) == SpawnKinds(config, draw, k - 1) + [ChooseKind(config, draw(k - 1))];
      }
    }

    /** Instantiate one target or bomb as a new child; its position is
        presentation and not modelled. */
    method SpawnTarget(draw: real) returns (id: EntityId)
      requires Valid()
      modifies this`children, this`nextId, this`spawnLog
      ensures Valid()
      ensures id !in old(children) && children == old(children) + {id}
      ensures |children| == old(|children|) + 1
      ensures spawnLog == old(spawnLog) + [ChooseKind(config, draw)]
    {
      var spawnBomb := draw < config.bombSpawnChance;
      id := nextId;
      nextId := nextId + 1;
      children := children + {id};
      spawnLog := spawnLog + [if spawnBomb then BombSpawn else TargetSpawn];
    }

    /** The engine has destroyed child `id` (after a hit or its countdown). */
    method RemoveChild(id: EntityId)
      requires Valid()
      modifies this`children
      ensures Valid() && children == old(children) - {id}
    {
      children := children - {id};
    }

    /** Called by `GameController`, not defined by `TargetSpawner`: only the
        call is recorded. */
    method StartGame()
      modifies this`hookCalls
      ensures hookCalls == old(hookCalls) + [StartGameCalled]
    {
      hookCalls := hookCalls + [StartGameCalled];
    }

    /** Called by `GameController`, not defined by `TargetSpawner`: only the
        call is recorded. */
    method StopGame()
      modifies this`hookCalls
      ensures hookCalls == old(hookCalls) + [StopGameCalled]
    {
      hookCalls := hookCalls + [StopGameCalled];
    }
  }
}
