/** The level lookup (`LevelSpawner.Awake` over `LevelListData`): a bounds
    check and a null check on the level table, then the level's prefab is
    instantiated and its target score handed to the tracker. */
module Levels {
  import opened Basics

  /** Identity of a prefab asset. */
  type PrefabId = nat

  /** One entry of `LevelListData.levels`; `levelPrefab` is None when the
      reference is unassigned. */
  datatype LevelData = LevelData(levelPrefab: Option<PrefabId>, targetScore: int)

  /** The two errors `Awake` logs before returning. */
  datatype LevelError = InvalidLevelIndex(index: int) | NullLevelPrefab(index: int)

  /** The calls `Awake` makes, in order. */
  datatype LevelAction = Instantiate(prefab: PrefabId) | SetTargetScore(score: int)

  datatype LevelSpawnResult = LevelSpawnResult(actions: seq<LevelAction>, error: Option<LevelError>)

  /** `Awake` for the table `levels` and `currentLevelIndex`. */
  function SpawnLevel(levels: seq<LevelData>, currentLevelIndex: int): (r: LevelSpawnResult)
    ensures r.error.Some? <==> r.actions == []
    ensures r.error == Some(InvalidLevelIndex(currentLevelIndex)) <==>
      currentLevelIndex < 0 || currentLevelIndex >= |levels|
    ensures r.error == Some(NullLevelPrefab(currentLevelIndex)) <==>
      0 <= currentLevelIndex < |levels| && levels[currentLevelIndex].levelPrefab.None?
    ensures r.error.None? <==>
      0 <= currentLevelIndex < |levels| && levels[currentLevelIndex].levelPrefab.Some?
    ensures r.error.None? ==>
      && 0 <= currentLevelIndex < |levels|
      && levels[currentLevelIndex].levelPrefab.Some?
      && r.actions == [Instantiate(levels[currentLevelIndex].levelPrefab.value),
                       SetTargetScore(levels[currentLevelIndex].targetScore)]
  {
    if currentLevelIndex < 0 || currentLevelIndex >= |levels| then
      LevelSpawnResult([], Some(InvalidLevelIndex(currentLevelIndex)))
    else
      var levelData := levels[currentLevelIndex];
      match levelData.levelPrefab
      case None => LevelSpawnResult([], Some(NullLevelPrefab(currentLevelIndex)))
      case Some(prefab) => LevelSpawnResult([Instantiate(prefab), SetTargetScore(levelData.targetScore)], None)
  }
}
