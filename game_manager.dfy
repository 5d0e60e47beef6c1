/** The level manager (Assets/Scripts/Managers/GameManager.cs): level
    indices, the fruit counter, respawning and the progress it saves when a
    level is finished.

    The build order is: scene 0 the main menu, scenes 1 .. sceneCount - 2 the
    levels, the last scene "TheEnd". */
module Game {
  import opened Common
  import opened Prefs
  import opened Engine
  import opened Difficulty
  import opened Skins
  import opened InGameUi

  /** The current level is the last one before "TheEnd". */
  predicate NoMoreLevels(current: int, sceneCount: int) {
    current == sceneCount - 2
  }

  /** The scene LoadNextScene asks for. */
  function NextScene(current: int, next: int, sceneCount: int): (scene: string)
    ensures scene == "TheEnd" <==> NoMoreLevels(current, sceneCount)
    ensures !NoMoreLevels(current, sceneCount) ==> scene == LevelSceneName(next)
  {
    if NoMoreLevels(current, sceneCount) then "TheEnd" else LevelSceneName(next)
  }

  /** The fruit record of a finished level: when `collected` beats the stored
      record (default 0) it becomes the record, and the whole of `collected` is
      added to the fruit bank, which is read after the record is written. */
  function FruitsSaved(ints: map<string, int>, level: int, collected: int): map<string, int> {
    if IntAt(ints, FruitCollectedLevel(level), 0) < collected then
      var withRecord := ints[Name(FruitCollectedLevel(level)) := collected];
      withRecord[Name(TotalFruitsAmount) := IntAt(withRecord, TotalFruitsAmount, 0) + collected]
    else
      ints
  }

  /** The record becomes the larger of the old record and the run; the bank
      grows by the whole run exactly when the record is beaten; otherwise the
      store is left as it was, and no other key ever changes. */
  lemma FruitsSavedEffect(ints: map<string, int>, level: int, collected: int)
    ensures var before := IntAt(ints, FruitCollectedLevel(level), 0);
      var r := FruitsSaved(ints, level, collected);
      && IntAt(r, FruitCollectedLevel(level), 0) == (if before < collected then collected else before)
      && IntAt(r, TotalFruitsAmount, 0) == IntAt(ints, TotalFruitsAmount, 0) + (if before < collected then collected else 0)
      && (before >= collected ==> r == ints)
    ensures forall k, d | k != FruitCollectedLevel(level) && k != TotalFruitsAmount ::
      IntAt(FruitsSaved(ints, level, collected), k, d) == IntAt(ints, k, d)
  {
    if IntAt(ints, FruitCollectedLevel(level), 0) < collected {
      var withRecord := ints[Name(FruitCollectedLevel(level)) := collected];
      var bank := IntAt(withRecord, TotalFruitsAmount, 0) + collected;
      WriteKeepsOthers(ints, FruitCollectedLevel(level), collected);
      WriteKeepsOthers(withRecord, TotalFruitsAmount, bank);
    }
  }

  /** The best time of a level as SaveBestTime writes it: the stored time
      (default 0) is replaced only by a strictly smaller timer. */
  function BestTimeAsWritten(floats: map<string, real>, level: int, timer: real): map<string, real> {
    if timer < FloatAt(floats, BestTimeLevel(level), 0.0) then
      floats[Name(BestTimeLevel(level)) := timer]
    else
      floats
  }

  /** The best time after each run of `timers` in turn, as written. */
  function BestTimesAsWritten(floats: map<string, real>, level: int, timers: seq<real>): map<string, real>
    decreases |timers|
  {
    if timers == [] then floats
    else BestTimesAsWritten(BestTimeAsWritten(floats, level, timers[0]), level, timers[1..])
  }

  /** As written, a level that has no stored time never gets one: the level
      timer only grows from 0, so it is never below the default 0. */
  lemma {:induction false} BestTimeNeverStored(floats: map<string, real>, level: int, timers: seq<real>)
    requires Name(BestTimeLevel(level)) !in floats
    requires forall i :: 0 <= i < |timers| ==> timers[i] >= 0.0
    decreases |timers|
    ensures BestTimesAsWritten(floats, level, timers) == floats
  {
    if timers != [] {
      assert BestTimeAsWritten(floats, level, timers[0]) == floats;
      BestTimeNeverStored(floats, level, timers[1..]);
    }
  }

  /** The best time as evidently intended: a stored 0 means "no time yet", so
      the first finished run is stored, and later runs only improve it. */
  function BestTimeSaved(floats: map<string, real>, level: int, timer: real): map<string, real> {
    var best := FloatAt(floats, BestTimeLevel(level), 0.0);
    if best == 0.0 || timer < best then floats[Name(BestTimeLevel(level)) := timer] else floats
  }

  function BestTimesSaved(floats: map<string, real>, level: int, timers: seq<real>): map<string, real>
    decreases |timers|
  {
    if timers == [] then floats
    else BestTimesSaved(BestTimeSaved(floats, level, timers[0]), level, timers[1..])
  }

  function Min(a: real, b: real): real {
    if a <= b then a else b
  }

  /** The fastest of a non-empty sequence of runs. */
  function Fastest(timers: seq<real>): (m: real)
    requires |timers| > 0
    ensures m in timers
    ensures forall i :: 0 <= i < |timers| ==> m <= timers[i]
  {
    if |timers| == 1 then timers[0] else Min(timers[0], Fastest(timers[1..]))
  }

  /** Saving the best time changes no other float. */
  lemma BestTimeSavedFrame(floats: map<string, real>, level: int, timer: real)
    ensures forall k, d | k != BestTimeLevel(level) ::
      FloatAt(BestTimeSaved(floats, level, timer), k, d) == FloatAt(floats, k, d)
  {
    WriteKeepsOtherFloats(floats, BestTimeLevel(level), timer);
  }

  /** With positive run times, the stored best after a series of runs is the
      fastest of them (and of the earlier best, when there was one). */
  lemma {:induction false} BestTimeIsFastest(floats: map<string, real>, level: int, timers: seq<real>)
    requires |timers| > 0
    requires forall i :: 0 <= i < |timers| ==> timers[i] > 0.0
    requires FloatAt(floats, BestTimeLevel(level), 0.0) >= 0.0
    decreases |timers|
    ensures var best := FloatAt(floats, BestTimeLevel(level), 0.0);
      FloatAt(BestTimesSaved(floats, level, timers), BestTimeLevel(level), 0.0)
        == if best == 0.0 then Fastest(timers) else Min(best, Fastest(timers))
  {
    var first := BestTimeSaved(floats, level, timers[0]);
    WriteKeepsOtherFloats(floats, BestTimeLevel(level), timers[0]);
    assert BestTimesSaved(floats, level, timers) == BestTimesSaved(first, level, timers[1..]);
    if |timers| > 1 {
      BestTimeIsFastest(first, level, timers[1..]);
    }
  }

  /** Every key SaveLevelProgress may write. */
  function ProgressKeys(current: int, next: int, last: bool, skin: Option<int>): set<Key> {
    {CompletedLevel(current), FruitCollectedLevel(current), TotalFruitsAmount}
    + (if last then {} else {UnlockLevel(next), ContinueNumberLevel})
    + (if !last && skin.Some? then {SkinIndex} else {})
  }

  /** The int entries after SaveLevelProgress: the level is completed, the
      fruit record saved, and, unless this was the last level, the next level
      unlocked, remembered for "continue", and the chosen skin saved when a
      skin manager exists. */
  function ProgressSaved(ints: map<string, int>, current: int, next: int, collected: int,
                         last: bool, skin: Option<int>): map<string, int> {
    var completed := ints[Name(CompletedLevel(current)) := 1];
    var fruits := FruitsSaved(completed, current, collected);
    if last then fruits
    else
      var unlocked := fruits[Name(UnlockLevel(next)) := 1][Name(ContinueNumberLevel) := next];
      if skin.Some? then unlocked[Name(SkinIndex) := skin.value] else unlocked
  }

  lemma ProgressSavedEffect(ints: map<string, int>, current: int, next: int, collected: int,
                            last: bool, skin: Option<int>)
    ensures var r := ProgressSaved(ints, current, next, collected, last, skin);
      var before := IntAt(ints, FruitCollectedLevel(current), 0);
      && IntAt(r, CompletedLevel(current), 0) == 1
      && IntAt(r, FruitCollectedLevel(current), 0) == (if before < collected then collected else before)
      && IntAt(r, TotalFruitsAmount, 0) == IntAt(ints, TotalFruitsAmount, 0) + (if before < collected then collected else 0)
      && (!last ==> IntAt(r, UnlockLevel(next), 0) == 1 && IntAt(r, ContinueNumberLevel, 0) == next)
      && (!last && skin.Some? ==> IntAt(r, SkinIndex, 0) == skin.value)
    ensures forall k, d | k !in ProgressKeys(current, next, last, skin) ::
      IntAt(ProgressSaved(ints, current, next, collected, last, skin), k, d) == IntAt(ints, k, d)
  {
    var completed := ints[Name(CompletedLevel(current)) := 1];
    WriteKeepsOthers(ints, CompletedLevel(current), 1);
    var fruits := FruitsSaved(completed, current, collected);
    FruitsSavedEffect(completed, current, collected);
    if !last {
      var u1 := fruits[Name(UnlockLevel(next)) := 1];
      WriteKeepsOthers(fruits, UnlockLevel(next), 1);
      var u2 := u1[Name(ContinueNumberLevel) := next];
      WriteKeepsOthers(u1, ContinueNumberLevel, next);
      if skin.Some? {
        WriteKeepsOthers(u2, SkinIndex, skin.value);
      }
    }
  }

  /** As written, Start looks the player up only when it already has one, so
      a manager whose player field is empty keeps it empty. */
  function PlayerRefAsWritten(current: object?, found: object?): object? {
    if current != null then found else current
  }

  lemma PlayerRefAsWrittenStaysEmpty(found: object)
    ensures PlayerRefAsWritten(null, found) == null
  {
  }

  /** As evidently intended: an existing player is kept, a missing one is
      looked up in the scene. */
  function PlayerRef(current: object?, found: object?): (r: object?)
    ensures current != null ==> r == current
    ensures current == null ==> r == found
    ensures found != null ==> r != null
  {
    if current == null then found else current
  }

  class GameManager {
    const store: Store
    const scenes: SceneLoader
    const inGame: InGame
    /** `SceneManager.sceneCountInBuildSettings`. */
    const sceneCount: int
    var levelTimer: real
    var currentLevelIndex: int
    var nextLevelIndex: int
    var respawnPoint: object?
    var player: object?
    var fruitCollected: int
    var totalFruits: int
    var canReactivate: bool
    /** Respawn coroutines started and not yet finished. */
    var pendingRespawns: nat

    /** The level's timer, fruit counts and indices are what they were
        before the call. */
    twostate predicate LevelStateKept()
      reads this
    {
      && levelTimer == old(levelTimer)
      && fruitCollected == old(fruitCollected) && totalFruits == old(totalFruits)
      && currentLevelIndex == old(currentLevelIndex) && nextLevelIndex == old(nextLevelIndex)
    }

    /** The component as the scene holds it before Start: the inspector fields
        are given, every other field has its default. */
    constructor(store: Store, scenes: SceneLoader, inGame: InGame, sceneCount: int,
                respawnPoint: object?, player: object?, canReactivate: bool)
      ensures this.store == store && this.scenes == scenes && this.inGame == inGame
      ensures this.sceneCount == sceneCount
      ensures this.respawnPoint == respawnPoint && this.player == player
      ensures this.canReactivate == canReactivate
      ensures levelTimer == 0.0 && currentLevelIndex == 0 && nextLevelIndex == 0
      ensures fruitCollected == 0 && totalFruits == 0 && pendingRespawns == 0
    {
      this.store := store;
      this.scenes := scenes;
      this.inGame := inGame;
      this.sceneCount := sceneCount;
      this.respawnPoint := respawnPoint;
      this.player := player;
      this.canReactivate := canReactivate;
      levelTimer := 0.0;
      currentLevelIndex := 0;
      nextLevelIndex := 0;
      fruitCollected := 0;
      totalFruits := 0;
      pendingRespawns := 0;
    }

    /** Start, with the scene's build index, its start point, the player the
        scene holds and the number of fruits in it given. It unlocks the
        current level, remembers it for "continue" and stores its fruit total. */
    method Start(buildIndex: int, startPoint: object, scenePlayer: object?, fruitsInScene: nat)
      modifies this, store, inGame
      ensures currentLevelIndex == buildIndex && nextLevelIndex == buildIndex + 1
      ensures store.ints == old(store.ints)[Name(UnlockLevel(buildIndex)) := 1]
                [Name(ContinueNumberLevel) := buildIndex][Name(TotalFruitsLevel(buildIndex)) := fruitsInScene]
      ensures store.floats == old(store.floats)
      ensures store.GetInt(UnlockLevel(buildIndex), 0) == 1
      ensures store.GetInt(ContinueNumberLevel, 0) == buildIndex
      ensures store.GetInt(TotalFruitsLevel(buildIndex), 0) == fruitsInScene
      ensures respawnPoint == if old(respawnPoint) == null then startPoint else old(respawnPoint)
      ensures player == PlayerRef(old(player), scenePlayer)
      ensures totalFruits == fruitsInScene && fruitCollected == old(fruitCollected)
      ensures inGame.fruitText == FruitCounterText(fruitCollected, totalFruits)
      ensures levelTimer == old(levelTimer) && pendingRespawns == old(pendingRespawns)
      ensures canReactivate == old(canReactivate)
      ensures inGame.isPaused == old(inGame.isPaused) && inGame.pauseMenuActive == old(inGame.pauseMenuActive)
    {
      currentLevelIndex := buildIndex;
      store.SetInt(UnlockLevel(currentLevelIndex), 1);
      store.SetInt(ContinueNumberLevel, currentLevelIndex);
      if respawnPoint == null {
        respawnPoint := startPoint;
      }
      player := PlayerRef(player, scenePlayer);
      nextLevelIndex := currentLevelIndex + 1;
      CollectFruitInfo(fruitsInScene);
    }

    method CollectFruitInfo(fruitsInScene: nat)
      modifies this, store, inGame
      ensures totalFruits == fruitsInScene
      ensures store.ints == old(store.ints)[Name(TotalFruitsLevel(currentLevelIndex)) := fruitsInScene]
      ensures store.floats == old(store.floats)
      ensures store.GetInt(TotalFruitsLevel(currentLevelIndex), 0) == fruitsInScene
      ensures forall k, d | k != TotalFruitsLevel(currentLevelIndex) :: store.GetInt(k, d) == old(store.GetInt(k, d))
      ensures inGame.fruitText == FruitCounterText(fruitCollected, totalFruits)
      ensures currentLevelIndex == old(currentLevelIndex) && nextLevelIndex == old(nextLevelIndex)
      ensures fruitCollected == old(fruitCollected) && levelTimer == old(levelTimer)
      ensures respawnPoint == old(respawnPoint) && player == old(player)
      ensures pendingRespawns == old(pendingRespawns) && canReactivate == old(canReactivate)
      ensures inGame.isPaused == old(inGame.isPaused) && inGame.pauseMenuActive == old(inGame.pauseMenuActive)
    {
      totalFruits := fruitsInScene;
      store.SetInt(TotalFruitsLevel(currentLevelIndex), totalFruits);
      inGame.UpdateFruitUI(fruitCollected, totalFruits);
    }

    /** One frame: the level timer accumulates the frame's duration. */
    method Update(deltaTime: real)
      modifies this
      ensures levelTimer == old(levelTimer) + deltaTime
      ensures currentLevelIndex == old(currentLevelIndex) && nextLevelIndex == old(nextLevelIndex)
      ensures fruitCollected == old(fruitCollected) && totalFruits == old(totalFruits)
      ensures player == old(player) && respawnPoint == old(respawnPoint)
      ensures pendingRespawns == old(pendingRespawns) && canReactivate == old(canReactivate)
    {
      levelTimer := levelTimer + deltaTime;
    }

    /** On Hard (with a difficulty manager present) the player is never
        respawned; otherwise one respawn is scheduled. */
    method RespawnPlayer(difficultyManager: DifficultyManager?)
      modifies this
      ensures difficultyManager != null && difficultyManager.difficulty == Hard
        ==> pendingRespawns == old(pendingRespawns)
      ensures !(difficultyManager != null && difficultyManager.difficulty == Hard)
        ==> pendingRespawns == old(pendingRespawns) + 1
      ensures player == old(player) && respawnPoint == old(respawnPoint)
      ensures levelTimer == old(levelTimer) && canReactivate == old(canReactivate)
      ensures fruitCollected == old(fruitCollected) && totalFruits == old(totalFruits)
      ensures currentLevelIndex == old(currentLevelIndex) && nextLevelIndex == old(nextLevelIndex)
    {
      if difficultyManager != null && difficultyManager.difficulty == Hard {
        return;
      }
      pendingRespawns := pendingRespawns + 1;
    }

    /** The end of a respawn coroutine: a new player at the respawn point
        becomes the manager's player. */
    method CompleteRespawn(newPlayer: object)
      requires pendingRespawns > 0
      modifies this
      ensures pendingRespawns == old(pendingRespawns) - 1
      ensures player == newPlayer && respawnPoint == old(respawnPoint)
      ensures levelTimer == old(levelTimer) && canReactivate == old(canReactivate)
      ensures fruitCollected == old(fruitCollected) && totalFruits == old(totalFruits)
      ensures currentLevelIndex == old(currentLevelIndex) && nextLevelIndex == old(nextLevelIndex)
    {
      pendingRespawns := pendingRespawns - 1;
      player := newPlayer;
    }

    method UpdateRespawnPlayerPosition(newRespawnPoint: object?)
      modifies this
      ensures respawnPoint == newRespawnPoint && player == old(player)
      ensures pendingRespawns == old(pendingRespawns) && canReactivate == old(canReactivate)
      ensures levelTimer == old(levelTimer)
      ensures fruitCollected == old(fruitCollected) && totalFruits == old(totalFruits)
      ensures currentLevelIndex == old(currentLevelIndex) && nextLevelIndex == old(nextLevelIndex)
    {
      respawnPoint := newRespawnPoint;
    }

    method AddFruit()
      modifies this, inGame
      ensures fruitCollected == old(fruitCollected) + 1 && totalFruits == old(totalFruits)
      ensures inGame.fruitText == FruitCounterText(fruitCollected, totalFruits)
      ensures levelTimer == old(levelTimer) && canReactivate == old(canReactivate)
      ensures currentLevelIndex == old(currentLevelIndex) && nextLevelIndex == old(nextLevelIndex)
      ensures player == old(player) && respawnPoint == old(respawnPoint)
      ensures pendingRespawns == old(pendingRespawns)
    {
      fruitCollected := fruitCollected + 1;
      inGame.UpdateFruitUI(fruitCollected, totalFruits);
    }

    /** No lower bound: the count can go negative. */
    method RemoveFruit()
      modifies this, inGame
      ensures fruitCollected == old(fruitCollected) - 1 && totalFruits == old(totalFruits)
      ensures inGame.fruitText == FruitCounterText(fruitCollected, totalFruits)
      ensures levelTimer == old(levelTimer) && canReactivate == old(canReactivate)
      ensures currentLevelIndex == old(currentLevelIndex) && nextLevelIndex == old(nextLevelIndex)
      ensures player == old(player) && respawnPoint == old(respawnPoint)
      ensures pendingRespawns == old(pendingRespawns)
    {
      fruitCollected := fruitCollected - 1;
      inGame.UpdateFruitUI(fruitCollected, totalFruits);
    }

    method GetFruitCollected() returns (n: int)
      ensures n == fruitCollected
    {
      n := fruitCollected;
    }

    /** Saves the level's progress; the best time follows the corrected rule
        (see BestTimeSaved). */
    method SaveLevelProgress(skinManager: SkinManager?)
      modifies store
      ensures store.ints == ProgressSaved(old(store.ints), currentLevelIndex, nextLevelIndex, fruitCollected,
                                          NoMoreLevels(currentLevelIndex, sceneCount),
                                          if skinManager == null then None else Some(skinManager.chooseSkinId))
      ensures store.floats == BestTimeSaved(old(store.floats), currentLevelIndex, levelTimer)
    {
      store.SetInt(CompletedLevel(currentLevelIndex), 1);
      SaveBestTime();
      SaveFruitsInfo();
      if !NoMoreLevels(currentLevelIndex, sceneCount) {
        store.SetInt(UnlockLevel(nextLevelIndex), 1);
        store.SetInt(ContinueNumberLevel, nextLevelIndex);
        if skinManager != null {
          var id := skinManager.GetSkinId();
          store.SetInt(SkinIndex, id);
        }
      }
    }

    method SaveBestTime()
      modifies store
      ensures store.floats == BestTimeSaved(old(store.floats), currentLevelIndex, levelTimer)
      ensures store.ints == old(store.ints)
    {
      var currentBest := store.GetFloat(BestTimeLevel(currentLevelIndex), 0.0);
      if currentBest == 0.0 || levelTimer < currentBest {
        store.SetFloat(BestTimeLevel(currentLevelIndex), levelTimer);
      }
    }

    method SaveFruitsInfo()
      modifies store
      ensures store.ints == FruitsSaved(old(store.ints), currentLevelIndex, fruitCollected)
      ensures store.floats == old(store.floats)
    {
      var before := store.GetInt(FruitCollectedLevel(currentLevelIndex), 0);
      if before < fruitCollected {
        store.SetInt(FruitCollectedLevel(currentLevelIndex), fruitCollected);
        var bank := store.GetInt(TotalFruitsAmount, 0);
        bank := bank + fruitCollected;
        store.SetInt(TotalFruitsAmount, bank);
      }
    }

    /** Reloads the current level. */
    method RestartLevel()
      modifies scenes
      ensures scenes.requests == old(scenes.requests) + [Named(LevelSceneName(currentLevelIndex))]
    {
      scenes.Load(Named(LevelSceneName(currentLevelIndex)));
    }

    /** "TheEnd" after the last level, the next level otherwise. */
    method LoadNextScene()
      modifies scenes
      ensures scenes.requests == old(scenes.requests) + [Named(NextScene(currentLevelIndex, nextLevelIndex, sceneCount))]
    {
      if NoMoreLevels(currentLevelIndex, sceneCount) {
        scenes.Load(Named("TheEnd"));
      } else {
        scenes.Load(Named(LevelSceneName(nextLevelIndex)));
      }
    }

    method LevelFinished(skinManager: SkinManager?)
      modifies store, scenes
      ensures store.ints == ProgressSaved(old(store.ints), currentLevelIndex, nextLevelIndex, fruitCollected,
                                          NoMoreLevels(currentLevelIndex, sceneCount),
                                          if skinManager == null then None else Some(skinManager.chooseSkinId))
      ensures store.floats == BestTimeSaved(old(store.floats), currentLevelIndex, levelTimer)
      ensures scenes.requests == old(scenes.requests) + [Named(NextScene(currentLevelIndex, nextLevelIndex, sceneCount))]
    {
      SaveLevelProgress(skinManager);
      LoadNextScene();
    }
  }

  /** After Start, finishing the level stores "completed" for the started
      level, unlocks the one after it unless it was the last, and asks for the
      scene that follows. */
  method StartThenFinish(gm: GameManager, buildIndex: int, startPoint: object, fruitsInScene: nat)
    returns (completed: int, unlockedNext: int)
    modifies gm, gm.store, gm.inGame, gm.scenes
    ensures completed == 1
    ensures !NoMoreLevels(buildIndex, gm.sceneCount) ==> unlockedNext == 1
    ensures gm.scenes.requests == old(gm.scenes.requests)
      + [Named(if NoMoreLevels(buildIndex, gm.sceneCount) then "TheEnd" else LevelSceneName(buildIndex + 1))]
  {
    gm.Start(buildIndex, startPoint, gm.player, fruitsInScene);
    gm.LevelFinished(null);
    ProgressSavedEffect(old(gm.store.ints)[Name(UnlockLevel(buildIndex)) := 1]
                          [Name(ContinueNumberLevel) := buildIndex][Name(TotalFruitsLevel(buildIndex)) := fruitsInScene],
                        buildIndex, buildIndex + 1, gm.fruitCollected, NoMoreLevels(buildIndex, gm.sceneCount), None);
    completed := gm.store.GetInt(CompletedLevel(buildIndex), 0);
    unlockedNext := gm.store.GetInt(UnlockLevel(buildIndex + 1), 0);
  }
}
