/** One entry of the level list (Assets/Scripts/Core/Model/LevelModel.cs)
    and the button that shows it (Assets/Scripts/UI/Ui_LevelButton.cs). */
module LevelButtons {
  import opened Common
  import opened Prefs
  import opened Engine
  import opened Difficulty
  import opened InGameUi

  /** What the level list knows of a level. Never changed after it is built. */
  datatype LevelModel = LevelModel(
    id: int, sceneIndex: int, name: string, isCompleted: bool, isUnlocked: bool,
    totalFruits: int, bestTime: real, fruitsCollected: int)

  /** The button's fruit line from the stored total and record of level
      `levelIndex`: "?" stands for a total of 0 (a level never started). */
  function FruitsInfoText(ints: map<string, int>, levelIndex: int): string {
    var totalFruitsLevel := IntAt(ints, TotalFruitsLevel(levelIndex), 0);
    var fruitCollected := IntAt(ints, FruitCollectedLevel(levelIndex), 0);
    if totalFruitsLevel == 0 then IntToString(fruitCollected) + "/?"
    else IntToString(fruitCollected) + "/" + IntToString(totalFruitsLevel)
  }

  /** The button reads the keys the level manager writes: after a level has
      stored its fruit total and its record, the button shows them as the
      in-level counter does, or "?" in place of a total of 0. */
  lemma FruitsInfoShowsSavedRecord(ints: map<string, int>, level: int, total: int, collected: int)
    ensures var saved := ints[Name(TotalFruitsLevel(level)) := total][Name(FruitCollectedLevel(level)) := collected];
      FruitsInfoText(saved, level)
        == if total == 0 then IntToString(collected) + "/?" else FruitCounterText(collected, total)
  {
    var withTotal := ints[Name(TotalFruitsLevel(level)) := total];
    WriteKeepsOthers(ints, TotalFruitsLevel(level), total);
    WriteKeepsOthers(withTotal, FruitCollectedLevel(level), collected);
  }

  /** The text distinguishes an unknown total from every known one. */
  lemma UnknownTotalIsDistinct(ints: map<string, int>, level: int)
    ensures var text := FruitsInfoText(ints, level);
      text[|text| - 1] == '?' <==> IntAt(ints, TotalFruitsLevel(level), 0) == 0
  {
    var text := FruitsInfoText(ints, level);
    var total := IntAt(ints, TotalFruitsLevel(level), 0);
    if total != 0 {
      var t := IntToString(total);
      assert text[|text| - 1] == t[|t| - 1];
      if |t| == 1 {
        assert t[0] != '-';
      }
    }
  }

  class LevelButton {
    const store: Store
    var levelIndex: int
    var sceneName: string
    var levelNameText: string
    var fruitText: string

    constructor(store: Store)
      ensures this.store == store && levelIndex == 0 && sceneName == ""
    {
      this.store := store;
      levelIndex := 0;
      sceneName := "";
      levelNameText := "";
      fruitText := "";
    }

    /** The button is set up for level scene `i`: it keeps the index and
        loads the scene "Level_<i>". */
    predicate Opens(i: int)
      reads this
    {
      levelIndex == i && sceneName == LevelSceneName(i)
    }

    /** The button takes the level's scene index and scene name, is titled
        "Level <scene index>", and shows the stored fruit record. */
    method SetupButton(levelModel: LevelModel)
      modifies this
      ensures levelIndex == levelModel.sceneIndex && sceneName == levelModel.name
      ensures levelNameText == "Level " + IntToString(levelModel.sceneIndex)
      ensures fruitText == "Fruits: " + FruitsInfoText(store.ints, levelModel.sceneIndex)
    {
      levelIndex := levelModel.sceneIndex;
      levelNameText := "Level " + IntToString(levelModel.sceneIndex);
      fruitText := "Fruits: " + FruitsInfoText(store.ints, levelIndex);
      sceneName := levelModel.name;
    }

    /** Stores the chosen difficulty (its enum int) under Difficulty_Index,
        then asks for the button's scene. */
    method LoadLevel(difficultyManager: DifficultyManager, scenes: SceneLoader)
      modifies store, scenes
      ensures store.ints == old(store.ints)[Name(DifficultyIndex) := ToInt(difficultyManager.difficulty)]
      ensures store.floats == old(store.floats)
      ensures FromInt(store.GetInt(DifficultyIndex, 0)) == difficultyManager.difficulty
      ensures scenes.requests == old(scenes.requests) + [Named(sceneName)]
    {
      var difficultyIndex := ToInt(difficultyManager.difficulty);
      store.SetInt(DifficultyIndex, difficultyIndex);
      StoredDifficultyRestores(old(store.ints), difficultyManager.difficulty, 0);
      scenes.Load(Named(sceneName));
    }
  }
}

/** The level list of the main menu (Assets/Scripts/UI/Ui_LevelSelection.cs):
    one model per level scene, and a button for each unlocked level. */
module LevelMenu {
  import opened Common
  import opened Prefs
  import opened LevelButtons

  /** The stored unlock flag of level `i`. */
  predicate Unlocked(ints: map<string, int>, i: int) {
    IntAt(ints, UnlockLevel(i), 0) == 1
  }

  /** The unlocked scene indices among 1 .. n - 1, in increasing order. */
  function UnlockedScenes(ints: map<string, int>, n: int): seq<int>
    decreases n
  {
    if n <= 1 then []
    else UnlockedScenes(ints, n - 1) + (if Unlocked(ints, n - 1) then [n - 1] else [])
  }

  /** UnlockedScenes holds exactly the unlocked levels below `n`, each once,
      in increasing order. */
  lemma {:induction false} UnlockedScenesSpec(ints: map<string, int>, n: int)
    ensures forall k :: 0 <= k < |UnlockedScenes(ints, n)| ==>
      1 <= UnlockedScenes(ints, n)[k] < n && Unlocked(ints, UnlockedScenes(ints, n)[k])
    ensures forall k, l :: 0 <= k < l < |UnlockedScenes(ints, n)| ==>
      UnlockedScenes(ints, n)[k] < UnlockedScenes(ints, n)[l]
    ensures forall i :: 1 <= i < n && Unlocked(ints, i) ==> i in UnlockedScenes(ints, n)
    ensures n >= 1 ==> |UnlockedScenes(ints, n)| <= n - 1
    decreases n
  {
    if n > 1 {
      UnlockedScenesSpec(ints, n - 1);
      var prefix := UnlockedScenes(ints, n - 1);
      var s := UnlockedScenes(ints, n);
      assert s == prefix + (if Unlocked(ints, n - 1) then [n - 1] else []);
      forall k | 0 <= k < |s| ensures 1 <= s[k] < n && Unlocked(ints, s[k]) {
        if k < |prefix| {
          assert s[k] == prefix[k];
        } else {
          assert Unlocked(ints, n - 1) && s[k] == n - 1;
        }
      }
    }
  }

  /** The model built for scene `i` with id `id`, from the stored entries. */
  function LevelRecord(ints: map<string, int>, floats: map<string, real>, id: int, i: int): LevelModel {
    LevelModel(id, i, LevelSceneName(i),
               IntAt(ints, CompletedLevel(i), 0) == 1, Unlocked(ints, i),
               IntAt(ints, TotalFruitsLevel(i), 0), FloatAt(floats, BestTimeLevel(i), 0.0),
               IntAt(ints, FruitCollectedLevel(i), 0))
  }

  /** The list of `len` slots once scenes 1 .. i - 1 are visited: each visit
      writes the scene's model to the slot numbered by the count of unlocked
      scenes before it. */
  function SlotsAfter(ints: map<string, int>, floats: map<string, real>, len: nat, i: int)
    : (slots: seq<Option<LevelModel>>)
    requires 1 <= i <= len + 1
    ensures |slots| == len
    decreases i
  {
    if i == 1 then seq(len, _ => None)
    else
      var prev := SlotsAfter(ints, floats, len, i - 1);
      var id := |UnlockedScenes(ints, i - 1)|;
      UnlockedScenesSpec(ints, i - 1);
      prev[id := Some(LevelRecord(ints, floats, id, i - 1))]
  }

  /** One visit, as the loop makes it: scene `i` goes to the slot numbered
      by the unlocked scenes before it, which is inside the list. */
  lemma SlotsStep(ints: map<string, int>, floats: map<string, real>, len: nat, i: int)
    requires 1 <= i <= len
    ensures |UnlockedScenes(ints, i)| < len
    ensures UnlockedScenes(ints, i + 1) == UnlockedScenes(ints, i) + (if Unlocked(ints, i) then [i] else [])
    ensures SlotsAfter(ints, floats, len, i + 1)
      == SlotsAfter(ints, floats, len, i)[|UnlockedScenes(ints, i)| := Some(LevelRecord(ints, floats, |UnlockedScenes(ints, i)|, i))]
  {
    UnlockedScenesSpec(ints, i);
  }

  /** After the visits, slot k holds the k-th unlocked level with id k; the
      next slot is empty or holds a locked level (written, then not
      overwritten because no level came after it); later slots are empty. */
  lemma {:induction false} SlotsAfterSpec(ints: map<string, int>, floats: map<string, real>, len: nat, i: int)
    requires 1 <= i <= len + 1
    ensures |UnlockedScenes(ints, i)| <= len
    ensures forall k :: 0 <= k < |UnlockedScenes(ints, i)| ==>
      SlotsAfter(ints, floats, len, i)[k] == Some(LevelRecord(ints, floats, k, UnlockedScenes(ints, i)[k]))
    ensures |UnlockedScenes(ints, i)| < len && SlotsAfter(ints, floats, len, i)[|UnlockedScenes(ints, i)|].Some?
      ==> !SlotsAfter(ints, floats, len, i)[|UnlockedScenes(ints, i)|].value.isUnlocked
    ensures forall k :: |UnlockedScenes(ints, i)| < k < len ==> SlotsAfter(ints, floats, len, i)[k] == None
    decreases i
  {
    UnlockedScenesSpec(ints, i);
    if i > 1 {
      SlotsAfterSpec(ints, floats, len, i - 1);
      SlotsStep(ints, floats, len, i - 1);
      var before := UnlockedScenes(ints, i - 1);
      var after := UnlockedScenes(ints, i);
      var slots := SlotsAfter(ints, floats, len, i);
      forall k | 0 <= k < |after|
        ensures slots[k] == Some(LevelRecord(ints, floats, k, after[k]))
      {
        if k < |before| {
          assert after[k] == before[k];
        }
      }
    }
  }

  /** Button k opens the k-th scene of `scenes` and uses `store`. */
  predicate ButtonsOpen(buttons: seq<LevelButton>, scenes: seq<int>, store: Store)
    reads set b | b in buttons
  {
    |buttons| == |scenes| && forall k :: 0 <= k < |buttons| ==> buttons[k].Opens(scenes[k]) && buttons[k].store == store
  }

  lemma ButtonsOpenAppend(buttons: seq<LevelButton>, scenes: seq<int>, store: Store, b: LevelButton, i: int)
    requires ButtonsOpen(buttons, scenes, store) && b.Opens(i) && b.store == store
    ensures ButtonsOpen(buttons + [b], scenes + [i], store)
  {
    var bs, ss := buttons + [b], scenes + [i];
    forall k | 0 <= k < |bs| ensures bs[k].Opens(ss[k]) && bs[k].store == store {
      if k < |buttons| {
        assert bs[k] == buttons[k] && ss[k] == scenes[k];
      }
    }
  }

  class LevelSelection {
    const store: Store
    var levels: array<Option<LevelModel>>
    var buttons: seq<LevelButton>

    constructor(store: Store)
      ensures this.store == store && buttons == [] && levels.Length == 0
    {
      this.store := store;
      levels := new Option<LevelModel>[0];
      buttons := [];
    }

    /** One turn of the loop: level `i` is recorded in slot `levelId`, and
        a button is set up for it exactly when it is unlocked. */
    method VisitLevel(slots: array<Option<LevelModel>>, ints: map<string, int>, floats: map<string, real>,
                      levelId: int, i: int) returns (newButton: LevelButton?)
      requires 0 <= levelId < slots.Length
      modifies slots
      ensures slots[..] == old(slots[..])[levelId := Some(LevelRecord(ints, floats, levelId, i))]
      ensures newButton != null <==> Unlocked(ints, i)
      ensures newButton != null ==> fresh(newButton) && newButton.store == store && newButton.Opens(i)
    {
      var level := LevelRecord(ints, floats, levelId, i);
      slots[levelId] := Some(level);
      newButton := null;
      if level.isUnlocked {
        newButton := new LevelButton(store);
        newButton.SetupButton(level);
      }
    }

    /** Builds the list for a build of `sceneCount` scenes. Level scenes
        1 .. sceneCount - 2 are visited in order; the k-th unlocked one gets
        id k, slot k of the list and the k-th button. A locked level is
        written to the next free slot and overwritten by the level after it. */
    method CreateLevelButtons(sceneCount: int)
      requires sceneCount >= 2
      modifies this
      ensures fresh(levels) && levels.Length == sceneCount - 2
      ensures levels[..] == SlotsAfter(store.ints, store.floats, sceneCount - 2, sceneCount - 1)
      ensures var unlocked := UnlockedScenes(store.ints, sceneCount - 1);
        && |buttons| == |unlocked|
        && (forall k :: 0 <= k < |buttons| ==> buttons[k].Opens(unlocked[k]) && buttons[k].store == store)
    {
      levels, buttons := BuildLevels(store.ints, store.floats, sceneCount);
    }

    /** The loop of CreateLevelButtons over a snapshot of the store. */
    method BuildLevels(ints: map<string, int>, floats: map<string, real>, sceneCount: int)
      returns (slots: array<Option<LevelModel>>, created: seq<LevelButton>)
      requires sceneCount >= 2
      ensures fresh(slots) && slots.Length == sceneCount - 2
      ensures slots[..] == SlotsAfter(ints, floats, sceneCount - 2, sceneCount - 1)
      ensures ButtonsOpen(created, UnlockedScenes(ints, sceneCount - 1), store)
    {
      slots := EmptySlots(ints, floats, sceneCount - 2);
      created := [];
      var levelsAmount := sceneCount - 1;
      var i := 1;
      ghost var unlocked: seq<int> := [];
      while i < levelsAmount
        invariant 1 <= i <= levelsAmount
        invariant fresh(slots) && slots.Length == sceneCount - 2
        invariant slots[..] == SlotsAfter(ints, floats, sceneCount - 2, i)
        invariant unlocked == UnlockedScenes(ints, i) && ButtonsOpen(created, unlocked, store)
      {
        created, unlocked := VisitNext(slots, ints, floats, i, created, unlocked);
        i := i + 1;
      }
    }

    /** The list before the loop: every slot empty. */
    method EmptySlots(ints: map<string, int>, floats: map<string, real>, len: nat)
      returns (slots: array<Option<LevelModel>>)
      ensures fresh(slots) && slots.Length == len
      ensures slots[..] == SlotsAfter(ints, floats, len, 1)
    {
      slots := new Option<LevelModel>[len](_ => None);
    }

    /** One turn of BuildLevels' loop with its bookkeeping: the slot list
        and the buttons made so far advance from scene `i` to scene `i + 1`. */
    method VisitNext(slots: array<Option<LevelModel>>, ints: map<string, int>, floats: map<string, real>,
                     i: int, created: seq<LevelButton>, ghost unlocked: seq<int>)
      returns (created': seq<LevelButton>, ghost unlocked': seq<int>)
      requires 1 <= i <= slots.Length
      requires slots[..] == SlotsAfter(ints, floats, slots.Length, i)
      requires unlocked == UnlockedScenes(ints, i) && ButtonsOpen(created, unlocked, store)
      modifies slots
      ensures slots[..] == SlotsAfter(ints, floats, slots.Length, i + 1)
      ensures unlocked' == UnlockedScenes(ints, i + 1) && ButtonsOpen(created', unlocked', store)
    {
      SlotsStep(ints, floats, slots.Length, i);
      var newButton := VisitLevel(slots, ints, floats, |created|, i);
      created', unlocked' := created, unlocked;
      if newButton != null {
        ButtonsOpenAppend(created, unlocked, store, newButton, i);
        unlocked' := unlocked + [i];
        created' := created + [newButton];
      }
    }
  }

  /** The finished list: the k-th unlocked level sits in slot k with id k,
      the slot after the last one is empty or holds a locked level, and every
      later slot is empty. */
  lemma ListLayout(ints: map<string, int>, floats: map<string, real>, sceneCount: int)
    requires sceneCount >= 2
    ensures var slots := SlotsAfter(ints, floats, sceneCount - 2, sceneCount - 1);
      var unlocked := UnlockedScenes(ints, sceneCount - 1);
      && |unlocked| <= |slots|
      && (forall k :: 0 <= k < |unlocked| ==> slots[k] == Some(LevelRecord(ints, floats, k, unlocked[k])))
      && (|unlocked| < |slots| && slots[|unlocked|].Some? ==> !slots[|unlocked|].value.isUnlocked)
      && (forall k :: |unlocked| < k < |slots| ==> slots[k] == None)
  {
    SlotsAfterSpec(ints, floats, sceneCount - 2, sceneCount - 1);
  }
}
