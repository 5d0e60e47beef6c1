/** The engine's preference store (PlayerPrefs) as the game uses it: flat
    int and float entries whose keys are a constant prefix followed by a
    level or skin index (Assets/Scripts/Core/Common/Constants.cs). */
module Prefs {
  import opened Common

  /** Every key the modelled code reads or writes. */
  datatype Key =
    | UnlockLevel(level: int)
    | CompletedLevel(level: int)
    | ContinueNumberLevel
    | BestTimeLevel(level: int)
    | TotalFruitsLevel(level: int)
    | FruitCollectedLevel(level: int)
    | TotalFruitsAmount
    | UnlockedSkinIndex(skin: int)
    | DifficultyIndex
    | SkinIndex

  /** The stored key string: the constant's prefix and, for indexed keys, the
      index in decimal. FruitCollected_Level has no trailing underscore, as in
      the constant. */
  function Name(k: Key): string {
    match k
    case UnlockLevel(i) => "Unlock_Level_" + IntToString(i)
    case CompletedLevel(i) => "Completed_Level_" + IntToString(i)
    case ContinueNumberLevel => "ContinueNumber_Level"
    case BestTimeLevel(i) => "BestTime_Level_" + IntToString(i)
    case TotalFruitsLevel(i) => "TotalFruits_Level_" + IntToString(i)
    case FruitCollectedLevel(i) => "FruitCollected_Level" + IntToString(i)
    case TotalFruitsAmount => "TotalFruitsAmount"
    case UnlockedSkinIndex(i) => "Unlocked_SkinIndex_" + IntToString(i)
    case DifficultyIndex => "Difficulty_Index"
    case SkinIndex => "SkinsIndex"
  }

  /** The scene name of level `i` ("Level_" prefix). */
  function LevelSceneName(i: int): (s: string)
    ensures |s| > 6 && s[..6] == "Level_"
  {
    "Level_" + IntToString(i)
  }

  lemma LevelSceneNameInjective(a: int, b: int)
    ensures LevelSceneName(a) == LevelSceneName(b) <==> a == b
  {
    if LevelSceneName(a) == LevelSceneName(b) {
      PrefixCancel("Level_", IntToString(a), IntToString(b));
      IntToStringInjective(a, b);
    }
  }

  /** Which kind of key a name belongs to, read from at most two characters. */
  function KindOfName(s: string): nat {
    if |s| < 12 then (if |s| > 0 && s[0] == 'S' then 9 else 10)
    else if s[0] == 'U' then (if s[6] == '_' then 0 else 7)
    else if s[0] == 'C' then (if s[2] == 'm' then 1 else 2)
    else if s[0] == 'B' then 3
    else if s[0] == 'T' then (if s[11] == '_' then 4 else 6)
    else if s[0] == 'F' then 5
    else if s[0] == 'D' then 8
    else 10
  }

  function Kind(k: Key): nat {
    match k
    case UnlockLevel(_) => 0
    case CompletedLevel(_) => 1
    case ContinueNumberLevel => 2
    case BestTimeLevel(_) => 3
    case TotalFruitsLevel(_) => 4
    case FruitCollectedLevel(_) => 5
    case TotalFruitsAmount => 6
    case UnlockedSkinIndex(_) => 7
    case DifficultyIndex => 8
    case SkinIndex => 9
  }

  lemma KindOfNameCorrect(k: Key)
    ensures KindOfName(Name(k)) == Kind(k)
  {
    match k
    case UnlockLevel(i) =>
      var p := "Unlock_Level_";
      assert Name(k)[0] == p[0] && Name(k)[6] == p[6];
    case CompletedLevel(i) =>
      var p := "Completed_Level_";
      assert Name(k)[0] == p[0] && Name(k)[2] == p[2];
    case ContinueNumberLevel =>
    case BestTimeLevel(i) =>
      var p := "BestTime_Level_";
      assert Name(k)[0] == p[0];
    case TotalFruitsLevel(i) =>
      var p := "TotalFruits_Level_";
      assert Name(k)[0] == p[0] && Name(k)[11] == p[11];
    case FruitCollectedLevel(i) =>
      var p := "FruitCollected_Level";
      assert Name(k)[0] == p[0];
    case TotalFruitsAmount =>
    case UnlockedSkinIndex(i) =>
      var p := "Unlocked_SkinIndex_";
      assert Name(k)[0] == p[0] && Name(k)[6] == p[6];
    case DifficultyIndex =>
    case SkinIndex =>
  }

  /** Distinct keys are stored under distinct strings, so writing one key
      never disturbs another. */
  lemma NameInjective(k1: Key, k2: Key)
    ensures Name(k1) == Name(k2) <==> k1 == k2
  {
    if Name(k1) == Name(k2) {
      KindOfNameCorrect(k1);
      KindOfNameCorrect(k2);
      match k1
      case UnlockLevel(a) =>
        PrefixCancel("Unlock_Level_", IntToString(a), IntToString(k2.level));
        IntToStringInjective(a, k2.level);
      case CompletedLevel(a) =>
        PrefixCancel("Completed_Level_", IntToString(a), IntToString(k2.level));
        IntToStringInjective(a, k2.level);
      case BestTimeLevel(a) =>
        PrefixCancel("BestTime_Level_", IntToString(a), IntToString(k2.level));
        IntToStringInjective(a, k2.level);
      case TotalFruitsLevel(a) =>
        PrefixCancel("TotalFruits_Level_", IntToString(a), IntToString(k2.level));
        IntToStringInjective(a, k2.level);
      case FruitCollectedLevel(a) =>
        PrefixCancel("FruitCollected_Level", IntToString(a), IntToString(k2.level));
        IntToStringInjective(a, k2.level);
      case UnlockedSkinIndex(a) =>
        PrefixCancel("Unlocked_SkinIndex_", IntToString(a), IntToString(k2.skin));
        IntToStringInjective(a, k2.skin);
      case _ =>
    }
  }

  /** `PlayerPrefs.GetInt(key, default)` on a snapshot of the int entries. */
  function IntAt(ints: map<string, int>, k: Key, default: int): int {
    if Name(k) in ints then ints[Name(k)] else default
  }

  /** `PlayerPrefs.GetFloat(key, default)` on a snapshot of the float entries. */
  function FloatAt(floats: map<string, real>, k: Key, default: real): real {
    if Name(k) in floats then floats[Name(k)] else default
  }

  /** Reading a key back after writing it gives the written value, and every
      other key keeps its value. */
  lemma WriteThenRead(ints: map<string, int>, k: Key, v: int, k': Key, default: int)
    ensures IntAt(ints[Name(k) := v], k', default) == if k' == k then v else IntAt(ints, k', default)
  {
    NameInjective(k, k');
  }

  lemma WriteKeepsOthers(ints: map<string, int>, k: Key, v: int)
    ensures IntAt(ints[Name(k) := v], k, 0) == v
    ensures forall k', d | k' != k :: IntAt(ints[Name(k) := v], k', d) == IntAt(ints, k', d)
  {
    forall k', d | k' != k ensures IntAt(ints[Name(k) := v], k', d) == IntAt(ints, k', d) {
      WriteThenRead(ints, k, v, k', d);
    }
  }

  lemma WriteKeepsOtherFloats(floats: map<string, real>, k: Key, v: real)
    ensures FloatAt(floats[Name(k) := v], k, 0.0) == v
    ensures forall k', d | k' != k :: FloatAt(floats[Name(k) := v], k', d) == FloatAt(floats, k', d)
  {
    forall k', d | k' != k ensures FloatAt(floats[Name(k) := v], k', d) == FloatAt(floats, k', d) {
      WriteThenReadFloat(floats, k, v, k', d);
    }
  }

  lemma WriteThenReadFloat(floats: map<string, real>, k: Key, v: real, k': Key, default: real)
    ensures FloatAt(floats[Name(k) := v], k', default) == if k' == k then v else FloatAt(floats, k', default)
  {
    NameInjective(k, k');
  }

  /** The store itself: one object shared by every component that saves or
      loads progress. Ints and floats are kept apart because the code never
      uses one key with both types. */
  class Store {
    var ints: map<string, int>
    var floats: map<string, real>

    constructor(ints0: map<string, int>, floats0: map<string, real>)
      ensures ints == ints0 && floats == floats0
    {
      ints := ints0;
      floats := floats0;
    }

    function GetInt(k: Key, default: int): int
      reads this
    {
      IntAt(ints, k, default)
    }

    function GetFloat(k: Key, default: real): real
      reads this
    {
      FloatAt(floats, k, default)
    }

    method SetInt(k: Key, v: int)
      modifies this
      ensures ints == old(ints)[Name(k) := v] && floats == old(floats)
      ensures forall k', d :: GetInt(k', d) == if k' == k then v else old(GetInt(k', d))
    {
      ints := ints[Name(k) := v];
      forall k', d ensures GetInt(k', d) == if k' == k then v else old(GetInt(k', d)) {
        WriteThenRead(old(ints), k, v, k', d);
      }
    }

    method SetFloat(k: Key, v: real)
      modifies this
      ensures floats == old(floats)[Name(k) := v] && ints == old(ints)
      ensures forall k', d :: GetFloat(k', d) == if k' == k then v else old(GetFloat(k', d))
    {
      floats := floats[Name(k) := v];
      forall k', d ensures GetFloat(k', d) == if k' == k then v else old(GetFloat(k', d)) {
        WriteThenReadFloat(old(floats), k, v, k', d);
      }
    }
  }
}
