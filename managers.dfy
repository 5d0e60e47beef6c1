/** The difficulty setting (Assets/Scripts/Managers/DifficultyManager.cs). */
module Difficulty {
  import opened Prefs

  /** The C# enum: Easy = 1, Normal = 2, Hard = 3. A variable of an enum type
      can hold any int (its default is 0); such values are `Unnamed`. */
  datatype DifficultyValue = Easy | Normal | Hard | Unnamed(code: int)

  /** Each int has exactly one representation: Unnamed never carries 1, 2 or 3. */
  type DifficultyType = d: DifficultyValue | d.Unnamed? ==> d.code !in {1, 2, 3} witness Easy

  /** The enum's underlying int, `(int)d`. */
  function ToInt(d: DifficultyType): int {
    match d
    case Easy => 1
    case Normal => 2
    case Hard => 3
    case Unnamed(c) => c
  }

  /** The cast `(DifficultyType)i`, which accepts every int. */
  function FromInt(i: int): (d: DifficultyType)
    ensures ToInt(d) == i
  {
    if i == 1 then Easy else if i == 2 then Normal else if i == 3 then Hard else Unnamed(i)
  }

  /** Casting a difficulty to int and back gives it back. */
  lemma FromIntToInt(d: DifficultyType)
    ensures FromInt(ToInt(d)) == d
  {
  }

  /** The value of an enum field nobody has assigned. */
  const Unset: DifficultyType := Unnamed(0)

  class DifficultyManager {
    var difficulty: DifficultyType
    const store: Store

    constructor(store: Store)
      ensures difficulty == Unset && this.store == store
    {
      difficulty := Unset;
      this.store := store;
    }

    /** Sets the difficulty and stores its int under Difficulty_Index. */
    method SetDifficulty(newDifficulty: DifficultyType)
      modifies this, store
      ensures difficulty == newDifficulty
      ensures store.ints == old(store.ints)[Name(DifficultyIndex) := ToInt(newDifficulty)]
      ensures store.floats == old(store.floats)
    {
      difficulty := newDifficulty;
      store.SetInt(DifficultyIndex, ToInt(newDifficulty));
    }

    method LoadDifficulty(difficultyIndex: int)
      modifies this
      ensures difficulty == FromInt(difficultyIndex)
    {
      difficulty := FromInt(difficultyIndex);
    }
  }

  /** What SetDifficulty stores, read back with any default and cast, is the
      difficulty that was set. */
  lemma StoredDifficultyRestores(ints: map<string, int>, d: DifficultyType, default: int)
    ensures FromInt(IntAt(ints[Name(DifficultyIndex) := ToInt(d)], DifficultyIndex, default)) == d
  {
    FromIntToInt(d);
  }
}

/** The chosen skin, kept across scenes (Assets/Scripts/Managers/SkinManager.cs). */
module Skins {

  class SkinManager {
    var chooseSkinId: int

    constructor()
      ensures chooseSkinId == 0
    {
      chooseSkinId := 0;
    }

    /** Any int is accepted; there is no range check. */
    method SetSkinId(id: int)
      modifies this
      ensures chooseSkinId == id
    {
      chooseSkinId := id;
    }

    method GetSkinId() returns (id: int)
      ensures id == chooseSkinId
    {
      id := chooseSkinId;
    }
  }

  /** GetSkinId answers the argument of the latest SetSkinId. */
  method SetThenGet(m: SkinManager, id: int) returns (got: int)
    modifies m
    ensures got == id
  {
    m.SetSkinId(id);
    got := m.GetSkinId();
  }
}
