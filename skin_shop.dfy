/** The skin shop of the main menu (Assets/Scripts/UI/Ui_SkinSelection.cs):
    a carousel over the skins, their unlock flags loaded from the store, and
    purchases paid from the fruit bank. */
module SkinShop {
  import opened Common
  import opened Prefs
  import opened Skins

  datatype Skin = Skin(skinName: string, skinPrice: int, unlocked: bool)

  /** The carousel's step forward over 0 .. maxIndex. Both operands of `%`
      are non-negative here, so C#'s remainder and Dafny's agree. */
  function NextIndex(i: int, maxIndex: int): (j: int)
    requires 0 <= i <= maxIndex
    ensures 0 <= j <= maxIndex
    ensures i < maxIndex ==> j == i + 1
    ensures i == maxIndex ==> j == 0
  {
    (i + 1) % (maxIndex + 1)
  }

  /** The carousel's step back over 0 .. maxIndex. */
  function PreviousIndex(i: int, maxIndex: int): (j: int)
    requires 0 <= i <= maxIndex
    ensures 0 <= j <= maxIndex
    ensures i > 0 ==> j == i - 1
    ensures i == 0 ==> j == maxIndex
  {
    (i - 1 + (maxIndex + 1)) % (maxIndex + 1)
  }

  /** Stepping forward then back, or back then forward, returns to the start. */
  lemma StepsCancel(i: int, maxIndex: int)
    requires 0 <= i <= maxIndex
    ensures PreviousIndex(NextIndex(i, maxIndex), maxIndex) == i
    ensures NextIndex(PreviousIndex(i, maxIndex), maxIndex) == i
  {
  }

  /** The bank after paying `price` from `bank`, or None when the bank is
      short. */
  function Purchase(bank: int, price: int): (after: Option<int>)
    ensures after.Some? <==> bank >= price
    ensures after.Some? ==> after.value + price == bank
    ensures after.Some? && price >= 0 ==> 0 <= after.value <= bank
  {
    if bank >= price then Some(bank - price) else None
  }

  class SkinSelection {
    const skinList: array<Skin>
    /** The animator's layer count less one: the last index of the carousel. */
    const maxIndex: int
    var skinIndex: int
    const store: Store
    const skinManager: SkinManager
    /** Whether the menu was asked to switch to the level selection. */
    var levelSelectionShown: bool

    /** The carousel index is a valid skin. */
    predicate Valid()
      reads this
    {
      0 <= skinIndex <= maxIndex < skinList.Length
    }

    /** Awake: the carousel has one place per animator layer, and each layer
        shows a skin of the list. */
    constructor(skinList: array<Skin>, layerCount: int, store: Store, skinManager: SkinManager)
      requires 1 <= layerCount <= skinList.Length
      ensures Valid() && skinIndex == 0 && maxIndex == layerCount - 1
      ensures this.skinList == skinList && this.store == store && this.skinManager == skinManager
      ensures !levelSelectionShown
    {
      this.skinList := skinList;
      maxIndex := layerCount - 1;
      skinIndex := 0;
      this.store := store;
      this.skinManager := skinManager;
      levelSelectionShown := false;
    }

    method GetFruitInBank() returns (bank: int)
      ensures bank == store.GetInt(TotalFruitsAmount, 0)
    {
      bank := store.GetInt(TotalFruitsAmount, 0);
    }

    /** Skin 0 is always unlocked; skin i is unlocked exactly when its stored
        flag is 1. Names and prices are kept. */
    method LoadSkinsUnlock()
      modifies skinList
      ensures forall i :: 0 <= i < skinList.Length ==>
        skinList[i].unlocked == (i == 0 || store.GetInt(UnlockedSkinIndex(i), 0) == 1)
      ensures forall i :: 0 <= i < skinList.Length ==>
        skinList[i].skinName == old(skinList[i].skinName) && skinList[i].skinPrice == old(skinList[i].skinPrice)
    {
      var i := 0;
      while i < skinList.Length
        invariant 0 <= i <= skinList.Length
        invariant forall j :: 0 <= j < i ==>
          skinList[j].unlocked == (j == 0 || store.GetInt(UnlockedSkinIndex(j), 0) == 1)
        invariant forall j :: 0 <= j < skinList.Length ==>
          skinList[j].skinName == old(skinList[j].skinName) && skinList[j].skinPrice == old(skinList[j].skinPrice)
      {
        var isUnlocked := store.GetInt(UnlockedSkinIndex(i), 0) == 1;
        skinList[i] := skinList[i].(unlocked := i == 0 || isUnlocked);
        i := i + 1;
      }
    }

    method NextSkin()
      requires Valid()
      modifies this
      ensures Valid() && skinIndex == NextIndex(old(skinIndex), maxIndex)
      ensures levelSelectionShown == old(levelSelectionShown)
    {
      skinIndex := (skinIndex + 1) % (maxIndex + 1);
    }

    method PreviousSkin()
      requires Valid()
      modifies this
      ensures Valid() && skinIndex == PreviousIndex(old(skinIndex), maxIndex)
      ensures levelSelectionShown == old(levelSelectionShown)
    {
      skinIndex := (skinIndex - 1 + (maxIndex + 1)) % (maxIndex + 1);
    }

    /** Pays `skinPrice` from the bank when it holds enough. */
    method BuySkinTransaction(skinPrice: int) returns (success: bool)
      modifies store
      ensures var after := Purchase(old(store.GetInt(TotalFruitsAmount, 0)), skinPrice);
        && success == after.Some?
        && store.ints == if success then old(store.ints)[Name(TotalFruitsAmount) := after.value] else old(store.ints)
      ensures store.floats == old(store.floats)
    {
      var bank := GetFruitInBank();
      if bank >= skinPrice {
        bank := GetFruitInBank();
        store.SetInt(TotalFruitsAmount, bank - skinPrice);
        success := true;
      } else {
        success := false;
      }
    }

    /** Buys skin `index`: on success it is unlocked and its flag stored as 1;
        a failed purchase changes nothing. No skin is ever locked again. */
    method BuySkin(index: int)
      requires 0 <= index < skinList.Length
      modifies store, skinList
      ensures var after := Purchase(old(store.GetInt(TotalFruitsAmount, 0)), skinList[index].skinPrice);
        if after.Some? then
          && skinList[index] == old(skinList[index]).(unlocked := true)
          && store.ints == old(store.ints)[Name(TotalFruitsAmount) := after.value][Name(UnlockedSkinIndex(index)) := 1]
        else
          && skinList[index] == old(skinList[index])
          && store.ints == old(store.ints)
      ensures forall j :: 0 <= j < skinList.Length && j != index ==> skinList[j] == old(skinList[j])
      ensures forall j :: 0 <= j < skinList.Length ==> (old(skinList[j].unlocked) ==> skinList[j].unlocked)
      ensures store.floats == old(store.floats)
    {
      var skinPrice := skinList[index].skinPrice;
      var success := BuySkinTransaction(skinPrice);
      if success {
        skinList[index] := skinList[index].(unlocked := true);
        store.SetInt(UnlockedSkinIndex(index), 1);
      }
    }

    /** An unlocked skin is chosen (the bank is untouched) and the menu moves
        on to the level selection; a locked one is only offered for sale. */
    method SelectedSkin()
      requires Valid()
      modifies this, store, skinList, skinManager
      ensures Valid() && skinIndex == old(skinIndex)
      ensures old(skinList[skinIndex].unlocked) ==>
        && skinManager.chooseSkinId == skinIndex && levelSelectionShown
        && store.ints == old(store.ints) && skinList[..] == old(skinList[..])
      ensures !old(skinList[skinIndex].unlocked) ==>
        && skinManager.chooseSkinId == old(skinManager.chooseSkinId)
        && levelSelectionShown == old(levelSelectionShown)
        && var after := Purchase(old(store.GetInt(TotalFruitsAmount, 0)), skinList[skinIndex].skinPrice);
           && skinList[skinIndex] == old(skinList[skinIndex]).(unlocked := after.Some?)
           && store.ints == if after.Some?
                then old(store.ints)[Name(TotalFruitsAmount) := after.value][Name(UnlockedSkinIndex(skinIndex)) := 1]
                else old(store.ints)
      ensures forall j :: 0 <= j < skinList.Length && j != skinIndex ==> skinList[j] == old(skinList[j])
      ensures store.floats == old(store.floats)
    {
      if skinList[skinIndex].unlocked {
        skinManager.SetSkinId(skinIndex);
        levelSelectionShown := true;
      } else {
        BuySkin(skinIndex);
      }
    }
  }

  /** Starting from a non-negative bank, no sequence of purchases drives it
      below zero as long as prices are non-negative. */
  lemma {:induction false} BankNeverNegative(bank: int, prices: seq<int>)
    requires bank >= 0
    requires forall i :: 0 <= i < |prices| ==> prices[i] >= 0
    ensures BankAfter(bank, prices) >= 0
    decreases |prices|
  {
    if prices != [] {
      var after := Purchase(bank, prices[0]);
      var rest := if after.Some? then after.value else bank;
      assert BankAfter(bank, prices) == BankAfter(rest, prices[1..]);
      BankNeverNegative(rest, prices[1..]);
    }
  }

  /** The bank after trying each purchase of `prices` in turn. */
  function BankAfter(bank: int, prices: seq<int>): int
    decreases |prices|
  {
    if prices == [] then bank
    else
      var after := Purchase(bank, prices[0]);
      BankAfter(if after.Some? then after.value else bank, prices[1..])
  }
}
