/** The character that walks between the stations of the main menu
    (Assets/Scripts/UI/Ui_MenuCharacter.cs). */
module MenuCharacterUi {
  import opened Engine
  import opened Facing

  class MenuCharacter {
    const speed: real
    var position: Point
    var destination: Point
    var isMoving: bool
    var facingDir: int
    var isFacingRight: bool

    /** The facing direction agrees with the facing flag. */
    predicate Valid()
      reads this
    {
      Consistent(facingDir, isFacingRight)
    }

    constructor(position: Point, speed: real)
      ensures Valid() && isFacingRight && !isMoving
      ensures this.position == position && this.speed == speed
    {
      this.speed := speed;
      this.position := position;
      destination := position;
      isMoving := false;
      facingDir := 1;
      isFacingRight := true;
    }

    /** Walks towards the target's x at the character's own height, turning
        to face it first when it lies behind. */
    method MoveTo(target: Point)
      requires Valid()
      modifies this
      ensures Valid() && isMoving
      ensures destination == Point(target.x, position.y) && position == old(position)
      ensures isFacingRight == (if NeedsFlip(target.x, position.x, old(isFacingRight)) then !old(isFacingRight) else old(isFacingRight))
      ensures target.x != position.x ==> isFacingRight == (target.x > position.x)
    {
      destination := Point(target.x, position.y);
      isMoving := true;
      HandleFlip(target.x);
    }

    method HandleFlip(xValue: real)
      requires Valid()
      modifies this
      ensures Valid()
      ensures isFacingRight == (if NeedsFlip(xValue, position.x, old(isFacingRight)) then !old(isFacingRight) else old(isFacingRight))
      ensures xValue != position.x ==> isFacingRight == (xValue > position.x)
      ensures xValue == position.x ==> isFacingRight == old(isFacingRight)
      ensures position == old(position) && destination == old(destination) && isMoving == old(isMoving)
    {
      if NeedsFlip(xValue, position.x, isFacingRight) {
        Flip();
      }
    }

    method Flip()
      requires Valid()
      modifies this
      ensures Valid() && isFacingRight == !old(isFacingRight)
      ensures position == old(position) && destination == old(destination) && isMoving == old(isMoving)
    {
      facingDir := facingDir * -1;
      isFacingRight := !isFacingRight;
    }

    /** One frame. The engine's step towards the destination is given as
        `stepped`, and `arrived` says whether it is within 0.1 of it. Nothing
        moves while the character is not walking. */
    method Update(stepped: Point, arrived: bool)
      modifies this
      ensures old(isMoving) ==> position == stepped && isMoving == !arrived
      ensures !old(isMoving) ==> position == old(position) && !isMoving
      ensures destination == old(destination)
      ensures facingDir == old(facingDir) && isFacingRight == old(isFacingRight)
    {
      if isMoving {
        position := stepped;
        if arrived {
          isMoving := false;
        }
      }
    }
  }
}

/** The main menu (Assets/Scripts/UI/Ui_MainMenu.cs): screens shown one at a
    time, the "continue" button and the way into a level. */
module MainMenuUi {
  import opened Common
  import opened Prefs
  import opened Engine
  import opened Difficulty
  import opened Skins
  import opened MenuCharacterUi

  /** A game object that can be shown or hidden. */
  class UiElement {
    var active: bool

    constructor(active: bool)
      ensures this.active == active
    {
      this.active := active;
    }
  }

  /** There is progress to continue: the stored level to continue (default
      0) is positive. */
  predicate HasLevelProgression(ints: map<string, int>) {
    IntAt(ints, ContinueNumberLevel, 0) > 0
  }

  /** A level that stored itself as the one to continue enables "continue"
      exactly when it is a level scene (index above the menu's 0). */
  lemma ProgressionAfterSave(ints: map<string, int>, level: int)
    ensures HasLevelProgression(ints[Name(ContinueNumberLevel) := level]) <==> level > 0
  {
    WriteThenRead(ints, ContinueNumberLevel, level, ContinueNumberLevel, 0);
  }

  class MainMenu {
    const uiElements: array<UiElement>
    const continueButton: UiElement
    const firstLevelName: string
    const menuCharacter: MenuCharacter
    const mainMenuPoint: Point
    const skinSelectionPoint: Point
    var cameraFollow: Point
    const store: Store
    const scenes: SceneLoader
    const time: TimeSettings

    constructor(uiElements: array<UiElement>, continueButton: UiElement, firstLevelName: string,
                menuCharacter: MenuCharacter, mainMenuPoint: Point, skinSelectionPoint: Point,
                store: Store, scenes: SceneLoader, time: TimeSettings)
      ensures this.uiElements == uiElements && this.continueButton == continueButton
      ensures this.firstLevelName == firstLevelName && this.menuCharacter == menuCharacter
      ensures this.mainMenuPoint == mainMenuPoint && this.skinSelectionPoint == skinSelectionPoint
      ensures this.store == store && this.scenes == scenes && this.time == time
    {
      this.uiElements := uiElements;
      this.continueButton := continueButton;
      this.firstLevelName := firstLevelName;
      this.menuCharacter := menuCharacter;
      this.mainMenuPoint := mainMenuPoint;
      this.skinSelectionPoint := skinSelectionPoint;
      cameraFollow := mainMenuPoint;
      this.store := store;
      this.scenes := scenes;
      this.time := time;
    }

    /** Time runs again, and "continue" is shown when there is progress. */
    method Start()
      modifies continueButton, time
      ensures time.timeScale == 1.0
      ensures continueButton.active == (old(continueButton.active) || HasLevelProgression(store.ints))
    {
      LoadProgress();
      time.timeScale := 1.0;
    }

    /** Shows "continue" when there is progress; never hides it. */
    method LoadProgress()
      modifies continueButton
      ensures continueButton.active == (old(continueButton.active) || HasLevelProgression(store.ints))
    {
      if HasLevelProgression(store.ints) {
        continueButton.active := true;
      }
    }

    /** Hides every screen, then shows `uiToEnable`. */
    method SwitchUI(uiToEnable: UiElement)
      modifies set i | 0 <= i < uiElements.Length :: uiElements[i]
      modifies uiToEnable
      ensures uiToEnable.active
      ensures forall i :: 0 <= i < uiElements.Length && uiElements[i] != uiToEnable ==> !uiElements[i].active
    {
      var i := 0;
      while i < uiElements.Length
        invariant 0 <= i <= uiElements.Length
        invariant forall j :: 0 <= j < i ==> !uiElements[j].active
      {
        uiElements[i].active := false;
        i := i + 1;
      }
      uiToEnable.active := true;
    }

    method NewGame()
      modifies scenes
      ensures scenes.requests == old(scenes.requests) + [Named(firstLevelName)]
    {
      scenes.Load(Named(firstLevelName));
    }

    /** Restores the saved skin (default 0) and difficulty (default 1, Easy)
        and loads the level to continue (default 0). */
    method ContinueGame(skinManager: SkinManager, difficultyManager: DifficultyManager)
      modifies skinManager, difficultyManager, scenes
      ensures skinManager.chooseSkinId == store.GetInt(SkinIndex, 0)
      ensures difficultyManager.difficulty == FromInt(store.GetInt(DifficultyIndex, 1))
      ensures Name(DifficultyIndex) !in store.ints ==> difficultyManager.difficulty == Easy
      ensures scenes.requests == old(scenes.requests) + [Named(LevelSceneName(store.GetInt(ContinueNumberLevel, 0)))]
    {
      var difficultyIndex := store.GetInt(DifficultyIndex, 1);
      var continueSceneIndex := store.GetInt(ContinueNumberLevel, 0);
      var lastSkinIndex := store.GetInt(SkinIndex, 0);
      skinManager.SetSkinId(lastSkinIndex);
      difficultyManager.LoadDifficulty(difficultyIndex);
      scenes.Load(Named(LevelSceneName(continueSceneIndex)));
    }

    method MoveCameraToMainMenu()
      requires menuCharacter.Valid()
      modifies this, menuCharacter
      ensures menuCharacter.Valid() && menuCharacter.isMoving
      ensures menuCharacter.destination == Point(mainMenuPoint.x, menuCharacter.position.y)
      ensures cameraFollow == mainMenuPoint
    {
      menuCharacter.MoveTo(mainMenuPoint);
      cameraFollow := mainMenuPoint;
    }

    method MoveCameraToSkinMenu()
      requires menuCharacter.Valid()
      modifies this, menuCharacter
      ensures menuCharacter.Valid() && menuCharacter.isMoving
      ensures menuCharacter.destination == Point(skinSelectionPoint.x, menuCharacter.position.y)
      ensures cameraFollow == skinSelectionPoint
    {
      menuCharacter.MoveTo(skinSelectionPoint);
      cameraFollow := skinSelectionPoint;
    }
  }
}

/** The credits roll (Assets/Scripts/UI/Ui_Credits.cs). */
module CreditsUi {
  import opened Engine

  class Credits {
    /** Inspector defaults: 200 and 1800. */
    var scrollSpeed: real
    const offScreenPosition: real
    /** The anchored y position of the scrolling text. */
    var y: real
    var creditsSkipped: bool
    const mainMenuSceneName: string
    const scenes: SceneLoader

    constructor(scrollSpeed: real, offScreenPosition: real, y: real, mainMenuSceneName: string, scenes: SceneLoader)
      ensures this.scrollSpeed == scrollSpeed && this.offScreenPosition == offScreenPosition && this.y == y
      ensures this.mainMenuSceneName == mainMenuSceneName && this.scenes == scenes
      ensures !creditsSkipped
    {
      this.scrollSpeed := scrollSpeed;
      this.offScreenPosition := offScreenPosition;
      this.y := y;
      creditsSkipped := false;
      this.mainMenuSceneName := mainMenuSceneName;
      this.scenes := scenes;
    }

    /** One frame: the text rises by speed times the frame time; past the
        off-screen position the main menu is requested, on this frame and, as
        the text keeps rising, on every later one. */
    method Update(deltaTime: real)
      modifies this, scenes
      ensures y == old(y) + scrollSpeed * deltaTime
      ensures scrollSpeed == old(scrollSpeed) && creditsSkipped == old(creditsSkipped)
      ensures y > offScreenPosition ==> scenes.requests == old(scenes.requests) + [Named(mainMenuSceneName)]
      ensures y <= offScreenPosition ==> scenes.requests == old(scenes.requests)
      ensures old(y) > offScreenPosition && scrollSpeed >= 0.0 && deltaTime >= 0.0
        ==> scenes.requests == old(scenes.requests) + [Named(mainMenuSceneName)]
    {
      y := y + scrollSpeed * deltaTime;
      if y > offScreenPosition {
        scenes.Load(Named(mainMenuSceneName));
      }
    }

    /** The first skip speeds the roll up tenfold; every later skip leaves
        for the main menu. */
    method SkipCredits()
      modifies this, scenes
      ensures creditsSkipped
      ensures !old(creditsSkipped) ==> scrollSpeed == old(scrollSpeed) * 10.0 && scenes.requests == old(scenes.requests)
      ensures old(creditsSkipped) ==>
        scrollSpeed == old(scrollSpeed) && scenes.requests == old(scenes.requests) + [Named(mainMenuSceneName)]
      ensures y == old(y)
    {
      if !creditsSkipped {
        scrollSpeed := scrollSpeed * 10.0;
        creditsSkipped := true;
      } else {
        scenes.Load(Named(mainMenuSceneName));
      }
    }
  }

  /** Skipping twice speeds the roll up once and leaves for the menu once. */
  method SkipTwice(credits: Credits)
    requires !credits.creditsSkipped
    modifies credits, credits.scenes
    ensures credits.scrollSpeed == old(credits.scrollSpeed) * 10.0
    ensures credits.scenes.requests == old(credits.scenes.requests) + [Named(credits.mainMenuSceneName)]
  {
    credits.SkipCredits();
    credits.SkipCredits();
  }
}
