# A verified model of a 2D platformer's game logic

The game is a Unity 2D platformer written in C#. This project models its
gameplay scripts in Dafny:

- the player controller: jumps, coyote time, the jump buffer, wall and double
  jumps, knockback, and damage by difficulty;
- the six enemy kinds and their shared base;
- the saw, falling-platform and fire traps, and the checkpoints;
- the level manager, which keeps the fruit counter, handles respawns and saves
  progress;
- the menus: skin shop, level list, main menu, pause overlay, credits, and
  the walking menu character;
- the two settings singletons, difficulty and skin.

Each C# component whose methods update its fields is a Dafny `class` with
those fields. Its methods carry `modifies` clauses and state the whole new
state. Pure rules are `function`s, and lemmas are proved about them.

The engine is abstracted throughout:

- **Preference store.** `PlayerPrefs` is `Prefs.Store`: string-keyed int and
  float maps. The key strings are built from the constants of
  `Core/Common/Constants.cs` and C#'s `int.ToString`. Distinct keys are proved
  to give distinct strings.
- **Physics.** Raycasts, overlap tests and "arrived within 0.1" are boolean
  inputs. Positions the engine computes (`MoveTowards`) are point inputs.
  Velocities are plain fields.
- **Time.** `Time.time` and `Time.deltaTime` are `real` parameters.
- **Randomness.** A random choice is a `bool` parameter.
- **Delayed work.** A coroutine or an `Invoke` becomes a pending counter or
  flag. A separate method (`CompleteRespawn`, `EndKnockback`, `EndPush`,
  `EndWallJump`, `CompleteDelayedFlip`, `EndStop`, `Relight`) performs the
  part that runs later.
- **Scene loads.** A load is appended to `Engine.SceneLoader.requests`. The
  fade that precedes it is not modelled.
- **Inheritance.** `Enemy` and its subclasses become composition. Each enemy
  kind holds an `EnemyBase.Enemy`. An override calls the base method and adds
  its own part.

Module layout: `Common`, `Engine`, `Singletons`, `Facing` and `Prefs` are
shared vocabulary. The other modules each follow one source file, or a
closely related group of them.

## Model

| member | source | states |
|---|---|---|
| Common.NatToStringRoundTrip | Assets/Scripts/Managers/GameManager.cs:80 | Reading back the decimal digits that a key suffix is built from gives the number again. |
| Common.IntToStringRoundTrip | Assets/Scripts/Managers/GameManager.cs:80 | Printing any int, negative ones included, and parsing the text gives the int back. |
| Common.IntToStringInjective | Assets/Scripts/Managers/GameManager.cs:80 | Two ints print the same exactly when they are equal. |
| Prefs.NameInjective | Assets/Scripts/Core/Common/Constants.cs:5-21 | Two keys (prefix plus index) are stored under the same string exactly when they are the same key, so one write never disturbs another key. |
| Prefs.LevelSceneNameInjective | Assets/Scripts/Core/Common/Constants.cs:5 | "Level_" plus an index names a different scene for every index. |
| Prefs.WriteThenRead | Assets/Scripts/Core/Common/Constants.cs:6-21 | After an int write, reading the same key gives the value; any other key reads as before, whatever the default. |
| Prefs.WriteThenReadFloat | Assets/Scripts/Core/Common/Constants.cs:10 | The same read-after-write rule for float entries such as the best time. |
| Singletons.Slot.Awake | Assets/Scripts/Managers/DifficultyManager.cs:10-24 | The first object to wake becomes `instance`. Every later one is destroyed and leaves `instance` unchanged. The same pattern appears in SkinManager.cs:10-24, Ui_InGame.cs:20-32 and GameManager.cs:51-67. |
| Facing.NeedsFlip | Assets/Scripts/Enemies/Enemy.cs:133-139 | A character must turn exactly when the target x is strictly on the side it does not face. An equal x never turns it. |
| Difficulty.FromInt | Assets/Scripts/Managers/DifficultyManager.cs:35-47 | The cast from int accepts every int and casts back to the same int. Since an unnamed value never carries 1, 2 or 3, this makes 1, 2 and 3 exactly Easy, Normal and Hard. |
| Difficulty.FromIntToInt | Assets/Scripts/Managers/DifficultyManager.cs:42-47 | Casting a difficulty to int and back gives the same difficulty. |
| Difficulty.DifficultyManager.SetDifficulty | Assets/Scripts/Managers/DifficultyManager.cs:27-32 | Sets the difficulty and stores its int under Difficulty_Index. No other entry changes. |
| Difficulty.DifficultyManager.LoadDifficulty | Assets/Scripts/Managers/DifficultyManager.cs:35-38 | The difficulty becomes the cast of the given int. |
| Difficulty.StoredDifficultyRestores | Assets/Scripts/Managers/DifficultyManager.cs:27-38 | Loading the int that SetDifficulty stored gives back the difficulty that was set. |
| Skins.SkinManager.constructor | Assets/Scripts/Managers/SkinManager.cs:7 | The chosen skin id starts at 0. |
| Skins.SkinManager.SetSkinId | Assets/Scripts/Managers/SkinManager.cs:27-30 | Any int becomes the chosen id; there is no range check. |
| Skins.SkinManager.GetSkinId | Assets/Scripts/Managers/SkinManager.cs:33-36 | Answers the chosen id and changes nothing. |
| Skins.SetThenGet | Assets/Scripts/Managers/SkinManager.cs:27-36 | GetSkinId answers the argument of the latest SetSkinId. |
| InGameUi.FruitCounterTextInjective | Assets/Scripts/UI/Ui_InGame.cs:68-71 | The "collected/total" text determines both numbers. |
| InGameUi.InGame.PauseBtn | Assets/Scripts/UI/Ui_InGame.cs:52-66 | Toggles pause. Afterwards time scale is 0 exactly when paused, and the pause menu is shown exactly when paused. |
| InGameUi.InGame.Update | Assets/Scripts/UI/Ui_InGame.cs:39-45 | Pressing P or Escape, or both, toggles pause exactly once. With neither key, nothing changes. |
| InGameUi.InGame.UpdateFruitUI | Assets/Scripts/UI/Ui_InGame.cs:68-71 | The counter shows "collected/total" and the pause state is kept. |
| InGameUi.InGame.GoToMainMenuBtn | Assets/Scripts/UI/Ui_InGame.cs:47-50 | Requests build scene 0. |
| InGameUi.PauseTwice | Assets/Scripts/UI/Ui_InGame.cs:52-66 | Two presses restore the paused flag, and the menu and time scale agree with it. |
| Game.NextScene | Assets/Scripts/Managers/GameManager.cs:289-326 | "TheEnd" exactly when the current index is the scene count minus 2; otherwise "Level_<next>". |
| Game.FruitsSavedEffect | Assets/Scripts/Managers/GameManager.cs:265-276 | The fruit record becomes the larger of the old record and the run. The bank grows by the whole run exactly when the record is beaten. Otherwise the store is untouched, and no other key ever changes. |
| Game.BestTimeNeverStored | Assets/Scripts/Managers/GameManager.cs:256-263 | As written, a level with no stored time never gets one from any series of non-negative timers. |
| Game.BestTimeSavedFrame | Assets/Scripts/Managers/GameManager.cs:256-263 | Saving the best time writes no float other than the level's best time. |
| Game.BestTimeIsFastest | Assets/Scripts/Managers/GameManager.cs:256-263 | With the corrected rule, the stored best after a series of runs is the fastest run, or the earlier best if that is faster. |
| Game.ProgressSavedEffect | Assets/Scripts/Managers/GameManager.cs:232-276 | Completing a level stores completed = 1 and the fruit record and bank. Unless it was the last level, it also unlocks the next level, stores it as the level to continue, and stores the skin when a skin manager exists. Every other key is kept. |
| Game.PlayerRefAsWrittenStaysEmpty | Assets/Scripts/Managers/GameManager.cs:90-93 | As written, a manager with no player never looks one up. |
| Game.PlayerRef | Assets/Scripts/Managers/GameManager.cs:90-93 | Corrected: an existing player is kept, a missing one is looked up, and a found player is never lost. |
| Game.GameManager.Start | Assets/Scripts/Managers/GameManager.cs:70-101 | Stores Unlock_Level_<current> = 1, ContinueNumber_Level = current and the level's fruit total. Sets next = current + 1. Takes the start point only when no respawn point is set. Keeps an existing player and looks one up when there is none (the corrected rule of the GameManager.cs:90-93 finding). Shows the counter. |
| Game.GameManager.CollectFruitInfo | Assets/Scripts/Managers/GameManager.cs:118-130 | The total is the fruit count of the scene, stored under TotalFruits_Level_<current>; nothing else in the store changes. |
| Game.GameManager.Update | Assets/Scripts/Managers/GameManager.cs:103-107 | The level timer grows by the frame time. Every other field is kept. |
| Game.GameManager.RespawnPlayer | Assets/Scripts/Managers/GameManager.cs:133-143 | On Hard, with a difficulty manager present, nothing is scheduled. Otherwise exactly one respawn is scheduled. Every other field is kept. |
| Game.GameManager.CompleteRespawn | Assets/Scripts/Managers/GameManager.cs:153-164 | The scheduled respawn ends and the new player becomes the manager's player. Every other field is kept. |
| Game.GameManager.UpdateRespawnPlayerPosition | Assets/Scripts/Managers/GameManager.cs:147-151 | The respawn point is replaced. Every other field is kept. |
| Game.GameManager.AddFruit | Assets/Scripts/Managers/GameManager.cs:166-173 | The count rises by exactly 1 and the counter shows it. Every other field is kept. |
| Game.GameManager.RemoveFruit | Assets/Scripts/Managers/GameManager.cs:175-179 | The count drops by exactly 1, with no lower bound, and the counter shows it. Every other field is kept. |
| Game.GameManager.GetFruitCollected | Assets/Scripts/Managers/GameManager.cs:181-184 | Answers the count. |
| Game.GameManager.SaveLevelProgress | Assets/Scripts/Managers/GameManager.cs:232-254 | The int store becomes ProgressSaved of the old one (see ProgressSavedEffect). The float store gets the corrected best time. |
| Game.GameManager.SaveBestTime | Assets/Scripts/Managers/GameManager.cs:256-263 | Corrected rule: the timer is stored when no time is stored yet or when it beats the stored one. The int store is untouched. |
| Game.GameManager.SaveFruitsInfo | Assets/Scripts/Managers/GameManager.cs:265-276 | The int store becomes FruitsSaved of the old one (see FruitsSavedEffect). |
| Game.GameManager.RestartLevel | Assets/Scripts/Managers/GameManager.cs:278-286 | Requests "Level_<current>". |
| Game.GameManager.LoadNextScene | Assets/Scripts/Managers/GameManager.cs:289-316 | Requests NextScene: "TheEnd" after the last level, else "Level_<next>". |
| Game.GameManager.LevelFinished | Assets/Scripts/Managers/GameManager.cs:223-229 | Saves progress as SaveLevelProgress does, with the corrected best-time rule, then requests the next scene. |
| Game.StartThenFinish | Assets/Scripts/Managers/GameManager.cs:223-254 | A started level that is then finished is stored as completed. The level after it is unlocked unless it was the last, and the following scene is requested. |
| SkinShop.NextIndex | Assets/Scripts/UI/Ui_SkinSelection.cs:82-87 | Stays in 0..max, steps up by one, and wraps from max to 0. |
| SkinShop.PreviousIndex | Assets/Scripts/UI/Ui_SkinSelection.cs:90-95 | Stays in 0..max, steps down by one, and wraps from 0 to max. |
| SkinShop.StepsCancel | Assets/Scripts/UI/Ui_SkinSelection.cs:82-95 | Next then previous, and previous then next, return to the starting index. |
| SkinShop.Purchase | Assets/Scripts/UI/Ui_SkinSelection.cs:144-158 | Succeeds exactly when the bank holds at least the price. The bank then drops by exactly the price and, with a non-negative price, stays non-negative. |
| SkinShop.BankNeverNegative | Assets/Scripts/UI/Ui_SkinSelection.cs:144-158 | From a non-negative bank, no series of purchases at non-negative prices makes the bank negative. |
| SkinShop.SkinSelection.constructor | Assets/Scripts/UI/Ui_SkinSelection.cs:38-42 | The last carousel index is the layer count minus 1, and the carousel starts at 0. |
| SkinShop.SkinSelection.GetFruitInBank | Assets/Scripts/UI/Ui_SkinSelection.cs:138-141 | Reads TotalFruitsAmount with default 0. |
| SkinShop.SkinSelection.LoadSkinsUnlock | Assets/Scripts/UI/Ui_SkinSelection.cs:55-62 | Skin 0 is unlocked. Every other skin i is unlocked exactly when Unlocked_SkinIndex_<i> is stored as 1. Names and prices are kept. |
| SkinShop.SkinSelection.NextSkin | Assets/Scripts/UI/Ui_SkinSelection.cs:82-87 | The carousel index becomes NextIndex of the old one. |
| SkinShop.SkinSelection.PreviousSkin | Assets/Scripts/UI/Ui_SkinSelection.cs:90-95 | The carousel index becomes PreviousIndex of the old one. |
| SkinShop.SkinSelection.BuySkinTransaction | Assets/Scripts/UI/Ui_SkinSelection.cs:144-158 | Succeeds exactly when Purchase does. On success the bank is debited by the price; on failure the store is untouched. |
| SkinShop.SkinSelection.BuySkin | Assets/Scripts/UI/Ui_SkinSelection.cs:126-135 | On success the skin is unlocked and its flag stored as 1. A failure changes neither the list nor the store. No skin is ever locked again. |
| SkinShop.SkinSelection.SelectedSkin | Assets/Scripts/UI/Ui_SkinSelection.cs:65-79 | An unlocked skin is chosen and the menu moves on to the level list, with the store untouched. A locked skin is not chosen: a purchase is attempted instead. On success the bank is debited and the skin's flag stored as 1; on failure the store is untouched. Only the selected skin can change. |
| LevelButtons.FruitsInfoShowsSavedRecord | Assets/Scripts/UI/Ui_LevelButton.cs:29-36 | The button reads the keys the level manager writes. It shows "collected/total" as the in-level counter does, or "collected/?" for a total of 0. |
| LevelButtons.UnknownTotalIsDistinct | Assets/Scripts/UI/Ui_LevelButton.cs:29-36 | The text ends in "?" exactly when the stored total is 0. |
| LevelButtons.LevelButton.SetupButton | Assets/Scripts/UI/Ui_LevelButton.cs:19-26 | Copies the scene index and the scene name, titles the button "Level <index>" and shows the fruit text. |
| LevelButtons.LevelButton.LoadLevel | Assets/Scripts/UI/Ui_LevelButton.cs:39-47 | Stores the difficulty's int under Difficulty_Index, which reads back as the same difficulty, then requests the button's scene. |
| LevelMenu.UnlockedScenesSpec | Assets/Scripts/UI/Ui_LevelSelection.cs:38-64 | The unlocked levels below n, each once and in increasing order, and no locked one. |
| LevelMenu.SlotsAfterSpec | Assets/Scripts/UI/Ui_LevelSelection.cs:31-64 | After the visits, slot k holds the k-th unlocked level with id k. The next slot is empty or holds a locked level that was never overwritten. Later slots are empty. |
| LevelMenu.LevelSelection.VisitLevel | Assets/Scripts/UI/Ui_LevelSelection.cs:42-63 | Writes level i's model to slot levelId. A button is created exactly when the level is unlocked, and it opens "Level_<i>". |
| LevelMenu.LevelSelection.CreateLevelButtons | Assets/Scripts/UI/Ui_LevelSelection.cs:24-65 | The list has sceneCount - 2 slots laid out as SlotsAfter. Button k opens the k-th unlocked level. |
| LevelMenu.LevelSelection.BuildLevels | Assets/Scripts/UI/Ui_LevelSelection.cs:31-64 | The loop over scenes 1..sceneCount-2. Every write is in bounds, and its result is the one CreateLevelButtons states. |
| LevelMenu.ListLayout | Assets/Scripts/UI/Ui_LevelSelection.cs:24-65 | The finished list: the k-th unlocked level sits in slot k with id k, and everything after is empty apart from at most one locked leftover. |
| MenuCharacterUi.MenuCharacter.constructor | Assets/Scripts/UI/Ui_MenuCharacter.cs:15-16 | Starts facing right with direction 1. |
| MenuCharacterUi.MenuCharacter.MoveTo | Assets/Scripts/UI/Ui_MenuCharacter.cs:45-53 | The destination is the target's x at the character's own y, the character is walking, and it faces the target when that lies to one side. |
| MenuCharacterUi.MenuCharacter.HandleFlip | Assets/Scripts/UI/Ui_MenuCharacter.cs:56-63 | Flips exactly when NeedsFlip holds. The facing stays consistent, and an equal x keeps it. |
| MenuCharacterUi.MenuCharacter.Flip | Assets/Scripts/UI/Ui_MenuCharacter.cs:66-71 | Toggles the facing and keeps direction == (right ? 1 : -1). |
| MenuCharacterUi.MenuCharacter.Update | Assets/Scripts/UI/Ui_MenuCharacter.cs:25-42 | Nothing moves while not walking. A walking character steps and stops walking on arrival. |
| MainMenuUi.ProgressionAfterSave | Assets/Scripts/UI/Ui_MainMenu.cs:71-74 | After a level stores itself as the one to continue, "continue" is available exactly when its index is positive. |
| MainMenuUi.MainMenu.Start | Assets/Scripts/UI/Ui_MainMenu.cs:29-34 | Time scale is reset to 1, and "continue" is shown when there is progress. |
| MainMenuUi.MainMenu.LoadProgress | Assets/Scripts/UI/Ui_MainMenu.cs:37-43 | Shows "continue" exactly when ContinueNumber_Level (default 0) is positive, and never hides it. |
| MainMenuUi.MainMenu.SwitchUI | Assets/Scripts/UI/Ui_MainMenu.cs:46-55 | The given element is active and every other element is inactive. |
| MainMenuUi.MainMenu.NewGame | Assets/Scripts/UI/Ui_MainMenu.cs:58-69 | Requests the first level's scene. |
| MainMenuUi.MainMenu.ContinueGame | Assets/Scripts/UI/Ui_MainMenu.cs:77-89 | Restores the skin (default 0) and the difficulty (default 1, Easy), then requests "Level_<continue>" (default 0). |
| MainMenuUi.MainMenu.MoveCameraToMainMenu | Assets/Scripts/UI/Ui_MainMenu.cs:92-96 | The character walks to the menu point and the camera follows it. |
| MainMenuUi.MainMenu.MoveCameraToSkinMenu | Assets/Scripts/UI/Ui_MainMenu.cs:99-103 | The character walks to the skin point and the camera follows it. |
| CreditsUi.Credits.Update | Assets/Scripts/UI/Ui_Credits.cs:25-35 | y grows by speed times dt, and the main menu is requested once y is past the off-screen position. Once past it, every later frame requests it again. |
| CreditsUi.Credits.SkipCredits | Assets/Scripts/UI/Ui_Credits.cs:38-50 | The first skip multiplies the speed by 10 and sets the flag without leaving the scene. Each later skip requests the main menu. The flag is never cleared. |
| CreditsUi.SkipTwice | Assets/Scripts/UI/Ui_Credits.cs:38-50 | Two skips speed the roll up once and request the menu once. |
| PlayerControl.ChooseJump | Assets/Scripts/Player/Player.cs:441-467 | A normal jump exactly when grounded or in the coyote window. Otherwise a wall jump exactly when at a wall and steering. Otherwise the double jump exactly when it is available. |
| PlayerControl.CancelClosesWindow | Assets/Scripts/Player/Player.cs:416-439 | A window stamped at now - 1 is closed at now exactly when the window is at most 1 second long. |
| PlayerControl.KnockbackDir | Assets/Scripts/Player/Player.cs:273-300 | The direction is ±1, and -1 exactly when the player is left of the source. |
| PlayerControl.Outcome | Assets/Scripts/Player/Player.cs:124-152 | Dies on Hard, or on Normal with no fruit. Loses a fruit on Normal with fruit. Unharmed on any other value. |
| PlayerControl.NormalFruitsAreLives | Assets/Scripts/Player/Player.cs:124-152 | On Normal, n fruits survive exactly n hits, each costing one fruit. |
| PlayerControl.OtherDifficulties | Assets/Scripts/Player/Player.cs:124-161 | On Hard the first hit kills. On Easy or an unset difficulty no number of hits kills or costs a fruit. |
| PlayerControl.Player.constructor | Assets/Scripts/Player/Player.cs:72-76 | Starts facing right with direction 1, and both jump stamps at -1. |
| PlayerControl.Player.Start | Assets/Scripts/Player/Player.cs:109-122 | Remembers gravity, reads the difficulty and the skin, and takes control, the collider and gravity away until the respawn finishes. |
| PlayerControl.Player.UpdateGameDifficulty | Assets/Scripts/Player/Player.cs:154-161 | Copies the manager's difficulty when there is a manager. |
| PlayerControl.Player.UpdateSkin | Assets/Scripts/Player/Player.cs:198-212 | Takes the manager's skin id when there is a manager. Selects that animator when the id is within the animator list; otherwise reports the lookup's exception and keeps the animator. |
| PlayerControl.Player.Damage | Assets/Scripts/Player/Player.cs:124-152 | Per Outcome: a fruit is removed and the counter shows it, or the player dies and the level restarts, or nothing happens. The player's motion, jump state and facing, and the manager's other fields, are kept. |
| PlayerControl.Player.Die | Assets/Scripts/Player/Player.cs:320-327 | The player is destroyed. Every other field is kept. |
| PlayerControl.Player.Update | Assets/Scripts/Player/Player.cs:164-195 | The airborne status updates first. While not controllable, or while knocked back, nothing else changes the motion, and only the raycasts run when not controllable. Otherwise the motion is ControlledFrame of the old one: stomp, jump key, wall slide and steering in order, with facing and raycasts updated. The pending wall-jump ends rise by one exactly when the frame's jump press is a wall jump (ChooseJump gives OffWall), and are kept otherwise. Body, settings, the destroyed flag and the pending pushes are kept. |
| PlayerControl.Player.ControlledUpdate | Assets/Scripts/Player/Player.cs:186-194 | The controlled part of a frame. Its motion is ControlledSteps of the motion after the airborne status. The wall-jump ends rise by one exactly for a wall jump, and it keeps what a frame does not touch. |
| PlayerControl.Player.Steer | Assets/Scripts/Player/Player.cs:190-193 | Wall slide, movement, facing and raycasts. The motion is AfterMovement of AfterWallSlide, the facing follows the held direction, and the input and the wall-jump ends are kept. |
| PlayerControl.Player.HandleEnemyDetection | Assets/Scripts/Player/Player.cs:215-239 | While falling onto at least one enemy the player bounces; otherwise nothing changes. |
| PlayerControl.Player.RespawnFinished | Assets/Scripts/Player/Player.cs:243-270 | Control and the collider are on exactly when finished. Gravity is the default when finished and 0 otherwise. |
| PlayerControl.Player.Knockback | Assets/Scripts/Player/Player.cs:273-300 | Ignored while already knocked. Otherwise knocked, with vx = power.x times KnockbackDir and vy = power.y. Facing, jump state, input and body are kept. |
| PlayerControl.Player.EndKnockback | Assets/Scripts/Player/Player.cs:304-317 | The knockback ends. Velocity, facing, jump state, input and body are kept. |
| PlayerControl.Player.Push | Assets/Scripts/Player/Player.cs:331-335 | Control is taken away, the velocity is cleared and replaced by the impulse over the mass, and one push end is scheduled. Facing, jump state, input and body are kept. |
| PlayerControl.Player.EndPush | Assets/Scripts/Player/Player.cs:338-354 | Control comes back. Velocity, facing, jump state, input and body are kept. |
| PlayerControl.Player.UpdateAirborneStatus | Assets/Scripts/Player/Player.cs:357-368 | Landing restores the double jump and fires a buffered jump inside its window. Leaving the ground opens the coyote window only when falling. |
| PlayerControl.Player.HandleLanding | Assets/Scripts/Player/Player.cs:371-376 | No longer airborne, the double jump is available again, and a buffered jump inside its window fires. |
| PlayerControl.Player.BecomeAirborne | Assets/Scripts/Player/Player.cs:379-389 | Airborne, with the coyote stamp set to now exactly when falling. |
| PlayerControl.Player.HandleInputs | Assets/Scripts/Player/Player.cs:392-404 | Copies the axes. A jump press performs JumpButton and then records a buffer request when airborne: the motion becomes AfterJumpPress of the old one, and the wall-jump ends rise by one exactly for a wall jump. Without a press the motion is kept. |
| PlayerControl.Player.PressJump | Assets/Scripts/Player/Player.cs:398-403 | The jump key's branch: the motion becomes AfterJumpPress of the old one, and the wall-jump ends rise by one exactly for a wall jump. |
| PlayerControl.Player.RequestBufferJump | Assets/Scripts/Player/Player.cs:406-414 | The buffer stamp becomes now, but only while airborne. |
| PlayerControl.Player.AttemptBufferJump | Assets/Scripts/Player/Player.cs:416-427 | Jumps exactly when now is inside the buffer window, and then stamps now - 1. |
| PlayerControl.Player.ActivateCoyoteJump | Assets/Scripts/Player/Player.cs:429-433 | The coyote stamp becomes now. |
| PlayerControl.Player.CancelCoyoteJump | Assets/Scripts/Player/Player.cs:435-439 | The coyote stamp becomes now - 1. |
| PlayerControl.Player.JumpButton | Assets/Scripts/Player/Player.cs:441-467 | Performs at most one jump, the one ChooseJump picks, then closes the coyote window. The motion becomes AfterJumpButton of the old one, and the wall-jump ends rise by one exactly for a wall jump. |
| PlayerControl.Player.Jump | Assets/Scripts/Player/Player.cs:469-473 | vy is the jump force. |
| PlayerControl.Player.DoubleJump | Assets/Scripts/Player/Player.cs:475-485 | Spends the double jump, ends the wall jump, and sets vy to the double-jump force. |
| PlayerControl.Player.WallJump | Assets/Scripts/Player/Player.cs:487-497 | Jumps off the wall along the facing, grants the double jump again, and schedules the wall jump's end. |
| PlayerControl.Player.EndWallJump | Assets/Scripts/Player/Player.cs:499-509 | The wall jump ends. |
| PlayerControl.Player.HandleMovement | Assets/Scripts/Player/Player.cs:511-522 | vx follows the axis unless at a wall. |
| PlayerControl.Player.HandleWallSlide | Assets/Scripts/Player/Player.cs:565-584 | When steering into a wall while falling, the fall is halved, or kept at full speed while holding down. |
| PlayerControl.Player.HandleFlip | Assets/Scripts/Player/Player.cs:543-551 | Faces the held direction. Zero input keeps the facing. |
| PlayerControl.Player.Flip | Assets/Scripts/Player/Player.cs:553-563 | Toggles the facing and keeps direction == (right ? 1 : -1). |
| PlayerControl.Player.HandleCollisions | Assets/Scripts/Player/Player.cs:586-594 | The ground and wall flags are the raycast results. |
| PlayerControl.DoubleJumpOncePerFlight | Assets/Scripts/Player/Player.cs:441-485 | In the air, away from walls and past the coyote window, two presses give one double jump. |
| EnemyBase.Enemy.constructor | Assets/Scripts/Enemies/Enemy.cs:52-53 | Starts facing left with direction -1. |
| EnemyBase.Enemy.Start | Assets/Scripts/Enemies/Enemy.cs:65-76 | Flips once and clears flipX exactly when the sprite starts flipped and the enemy faces left. |
| EnemyBase.Enemy.UpdatePlayerRef | Assets/Scripts/Enemies/Enemy.cs:79-85 | Takes the manager's player only while the reference is empty. While both are empty the source's dereference throws: reported as failed, with the reference left empty. |
| EnemyBase.Enemy.Update | Assets/Scripts/Enemies/Enemy.cs:88-100 | Runs the raycasts, and the idle timer drops by the frame time whether the enemy is alive or dead. |
| EnemyBase.Enemy.HandleCollisions | Assets/Scripts/Enemies/Enemy.cs:163-178 | The four flags are the raycast results. |
| EnemyBase.Enemy.Die | Assets/Scripts/Enemies/Enemy.cs:103-124 | Every collider is disabled, the enemy is dead and thrown up, and destruction is scheduled. The spin direction stays ±1 whatever the random draw. |
| EnemyBase.Enemy.HandleFlip | Assets/Scripts/Enemies/Enemy.cs:133-139 | Flips exactly when NeedsFlip holds. |
| EnemyBase.Enemy.Flip | Assets/Scripts/Enemies/Enemy.cs:142-147 | Toggles the facing and keeps direction == (right ? 1 : -1). |
| EnemyBase.Enemy.StandIdle | Assets/Scripts/Enemies/EnemySnail.cs:57-59 | After a turn the enemy waits the idle duration standing still; speeds, flags and facing are kept. The same step appears in EnemyMushroom.cs:28 and EnemyTrunk.cs:45. |
| EnemyBase.Enemy.Walk | Assets/Scripts/Enemies/EnemySnail.cs:76 | The horizontal velocity becomes the speed along the facing; vy, facing, sensors and timers are kept. The same step appears in EnemyChicken.cs:66, EnemyMushroom.cs:40 and EnemyTrunk.cs:62. |
| EnemyKinds.BulletVelocity | Assets/Scripts/Enemies/EnemyPlant.cs:39-48 | (±bulletSpeed, 0), with the sign of the facing direction. |
| EnemyKinds.Gun.TryAttack | Assets/Scripts/Enemies/EnemyTrunk.cs:30-35 | Attacks exactly when the player is seen and now > last + cooldown, strictly. The attack log keeps its spacing. |
| EnemyKinds.Gun.Attack | Assets/Scripts/Enemies/EnemyPlant.cs:32-36 | Records now as the last attack time. |
| EnemyKinds.AttacksSpacedApart | Assets/Scripts/Enemies/EnemyPlant.cs:22-28 | With a non-negative cooldown, any two attacks are more than a cooldown apart. |
| EnemyKinds.ThreeHitsKill | Assets/Scripts/Enemies/EnemySnail.cs:28-48 | A snail in its shell is dead exactly from the third hit on. |
| EnemyKinds.Snail.Start | Assets/Scripts/Enemies/Enemy.cs:65-76 | The base start, run with the snail's own flip. |
| EnemyKinds.Snail.Die | Assets/Scripts/Enemies/EnemySnail.cs:28-48 | Advances one phase. The first hit loses the shell and stuns: stopped, idle duration 0, not dead. The second races at max speed. The third kills. The shell never returns. |
| EnemyKinds.Snail.Update | Assets/Scripts/Enemies/EnemySnail.cs:15-26 | A dead snail does only the base part. A live one walks along its facing once the idle timer has run out, if it may move; on the ground it turns at a wall, or at a ledge while shelled, stopping and idling. |
| EnemyKinds.Snail.HandleTurnAround | Assets/Scripts/Enemies/EnemySnail.cs:51-61 | Turns at a wall always, and at a ledge only with its shell. A turn flips, idles and stops the snail. |
| EnemyKinds.Snail.HandleMovement | Assets/Scripts/Enemies/EnemySnail.cs:64-77 | Walks exactly when not idling and allowed to move; otherwise velocity is kept. |
| EnemyKinds.Snail.Flip | Assets/Scripts/Enemies/EnemySnail.cs:94-102 | The base flip, plus the wall-hit trigger exactly when the shell is gone. |
| EnemyKinds.HitSnailThrice | Assets/Scripts/Enemies/EnemySnail.cs:28-48 | Three hits kill a shelled snail and two do not. |
| EnemyKinds.Rino.Start | Assets/Scripts/Enemies/EnemyRino.cs:18-29 | Stands still and remembers its walking speed. |
| EnemyKinds.Rino.Update | Assets/Scripts/Enemies/EnemyRino.cs:32-39 | Seeing the player (the HandleCollisions override at lines 119-129) starts the charge. A charge continues exactly while there is ground ahead and no wall, and the speed grows or is reset. While charging with no obstacle, vx is the speed along the facing and the facing is kept. At a ledge it flips and stops. At a wall it is thrown back by the impact power against its facing. Not charging keeps vy. Pending flips are kept. |
| EnemyKinds.Rino.HandleCharge | Assets/Scripts/Enemies/EnemyRino.cs:42-64 | Changes nothing unless charging. Otherwise it accelerates, then turns at a ledge (flip, velocity zero) or hits a wall (knocked back by the impact power against its facing), and runs along its facing otherwise. |
| EnemyKinds.Rino.HandleSpeedMovement | Assets/Scripts/Enemies/EnemyRino.cs:67-78 | Speed and maximum become ChargeStep of the old ones: speed += dt times rate, and the maximum is raised to the speed rather than the speed capped (see the EnemyRino.cs:67-78 finding). |
| EnemyKinds.ChargeNeverCapped | Assets/Scripts/Enemies/EnemyRino.cs:67-78 | As written, after n charge frames the speed has grown by n steps whatever the maximum, and the maximum has only risen. |
| EnemyKinds.ChargePassesMaximum | Assets/Scripts/Enemies/EnemyRino.cs:67-78 | As written, a rino at speed 2 with maximum 4 runs at 5 after three one-second frames at rate 1. |
| EnemyKinds.CappedChargeStep | Assets/Scripts/Enemies/EnemyRino.cs:66-74 | Corrected: a charge step never leaves a speed at or below the maximum above it, and never slows down. |
| EnemyKinds.CappedChargeStaysBelow | Assets/Scripts/Enemies/EnemyRino.cs:66-74 | Corrected: any number of capped charge frames keep the speed between its start and the maximum. |
| EnemyKinds.Rino.TurnAround | Assets/Scripts/Enemies/EnemyRino.cs:81-87 | Speed reset, stopped, velocity zero, and one flip. |
| EnemyKinds.Rino.WallHit | Assets/Scripts/Enemies/EnemyRino.cs:90-100 | Stopped, speed reset, hitWall set, and recoil against the facing direction. |
| EnemyKinds.Rino.SpeedReset | Assets/Scripts/Enemies/EnemyRino.cs:103-106 | The speed is the default speed. |
| EnemyKinds.Rino.ChargeIsOver | Assets/Scripts/Enemies/EnemyRino.cs:109-116 | Clears hitWall and schedules exactly one delayed flip. |
| EnemyKinds.Rino.CompleteDelayedFlip | Assets/Scripts/Enemies/EnemyRino.cs:109-116 | The delayed flip is made. |
| EnemyKinds.Trunk.Update | Assets/Scripts/Enemies/EnemyTrunk.cs:15-63 | A dead trunk only does the base part and never attacks. A live one may move exactly while it does not see the player and attacks by the cooldown. On the ground at a ledge or wall it flips, idles and stops. Otherwise the facing is kept, the idle timer runs down, and vx is the walk speed when it sees no player and the timer has run out, and the old vx otherwise. |
| EnemyKinds.Trunk.HandleTurnAround | Assets/Scripts/Enemies/EnemyTrunk.cs:40-48 | At a ledge or wall: one flip, an idle wait and zero velocity. |
| EnemyKinds.Trunk.HandleMovement | Assets/Scripts/Enemies/EnemyTrunk.cs:51-63 | Velocity is kept while it sees the player and may not move, or while the idle timer is positive; otherwise it walks. |
| EnemyKinds.Trunk.CreateBullet | Assets/Scripts/Enemies/EnemyTrunk.cs:73-88 | The bullet's velocity is BulletVelocity, and its sprite is flipped exactly when shot to the right. |
| EnemyKinds.Plant.Update | Assets/Scripts/Enemies/EnemyPlant.cs:17-29 | Attacks by the cooldown alone, never consulting isDead, and never moves. |
| EnemyKinds.Plant.CreateBullet | Assets/Scripts/Enemies/EnemyPlant.cs:39-48 | The bullet's velocity is BulletVelocity. |
| EnemyKinds.Chicken.Start | Assets/Scripts/Enemies/Enemy.cs:65-76 | The base start, run with the chicken's own flip. |
| EnemyKinds.Chicken.Update | Assets/Scripts/Enemies/EnemyChicken.cs:14-67 | The aggro timer runs down even when dead. A live chicken chases exactly when it was chasing or sees the player and the timer has not run out. A chase with no player reference throws and ends the frame. Otherwise it moves exactly when chasing with no turn. A chase requests one flip when the player is behind and no request is pending. On the ground at a ledge or wall it flips and stops; otherwise it keeps its facing and runs along it while chasing. |
| EnemyKinds.Chicken.Chase | Assets/Scripts/Enemies/EnemyChicken.cs:22-39 | The live part of a frame, on the sensors read: the same chase, throw, flip-request and turn rules as Update. |
| EnemyKinds.Chicken.UpdateAggro | Assets/Scripts/Enemies/EnemyChicken.cs:22-33 | Seeing the player refills the aggro timer. The chicken may move exactly when it could or sees the player, and the timer is not negative. |
| EnemyKinds.Chicken.HandleTurnAround | Assets/Scripts/Enemies/EnemyChicken.cs:43-51 | At a ledge or wall: one flip, stopped and velocity zero. |
| EnemyKinds.Chicken.HandleMovement | Assets/Scripts/Enemies/EnemyChicken.cs:54-67 | Only while allowed to move. It throws exactly when there is no player reference, and then changes nothing. Otherwise it requests a delayed turn towards the player (HandleFlip) and runs in its current facing direction. |
| EnemyKinds.Chicken.HandleFlip | Assets/Scripts/Enemies/EnemyChicken.cs:77-88 | Requests one flip exactly when the player is behind and no request is pending, then blocks further requests. |
| EnemyKinds.Chicken.Flip | Assets/Scripts/Enemies/EnemyChicken.cs:70-74 | The base flip, after which the next request is allowed. |
| EnemyKinds.Chicken.CompleteDelayedFlip | Assets/Scripts/Enemies/EnemyChicken.cs:77-88 | The requested flip is made. |
| EnemyKinds.FlipRequestedOnce | Assets/Scripts/Enemies/EnemyChicken.cs:77-88 | Two calls of HandleFlip add at most one pending flip. |
| EnemyKinds.Mushroom.Update | Assets/Scripts/Enemies/EnemyMushroom.cs:9-20 | A dead mushroom only does the base part. A live one walks once idling is over, and turns on the ground at a ledge or wall. |
| EnemyKinds.Mushroom.HandleTurnAround | Assets/Scripts/Enemies/EnemyMushroom.cs:23-31 | At a ledge or wall: one flip, an idle wait and zero velocity. |
| EnemyKinds.Mushroom.HandleMovement | Assets/Scripts/Enemies/EnemyMushroom.cs:34-41 | Walks exactly when the idle timer has run out. |
| SawTrap.Advance | Assets/Scripts/Traps/Trap_Saw.cs:102-116 | Stays on the path: index in range and direction ±1. The direction reverses exactly at either end, and the index steps by the new direction. |
| SawTrap.AdvanceTimes | Assets/Scripts/Traps/Trap_Saw.cs:102-116 | Any number of arrivals keeps the saw on its path. |
| SawTrap.ForwardRun | Assets/Scripts/Traps/Trap_Saw.cs:102-116 | Heading forwards, each arrival moves to the next waypoint. |
| SawTrap.ReachesFarEnd | Assets/Scripts/Traps/Trap_Saw.cs:102-116 | From the start, count - 2 arrivals reach the last waypoint, and the next arrival turns the saw back. |
| SawTrap.Saw.constructor | Assets/Scripts/Traps/Trap_Saw.cs:27-33 | Starts at waypoint 1 heading forwards and free to move. |
| SawTrap.Saw.Start | Assets/Scripts/Traps/Trap_Saw.cs:46-53 | Reads the waypoints and places the saw on the first, with the path invariant established. |
| SawTrap.Saw.UpdateWaypointsInfo | Assets/Scripts/Traps/Trap_Saw.cs:56-82 | The position array has the waypoints' length and copies them. The waypoint array is rebuilt only when the child count differs. |
| SawTrap.Saw.Update | Assets/Scripts/Traps/Trap_Saw.cs:86-117 | A stopped saw changes nothing. On arrival the index and direction follow Advance, and the saw stops exactly at either end. |
| SawTrap.Saw.EndStop | Assets/Scripts/Traps/Trap_Saw.cs:120-133 | Moving again, with flipX toggled exactly once. |
| FallingPlatformTrap.FallingPlatform.Start | Assets/Scripts/Traps/Trap_FallingPlatform.cs:56-62 | Sets up the two waypoints. |
| FallingPlatformTrap.FallingPlatform.ActivatePlatform | Assets/Scripts/Traps/Trap_FallingPlatform.cs:65-68 | The platform may move. |
| FallingPlatformTrap.FallingPlatform.SetupWaypoints | Assets/Scripts/Traps/Trap_FallingPlatform.cs:71-79 | Exactly two waypoints, travel/2 above and below the start. |
| FallingPlatformTrap.FallingPlatform.Update | Assets/Scripts/Traps/Trap_FallingPlatform.cs:82-86 | While the impact timer is not negative it runs down by dt and the platform dips. While the platform may move it floats, and on arrival the waypoint index toggles between 0 and 1. |
| FallingPlatformTrap.FallingPlatform.HandleMovement | Assets/Scripts/Traps/Trap_FallingPlatform.cs:89-110 | Nothing while it may not move. On arrival the index goes 0 → 1 → 0 and stays in {0, 1}. |
| FallingPlatformTrap.FallingPlatform.HandleImpact | Assets/Scripts/Traps/Trap_FallingPlatform.cs:113-124 | While the impact timer has not run out, it runs down and the platform dips. |
| FallingPlatformTrap.FallingPlatform.OnTriggerEnter2D | Assets/Scripts/Traps/Trap_FallingPlatform.cs:127-142 | Only the player's first touch starts the impact timer and schedules the fall. |
| FallingPlatformTrap.FallingPlatform.SwitchOffPlatform | Assets/Scripts/Traps/Trap_FallingPlatform.cs:145-160 | Stops floating, falls under gravity 3.5 with damping 0.5, and every collider is disabled. |
| FallingPlatformTrap.ImpactOnce | Assets/Scripts/Traps/Trap_FallingPlatform.cs:127-142 | Touches after the first leave the impact as the first touch set it. |
| FireTrap.Fire.Start | Assets/Scripts/Traps/Trap_Fire.cs:30-40 | The fire starts burning. |
| FireTrap.Fire.SwitchOffFire | Assets/Scripts/Traps/Trap_Fire.cs:43-53 | A burning fire goes out with a relight pending. A fire already out ignores the call. |
| FireTrap.Fire.Relight | Assets/Scripts/Traps/Trap_Fire.cs:56-61 | After the off period the fire burns again. |
| FireTrap.Fire.SetFire | Assets/Scripts/Traps/Trap_Fire.cs:64-69 | The state, the collider and the animation flag are set together. |
| FireTrap.SwitchOffTwice | Assets/Scripts/Traps/Trap_Fire.cs:43-53 | A second switch-off during the off period starts nothing new. |
| Checkpoints.Checkpoint.Start | Assets/Scripts/Checkpoint/Checkpoint.cs:19-22 | Reactivation is copied from the game manager. |
| Checkpoints.Checkpoint.OnTriggerEnter2D | Assets/Scripts/Checkpoint/Checkpoint.cs:25-42 | Activates exactly for the player, unless the checkpoint is already active and cannot be reactivated. Activation is never undone. The manager's timer, fruits, indices and player are kept. |
| Checkpoints.Checkpoint.ActivatedCheckpoint | Assets/Scripts/Checkpoint/Checkpoint.cs:45-55 | Active, and the checkpoint becomes the respawn point. The manager's timer, fruits, indices and player are kept. |
| Checkpoints.FirstActivationSticks | Assets/Scripts/Checkpoint/Checkpoint.cs:28-31 | With reactivation off, no later touch moves the respawn point. |

## Left out

- Audio, animator parameters, particle and camera effects, text rendering of floats (timer and best-time texts), and the screen fades: these are presentation only.
- Physics: raycasts, overlap circles, `MoveTowards`, forces and gravity. Their results are inputs or plain velocity fields.
- Coroutine and `Invoke` timing: the delays themselves (respawn delay, knockback, wall-jump and push durations, the saw's cooldown stop, the fire's off duration, the chicken's 0.3 s and the rino's 1 s delayed flips, the falling platform's fall delay) are not modelled. Only the order "scheduled, then completed" is.
- FallingPlatformTrap.FallingPlatform.Start: the random start delay before ActivatePlatform is left to the caller.
- EnemyBase.Enemy.Die: the death spin angle and `HandleDeathRotation` are visual; only the spin direction is kept.
- EnemySnail `CreateBody` (spawning the falling shell) and EnemyPlant `HandleAnimation` (an empty override) have no game state to model.
- Enemy `HandleAnimation`, `FlipDefaultFacingDirection` and `OnDrawGizmos` are animator and editor helpers.
- PlayerControl.Player.HandleEnemyDetection: the stomped enemies' `Die` is called by the caller, one per enemy, using the EnemyKinds methods.
- PlayerControl.Player.Push: the impulse is modelled as a velocity change of impulse over mass, not as a physics force.
- SawTrap.Saw.Start: requires at least two waypoints, because with fewer the source indexes past the end of its arrays.
- Game.GameManager.Start: `CreateManagersIfNeeded` only instantiates the audio manager, and the timer text is presentation.
- Game.GameManager.Start: runs the corrected player lookup of the GameManager.cs:90-93 finding (keep a player, look one up when there is none), not the as-written lookup-only-when-set, which `Game.PlayerRefAsWrittenStaysEmpty` states.
- Game.GameManager.Start: takes a start point that exists; a scene without a `StartPoint` makes the source's `FindFirstObjectByType<StartPoint>().transform` throw, which is not modelled.
- Game.GameManager.SaveBestTime: runs the corrected best-time rule of the GameManager.cs:256-263 finding (store when no time is stored yet, or when faster), not the as-written strict comparison against the default 0, which `Game.BestTimeNeverStored` states.
- Game.GameManager.SaveLevelProgress: saves the best time by the corrected rule, through SaveBestTime.
- Game.GameManager.LevelFinished: saves the best time by the corrected rule, through SaveLevelProgress.
- SkinShop.SkinSelection.constructor: requires the animator to have between 1 and `skinList.Length` layers. With 0 layers the source's NextSkin and PreviousSkin divide by zero, and with more layers than skins SelectedSkin and UpdateSkinDisplay index past the list; such misconfigured scenes are not modelled.
- EnemyKinds.Rino.HandleSpeedMovement: keeps the as-written rule of the EnemyRino.cs:67-78 finding (the maximum rises with the speed), because that is the charge the game performs; the capped rule is stated and proved on its own as `EnemyKinds.CappedChargeStep`.
- EnemyKinds.Rino.Update: the HandleCollisions override (EnemyRino.cs:119-129) is folded into Update, which is its only caller.
- Ui_SkinSelection `Start` and `UpdateSkinDisplay`: Start only calls LoadSkinsUnlock and refreshes the display, and the display is presentation.
- Ui_LevelSelection `DeleteAllPlayerPrefs`: a debugging helper whose only call is commented out.
- Singletons.Slot.Awake: the managers' `DontDestroyOnLoad` is engine lifetime and is not modelled.
- Nothing is destroyed for real: destruction and instantiation become flags (`destroyed`, `destroyScheduled`) or fresh objects. So EnemyBase.Enemy.UpdatePlayerRef keeps a destroyed player's reference for good, where Unity's destroyed object compares equal to null and the lookup would run again.
- LevelMenu.LevelSelection.CreateLevelButtons, LevelMenu.LevelSelection.BuildLevels and LevelMenu.ListLayout require `sceneCount >= 2`, because every build holds the main menu (scene 0) and TheEnd (the last scene). With fewer scenes the source's `new LevelModel[sceneCountInBuildSettings - 2]` (Ui_LevelSelection.cs:31) throws, which is not modelled.
- `Assets/Scripts/GameManager.cs`, an older duplicate of the level manager, is not part of this model.

## Findings

| source | as written | input that shows it | evidently intended | confidence | as-written member | corrected member |
|---|---|---|---|---|---|---|
| Assets/Scripts/Managers/GameManager.cs:256-263 | The stored best time (default 0) is replaced only by a strictly smaller timer. | A level with no stored best time, finished at any timer of 0 or more: nothing is ever stored. | The first finish stores its time, and later finishes only improve it. | medium, not executed | Game.BestTimeNeverStored | Game.BestTimeIsFastest |
| Assets/Scripts/Managers/GameManager.cs:90-93 | The player is looked up only when the field is already set. | A manager whose `player` field is empty at Start: it stays empty until the first respawn. | Look the player up when the field is empty. | medium, not executed | Game.PlayerRefAsWrittenStaysEmpty | Game.PlayerRef |
| Assets/Scripts/Enemies/EnemyRino.cs:67-78 | The speed grows every frame; when it reaches the maximum, the maximum is raised to the speed. | A rino at speed 2 with maximum 4, charging at rate 1 for three one-second frames, runs at 5. | The comment at line 72 says the speed is restricted to the maximum: cap the speed, not raise the maximum. | low, not executed | EnemyKinds.ChargePassesMaximum | EnemyKinds.CappedChargeStaysBelow |
