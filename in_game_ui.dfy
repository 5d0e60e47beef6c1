/** The in-level overlay: pause menu and fruit counter
    (Assets/Scripts/UI/Ui_InGame.cs). */
module InGameUi {
  import opened Common
  import opened Engine

  /** The counter text "<collected>/<total>". */
  function FruitCounterText(collected: int, total: int): string {
    IntToString(collected) + "/" + IntToString(total)
  }

  /** Where two slash-joined renderings agree, their first numbers have the
      same length: neither rendering holds a slash before its separator. */
  lemma SlashPosition(a: string, b: string, c: string, d: string)
    requires '/' !in a && '/' !in c
    requires a + "/" + b == c + "/" + d
    ensures |a| == |c|
  {
    var s := a + "/" + b;
    assert s[|a|] == '/';
    assert s[|c|] == (c + "/" + d)[|c|] == '/';
  }

  /** The counter text determines both numbers. */
  lemma FruitCounterTextInjective(collected: int, total: int, collected': int, total': int)
    ensures FruitCounterText(collected, total) == FruitCounterText(collected', total')
        <==> collected == collected' && total == total'
  {
    var a, b := IntToString(collected), IntToString(total);
    var c, d := IntToString(collected'), IntToString(total');
    if a + "/" + b == c + "/" + d {
      IntToStringAvoids(collected, '/');
      IntToStringAvoids(collected', '/');
      SlashPosition(a, b, c, d);
      var s := a + "/" + b;
      assert a == s[..|a|] && c == s[..|c|];
      assert b == s[|a| + 1..] && d == s[|c| + 1..];
      IntToStringInjective(collected, collected');
      IntToStringInjective(total, total');
    }
  }

  class InGame {
    var isPaused: bool
    var pauseMenuActive: bool
    var fruitText: string
    const time: TimeSettings

    constructor(time: TimeSettings)
      ensures !isPaused && !pauseMenuActive && this.time == time
    {
      isPaused := false;
      pauseMenuActive := false;
      fruitText := "";
      this.time := time;
    }

    /** Toggles pause: time stops exactly while paused, and the pause menu is
        shown exactly while paused. */
    method PauseBtn()
      modifies this, time
      ensures isPaused == !old(isPaused)
      ensures time.timeScale == if isPaused then 0.0 else 1.0
      ensures pauseMenuActive == isPaused
      ensures fruitText == old(fruitText)
    {
      if isPaused {
        isPaused := false;
        time.timeScale := 1.0;
        pauseMenuActive := false;
      } else {
        isPaused := true;
        time.timeScale := 0.0;
        pauseMenuActive := true;
      }
    }

    /** One frame: P or Escape toggles pause once, however many are pressed. */
    method Update(pPressed: bool, escapePressed: bool)
      modifies this, time
      ensures isPaused == (old(isPaused) != (pPressed || escapePressed))
      ensures pPressed || escapePressed ==> pauseMenuActive == isPaused && time.timeScale == if isPaused then 0.0 else 1.0
      ensures !(pPressed || escapePressed) ==> pauseMenuActive == old(pauseMenuActive) && time.timeScale == old(time.timeScale)
      ensures fruitText == old(fruitText)
    {
      if pPressed || escapePressed {
        PauseBtn();
      }
    }

    method UpdateFruitUI(collected: int, total: int)
      modifies this
      ensures fruitText == FruitCounterText(collected, total)
      ensures isPaused == old(isPaused) && pauseMenuActive == old(pauseMenuActive)
    {
      fruitText := FruitCounterText(collected, total);
    }

    /** Back to the main menu, scene 0 of the build. */
    method GoToMainMenuBtn(scenes: SceneLoader)
      modifies scenes
      ensures scenes.requests == old(scenes.requests) + [Indexed(0)]
    {
      scenes.Load(Indexed(0));
    }
  }

  /** Pressing pause twice gives back the state before the first press. */
  method PauseTwice(ui: InGame)
    modifies ui, ui.time
    ensures ui.isPaused == old(ui.isPaused) && ui.pauseMenuActive == ui.isPaused
    ensures ui.time.timeScale == if ui.isPaused then 0.0 else 1.0
  {
    ui.PauseBtn();
    ui.PauseBtn();
  }
}
