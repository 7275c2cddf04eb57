/**
 * Client code of the controller: sequences of clicks and events on a page, with
 * what the handlers' contracts let a caller conclude at each step.
 */
module Scenarios {
  import opened Wrappers
  import opened Decimal
  import opened Page

  /** Three increments from a freshly initialised page. */
  method CountUpScenario() returns (c: Controller)
    ensures fresh(c) && fresh(c.cards)
    ensures c.Valid() && c.count == 3 && c.log == []
  {
    c := new Controller(map[], 2, "", "");
    c.Init();
    assert c.counterMessage == "Start counting!";
    c.Increment();
    c.Increment();
    c.Increment();
    assert IntToString(3) == "3";
    assert c.countText == "3" && c.counterMessage == "You've counted up to 3!";
  }

  /** Then five decrements and a reset. */
  method CountDownAndResetScenario() {
    var c := CountUpScenario();
    c.Decrement();
    c.Decrement();
    c.Decrement();
    c.Decrement();
    c.Decrement();
    assert c.count == -2;
    assert IntToString(-2) == "-2";
    assert c.countText == "-2" && c.counterMessage == "You've counted down to -2!";
    c.ResetAnimations();
    assert c.count == 0 && c.countText == "0" && c.counterMessage == "Start counting!";
    assert c.log == [Notice("All animations have been reset!", "success")];
  }

  /** Toggling to dark, reloading, toggling back to light and reloading again. */
  method ThemeScenario(stored: map<string, string>) {
    var first := new Controller(stored, 0, "", "");
    first.Init();
    if first.darkMode {
      first.ToggleDarkMode();
    }
    first.ToggleDarkMode();
    assert first.darkMode && first.toggleLabel == "Toggle Light Mode";
    assert first.storage["theme"] == "dark";

    var second := new Controller(first.storage, 0, "", "");
    second.Init();
    assert second.darkMode && second.toggleLabel == "Toggle Light Mode";
    second.ToggleDarkMode();
    assert !second.darkMode && second.storage["theme"] == "light";

    var third := new Controller(second.storage, 0, "", "");
    third.Init();
    assert !third.darkMode && third.toggleLabel == "Toggle Dark Mode";
  }

  /** "spin" then "shake", then the completion signal. */
  method SpinShakeScenario() {
    var c := new Controller(map[], 0, "", "");
    c.Init();
    var ok := c.ApplyAnimation("spin");
    ok := c.ApplyAnimation("shake");
    assert IsToken("spin") && IsToken("shake");
    assert c.boxClasses == {"box", "shake"};
    c.AnimationEnd();
    assert c.boxClasses == {"box"} && c.activeAnimation == None;
  }

  /** "shake" replaced by "spin" before it completes: its handler still clears the record. */
  method StaleHandlerScenario() {
    var c := new Controller(map[], 0, "", "");
    c.Init();
    var ok := c.ApplyAnimation("shake");
    ok := c.ApplyAnimation("spin");
    assert IsToken("spin") && IsToken("shake");
    c.AnimationEnd();
    assert "spin" in c.boxClasses && c.activeAnimation == None;
  }

  /** A reset between two animations leaves the old record, which the next one uses. */
  method ResetBetweenAnimationsScenario() {
    var c := new Controller(map[], 1, "", "");
    c.Init();
    var ok := c.ApplyAnimation("spin");
    assert IsToken("spin") && IsToken("bounce");
    c.ResetAnimations();
    assert c.boxClasses == {"box"} && c.activeAnimation == Some("spin");
    ok := c.ApplyAnimation("bounce");
    assert c.boxClasses == {"box", "bounce"} && c.activeAnimation == Some("bounce");
  }

  /** Flipping the same card twice restores every card. */
  method FlipTwice(c: Controller, i: nat)
    requires i < c.cards.Length
    modifies c.cards
    ensures c.cards[..] == old(c.cards[..])
  {
    c.FlipCard(i);
    c.FlipCard(i);
  }
}
