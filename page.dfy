/**
 * The state machine behind the demo page's event handlers.  The DOM is reduced
 * to plain state: text contents become strings, a class list becomes a set,
 * `localStorage` becomes a map, the cards' `flipped` classes become an array of
 * booleans and every notification banner becomes one entry of a log.
 *
 * The first half gives, per concern, a value-level specification (the counter
 * message, the theme, the animation box) with the properties the page relies
 * on; the second half is the `Controller` class whose handlers change the state
 * in place and are proved against those specifications.
 */
module Page {
  import opened Wrappers
  import opened Decimal

  // ---------------------------------------------------------------------------
  // Counter

  const StartMessage := "Start counting!"
  const UpPrefix := "You've counted up to "
  const DownPrefix := "You've counted down to "

  /** The text of `counter-message` for a given count: chosen by the sign of the count. */
  function CounterMessage(count: int): (r: string)
    ensures r == StartMessage <==> count == 0
    ensures |r| > 0 && r[|r| - 1] == '!'
  {
    if count == 0 then StartMessage
    else if count > 0 then UpPrefix + IntToString(count) + "!"
    else DownPrefix + IntToString(count) + "!"
  }

  /** The message tells zero, positive and negative counts apart, each in both directions. */
  lemma MessageBySign(n: int)
    ensures CounterMessage(n) == StartMessage <==> n == 0
    ensures UpPrefix <= CounterMessage(n) <==> n > 0
    ensures DownPrefix <= CounterMessage(n) <==> n < 0
  {
    var m := CounterMessage(n);
    if n == 0 {
      assert m[0] != UpPrefix[0] && m[0] != DownPrefix[0];
    } else if n > 0 {
      assert m[15] == UpPrefix[15] != DownPrefix[15];
      assert m != StartMessage by { assert m[0] != StartMessage[0]; }
    } else {
      assert m[15] == DownPrefix[15] != UpPrefix[15];
      assert m != StartMessage by { assert m[0] != StartMessage[0]; }
    }
  }

  /** A non-zero count can be read back from the message: it is the text between the prefix and the final "!". */
  lemma MessageShowsCount(n: int)
    requires n != 0
    ensures var m := CounterMessage(n);
            var p := if n > 0 then UpPrefix else DownPrefix;
            |p| < |m| && m[|m| - 1] == '!' && Parse(m[|p|..|m| - 1]) == Some(n)
  {
    var m := CounterMessage(n);
    var p := if n > 0 then UpPrefix else DownPrefix;
    assert m == p + IntToString(n) + "!";
    assert m[|p|..|m| - 1] == IntToString(n);
    ParseIntToString(n);
  }

  /** Different counts never show the same message. */
  lemma MessageDeterminesCount(a: int, b: int)
    requires CounterMessage(a) == CounterMessage(b)
    ensures a == b
  {
    MessageBySign(a);
    MessageBySign(b);
    if a != 0 {
      MessageShowsCount(a);
      MessageShowsCount(b);
    }
  }

  // ---------------------------------------------------------------------------
  // Theme

  const ThemeKey := "theme"
  /** The label shown while the page is dark: it names the action a click performs. */
  const DarkLabel := "Toggle Light Mode"
  /** The label shown while the page is light, and the label of the page as loaded. */
  const LightLabel := "Toggle Dark Mode"

  function LabelFor(dark: bool): string {
    if dark then DarkLabel else LightLabel
  }

  function ThemeValue(dark: bool): string {
    if dark then "dark" else "light"
  }

  /** `localStorage.getItem('theme') === 'dark'`; an absent key reads as `null`. */
  predicate StoresDark(storage: map<string, string>) {
    ThemeKey in storage && storage[ThemeKey] == "dark"
  }

  /** Body `dark-mode` membership, the toggle's label and the storage. */
  datatype Theme = Theme(dark: bool, text: string, storage: map<string, string>)

  /** The label names the opposite mode and the stored value names the current one. */
  predicate Agrees(t: Theme) {
    t.text == LabelFor(t.dark) && ThemeKey in t.storage && t.storage[ThemeKey] == ThemeValue(t.dark)
  }

  /** The effect of a click on the theme toggle. */
  function Toggled(t: Theme): (u: Theme)
    ensures u.dark == !t.dark
    ensures Agrees(u)
    ensures u.storage - {ThemeKey} == t.storage - {ThemeKey}
  {
    var dark := !t.dark;
    if dark then Theme(dark, DarkLabel, t.storage[ThemeKey := "dark"])
    else Theme(dark, LightLabel, t.storage[ThemeKey := "light"])
  }

  /** The effect of reading the stored preference at start-up. */
  function Loaded(t: Theme): (u: Theme)
    ensures u.storage == t.storage
    ensures StoresDark(t.storage) ==> u.dark && u.text == DarkLabel
    ensures !StoresDark(t.storage) ==> u == t
  {
    if StoresDark(t.storage) then t.(dark := true, text := DarkLabel) else t
  }

  /**
   * Reloading the page after a toggle restores what the toggle showed: loading
   * the stored value into a fresh light page gives the toggle's dark flag and label.
   */
  lemma ThemeRoundTrip(t: Theme)
    ensures var u := Toggled(t);
            Loaded(Theme(false, LightLabel, u.storage)) == u
  {
  }

  /** What a toggle stores reads back as dark exactly when the toggle turned the page dark. */
  lemma ToggleStoresDark(t: Theme)
    ensures StoresDark(Toggled(t).storage) == !t.dark
  {
  }

  /** Two toggles undo each other whenever the state already agrees with its storage. */
  lemma ToggleTwice(t: Theme)
    requires Agrees(t)
    ensures Toggled(Toggled(t)) == t
  {
  }

  // ---------------------------------------------------------------------------
  // Animation box

  /** An ASCII whitespace character as the DOM's token lists define it. */
  predicate IsAsciiWhitespace(c: char) {
    c == ' ' || c == '\t' || c == '\n' || c == '\r' || c == '\U{000C}'
  }

  /** A string `classList.add` accepts; any other makes it throw. */
  predicate IsToken(t: string): (r: bool)
    ensures r ==> t != "" && ' ' !in t
  {
    t != "" && forall i :: 0 <= i < |t| ==> !IsAsciiWhitespace(t[i])
  }

  /** JavaScript truthiness of `activeAnimation`: `null` and `""` are falsy. */
  predicate Truthy(a: Option<string>): (r: bool)
    ensures a == None || a == Some("") ==> !r
    ensures a.Some? && IsToken(a.value) ==> r
  {
    a.Some? && a.value != ""
  }

  /**
   * The animation box: its class set, the recorded active animation and the
   * number of one-shot `animationend` handlers registered by "shake" and not yet run.
   */
  datatype Box = Box(classes: set<string>, active: Option<string>, pendingShake: nat)

  /** The recorded animation is always a class name that was added successfully. */
  predicate WellFormed(b: Box) {
    b.active.Some? ==> IsToken(b.active.value)
  }

  /**
   * The effect of `applyAnimation(t)`.  The previous active class is removed
   * first; when `t` is not a valid token `classList.add` throws, so nothing after
   * that removal happens.
   */
  function Applied(b: Box, t: string): (r: Box)
    ensures IsToken(t) ==> t in r.classes && r.active == Some(t)
    ensures Truthy(b.active) && b.active.value != t ==> b.active.value !in r.classes
    ensures forall c :: c != t && !(Truthy(b.active) && c == b.active.value) ==>
                          (c in r.classes <==> c in b.classes)
    ensures !IsToken(t) ==> r.classes <= b.classes
    ensures !IsToken(t) ==> r.active == b.active && r.pendingShake == b.pendingShake
    ensures IsToken(t) ==> r.pendingShake == b.pendingShake + (if t == "shake" then 1 else 0)
    ensures WellFormed(b) ==> WellFormed(r)
  {
    var kept := if Truthy(b.active) then b.classes - {b.active.value} else b.classes;
    if !IsToken(t) then b.(classes := kept)
    else Box(kept + {t}, Some(t), if t == "shake" then b.pendingShake + 1 else b.pendingShake)
  }

  /** The effect of one `animationend` event: every pending shake handler runs once and is gone. */
  function AnimationEnded(b: Box): (r: Box)
    ensures r.pendingShake == 0
    ensures b.pendingShake > 0 ==> "shake" !in r.classes && r.active == None &&
                                   forall c :: c != "shake" ==> (c in r.classes <==> c in b.classes)
    ensures b.pendingShake == 0 ==> r == b
    ensures WellFormed(b) ==> WellFormed(r)
  {
    if b.pendingShake == 0 then b else Box(b.classes - {"shake"}, None, 0)
  }

  /** The box part of the reset: `className = 'box'`, and nothing else. */
  function BoxReset(b: Box): (r: Box)
    ensures r.classes == {"box"}
    ensures r.active == b.active && r.pendingShake == b.pendingShake
  {
    b.(classes := {"box"})
  }

  /** "shake" shows at once and clears itself, class and record, at the next `animationend`. */
  lemma ShakeSelfClears(b: Box)
    ensures "shake" in Applied(b, "shake").classes
    ensures var r := AnimationEnded(Applied(b, "shake"));
            "shake" !in r.classes && r.active == None && r.pendingShake == 0
  {
  }

  /** An animation other than "shake" registers nothing, so `animationend` leaves it in place. */
  lemma OthersPersist(b: Box, t: string)
    requires IsToken(t) && t != "shake" && b.pendingShake == 0
    ensures AnimationEnded(Applied(b, t)) == Applied(b, t)
  {
  }

  /** Applying A and then B leaves B on the box, A off it, and B recorded. */
  lemma ReplaceAnimation(b: Box, a: string, c: string)
    requires IsToken(a) && IsToken(c) && a != c
    ensures var r := Applied(Applied(b, a), c);
            c in r.classes && a !in r.classes && r.active == Some(c)
  {
  }

  /** The box as the page loads it. */
  const FreshBox := Box({"box"}, None, 0)

  /** "spin" then "shake", then the completion signal: only "box" is left and nothing is recorded. */
  lemma SpinThenShake()
    ensures Applied(Applied(FreshBox, "spin"), "shake").classes == {"box", "shake"}
    ensures var r := AnimationEnded(Applied(Applied(FreshBox, "spin"), "shake"));
            r.classes == {"box"} && r.active == None
  {
  }

  /**
   * A shake handler still pending when another animation `t` replaces "shake"
   * fires anyway: `t` stays on the box while the record says nothing is active.
   */
  lemma StaleShakeHandler(b: Box, t: string)
    requires IsToken(t) && t != "shake"
    ensures var r := AnimationEnded(Applied(Applied(b, "shake"), t));
            t in r.classes && "shake" !in r.classes && r.active == None
  {
  }

  /** The reset strips the box's classes but keeps the stale record of the active animation. */
  lemma ResetKeepsRecord()
    ensures var r := BoxReset(Applied(FreshBox, "spin"));
            r.classes == {"box"} && r.active == Some("spin")
  {
  }

  // ---------------------------------------------------------------------------
  // Notifications

  const ResetMessage := "All animations have been reset!"
  const ActionMessage := "Button clicked! Action performed."

  /** One call of `showMessage`: its text and its type. */
  datatype Notice = Notice(message: string, kind: string)

  // ---------------------------------------------------------------------------
  // The controller

  class Controller {
    // Counter: the module-level `count` and the texts of `count-value` and `counter-message`.
    var count: int
    var countText: string
    var counterMessage: string
    // Animation box: its class set, `activeAnimation` and the pending one-shot handlers.
    var boxClasses: set<string>
    var activeAnimation: Option<string>
    var pendingShake: nat
    // Theme: body `dark-mode` membership, the toggle's text and `localStorage`.
    var darkMode: bool
    var toggleLabel: string
    var storage: map<string, string>
    // Cards: whether each card has the `flipped` class.
    const cards: array<bool>
    // Notifications shown so far, oldest first.
    var log: seq<Notice>

    function BoxOf(): Box
      reads this
    {
      Box(boxClasses, activeAnimation, pendingShake)
    }

    function ThemeOf(): Theme
      reads this
    {
      Theme(darkMode, toggleLabel, storage)
    }

    /**
     * What holds once `init` has run: the counter texts show `count`, the label
     * and the stored value agree with the body, and the active record is a token.
     */
    ghost predicate Valid()
      reads this
    {
      countText == IntToString(count) && counterMessage == CounterMessage(count) &&
      toggleLabel == LabelFor(darkMode) && darkMode == StoresDark(storage) &&
      WellFormed(BoxOf())
    }

    /**
     * The page as loaded, before `init`: the module-level variables at their
     * initial values, a light body with the light label, a bare box, unflipped
     * cards, the stored preferences and the counter texts of the markup.
     */
    constructor (stored: map<string, string>, cardCount: nat, countMarkup: string, messageMarkup: string)
      ensures count == 0 && countText == countMarkup && counterMessage == messageMarkup
      ensures BoxOf() == FreshBox
      ensures ThemeOf() == Theme(false, LightLabel, stored)
      ensures fresh(cards) && cards.Length == cardCount
      ensures forall k :: 0 <= k < cards.Length ==> !cards[k]
      ensures log == []
    {
      count := 0;
      countText := countMarkup;
      counterMessage := messageMarkup;
      boxClasses := {"box"};
      activeAnimation := None;
      pendingShake := 0;
      darkMode := false;
      toggleLabel := LightLabel;
      storage := stored;
      cards := new bool[cardCount](_ => false);
      log := [];
    }

    /** `init`: load the theme preference, then refresh the counter once. */
    method Init()
      requires !darkMode && toggleLabel == LightLabel && WellFormed(BoxOf())
      modifies this`darkMode, this`toggleLabel, this`countText, this`counterMessage
      ensures ThemeOf() == Loaded(old(ThemeOf()))
      ensures Valid()
    {
      LoadThemePreference();
      UpdateCounter();
    }

    /** `loadThemePreference`: acts only when the stored value is exactly "dark". */
    method LoadThemePreference()
      modifies this`darkMode, this`toggleLabel
      ensures ThemeOf() == Loaded(old(ThemeOf()))
    {
      if ThemeKey in storage && storage[ThemeKey] == "dark" {
        darkMode := true;
        toggleLabel := DarkLabel;
      }
    }

    /** `toggleDarkMode`: flip the body, then label and store according to the new state. */
    method ToggleDarkMode()
      requires Valid()
      modifies this`darkMode, this`toggleLabel, this`storage
      ensures ThemeOf() == Toggled(old(ThemeOf()))
      ensures Valid()
    {
      darkMode := !darkMode;
      if darkMode {
        toggleLabel := DarkLabel;
        storage := storage[ThemeKey := "dark"];
      } else {
        toggleLabel := LightLabel;
        storage := storage[ThemeKey := "light"];
      }
    }

    /** The text part of `updateCounter`. */
    method UpdateCounter()
      modifies this`countText, this`counterMessage
      ensures countText == IntToString(count)
      ensures counterMessage == CounterMessage(count)
    {
      countText := IntToString(count);
      if count == 0 {
        counterMessage := StartMessage;
      } else if count > 0 {
        counterMessage := UpPrefix + IntToString(count) + "!";
      } else {
        counterMessage := DownPrefix + IntToString(count) + "!";
      }
    }

    /** The increment button's handler. */
    method Increment()
      requires Valid()
      modifies this`count, this`countText, this`counterMessage
      ensures count == old(count) + 1
      ensures Valid()
    {
      count := count + 1;
      UpdateCounter();
    }

    /** The decrement button's handler. */
    method Decrement()
      requires Valid()
      modifies this`count, this`countText, this`counterMessage
      ensures count == old(count) - 1
      ensures Valid()
    {
      count := count - 1;
      UpdateCounter();
    }

    /** `showMessage`, reduced to recording the banner; the type defaults to "info". */
    method ShowMessage(message: string, kind: string := "info")
      modifies this`log
      ensures log == old(log) + [Notice(message, kind)]
    {
      log := log + [Notice(message, kind)];
    }

    /** The handler shared by every action button. */
    method HandleActionButtonClick()
      modifies this`log
      ensures log == old(log) + [Notice(ActionMessage, "success")]
    {
      ShowMessage(ActionMessage, "success");
    }

    /** `flipCard`: toggle the `flipped` class of card `i` only. */
    method FlipCard(i: nat)
      requires i < cards.Length
      modifies cards
      ensures cards[..] == old(cards[..])[i := !old(cards[i])]
    {
      cards[i] := !cards[i];
    }

    /** `resetAnimations`: bare box, unflipped cards, count 0 and one success banner. */
    method ResetAnimations()
      requires Valid()
      modifies this`boxClasses, this`count, this`countText, this`counterMessage, this`log, cards
      ensures BoxOf() == BoxReset(old(BoxOf()))
      ensures forall k :: 0 <= k < cards.Length ==> !cards[k]
      ensures count == 0 && counterMessage == StartMessage
      ensures log == old(log) + [Notice(ResetMessage, "success")]
      ensures Valid()
    {
      boxClasses := {"box"};
      for i := 0 to cards.Length
        modifies cards
        invariant forall k :: 0 <= k < i ==> !cards[k]
      {
        cards[i] := false;
      }
      count := 0;
      UpdateCounter();
      ShowMessage(ResetMessage, "success");
    }

    /**
     * `applyAnimation(t)`.  `ok` is false when `classList.add` throws on an
     * invalid class name, after the previous class has already been removed.
     */
    method ApplyAnimation(t: string) returns (ok: bool)
      requires Valid()
      modifies this`boxClasses, this`activeAnimation, this`pendingShake
      ensures ok == IsToken(t)
      ensures BoxOf() == Applied(old(BoxOf()), t)
      ensures Valid()
    {
      if Truthy(activeAnimation) {
        boxClasses := boxClasses - {activeAnimation.value};
      }
      if !IsToken(t) {
        return false;
      }
      boxClasses := boxClasses + {t};
      activeAnimation := Some(t);
      if t == "shake" {
        pendingShake := pendingShake + 1;
      }
      ok := true;
    }

    /** The one-shot handler "shake" registers. */
    method ShakeHandler()
      modifies this`boxClasses, this`activeAnimation
      ensures boxClasses == old(boxClasses) - {"shake"}
      ensures activeAnimation == None
    {
      boxClasses := boxClasses - {"shake"};
      activeAnimation := None;
    }

    /**
     * The box's `animationend` event, fired by the environment: the pending
     * handlers are unregistered (`once`) and each runs in turn.
     */
    method AnimationEnd()
      requires Valid()
      modifies this`boxClasses, this`activeAnimation, this`pendingShake
      ensures BoxOf() == AnimationEnded(old(BoxOf()))
      ensures Valid()
    {
      var handlers := pendingShake;
      pendingShake := 0;
      var i := 0;
      while i < handlers
        modifies this`boxClasses, this`activeAnimation
        invariant 0 <= i <= handlers
        invariant i == 0 ==> boxClasses == old(boxClasses) && activeAnimation == old(activeAnimation)
        invariant i > 0 ==> boxClasses == old(boxClasses) - {"shake"} && activeAnimation == None
      {
        ShakeHandler();
        i := i + 1;
      }
    }
  }
}
