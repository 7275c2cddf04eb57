# The demo page's controller, modelled in Dafny

`script.js` drives a one-page demo: a dark-mode toggle whose choice is kept in
`localStorage`, flippable cards, a box that plays CSS animations, a click
counter and small notification banners. Beneath the DOM calls it is a small
single-writer state machine. This project turns that machine into a Dafny
class, `Page.Controller`, and proves its rules.

- **Counter.** The module-level `count` and the texts of `count-value` and
  `counter-message`, refreshed by `updateCounter`. `Decimal` models
  JavaScript's decimal text for an integer and proves it a bijection onto
  canonical decimal strings. `Page.CounterMessage` picks the message by the
  sign of the count.
- **Animation box.** The box's class set, `activeAnimation`, and the number
  of one-shot `animationend` handlers that "shake" registered and that have
  not run yet. `Page.Applied`, `Page.AnimationEnded` and `Page.BoxReset` give
  the value-level behaviour. The controller's methods are proved to match
  them. Two quirks are kept on purpose. The reset keeps a stale
  `activeAnimation`. A pending shake handler also clears the record of an
  animation that has since replaced "shake".
- **Theme.** Body `dark-mode` membership, the toggle's text, and
  `localStorage` as a map. The label always names the *other* mode.
- **Cards.** An array of `flipped` flags.
- **Notifications.** An append-only log of `(message, type)` pairs.

`Scenarios` replays click sequences against the class contracts: counting to 3
and down to -2 and then resetting; toggling, reloading and toggling back;
"spin" then "shake" and its completion; the stale handler; a reset between two
animations.

`resetAnimations` carries the comment "Remove all animation classes from the
box" (script.js:35). It only rewrites the box's `className` (script.js:36) and
never touches `activeAnimation`, so the record of the last animation outlives
the reset. `Page.ResetKeepsRecord` and
`Scenarios.ResetBetweenAnimationsScenario` show this.

## Model

| member | source | states |
|---|---|---|
| `Decimal.NatToString` | script.js:80 | the text of a non-negative count is a non-empty digit string without leading zeros, one digit exactly below 10 |
| `Decimal.IntToString` | script.js:80 | the text of any count is canonical decimal, and it starts with "-" exactly when the count is negative |
| `Decimal.ParseIntToString` | script.js:80 | reading the shown text back gives the count |
| `Decimal.IntToStringParse` | script.js:80 | every canonical decimal text is the shown text of the number it denotes, so text and count are in bijection |
| `Decimal.IntToStringInjective` | script.js:80 | different counts show different `count-value` texts |
| `Page.CounterMessage` | script.js:83-89 | the message is "Start counting!" exactly when the count is 0, and every message ends with "!" |
| `Page.MessageBySign` | script.js:83-89 | the message is "Start counting!" iff the count is 0, starts "You've counted up to " iff it is positive, and starts "You've counted down to " iff it is negative |
| `Page.MessageShowsCount` | script.js:86-88 | for a non-zero count, the text between the prefix and the final "!" parses to the count, sign included |
| `Page.MessageDeterminesCount` | script.js:83-89 | equal messages mean equal counts |
| `Page.ToggleStoresDark` | script.js:22-29 | the value a toggle stores under "theme" reads back as `'dark'` (the test of script.js:151) exactly when that toggle turned the page dark |
| `Page.Toggled` | script.js:18-31 | a toggle flips dark mode, sets the label to the opposite action, stores "dark"/"light" under "theme" to match, and keeps every other key |
| `Page.Loaded` | script.js:149-155 | a stored "dark" sets dark mode and the "Toggle Light Mode" label; any other value or an absent key changes nothing; storage is never written |
| `Page.ThemeRoundTrip` | script.js:149-155 | loading the storage a toggle wrote (script.js:25, 29) into a fresh light page reproduces that toggle's dark flag, label and storage |
| `Page.ToggleTwice` | script.js:18-31 | two toggles restore a state whose label and stored value agree with it |
| `Page.IsToken` | script.js:66 | a name `classList.add` accepts is non-empty and contains no space |
| `Page.Truthy` | script.js:61 | a null or empty record is falsy; a recorded class name is truthy |
| `Page.Applied` | script.js:57-76 | after `applyAnimation(t)` the box holds `t` and records it; a previous class other than `t` is gone; no other class changes; only "shake" adds a pending handler; an invalid class name throws after the old class is removed |
| `Page.AnimationEnded` | script.js:70-75 | after `animationend` no handler is pending; if one was pending, "shake" is off the box, the record is cleared and every other class is kept; with none pending the box is unchanged |
| `Page.BoxReset` | script.js:36 | the reset sets the class set to exactly {"box"} and keeps the record and the pending handlers |
| `Page.ShakeSelfClears` | script.js:66-75 | "shake" is on the box at once, and after `animationend` it is gone with no animation recorded |
| `Page.OthersPersist` | script.js:70 | when no shake handler is pending, an animation other than "shake" is untouched by `animationend` |
| `Page.ReplaceAnimation` | script.js:61-67 | applying A and then a different B leaves B on the box, A off it, and B recorded |
| `Page.SpinThenShake` | script.js:57-75 | from the fresh box, "spin" then "shake" gives {"box", "shake"}, and "animationend" then gives {"box"} with nothing recorded |
| `Page.StaleShakeHandler` | script.js:71-74 | for every box and every class name other than "shake": "shake", then that name, then `animationend` leaves the name on the box while nothing is recorded |
| `Page.ResetKeepsRecord` | script.js:34-49 | after "spin" and a reset the box is {"box"} but "spin" is still recorded |
| `Page.Controller.constructor` | script.js:13-15 | the page starts with `count` 0, no active animation, no pending handler, a light body, the stored preferences and an empty log |
| `Page.Controller.Init` | script.js:158-197 | `init` applies the stored preference and shows the counter, which establishes the invariant `Valid` (for the light markup stated under "## Left out") |
| `Page.Controller.LoadThemePreference` | script.js:149-155 | the theme becomes `Loaded` of the old theme |
| `Page.Controller.ToggleDarkMode` | script.js:18-31 | the theme becomes `Toggled` of the old theme; only theme fields change |
| `Page.Controller.UpdateCounter` | script.js:79-89 | `count-value` shows `count` and `counter-message` is the sign-chosen message |
| `Page.Controller.Increment` | script.js:185-188 | `count` rises by exactly 1, with no bound, and both texts show the new count |
| `Page.Controller.Decrement` | script.js:180-183 | `count` falls by exactly 1, with no bound, and both texts show the new count |
| `Page.Controller.ShowMessage` | script.js:99-102 | exactly one `(message, type)` entry is appended; the type defaults to "info" |
| `Page.Controller.HandleActionButtonClick` | script.js:144-146 | one ("Button clicked! Action performed.", "success") entry is appended |
| `Page.Controller.FlipCard` | script.js:52-54 | card `i` is toggled and every other card is unchanged |
| `Page.Controller.ResetAnimations` | script.js:34-49 | the box becomes {"box"}; every card is unflipped; `count` is 0 and the message "Start counting!"; one success entry "All animations have been reset!" is appended; `activeAnimation` is unchanged |
| `Page.Controller.ApplyAnimation` | script.js:57-76 | the box becomes `Applied` of the old box; the result is false exactly when the name makes `classList.add` throw |
| `Page.Controller.ShakeHandler` | script.js:71-74 | the handler removes "shake" and clears `activeAnimation` |
| `Page.Controller.AnimationEnd` | script.js:71-74 | the event runs every pending handler once, unregisters them all, and the box becomes `AnimationEnded` of the old box |
| `Scenarios.FlipTwice` | script.js:52-54 | flipping the same card twice restores every card |

## Left out

- DOM lookup and listener wiring (script.js:2-11, 158-200). Handlers are methods called directly. `Increment`, `Decrement`, `ToggleDarkMode`, `ResetAnimations`, `ApplyAnimation` and `AnimationEnd` require the invariant `Valid` so that they can promise to keep it; only `init` wires them, and `init` establishes it. `FlipCard`, `ShowMessage` and `HandleActionButtonClick` touch no part of `Valid` and require nothing. `LoadThemePreference` requires nothing either; it changes only the body flag and the label, and from a `Valid` state `Loaded` leaves both as they are, so `Valid` is kept.
- The box is looked up by its class "box" on every call (script.js:36, 58). The model keeps one fixed box. Applying an animation named "box" makes "box" the record. The next `applyAnimation` then removes the class "box" (script.js:62), and the lookup after that finds no box and fails. The model does not capture that failure.
- `Decimal.IntToString`: JavaScript numbers are doubles. The model does not capture the lost precision above 2^53 or exponent notation from 10^21 up; `count` is unbounded.
- Page.Controller.Init: the page's HTML is not part of this model. The constructor takes the markup to hold a light body, the toggle text "Toggle Dark Mode" (the text script.js:27 writes for light mode), a box whose only class is "box", and unflipped cards; the counter's texts before `init` are parameters. `Init` requires that light body and label, so its promises hold only for markup of that form.
- The 300 ms `pulse` class on `count-value` (script.js:92-95) is timer-driven presentation.
- `showMessage`'s element creation, inline styles, gradients and its 10/3000/300 ms show-and-dismiss timers (script.js:100-140) are left out. Only the call's text and type are logged.
- The timing of `animationend` is left out. It is a caller-invoked event (`AnimationEnd`), and the model does not check that an animation is running when it fires.
- `localStorage` quota errors and the browser's storage semantics are left out. Storage is an in-memory map.
- Class lists are sets. Token validation is modelled only for `classList.add` (empty or whitespace-containing names throw). Class order is not modelled.
