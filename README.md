# Scroll navigation of the "Cosmic CV" portfolio, in Dafny

The portfolio presents a solar system. Scrolling through the page pins the camera on one planet after another, and a card overlay (the "holocard") reveals up to three panels about that planet. This project models the parts of that code that are not rendering:

- **`Navigation`** (`navigation.dfy`) is the scroll state machine. It holds a fixed table of 9 planets × 4 cards = 36 stops. A cursor `currentIndex` is -1 for the "God View" start and otherwise points at a stop. The machine has `next`, `prev`, clamped `goTo`, `goToPlanetCard`, the lookups `getIndexFor` and `getStateAt`, `reset`, and one change-callback slot. The class keeps the table and the cursor range as its invariant `Valid()`. Every callback invocation is recorded in `deliveries`, so each method's contract says exactly when it notifies and with what.
- **`Animator`** (`animator.dfy`) is the discrete part of the scroll animator. It has the pinned-section order, the `currentPlanet`/`currentTarget` bookkeeping of the section handlers, and `updateCardReveal`. That method maps scroll progress to a panel count in 0..3. Two loops then step the presenter's visible-panel count to that number, one panel at a time.
- **`DeepLink`** (`deep_link.dfy`) is the URL state of the entry point. It covers the planet whitelist, the card clamp on load, and the three-way decision of `updateUrlState` (clear, leave alone or write). It also proves that a written URL restores to the same stop of the state machine.
- **`TimeUtils`** (`time_utils.dfy`) is `secondsToHMS`: the split into hours, minutes and seconds, and the text printed for them.
- **`Decimal`** (`decimal.dfy`) holds the integer-to-text and `parseInt` behaviour the last two modules need. **`Wrappers`** (`wrappers.dfy`) holds `Option`, which stands for JavaScript's `null` and `NaN`.

Facts about the code that the model keeps:

- The machine starts at -1 and `reset` returns to -1 (src/core/ScrollStateMachine.js:31, 141-146). Several of the machine's own unit tests (`src/core/ScrollStateMachine.test.js:23-30, 47-71, 88-92, 152-171, 174-180`) assume a start at index 0. They contradict the implementation and are not modelled.
- `next()` from the God View moves to stop 0 (src/core/ScrollStateMachine.js:65-72).
- The URL parameters are `planet` and `card`, and the card is clamped into 0..3 (src/main.js:68, 75-83).
- `src/main.js:94, 104, 150, 157, 217` call `setUrlUpdateCallback`, `goToPlanetCard` and `goToNextState` on the scroll animator, which `src/core/ScrollAnimator.js` does not define. The deep-link jump is therefore sent straight to the state machine (`DeepLink.ApplyRestore`).
- At stop 0 and at the God View, `prev()` returns `null` either way (src/core/ScrollStateMachine.js:78-85). Only the old cursor tells the two cases apart, together with the `None` delivery when a callback is set.

## Model

| member | source | states |
|---|---|---|
| `Navigation.StateFor` | src/core/ScrollStateMachine.js:18-28 | entry k of the table has index k, a planet from the planet list and a card in 0..3 |
| `Navigation.Notified` | src/core/ScrollStateMachine.js:132-136 | the `if (this.onStateChange)` test: exactly one delivery, to the set callback and with the given state, iff a callback is set |
| `Navigation.ScrollStateMachine.constructor` | src/core/ScrollStateMachine.js:12-35 | the nested loops build exactly the 36-entry table (entry k is (planets[k / 4], k % 4)); start at -1 with no callback and no deliveries |
| `Navigation.ScrollStateMachine.GetTotal` | src/core/ScrollStateMachine.js:40-42 | the total is the size of the table, 36 |
| `Navigation.ScrollStateMachine.GetState` | src/core/ScrollStateMachine.js:48-51 | null exactly at the God View (-1), otherwise the table entry at the cursor |
| `Navigation.ScrollStateMachine.GetStateAt` | src/core/ScrollStateMachine.js:56-59 | the table entry at the index clamped into 0..35; reads only, so the cursor cannot change |
| `Navigation.ScrollStateMachine.Next` | src/core/ScrollStateMachine.js:65-72 | at 35: null, cursor and deliveries unchanged; otherwise (from -1 too) the cursor moves up by one, one delivery of the new state if a callback is set, and that state is returned; keeps Valid |
| `Navigation.ScrollStateMachine.Prev` | src/core/ScrollStateMachine.js:78-85 | at -1: null, nothing changes; otherwise the cursor moves down by one with one delivery; from 0 it lands on -1 and returns and delivers null |
| `Navigation.ScrollStateMachine.GoTo` | src/core/ScrollStateMachine.js:91-98 | cursor becomes clamp(i, 0, 35), never -1; a delivery iff that differs from the old cursor; returns the new state |
| `Navigation.ScrollStateMachine.GoToPlanetCard` | src/core/ScrollStateMachine.js:103-110 | unknown planet: null, no change, no delivery; known planet: lands on `GetIndexFor(planet, card)`, whose entry is that planet with the card clamped into 0..3 |
| `Navigation.ScrollStateMachine.GetIndexFor` | src/core/ScrollStateMachine.js:115-120 | -1 iff the planet is unknown; otherwise an index in 0..35 whose table entry is that planet and the clamped card |
| `Navigation.ScrollStateMachine.SetOnStateChange` | src/core/ScrollStateMachine.js:125-127 | the single callback slot is overwritten |
| `Navigation.ScrollStateMachine.NotifyChange` | src/core/ScrollStateMachine.js:132-136 | one delivery of the current state if a callback is set, none otherwise |
| `Navigation.ScrollStateMachine.Reset` | src/core/ScrollStateMachine.js:141-146 | cursor becomes -1; a delivery of null only if it was not already -1 |
| `Navigation.IndexOf` | src/core/ScrollStateMachine.js:104 | `indexOf`: -1 iff absent, otherwise the first position holding the name |
| `Navigation.Clamp` | src/core/ScrollStateMachine.js:57 | `Math.max(lo, Math.min(x, hi))` lies in lo..hi and is x when x already does |
| `Navigation.IndexOfPlanet` | src/core/ScrollStateMachine.js:14 | the planet names are distinct, so looking up the name at position i gives i |
| `Navigation.IndexForStateFor` | src/core/ScrollStateMachine.js:115-120 | every table entry is found again by its own planet and card (the lookup inverts the table) |
| `Navigation.NextThenPrev` | src/core/ScrollStateMachine.js:65-85 | from -1 or any stop below 35, next then prev returns to the starting index and calls the callback twice |
| `Animator.PinnedOrderIsNavigationOrder` | src/core/ScrollAnimator.js:101-111 | the pinned sections come in the state machine's planet order |
| `Animator.TargetPanelCount` | src/core/ScrollAnimator.js:189-191 | the panel count is floor(4 × progress) clamped into 0..3: one panel per completed quarter of the pinned section |
| `Animator.TargetPanelCountMonotone` | src/core/ScrollAnimator.js:180-191 | scrolling further never gives fewer panels |
| `Animator.Presenter.ShowNextPanel` | src/core/ScrollAnimator.js:197 | assumed presenter step: one more visible panel, logged |
| `Animator.Presenter.HideLastPanel` | src/core/ScrollAnimator.js:202 | assumed presenter step: one fewer visible panel, logged |
| `Animator.Presenter.Hide` | src/ui/Holocard.js:41-44 | hiding the card is logged and leaves the panel count alone |
| `Animator.Presenter.PrepareContent` | src/core/ScrollAnimator.js:130 | loading a planet's content is logged and leaves the panel count alone |
| `Animator.ScrollAnimator.constructor` | src/core/ScrollAnimator.js:10-19 | nothing targeted or pinned at the start |
| `Animator.ScrollAnimator.FocusOnPlanet` | src/core/ScrollAnimator.js:35-49 | the camera target becomes the planet; the pinned planet is untouched |
| `Animator.ScrollAnimator.ReturnToGodView` | src/core/ScrollAnimator.js:51-73 | target and pinned planet become null and the card is hidden |
| `Animator.ScrollAnimator.OnEnter` | src/core/ScrollAnimator.js:123-131 | pinned planet and target both become the section's planet; its content is prepared when the content table has it |
| `Animator.ScrollAnimator.OnLeave` | src/core/ScrollAnimator.js:132-134 | leaving a section hides the card; `onLeaveBack` (src/core/ScrollAnimator.js:148-150) does the same and is this method too |
| `Animator.ScrollAnimator.OnEnterBack` | src/core/ScrollAnimator.js:135-147 | as OnEnter, and then exactly three panel shows when the content table has the planet |
| `Animator.ScrollAnimator.UpdateCardReveal` | src/core/ScrollAnimator.js:186-204 | ignored unless the planet is the pinned one; otherwise the count ends at the target, by exactly (target − start) shows when below it or (start − target) hides when above it, and nothing else is sent |
| `DeepLink.ValidPlanetsAreNavigationPlanets` | src/main.js:67 | the URL whitelist is the state machine's planet list |
| `DeepLink.Get` | src/main.js:75-76 | `URLSearchParams.get`: the value of the first parameter with that name, null iff there is none |
| `DeepLink.RestoreCard` | src/main.js:81-83 | NaN or negative gives 0, above 3 gives 3, otherwise unchanged; always in 0..3 |
| `DeepLink.RestoreCardIdempotent` | src/main.js:81-83 | clamping an already restored card changes nothing |
| `DeepLink.ParseCardParam` | src/main.js:76-81 | `parseInt(cardParam, 10)`: a missing parameter (`null`, read as "null") gives NaN; a present one is parsed as written |
| `DeepLink.RestoreFromQuery` | src/main.js:74-91 | a restore is scheduled iff the `planet` parameter is a whitelisted planet; then with that planet and the card `RestoreCard(parseInt(card))`, which lies in 0..3 |
| `DeepLink.UpdateUrlState` | src/main.js:110-125 | no planet clears the query, an unknown planet keeps the URL, a known one writes `planet` and a `card` that parses back to min(card, 3); a negative card is written as is |
| `DeepLink.RestoredLinkResolves` | src/main.js:79-89 | a restored (planet, card) resolves via goToPlanetCard to planet position × 4 + card, an entry holding that planet and card |
| `DeepLink.UrlRoundTrip` | src/main.js:119-121 | for a valid planet and a card in 0..3, what updateUrlState writes restores to the same planet and card |
| `DeepLink.StopSurvivesUrl` | src/main.js:110-125 | writing the URL for any of the 36 stops and restoring it leads back to that stop |
| `DeepLink.ApplyRestore` | src/main.js:102-105 | no restore, or a planet outside the whitelist, changes nothing; otherwise the jump lands on `GetIndexFor(planet, card)`, that planet with the card clamped into 0..3 (the restored card itself when already in range), with one delivery iff the cursor moved and a callback is set |
| `Decimal.NatToString` | src/main.js:121 | `toString` of a non-negative integer below 10^21 (the values written here are at most 3) is a non-empty string of digits, with no leading zero |
| `Decimal.IntToString` | src/main.js:121 | `toString` of an integer starts with '-' iff it is negative |
| `Decimal.ParseInt` | src/main.js:81 | `parseInt(s, 10)` is NaN iff no digit follows the white space and sign |
| `Decimal.NatToStringValue` | src/main.js:121 | the digits written for n denote n |
| `Decimal.ParseIntOfIntToString` | src/main.js:81 | `parseInt(String(i), 10) == i` for every integer i |
| `TimeUtils.JsRem` | src/utils/TimeUtils.js:15-16 | JavaScript `%`: Dafny's remainder for a non-negative dividend; for a negative one the truncated remainder, 0 when b divides a and otherwise (a mod b) − b, in (−b, 0] (so −3601 % 3600 = −1) |
| `TimeUtils.Components` | src/utils/TimeUtils.js:14-16 | for seconds ≥ 0 the hours are non-negative and minutes and seconds lie in 0..59; for a negative count all three are ≤ 0, hours strictly below 0 |
| `TimeUtils.SecondsToHMS` | src/utils/TimeUtils.js:13-18 | the text ends in `s` and starts with a minus sign iff the count is negative |
| `TimeUtils.ComponentsOfNat` | src/utils/TimeUtils.js:14-16 | for seconds ≥ 0: h·3600 + m·60 + s = seconds, m and s in 0..59, h = seconds / 3600, and h is 0 iff seconds < 3600 |
| `TimeUtils.ComponentsUnique` | src/utils/TimeUtils.js:14-16 | any split with minutes and seconds below 60 is the one computed |
| `TimeUtils.SecondsToHMSFormat` | src/utils/TimeUtils.js:13-18 | the output is exactly `<h>h <m>m <s>s` in decimal numerals of that split |
| `TimeUtils.Examples` | src/tests/unit/TimeUtils.test.js:6-12 | 3661, 3600, 45 and 0 print as "1h 1m 1s", "1h 0m 0s", "0h 0m 45s" and "0h 0m 0s" |
| `TimeUtils.NegativeSecondsExample` | src/utils/TimeUtils.js:13-18 | a negative count prints negative parts: -1 gives "-1h -1m -1s" |

## Left out

- Rendering: `src/core/CosmicScene.js`, `src/ui/PlanetPreview.js`, Three.js, orbits, the starfield, raycasting and drag momentum are floating-point graphics.
- Animation: GSAP tweens, camera offsets (the `offset` of each pinned section), the camera-tracking loop, `destroy`, the hero and contact triggers, and the `ScrollTrigger.create` wiring are library calls. `onUpdate` only forwards to `UpdateCardReveal`, which is modelled.
- Animator.Presenter: `src/ui/Holocard.js` defines no `showNextPanel`, `hideLastPanel`, `prepareContent` or `visiblePanelCount`. The presenter is therefore an assumed counter: show adds 1, hide-last subtracts 1, and hide and prepare leave it alone. Whether the real card saturates at 3 is not modelled.
- Animator.ScrollAnimator.UpdateCardReveal: `progress` is a Dafny `real`. NaN and floating-point rounding are not modelled. The unused local `currentCount` is dropped.
- The holocard DOM, `src/ui/HUDComponents.js`, `src/data/solarSystemData.js` and `src/config.js` are markup and literals. Only the set of planets with content is kept, as `ScrollAnimator.content`.
- Entry-point plumbing: the 500 ms `setTimeout` before the deep-link jump, `history.replaceState`, reading `window.location`, Lenis smooth scrolling and the button visibility triggers.
- DeepLink: the query is the list of (name, value) pairs of a `URLSearchParams`. Percent-encoding and serialising it to a string are not modelled.
- Decimal.ParseInt: only the decimal reading is modelled. Leading white space is the ECMAScript WhiteSpace and LineTerminator characters, without the other Unicode space separators. Numbers beyond 2^53 keep their exact value instead of losing precision.
- Navigation: the `card` and `index` arguments are integers. JavaScript would also accept fractions, NaN and `undefined` there.
- DeepLink.UpdateUrlState: the `card` argument is an integer. `updateUrlState(p, undefined)` would write `card=NaN`, and a fraction would be written with its decimals; neither is modelled.
- TimeUtils.SecondsToHMS: `seconds` is an integer. A fractional, NaN or non-finite argument is not modelled.
- Decimal.NatToString: integers are written with all their digits. JavaScript writes values from 10^21 up in exponent form ("1e+21") and rounds values above 2^53; neither is modelled. The values `updateUrlState` writes are at most 3, so this does not reach the card parameter.
- Decimal.IntToString: the same exponent form and precision loss apply to negative values. It reaches `secondsToHMS` only for counts beyond 2^53 seconds.
- Navigation.ScrollStateMachine: the callback is an identity whose invocations are logged, not arbitrary code. A callback that re-enters the machine is not modelled.
- `getCurrentTimestamp` reads the wall clock. The Playwright browser test is not modelled.
