# Interview-prep landing page: accordion, navigation modal and swipe, in Dafny

The page's controller (`script.js`) does three things that have real logic in them:

- **Accordion groups.** A click on a panel header closes every other panel of
  the same `.accordion` group. It then toggles the clicked panel's header and
  content and sets its icon to `−` or `+`. Finally `animateAccordion` sets the
  content's `maxHeight` from its natural height. `Accordion.AccordionGroup`
  keeps the group as arrays and updates them in place with the handler's two
  loops. `Click` is proved against `Accordion.AfterClick`, a function on a
  sequence of `Panel` values. `Animate`, `ClearOtherHeaders` and
  `ClearOtherContents` have local contracts that say which array cells they
  change; `Click`'s proof composes them. The lemmas show that this function keeps at
  most one panel open and keeps headers, contents and icons in step, after one
  click and after any sequence of clicks. A second group is a separate object
  with its own arrays, so the `modifies` clause of `Click` shows that other
  groups are untouched.
- **Navigation modal.** `navigateTo` shows a confirmation prompt labelled with
  the topic (`Navigation.TopicLabel`). `proceedNavigation` swaps in a loading
  view (`Navigation.LoadingHeading`) and schedules a 2000 ms swap to a result
  view whose markup holds `/path/` (`Navigation.ResultPathText`). `closeModal` only
  hides the modal. The state is `Navigation.ModalState` with one step function
  per event. `Navigation.NavigationModal` holds the same state as fields that
  its methods update, and each method is proved equal to its step function.
  Timers are events: `pending` holds the path each scheduled swap captured, in
  firing order.
- **Swipe.** `touchend` nudges every card 5 px in the direction of a vertical
  swipe longer than 100 px. It schedules one 200 ms revert per card
  (`Touch.CardSwipe`, specified by `Touch.SwipeOffset`, `Touch.AfterSwipe`
  and `Touch.RevertAll`).

The string operations used on the path are in `AsciiText`. They are
`toUpperCase` on ASCII, `split('-')[0]` and `replace('-', ' ')`, which
replaces only the first `-`.

Three behaviours of the code are worth stating outright:

- Requesting navigation again after a confirmation does not restore the
  prompt. The prompt's `#topic-name` element is gone once
  `proceedNavigation` has replaced the modal content, so a later
  `navigateTo` throws before it changes anything, and the model returns the
  state unchanged (`Navigation.NavigateOutsidePromptChangesNothing`,
  `Navigation.DismissDuringLoading`).
- A swap timer that fires after the modal was dismissed does not make it
  visible again. It only replaces the content and never touches `display`,
  so the modal stays hidden with the result view inside
  (`Navigation.TimerIgnoresClose`).
- A click toggles the clicked panel rather than always expanding it: a click
  on the open panel closes the whole group.

## Model

| member | source | states |
|---|---|---|
| AsciiText.FirstDash | script.js:127 | the index of the first `-` in the path, or its length when it has none: no `-` before it, and a `-` at it when it is inside the string |
| AsciiText.FirstSegmentSpec | script.js:127 | `split('-')[0]` is a prefix of the path with no `-` in it; it is followed by a `-` when shorter than the path, and it is the whole path exactly when the path has no `-` |
| AsciiText.ReplaceFirstDashSpec | script.js:144 | `replace('-', ' ')` keeps the length, turns only the first `-` into a space and keeps every other character; a path without `-` is returned unchanged |
| AsciiText.Upper | script.js:127 | ASCII upper-casing keeps the length, turns each letter a..z into its own capital, keeps every other character, and leaves no lower-case letter |
| Navigation.TopicLabel | script.js:117-127 | the three known paths get `HTML`, `CSS` and `JavaScript`; any other path gets its text before the first `-`, upper-cased character by character, and the whole path upper-cased when it has no `-` |
| Navigation.KnownLabels | script.js:117-121 | each of the three table keys gives its table label |
| Navigation.UnknownPathLabel | script.js:127 | `unknown-path-x` is labelled `UNKNOWN` |
| Navigation.LoadingTopic | script.js:144 | the loading topic is as long as the path; the first `-` becomes a space and every other character is upper-cased |
| Navigation.LoadingTopicExample | script.js:144 | `html-deep-dive` loads as `HTML DEEP-DIVE`: the second `-` stays |
| Navigation.LoadingHeading | script.js:144 | the heading is `Loading `, then the loading topic, then ` questions...` |
| Navigation.ResultPathText | script.js:168 | builds the result view's address text: the path between two slashes |
| Navigation.NavigateThenProceed | script.js:116-147 | from the prompt, `navigateTo` makes the modal visible with the path's label and stores the path; `proceedNavigation` then shows the loading view for exactly that path and schedules its swap |
| Navigation.NavigateOutsidePromptChangesNothing | script.js:123-128 | once the prompt has been replaced, `navigateTo` changes nothing: the prompt is not restored and the modal is not shown |
| Navigation.CloseHidesOnly | script.js:177-179 | closing hides the modal from any state, leaves content, stored path and pending swaps alone, is idempotent, and changes nothing when the modal is already hidden |
| Navigation.TimerIgnoresClose | script.js:160-174 | a pending swap still installs the result view for its path after a close; the modal stays hidden; closing and the swap commute |
| Navigation.DismissDuringLoading | script.js:116-179 | request, confirm, close, timer from page load ends hidden with result view `/path/` and nothing pending, and a later request leaves that state as it is |
| Navigation.NavigationModal.NavigateTo | script.js:116-134 | fails exactly when the content is no longer the prompt; on success the modal is visible with the path's label and the path is stored; the new state is the navigate step of the old |
| Navigation.NavigationModal.ProceedNavigation | script.js:136-175 | fails exactly when no path was ever stored; on success the content is the loading view for the stored path and one swap is scheduled; the new state is the proceed step of the old |
| Navigation.NavigationModal.SwapTimerFires | script.js:160-174 | the earliest scheduled swap installs the result view for its captured path and does not touch visibility |
| Navigation.NavigationModal.CloseModal | script.js:109-112 | the modal is hidden and nothing else changes |
| Navigation.NavigationModal.KeyDown | script.js:199-203 | Escape closes the modal; any other key changes nothing |
| Navigation.NavigationModal.WindowClick | script.js:75-79 | a click on the backdrop closes the modal; any other click changes nothing |
| Accordion.ClickLeavesAtMostOneOpen | script.js:25-41 | whatever the group held before, after a click at most one header and at most one content are active, and every other panel is collapsed with icon `+`, its heights untouched |
| Accordion.ClickOpensOrCollapses | script.js:44-51 | clicking a collapsed panel opens exactly it with icon `−` and `maxHeight` equal to its natural height; clicking an active header leaves every header collapsed with icon `+` (and every content collapsed when its content was active too) |
| Accordion.ClickPreservesAgreement | script.js:29-51 | if every header's flag equals its content's (and every icon matches its header) before a click, that still holds after it |
| Accordion.ClicksKeepAtMostOneOpen | script.js:19-55 | a group that starts with at most one panel open has at most one open after any sequence of clicks |
| Accordion.ClicksKeepAgreement | script.js:19-55 | headers, contents and icons stay in agreement over any sequence of clicks |
| Accordion.AccordionGroup.Animate | script.js:59-65 | the content's `maxHeight` becomes its natural height when it is active and 0 otherwise; no other content's `maxHeight` changes |
| Accordion.AccordionGroup.ClearOtherHeaders | script.js:29-35 | every header but the clicked one loses `active` and shows `+`; the clicked header and its icon are untouched |
| Accordion.AccordionGroup.ClearOtherContents | script.js:37-41 | every content but the clicked one loses `active`; the clicked content is untouched |
| Accordion.AccordionGroup.Click | script.js:19-55 | the two clearing passes, the toggle and the animation leave the group equal to the click step of its old panels, with at most one panel open |
| Touch.SwipeOffset | script.js:213-219 | a touch is a swipe exactly when the vertical distance exceeds 100 px; a swipe upward gives offset −5 and a swipe downward +5 |
| Touch.RevertAllAt | script.js:220-222 | after the pending reverts fire, a card is at 0 if one of them was its own and untouched otherwise |
| Touch.SwipeIsUndone | script.js:216-223 | the reverts a swipe schedules bring every card back to 0, whatever the offsets were before |
| Touch.CardSwipe.TouchStart | script.js:206-209 | the start coordinate is recorded |
| Touch.CardSwipe.TouchEnd | script.js:211-225 | the loop gives every card the swipe offset and schedules one revert per card in order when the touch is a swipe, and changes nothing otherwise |
| Touch.CardSwipe.RevertFires | script.js:220-222 | the earliest pending revert puts its card back at 0 and nothing else changes |

## Left out

- DOM querying and listener registration are not modelled. This covers `querySelectorAll`, `closest`, `getElementById`, `addEventListener`, `setupModal` and the `InterviewApp` constructor and `init`. An accordion group is given as arrays in which header j targets content j. The markup, `index.html`, is not part of this model.
- The model assumes `#topic-name` sits inside `.modal-content`. The markup would settle this, and it is not part of this model.
- Style-element injection (lines 91-106 and 150-157) is left out, and so is the HTML around the loading and result texts. Only the texts derived from the path are kept.
- `addCardAnimations`' stagger delays are left out. They format `index * 0.2` as a floating-point string.
- The hover transforms on `mouseenter` and `mouseleave` are left out. They are presentation only, and the swipe model does not cover how they interleave with swipe offsets.
- `setTimeout` is not modelled as real time. Each timer is an explicit event that fires in scheduling order. The model does not interleave the 2000 ms and 200 ms timers by their delays.
- `topicMap[path]` can also hit inherited object-prototype keys such as `constructor`. The model knows only the three own keys.
- Upper-casing is ASCII only. Unicode case mapping is not modelled.
- Touch coordinates are reals. A `transform` is kept as its vertical offset in pixels, and `maxHeight` as a number without the `px` suffix.
- The unused `currentTopic` field is left out.
- The initial state of an accordion group is assumed, because the markup is not part of this model: every panel collapsed with icon `+`. An unset inline `maxHeight` (the empty string) is modelled as 0, and siblings that are never animated keep that 0. The modal is likewise assumed hidden at page load, which the stylesheet decides. Each card's inline `transform` is unset before its first swipe, and the model takes it as offset 0.
- Navigation.ResultPathText: returns the HTML source text that goes into `innerHTML` (lines 161-173), with the path unescaped. That equals the text the page shows only for paths with no `<` or `&`, which holds for the paths the page's own cards pass.
- Navigation.LoadingHeading: the same holds for the loading heading (lines 141-147). The prompt label, by contrast, goes through `textContent` (line 128) and is shown literally.
- The close button inside the result view calls `closeModal()`, which is `CloseModal` in the model. Its markup is not modelled.
