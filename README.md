# Ripple effect: a verified model of the per-element interaction session

`ripple(elmnt, option)` attaches a ripple overlay effect to DOM elements. This
project models its core in Dafny:

- **Settings resolution** (`config.dfy`, module `Config`). The caller's options
  are spread over `defaultOption` and destructured with `triggerOnChild = true`
  and `triggerExcept = '_'`. The input mode then fixes the press and release
  event names and the timer delay (`touchScrollTimeout` on a touch runtime,
  0 otherwise).
- **Press gating and strike geometry** (`gate.dfy`, module `Gate`).
  `createRipple` declines a press whose target is excluded, whose target is a
  child while `triggerOnChild` is off, or that has a second touch point.
  Otherwise the strike point is the first touch point, or failing that the
  pointer's page point, minus the element's offset.
- **The session state machine** (`machine.dfy`, module `Machine`). The closure
  variables `removeDiv`, `touchStartTimeOutId` and `touchEndTimeOutId`, the
  overlays created so far (Live, Fading or Removed) and the scheduled
  `remove()` calls are one `State` value. The move, press and release handlers
  and the start, end and removal timer firings are transitions. `Run` applies
  any sequence of them, and any pending timer may fire next, so no result
  depends on timing. A firing whose timer was cleared does nothing.
- **The imperative session** (`session.dfy`, module `Session`). The class
  `ElementSession` holds the closure state as fields. Each handler and timer
  callback is a method that is proved to perform the `Machine` transition and
  to keep the session invariant. `Ripple` resolves the settings and walks the
  elements, logging an error for each self-closing one and installing a fresh
  idle session on every other one.
- **Scenarios** (`scenarios.dfy`, module `Scenarios`): concrete runs. A click
  shows a ripple that a release then removes, a tap is cancelled by scrolling,
  a press on a child is ignored, and the handler behaviours below hold.

The session invariant (`Machine.Inv`) has four parts. While a start timer is
pending, nothing is recorded. Any Live overlay is the recorded one, so at most
one overlay is Live. No removal is ever scheduled for a Live overlay. Every
Fading overlay has a removal scheduled.

Behaviours of the code that the model keeps, each proved by the lemma named:

- A release's end timer retires whatever is recorded when it fires, and never
  clears the record. A second release therefore fades the same overlay again
  and schedules a second removal of it (`Scenarios.ReleaseKeepsRecord`).
- The gates run only when the start timer fires. Any press, including a
  multi-touch or excluded one, has by then already cancelled the pending start
  timer and retired the recorded ripple (`Machine.PressRetiresPrevious` for
  every press; `Scenarios.MultiTouchStillRetires` for a concrete multi-touch
  run).
- A move cancels a pending retirement as well as a pending start. A ripple can
  stay Live with no timer left to retire it (`Scenarios.MoveCancelsRetirement`).
- A second press before the first release's end timer fires leaves the second
  ripple Live with no retirement pending
  (`Scenarios.SecondPressOutlivesRelease`).

Three places where the code does less than a reader might expect; the model
follows the code:

- One might expect a multi-touch or excluded press to be ignored outright. In
  the code it still clears the start timer and retires the recorded overlay
  (src/index.js:131-136); only the later `createRipple` declines it.
- One might expect `triggerExcept` to exclude every node inside a matched
  subtree. The code excludes only a target that is itself one of the matched
  nodes (src/index.js:47-48).
- One might expect retiring a ripple to forget it. Only the press handler
  clears `removeDiv`; the end timer leaves it set (src/index.js:145).

## Model

| member | source | states |
|---|---|---|
| Config.Resolve | src/index.js:4-40 | each of the seven defaulted options is the caller's value when supplied and its `defaultOption` value otherwise; `triggerOnChild` defaults to true and `triggerExcept` to `'_'`; `height` and `width` pass through |
| Config.ResolveNoOptions | src/index.js:4-12 | a call with no options resolves to exactly the `defaultOption` values plus `triggerOnChild` true and `triggerExcept` `'_'` |
| Config.ResolveSpelled | src/index.js:24-40 | options that supply every field resolve to those values: no default overrides a supplied option |
| Config.ModeFor | src/index.js:42-44 | touch runtime: press `touchstart`, release `touchend touchcancel`, delay `touchScrollTimeout`; otherwise `mousedown`, `mouseleave mouseup`, delay 0 |
| Config.DelayOfOptions | src/index.js:125 | the timer delay is 0 in mouse mode, and in touch mode the caller's `touchScrollTimeout` or 100 when absent |
| Gate.StrikePoint | src/index.js:58-69 | the strike point plus the element offset gives back the contact point |
| Gate.CreateRipple | src/index.js:46-69 | declines exactly when the target is excluded, or is a child while `triggerOnChild` is off, or a second touch point exists; otherwise gives the first touch point minus the offset, or the pointer page point minus the offset when there is no touch point |
| Gate.DeclineIgnoresOffset | src/index.js:47-63 | whether a press is declined does not depend on the element's offset |
| Gate.OwnTargetCreates | src/index.js:47-69 | a non-excluded press on the element itself with at most one touch point always creates a ripple |
| Machine.RemoveRipple | src/index.js:103-111 | a Live overlay becomes Fading (not Removed), a Fading or Removed one keeps its phase; the overlay keeps its strike point and gets one more scheduled removal; no overlay given changes nothing; the record, the timers and all other overlays are unchanged |
| Machine.OnMove | src/index.js:127-130 | both timer slots become empty; the record, the overlays and the scheduled removals are unchanged |
| Machine.OnPress | src/index.js:131-140 | exactly one start timer is pending and it carries this press; the record is empty; the previously recorded overlay is retired as `removeRipple` does; the end timer is untouched |
| Machine.OnRelease | src/index.js:141-147 | one end timer is pending in place of any earlier one; nothing else changes |
| Machine.StartFires | src/index.js:137-139 | the start slot empties; a declined press records nothing and creates nothing; otherwise one new Live overlay at the strike point is appended and recorded |
| Machine.EndFires | src/index.js:144-146 | the end slot empties; the overlay recorded at firing time is retired; the record is kept |
| Machine.RemovalFires | src/index.js:106-108 | the overlay becomes Removed and one of its scheduled removals is used up; no other overlay, the record and the timers are unchanged |
| Machine.Step | src/index.js:127-147 | every handler and every firing keeps all overlay references pointing at created overlays |
| Machine.Run | src/index.js:127-147 | any sequence of handlers and firings keeps all overlay references pointing at created overlays |
| Machine.InvIdle | src/index.js:122-124 | a freshly bound element satisfies the session invariant |
| Machine.PressKeepsInv | src/index.js:131-140 | the press handler keeps the session invariant |
| Machine.StartKeepsInv | src/index.js:137-139 | the start timer firing keeps the session invariant |
| Machine.EndKeepsInv | src/index.js:144-146 | the end timer firing keeps the session invariant |
| Machine.RemovalKeepsInv | src/index.js:106-108 | a removal firing keeps the session invariant |
| Machine.StepKeepsInv | src/index.js:127-147 | every handler and every timer firing keeps the session invariant |
| Machine.RunKeepsInv | src/index.js:122-147 | any sequence of handlers and firings keeps the session invariant |
| Machine.AtMostOneLive | src/index.js:122-147 | after any inputs to a freshly bound element, at most one overlay is Live and it is the recorded one |
| Machine.PressRetiresPrevious | src/index.js:131-136 | after a press no overlay is Live; a Live recorded overlay becomes Fading with its removal scheduled |
| Machine.StepEvolves | src/index.js:127-147 | one step only appends overlays, never moves one, and never moves one back from Removed to Fading or from Fading to Live |
| Machine.RunEvolves | src/index.js:127-147 | the same holds for any sequence of inputs |
| Machine.NoPressNoRipple | src/index.js:127-147 | with no press, a session whose start slot is empty or holds a multi-touch press never creates an overlay |
| Machine.NoStartFiringNoRipple | src/index.js:137-139 | inputs without a start-timer firing never change the number of overlays |
| Machine.MoveCancelsPress | src/index.js:127-140 | a move before the start timer fires means that press never creates an overlay: before the move anything but the start firing may happen, after it anything until the next press |
| Machine.MultiTouchNeverCreates | src/index.js:63 | a press with two touch points never creates an overlay, whatever the state before it and whatever follows until the next press |
| Scenarios.ClickShowsRipple | src/index.js:58-69 | default settings, mouse mode: delay 0, and a press at (10, 10) on an element at the origin shows one Live ripple centred at (10, 10) |
| Scenarios.ClickRippleRemoved | src/index.js:103-108 | in the same run a release fades the ripple and its removal detaches it; the record still names it |
| Scenarios.ScrollCancelsTap | src/index.js:125-130 | with `touchScrollTimeout: 50` on a touch runtime the delay is 50, and a move before the start timer fires means no ripple at all |
| Scenarios.ChildPressIgnored | src/index.js:49 | with `triggerOnChild: false` a press on a child creates and records nothing |
| Scenarios.ReleaseKeepsRecord | src/index.js:141-147 | two releases after one ripple fade the same overlay twice and schedule its removal twice; the record is kept |
| Scenarios.MultiTouchStillRetires | src/index.js:131-139 | a multi-touch press creates nothing but has already retired the ripple shown before it |
| Scenarios.MoveCancelsRetirement | src/index.js:127-130 | a move after a release leaves the ripple Live with no timer pending |
| Scenarios.SecondPressOutlivesRelease | src/index.js:131-147 | a second press before the first end timer fires leaves the second ripple Live, recorded, and with no retirement pending |
| Session.ElementSession.constructor | src/index.js:122-125 | a new session is idle and valid, and its delay is the input mode's delay |
| Session.ElementSession.RemoveRipple | src/index.js:103-109 | performs `Machine.RemoveRipple` on the fields |
| Session.ElementSession.Move | src/index.js:127-130 | performs `Machine.OnMove` and keeps the invariant |
| Session.ElementSession.Press | src/index.js:131-140 | performs `Machine.OnPress` and keeps the invariant |
| Session.ElementSession.Release | src/index.js:141-147 | performs `Machine.OnRelease` and keeps the invariant |
| Session.ElementSession.StartTimerFires | src/index.js:137-139 | performs `Machine.StartFires` and keeps the invariant |
| Session.ElementSession.EndTimerFires | src/index.js:144-146 | performs `Machine.EndFires` and keeps the invariant |
| Session.ElementSession.RemovalTimerFires | src/index.js:106-108 | performs `Machine.RemovalFires` and keeps the invariant |
| Session.Bindable | src/index.js:117-121 | an element id is bound exactly when some element with that id is not self-closing; no more sessions than elements |
| Session.BoundOrReported | src/index.js:117-121 | every element is either bound or reported as self-closing |
| Session.Ripple | src/index.js:22-148 | one fresh, distinct, idle, valid session per non-self-closing element, in order, each with the resolved settings and the mode's delay; one logged error per self-closing element |

## Left out

- Stylesheet injection into the document head (src/index.js:16-20): a global DOM side effect with no state to model.
- The DOM helpers `tag`, `edit`, `offset`, `elementToArray`, `isSelfTag` and `styles` are not part of this model. Their results are inputs: the list of elements with their self-closing flag, the nodes `triggerExcept` matches at firing time, and the element offset at firing time.
- Overlay styling and sizing (src/index.js:72-99), including the `offsetWidth * Math.PI` diameter: CSS strings and floating-point presentation. The overlay keeps only its phase and its strike point.
- The `position: static` to `relative` change (src/index.js:51-53): a style mutation. In the code it happens before the multi-touch check, so a declined multi-touch press still applies it.
- `e.stopPropagation()` (src/index.js:142): event propagation between nested bound elements is not modelled.
- Clock time: `timeout` and `outDuration` are kept as values, but timers fire in any order rather than by deadline. This covers every order the deadlines allow.
- `destroy` (src/index.js:149-153) and the `off` call inside `removeRipple` (src/index.js:110): both remove handlers that were never attached under those names, and what `edit(...).off` then does belongs to the helpers.
- The unused `prop-types` import (src/index.js:2).
- Config.Resolve: a key the caller supplies with the value `undefined` or `null` is not modelled; every supplied key carries a value of the type its default has. Spreading such a key would override the default with `undefined`.
- Config.Resolve: JavaScript's untyped numbers are modelled as `real` for `opacity` and `int` for `zIndex` and the durations. `triggerExcept` is modelled as a selector string, although the helper also accepts elements.
- Gate.CreateRipple: page coordinates and offsets are integers, so fractional coordinates are not modelled.
