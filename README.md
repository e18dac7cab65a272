# Semantic UI Alert: a Dafny model of the alert plugin's core

`semanticui.alert.js` is a jQuery plugin, `$.suiAlert(options)`. Each call shows one
notification box in a per-position stacking container. The box disappears on its own
after `autoHideDelay` milliseconds unless it is sticky. Hovering pauses the countdown,
and the close icon dismisses the box. This project models the deterministic logic under
the DOM and animation calls and proves properties of it. Elements are modelled as ids,
timers as a table of pending handles, and the browser's deliveries as discrete events.

- `AlertOptions.dfy` resolves options in three layers, as
  `$.extend({}, pluginOptions, $.suiAlert.defaults, options)` does. It also holds the
  completion-callback rule.
- `AlertStyle.dfy` is the `theme` / `type` switch that fills `uiSettings`. It is a pure
  function, and it is checked against a table written out as data.
- `Containers.dfy` is the container registry as a value. `body` lists the
  `suiAlert__<position>` containers in the order they were appended to the document
  body. `children` maps each position to the alert ids its container holds.
- `Lifecycle.dfy` is one box's state machine. Its state covers `hideTimer`, the pending
  timers with the milliseconds each has left, the progress bar (full or depleting) and
  the phase: `Visible` (sticky), `Counting`, `Paused`, `Disappearing` or `Removed`.
  Its events are `mouseenter`, `mouseleave`, time passing, a timer firing, a close
  click and the end of the fade-out.
- `Plugin.dfy` holds the imperative layer. Class `Page` is the module-level state and
  the document: the page defaults, the containers, `gAlertContainer` and a log of
  callback invocations. Each invocation is logged with the containers as they stood
  when it was made. Class `Alert` is one call's closure state. Every method states its
  new state as the matching function of `Containers` or `Lifecycle` applied to the old
  state. Two client methods, `Plugin.ScenarioSamePosition` and `Plugin.ScenarioSticky`,
  show what a caller can derive from these contracts alone. The first makes two calls
  for one position. The second follows a sticky box with a progress bar requested,
  from its creation to its removal.

The timer a box starts waits `TimerDelay(autoHideDelay)` milliseconds. `setTimeout`
takes its delay as a 32-bit signed integer and treats a negative result as 0. A delay
from 2^31 up to 2^32 - 1 ms therefore fires at once, and 2^32 + k ms waits k ms.

Four behaviours of the code are kept as written:

- Starting a countdown does not cancel the previous one: `uiAlertHideWithDelay`
  overwrites `hideTimer`. The model proves "at most one pending timer" only for the
  browser's paired hover events (`Lifecycle.PairedHoverKeepsOneTimer`). It also shows
  how the property fails without that pairing (`Lifecycle.UnpairedLeaveStacksTimers`).
- A close click does not clear `hideTimer`. The timer keeps running after removal, and
  its expiry no longer has any visible effect.
- A theme other than `immersive` or `basic` leaves the icon and the box class empty.
- A `mouseleave` during the fade-out schedules a new timer. The fade still ends in
  removal.

## Model

| member | source | states |
|---|---|---|
| `AlertOptions.Resolve` | semanticui.alert.js:32-50 | each resolved field comes from the call if it supplies it, else from the page defaults, else from the built-in value; every field has a value |
| `AlertOptions.ResolveWithoutOverrides` | semanticui.alert.js:32-50 | with no page defaults and an empty call, the options are exactly the built-in `pluginOptions` |
| `AlertOptions.Extend` | semanticui.alert.js:50 | one `$.extend` step: every field the layer supplies replaces the base's, every other field keeps the base's value, and an empty layer changes nothing |
| `AlertOptions.CallWinsOverDefaults` | semanticui.alert.js:50 | each of the ten fields the call supplies resolves to the call's value, whatever the page defaults say |
| `AlertOptions.FullCallIgnoresDefaults` | semanticui.alert.js:50 | a call that supplies every field resolves the same under any page defaults |
| `AlertOptions.ResolveAsOneLayer` | semanticui.alert.js:50 | resolution equals extending the built-ins once by the page defaults and the call stacked, the call winning |
| `AlertOptions.CallRepeatingDefaults` | semanticui.alert.js:50 | a call that repeats the page defaults resolves as an empty call does |
| `AlertOptions.ExtendStack` | semanticui.alert.js:50 | extending by two layers in turn equals extending once by the two stacked, the later winning |
| `AlertOptions.ExtendIdempotent` | semanticui.alert.js:50 | extending twice by the same layer changes nothing more |
| `AlertOptions.CallbackCalls` | semanticui.alert.js:194-203 | exactly one invocation when `callback` is a function, none otherwise; the argument is passed iff `callbackData` is not null, and it is `callbackData` |
| `AlertStyle.ResolveStyle` | semanticui.alert.js:53-119 | an unrecognised theme leaves icon and box class empty; `immersive` and `basic` always give a non-empty icon and box class |
| `AlertStyle.ResolveMatchesTables` | semanticui.alert.js:59-118 | for both themes and every type string, the switch returns the table's entry, or the table's `info` entry for an unknown type; each table covers exactly the four known types |
| `AlertStyle.UnknownTypeIsInfo` | semanticui.alert.js:83-116 | any type outside error/info/success/warning resolves exactly as `info` does, in every theme |
| `AlertStyle.ThemesShareIcons` | semanticui.alert.js:59-118 | both themes give the same icon for a type and different box classes |
| `AlertStyle.KnownTypesAreDistinguished` | semanticui.alert.js:59-118 | within a known theme, the four known types get four different box classes |
| `Containers.GetOrCreate` | semanticui.alert.js:121-134 | afterwards the position has a container; the body only grows, by at most one container; every existing container keeps its boxes |
| `Containers.Append` | semanticui.alert.js:171 | the body and the set of containers are unchanged, and the new box is the last of its container's boxes |
| `Containers.Detach` | semanticui.alert.js:223 | the body and the set of containers are unchanged, and the box is no longer in its container |
| `Containers.Without` | semanticui.alert.js:223 | removing a box keeps exactly the other boxes, each as often as before, and keeps call order |
| `Containers.GetOrCreateValid` | semanticui.alert.js:121-134 | get-or-create keeps one container per position and the registry invariant; for a known position it returns the registry unchanged; for a new one it appends exactly one empty container at the end of the body and leaves every other container's boxes unchanged; the containers are the old ones plus this one |
| `Containers.GetOrCreateIdempotent` | semanticui.alert.js:121-134 | asking again for the same position creates nothing more |
| `Containers.AppendValid` | semanticui.alert.js:171 | a new box goes at the end of its container; the body, the set of containers and the other containers' boxes are unchanged; every container stays in call order |
| `Containers.DetachValid` | semanticui.alert.js:220-224 | removing a box keeps the body and every container; its container keeps exactly its other boxes, in call order; the other containers are unchanged |
| `Containers.TwoAlertsOnePosition` | semanticui.alert.js:121-171 | two calls for one position on a fresh page give one container holding both boxes in call order |
| `Lifecycle.TimerDelay` | semanticui.alert.js:217-226 | the time a `setTimeout` timer waits: the requested delay below 2^31 ms, zero from 2^31 up to 2^32 - 1 ms, never more than requested |
| `Lifecycle.TimerDelayWraps` | semanticui.alert.js:217-226 | requested delays that differ by 2^32 ms wait equally long |
| `Lifecycle.HideWithDelay` | semanticui.alert.js:209-227 | exactly one new timer, of the effective full delay, goes into `hideTimer` under a fresh handle; every earlier timer stays pending as it was; the bar depletes; the phase is unchanged |
| `Lifecycle.Pause` | semanticui.alert.js:233-243 | the timer in `hideTimer` is no longer pending, every other timer stays as it was, no timer is added, the bar is full, and stickiness and delay are unchanged |
| `Lifecycle.Init` | semanticui.alert.js:172-192 | a sticky box is visible with a full bar and no timer; a non-sticky box is counting with its bar depleting and exactly one timer, stored in `hideTimer`, of the effective delay |
| `Lifecycle.Step` | semanticui.alert.js:182-270 | one event never changes stickiness or delay and never moves a box back in its life; only hover moves between the live phases; a due timer firing on a live box drops that timer and starts the fade-out, and without a close click nothing else does |
| `Lifecycle.InitWellFormed` | semanticui.alert.js:172-192 | after the call, a sticky box is visible with no timer; a non-sticky box is counting, with one timer of the full delay |
| `Lifecycle.StepWellFormed` | semanticui.alert.js:182-270 | every event keeps the lifecycle invariant (fresh handles; a sticky box has no timer and never counts; a counting box has `hideTimer` pending and its bar depleting; a paused box has a full bar) |
| `Lifecycle.RunWellFormed` | semanticui.alert.js:182-270 | every sequence of events keeps the invariant, and stickiness and delay never change |
| `Lifecycle.StickyNeverCounts` | semanticui.alert.js:175-192 | a sticky box never has a pending timer and never counts down or pauses |
| `Lifecycle.StickyLeavesOnlyByClose` | semanticui.alert.js:261-270 | without a close click, a visible sticky box is unchanged by any events |
| `Lifecycle.CloseAlwaysDismisses` | semanticui.alert.js:261-270 | a close click moves any live box, sticky or not, to the fade-out and leaves its timers pending; the fade's end removes it |
| `Lifecycle.DisappearingUntilFadeDone` | semanticui.alert.js:264-268 | once fading, hover, timers and clicks leave the box fading until the fade ends |
| `Lifecycle.RemovedIsTerminal` | semanticui.alert.js:264-268 | a removed box stays removed, and only its leftover timers drain |
| `Lifecycle.LeaveRestartsFullDelay` | semanticui.alert.js:186-227 | `mouseleave` on a paused box starts a new timer of the full effective delay for `autoHideDelay`, however much time was left before, and depletes the bar |
| `Lifecycle.EnterCancelsCountdown` | semanticui.alert.js:183-243 | `mouseenter` on a counting box cancels the timer in `hideTimer`, resets the bar to full and pauses |
| `Lifecycle.RunAppend` | semanticui.alert.js:182-270 | running two event sequences in turn is running their concatenation |
| `Lifecycle.CountdownAdds` | semanticui.alert.js:217-226 | counting down in two steps is counting down by their sum |
| `Lifecycle.TimePasses` | semanticui.alert.js:217-226 | any number of time steps count every pending timer down by their total and change nothing else |
| `Lifecycle.ExpiresAfterDelay` | semanticui.alert.js:190-226 | left alone, however time passes in steps, a non-sticky box starts to fade exactly once the total reaches the timer's effective delay, and not before |
| `Lifecycle.OneTimerStep` | semanticui.alert.js:209-243 | one paired hover event or any other event keeps "only `hideTimer` may be pending, and nothing is pending while the pointer is over a live box" |
| `Lifecycle.OneTimerRun` | semanticui.alert.js:182-243 | every paired event sequence keeps that property |
| `Lifecycle.PairedHoverKeepsOneTimer` | semanticui.alert.js:182-243 | with paired hover events, a box has at most one pending timer, and none while the pointer rests on it |
| `Lifecycle.UnpairedLeaveStacksTimers` | semanticui.alert.js:217 | a `mouseleave` with no `mouseenter` before it stacks a second timer that `mouseenter` cannot clear, and that timer ends the box while it is paused |
| `Lifecycle.LeaveWhileDisappearing` | semanticui.alert.js:186-188 | a `mouseleave` during the fade-out schedules a new timer, and the box is still removed |
| `Plugin.Page.constructor` | semanticui.alert.js:30 | a fresh page has no containers, no defaults set, no current container and no callback calls |
| `Plugin.Page.SetDefaults` | semanticui.alert.js:8-22 | the page-wide defaults become the given layer, and nothing else changes |
| `Plugin.Page.GetOrCreateContainer` | semanticui.alert.js:121-134 | the registry becomes `GetOrCreate` of the old one, and that container becomes `gAlertContainer` |
| `Plugin.Page.AppendAlert` | semanticui.alert.js:171 | the box with a fresh id is appended to its container |
| `Plugin.Page.DetachAlert` | semanticui.alert.js:223 | the box leaves its container; the registry invariant holds |
| `Plugin.Page.SuiAlert` | semanticui.alert.js:47-203 | resolved options, resolved style, the container found or created, the new box appended at its end, the box shown and its countdown started unless sticky, the progress bar iff not sticky and asked for; the callback is logged once iff it is a function, together with the containers as they stood when it was invoked, which already hold the new box |
| `Plugin.Alert.Show` | semanticui.alert.js:166-192 | the box has a progress bar iff `sticky` is false and `progressBar` is true; its state is the lifecycle's initial state |
| `Plugin.Alert.HideWithDelay` | semanticui.alert.js:209-227 | the state becomes the lifecycle's `HideWithDelay`: a new timer of the effective full delay goes into `hideTimer`, the old one stays pending, and the bar depletes |
| `Plugin.Alert.Pause` | semanticui.alert.js:233-243 | the timer in `hideTimer` is cleared and the bar is reset to full |
| `Plugin.Alert.MouseEnter` | semanticui.alert.js:183-185 | the state becomes the lifecycle's `mouseenter` step, and the invariant holds |
| `Plugin.Alert.MouseLeave` | semanticui.alert.js:186-188 | the state becomes the lifecycle's `mouseleave` step, and the invariant holds |
| `Plugin.Alert.Elapse` | semanticui.alert.js:217-226 | every pending timer counts down by the elapsed time, stopping at zero |
| `Plugin.Alert.TimerExpire` | semanticui.alert.js:217-226 | a due timer leaves the table and starts the fade-out of a live box |
| `Plugin.Alert.CloseClick` | semanticui.alert.js:261-270 | a live box starts to fade out; its timers are untouched |
| `Plugin.Alert.FadeDone` | semanticui.alert.js:264-268 | at the end of the fade, the box is removed and detached from its container; the page's registry invariant holds and its other state is unchanged |

## Left out

- Building the box's elements and CSS classes beyond the resolved icon and box class
  (semanticui.alert.js:137-164). The title and the message are not rendered. A box is
  represented by its id, its style and its flags.
- The 300 ms fade-in (semanticui.alert.js:248-256) and its "appearing" stage are left
  out. A box is shown as soon as it is appended.
- The fade-out duration and the progress bar's CSS width transition are left out. The
  end of the fade-out is a `FadeDone` event, and the bar is a full/depleting flag.
- jQuery's animation queue is left out. Several fade-outs queued by repeated close
  clicks, or by a timer firing during a fade, collapse into a single `FadeDone`: the
  first completion detaches the box.
- Real `setTimeout`, `clearTimeout` and the event loop are abstracted. Timer handles are
  numbered per box from 1, not from the browser's page-wide counter. Time passes only
  through `Elapse` events. A timer fires only when an event says so, once its remaining
  time is zero.
- The callback's `this` binding, `$.isFunction`, and exceptions thrown by the callback
  are left out. A callback from the callback into the plugin is also left out. The
  callback is an id, and each invocation is a logged `Call` with the containers as
  they stood at that moment.
- Option values of the wrong JavaScript type are not modelled. Text fields are strings,
  `sticky` and `progressBar` are booleans, and `autoHideDelay` is a natural number. Its
  32-bit conversion by `setTimeout` is modelled by `Lifecycle.TimerDelay`, but fractional,
  negative and non-numeric delays are not. A
  `null` title or position, or a non-boolean `sticky` (which the `=== false` test treats
  as sticky), is therefore not covered.
- Containers.GetOrCreate: positions are taken to be single class-name tokens, like the
  six documented ones. The source pastes the position into a CSS selector and a class
  list (semanticui.alert.js:122, 127). A position with a space gets one more container
  per call, and one with a selector metacharacter makes the lookup throw. Neither is
  modelled.
- Plugin.Page.SuiAlert: a callback that throws is not modelled. In the source, the
  exception leaves `$.suiAlert` after semanticui.alert.js:195-203. The timer and the
  hover handlers are already set up at that point, but the close-click handler
  (semanticui.alert.js:261) is never bound. `Lifecycle.CloseAlwaysDismisses` and
  `Lifecycle.StickyLeavesOnlyByClose` hold only for a callback that returns.
- The difference between the selectors `body > .suiAlert__X` and `.suiAlert__X`
  (semanticui.alert.js:122, 133) is left out. The registry is taken to be the only
  creator of containers.
- Plugin.Page.SuiAlert: states that the new box is in its container right after the
  call, and `Plugin.Alert.FadeDone` states that it is gone after removal. "A box is in
  its container iff it is not removed" is not stated as an invariant over all boxes on
  a page.
