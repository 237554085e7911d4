# Heapchat web SDK: the outbound message queue

The Heapchat web SDK embeds a chat iframe in a page. It exposes one
`Heapchat` object. Its public calls (`login`, `logout`, `setCustomerData`,
`setTheme`, `setThemeMode`) and the iframe's `load` handler do not post to
the iframe directly. Each one builds a `QueuedMessage {type, payload,
retries, maxRetries}` and appends it to an outbound queue.

`processQueue` drains that queue one head message at a time:
- When the iframe window is present and the widget is initialised, the
  head is posted as the frame `{type, ...payload}` and removed.
- When the widget is not ready and the head has retries left, its counter
  goes up by one, it moves to the tail, and the drain pauses for a backoff.
- When the widget is not ready and the head has no retries left, it is
  dropped.
- A guard flag, `isProcessingQueue`, stops a second drain from starting
  while one is suspended.

This project models that queue in Dafny and proves its properties:
bounded retries, termination, FIFO order under readiness, and no message
lost except by exhausting its retries. It also models the small pure rules
around the queue: the theme merge, light/dark colour selection, and the
defaults `configure` applies.

Files:
- `options.dfy`: the `Option` type.
- `themes.dfy`: themes as string maps, the right-biased merge of `setTheme`,
  the system colour scheme, and colour selection.
- `settings.dfy`: `Position`, the configuration record, and its defaults.
- `messages.dfy`: payload values, `QueuedMessage`, the posted frame, and the
  message each public call builds.
- `queue.dfy`: the queue's semantics as pure functions, with the lemmas
  about them.
  - `Attempt` is one loop iteration.
  - `RunUntilPause` is a drain up to its first backoff.
  - `Settle` is a drain carried on across every backoff until the queue is
    empty, with the readiness held fixed.
- `widget.dfy`: the class `Heapchat`, an imperative model of the object.
  - Its fields are the queue, the guard, the readiness flags and the
    configuration.
  - It keeps two ghost logs: `sent` holds the frames handed to
    `postMessage`, in order, and `dropped` holds the messages given up.
  - Each method is proved against the functions of `queue.dfy`.

The `await` of the backoff (src/index.ts:373) is an explicit pause point.
`Drain` returns there with the guard still set, and `ResumeAfterBackoff`
is the continuation the timer later runs. In between, the environment may
call any public method, or run the `load` handler (`LoadListener`). While
the guard is set, those calls only append to the queue. Between calls the
class invariant `Valid()` holds, and it includes "the guard is set exactly
when the queue is not empty".

Readiness of the iframe is the flag `hasWindow && isInitialized`:
- `hasWindow` stands for "the iframe exists and has a content window".
- `isInitialized` becomes true only inside the load handler.

In three places the code behaves differently from what its names suggest;
the model follows the code:
- A message that never gets through is attempted `maxRetries + 1 = 4`
  times, not 3 (src/index.ts:367, 374-378).
- The only cause of failure is "not ready". The post runs inside a
  `setTimeout`, so the `try` never sees its errors (src/index.ts:355-360).
- INIT is appended when `load` fires (src/index.ts:408-409). Messages still
  waiting in the queue when `load` fires, a LOGIN for example, are sent
  before INIT. One whose retries ran out earlier was dropped and is never
  sent.

## Model

| member | source | states |
|---|---|---|
| Messages.Frame | src/index.ts:355-360 | The posted frame has the key `type` plus the payload's keys. Payload values are carried unchanged. `type` holds the message type whenever the payload does not shadow it. |
| Messages.Frames | src/index.ts:355-360 | The frames of a queue, one per message, in queue order. |
| Messages.InitMessage | src/index.ts:409-418 | INIT is new (retries 0, ceiling `MAX_RETRIES`). Its payload has exactly `apiKey`, `supportImage` and `position`, with the key, the image (or `undefined`) and the position as configured. |
| Messages.LoginMessage | src/index.ts:422-429 | LOGIN is new. Its payload is exactly `{userId}`. |
| Messages.LogoutMessage | src/index.ts:431-438 | LOGOUT is new. Its payload is empty. |
| Messages.CustomerDataMessage | src/index.ts:440-447 | CUSTOMER_DATA is new. Its payload is exactly `{data}`, holding the customer object built from the argument. |
| Messages.CustomerDataValue | src/index.ts:443 | The customer object has `name`, `email` and `phone` exactly when each is supplied, with the supplied strings, and no other key. |
| Messages.ThemeMessage | src/index.ts:455-460 | THEME is new. Its payload is `{theme}` holding the argument itself, with exactly its keys and values, not the merged theme. |
| Messages.ThemeValue | src/index.ts:457 | The theme object has exactly the theme's keys, each with its string value. |
| Messages.ThemeModeMessage | src/index.ts:466-471 | THEME_MODE is new. Its payload is `{themeMode}` holding the mode's name. |
| Messages.ThemeModeName | src/index.ts:62 | The three modes map to the three distinct strings `light`, `dark` and `system`. |
| Messages.PresentFields | src/index.ts:13-17 | A customer-data object holds exactly the fields that were supplied, with their values. |
| MessageQueue.Bump | src/index.ts:369 | A retry raises the counter by exactly one and changes nothing else, the posted frame included. |
| MessageQueue.Attempt | src/index.ts:351-379 | One attempt sends exactly when ready. It retries exactly when not ready and retries are left; otherwise it drops. It leaves the queue one shorter, or the same length on a retry. |
| MessageQueue.AttemptDropsOnlyExhausted | src/index.ts:367-378 | A message is dropped only once `retries == maxRetries`. |
| MessageQueue.AttemptKeepsOrder | src/index.ts:363-377 | The other messages keep their relative order and move up by one. A retried head goes to the tail with its counter raised by one. |
| MessageQueue.AttemptKeepsAdmissible | src/index.ts:367-369 | Every queued message keeps ceiling 3, `0 <= retries <= maxRetries`, and no `type` key in its payload. |
| MessageQueue.PotentialConcat | src/index.ts:347-380 | The termination measure of a queue is the sum over its parts. |
| MessageQueue.PotentialAtLeastLength | src/index.ts:347-380 | The measure of a queue whose counters are in bounds is at least its length. |
| MessageQueue.AttemptDecreasesPotential | src/index.ts:347-380 | Every iteration (send, retry or drop) strictly decreases the sum of `maxRetries + 1 - retries` and keeps it non-negative, so the loop terminates without new enqueues. A failed attempt lowers the sum by exactly one. |
| MessageQueue.RunUntilPause | src/index.ts:347-380 | A drain pauses exactly when it stops with messages still queued. |
| MessageQueue.RunReady | src/index.ts:351-363 | With the iframe ready, one drain posts every queued frame in queue order and empties the queue without pausing. |
| MessageQueue.FirstDrainOfNew | src/index.ts:342-388 | A new message in an empty queue is posted at once when ready. Otherwise it is parked with one retry and the drain pauses. |
| MessageQueue.RunNotReady | src/index.ts:351-378 | With the iframe not ready, a drain posts nothing. It drops the exhausted messages at the head, in order. It then either pauses with the first message that has retries left moved, bumped, to the tail, or ends with the queue empty. |
| MessageQueue.Settle | src/index.ts:347-380 | The complete drain, resumed after every backoff, with nothing new enqueued and readiness fixed. It terminates because `Potential` falls on every attempt. Every message ends either sent or dropped, and the attempts number at least the messages and at most the initial measure. |
| MessageQueue.SettleReady | src/index.ts:351-363 | With readiness held, each message is sent exactly once, in enqueue order, nothing is dropped, and there is one attempt per message. |
| MessageQueue.SettleNeverReady | src/index.ts:367-378 | With the iframe never ready, nothing is sent. Every message is dropped, each only once exhausted. The number of attempts equals the initial measure. |
| MessageQueue.AlwaysFailingMessage | src/index.ts:367-378 | A new message that always fails is attempted exactly `MAX_RETRIES + 1 = 4` times and is then dropped with its counter at 3. |
| MessageQueue.SettleConserves | src/index.ts:347-380 | Nothing is lost or duplicated: the frames sent plus the frames of the dropped messages are, as a multiset, the frames of the queue. |
| MessageQueue.RetriedKeepsFrames | src/index.ts:369-370 | Moving a bumped head to the tail keeps the multiset of frames. |
| MessageQueue.SettleByPauses | src/index.ts:347-380 | The complete drain is the first drain up to its pause, followed by the complete drain of what the pause left. |
| MessageQueue.QueuedBeforeLoadPrecedesInit | src/index.ts:406-419 | A message queued before load is parked without being sent or dropped. Once load has made the widget ready, it is sent before INIT. |
| MessageQueue.InitAfterQueued | src/index.ts:406-419 | INIT appended behind a queue, with the widget ready, is sent after every message already queued, in order. |
| Themes.DefaultThemeHasColors | src/index.ts:81-91 | The default theme sets every colour field that colour selection reads. |
| Themes.MergeTheme | src/index.ts:450-453 | The merged theme's keys are the union of both key sets. The update's values win, and every other field is kept. |
| Themes.MergeTwice | src/index.ts:450-453 | Two successive merges equal one merge with the merge of both updates. |
| Themes.MergeIdempotent | src/index.ts:450-453 | Repeating the same update changes nothing. |
| Themes.MergeKeepsColorKeys | src/index.ts:450-453 | A merge never removes a colour field. |
| Themes.SystemScheme | src/index.ts:109-112 | The system scheme is dark exactly in a browser whose media query prefers dark. |
| Themes.SelectColors | src/index.ts:114-123 | All four colours come from the dark fields when the mode is dark, or system with a dark scheme. Otherwise all four come from the light fields. |
| Themes.ExplicitModeIgnoresSystem | src/index.ts:115 | An explicit light or dark mode gives the same colours whatever the system scheme. |
| Themes.SystemModeFollowsScheme | src/index.ts:115 | System mode gives the colours of the explicit mode that matches the scheme. |
| Settings.PositionName | src/index.ts:1-4 | The two positions map to the two distinct enum strings. |
| Settings.PositionOrDefault | src/index.ts:392 | A supplied position is kept; a missing one becomes bottom-right. |
| Settings.ToggleButtonVisible | src/index.ts:394 | The toggle button is visible unless `showToggleButton` is exactly `false`. |
| HeapchatWidget.Heapchat.constructor | src/index.ts:64-99 | The initial state: empty queue, guard clear, not initialised, bottom-right, button visible, the default theme, system mode, empty logs, and the iframe present exactly in a browser. |
| HeapchatWidget.Heapchat.ProcessStep | src/index.ts:347-379 | One loop iteration changes the queue exactly as `Attempt` does. It logs the posted frame when sending and the message when dropping, and it keeps every queued message admissible. |
| HeapchatWidget.Heapchat.Drain | src/index.ts:345-382 | The loop runs until the first backoff or an empty queue. Queue, logs and guard end exactly as `RunUntilPause` of the starting queue says. The guard is cleared only when the queue is empty. |
| HeapchatWidget.Heapchat.ProcessQueue | src/index.ts:342-383 | With a drain suspended, nothing changes, so two drains never overlap. Otherwise the call drains as `RunUntilPause` says, and afterwards the guard is set exactly when the queue is not empty. |
| HeapchatWidget.Heapchat.ResumeAfterBackoff | src/index.ts:373-382 | After the backoff the drain carries on as `RunUntilPause` says. If ready, it posts every waiting frame in order and empties the queue. If not ready, it posts nothing. |
| HeapchatWidget.Heapchat.Enqueue | src/index.ts:385-388 | During a suspended drain the message is only appended at the tail, and the earlier entries are untouched. Otherwise a drain runs on the old queue plus the message. An idle, ready widget posts the message at once. An idle, unready one parks it with one retry. The invariant is kept. |
| HeapchatWidget.Heapchat.LoadListener | src/index.ts:406-419 | The load handler sets `isInitialized` and enqueues INIT, built from the configuration current at that moment, behind whatever is queued. |
| HeapchatWidget.Heapchat.Configure | src/index.ts:390-420 | Stores the key and image as given, the defaulted position and the button visibility. It registers one more load handler exactly in a browser that has an iframe. |
| HeapchatWidget.Heapchat.Login | src/index.ts:422-429 | Enqueues the LOGIN message, as `Enqueue` describes. |
| HeapchatWidget.Heapchat.Logout | src/index.ts:431-438 | Enqueues the LOGOUT message, as `Enqueue` describes. |
| HeapchatWidget.Heapchat.SetCustomerData | src/index.ts:440-447 | Enqueues the CUSTOMER_DATA message, as `Enqueue` describes. |
| HeapchatWidget.Heapchat.SetTheme | src/index.ts:449-461 | The stored theme becomes the merge of the old theme with the argument. The THEME message enqueued carries only the argument. |
| HeapchatWidget.Heapchat.SetThemeMode | src/index.ts:463-472 | Stores the mode and enqueues THEME_MODE. |
| HeapchatWidget.Heapchat.Destroy | src/index.ts:516-531 | In a browser the iframe is gone afterwards. The queue, the guard and the logs are left as they are. |
| HeapchatWidget.Heapchat.CurrentThemeColors | src/index.ts:109-123 | Gives the dark colours of the stored theme when the mode is dark, or when it is system and the browser prefers dark; otherwise the light ones. Every field it reads is guaranteed present. |

## Left out

- DOM construction and styling are not modelled: `init`, `updateStyles`, `updateToggleIcon`, `show`, `hide`, `toggleWidget`, `showToggleButton`, `hideToggleButton`, `updateMobileState`, and the DOM-removal part of `destroy`. They produce CSS strings, SVG markup and event listeners, not queue behaviour. The same goes for the toggle button's display update in `configure` (src/index.ts:401-404).
- The `updateStyles` calls in `setTheme` and `setThemeMode` are left out for the same reason.
- `window.postMessage` and its target origin are not modelled, because they are foreign browser calls. A post is an append to the ghost `sent` log.
- The post is recorded when it is scheduled, not 200 ms later. An iframe destroyed within those 200 ms would swallow a frame that the log still shows.
- Timer timing is not modelled. The 1000 ms backoff is the pause between `Drain` and `ResumeAfterBackoff`, and how long it lasts is not modelled.
- Environment probes (`isBrowser`, `window.innerWidth`, `matchMedia`) are parameters or flags.
- The constructor's singleton trick (src/index.ts:94-99) is not modelled: it relies on JavaScript constructor-return semantics. A constructed object starts in the state `init` leaves behind.
- `console` logging is left out.
- `configure` registers a new `load` listener on every call in a browser whose iframe has not been destroyed. The model counts the registrations in `loadListeners`, and `LoadListener` is one handler run. The model does not enforce that `load` runs each registered handler.
- Payload values are `undefined`, strings or objects only. That covers every payload the public calls build.
- Themes are maps from strings to strings. A theme field passed explicitly as `undefined` is treated as absent, whereas in the source the spread would store `undefined`.
- `setCustomerData` and `setTheme` put a reference to the caller's object into the payload (src/index.ts:443, 457). The spread that builds the frame (src/index.ts:358) reads it only when the 200 ms timer fires, possibly after several retries. A caller who changes that object in the meantime changes the posted frame. The model copies the value at call time, so it does not capture this aliasing.
- A customer field passed explicitly as `undefined` is dropped from the `data` object (`PresentFields`, `CustomerDataValue`). The source would forward that key with the value `undefined`.
- `config.position || BOTTOM_RIGHT` is modelled on an optional enum. An empty-string position outside the type is not considered.
- tsup.config.ts and src/index.d.ts are not part of this model: they are build configuration and a type declaration with no logic.
- HeapchatWidget.Heapchat.Enqueue: states only the state right after the call. The later resumptions are stated by ResumeAfterBackoff and, for a drain carried on to the end with readiness fixed, by the `Settle` lemmas.
