# React toast notifications, modelled in Dafny

This project models the core of a small React notification ("toast") package.
An application wraps itself in a **provider**. The provider owns the list of
active notifications and offers these operations:

- `addNotification` (create, returning the new id);
- `removeNotification`;
- `updateNotification` (a shallow merge of a patch);
- `clearAll`;
- the typed shorthands `success`, `error`, `warning`, `violation` and `info`;
- `promise`, which shows a persistent loading toast while an operation is
  pending and then turns that same toast into a success or an error toast.

A **container** groups the active notifications into one stack per screen
position and anchors each stack at one of six corners or centres. Each
**card** (`Notification`) has its own lifecycle: visible → exiting → removed.
An auto-close timer drives it, a progress interval ticks while it is open,
and a 250 ms exit animation runs before the card calls `onClose(id)`.

Files:

- `Records.dfy`: the values that are passed around. These are the record, the
  creation options and the update patch, plus the bits of JavaScript semantics
  the code relies on: falsy strings, undefined versus null, and the property
  names every object literal inherits.
- `Provider.dfy` (module `NotificationProvider`): each state update of the
  provider as a pure function on the list, with lemmas about it. The class
  `Provider` holds the list and applies those functions.
- `Container.dfy` (module `NotificationContainer`): the grouping loop as a
  method. It is proved equal to the specification functions `Bucket` and
  `KeyOrder`, whose properties are proved as lemmas. The file also holds the
  anchor-style lookup.
- `Card.dfy` (module `Notification`): the card as a class with one boolean or
  clock field per piece of state. Props defaults, the theme lookup and the
  remaining-time computation are functions.
- `Lifecycle.dfy`: whole scenarios with the provider and a card wired together.
  These are auto-dismissal, a manual close racing the timer, and the promise
  helper.

Time, randomness and the awaited promise are parameters:

- The clock is an integer that `Card.Advance` moves forward.
- Each timer callback is a method that may run once its deadline has passed.
- The generated id (`crypto.randomUUID()` or `Date.now() + Math.random()`) is
  the `freshId` argument of the creation methods. Their precondition is that no
  active record carries that id.
- The outcome of the awaited promise is a `Settled<V>` value.

## Model

| member | source | states |
|---|---|---|
| NotificationProvider.MakeRecord | src/NotificationProvider.jsx:19-28 | A falsy type, message or position takes its default ("info", "Notification", the provider's position). Only an absent duration takes the provider default, so an explicit null stays persistent. The close control is shown unless it is explicitly `false`. Absent styles become an empty style object. |
| NotificationProvider.AddTo | src/NotificationProvider.jsx:30-36 | After one creation the list has `min(old length + 1, max)` records (none when `max <= 0`). It is a suffix of the old list plus the new record, so the oldest records are dropped first. The new record is always the last one kept, and nothing is dropped while the list is under the bound. |
| NotificationProvider.AddAllKeepsNewest | src/NotificationProvider.jsx:30-36 | After any run of creations, the list is the newest `max` records of everything created. |
| NotificationProvider.AddPreservesUnique | src/NotificationProvider.jsx:30-36 | Creating a record whose id no active record carries keeps all ids distinct. |
| NotificationProvider.AddToFreshId | src/NotificationProvider.jsx:30-36 | After creating with a fresh id, that id is on the last record and on no other. |
| NotificationProvider.Remove | src/NotificationProvider.jsx:43-45 | Removal leaves no record with that id and never lengthens the list. Removing an id that no record carries changes nothing. |
| NotificationProvider.RemoveMembers | src/NotificationProvider.jsx:44 | A record survives removal if and only if it was in the list and carries another id. |
| NotificationProvider.RemoveAppend | src/NotificationProvider.jsx:44 | The filter distributes over concatenation, so the survivors keep their relative order. |
| NotificationProvider.RemovePreservesUnique | src/NotificationProvider.jsx:44 | Removal keeps distinct ids distinct. |
| NotificationProvider.RemoveKeepsFresh | src/NotificationProvider.jsx:44 | Removal never brings in an id that the list did not carry. |
| NotificationProvider.RemoveIdempotent | src/NotificationProvider.jsx:44 | Removing the same id twice is the same as removing it once. |
| NotificationProvider.RemoveUnique | src/NotificationProvider.jsx:44 | When ids are distinct, removing the id of the record at `i` takes out exactly that record. |
| NotificationProvider.Update | src/NotificationProvider.jsx:47-51 | An update keeps the length and the order. Records with another id are unchanged. Every record with the id gets the patch's properties over its own, field by field. An absent id changes nothing. |
| NotificationProvider.MergeIdempotent | src/NotificationProvider.jsx:49 | Spreading the same patch twice over a record is the same as spreading it once. |
| NotificationProvider.UpdateIdempotent | src/NotificationProvider.jsx:47-51 | Updating twice with the same patch is the same as updating once, even when the patch changes the id. |
| NotificationProvider.UpdatePreservesUnique | src/NotificationProvider.jsx:47-51 | A patch without an `id` keeps distinct ids distinct. |
| NotificationProvider.UpdateLast | src/NotificationProvider.jsx:47-51 | Updating the id that only the last record carries changes only that record, which becomes the merged record. |
| NotificationProvider.RemoveAfterUpdate | src/NotificationProvider.jsx:43-51 | Updating a record with a patch that keeps its id, then removing the id, is the same as removing it. |
| NotificationProvider.ShorthandOptions | src/NotificationProvider.jsx:96-100 | A shorthand forces the type to its own name and the message to its argument. Every other option passes through unchanged. |
| NotificationProvider.ShorthandRecord | src/NotificationProvider.jsx:96-100 | A shorthand record has the shorthand's type whatever the options say, and the message falls back to "Notification". Otherwise it is the record that creation with the same options builds. |
| NotificationProvider.LoadingRecord | src/NotificationProvider.jsx:56-62 | The loading record is a persistent info record with no close control. Its message falls back to "Loading...", and it keeps the caller's position and styles. |
| NotificationProvider.SettlePatch | src/NotificationProvider.jsx:64-81 | On resolve, the patch is success with the message falling back to "Success", 2500 ms and closable. On reject, it is error with message `msgs.error`, then the error's message, then "Failed", 5000 ms and closable. It never touches the id, styles or position. |
| NotificationProvider.PromiseLifecycle | src/NotificationProvider.jsx:54-84 | Create-then-settle with a fresh id leaves the list as creation left it, except the last record. That record is the loading record merged with the outcome patch. It keeps its id and position, has the outcome's type and is closable. |
| NotificationProvider.Provider.constructor | src/NotificationProvider.jsx:5-11 | A provider starts with the given configuration and no notifications. |
| NotificationProvider.Provider.AddNotification | src/NotificationProvider.jsx:13-41 | Creation returns the new id and replaces the list by `AddTo` of the built record. It keeps the list within the bound and keeps ids distinct. |
| NotificationProvider.Provider.RemoveNotification | src/NotificationProvider.jsx:43-45 | The list becomes `Remove` of the old list, and ids stay distinct. |
| NotificationProvider.Provider.UpdateNotification | src/NotificationProvider.jsx:47-51 | The list becomes `Update` of the old list. Ids stay distinct when the patch has no `id`. |
| NotificationProvider.Provider.ClearAll | src/NotificationProvider.jsx:86 | The list becomes empty. |
| NotificationProvider.Provider.Shorthand | src/NotificationProvider.jsx:96-100 | A shorthand is a creation with the shorthand's options, and it returns the new id. |
| NotificationProvider.Provider.PromiseBegin | src/NotificationProvider.jsx:54-62 | Before the await, the helper creates the loading record and captures its id. |
| NotificationProvider.Provider.PromiseSettle | src/NotificationProvider.jsx:64-81 | After the await, the record with the captured id is patched with the outcome (a no-op if that record is gone), and ids stay distinct. The outcome is passed on unchanged. |
| NotificationContainer.Group | src/NotificationContainer.jsx:14-22 | The loop builds exactly one stack per key, in first-appearance key order. Each stack is `Bucket` of the list. |
| NotificationContainer.BucketNonEmpty | src/NotificationContainer.jsx:18 | A stack exists if and only if it holds at least one record, so no stack is created empty. |
| NotificationContainer.KeyOrderMembers | src/NotificationContainer.jsx:16-19 | A key has a stack if and only if some record's position (or the default) is that key. |
| NotificationContainer.KeyOrderDistinct | src/NotificationContainer.jsx:18 | No key is listed twice. |
| NotificationContainer.BucketMembers | src/NotificationContainer.jsx:16-19 | A stack holds exactly the records that go to its key. |
| NotificationContainer.BucketSizesSum | src/NotificationContainer.jsx:14-22 | The stack sizes add up to the list's length, so every record is in exactly one stack. |
| NotificationContainer.BucketRank | src/NotificationContainer.jsx:19 | The record at index `j` sits in its stack at the number of earlier records with the same key. |
| NotificationContainer.BucketKeepsOrder | src/NotificationContainer.jsx:16-19 | Within a stack, records keep their relative order from the list. |
| NotificationContainer.KeyOrderAtFirst | src/NotificationContainer.jsx:18 | The first record for a key creates that key's entry in the key order. |
| NotificationContainer.KeyOrderFirstAppearance | src/NotificationContainer.jsx:14-26 | Stacks are enumerated in the order in which their first records appear. |
| NotificationContainer.GroupAsWritten | src/NotificationContainer.jsx:14-22 | The literal loop throws if and only if some record's key is a name that plain objects inherit. Otherwise it gives the same stacks and the same order as `Group`: one stack per listed key, each equal to `Bucket`. Every stack that survives the loop gets its anchor style from the literal lookup at line 37. |
| NotificationContainer.ConstructorPositionCrashes | src/NotificationContainer.jsx:17-19 | As written, a single notification at position "constructor" makes grouping throw. |
| NotificationContainer.PositionStyle | src/NotificationContainer.jsx:37 | A stack is anchored at the position its key names, or at top-right otherwise. |
| NotificationContainer.PositionStyleOfName | src/NotificationContainer.jsx:4-11 | Each of the six named positions has its own anchor. |
| NotificationContainer.UnknownPositionIsTopRight | src/NotificationContainer.jsx:37 | A key that names no anchor falls back to top-right. |
| NotificationContainer.PositionStyleAsWritten | src/NotificationContainer.jsx:37 | The literal lookup finds no anchor if and only if the key is an inherited name. Otherwise it agrees with `PositionStyle`. |
| NotificationContainer.CorrectedGroupExposesUnstyled | src/NotificationContainer.jsx:37 | With the grouping loop corrected, a notification at "toString" gets its own stack, and the literal lookup gives that stack no anchor. |
| NotificationContainer.InheritedPositionUnstyled | src/NotificationContainer.jsx:37 | "toString" gets no anchor as written, although the evident fallback is top-right. |
| Notification.PropsOfRecord | dist/Notification.jsx:6-14 | The props defaults apply only to undefined props, so a record's type, duration (including null) and close control reach the card unchanged. |
| Notification.Theme | dist/Notification.jsx:54 | A card's theme is the one its type names, or info otherwise. |
| Notification.ThemeOfName | dist/Notification.jsx:46-54 | Each of the five types has its own theme. |
| Notification.UnknownKindIsInfo | dist/Notification.jsx:54 | A type that names no theme falls back to info. |
| Notification.ThemeAsWritten | dist/Notification.jsx:54 | The literal lookup finds no theme if and only if the type is an inherited name. Otherwise it agrees with `Theme`. |
| Notification.InheritedKindUnthemed | dist/Notification.jsx:54 | Type "constructor" gets no theme as written, although the evident fallback is info. |
| Notification.Remaining | dist/Notification.jsx:30-34 | The time left is never negative, and it is zero exactly when the deadline has passed. While positive, it plus the elapsed time is the duration. Once the effect has started, it never exceeds the duration. |
| Notification.Card.Render | dist/Notification.jsx:54-112 | The card shows its theme. The close button is shown if and only if `showClose` is set, the progress bar if and only if the duration is not null, and the exit animation if and only if the card is exiting. |
| Notification.Card.Mount | dist/Notification.jsx:14-38 | A mounted card is visible and not exiting. Unless its duration is null, the auto-close timer and the interval start with a deadline of mount time plus duration. |
| Notification.Card.IntervalFire | dist/Notification.jsx:33-36 | The interval stores `Remaining` of the running effect and changes nothing else. |
| Notification.Card.HandleClose | dist/Notification.jsx:19-24 | Closing sets the card exiting and schedules one exit timeout 250 ms from now. Every close does this again. |
| Notification.Card.Click | dist/Notification.jsx:81-83 | A click on the close button, which exists only when `showClose` is set, runs the close handler. |
| Notification.Card.AutoCloseFire | dist/Notification.jsx:38 | The timer fires once the duration has elapsed since the effect started. It runs the close handler and is then spent. |
| Notification.Card.ExitFire | dist/Notification.jsx:21-23 | A due exit timeout calls `onClose` with the card's own id, even after the card has been unmounted. |
| Notification.Card.RestartEffect | dist/Notification.jsx:27-44 | The effect's cleanup cancels the timer and the interval. Its rerun restarts both from now, unless the new duration is null. |
| Notification.Card.Rerender | dist/Notification.jsx:44 | New props replace type and close control. The effect restarts only when the duration changed. |
| Notification.Card.Unmount | dist/Notification.jsx:40-43 | Unmounting cancels the auto-close timer and the interval but keeps the pending exit timeouts. |
| Lifecycle.AutoDismiss | src/NotificationProvider.jsx:110-114 | A 1000 ms toast, left alone, is removed from the provider's list once its timer and exit delay have run. |
| Lifecycle.ManualCloseRacesTimer | dist/Notification.jsx:19-44 | A click shortly before the timer expires leads to two `onClose` calls with the card's id. The second comes after unmount. |
| Lifecycle.ClickThenTimer | dist/Notification.jsx:19-38 | A click at 900 ms and the timer at 1000 ms each run the close handler, so two exit timeouts are pending and `onClose` has not been called yet. |
| Lifecycle.CloseRacesTimer | src/NotificationProvider.jsx:43-45 | With the provider attached, the double `onClose` is harmless: the second removal changes nothing, and the other toast is untouched. |
| Lifecycle.PromiseResolves | src/NotificationProvider.jsx:54-72 | The loading card is persistent and has no close button. Once the promise resolves, the same card shows success, gets a close button and a progress bar, and auto-closes 2500 ms after the update. The promise's value is returned. |

## Left out

- Rendering (JSX, inline CSS, the colour values and the layout of each theme and anchor), React memoisation (`useCallback`, `useMemo`) and the context object: they only present or cache the state that the model holds.
- Id generation: the random UUID or the `Date.now() + Math.random()` string is the `freshId` parameter. The model assumes it is new, which the source relies on but cannot guarantee.
- Real timers and the 50 ms interval cadence: time is an integer clock, and each callback is an explicit event. How many ticks happened in between is not tracked.
- The progress percentage `(remaining / duration) * 100`: it is floating point, and it divides by zero for a zero duration. Only `Remaining` is modelled.
- Cancelling the exit timeouts on unmount: the cleanup at dist/Notification.jsx:40-43 clears only the auto-close timer and the interval, so a pending exit timeout still calls `onClose` after unmount. The model follows the code.
- A `showClose` of null, a patch key that is present with the value undefined, and null `msgs` or `options` objects: these are not modelled.
- JavaScript falsy values other than undefined, null and "" for the string options: the options are typed as strings.
- The order of `Object.entries` for integer-like position keys, which JavaScript enumerates before the others: `KeyOrder` is insertion order.
- dist/NotificationContainer.jsx (the older container that keys every stack by one shared position) and src/NotificationContext.jsx are not part of this model.
- A non-integer `maxNotifications`: the bound is an integer.

## Findings

| source | as written | input that shows it | evidently intended | confidence | as-written member | corrected member |
|---|---|---|---|---|---|---|
| src/NotificationContainer.jsx:15-19 | `map` is an object literal, so `map[key]` for an inherited name such as "constructor" or "toString" is a function. No stack is created, and `map[key].push(n)` throws a TypeError that breaks rendering. | one notification with `position: "constructor"` | every key, whatever its name, gets its own stack | high; follows from JavaScript property lookup, not executed | NotificationContainer.GroupAsWritten, NotificationContainer.ConstructorPositionCrashes | NotificationContainer.Group |
| src/NotificationContainer.jsx:37 | A latent defect. `POS_STYLES[position]` for an inherited name is a function, which is truthy, so the top-right fallback is skipped and the stack gets no anchor styles. As written, the throw at lines 18-19 masks it, because no stack with such a key survives the loop (`GroupAsWritten`). It shows as soon as that loop is corrected. | a notification at position "toString", with the grouping loop corrected | any unknown position is anchored at top-right | medium; latent while the grouping crash stands, not executed | NotificationContainer.PositionStyleAsWritten, NotificationContainer.CorrectedGroupExposesUnstyled | NotificationContainer.PositionStyle |
| dist/Notification.jsx:54 | `stylesByType[type]` for an inherited name is a function, which is truthy, so the info fallback is skipped and `theme.bg`, `theme.text` and `theme.border` are undefined. | a notification with `type: "constructor"` | any unknown type gets the info theme | high; follows from JavaScript property lookup, not executed | Notification.ThemeAsWritten, Notification.InheritedKindUnthemed | Notification.Theme |
