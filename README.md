# Quasar-X dialog helpers, modelled in Dafny

This project models the logic of `XDialogHelpers.js`, the helper module of
the Quasar-X dialog plugin:

- **Boundary reconciler** (`BoundaryReconciler`): the two `ResizeSensor`
  callbacks of the Android fix for bottom-anchored, maximized dialogs. They
  share one piece of state, the inline `style.maxHeight` of the
  `.q-dialog-plugin` element. The inner callback clamps it to the height of
  the `.q-dialog` ancestor or releases it to the sentinel `'100vh'`. The
  outer callback re-clamps or releases it while the content is clipped.
  Each callback is a method of the class `DialogPlugin`, specified by a pure
  rule (`InnerRule`, `OuterRule`). Lemmas prove each rule's cases, that
  each rule is idempotent, that any clamp equals the current outer height,
  and that any burst of notifications settles for good once each sensor has
  fired with stable measurements (`NoOscillation`). The two rules commute
  (`RulesCommute`), so the value committed does not depend on the order in
  which the notifications arrive or interleave (`OrderIndependent`).
- **Context gate** (`ContextGate`): the body classes `mobile`,
  `platform-android` and `q-body--dialog`, plus `position === 'bottom'`
  and `maximized === true` in the dialog options.
- **Navbar probe** (`NavbarProbe`): appends a `100vh` control element to
  the body, subtracts `window.innerHeight` from its height and removes it
  again. The body is a sequence of element objects, so the method can
  state that the body's children are the same as on entry.
- **Arming** (`NavbarFix`): the sensors are installed only when the content
  element exists, the gate passes and the probe measures a positive height.
  Otherwise nothing is installed and nothing changes.
- **Small helpers**: the `dialogId` counter (`DialogIds.DialogIdCounter`),
  `wrap` with an inverse reader (`DialogIds.Unwrap`), and
  `setButtonDefaults` (`ButtonDefaults`). The latter is a loop over the
  button defaults that rewrites `defaults` in place (a `JsObject`) and
  builds the button options.

DOM measurements (`clientHeight`, `scrollHeight`, `window.innerHeight`) are
parameters. JavaScript values are the datatype `JsValues.Value`.

Three behaviours of the code are easy to misread; the model follows the code:

- The sentinel `'100vh'` is a constant in the code. The comments at
  XDialogHelpers.js:159-160 speak of it as the element's original value,
  but it is not read from the element before the first write. An element
  whose inline max-height starts as anything else, the empty string
  included, counts as clamped. So the
  inner callback may write `'100vh'`, and the outer callback may act, before
  any clamp was ever applied. `DialogPlugin` takes the initial inline value
  as a constructor argument.
- The probe may return zero or a negative number. The caller arms the
  sensors only for a positive height.
- The code never uninstalls the sensors. The model has no teardown either.

## Model

| member | source | states |
|---|---|---|
| `BoundaryReconciler.InnerRule` | quasar-x/ui/src/x/dialog/XDialogHelpers.js:140-155 | the inner rule yields the old max-height, the sentinel, or a clamp at exactly the outer height; it changes nothing when the heights are equal |
| `BoundaryReconciler.OuterRule` | quasar-x/ui/src/x/dialog/XDialogHelpers.js:158-176 | the outer rule yields the old value, the sentinel, or a clamp at exactly the outer height; it never acts under the sentinel |
| `BoundaryReconciler.InnerClamps` | quasar-x/ui/src/x/dialog/XDialogHelpers.js:142-144 | an inner box taller than the outer box gets max-height = outer height in px, whatever it was before |
| `BoundaryReconciler.InnerReleases` | quasar-x/ui/src/x/dialog/XDialogHelpers.js:148-154 | a shorter inner box gets the sentinel back; equal heights, or the sentinel already in place, change nothing |
| `BoundaryReconciler.OuterIdle` | quasar-x/ui/src/x/dialog/XDialogHelpers.js:161-163 | the outer callback changes nothing under the sentinel or when `scrollHeight <= clientHeight` |
| `BoundaryReconciler.OuterActs` | quasar-x/ui/src/x/dialog/XDialogHelpers.js:164-175 | when it acts, the outer callback clamps to the outer height if `scrollHeight` exceeds it, and otherwise restores the sentinel |
| `BoundaryReconciler.RulesIdempotent` | quasar-x/ui/src/x/dialog/XDialogHelpers.js:140-176 | a second application of either callback with unchanged heights changes nothing |
| `BoundaryReconciler.Run` | quasar-x/ui/src/x/dialog/XDialogHelpers.js:140-176 | after any burst of notifications, the max-height is the starting value, the sentinel, or a clamp at exactly the outer height, never less |
| `BoundaryReconciler.OuterKeepsInnerSettled` | quasar-x/ui/src/x/dialog/XDialogHelpers.js:158-176 | the outer callback never moves a value that is a fixed point of the inner callback off that fixed point |
| `BoundaryReconciler.InnerKeepsOuterSettled` | quasar-x/ui/src/x/dialog/XDialogHelpers.js:140-155 | the inner callback never moves a value that is a fixed point of the outer callback off that fixed point |
| `BoundaryReconciler.RunKeepsSettled` | quasar-x/ui/src/x/dialog/XDialogHelpers.js:140-176 | a fixed point of either callback stays one through any burst of notifications |
| `BoundaryReconciler.InnerAfterInner` | quasar-x/ui/src/x/dialog/XDialogHelpers.js:140-155 | once the inner sensor has fired with stable heights, the value is a fixed point of the inner callback |
| `BoundaryReconciler.OuterAfterOuter` | quasar-x/ui/src/x/dialog/XDialogHelpers.js:158-176 | once the outer sensor has fired with stable heights, the value is a fixed point of the outer callback |
| `BoundaryReconciler.RunSettles` | quasar-x/ui/src/x/dialog/XDialogHelpers.js:140-176 | once each sensor has fired at least once with stable heights, the max-height is a fixed point of both callbacks |
| `BoundaryReconciler.SettledRunIdle` | quasar-x/ui/src/x/dialog/XDialogHelpers.js:140-176 | a fixed point of both callbacks is kept by every later burst |
| `BoundaryReconciler.RunAppend` | quasar-x/ui/src/x/dialog/XDialogHelpers.js:140-176 | notifications compose: a burst `a + b` acts as `a` followed by `b` |
| `BoundaryReconciler.NoOscillation` | quasar-x/ui/src/x/dialog/XDialogHelpers.js:140-176 | with stable heights, no notification after one of each kind changes the max-height, in any order |
| `BoundaryReconciler.RulesCommute` | quasar-x/ui/src/x/dialog/XDialogHelpers.js:140-176 | with the same heights, inner-then-outer and outer-then-inner commit the same max-height |
| `BoundaryReconciler.RunOnlyInner` | quasar-x/ui/src/x/dialog/XDialogHelpers.js:140-155 | a burst of inner notifications alone acts as one inner notification |
| `BoundaryReconciler.RunOnlyOuter` | quasar-x/ui/src/x/dialog/XDialogHelpers.js:158-176 | a burst of outer notifications alone acts as one outer notification |
| `BoundaryReconciler.RunBothKinds` | quasar-x/ui/src/x/dialog/XDialogHelpers.js:140-176 | any burst holding both kinds of notification, in any order or interleaving, commits the inner rule followed by the outer rule |
| `BoundaryReconciler.OrderIndependent` | quasar-x/ui/src/x/dialog/XDialogHelpers.js:140-176 | two bursts that each hold both kinds of notification commit the same max-height, whatever their order |
| `BoundaryReconciler.ClampScenario` | quasar-x/ui/src/x/dialog/XDialogHelpers.js:142-144 | outer 600, inner 800, nothing set: clamped to 600 px |
| `BoundaryReconciler.ReleaseScenario` | quasar-x/ui/src/x/dialog/XDialogHelpers.js:148-152 | clamped to 600 px, inner shrinks to 500: the sentinel is restored |
| `BoundaryReconciler.DialogPlugin.constructor` | quasar-x/ui/src/x/dialog/XDialogHelpers.js:137 | the shared state starts as whatever inline max-height the element has |
| `BoundaryReconciler.DialogPlugin.OnInnerResize` | quasar-x/ui/src/x/dialog/XDialogHelpers.js:140-155 | the inner callback sets max-height to the inner rule of its old value, and changes no other field |
| `BoundaryReconciler.DialogPlugin.OnOuterResize` | quasar-x/ui/src/x/dialog/XDialogHelpers.js:158-176 | the outer callback sets max-height to the outer rule of its old value, and changes no other field |
| `ContextGate.IsRightContext` | quasar-x/ui/src/x/dialog/XDialogHelpers.js:123-127 | the gate holds exactly when all three body classes are present and the options object has own `position` equal to `'bottom'` and `maximized` equal to `true` |
| `ContextGate.NotAndroidNeverPasses` | quasar-x/ui/src/x/dialog/XDialogHelpers.js:124 | without `platform-android` the gate fails whatever the other inputs |
| `ContextGate.MaximizedIsStrict` | quasar-x/ui/src/x/dialog/XDialogHelpers.js:127 | any `maximized` other than the boolean `true` fails the gate |
| `NavbarProbe.Element.constructor` | quasar-x/ui/src/x/dialog/XDialogHelpers.js:80-82 | a created element carries the given id and no inline style |
| `NavbarProbe.Document.constructor` | quasar-x/ui/src/x/dialog/XDialogHelpers.js:87 | the document holds the given body children and body classes |
| `NavbarProbe.NavbarHeight` | quasar-x/ui/src/x/dialog/XDialogHelpers.js:89-91 | the navbar height is positive exactly when the control is taller than the window, and zero exactly when they are equal |
| `NavbarProbe.ProbeScenario` | quasar-x/ui/src/x/dialog/XDialogHelpers.js:89-91 | a 690 px control in a 640 px window gives 50 |
| `NavbarProbe.Without` | quasar-x/ui/src/x/dialog/XDialogHelpers.js:93 | `remove()` takes the element out of the body and keeps every other child |
| `NavbarProbe.RemoveAppended` | quasar-x/ui/src/x/dialog/XDialogHelpers.js:87-93 | removing a freshly appended element gives back the children as they were |
| `NavbarProbe.GetAndroidNavbarHeight` | quasar-x/ui/src/x/dialog/XDialogHelpers.js:78-96 | the probe returns control height minus window inner height, and leaves the body's child list as on entry |
| `NavbarFix.ArmingFor` | quasar-x/ui/src/x/dialog/XDialogHelpers.js:115-135 | the sensors are armed exactly when the content exists, the gate holds and the navbar height is positive; each other outcome is characterised exactly: a missing content element (the warning case), a failed gate, or a navbar of at most 0 |
| `NavbarFix.ArmedOnlyInContext` | quasar-x/ui/src/x/dialog/XDialogHelpers.js:117-135 | arming implies the three body classes, `position === 'bottom'`, `maximized === true` and a navbar of at least 1 px |
| `NavbarFix.FixNavbarOverflow` | quasar-x/ui/src/x/dialog/XDialogHelpers.js:113-182 | installs exactly the inner and the outer sensor when armed and no sensor otherwise, and leaves the body's children unchanged in every case |
| `NavbarFix.SensorRegistry.constructor` | quasar-x/ui/src/x/dialog/XDialogHelpers.js:140 | before the fix runs, no resize sensor is installed |
| `NavbarFix.Notify` | quasar-x/ui/src/x/dialog/XDialogHelpers.js:140-176 | a fired sensor runs its own callback: the inner rule for the plugin element, the outer rule for its ancestor |
| `DialogIds.IssuedIncreasing` | quasar-x/ui/src/x/dialog/XDialogHelpers.js:6-10 | the ids issued by n calls are 1..n, strictly increasing, hence never repeated |
| `DialogIds.DialogIdCounter.constructor` | quasar-x/ui/src/x/dialog/XDialogHelpers.js:6 | the counter starts at 1 with nothing issued |
| `DialogIds.DialogIdCounter.DialogId` | quasar-x/ui/src/x/dialog/XDialogHelpers.js:8-10 | each call returns the counter and advances it by one; the id exceeds every id issued before |
| `DialogIds.LoadId` | quasar-x/ui/src/x/dialog/XDialogHelpers.js:22 | the placeholder id extends the dialog id by the 6-character load suffix |
| `DialogIds.Wrap` | quasar-x/ui/src/x/dialog/XDialogHelpers.js:21-23 | the placeholder is the opening tag, the message and the closing tag, in that length |
| `DialogIds.Unwrap` | quasar-x/ui/src/x/dialog/XDialogHelpers.js:21-23 | a message read back from a placeholder is its text between the tags |
| `DialogIds.UnwrapWrap` | quasar-x/ui/src/x/dialog/XDialogHelpers.js:21-23 | reading back a placeholder yields the message it wraps |
| `DialogIds.WrapUnwrap` | quasar-x/ui/src/x/dialog/XDialogHelpers.js:21-23 | anything that reads back as a placeholder for the id is `wrap` of the message read |
| `DialogIds.WrapDefaultMessage` | quasar-x/ui/src/x/dialog/XDialogHelpers.js:21 | with the message omitted, the placeholder is an empty `div` 23 characters longer than the id |
| `JsValues.IsObject` | quasar-x/ui/src/x/utils/is.js:1-3 | `isObject` holds exactly for non-null, non-array objects, which are all truthy |
| `JsValues.Get` | quasar-x/ui/src/x/dialog/XDialogHelpers.js:47 | reading `.name` throws exactly for `null` and `undefined`; otherwise it gives the own property, or `undefined` when there is none |
| `ButtonDefaults.JsObject.constructor` | quasar-x/ui/src/x/dialog/XDialogHelpers.js:25 | an object holds the given properties |
| `ButtonDefaults.EnabledByDefault` | quasar-x/ui/src/x/dialog/XDialogHelpers.js:29 | `btnEnabledByDefault` is the key's presence with a truthy value; the `isObject` disjunct adds nothing |
| `ButtonDefaults.OptionsSeen` | quasar-x/ui/src/x/dialog/XDialogHelpers.js:34-46 | the options the loop reads are `options` itself, or, when `options` is `defaults`, each entry as step (1) has rewritten it |
| `ButtonDefaults.PartlyUpdated` | quasar-x/ui/src/x/dialog/XDialogHelpers.js:29-32 | partway through the loop, `defaults` still has exactly its original keys |
| `ButtonDefaults.UpdatedDefaults` | quasar-x/ui/src/x/dialog/XDialogHelpers.js:29-32 | keys unchanged; an entry changes only if its key is in both maps and its value was truthy, and then becomes the button default; every such entry does |
| `ButtonDefaults.ButtonContribution` | quasar-x/ui/src/x/dialog/XDialogHelpers.js:34-49 | `true` selects the default; an object option is merged over the default with the option winning, except `name`, which is forced back to the default's; it throws exactly for a nullish default with a `name` option; anything else contributes nothing |
| `ButtonDefaults.ButtonOptions` | quasar-x/ui/src/x/dialog/XDialogHelpers.js:25-52 | fails exactly when some button would read the name of a nullish default; on success the keys are among both maps' keys, `true` yields the default, every entry is its button's `ButtonContribution` (the merge with the option winning), a supplied `name` is the default's, and nothing else contributes |
| `ButtonDefaults.UpdateStep` | quasar-x/ui/src/x/dialog/XDialogHelpers.js:29-32 | one iteration rewrites at most its own key of `defaults` |
| `ButtonDefaults.SeenAt` | quasar-x/ui/src/x/dialog/XDialogHelpers.js:29-34 | after its own step (1), an iteration sees its key's final `defaults` entry |
| `ButtonDefaults.EntriesStep` | quasar-x/ui/src/x/dialog/XDialogHelpers.js:34-49 | one iteration adds at most its own key to `btnOptions` |
| `ButtonDefaults.ThrowsAt` | quasar-x/ui/src/x/dialog/XDialogHelpers.js:46-47 | one throwing button makes the whole call fail |
| `ButtonDefaults.NoneThrows` | quasar-x/ui/src/x/dialog/XDialogHelpers.js:25-52 | when no button throws, the call returns the entries of all buttons |
| `ButtonDefaults.SetButtonDefaults` | quasar-x/ui/src/x/dialog/XDialogHelpers.js:25-52 | returns `ButtonOptions` of the options as read (rewritten first when `options` is `defaults`); leaves `defaults` as `UpdatedDefaults` on success, each entry old or updated on a throw; never changes a distinct `options` |

## Left out

- `xDialog`, which creates and mounts the Vue component and bridges reactive properties. It is framework plumbing.
- `redirectFn`, which navigates through the Vue router, a foreign API.
- `parseOptions` (relies on `JSON.parse`), `payloadFn` (forwards to `extractData`, which is not part of this model) and `remove` (a DOM lookup by id).
- `ResizeSensor` itself and when it schedules its callbacks. Heights are parameters of each callback. The effect of a new max-height on the measured `clientHeight` is not modelled; `NoOscillation` assumes the heights have stabilised.
- The `getElementById(loadId)` and `closest(...)` lookups. `FixNavbarOverflow` receives the `.q-dialog-plugin` element, or null when the content is missing. A null result of `closest`, which would make the code throw, is not modelled.
- `log` and `warn` output. The outcome `ContentMissing` stands for the warning.
- `FixNavbarOverflow`: the probe is handed an arbitrary `probeName`. The code passes the module function `dialogId`, not `loadId`, both to the probe and to the warning text. No result depends on that string.
- `DialogIds.Wrap`: takes the dialog id and the message as the text the template literal renders. Rendering any other value to text (a number, or `null` as "null") is not modelled.
- `DialogIds.DialogIdCounter.DialogId`: counts with unbounded integers. The loss of precision of JavaScript numbers past 2^53 is not modelled.
- `ButtonDefaults.ButtonContribution`: `extend` is not part of this model. It is assumed to be a shallow merge in which later sources win and a non-object source adds no properties. An array button default is treated as adding no properties either; in JavaScript an array is an object and a shallow `extend` would copy its index keys, which is not modelled.
- `ButtonDefaults.SetButtonDefaults`: the loop visits the keys of `btnDefaults` in an arbitrary order, not JavaScript's `for...in` order. So after a throw the contract only says that each `defaults` entry is either the old or the updated one; the code rewrites exactly the keys enumerated up to and including the throwing one.
- `ButtonDefaults.SetButtonDefaults`: `defaults` and `options` are assumed to be objects. When either is `null`, `undefined` or a primitive and `btnDefaults` has a key, the `in` test throws a `TypeError`; that error path is not modelled.
- `ButtonDefaults.SetButtonDefaults`: `in` and `for...in` see own properties only. Inherited properties and function values are not modelled. The call's behaviour when `btnDefaults` is the same object as `defaults` is not modelled separately; there it is the same, since step (1) writes back the value it reads.
- `JsValues.Truthy`: numbers are integers. Fractional numbers and `NaN` (which is falsy) are not modelled.
- The other predicates of `is.js` (`isFunction`, `isEmpty`, `isPromise`, `isAsync`, `isArray`, `isString`) are JavaScript type reflection with no logic of their own. Only `isObject` is used here.
