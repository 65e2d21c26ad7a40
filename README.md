# FloatLabelEditText, modelled in Dafny

FloatLabelEditText is an Android control. It combines an edit field with a hint label that "floats" above the field once text is entered. This project models the two small state machines at its core and the control operations that drive them:

- **The floating-label visibility controller.** Every text watcher registered on the field reacts to a text change by reading only the new length. If text appears while the label is invisible, it shows the label and requests a slide-from-bottom animation. If the text empties while the label is visible, it hides the label and requests a slide-to-bottom animation. Otherwise it does nothing. At first setup a label over non-empty initial text is shown without any animation.
- **The focus colour animator.** Each focus listener keeps two animator handles. Both are null until first needed, then built once and reused. Gaining focus starts the animator from the unfocused colour to the focused colour. Losing focus starts the reverse. Every start uses duration 700.
- **The control.** `getText`, `setText`, `setHint`, and the setup of the edit field and of the label.

Layout:

- `options.dfy`: `Option`, which stands in for a nullable reference.
- `label_visibility.dfy` (module `LabelVisibility`): the watcher's decision as a pure function. It also covers `k` identical watchers reacting to one change, and runs of text changes.
- `focus_animation.dfy` (module `FocusAnimation`): animators as records `(id, from, to)`, the memo of one listener, one focus change as a pure function, and runs of focus changes. It also holds the class `FocusListener`, whose lazily filled fields are the listener's two handles.
- `float_label.dfy` (module `FloatLabel`): the class `FloatLabelEditText`. Its fields are the configured values, the stored hint, the edit field's state (text, placeholder, number of registered watchers, installed focus listener) and the label's state (text, visibility). It also has two logs: the requested slides, and every colour-animator start, together with a count of the animators constructed, which also serves as the identity of the next one. Its methods are proved against the functions of the other two modules. Two client methods at the end show what a caller can conclude from the contracts.

Platform behaviour the model relies on:

- A text view's `setText(null)` stores an empty text. `FloatLabel.Displayed` states this, and it is used for both the field and the label.
- `setText` always notifies every registered watcher, in order, after the content has changed.
- The inflated layout starts with an empty field and an invisible label.

## Model

| member | source | states |
|---|---|---|
| `LabelVisibility.WatcherStep` | floatlabel/src/main/java/com/micromobs/android/floatlabel/FloatLabelEditText.java:188-194 | After one watcher, the label is visible exactly when the text is non-empty. A slide is requested exactly when visibility changed: slide-from-bottom exactly for an invisible-to-visible change, slide-to-bottom exactly for visible-to-invisible. |
| `LabelVisibility.FireWatchers` | floatlabel/src/main/java/com/micromobs/android/floatlabel/FloatLabelEditText.java:149-155 | With zero watchers a text change does nothing. With one or more it leaves the label agreeing with the text. It requests a slide exactly when visibility changed, and never more than one. |
| `LabelVisibility.ExtraWatchersAddNothing` | floatlabel/src/main/java/com/micromobs/android/floatlabel/FloatLabelEditText.java:155 | Any number of watchers (at least one) has exactly the effect of a single watcher. So the watcher that each setup appends changes nothing observable. |
| `LabelVisibility.TypingRun` | floatlabel/src/main/java/com/micromobs/android/floatlabel/FloatLabelEditText.java:188-194 | A run of text changes, each seen by every registered watcher in turn. An empty run changes nothing, and each change requests at most one slide. |
| `LabelVisibility.SameSideIsIdempotent` | floatlabel/src/main/java/com/micromobs/android/floatlabel/FloatLabelEditText.java:189-193 | A run of text changes that all stay on the side of empty/non-empty the label already agrees with leaves visibility unchanged and requests no slide. |
| `LabelVisibility.Crossings` | floatlabel/src/main/java/com/micromobs/android/floatlabel/FloatLabelEditText.java:189-192 | The number of changes in a run that move the text to the other side of empty/non-empty. There are never more crossings than changes. |
| `LabelVisibility.Alternating` | floatlabel/src/main/java/com/micromobs/android/floatlabel/FloatLabelEditText.java:189-192 | The slides of n successive crossings number n, start with the slide for the starting visibility, and alternate between entrance and exit. |
| `LabelVisibility.FirstChange` | floatlabel/src/main/java/com/micromobs/android/floatlabel/FloatLabelEditText.java:188-210 | With at least one watcher, a text change that crosses the boundary flips the visibility and requests that crossing's slide. Any other change does nothing. |
| `LabelVisibility.SlidesFollowCrossings` | floatlabel/src/main/java/com/micromobs/android/floatlabel/FloatLabelEditText.java:188-210 | With at least one watcher, the slides of any run are exactly one alternating slide per crossing, starting from the initial visibility. |
| `LabelVisibility.SettlesOnLast` | floatlabel/src/main/java/com/micromobs/android/floatlabel/FloatLabelEditText.java:188-194 | With at least one watcher, after a non-empty run the label is visible exactly when the last text is non-empty. |
| `LabelVisibility.OneSlidePerCrossing` | floatlabel/src/main/java/com/micromobs/android/floatlabel/FloatLabelEditText.java:188-210 | With at least one watcher, a run of text changes requests exactly one slide per boundary crossing. The slides alternate starting from the initial visibility, and the label ends up agreeing with the last text. |
| `FocusAnimation.FocusStep` | floatlabel/src/main/java/com/micromobs/android/floatlabel/FloatLabelEditText.java:220-245 | A focus change starts the animator memoised for its direction. If that slot was empty, it builds the animator there with the next identity. The other slot is untouched. The duration is 700. A newly built animator goes unfocused-to-focused on gain and focused-to-unfocused on loss. From a consistent memo, the same holds for a reused one, and the memo stays consistent. |
| `FocusAnimation.FocusRun` | floatlabel/src/main/java/com/micromobs/android/floatlabel/FloatLabelEditText.java:220-231 | A run of focus changes starts exactly one animator per change. |
| `FocusAnimation.MemoIsKept` | floatlabel/src/main/java/com/micromobs/android/floatlabel/FloatLabelEditText.java:233-245 | Once an animator is memoised for a direction, no later focus change replaces it. |
| `FocusAnimation.StartsPlayMemoised` | floatlabel/src/main/java/com/micromobs/android/floatlabel/FloatLabelEditText.java:233-245 | Every start in a run plays the animator that the final memo holds for that start's direction. |
| `FocusAnimation.SameDirectionSameAnimator` | floatlabel/src/main/java/com/micromobs/android/floatlabel/FloatLabelEditText.java:233-245 | Two focus changes in the same direction start the identical animator instance. |
| `FocusAnimation.AtMostTwoBuilt` | floatlabel/src/main/java/com/micromobs/android/floatlabel/FloatLabelEditText.java:215-245 | A listener builds one animator per slot it fills. So across any run it builds at most two. |
| `FocusAnimation.StartsHaveDirectionEndpoints` | floatlabel/src/main/java/com/micromobs/android/floatlabel/FloatLabelEditText.java:223-245 | From a consistent memo, every start in a run goes unfocused-to-focused on gain and focused-to-unfocused on loss, with duration 700. The memo stays consistent. |
| `FocusAnimation.OppositeDirectionsDiffer` | floatlabel/src/main/java/com/micromobs/android/floatlabel/FloatLabelEditText.java:233-245 | From a consistent memo, focus changes in opposite directions never start the same animator. |
| `FocusAnimation.FocusListener.constructor` | floatlabel/src/main/java/com/micromobs/android/floatlabel/FloatLabelEditText.java:213-217 | A new listener has both animator handles null and has built no animator. |
| `FocusAnimation.FocusListener.OnFocusChange` | floatlabel/src/main/java/com/micromobs/android/floatlabel/FloatLabelEditText.java:220-231 | The listener's handles and the start it makes are those of `FocusStep`. Its validity (counter equals filled handles, handles consistent) is kept. |
| `FocusAnimation.FocusListener.GainAnimation` | floatlabel/src/main/java/com/micromobs/android/floatlabel/FloatLabelEditText.java:233-238 | The handle played on gain is built (unfocused to focused) only when still null. Otherwise the existing handle is returned unchanged. |
| `FocusAnimation.FocusListener.LossAnimation` | floatlabel/src/main/java/com/micromobs/android/floatlabel/FloatLabelEditText.java:240-245 | The handle played on loss is built (focused to unfocused) only when still null. Otherwise the existing handle is returned unchanged. |
| `FloatLabel.NormalizedText` | floatlabel/src/main/java/com/micromobs/android/floatlabel/FloatLabelEditText.java:70-77 | The result is "" exactly when the text is null or empty. Otherwise it is the text unchanged. It is never null. |
| `FloatLabel.FloatLabelEditText.constructor` | floatlabel/src/main/java/com/micromobs/android/floatlabel/FloatLabelEditText.java:96-111 | After initialisation the field holds the initial text and the hint, and the label holds the hint. One watcher and a fresh listener are installed. The label is visible exactly when the initial text is non-empty, and no slide has been requested. |
| `FloatLabel.FloatLabelEditText.GetText` | floatlabel/src/main/java/com/micromobs/android/floatlabel/FloatLabelEditText.java:70-77 | getText returns exactly the field's text, "" when it is empty. |
| `FloatLabel.FloatLabelEditText.SetText` | floatlabel/src/main/java/com/micromobs/android/floatlabel/FloatLabelEditText.java:79-81 | The field holds the text, null stored as "". getText then returns its normalisation. Visibility and slides change as one watcher's reaction to the new length. |
| `FloatLabel.FloatLabelEditText.SetHint` | floatlabel/src/main/java/com/micromobs/android/floatlabel/FloatLabelEditText.java:83-87 | The stored hint and the field placeholder become the new hint, possibly null. The label text becomes the hint, with null shown as "". The field text is reset to the initial text, and the existing watchers react as one watcher. One more watcher is registered. A new listener with no animators is installed. If the initial text is on the side the label already shows, visibility and slides are unchanged. |
| `FloatLabel.FloatLabelEditText.OnFocusChange` | floatlabel/src/main/java/com/micromobs/android/floatlabel/FloatLabelEditText.java:220-231 | The installed listener's memo and the logged start are those of `FocusStep`. The last start runs in the focus direction's colours. The listener never holds more than two built animators. |
| `FloatLabel.FloatLabelEditText.SetupEditTextView` | floatlabel/src/main/java/com/micromobs/android/floatlabel/FloatLabelEditText.java:149-164 | The field takes the stored hint and the initial text. Only the watchers registered before this call react. Then the watcher count grows by one and a fresh, empty listener is installed. |
| `FloatLabel.FloatLabelEditText.SetupFloatingLabel` | floatlabel/src/main/java/com/micromobs/android/floatlabel/FloatLabelEditText.java:166-176 | The label takes the hint. It is made visible, with no slide, exactly when getText is non-empty. Otherwise visibility is untouched. |
| `FloatLabel.FloatLabelEditText.ChangeFieldText` | floatlabel/src/main/java/com/micromobs/android/floatlabel/FloatLabelEditText.java:153 | The field holds the new text. Then the platform notifies every registered watcher's afterTextChanged in turn, as `FireWatchers` says. This covers `setText` at line 153 and the same notification for `setText` and for user typing. |
| `FloatLabel.FloatLabelEditText.AfterTextChanged` | floatlabel/src/main/java/com/micromobs/android/floatlabel/FloatLabelEditText.java:188-194 | One watcher's reaction to the new length, as `WatcherStep` says. |
| `FloatLabel.FloatLabelEditText.ShowFloatingLabel` | floatlabel/src/main/java/com/micromobs/android/floatlabel/FloatLabelEditText.java:198-203 | The label becomes visible, and a slide-from-bottom is logged exactly when animation is asked for. |
| `FloatLabel.FloatLabelEditText.HideFloatingLabel` | floatlabel/src/main/java/com/micromobs/android/floatlabel/FloatLabelEditText.java:205-210 | The label becomes invisible, and a slide-to-bottom is logged exactly when animation is asked for. |

## Left out

- Layout inflation, `findViewById` and the early return when there is no context (lines 96-111). The model always has both child views. A control built without a context is not modelled. In the code its `getText` would dereference a missing field rather than return "".
- Attribute parsing (lines 113-147). The hint, the initial text and the two colours are constructor parameters. Input type, IME options and gravity are passed to the platform and are not modelled.
- The default colours (lines 26-27). These are resource identifiers, used where colour values are expected. The model takes both colours as given.
- Text sizes: density scaling and the label's size divided by 1.3 (lines 119, 136-137, 154, 169, 267-270). These are floating-point computations over display metrics.
- The fit-screen-width computation (lines 157-159, 272-283). It needs the window manager and float rounding.
- The per-tick colour interpolation and the update listener that writes the label's colour (lines 249-261). They run asynchronously with floating-point interpolation. The label's and placeholder's text colours, and the label padding and gravity, are not modelled either.
- Animation resource loading and timing. A slide request is only a log entry; an animator start is only a log entry with its duration. Restarting an animator that is already running is the animation framework's job, and it applies only to that same animator.
- Concurrent colour writers: `onFocusChange` (lines 220-231) only starts the animator for the new direction. It never cancels the animator for the opposite direction. When focus changes again within 700 ms, both animators run, and both update listeners (line 257) write the label's colour until the older run ends. Nothing supersedes the older run's ticks. Likewise, after `setHint` the discarded listener's animators keep running and keep writing the label's colour. The model logs starts only. It does not capture overlapping runs, their tick order, or which colour the label shows while they overlap.
- The API-level check before installing the focus listener (line 161). It always passes at the declared API level, so the listener is always installed.
- `setError` (lines 89-91). It passes its argument straight to the platform.
- `getEditText` (lines 66-68). It exposes the child view itself.
- User typing is modelled by `ChangeFieldText`, the same path `setText` takes. The model offers no separate host-event method.

Behaviour of the code that a reader might not expect, and that the model keeps:

- `setHint` does not simply re-derive visibility without animation. It resets the field to the initial text, and the already-registered watchers react with animation. It also appends another watcher rather than replacing one. It replaces the focus listener too, which discards both memoised animators.
- A `setHint` that leaves the text length alone keeps the label state. But `setHint` overwrites the current text, so the label state is kept only when the initial text is on the same side of empty as the label's current state (see `SetHint`'s last-but-one ensures).
