# LottieView (SwiftUI) — a Dafny model

This project models the logic of `LottieView`, the SwiftUI wrapper around Lottie's
`LottieAnimationView` (`Sources/Public/Animation/LottieView.swift`). It has three parts.

- **The marker playback sequencer.** The `@State` cursor `position` starts at 0. A tap
  advances it by one, but it stops at `markerCount - 1` and never wraps. Each change of
  `position`, and each appearance, runs `playNextMarker`. That appends "play the marker at
  `position - 1`" through the bounds-safe subscript `Array[safe:]`, or "play from the
  start" when there is no such marker. The computed `next` names the marker at `position`.
- **The deferred configuration list.** `configurations` is a list of closures that are
  later run, in order, on the retained player. Here they are tagged commands:
  `PlayFromStart`, `PlayMarker(name)`, `SetBackgroundBehavior(b)` and `Custom(id)`.
  Running them is a left fold over the list. `configure` and `backgroundBehavior` return a
  copy with one command appended. `resizable` returns a copy that differs only in `sizing`.
- **The reconcile block** run on every update. The accessibility flag and label are set
  every time. The animation is assigned only when the incoming reference is not identical
  (`!==`) to the one the player holds.

Files and modules:

- `wrappers.dfy` (`Wrappers`): `Option`, standing for Swift optionals.
- `playback.dfy` (`Playback`): animations, markers and commands. It holds the player's
  state as a record, the fold that runs commands, and the pure reconcile step. The class
  `AnimationView` is the retained player. Its methods assign its fields in place.
- `marker_sequencer.dfy` (`MarkerSequencer`): the sequencer as pure functions over a
  `Cursor` (position and configurations). It includes lemmas over any sequence of taps and
  appearances.
- `lottie_swiftui.dfy` (`LottieSwiftUI`): the `LottieView` value and its copy-returning
  modifiers. It also has the builder closure, which makes the player and sets each value
  provider. The class `ViewState` holds the view's `@State` storage and its retained player.
  Its methods `Tap`, `Appear` and `Update` stand for SwiftUI's event delivery, and each is
  proved against the pure sequencer or reconcile step.

Object identity of a `LottieAnimation` is its `id` field. The markers are stored beside the
`id`. So an "identical" reference whose markers differ is still skipped by reconcile, as in
the source.

Two consequences of the code are worth stating:

- Nothing in the code removes entries from `configurations`, so the model never clears the
  list. `Playback.ReapplyRepeatsPlays` shows what follows: if the list is applied on every
  update, every play command runs again.
- Taps stop at `markerCount - 1`, so while the animation's markers do not change, the
  cursor reaches at most `max(0, markerCount - 1)` from position 0
  (`MarkerSequencer.RunStaysInRange`). As the marker played is the one at `position - 1`,
  while the markers do not change no command asks for the last marker by its index
  (`MarkerSequencer.RunSkipsLastMarker`), although `next` still names that marker at the
  last position (`LottieSwiftUI.NextIsPlayedOnNextTap`).
- `position` is not reset when a re-evaluation brings an animation with other markers. A
  marker change can leave the cursor past the new last index, and an appearance can then play
  the new last marker (`MarkerSequencer.StaleCursorAfterMarkerChange`).

## Model

| member | source | states |
|---|---|---|
| `MarkerSequencer.SafeGet` | Sources/Public/Animation/LottieView.swift:152-159 | the result is present iff `0 <= i < count`, and then it is the element at `i`; every other index, negative ones included, gives nil |
| `MarkerSequencer.MarkersOf` | Sources/Public/Animation/LottieView.swift:105 | `animation?.markers ?? []`: the animation's markers when both the animation and its marker list are present, and the empty list otherwise |
| `MarkerSequencer.MarkerCount` | Sources/Public/Animation/LottieView.swift:72 | `animation?.markers?.count ?? 0` equals the length of `animation?.markers ?? []`, so the tap handler and `playNextMarker` see the same list |
| `MarkerSequencer.AfterTap` | Sources/Public/Animation/LottieView.swift:71-76 | a tap moves the cursor to `position + 1` iff `position < markerCount - 1`, and otherwise leaves it unchanged; from a position at or below the last index it stays at or below it |
| `MarkerSequencer.PlayCommandAt` | Sources/Public/Animation/LottieView.swift:109-122 | the command is `PlayMarker(markers[position-1].name)` iff `1 <= position <= markers.count`, and `PlayFromStart` otherwise, so position 0 plays from the start |
| `MarkerSequencer.Step` | Sources/Public/Animation/LottieView.swift:71-82 | one event only appends. A tap sets the cursor to `AfterTap(position, markerCount)`; it appends exactly one command iff it moves the cursor, and that command is `PlayCommandAt(markers, new position)`; a saturated tap appends nothing. An appearance keeps the cursor and appends the command for the current position |
| `MarkerSequencer.RunStaysInRange` | Sources/Public/Animation/LottieView.swift:71-76 | from a position in `0 ..= max(0, markerCount - 1)`, any sequence of taps and appearances keeps it there and never decreases it |
| `MarkerSequencer.RunCounts` | Sources/Public/Animation/LottieView.swift:77-82 | over any event sequence the old list is a prefix of the new one, and it grows by the number of appearances plus the distance the cursor moved |
| `MarkerSequencer.RunWithoutMarkers` | Sources/Public/Animation/LottieView.swift:71-82 | with no markers, a cursor at 0 never moves, and every appended command is `PlayFromStart`, one per appearance |
| `MarkerSequencer.RunSkipsLastMarker` | Sources/Public/Animation/LottieView.swift:71-122 | every command the sequencer appends plays from the start or plays a marker at an index below `markerCount - 1` |
| `MarkerSequencer.ThreeMarkerWalkThrough` | Sources/Public/Animation/LottieView.swift:71-122 | with three markers: appear, then three taps, gives position 2 and `[PlayFromStart, PlayMarker(first), PlayMarker(second)]`. Appearing at position 2 plays the second marker |
| `MarkerSequencer.StaleCursorAfterMarkerChange` | Sources/Public/Animation/LottieView.swift:16-17 | with three markers, two taps reach position 2. After a change to markers `[x, y]` the kept cursor is past the last index, and an appearance plays `y` |
| `Playback.Identical` | Sources/Public/Animation/LottieView.swift:62 | Swift's `===` on `LottieAnimation?`: identical iff both are nil, or both are present with the same object id. Equal values are identical |
| `Playback.Apply` | Sources/Public/Animation/LottieView.swift:113-120 | running one closure never touches the animation, the assignment count or the accessibility fields. It adds at most one play, at the end of the play log |
| `Playback.ApplyAll` | Sources/Public/Animation/LottieView.swift:70 | running the whole list leaves the animation, its assignment count and the accessibility fields unchanged |
| `Playback.ApplyAllConcat` | Sources/Public/Animation/LottieView.swift:70 | running `a + b` is running `a` and then `b`: commands take effect strictly in append order |
| `Playback.ApplyAllPlays` | Sources/Public/Animation/LottieView.swift:113-120 | after the list runs, the play log is the old log followed by the list's play commands, each once, in list order |
| `Playback.ApplyAllBackground` | Sources/Public/Animation/LottieView.swift:126-130 | the background behaviour after the list runs is the one set by the last `SetBackgroundBehavior`, or the player's own if the list has none |
| `Playback.ReapplyRepeatsPlays` | Sources/Public/Animation/LottieView.swift:135 | the list is never cleared, so running it on two updates plays its play commands twice, in order |
| `Playback.Reconciled` | Sources/Public/Animation/LottieView.swift:55-64 | afterwards the player's animation is identical to the input. It is assigned, and counted, exactly once iff the references differ. `isAccessibilityElement == (label != nil)`, the label is copied, and playback state is untouched |
| `Playback.ReconcileIdempotent` | Sources/Public/Animation/LottieView.swift:59-64 | a second pass with the same inputs changes nothing, so it performs no assignment |
| `Playback.ReconcileRepeatedly` | Sources/Public/Animation/LottieView.swift:59-64 | any number `n >= 1` of passes with the same reference gives the result of one pass: at most one assignment, and none if the player already held that reference |
| `Playback.AnimationView.constructor` | Sources/Public/Animation/LottieView.swift:41-47 | a new player holds the given animation and providers, with no assignments, no accessibility label, no plays and no value providers |
| `Playback.AnimationView.SetValueProvider` | Sources/Public/Animation/LottieView.swift:50 | binds the provider under the keypath and records the call |
| `Playback.AnimationView.Reconcile` | Sources/Public/Animation/LottieView.swift:55-64 | the in-place reconcile leaves the player in the state `Reconciled` gives |
| `Playback.AnimationView.Run` | Sources/Public/Animation/LottieView.swift:113-120 | running one closure in place leaves the player in the state `Apply` gives |
| `LottieSwiftUI.Create` | Sources/Public/Animation/LottieView.swift:19-35 | a new value has `sizing == .automatic` and no configurations, and keeps every argument. The providers and the label default to nil and the configuration to the shared one |
| `LottieSwiftUI.Configure` | Sources/Public/Animation/LottieView.swift:88-94 | the copy's configurations are the original's plus the closure at the end, and every other field is unchanged |
| `LottieSwiftUI.Resizable` | Sources/Public/Animation/LottieView.swift:98-102 | the copy has `sizing == .proposed` and every other field unchanged |
| `LottieSwiftUI.BackgroundBehavior` | Sources/Public/Animation/LottieView.swift:126-130 | the copy's configurations are the original's plus `SetBackgroundBehavior(b)`, and every other field is unchanged |
| `LottieSwiftUI.ModifiersCommute` | Sources/Public/Animation/LottieView.swift:88-102 | `resizable` and `configure` commute, and `resizable` is idempotent |
| `LottieSwiftUI.BackgroundBehaviorTakesEffect` | Sources/Public/Animation/LottieView.swift:126-130 | once the copy's configurations run, the player's background behaviour is `b`, whatever ran before |
| `LottieSwiftUI.ConfigureRunsLast` | Sources/Public/Animation/LottieView.swift:88-94 | the appended closure runs after all earlier ones and changes nothing else they did |
| `LottieSwiftUI.OrDefault` | Sources/Public/Animation/LottieView.swift:44-45 | a nil text or font provider becomes the default provider, and a given one is passed through |
| `LottieSwiftUI.BuildAnimationView` | Sources/Public/Animation/LottieView.swift:40-53 | the fresh player has the value's animation and providers. Its value providers equal the dictionary, and `setValueProvider` ran exactly once per key, in any order |
| `LottieSwiftUI.ViewState.Mount` | Sources/Public/Animation/LottieView.swift:16-17 | mounting starts the cursor at 0 with the value's configurations and builds the player, with all of `BuildAnimationView`'s guarantees: the value's animation and providers, default text and font providers for nil, and `setValueProvider` exactly once per key |
| `LottieSwiftUI.ViewState.OnTapGesture` | Sources/Public/Animation/LottieView.swift:71-76 | the tap handler sets `position` to `AfterTap(position, markerCount)` |
| `LottieSwiftUI.ViewState.PlayNextMarker` | Sources/Public/Animation/LottieView.swift:109-122 | appends exactly `PlayCommandAt(markers, position)` at the end, and earlier entries are unchanged |
| `LottieSwiftUI.ViewState.Tap` | Sources/Public/Animation/LottieView.swift:71-79 | a tap, with the `onChange` reaction, moves the state as `Step(..., Tapped)` does |
| `LottieSwiftUI.ViewState.Appear` | Sources/Public/Animation/LottieView.swift:80-82 | appearing moves the state as `Step(..., Appeared)` does |
| `LottieSwiftUI.ViewState.Update` | Sources/Public/Animation/LottieView.swift:55-64 | a re-evaluation keeps `position` and `configurations`, even when the markers change, and reconciles the player as `Reconciled` does. Only the fields the reconcile block assigns change on the player; its value providers and their call log are kept |
| `LottieSwiftUI.ViewState.Next` | Sources/Public/Animation/LottieView.swift:104-107 | `next` is present iff `position < markers.count`, and then it is `markers[position].name`. Absent markers count as an empty list |
| `LottieSwiftUI.NextIsPlayedOnNextTap` | Sources/Public/Animation/LottieView.swift:104-122 | when a tap can move the cursor, it plays exactly the marker `next` names. At the last index `next` names the last marker, and a tap changes nothing |

## Left out

- Rendering, animation loading (`LottieAnimation.named`), marker timing and what `play`
  does inside the player belong to the external `LottieAnimationView`. A play is only
  recorded in the player's log.
- SwiftUI machinery is left out: `@State` storage, the `swiftUIView` host, `.sizing`
  measurement and gesture delivery. Events are explicit calls (`Tap`, `Appear`, `Update`),
  and `@State` is a plain field kept across `Update`.
- `LottieSwiftUI.Configure`, `LottieSwiftUI.BackgroundBehavior`, `LottieSwiftUI.ViewState.Mount`:
  `configurations` is `@State` (LottieView.swift:134-135). `configure` and
  `backgroundBehavior` append to it on a copy that SwiftUI has not installed yet (lines 89-90
  and 127). The model assumes these appends are kept. That is why `Mount` starts from the
  value's `configurations` and why the two modifiers promise the longer list. Whether SwiftUI
  keeps writes to a `@State` property before the view is installed is not modelled.
- When the external `.configurations(...)` modifier runs the list, and where that falls
  relative to the reconcile block, is not visible in the code. Running the list is the fold
  `Playback.ApplyAll`, and no method of `ViewState` calls it.
- `BuildAnimationView`: the iteration order of the value-provider dictionary is
  unspecified. The next key is chosen arbitrarily, and only "each key exactly once" is stated.
- Value providers, image, text and font providers, and `LottieConfiguration` are foreign
  types. They are modelled as identifiers, and `LottieBackgroundBehavior` as a number.
  The reconcile block does not update them, as in the source.
- A `configure` closure is arbitrary code. It is modelled as `Custom(id)`, and running it
  only records its id.
- `Playback.Apply`, `Playback.ApplyAll` and `Playback.ApplyAllPlays`: that running the list
  leaves the animation, the accessibility fields and the play log alone (apart from its own
  play commands) holds for the four modelled commands only. A real `configure` closure could
  reassign the animation or call `play()` itself.
- `Example/iOS/SwiftUI/AnimationPreviewView.swift` is layout glue and is not part of this model.
- `position` is a Swift `Int`, modelled as an unbounded integer. A tap increments it only while `position < markerCount - 1`, so it never exceeds the largest marker count it has seen and cannot overflow.
