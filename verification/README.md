# animation-timeline, modelled in Dafny

This project models the `animation-timeline` component of A-Frame. The component reads an `<a-timeline>` element and builds an anime.js timeline from it. The element holds `<a-timeline-group>` and `<a-timeline-animation>` children, and each child references `animation__<name>` components on the entities its selector matches. The component then drives that timeline frame by frame.

The model has six modules:

- `Wrappers`: `Option` and `Result`.
- `ClipConfig`: clip configuration objects as JavaScript values.
  - `cloneConfig`: functions are shared and objects are deep-copied.
  - The `offset` stamp applied to every added config.
  - The `(duration || 0) + (delay || 0)` duration rule.
- `LoopOption`: the schema's `loop` parser. It maps `"true"` and `"false"` to booleans and sends everything else to a model of base-10 `parseInt`. The model of `parseInt` covers leading ECMAScript whitespace, an optional sign, the longest digit prefix, and failure when there are no digits.
- `Sequencing`: a generic running sum and a generic chain, where each item is placed at the running total of the items before it.
- `Layout`: the offset layout of `beginAnimation` and `addAnimationToTimeline`, built on `Sequencing`.
  - The layout is written as a fold of `Step` over the timeline's children, carrying a cursor and the placements added so far.
  - It is related to a closed-form reference schedule. In that schedule, child `i` starts at the sum of the advances of the children before it, and contributes its clips at that start.
- `Driver`: the component's state `{playing, time, timeline}` and its handlers.
  - The handlers are `init`, `play`, `tick`, start events and `beginAnimation`.
  - `beginAnimation` either throws and leaves the state as it was, or restarts from time 0 with a new non-autoplaying timeline.

Numbers are modelled as `real`. The DOM is abstracted in the `Driver` and `Layout` modules:

- The element found by `document.querySelector(data.timeline)` is an `Option<Element>`. Its tag name is kept, and its children are already resolved.
- Each `<a-timeline-animation>` is resolved to the configs of the entities its `select` matches, in match order. That is the `ClipRef` type.
- An explicit `offset` attribute is an `Option<real>`.

## Model

| member | source | states |
|---|---|---|
| LoopOption.ParseLoop | components/aframe-animation-timeline-component/index.js:10-15 | `"true"` gives `true` and `"false"` gives `false`, and only those two strings give a boolean. Any other text is an integer count exactly when base-10 `parseInt` finds digits, and is otherwise an error (NaN). |
| LoopOption.ParseInt | components/aframe-animation-timeline-component/index.js:14 | `parseInt(value, 10)` is NaN exactly when the text after the leading whitespace and the optional sign is empty or does not start with a digit. |
| LoopOption.ParseIntOfParts | components/aframe-animation-timeline-component/index.js:14 | The value `parseInt(value, 10)` returns. For text made of whitespace, then `""`, `"+"` or `"-"`, then a non-empty run of digits, then anything that does not start with a digit, the result is the run's decimal value, negated after `"-"`. Leading zeros and `"+"` are accepted. |
| LoopOption.ParseIntSignedExample | components/aframe-animation-timeline-component/index.js:14 | `"  -007px"` parses to -7. |
| LoopOption.ParseFormatInt | components/aframe-animation-timeline-component/index.js:14 | Parsing the decimal text of any integer, followed by any non-digit suffix (`"3px"`), gives back that integer. |
| LoopOption.ParseFormatLoop | components/aframe-animation-timeline-component/index.js:10-15 | Every loop value survives the round trip through its attribute text: `true`, `false`, and every integer count. |
| LoopOption.ParseIntSkipsSpaces | components/aframe-animation-timeline-component/index.js:14 | Any run of leading whitespace in front of a text leaves what `parseInt` yields unchanged. |
| LoopOption.ParseLoopRejectsNonNumeric | components/aframe-animation-timeline-component/index.js:12-14 | Text other than `"true"`/`"false"` whose unsigned part does not start with a digit does not yield a loop count. |
| ClipConfig.CloneValueIsCopy | components/aframe-animation-timeline-component/index.js:140-141 | Deep-copying an object or array value yields a value equal to the original, at every depth. |
| ClipConfig.CloneEntry | components/aframe-animation-timeline-component/index.js:138-144 | Each entry of the clone equals the source entry. A function entry keeps its identity, so it is shared rather than copied. |
| ClipConfig.CloneConfig | components/aframe-animation-timeline-component/index.js:134-147 | The clone has exactly the source's keys, and every entry equals the source's. Function-valued entries are carried over with the same identity. |
| ClipConfig.Stamp | components/aframe-animation-timeline-component/index.js:122-124 | An added config has the source's keys plus `offset`. Its `offset` is the absolute offset, every other entry is unchanged, and function values are carried over. |
| ClipConfig.StampOnlyOverwritesOffset | components/aframe-animation-timeline-component/index.js:122-124 | Stamping changes nothing but `offset`, and a second stamp replaces the first. |
| Layout.AddAnimation | components/aframe-animation-timeline-component/index.js:109-128 | One placement per matched entity, in match order, all at the given offset. The reported duration is the last match's `(duration \|\| 0) + (delay \|\| 0)`. |
| Layout.LongestIsMax | components/aframe-animation-timeline-component/index.js:82-87 | The longest duration of a group is at least 0 and at least every clip's duration, and it is either 0 or the duration of one of the clips. |
| Layout.AddGroupDuration | components/aframe-animation-timeline-component/index.js:82-87 | The running maximum computed while adding a group's clips is at least 0, bounds every clip, and is either 0 or attained by a clip. |
| Layout.AddGroupIsLongest | components/aframe-animation-timeline-component/index.js:82-87 | The running maximum over a group equals the closed-form longest duration. |
| Layout.AddGroupConfigs | components/aframe-animation-timeline-component/index.js:83-84 | A group adds its clips' configs clip after clip, all at the group's start offset. |
| Layout.StepCursor | components/aframe-animation-timeline-component/index.js:80-99 | A standalone clip moves the cursor by its duration plus its extra offset. A group moves it by its longest clip (at least 0) plus its extra offset, and an empty group by its extra offset alone. Any other child changes nothing. |
| Layout.StepPlacesAtCursor | components/aframe-animation-timeline-component/index.js:81-84 | Each child only appends to the timeline, and everything it appends starts at the cursor it found (all clips of a group share the group's start). |
| Layout.StepIsSegment | components/aframe-animation-timeline-component/index.js:78-99 | One loop iteration appends the child's reference segment at the cursor and advances the cursor by the child's reference advance. |
| Layout.LayoutFromIsSegments | components/aframe-animation-timeline-component/index.js:77-100 | From any intermediate state, the rest of the loop appends the reference schedule and moves the cursor by the sum of the remaining advances. |
| Layout.LayOutIsSchedule | components/aframe-animation-timeline-component/index.js:77-100 | The whole layout, starting from offset 0, equals the reference schedule, and the final cursor is the sum of every child's advance. |
| Layout.CursorAfterPrefix | components/aframe-animation-timeline-component/index.js:77-100 | After the first `i` children, the running offset is the reference start of child `i`. |
| Layout.SegmentsSplit | components/aframe-animation-timeline-component/index.js:78-100 | The schedule splits at any child: the prefix's schedule, then the rest starting at the prefix's total advance. |
| Layout.ChildPlacedAtStart | components/aframe-animation-timeline-component/index.js:78-99 | Child `i`'s configs sit in the timeline right after those of the children before it, and every one of them starts at the sum of the earlier children's advances. |
| Layout.LayOutSorted | components/aframe-animation-timeline-component/index.js:77-100 | When no child moves the cursor backwards, the added offsets never decrease and none exceeds the final cursor. |
| Layout.LayOutExample | components/aframe-animation-timeline-component/index.js:77-100 | A group of clips with durations 1 and 2, followed by a clip of 1 with extra offset 0.5, lays out three configs at 0, 0 and 2, and ends the cursor at 3.5. |
| Driver.Tick | components/aframe-animation-timeline-component/index.js:44-48 | A tick does nothing unless the component is playing with a timeline. Otherwise the time grows by `dt`, the timeline is advanced to exactly the new time, and nothing else about the timeline changes. |
| Driver.TicksBeforeActivation | components/aframe-animation-timeline-component/index.js:27-30 | Frames before any activation leave the initial state unchanged. |
| Driver.TicksAccumulate | components/aframe-animation-timeline-component/index.js:44-48 | While playing, a run of frames adds their deltas to the time and advances the timeline to exactly that total. |
| Driver.TicksMonotone | components/aframe-animation-timeline-component/index.js:44-48 | With non-negative deltas, the time handed to the timeline never decreases. |
| Driver.Stamped | components/aframe-animation-timeline-component/index.js:122-124 | One stamped config per placement, in order, each with the placement's offset. |
| Driver.BeginAnimation | components/aframe-animation-timeline-component/index.js:63-75 | Throws and leaves the state unchanged when the selector matches nothing or matches something other than `A-TIMELINE`. Otherwise the component is playing at time 0, with a new timeline that has autoplay off, the configured direction and loop, and one stamped config per laid-out placement. |
| Driver.BeginDiscardsPrevious | components/aframe-animation-timeline-component/index.js:69-75 | A successful start gives the same state whatever came before, so the earlier timeline and elapsed time are discarded. |
| Driver.PlayStartsOnlyWithoutStartEvents | components/aframe-animation-timeline-component/index.js:38-42 | `play` starts the timeline exactly when no start event is configured. With start events it changes nothing. |
| Driver.DefaultsAutoplay | components/aframe-animation-timeline-component/index.js:38-42 | With the schema defaults (no start events, direction `"normal"`, loop 0), `play` builds and starts the timeline at once, with that direction and loop. |
| Driver.OnlyStartEventsActivate | components/aframe-animation-timeline-component/index.js:33-35 | Only a configured start event runs `beginAnimation`, and any other event changes nothing. |
| Driver.BeginSchedulesInOrder | components/aframe-animation-timeline-component/index.js:63-100 | After a successful start, the configs on the timeline carry non-decreasing offsets, provided no child has a negative advance. |

## Left out

- DOM plumbing is abstracted into `Element`, `Child` and `ClipRef`. This covers `registerElement`, `querySelector`, `querySelectorAll`, `getAttribute`, and the `animation__<name>` lookup with its `updateConfig` call.
- An invalid `select` selector makes `querySelectorAll` throw (index.js:117). The model has no selectors: every clip reference arrives already resolved to configs.
- A matched entity that has no `animation__<name>` component makes `component.updateConfig()` throw a TypeError (index.js:120-121). The model resolves every match to a config, so this resolution error has no counterpart.
- The anime.js timeline's own playback is left out. The model keeps only its constructor options, the configs added in order, and the last time it was ticked to.
- `AFRAME.utils.clone` is modelled as a structural deep copy. Its JSON round-trip details are left out: dropped `undefined` values and functions nested in objects, and dates turning into strings.
- A clip reference whose selector matches no entity makes `addAnimationToTimeline` read `config.duration` of `undefined` and throw. `ClipRef` is a non-empty sequence, so that crash is a precondition of the layout.
- Layout.ExtraOffset: a non-numeric `offset` attribute (NaN from `parseFloat`) is not modelled. The attribute is either absent/empty or a number.
- ClipConfig.ClipDuration: a `duration` or `delay` that is truthy but not a number (a string, `true`) counts as 0. JavaScript string concatenation and the `true` → 1 coercion are not modelled.
- Numbers are mathematical reals, so float rounding, NaN and infinities are not modelled. `parseInt` on very long digit strings yields the exact integer, not a rounded double.
- Each of the three throws above happens after index.js:69-71. So it would leave `animationIsPlaying` true and a half-built timeline in place. The model cannot express that partial state: the clip references arrive pre-resolved, and each is non-empty, which excludes all three throws.
- `startEvents` is read once, at `init`. Changing it later, removing listeners, and the schema's `multiple: true` instancing are not modelled.
- The schema default `loop: 0` is taken as is (`DefaultLoop`), not run through the parser.
