# Friend widget: a verified model

`Friend` (js/friend.js) is a small browser widget. It pins a character image
to one corner of the page, turns the image smoothly towards the mouse
pointer, makes it bounce when it is clicked, and recomputes the image's
centre when the window is resized (debounced by 200 ms). This project models
the logic of that class in Dafny and proves what it promises:

- `js_values.dfy` (`JsValues`): the JavaScript values the options are made
  of. An object is a map from property names to values, and a missing
  property reads as `undefined`.
- `options.dfy` (`FriendOptions`): the constructor's option handling. This
  covers the two call forms (options object, or the legacy
  `(image, corner, rotationOffset)` form), the spread over
  `_defaultOptions`, the field-wise `size` merge, and the fallback of a
  non-numeric `edgeOffset` or `rotationOffset` to its default with a warning.
- `identity.dfy` (`Identity`): the class-wide `_instanceCounter` (a class
  with a mutable `next` field) and the element id
  `friend-el-<decimal id>`.
- `corner.dfy` (`Corner`): `_getPositionStylesFromCorner`, that is, the
  `cornerMap` lookup with its bottom-left fallback, and the two inset
  properties it sets.
- `orientation.dfy` (`Orientation`): the two wrap loops of `_animationLoop`
  (an imperative method proved against a closed form) and the smoothing step.
- `interaction.dfy` (`Interaction`): the pointer, click and animation-end
  handlers as a state machine over the pointer coordinates and the
  `bouncing` class, the inclusive hit test, and `_calculateCenter`.
- `debounce.dfy` (`Debounce`): `_debounce` as a one-timer state machine
  driven by calls and clock ticks, with the debounced wrapper as a class.
- `widget.dfy` (`Widget`): the `Friend` class itself. Its constructor takes
  an id from the counter, resolves the options and places the element. Its
  handler methods update the fields in place, and each is proved equal to
  the corresponding specification function.

The host supplies what the model cannot compute. The pointer's bearing
(the `atan2` of the source) is a parameter of `AnimationLoop`. The bounding
rectangle (`getBoundingClientRect`) is a parameter of `HandleClick` and
`CalculateCenter`. The clock is a parameter of the debounce operations.

The wrap loops (js/friend.js:169-170) run only while the difference is
strictly beyond ±180, so a difference of exactly ±180 is kept and the
wrapped value lies in the closed range [-180, 180]. The per-frame change
therefore lies in [-180·s, 180·s].

Numbers in option values are exact reals or one of `NaN`, `Infinity` and
`-Infinity`, because the validation's `typeof … === 'number'` test lets
those three through. The class model validates with a finite-number test
instead (see "## Findings").

## Model

| member | source | states |
|---|---|---|
| FriendOptions.CallerOptions | js/friend.js:43-48 | no contract of its own; characterised by LegacyKeysOverrideDefaults and MergeOverridesDefaults |
| FriendOptions.Merge | js/friend.js:53-57 | no contract of its own; characterised by MergeOverridesDefaults |
| FriendOptions.ValidateAsWritten | js/friend.js:60-67 | no contract of its own; the validation as written, characterised by ValidateFallsBackToDefaults (`typeof` test) and AsWrittenKeepsNonFiniteOffset |
| FriendOptions.Validate | js/friend.js:60-67 | no contract of its own; the corrected validation, characterised by ValidateFallsBackToDefaults (finite-number test) and CorrectionOnlyRejectsNonFinite |
| FriendOptions.Resolve | js/friend.js:42-67 | no contract of its own; the constructor's option handling with the corrected finite-number test, characterised by ResolveIsTotal and LegacyKeysOverrideDefaults |
| FriendOptions.MergeOverridesDefaults | js/friend.js:53-57 | every key the caller supplies, `undefined` included, overrides the default; every other key keeps its default; `size` is an object whose `width`/`height` come from the caller's `size` when it supplies them and from the default otherwise |
| FriendOptions.ValidateFallsBackToDefaults | js/friend.js:60-67 | for the test as written (`typeof` number) and for the finite-number test alike: afterwards both offsets pass the test; an offset that passed is kept, one that failed becomes 20 (resp. 90); a warning for an offset is issued if and only if it failed; every warning names the instance; the warning count is the number of failing offsets; no other option changes |
| FriendOptions.AsWrittenKeepsNonFiniteOffset | js/friend.js:60-67 | as written, a `NaN` or infinite offset is kept and draws no warning |
| FriendOptions.CorrectionOnlyRejectsNonFinite | js/friend.js:60-67 | the finite-number test gives the same options and warnings as the test as written unless an offset is `NaN` or infinite |
| FriendOptions.CheckOffsets | js/friend.js:60-67 | the two in-place checks produce exactly the validated options and warnings, for either test |
| FriendOptions.ResolveIsTotal | js/friend.js:42-67 | for any arguments, the options resolved with the corrected finite-number test hold every default key, finite offsets, and a `size` object with `width` and `height` |
| FriendOptions.LegacyKeysOverrideDefaults | js/friend.js:43-48 | in the legacy form `image` and `corner` are passed through as given (an omitted corner stays `undefined`); `edgeOffset` is 20; with the corrected finite-number test, `rotationOffset` is kept if it is a finite number and otherwise becomes 90 with exactly one warning (as written, `NaN` and the infinities are also kept, without a warning) |
| Identity.Decimal | js/friend.js:51 | the numeral of an id is a non-empty string of decimal digits |
| Identity.ElementId | js/friend.js:51 | no contract of its own; characterised by ElementIdsDistinct |
| Identity.DecimalRoundTrip | js/friend.js:51 | reading the numeral back gives the id |
| Identity.ElementIdsDistinct | js/friend.js:50-51 | distinct ids give distinct element ids |
| Identity.InstanceCounter.Take | js/friend.js:50 | returns the old counter value and increments it; the id is larger than every id issued before, so it is fresh |
| Corner.CornerEdgesAsWritten | js/friend.js:189-191 | the lookup as written throws if and only if the corner is the name of a member inherited from `Object.prototype` |
| Corner.ToStringCornerThrows | js/friend.js:189-191 | `"toString"` and `"__proto__"` make the lookup as written throw |
| Corner.CornerEdges | js/friend.js:189-190 | no contract of its own; the corrected lookup, characterised by CornerEdgesNeverFail and AsWrittenAgreesWhenItSucceeds |
| Corner.CornerEdgesNeverFail | js/friend.js:189-190 | the corrected lookup yields one vertical and one horizontal edge: the named corner's when the corner is one of the four names, bottom and left otherwise |
| Corner.AsWrittenAgreesWhenItSucceeds | js/friend.js:189-191 | wherever the lookup as written does not throw, it agrees with the corrected one |
| Corner.PositionStyles | js/friend.js:186-193 | no contract of its own; `_getPositionStylesFromCorner` with the corrected lookup, characterised by PositionStylesPlaceOneCorner |
| Corner.PositionStylesPlaceOneCorner | js/friend.js:186-193 | exactly two inset properties are set, one of top/bottom and one of left/right, both to the edge offset; each named corner sets its own edges, and anything else sets bottom and left |
| Corner.LegacyOmittedCornerIsBottomLeft | js/friend.js:186-193 | a legacy call without a corner stores `corner: undefined` but places the element bottom-left at 20px |
| Orientation.Down | js/friend.js:169 | the first loop's result is at most 180, differs from its input by whole turns, and is unchanged when the input is already at most 180 |
| Orientation.Up | js/friend.js:170 | the second loop's result is at least -180, differs from its input by whole turns, and is unchanged when the input is already at least -180 |
| Orientation.Wrap | js/friend.js:168-170 | the wrapped difference lies in [-180, 180] and differs from the raw one by whole turns; a difference already in [-180, 180] is unchanged |
| Orientation.WrapDifference | js/friend.js:168-170 | the two while loops compute exactly `Wrap` of the raw difference |
| Orientation.SubtractTurns | js/friend.js:169 | no contract beyond staying a number; the first loop's rounds on a JavaScript number, characterised by FiniteTurns, FiniteDifferenceLeavesLoop and InfiniteDifferenceNeverWraps |
| Orientation.FiniteTurns | js/friend.js:169 | on a finite number, `k` rounds of `-= 360` subtract exactly 360·k |
| Orientation.FiniteDifferenceLeavesLoop | js/friend.js:169 | on a finite difference the first loop's guard holds for exactly `DownRounds(d)` rounds and then fails, leaving `Down(d)` |
| Orientation.InfiniteDifferenceNeverWraps | js/friend.js:169 | on `Infinity`, `-= 360` changes nothing, so the first loop's guard holds after any number of rounds |
| Orientation.NaNDifferencePoisonsAngle | js/friend.js:169-171 | a `NaN` difference fails both loop guards and turns the updated angle into `NaN` |
| Orientation.WrapUnique | js/friend.js:168-170 | any value strictly inside (-180, 180) that differs from the input by whole turns is its wrap |
| Orientation.WrapAcrossBoundary | js/friend.js:168-170 | from 179° towards -179° the applied difference is +2, not -358 |
| Orientation.Smoothed | js/friend.js:171 | with a non-negative smoothing `s` one frame moves the angle by at most 180·s; with `s` = 1 it lands on the target up to whole turns |
| Orientation.StepShrinksGap | js/friend.js:168-171 | with the target held and 0 < s <= 1, the wrapped remaining gap is multiplied by (1 - s) each frame |
| Orientation.GapNeverGrows | js/friend.js:168-171 | with the target held, the magnitude of the wrapped remaining gap never increases |
| Interaction.Center | js/friend.js:157-162 | the centre is equally far from the left and right edges and from the top and bottom edges, and lies inside a rectangle with non-negative width and height |
| Interaction.Hit | js/friend.js:147 | no contract of its own; the inclusive test on all four edges, used by Apply and Center |
| Interaction.Apply | js/friend.js:142-154 | a move overwrites only the coordinates; a click leaves the state bouncing if and only if it was bouncing or the click hits (edges inclusive); a missed click changes nothing; an animation end clears the flag |
| Interaction.BouncingAfter | js/friend.js:145-154 | after any sequence of events the widget is bouncing if and only if a click hit it after the last animation end, or it was already bouncing and no animation end came |
| Interaction.PointerIsLastMove | js/friend.js:142 | after any sequence of events the stored coordinates are those of the last move, or the initial ones when there was none |
| Debounce.Step | js/friend.js:177-183 | a call replaces any pending timer by one `delay` later and runs nothing; a tick runs the function exactly when a pending deadline is reached, and clears it |
| Debounce.RunAppend | js/friend.js:177-183 | running two event sequences one after the other is running their concatenation |
| Debounce.BurstTailQuiet | js/friend.js:179-181 | inside a burst nothing runs, and the deadline left pending is `delay` after the last call |
| Debounce.TicksFireOnce | js/friend.js:181 | clock ticks alone run the function once if some tick reaches the pending deadline, and never otherwise |
| Debounce.BurstRunsOnce | js/friend.js:177-183 | a burst of calls each under `delay` apart runs the function zero times by itself, and exactly once afterwards if a tick comes `delay` or more after the last call (zero times otherwise) |
| Debounce.Debouncer.Call | js/friend.js:179-181 | the wrapper's new timer is the one `Step` gives for a call |
| Debounce.Debouncer.Tick | js/friend.js:181 | the new timer and whether the function ran are those `Step` gives for a tick |
| Widget.ResolveAndPlace | js/friend.js:43-67 | the options and warnings are the resolved ones, both offsets are finite numbers, and the inset styles are those of the resolved corner and edge offset |
| Widget.Friend.constructor | js/friend.js:42-67 | takes the next counter value as the id; sets the element id from it; stores the resolved options and warnings and the corner's styles; starts with zero coordinates, centre and angle, not bouncing, and an idle 200 ms resize timer |
| Widget.Friend.HandleMouseMove | js/friend.js:142 | the handler's effect is `Apply` of a move |
| Widget.Friend.HandleClick | js/friend.js:145-151 | the handler's effect is `Apply` of a click |
| Widget.Friend.OnAnimationEnd | js/friend.js:154 | the handler's effect is `Apply` of an animation end |
| Widget.Friend.CalculateCenter | js/friend.js:157-162 | the stored centre is the rectangle's centre |
| Widget.Friend.AnimationLoop | js/friend.js:165-171 | the new angle is the smoothed step towards bearing + rotation offset |
| Widget.Friend.OnResize | js/friend.js:179-181 | a resize leaves a timer pending 200 ms later |
| Widget.Friend.ResizeTimerTick | js/friend.js:181 | a due timer recomputes the centre from the current rectangle and clears; otherwise the centre is unchanged |
| Widget.DistinctElementIds | js/friend.js:50-51 | two instances with different ids have different element ids |
| Widget.InfiniteRotationOffsetFreezesAsWritten | js/friend.js:165-170 | as written, `rotationOffset: Infinity` passes validation, the difference the loop wraps is `Infinity`, and the first loop's guard still holds after any number of rounds |
| Widget.NaNRotationOffsetPoisonsAngleAsWritten | js/friend.js:165-171 | as written, `rotationOffset: NaN` passes validation, and the difference and the updated angle are `NaN` |

## Left out

- The DOM, CSS and rendering: creating the element, the injected style sheet (`_getCssTemplate`), `zIndex`, the image, `mobileBreakpoint` and the `--rotation-angle` property are not modelled. The inset values are kept as `Px(value)` without rendering the number as text.
- Listener registration (`_setupEventListeners`), `bind` and `requestAnimationFrame` scheduling are left out. The handlers are methods the host is assumed to call. The initial `_calculateCenter` frame is the host calling `CalculateCenter`.
- `Math.atan2` and the radian-to-degree conversion: the pointer's bearing is a parameter of `AnimationLoop`.
- `getBoundingClientRect`: the rectangle is a parameter.
- `destroy` is not modelled. It removes listeners and nodes, but it does not cancel a pending debounced resize, so a timer can still fire after teardown. The model therefore makes no claim about state after `destroy`.
- `_calculateCenter`'s early return when there is no element: an instance always has its element once constructed, so that branch is not reachable in the model.
- The `?? 90` in `_animationLoop`: after validation `rotationOffset` is always a number, so the fallback never applies.
- Widget.Friend.constructor: places the element with the corrected corner lookup (`Corner.PositionStyles`), so a corner named after an inherited member such as `'toString'` gives a bottom-left widget. The code as written throws a TypeError at js/friend.js:191, after `_instanceCounter++` has used up an id. That failure is modelled only by `Corner.CornerEdgesAsWritten` (see "## Findings").
- Corner.CornerEdgesAsWritten: its "if and only if" covers the values modelled here. An array corner (converted to a key by joining its elements) and an object with its own `toString` are not modelled; such an object can turn into any key, or make the key conversion itself throw.
- Widget.ResolveAndPlace: uses the corrected corner lookup and the finite-number test, for the reasons given for the constructor and in "## Findings".
- Widget.Friend.AnimationLoop: requires `smoothing` to be a finite number. `smoothing` is never validated; in JavaScript a non-numeric value is coerced or yields `NaN`, and neither is modelled.
- Orientation.WrapDifference: terminates on every finite difference because finite numbers are exact reals here. With IEEE-754 doubles, a difference of more than 2^62 degrees is not changed by `-= 360` once rounded, so the loop as written never ends on it either. The finite-number test does not catch such values. Rounding is not modelled, nor is the 2^53 limit of the instance counter.
- Spreading a string or another primitive as `size` (index keys such as `"0"`) is not modelled: a non-object contributes no properties.
- The arguments forwarded by the debounced wrapper (`...args`, `func.apply`) are not modelled. The wrapped function always recomputes the centre.
- The console output of the validation is the `warnings` sequence, not text.
- js/scripts.js, the demo page script, is not part of this model.

## Findings

| source | as written | input that shows it | evidently intended | confidence | as-written member | corrected member |
|---|---|---|---|---|---|---|
| js/friend.js:189-191 | `cornerMap[this._options.corner]` also finds properties inherited from `Object.prototype`. Their values are truthy but have no `forEach`, so construction throws a TypeError. | `new Friend({ corner: 'toString' })` (also `'__proto__'`, `'constructor'`, ...) | any name other than the four corners falls back to bottom-left | high (not executed) | Corner.CornerEdgesAsWritten, Corner.ToStringCornerThrows | Corner.CornerEdges, Corner.CornerEdgesNeverFail, Widget.ResolveAndPlace, Widget.Friend.constructor |
| js/friend.js:60-67 | The `typeof … === 'number'` checks accept `NaN`, `Infinity` and `-Infinity`. An infinite `rotationOffset` makes the wrap loop at js/friend.js:169 (or 170) run forever on the first frame. A `NaN` one makes the angle `NaN` on every frame. | `new Friend({ rotationOffset: Infinity })`; `new Friend({ rotationOffset: NaN })` | a non-finite offset falls back to its default with a warning, like a non-numeric one | medium (not executed) | FriendOptions.ValidateAsWritten, FriendOptions.AsWrittenKeepsNonFiniteOffset, Widget.InfiniteRotationOffsetFreezesAsWritten, Widget.NaNRotationOffsetPoisonsAngleAsWritten | FriendOptions.Validate, FriendOptions.ValidateFallsBackToDefaults, FriendOptions.Resolve, FriendOptions.ResolveIsTotal, FriendOptions.LegacyKeysOverrideDefaults, Widget.Friend.constructor, Orientation.FiniteDifferenceLeavesLoop, Orientation.WrapDifference |
