# Scroll time picker: a verified model of the wheel column

The time picker shows two wheel columns, one for hours and one for minutes.
Each column is a `Selector`. It renders a window of `n + 4` labelled items:
the values `0 .. n-1`, plus two padding copies before and two after. The list
is moved with a CSS `translateY` offset. Presses, pointer moves, releases and
wheel events move the list. When the list passes a bound it re-anchors at the
other end. When the list settles, the column reads the label of the item at
the current offset and hands it to the host's `_onTimeSelect`. The host
stores that value in the named field of the chosen time.

The model has three modules:

- `WheelMath` (wheel_math.dfy) holds the pure arithmetic:
  - the window labels;
  - JavaScript's truncating `%`;
  - the snap to the nearest item;
  - the wrap-around translation;
  - the offset-to-value lookup;
  - the start offset.
- `SelectorSpec` (selector_spec.dfy) holds the column's event machine as
  functions on values (`Step`, `Reports`) and the lemmas about it.
- `TimePicker` (time_picker.dfy) holds the classes:
  - `Selector`, whose fields are updated in place by its handlers. Each
    handler is proved to perform exactly `SelectorSpec.Step`.
  - `Picker`, the host. It owns both selectors and the chosen time.

Offsets are integers in pixels; a more negative offset moves the list further
up. An offset `-k*h` for slot `k` in `1 .. n+1` shows the value `(k-1) mod n`.
The item height `h` is a parameter. It is a positive even number, so half an
item is a whole pixel.

## Model

| member | source | states |
|---|---|---|
| `WheelMath.Label` | src/app/time-picker/time-picker.component.ts:172-178 | For at least two values, every window entry -2 .. n+1 is labelled with a value of the column that agrees with the entry modulo n |
| `TimePicker.BuildWindow` | src/app/time-picker/time-picker.component.ts:165-185 | The window has n+4 entries in order, each labelled by Label. The first two are n-2 and n-1, the last two are 0 and 1, and every label is a value of the column |
| `WheelMath.JsRem` | src/app/time-picker/time-picker.component.ts:253 | `%` on a negative offset keeps the dividend's sign. Its magnitude is below the height, and it differs from the dividend by a multiple of the height |
| `WheelMath.Snap` | src/app/time-picker/time-picker.component.ts:252-258 | The correction to the nearest item lies in [-h/2, h/2). It puts any non-positive offset on the item grid and is 0 for an offset already on the grid |
| `WheelMath.Translate` | src/app/time-picker/time-picker.component.ts:225-243 | Inside the bounds the translation is the cyclic shift, which is the plain move. Past the top bound it falls short of the cyclic shift by `offset + bound`, the offset's distance below the bound before the move. Past the bottom bound it falls short by `offset + n*h + bound`. The bound is h/2 while dragging and h otherwise |
| `WheelMath.TranslateCyclic` | src/app/time-picker/time-picker.component.ts:231-241 | The corrected wrap differs from the plain move by a whole number of cycles of n items, so it shows the same value. Inside the bounds it is the plain move |
| `WheelMath.WrapsAgreeOnlyAtBound` | src/app/time-picker/time-picker.component.ts:231-241 | Each re-anchoring formula equals a shift by one full cycle of n items exactly when the offset sat on the bound it crossed |
| `WheelMath.ItemIndex` | src/app/time-picker/time-picker.component.ts:261 | The element index is a whole number exactly when the offset is on the item grid. It is then one more than the number of items above the offset |
| `WheelMath.Resolve` | src/app/time-picker/time-picker.component.ts:260-267 | A value is read only for an offset on the grid whose element exists. For at least two values it is a value of the column |
| `WheelMath.ResolveSlot` | src/app/time-picker/time-picker.component.ts:260-264 | Offset `-k*h`, for k in 1 .. n+1, reads element k+1, whose label is (k-1) mod n |
| `SelectorSpec.Initial` | src/app/time-picker/time-picker.component.ts:187-196 | A new column is live and outside any drag session. The rendered offset shows the start index, or 0 when it is absent, 0 or out of range. The offset the arithmetic starts from shows 0 |
| `WheelMath.InitialShowsStart` | src/app/time-picker/time-picker.component.ts:187-196 | The first rendering shows the start index. It shows 0 when there is no start index, when the start index is 0, or when it is out of range |
| `TimePicker.Selector.GetStartOffset` | src/app/time-picker/time-picker.component.ts:270-280 | An out-of-range start index is reset to 0 and logged. The offset is `-(start+1)*h` |
| `TimePicker.Selector.constructor` | src/app/time-picker/time-picker.component.ts:98-113 | The window is built, the arithmetic offset is one item up, and the list is rendered at the start offset when a truthy start index is given |
| `TimePicker.Selector.ChangeTranslateY` | src/app/time-picker/time-picker.component.ts:225-250 | Both the stored and the rendered offset become Translate of the old offset, with the bound chosen by the drag flag |
| `TimePicker.Selector.SelectCurrent` | src/app/time-picker/time-picker.component.ts:260-268 | Reports the label at the current offset, tagged with the selector's name, or nothing when that element does not exist |
| `TimePicker.Selector.DragStart` | src/app/time-picker/time-picker.component.ts:127-135 | A press on a live column starts a drag session at the pointer position |
| `TimePicker.Selector.DragMove` | src/app/time-picker/time-picker.component.ts:137-140 | A move inside a session re-reads the rendered offset, shifts it by the pointer displacement with the half-item bound, and re-anchors. Outside a session it does nothing |
| `TimePicker.Selector.DragEnd` | src/app/time-picker/time-picker.component.ts:141-148 | A release inside a session ends it, snaps the list with the idle bound and reports the value there. Outside a session it does nothing |
| `TimePicker.Selector.Wheel` | src/app/time-picker/time-picker.component.ts:154-160 | A wheel event ends any session, steps one item from the nearest item in the direction of the wheel delta (or follows the pointer when the delta is 0), and reports |
| `SelectorSpec.Step` | src/app/time-picker/time-picker.component.ts:122-163 | One event never revives or kills the column. The drag flag is set by a press, kept by a move and cleared by a release or a wheel event. A value is reported only on a release inside a session or on a wheel event; it is read from an offset on the item grid and, for at least two values, is a value of the column |
| `TimePicker.Selector.OnEvent` | src/app/time-picker/time-picker.component.ts:122-163 | Each device event reaches its handler. The column's new state and report are those of SelectorSpec.Step |
| `TimePicker.Selector.Destroy` | src/app/time-picker/time-picker.component.ts:115-120 | Teardown ends any drag session and leaves the offsets as they were; later events do nothing |
| `SelectorSpec.TornDownIsInert` | src/app/time-picker/time-picker.component.ts:115-120 | After teardown no run of events reports anything to the host, whatever the events are |
| `SelectorSpec.WheelFromSlot` | src/app/time-picker/time-picker.component.ts:209-213 | From a list resting on an item, a positive wheel delta shows the previous value (0 wraps to n-1) and a negative one the next value (n-1 goes to 0). The list stays on item slots 1 .. n+1 |
| `SelectorSpec.WheelStepsOneItem` | src/app/time-picker/time-picker.component.ts:225-243 | A one-item step from slot k lands on the neighbouring slot. Slot 1 up wraps to slot n, and slot n+1 down wraps to slot 2 |
| `SelectorSpec.MinutesWheelScenario` | src/app/time-picker/time-picker.component.ts:60-68 | The minutes column as the host builds it, with start index 0, reports 59 after one wheel step up and 1 after one step down |
| `SelectorSpec.MoveKeepsBand` | src/app/time-picker/time-picker.component.ts:201-243 | A drag move by at most one cycle of n items keeps the rendered offset between the lowest item and the top half-item bound, and re-anchors at the pointer |
| `SelectorSpec.MovesTelescope` | src/app/time-picker/time-picker.component.ts:214-216 | Without a wrap, the moves of a drag add up: the list is displaced by the pointer's total displacement since the press |
| `SelectorSpec.ReleaseLands` | src/app/time-picker/time-picker.component.ts:141-146 | A release from within the band moves the list by at most half an item onto a slot 1 .. n+1 and reports that slot's value, which is in range |
| `SelectorSpec.NearestSlot` | src/app/time-picker/time-picker.component.ts:252-258 | Snapping an offset in the band lands on one of the item slots 1 .. n+1 |
| `SelectorSpec.ClickWithoutMoveShowsZero` | src/app/time-picker/time-picker.component.ts:188-196 | A press and release with no move settles from the stored offset rather than the rendered one, so the column shows and reports 0 whatever the start index |
| `SelectorSpec.AsWrittenDragFromPadding` | src/app/time-picker/time-picker.component.ts:238-241 | As written, a list resting on the padding copy of 0 that is dragged down by less than half an item ends off the grid after the release and reports nothing |
| `SelectorSpec.HoursPaddingDragScenario` | src/app/time-picker/time-picker.component.ts:231-241 | The hours column with 30-pixel items: wheel up, wheel down, press, move one pixel, release reports 23, 0 and then nothing as written, but 0 with the cyclic wrap |
| `SelectorSpec.HorizontalScrollLeavesGrid` | src/app/time-picker/time-picker.component.ts:214-216 | A wheel event without a vertical delta follows the pointer instead of stepping one item. On either wrap it can leave the list between two items, with no report |
| `SelectorSpec.CyclicStepKeepsBand` | src/app/time-picker/time-picker.component.ts:201-267 | With the cyclic wrap, an ordinary event (a move of at most n items, or a wheel event with a nonzero vertical delta) keeps both offsets in the band, and every event that owes a value reports one of the column's values |
| `SelectorSpec.CyclicRunNeverBreaks` | src/app/time-picker/time-picker.component.ts:137-160 | With the cyclic wrap, no run from the band misses a report, provided each move is at most n items and each wheel event has a nonzero vertical delta |
| `SelectorSpec.CorrectedWrapAlwaysReports` | src/app/time-picker/time-picker.component.ts:225-250 | With the cyclic wrap, every run from construction, with any start index, reports a value of the column on every release and every wheel event, provided each move is at most n items and each wheel event has a nonzero vertical delta |
| `TimePicker.Picker.constructor` | src/app/time-picker/time-picker.component.ts:47-69 | The chosen time is set to 00:00. The hours column has 24 values and the minutes column 60, each started at the chosen value |
| `TimePicker.Picker.OnTimeSelect` | src/app/time-picker/time-picker.component.ts:71-75 | Stores the reported value in the field the selector names and leaves the other field unchanged |
| `TimePicker.Picker.Dispatch` | src/app/time-picker/time-picker.component.ts:50-72 | An event delivered to one column steps that column by SelectorSpec.Step and leaves the other untouched. The chosen time changes only by the reported value, in the reporting column's field |
| `TimePicker.Picker.Destroy` | src/app/time-picker/time-picker.component.ts:82-85 | Teardown of the host tears down both columns |

## Left out

- DOM and `Renderer2` calls (creating elements, text nodes, styles, `touch-action`, the root height) are not modelled. The rendered transform is the integer field `rendered`.
- `_getElFullHeight` reads computed styles with `parseFloat`. It is replaced by the item height `h`, a positive even whole number of pixels. Fractional heights and odd heights (where `h / 2` is not whole) are not modelled.
- The transform is read back with the regular expression `/-?\d+/`. It is modelled as reading back the integer that was written. Because offsets are integers, that is exact.
- The rxjs wiring (`fromEvent`, `switchMap`, `takeUntil`, `skip(1)`, unsubscription) is modelled by its observable effect. Moves and releases count only inside a drag session. A press or a wheel event ends the session. Nothing counts after teardown.
- `_selectCurrentEl` with a fractional or out-of-range index reads `.id` of `undefined` and throws a `TypeError`. The model turns that into "no report". What the exception does to the rxjs subscription is not modelled.
- Mouse and touch drag sessions are separate streams in the source: a touch session listens only for `touchmove` and `touchend`, a mouse session only for `mousemove` and `mouseup`. The model has one stream of `Press`, `Move` and `Lift` events, so a move or release from the other device acts on the session here. It does not in the source.
- JavaScript truthiness of a pointer position of 0 is not modelled. `event.y || changedTouches[0].pageY` and `else if (event['y'])` are read as "the pointer's y" for every y. Touch events carry their `pageY` in the same parameter.
- `DecimalPipe` formatting of the label text and the string form of `id` with `Number(...)` are not modelled. Labels are the integers themselves.
- `console.log` and `console.error` output is not modelled. The range error is recorded in the boolean field `loggedRangeError`.
- Selector names are the datatype `Column` (`Hours`, `Minutes`) instead of strings.
- The `hoursFormat` input is fixed at its default of 24, and the `date` input is unused by the source (`_setCurrentTime` sets 00:00). The `timeChange` output is never emitted by the source, so it is not modelled.
- `WheelMath.Label`: with a single value (n = 1) the padding labels fall outside the column, so its range guarantee is stated for at least two values only.
- `WheelMath.InitialShowsStart`: negative start indexes are not covered. The source only passes the chosen time's fields, which are never negative.

## Findings

| source | as written | input that shows it | evidently intended | confidence | as-written member | corrected member |
|---|---|---|---|---|---|---|
| src/app/time-picker/time-picker.component.ts:231-241 | The re-anchoring `newValue - listHeight + 4h - boundsStart` (top) and `newValue - boundsStart` (bottom) assume the list sat exactly on the bound it crossed. After a wheel step down from n-1 the list rests on the padding copy of 0, at `-(n+1)h`. A drag of d pixels down (0 < d < h/2) then bottom-wraps to `d - h/2`. The release snaps that to 0, which top-wraps with the idle bound to `-(n+1)h + h/2 - d`. That offset is between two items, so no element is read | Hours column, 30-pixel items, no start index: wheel up, wheel down, press at y=100, move to y=101, release. The reports are 23, 0, then nothing on the release | Wrap by one full cycle: `t - n*h` past the top bound and `t + n*h` past the bottom bound. With that wrap the release above reports 0. Every run from construction then reports a value of the column on each release and wheel event, provided each move is at most n items and each wheel event has a nonzero vertical delta. A horizontal scroll (wheel delta 0) follows the pointer and can still leave the list off the grid | not executed | `SelectorSpec.HoursPaddingDragScenario` | `SelectorSpec.CorrectedWrapAlwaysReports` |

The classes keep the translation as written (`WheelMath.Translate`). The cyclic wrap (`WheelMath.TranslateCyclic`) is the `Cyclic` mode of `SelectorSpec.Step`. The correctness theorem is proved about that mode.
