# BingSwitch, modelled in Dafny

BingSwitch is a custom Android toggle-switch view. A thumb slides across a
track. A tap flips the checked value. A drag flips it only when the thumb is
released past the midpoint of its travel. Every change of the value is
reported to an optional listener. After each change the thumb animates to the
resting position for the new value.

This project models the view's logic with Android's plumbing removed:

- `geometry.dfy` (module `Geometry`) covers the `onMeasure` arithmetic. It
  holds the size rule for each measure-spec mode, the track's top for each
  vertical gravity, and the thumb stops: `off`, `on` and the midpoint `half`.
  Java's truncating `/` is written out as `Quot`.
- `touch_machine.dfy` (module `TouchMachine`) models the widget's mutable
  state as a `Widget` value. It has one function per event: pointer
  down/move/up, `setChecked`, `toggle` and an animation frame. It also proves
  lemmas about arbitrary sequences of these events. The listener's calls are
  the `log` field.
- `drawing.dfy` (module `Drawing`) covers `onDraw`: which track and thumb
  drawables are picked, and the rectangles they are given.
- `bing_switch.dfy` (module `View`) holds the class `BingSwitch`. Its fields
  are updated in place, as in the Java class. `Model()` views the
  touch-relevant fields as a `Widget`. Every state-changing method is proved
  to move `Model()` exactly as the matching `TouchMachine` function does. The
  listener's calls are kept in the ghost field `notifications`.

Inputs the host decodes are taken as parameters: measure specs, gravity,
paddings, drawable intrinsic sizes, the inner margin in pixels, pointer x, and
the elapsed animation time.

The thumb follows the pointer: the code computes `downThumbX - (downX - x)`
(BingSwitch.java:229-231), so with off = 10 and on = 50 a press at x = 100 and
a move to x = 70 clamp the thumb at 10, and the release does not flip
(`TouchMachine.LeftDragStaysOff`).

## Model

| member | source | states |
|---|---|---|
| `Geometry.ResolveSize` | lib/src/main/java/com/jpfeng/bingswitch/BingSwitch.java:108-138 | EXACTLY gives the larger of the requested size and the track size; AT_MOST gives the smaller of the requested size and padding+track; otherwise the larger of padding+track and the track. Each is stated as "bounds both, equals one". |
| `Geometry.SwitchTop` | lib/src/main/java/com/jpfeng/bingswitch/BingSwitch.java:140-153 | TOP puts the track on the top padding. BOTTOM rests it on the bottom padding. Centre and unknown gravity split the vertical slack: the upper gap is the truncated half of the slack, and the lower gap differs from it by at most one. |
| `Geometry.Stops` | lib/src/main/java/com/jpfeng/bingswitch/BingSwitch.java:155-157 | `off` is one inner margin inside the track's left edge. `on` leaves one inner margin right of the thumb. `off <= on` iff thumb + 2·margin fits in the track. `half` always lies between `off` and `on`, and when `off <= on` it splits the travel into halves differing by at most one. |
| `Geometry.DivFacts` | lib/src/main/java/com/jpfeng/bingswitch/BingSwitch.java:157 | Dafny's division of a non-negative number by a positive one gives a non-negative quotient q with q·d ≤ n < q·d + d; the base fact for Java's truncating `/`. |
| `Geometry.Measure` | lib/src/main/java/com/jpfeng/bingswitch/BingSwitch.java:108-157 | One measure pass, in each dimension: EXACTLY gives the larger of the requested size and the track; AT_MOST the smaller of the requested size and padding+track; UNSPECIFIED the larger of padding+track and the track. TOP and BOTTOM place the track on the matching padding; centre and any other gravity put the truncated half of the slack above it; the stops sit one inner margin inside the track, are ordered iff thumb + 2·margin fits, and the midpoint lies between them. |
| `Geometry.QuotTruncates` | lib/src/main/java/com/jpfeng/bingswitch/BingSwitch.java:157 | Java's `/` by a positive divisor rounds toward zero: the result never overshoots the dividend and misses it by less than the divisor. |
| `Geometry.QuotOfScaled` | lib/src/main/java/com/jpfeng/bingswitch/BingSwitch.java:288-290 | A truncated fraction k/d (0 ≤ k ≤ d) of a distance lies between 0 and that distance, so an interpolated thumb never overshoots. |
| `TouchMachine.Clamp` | lib/src/main/java/com/jpfeng/bingswitch/BingSwitch.java:233-238 | Below `off` gives `off`, above `on` gives `on`, in range is unchanged. When `off <= on` the result lies in [off, on]. |
| `TouchMachine.CallListener` | lib/src/main/java/com/jpfeng/bingswitch/BingSwitch.java:295-300 | With a registered listener, exactly one call carrying the current value is logged. Without one, nothing is logged. Nothing else changes. |
| `TouchMachine.AnimThumb` | lib/src/main/java/com/jpfeng/bingswitch/BingSwitch.java:277-282 | The animation (re)starts at the thumb's current position and targets the resting position of the current value (`on` if checked, else `off`). It replaces any animation in flight. Nothing else changes. |
| `TouchMachine.PointerDown` | lib/src/main/java/com/jpfeng/bingswitch/BingSwitch.java:215-221 | DOWN enters TOUCHING and records `downX = x` and `downThumbX = pos`. Nothing else changes. |
| `TouchMachine.PointerMove` | lib/src/main/java/com/jpfeng/bingswitch/BingSwitch.java:223-241 | A MOVE to `downX` changes nothing. Any other x enters DRAGGING, whatever the mode, and sets `pos` to `downThumbX + (x - downX)` clamped. With `off <= on`, `pos` stays in [off, on], and the thumb moves the way the pointer moved. `checked`, the log and the animation are untouched. |
| `TouchMachine.PointerUp` | lib/src/main/java/com/jpfeng/bingswitch/BingSwitch.java:243-266 | UP always ends IDLE. `checked` flips iff the mode was TOUCHING, or DRAGGING with `(pos >= half) != checked`. Exactly one notification is logged iff it flipped and a listener exists. From TOUCHING/DRAGGING the animation targets the new resting position. From IDLE nothing changes. |
| `TouchMachine.OnTouch` | lib/src/main/java/com/jpfeng/bingswitch/BingSwitch.java:214-267 | Dispatch of `onTouchEvent`: only UP can change `checked`, notify or start an animation. DOWN, MOVE and UP give exactly `PointerDown`, `PointerMove` and `PointerUp`. So DOWN enters TOUCHING at x without moving the thumb, a MOVE to a new x enters DRAGGING with the clamped thumb, and UP applies the release flip rule and ends IDLE. Any other action changes nothing. |
| `TouchMachine.Toggle` | lib/src/main/java/com/jpfeng/bingswitch/BingSwitch.java:325-330 | `checked` flips. The thumb snaps to the old resting position. The listener hears the new value once. The animation runs from the old to the new resting position. |
| `TouchMachine.SetChecked` | lib/src/main/java/com/jpfeng/bingswitch/BingSwitch.java:316-323 | With the current value, nothing changes at all. Otherwise it does the same flip as toggle: snap, take `b`, notify once with `b`, animate to the new rest. Afterwards `checked == b` in both cases. |
| `TouchMachine.Frame` | lib/src/main/java/com/jpfeng/bingswitch/BingSwitch.java:284-293 | Without an animation nothing changes. During one, the thumb lies between the start and the target and starts at the start. Before 250 ms the animation keeps running unchanged. At or after 250 ms the thumb lands on the target and the animation stops. Only `pos` and the animation change. |
| `TouchMachine.Relayout` | lib/src/main/java/com/jpfeng/bingswitch/BingSwitch.java:155-158 | A layout pass replaces the three stops and snaps the thumb to the resting position of the current value. Nothing else changes, not even a running animation. |
| `TouchMachine.RelayoutEstablishesInv` | lib/src/main/java/com/jpfeng/bingswitch/BingSwitch.java:155-158 | A layout pass where the thumb fits, with no animation running, leaves the thumb inside [off, on]. |
| `TouchMachine.RelayoutEstablishesRest` | lib/src/main/java/com/jpfeng/bingswitch/BingSwitch.java:155-158 | A layout pass with no animation running leaves the thumb on the resting position of the current value, so the at-rest invariant holds. |
| `TouchMachine.ApplyStep` | lib/src/main/java/com/jpfeng/bingswitch/BingSwitch.java:210-330 | Each event notifies exactly when it changes `checked`, with the new value, and never alters the stops or the listener. |
| `TouchMachine.ApplyKeepsInv` | lib/src/main/java/com/jpfeng/bingswitch/BingSwitch.java:210-330 | Every event preserves the invariant: the thumb and both animation endpoints stay in [off, on]. |
| `TouchMachine.RunKeepsInv` | lib/src/main/java/com/jpfeng/bingswitch/BingSwitch.java:210-330 | The invariant holds after any sequence of touches, setChecked/toggle calls and animation frames between layout passes, and the stops stay as they were. |
| `TouchMachine.ApplyKeepsRest` | lib/src/main/java/com/jpfeng/bingswitch/BingSwitch.java:210-330 | Every event keeps the at-rest invariant: a running animation heads for the resting position of the current value, and a thumb that is IDLE and not animating sits on it. |
| `TouchMachine.RunKeepsRest` | lib/src/main/java/com/jpfeng/bingswitch/BingSwitch.java:210-330 | After any sequence of touches, setChecked/toggle calls and animation frames between layout passes, a running animation still heads for the current value's resting position and a settled thumb sits on it. |
| `TouchMachine.RunNotifiesChanges` | lib/src/main/java/com/jpfeng/bingswitch/BingSwitch.java:243-330 | Over any event sequence, a registered listener hears exactly the successive changes of `checked`, in order. Without a listener nothing is logged. |
| `TouchMachine.ChangesAlternate` | lib/src/main/java/com/jpfeng/bingswitch/BingSwitch.java:243-330 | The reported values alternate. The first differs from the initial value and the last equals the final value. When nothing is reported the value is unchanged. |
| `TouchMachine.TapFlips` | lib/src/main/java/com/jpfeng/bingswitch/BingSwitch.java:244-249 | DOWN then UP flips `checked`, notifies once with the new value, and starts an animation. |
| `TouchMachine.MoveToPressPointIsTap` | lib/src/main/java/com/jpfeng/bingswitch/BingSwitch.java:224-226 | A MOVE back to the press x between DOWN and UP leaves the gesture a tap. |
| `TouchMachine.DragFlipsIffOtherSide` | lib/src/main/java/com/jpfeng/bingswitch/BingSwitch.java:251-262 | After DOWN and a MOVE to a different x, the release flips iff the thumb ends on the other side of `half` from the side of the current value. |
| `TouchMachine.LeftDragStaysOff` | lib/src/main/java/com/jpfeng/bingswitch/BingSwitch.java:228-238 | With off=10, on=50, half=30 and unchecked: press at 100, move to 70 clamps the thumb at 10. The release does not flip, notifies nothing, and animates 10 → 10. |
| `TouchMachine.SetCheckedIdempotent` | lib/src/main/java/com/jpfeng/bingswitch/BingSwitch.java:316-323 | setChecked with the current value is the identity. Repeating a setChecked changes nothing more. |
| `TouchMachine.ToggleTwice` | lib/src/main/java/com/jpfeng/bingswitch/BingSwitch.java:325-330 | Two toggles restore `checked`. A listener hears both flips (`!c` then `c`). The thumb animates back toward the original resting position. |
| `TouchMachine.OtherActionIgnored` | lib/src/main/java/com/jpfeng/bingswitch/BingSwitch.java:214-267 | An action other than DOWN, MOVE or UP (for example CANCEL) changes nothing, so the mode stays as it was. |
| `Drawing.SelectTrack` | lib/src/main/java/com/jpfeng/bingswitch/BingSwitch.java:174-190 | TOUCHING or DRAGGING give the touching track whatever the value. IDLE gives the checked track iff checked, and the unchecked track iff unchecked. |
| `Drawing.SelectThumb` | lib/src/main/java/com/jpfeng/bingswitch/BingSwitch.java:174-190 | The thumb is black exactly when IDLE and unchecked; otherwise it is white. |
| `Drawing.TrackBounds` | lib/src/main/java/com/jpfeng/bingswitch/BingSwitch.java:192-196 | The track is right-aligned at `width - padRight`, has the track's intrinsic width and height, and starts at the computed top. |
| `Drawing.ThumbBounds` | lib/src/main/java/com/jpfeng/bingswitch/BingSwitch.java:199-203 | The thumb's left edge is `pos`. Its top is one inner margin below the track top. Its size is the thumb's intrinsic size. |
| `Drawing.ThumbInsideTrack` | lib/src/main/java/com/jpfeng/bingswitch/BingSwitch.java:155-203 | A thumb anywhere in [off, on] is drawn inside the track, at least one inner margin from either side. It is also one margin below the top, and one above the bottom when it fits vertically. |
| `View.BingSwitch.constructor` | lib/src/main/java/com/jpfeng/bingswitch/BingSwitch.java:45-77 | A new view is unchecked and IDLE, with no listener and no animation. The stops, thumb, press origin, measured box, track top, paddings and intrinsic sizes are all zero. It satisfies both the range invariant and the at-rest invariant. |
| `View.BingSwitch.OnMeasure` | lib/src/main/java/com/jpfeng/bingswitch/BingSwitch.java:80-165 | Stores paddings and drawable sizes (0 for a missing drawable). Sets the measured size, the track top and the stops from `Geometry.Measure`. The state moves as `Relayout`. |
| `View.BingSwitch.StoreLayout` | lib/src/main/java/com/jpfeng/bingswitch/BingSwitch.java:87-153 | Records paddings, intrinsic sizes (0 for a missing drawable), measured size and track top. |
| `View.BingSwitch.PlaceThumb` | lib/src/main/java/com/jpfeng/bingswitch/BingSwitch.java:155-158 | Stores the stops and snaps the thumb to its resting position, exactly as `Relayout`. |
| `View.BingSwitch.OnDraw` | lib/src/main/java/com/jpfeng/bingswitch/BingSwitch.java:167-207 | Returns the drawables and rectangles of `SelectTrack`/`SelectThumb`/`TrackBounds`/`ThumbBounds` for the current fields. |
| `View.BingSwitch.OnTouchEvent` | lib/src/main/java/com/jpfeng/bingswitch/BingSwitch.java:209-271 | Returns true for every action. The state moves exactly as `OnTouch`, that is, as `PointerDown`/`PointerMove`/`PointerUp`, and other actions leave it alone. |
| `View.BingSwitch.AnimThumb` | lib/src/main/java/com/jpfeng/bingswitch/BingSwitch.java:277-282 | The scroller field moves as `TouchMachine.AnimThumb`. |
| `View.BingSwitch.ComputeScroll` | lib/src/main/java/com/jpfeng/bingswitch/BingSwitch.java:284-293 | Thumb and scroller move as `Frame`. |
| `View.BingSwitch.CallOnCheckedChangeListener` | lib/src/main/java/com/jpfeng/bingswitch/BingSwitch.java:295-300 | The notification log moves as `CallListener`. |
| `View.BingSwitch.GetChecked` | lib/src/main/java/com/jpfeng/bingswitch/BingSwitch.java:312-314 | Returns the checked value and changes nothing. |
| `View.BingSwitch.SetChecked` | lib/src/main/java/com/jpfeng/bingswitch/BingSwitch.java:316-323 | The state moves exactly as `TouchMachine.SetChecked`. |
| `View.BingSwitch.Toggle` | lib/src/main/java/com/jpfeng/bingswitch/BingSwitch.java:325-330 | The state moves exactly as `TouchMachine.Toggle`. |
| `View.BingSwitch.SetOnCheckedChangeListener` | lib/src/main/java/com/jpfeng/bingswitch/BingSwitch.java:332-334 | Registers (or, for null, clears) the listener. Nothing else changes. |

## Left out

- Android rendering is left out: `Canvas`, `Drawable.setBounds/draw`, `invalidate()`, and `super.onMeasure`/`onDraw`/`computeScroll`. `onDraw` returns the drawable choice and the rectangles instead of painting them. `setMeasuredDimension` is modelled as the `measuredHeight`/`measuredWidth` fields.
- Loading the drawables into static fields (BingSwitch.java:25-29, 66-71) is left out. Their intrinsic sizes are parameters of `OnMeasure`, and `Missing` stands for a null drawable.
- `View.BingSwitch.OnDraw`: the null drawable is not modelled here. `onDraw` calls `setBounds` on the chosen track and thumb without a null check (BingSwitch.java:196, 203), so a null drawable there throws `NullPointerException`. That includes `mTrackCheckedNormal`, `mTrackTouching` and `mThumbWhite`, which `onMeasure` never checks. The model's `OnDraw` always returns the two rectangles, so it assumes every drawable is loaded.
- `dp2px` uses floating point. The inner margin in pixels is a constructor parameter.
- Decoding a `MeasureSpec`, masking the gravity bits and casting `MotionEvent.getX()` to int are left out. The model takes the decoded mode, gravity and int x.
- The Scroller's clock is a parameter: `ComputeScroll` receives the milliseconds since the animation started.
- `TouchMachine.Frame`: the Scroller's easing curve is replaced by linear interpolation with truncation. The properties stated are the ones that any monotone easing shares: it starts at the start, stays between start and target, and ends on the target after 250 ms.
- The Scroller's y coordinate (`mPaddingTop + mInnerMarginPx`) is left out; only the x coordinate moves the thumb.
- Debug logging (`printDebugLog`, both overloads) has no effect on the state and is left out.
- Java's 32-bit `int` arithmetic is modelled with unbounded integers. Overflow in the layout sums or the drag delta is not modelled.
- The demo activity (`sample/.../MainActivity.java`) is left out. It only wires the listener to a stock switch and calls `setChecked`/`toggle`.
- `TouchMachine.RunKeepsInv` covers only events between layout passes. A layout pass during a running animation leaves the scroller heading for stale endpoints, as the source does, so `RelayoutEstablishesInv` and `RelayoutEstablishesRest` assume no animation is running.
- The listener is assumed not to call back into the widget. In the source, `onCheckedChange` runs between the flip and `animThumb()`. A listener that called `toggle`/`setChecked` there would nest a second flip and notification before the first animation starts. The "exactly one notification" contracts, `RunNotifiesChanges` and `ChangesAlternate` rest on this assumption. The demo's listener only calls back behind a `getChecked() != isChecked` guard, which makes its re-entry a no-op.
- The listener object itself is reduced to whether one is registered. Its effects on the host are not modelled; the calls it receives are the log.
