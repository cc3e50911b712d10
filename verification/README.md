# Jbak Keyboard: fling classifier and key background, in Dafny

This project models two pieces of the Jbak on-screen keyboard for Android.

The first is the keyboard view's fling listener (`KeyboardGesture.KvListener`). Its
`onFling` takes the touch-down and touch-up positions and the release velocity. It then
decides between four outcomes:

- a horizontal swipe (RIGHT or LEFT);
- a vertical swipe (DOWN or UP);
- a motion that is consumed without a direction;
- a motion it does not handle.

The same listener has a first-match hit test, `getKey`, and the module has the
`GestureInfo` value handed to the view.

The second is `GradBack`, the rounded-rectangle key background. The model covers:

- its state search `hasState` and `changeState`;
- the layers `draw` paints for a given state set;
- the inset rectangle set by `onResize`;
- the fill chosen by `makeBackground`;
- its fluent setters and constructors.

Files:

- `wrappers.dfy`: `Option`, standing in for a Java reference that may be null.
- `keyboard_gesture.dfy`: module `KeyboardGesture`. Contains `OnFling`, a division-free
  reference statement of its two gates (`HorizontalSwipe`, `VerticalSwipe`), the
  properties connecting the two, and `GetKey`.
- `grad_back.dfy`: module `GradBack`. The object is an immutable record. Each setter,
  `ChangeState` and `OnResize` return the updated record. `Draw` returns the list of
  canvas calls as `DrawOp` values.

Modelling choices:

- Positions and velocities are `real`. The side-effecting `m_kv.gesture(...)` call
  becomes the `emitted` field of the result.
- The thresholds are named constants: `minGestSize` = 100 and `deltaDelim` = 1.5. The
  inline literals are 1000 for the velocity floor and 2.5 for the velocity ratio.
- The vertical displacement gate uses `deltaDelim` (1.5), the same ratio as the
  horizontal gate, not 2.5. The only 2.5 in the code is the `|vY / vX|`
  velocity-dominance ratio. `VerticalRatioIsDeltaDelim` shows that a drag of 75 across
  and 150 down (ratio 2) with vertical velocity 1200 is a DOWN swipe.
- A drag of 150 across and 200 down with velocity (1500, 1800) fails both gates.
  The horizontal gate fails because 150/200 = 0.75 < 1.5. The vertical gate fails
  because 200/150 < 1.5, and its velocity test fails too because 1800/1500 < 2.5. It is consumed without a direction
  (`DiagonalDragConsumedUnclassified`).
- A `LatinKey` is known only by its identity (`LatinKey(id)`). `GestureInfo` carries an
  optional one as its down key.
- `Key.isInside` is a function parameter of `GetKey`. The current keyboard's key list
  is a sequence parameter.
- The `android.R.attr.state_pressed`, `state_checked` and `state_checkable` values are
  the framework's constants. Only their being distinct matters to the model.
- The paints are modelled as fills. The pressed overlay is solid `0x44ffffff`, the
  checked mark is `Color.GREEN` and the checkable mark is `Color.DKGRAY`.

## Model

| member | source | states |
|---|---|---|
| KeyboardGesture.OnFling | src/com/jbak/JbakKeyboard/KeyboardGesture.java:28-52 | total: every ratio is evaluated only behind the guard that rules out a zero divisor; the result is `true` exactly when the displacement reaches 100 on some axis; an emitted gesture implies `true`, has direction LEFT, RIGHT, UP or DOWN, and a null down key |
| KeyboardGesture.HorizontalGateIff | src/com/jbak/JbakKeyboard/KeyboardGesture.java:37 | the guarded horizontal test (size 100, `mdy` zero or `mdx/mdy` at least 1.5, absolute `vX` above 1000) is equivalent to its division-free form with `mdx >= 1.5*mdy` |
| KeyboardGesture.VerticalGateIff | src/com/jbak/JbakKeyboard/KeyboardGesture.java:43 | the guarded vertical test (ratio 1.5 on displacement; `vX` zero or absolute `vY/vX` at least 2.5 on velocity) is equivalent to its division-free form |
| KeyboardGesture.HorizontalWins | src/com/jbak/JbakKeyboard/KeyboardGesture.java:37-42 | when the horizontal gate holds, the result is `true` with RIGHT if `vX > 0` and LEFT otherwise, whatever the vertical velocity and displacement |
| KeyboardGesture.VerticalWhenHorizontalFails | src/com/jbak/JbakKeyboard/KeyboardGesture.java:43-48 | when the horizontal gate fails and the vertical gate holds, the result is `true` with DOWN if `vY > 0` and UP otherwise |
| KeyboardGesture.NoGateNoGesture | src/com/jbak/JbakKeyboard/KeyboardGesture.java:37-51 | when neither gate holds, no gesture is emitted and the result is `true` exactly when some axis moved at least 100 |
| KeyboardGesture.EmitsIffGate | src/com/jbak/JbakKeyboard/KeyboardGesture.java:37-48 | a gesture is emitted iff one of the two gates holds, and a horizontal direction comes out iff the horizontal gate holds |
| KeyboardGesture.ConsumedIgnoresVelocity | src/com/jbak/JbakKeyboard/KeyboardGesture.java:37-51 | the boolean result is the same for any two velocity vectors |
| KeyboardGesture.SmallMotionUnhandled | src/com/jbak/JbakKeyboard/KeyboardGesture.java:37-51 | if both displacements are below 100, nothing is emitted and the result is `false` |
| KeyboardGesture.SameMagnitudesSameOutcome | src/com/jbak/JbakKeyboard/KeyboardGesture.java:32-35 | only the magnitudes `mdx`, `mdy` matter: any two drags with equal displacement magnitudes on each axis have the same outcome for the same velocity |
| KeyboardGesture.HorizontalMirrorSameOutcome | src/com/jbak/JbakKeyboard/KeyboardGesture.java:32-35 | mirroring the up point through the down point on the horizontal axis alone does not change the outcome |
| KeyboardGesture.ReversedVelocitySwapsHorizontal | src/com/jbak/JbakKeyboard/KeyboardGesture.java:37-40 | negating the horizontal velocity of a horizontal swipe swaps RIGHT and LEFT: the original call emits RIGHT iff `vX > 0` (else LEFT) and the reversed call emits the other one |
| KeyboardGesture.DirectionFromVelocityNotDisplacement | src/com/jbak/JbakKeyboard/KeyboardGesture.java:37-41 | a leftward drag released with rightward velocity is a RIGHT swipe: the direction comes from the velocity sign |
| KeyboardGesture.VerticalRatioIsDeltaDelim | src/com/jbak/JbakKeyboard/KeyboardGesture.java:43-46 | a drag of 75 across and 150 down (ratio 2) with vertical velocity 1200 is a DOWN swipe: the vertical displacement ratio is 1.5 |
| KeyboardGesture.DiagonalDragConsumedUnclassified | src/com/jbak/JbakKeyboard/KeyboardGesture.java:37-50 | a drag of 150 across and 200 down with velocity (1500, 1800) fails both gates and is consumed without a direction |
| KeyboardGesture.GetKey | src/com/jbak/JbakKeyboard/KeyboardGesture.java:53-61 | returns the first key in list order that contains `(x, y)`, and null exactly when no key contains it |
| GradBack.New | src/com/jbak/CustomGraphics/GradBack.java:19-51 | a new background has the empty rectangle (0, 0, 0, 0), gap 2, corners 4 by 4, linear gradient type, colours 0 and 0, no state array and a plain paint |
| GradBack.NewWithColors | src/com/jbak/CustomGraphics/GradBack.java:55-59 | the two-colour constructor is the default object with both colours set: gap, corners, gradient type, rectangle, paint and (null) states are the defaults |
| GradBack.Set | src/com/jbak/CustomGraphics/GradBack.java:64-69 | sets the start and end colours and changes no other field |
| GradBack.SetGap | src/com/jbak/CustomGraphics/GradBack.java:73-77 | sets the gap and changes no other field |
| GradBack.SetGradType | src/com/jbak/CustomGraphics/GradBack.java:81-85 | sets the gradient type and changes no other field |
| GradBack.SetCorners | src/com/jbak/CustomGraphics/GradBack.java:90-95 | sets both corner radii and changes no other field |
| GradBack.ChangeState | src/com/jbak/CustomGraphics/GradBack.java:173-176 | stores the given state array, which may be null, and changes no other field |
| GradBack.ChangeStateNullUnsets | src/com/jbak/CustomGraphics/GradBack.java:173-187 | `changeState(null)` leaves the state array null, as after construction, so `hasState` and `draw` may not be called |
| GradBack.Scan | src/com/jbak/CustomGraphics/GradBack.java:182-187 | the front-to-back scan with early exit finds `s` iff `s` occurs in the array |
| GradBack.HasState | src/com/jbak/CustomGraphics/GradBack.java:180-188 | `hasState(s)` is true iff `s` occurs in the current states; false on an empty array |
| GradBack.ChangeStateThenHasState | src/com/jbak/CustomGraphics/GradBack.java:173-188 | after `changeState(states)` with a non-null array, `hasState(s)` is membership of `s` in `states` |
| GradBack.MakeBackground | src/com/jbak/CustomGraphics/GradBack.java:122-140 | solid start colour iff the end colour is `DEFAULT_COLOR`; otherwise a sweep centred at `(width, height)` iff the type is sweep, and a vertical linear gradient over the height for every other type |
| GradBack.OnResize | src/com/jbak/CustomGraphics/GradBack.java:143-148 | the rectangle becomes `(gap, gap, width - gap, height - gap)`, the fill is rebuilt for the new size, and no other field changes |
| GradBack.ResizeInsetBothSides | src/com/jbak/CustomGraphics/GradBack.java:147 | the resized rectangle is `2 * gap` narrower and shorter than the bounds |
| GradBack.SetGapThenResize | src/com/jbak/CustomGraphics/GradBack.java:73-77 | a gap set before a resize is the inset of the resized rectangle |
| GradBack.SolidAfterDefaultEnd | src/com/jbak/CustomGraphics/GradBack.java:124-127 | with `DEFAULT_COLOR` as end colour, the resized fill is solid start colour whatever the gradient type |
| GradBack.DefaultObjectResizesToLinear | src/com/jbak/CustomGraphics/GradBack.java:128-135 | a default-constructed background has end colour 0, not `DEFAULT_COLOR`, so its resize builds a linear gradient |
| GradBack.OnDrawCheckMark | src/com/jbak/CustomGraphics/GradBack.java:167-171 | a full-circle arc (start 0, sweep 360, no centre) in the 8x8 box at offset (4, 4) from the drawing rectangle's top-left, green iff checked, dark grey otherwise |
| GradBack.CheckMarkIgnoresRect | src/com/jbak/CustomGraphics/GradBack.java:167-169 | the check mark does not depend on the `rect` argument |
| GradBack.Draw | src/com/jbak/CustomGraphics/GradBack.java:151-161 | paints exactly the base fill, then the pressed overlay iff `state_pressed` is present (as the second layer), then the `onDrawCheckMark` arc last iff `state_checkable` or `state_checked` is present, with the checked paint iff `state_checked` is present; nothing else is painted |
| GradBack.DrawNoStates | src/com/jbak/CustomGraphics/GradBack.java:151-161 | with an empty state array only the base fill is painted |

## Left out

- Java `float` arithmetic: rounding, NaN and infinities, and division by zero that does not throw. Positions and velocities are exact reals.
- The `Log.w` call in `onFling`. It is a debug log with no effect on the result.
- The listener's constructor wiring, `setKeyboardView` and the `GestureDetector` / `SimpleOnGestureListener` inheritance. These are platform callback plumbing.
- `JbKbdView.gesture`, which receives the emitted gesture. It is outside this model; the gesture appears as the `emitted` value.
- GetKey: the `(LatinKey)` cast is not modelled. The key list is taken to hold only `LatinKey` values, so the cast can never fail.
- GetKey: `Key.isInside` geometry and the keyboard layout are code outside this model. They become the `isInside` and `keys` parameters.
- ChangeState: the state array is treated as a value copied at the call. Java keeps the caller's array by reference, so later writes by the caller change what `hasState` and `draw` see; that aliasing is not modelled.
- The `null` state array, before the first `changeState` or after `changeState(null)`, where Java would throw. It is excluded by the precondition of `HasState` and `Draw`.
- `newPaint`, `newColorPaint`, dithering, anti-aliasing, the red shadow layer and the paint style. These are rendering attributes; only the fill kind and colours are kept.
- `getDrawable` and `getButtonDrawable`. They only wrap the object in platform drawables.
- `super.onResize` of `RectShape`, and the actual `Canvas` calls. They are platform rendering.
- Set: returning `this` is not modelled as object identity. The record returned is the updated object.
- SetGap: returning `this` is not modelled as object identity. The record returned is the updated object.
- SetGradType: returning `this` is not modelled as object identity. The record returned is the updated object.
- SetCorners: returning `this` is not modelled as object identity. The record returned is the updated object.
- `JbKbdPreference`: the preferences screen, its lifecycle, listeners and click routing to other activities. This is Android UI plumbing.
