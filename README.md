# BBKey2Mouse, modelled in Dafny

BBKey2Mouse is an Android accessibility service. It turns a BlackBerry
KEY2-style phone into a mouse-driven device. It draws an on-screen cursor
and a floating virtual trackpad. Taps on the trackpad become left clicks,
long presses become right clicks, and two-finger touches move the
trackpad window. A long press of a configurable key switches mouse mode
on and off. Motion from the keyboard's capacitive touch surface moves the
cursor.

This project models the logic beneath the Android glue, file by file:

| file | module | models |
|---|---|---|
| Platform.dfy | `Platform` | motion and key events, input devices, image-load outcomes, `coerceIn`, `Float.toInt()` |
| KeyboardTouch.dfy | `KeyboardTouchService` | the device classifier (pure) |
| Interceptor.dfy | `InputEventInterceptor` | the device-id tracker, a class over a set of ids |
| Prefs.dfy | `Prefs` | the settings store, a class over a key→value map with defaults and clamping setters |
| Cursor.dfy | `CursorOverlay` | the cursor overlay, a class: clamped position, attach flag, the visible → dimmed → hidden pipeline |
| Trackpad.dfy | `FloatingControls` | the trackpad gesture machine, as a pure transition function with trace lemmas and as the class `FloatingControlsOverlay` proved to follow it; the window sizing |
| Service.dfy | `MouseAccessibility` | the service's mode switch, the toggle-key long-press detector, key bindings and touchpad deltas, as pure step functions with trace lemmas and as the class `MouseAccessibilityService` proved to follow them |

These abstractions apply throughout:

- Kotlin `Float` is `real`. `Float.toInt()` is `TruncToInt`, which rounds toward zero.
- Millisecond clocks are `int` parameters named `now`.
- A `Handler.postDelayed` callback is a pending flag. A method or event named after the callback (`LongPressFires`, `DimFires`, `HideFires`, `ToggleCheckFires`) is that callback running.
- A view animation is collapsed to its end state. Its end action runs at once.
- Vibrations, callbacks, gesture dispatches, broadcasts and calls into other overlays are emitted as output values.
- Whether the window manager accepted an `addView`/`removeView` is a `bool` parameter. On failure the attach flag is unchanged.

## Model

Paths are relative to the repository root.

| member | source | states |
|---|---|---|
| KeyboardTouchService.IsLikelyBBKeyboard | app/src/main/java/com/bbkey2mouse/service/KeyboardTouchService.kt:62-76 | accepts iff both axis ranges exist, the height is positive and 2·height < width < 5·height (both bounds strict); a non-positive height gives ratio 0 and is rejected |
| KeyboardTouchService.IsKeyboardTouchDevice | app/src/main/java/com/bbkey2mouse/service/KeyboardTouchService.kt:45-57 | an accepted device always has the touchpad source bit |
| KeyboardTouchService.KeyboardTouchDeviceIff | app/src/main/java/com/bbkey2mouse/service/KeyboardTouchService.kt:26-32 | the classifier equals a reference definition: source bit, and then a pattern occurring in the lower-cased name or the division-free ratio test |
| KeyboardTouchService.ContainsIsOccurrence | app/src/main/java/com/bbkey2mouse/service/KeyboardTouchService.kt:53-56 | the left-to-right `contains` scan holds iff the pattern occurs at some index |
| KeyboardTouchService.NoTouchpadSourceNeverMatches | app/src/main/java/com/bbkey2mouse/service/KeyboardTouchService.kt:47-50 | a device without the touchpad source bit is rejected, whatever its name |
| KeyboardTouchService.PatternInNameMatches | app/src/main/java/com/bbkey2mouse/service/KeyboardTouchService.kt:53-56 | a touchpad whose lower-cased name contains one of the five patterns is accepted |
| KeyboardTouchService.IsKeyboardTouchEvent | app/src/main/java/com/bbkey2mouse/service/KeyboardTouchService.kt:37-40 | an event without a device never matches; a match implies the touchpad source bit |
| KeyboardTouchService.KeyboardTouchDevices | app/src/main/java/com/bbkey2mouse/service/KeyboardTouchService.kt:81-88 | lists exactly the existing accepted devices, at most one per id |
| KeyboardTouchService.KeyboardTouchDevicesAppend | app/src/main/java/com/bbkey2mouse/service/KeyboardTouchService.kt:81-88 | the list keeps id order: listing a concatenation lists each part in turn |
| KeyboardTouchService.HasKeyboardTouch | app/src/main/java/com/bbkey2mouse/service/KeyboardTouchService.kt:93-95 | holds iff some listed id has an accepted device |
| KeyboardTouchService.AcceptedIdIsListed | app/src/main/java/com/bbkey2mouse/service/KeyboardTouchService.kt:81-95 | an accepted id makes the device list non-empty |
| InputEventInterceptor.Track | app/src/main/java/com/bbkey2mouse/service/InputEventInterceptor.kt:37-49 | a removal drops exactly that id; an addition or change never drops an id and adds only the notified id, iff its device exists and is accepted |
| InputEventInterceptor.TrackedIdsWereAccepted | app/src/main/java/com/bbkey2mouse/service/InputEventInterceptor.kt:66-71 | after any notifications, every tracked id was tracked at the start or was accepted when an addition or change notice for it arrived |
| InputEventInterceptor.TrackedUntilRemoved | app/src/main/java/com/bbkey2mouse/service/InputEventInterceptor.kt:46-48 | only a removal notice stops tracking an id; a change after which it no longer matches keeps it |
| InputEventInterceptor.AcceptedIdsAreListedDevices | app/src/main/java/com/bbkey2mouse/service/InputEventInterceptor.kt:51-55 | the ids the start-up scan accepts are exactly those of the devices `getKeyboardTouchDevices` lists; there is one iff `hasKeyboardTouch` |
| InputEventInterceptor.InputEventInterceptor.constructor | app/src/main/java/com/bbkey2mouse/service/InputEventInterceptor.kt:34 | starts with no ids and no listener |
| InputEventInterceptor.InputEventInterceptor.CheckAndAddDevice | app/src/main/java/com/bbkey2mouse/service/InputEventInterceptor.kt:66-71 | the id is added iff its device exists and is accepted |
| InputEventInterceptor.InputEventInterceptor.OnInputDeviceAdded | app/src/main/java/com/bbkey2mouse/service/InputEventInterceptor.kt:38-40 | the set becomes `Track` of an addition |
| InputEventInterceptor.InputEventInterceptor.OnInputDeviceRemoved | app/src/main/java/com/bbkey2mouse/service/InputEventInterceptor.kt:42-44 | the set becomes `Track` of a removal |
| InputEventInterceptor.InputEventInterceptor.OnInputDeviceChanged | app/src/main/java/com/bbkey2mouse/service/InputEventInterceptor.kt:46-48 | the set becomes `Track` of a change |
| InputEventInterceptor.InputEventInterceptor.Start | app/src/main/java/com/bbkey2mouse/service/InputEventInterceptor.kt:51-59 | adds every present accepted device (loop invariant over the scanned prefix) and registers the listener |
| InputEventInterceptor.InputEventInterceptor.Stop | app/src/main/java/com/bbkey2mouse/service/InputEventInterceptor.kt:61-64 | unregisters and empties the set |
| InputEventInterceptor.InputEventInterceptor.IsKeyboardTouchEvent | app/src/main/java/com/bbkey2mouse/service/InputEventInterceptor.kt:76-79 | a tracked device id always matches; a match is a tracked id or an event whose device has the touchpad source bit |
| InputEventInterceptor.InputEventInterceptor.ProcessMotionEvent | app/src/main/java/com/bbkey2mouse/service/InputEventInterceptor.kt:85-90 | the callback sees the event iff it matches, and the result is the callback's answer then and false otherwise |
| Prefs.Default | app/src/main/java/com/bbkey2mouse/util/Preferences.kt:62-81 | every declared default is admissible for its key |
| Prefs.Coerce | app/src/main/java/com/bbkey2mouse/util/Preferences.kt:92-94 | what a setter stores is admissible, and an admissible value is stored unchanged |
| Prefs.PositionStoredUnclamped | app/src/main/java/com/bbkey2mouse/util/Preferences.kt:252-263 | the trackpad X and Y setters store any value as given |
| Prefs.WidthClampedAtBothEnds | app/src/main/java/com/bbkey2mouse/util/Preferences.kt:234-236 | a width below 50 is stored as 50, above 400 as 400 |
| Prefs.ColorValue | app/src/main/java/com/bbkey2mouse/util/Preferences.kt:199-209 | every colour is opaque; an unknown index maps to cyan 0xFF00D9FF |
| Prefs.ColorsDistinct | app/src/main/java/com/bbkey2mouse/util/Preferences.kt:199-209 | the six named colours are pairwise different |
| Prefs.RemovePrefix | app/src/main/java/com/bbkey2mouse/util/Preferences.kt:305 | with the prefix present, prefix + result is the input; otherwise the input is returned |
| Prefs.KeyName | app/src/main/java/com/bbkey2mouse/util/Preferences.kt:293-306 | space, enter, delete, sym, at, period and comma read "Space", "Enter", "Backspace", "Sym", "@", "." and ","; both shift codes read "Shift" and both alt codes "Alt"; every code outside these eleven is the platform name without "KEYCODE_" |
| Prefs.KnownKeyNamesIgnoreFallback | app/src/main/java/com/bbkey2mouse/util/Preferences.kt:293-304 | the known names do not depend on the platform's naming function |
| Prefs.Preferences.constructor | app/src/main/java/com/bbkey2mouse/util/Preferences.kt:83-86 | an empty, valid store |
| Prefs.Preferences.Get | app/src/main/java/com/bbkey2mouse/util/Preferences.kt:88-90 | a getter returns an admissible value, and the default for a never-written key |
| Prefs.Preferences.Set | app/src/main/java/com/bbkey2mouse/util/Preferences.kt:92-94 | a setter writes the coerced value under its own key; reading it back gives that value; every other key reads as before |
| Prefs.Preferences.TrackpadColorValue | app/src/main/java/com/bbkey2mouse/util/Preferences.kt:199-209 | opaque, and cyan when no colour is stored |
| Prefs.Preferences.IsVirtualMode | app/src/main/java/com/bbkey2mouse/util/Preferences.kt:178-188 | holds iff the stored input mode is 0; true when none is stored |
| Prefs.Preferences.IsMouseModeEnabled | app/src/main/java/com/bbkey2mouse/util/Preferences.kt:169-171 | false until something is stored |
| Prefs.EmptyStoreReadsDefaults | app/src/main/java/com/bbkey2mouse/util/Preferences.kt:62-81 | an empty store reads width 180, height 120, opacity 80, virtual mode, mouse mode off |
| CursorOverlay.ScheduleAutoHide | app/src/main/java/com/bbkey2mouse/overlay/CursorOverlay.kt:181-187 | exactly the dim timer is pending afterwards; visibility is untouched |
| CursorOverlay.Activity | app/src/main/java/com/bbkey2mouse/overlay/CursorOverlay.kt:130-135 | from any consistent state: visible, not dimmed, opaque, dim timer pending, hide timer not |
| CursorOverlay.Shown | app/src/main/java/com/bbkey2mouse/overlay/CursorOverlay.kt:101-105 | visible, opaque, exactly the dim timer pending; consistency kept |
| CursorOverlay.OnDim | app/src/main/java/com/bbkey2mouse/overlay/CursorOverlay.kt:189-201 | dimmed to 0.3; the hide timer is pending iff auto-hide is on |
| CursorOverlay.OnHide | app/src/main/java/com/bbkey2mouse/overlay/CursorOverlay.kt:203-209 | invisible and transparent, and no timer is left |
| CursorOverlay.IdleCursorFades | app/src/main/java/com/bbkey2mouse/overlay/CursorOverlay.kt:181-209 | left idle after activity, the cursor dims at the first timer, then disappears with auto-hide or stays dimmed without it, with no timer left |
| CursorOverlay.BitmapAfterLoad | app/src/main/java/com/bbkey2mouse/overlay/CursorOverlay.kt:151-179 | a bitmap is held only in custom mode with a URI; a missing stream or undecodable image keeps the old one; a decoded image survives iff the cursor size is positive |
| CursorOverlay.ShapeDrawn | app/src/main/java/com/bbkey2mouse/overlay/CursorOverlay.kt:220-240 | each of the four built-in images draws its own shape; in custom mode (an index no built-in image uses) the held bitmap is drawn, or the arrow when none is held; the custom bitmap is drawn only then; nothing is drawn exactly for unknown images |
| CursorOverlay.CursorOverlay.constructor | app/src/main/java/com/bbkey2mouse/overlay/CursorOverlay.kt:33-73 | detached, visible, no timer, with the given pointer settings |
| CursorOverlay.CursorOverlay.Show | app/src/main/java/com/bbkey2mouse/overlay/CursorOverlay.kt:92-110 | no effect when attached; otherwise takes the screen size and centres the cursor, and on success attaches and becomes `Shown` |
| CursorOverlay.CursorOverlay.Center | app/src/main/java/com/bbkey2mouse/overlay/CursorOverlay.kt:94-98 | the cursor is at the centre of the new screen size, on screen |
| CursorOverlay.CursorOverlay.Hide | app/src/main/java/com/bbkey2mouse/overlay/CursorOverlay.kt:112-123 | no effect when detached; otherwise cancels both timers and detaches on success |
| CursorOverlay.CursorOverlay.MoveCursor | app/src/main/java/com/bbkey2mouse/overlay/CursorOverlay.kt:125-137 | each coordinate is old + delta·speed clamped to the screen; the visibility becomes `Activity` of the old one; the overlay stays consistent |
| CursorOverlay.CursorOverlay.CursorPosition | app/src/main/java/com/bbkey2mouse/overlay/CursorOverlay.kt:139-141 | the current position, which lies on the screen |
| CursorOverlay.CursorOverlay.UpdateSettings | app/src/main/java/com/bbkey2mouse/overlay/CursorOverlay.kt:143-149 | takes the three settings and reloads the bitmap as `BitmapAfterLoad` says |
| CursorOverlay.CursorOverlay.LoadCustomCursor | app/src/main/java/com/bbkey2mouse/overlay/CursorOverlay.kt:151-179 | the held bitmap becomes `BitmapAfterLoad` of the old one |
| CursorOverlay.CursorOverlay.Shape | app/src/main/java/com/bbkey2mouse/overlay/CursorOverlay.kt:220-230 | a held bitmap is drawn unless a built-in image shares the custom index; custom mode always draws something |
| CursorOverlay.CursorOverlay.ScheduleAutoHideTimers | app/src/main/java/com/bbkey2mouse/overlay/CursorOverlay.kt:181-187 | the visibility becomes `ScheduleAutoHide` of the old one |
| CursorOverlay.CursorOverlay.FadeInCursor | app/src/main/java/com/bbkey2mouse/overlay/CursorOverlay.kt:211-218 | visible, not dimmed, opaque |
| CursorOverlay.CursorOverlay.DimFires | app/src/main/java/com/bbkey2mouse/overlay/CursorOverlay.kt:189-201 | the visibility becomes `OnDim`; consistency kept |
| CursorOverlay.CursorOverlay.HideFires | app/src/main/java/com/bbkey2mouse/overlay/CursorOverlay.kt:203-209 | the visibility becomes `OnHide`; consistency kept |
| FloatingControls.OnTouch | app/src/main/java/com/bbkey2mouse/overlay/FloatingControlsOverlay.kt:369-519 | every touch event keeps the gesture invariant (flag exclusions, long press pending only on a fresh unmoved touch) |
| FloatingControls.TouchStepFacts | app/src/main/java/com/bbkey2mouse/overlay/FloatingControlsOverlay.kt:375-472 | a fresh touch clears the sticky flags and schedules the long press unless it lands on the drag handle; a move past 10 px sets `hasMoved` and cancels the long press; `hasMoved` persists until the next down; a drag is reported only once moved, with the per-event local delta |
| FloatingControls.TouchClickFacts | app/src/main/java/com/bbkey2mouse/overlay/FloatingControlsOverlay.kt:489-515 | a left click comes exactly from an up or cancel ending a tap (trackpad start, never two-finger, unmoved, no long press, under 200 ms); a touch never right-clicks |
| FloatingControls.TouchTwoFingerFacts | app/src/main/java/com/bbkey2mouse/overlay/FloatingControlsOverlay.kt:399-515 | a second finger latches two-finger mode and cancels the rest; while latched a move emits nothing and shifts the window by the raw delta only with two fingers down; pointer-up keeps the latch; up or cancel returns to rest |
| FloatingControls.OnLongPressTimer | app/src/main/java/com/bbkey2mouse/overlay/FloatingControlsOverlay.kt:89-96 | a right click comes only from a pending, unmoved, not yet triggered long press, and always from one; never a left click or drag |
| FloatingControls.StepSpendsBudget | app/src/main/java/com/bbkey2mouse/overlay/FloatingControlsOverlay.kt:89-96 | a non-fresh event emits at most as many clicks as it takes from the click budget |
| FloatingControls.AtMostOneClickPerGesture | app/src/main/java/com/bbkey2mouse/overlay/FloatingControlsOverlay.kt:489-507 | between two fresh touches the trackpad emits at most one click |
| FloatingControls.RunKeepsInv | app/src/main/java/com/bbkey2mouse/overlay/FloatingControlsOverlay.kt:369-519 | the invariant holds after any sequence of events |
| FloatingControls.MovedIsSticky | app/src/main/java/com/bbkey2mouse/overlay/FloatingControlsOverlay.kt:385 | once moved, the touch stays moved and emits no click until the next fresh touch |
| FloatingControls.MovedStep | app/src/main/java/com/bbkey2mouse/overlay/FloatingControlsOverlay.kt:462-465 | one non-fresh event keeps a moved touch moved |
| FloatingControls.NoSingleFingerGesture | app/src/main/java/com/bbkey2mouse/overlay/FloatingControlsOverlay.kt:421-441 | with no single-finger drag and no pending long press, nothing drags or clicks until the next fresh touch |
| FloatingControls.NoSingleFingerStep | app/src/main/java/com/bbkey2mouse/overlay/FloatingControlsOverlay.kt:421-441 | one such event drags nothing and keeps that condition |
| FloatingControls.TwoFingerLatch | app/src/main/java/com/bbkey2mouse/overlay/FloatingControlsOverlay.kt:399-441 | once latched, no drag and no click until the next fresh touch |
| FloatingControls.TapProducesLeftClick | app/src/main/java/com/bbkey2mouse/overlay/FloatingControlsOverlay.kt:492-507 | down on the trackpad, moves within 10 px, up within 200 ms: exactly the click vibration and one left click |
| FloatingControls.StillTapping | app/src/main/java/com/bbkey2mouse/overlay/FloatingControlsOverlay.kt:455-466 | moves within the threshold emit nothing and keep the touch a tap candidate |
| FloatingControls.ExampleShortTap | app/src/main/java/com/bbkey2mouse/overlay/FloatingControlsOverlay.kt:489-507 | a concrete 80 ms tap yields a vibration and a left click |
| FloatingControls.ExampleLongPress | app/src/main/java/com/bbkey2mouse/overlay/FloatingControlsOverlay.kt:89-96 | a concrete press with the timer firing yields one right click and no left click |
| FloatingControls.ExampleDrag | app/src/main/java/com/bbkey2mouse/overlay/FloatingControlsOverlay.kt:455-472 | a concrete drag reports the per-event deltas and no click |
| FloatingControls.EffectiveTrackpadSize | app/src/main/java/com/bbkey2mouse/overlay/FloatingControlsOverlay.kt:167-178 | outside standalone mode or without an image: the configured size; otherwise the longer side is the image size |
| FloatingControls.EffectiveSizeKeepsAspect | app/src/main/java/com/bbkey2mouse/overlay/FloatingControlsOverlay.kt:144-153 | the shorter side is the image's aspect ratio applied to the image size, rounded toward zero, and never exceeds it |
| FloatingControls.WindowSize | app/src/main/java/com/bbkey2mouse/overlay/FloatingControlsOverlay.kt:156-163 | the width is the effective width; the height adds 30 + 8 exactly when the drag handle is shown |
| FloatingControls.ApplySaves | app/src/main/java/com/bbkey2mouse/overlay/FloatingControlsOverlay.kt:477-515 | without a position save the settings are unchanged |
| FloatingControls.ReadTrackpadSettings | app/src/main/java/com/bbkey2mouse/overlay/FloatingControlsOverlay.kt:209-221 | the sizes, opacity and rounding read lie in their clamping ranges and the colour is opaque; an empty store gives 180×120, 80 %, rounding 16, position (50, 400), no drag handle, two-finger drag on |
| FloatingControls.FloatingControlsOverlay.constructor | app/src/main/java/com/bbkey2mouse/overlay/FloatingControlsOverlay.kt:50-139 | detached, at rest, with the given settings and the window laid out for them |
| FloatingControls.FloatingControlsOverlay.UpdateDimensions | app/src/main/java/com/bbkey2mouse/overlay/FloatingControlsOverlay.kt:142-164 | the window size is `WindowSize` of the effective size |
| FloatingControls.ImageAfterLoad | app/src/main/java/com/bbkey2mouse/overlay/FloatingControlsOverlay.kt:237-288 | no URI or a failure clears the image; a missing stream or undecodable image keeps what was held; a decoded image is held with its size iff its scaling target is positive; a held bitmap always has a positive size |
| FloatingControls.FloatingControlsOverlay.LoadCustomTrackpadImage | app/src/main/java/com/bbkey2mouse/overlay/FloatingControlsOverlay.kt:237-288 | a held image always has positive dimensions; no URI or a failure clears it; a missing stream or undecodable image keeps the old one; a decoded image records its dimensions; the image fields become `ImageAfterLoad` of the old ones |
| FloatingControls.FloatingControlsOverlay.UpdateSettings | app/src/main/java/com/bbkey2mouse/overlay/FloatingControlsOverlay.kt:209-235 | takes the settings; the image fields become `ImageAfterLoad` of the old ones under the new settings; the window is laid out again |
| FloatingControls.FloatingControlsOverlay.CopySettings | app/src/main/java/com/bbkey2mouse/overlay/FloatingControlsOverlay.kt:209-221 | the overlay's settings become the given ones |
| FloatingControls.FloatingControlsOverlay.Show | app/src/main/java/com/bbkey2mouse/overlay/FloatingControlsOverlay.kt:180-191 | no effect when attached; otherwise takes the settings, the image fields become `ImageAfterLoad` of the old ones under them, the window is laid out, and it attaches on success |
| FloatingControls.FloatingControlsOverlay.Hide | app/src/main/java/com/bbkey2mouse/overlay/FloatingControlsOverlay.kt:193-207 | no effect when detached; otherwise saves the window position and detaches on success |
| FloatingControls.FloatingControlsOverlay.SavePositionTo | app/src/main/java/com/bbkey2mouse/overlay/FloatingControlsOverlay.kt:197-198 | writes the window position under the X and Y keys and nothing else |
| FloatingControls.FloatingControlsOverlay.OnTouchEvent | app/src/main/java/com/bbkey2mouse/overlay/FloatingControlsOverlay.kt:369-519 | the fields and outputs follow `OnTouch`; handled iff the action is one of the six handled (down, pointer down, move, pointer up, up, cancel); the settings change only by the emitted position saves; the invariant is kept |
| FloatingControls.FloatingControlsOverlay.GestureFrame | app/src/main/java/com/bbkey2mouse/overlay/FloatingControlsOverlay.kt:76-96 | the gesture invariant depends only on the gesture flags |
| FloatingControls.FloatingControlsOverlay.GestureValidIsInv | app/src/main/java/com/bbkey2mouse/overlay/FloatingControlsOverlay.kt:76-96 | the class invariant is the pure invariant of the snapshot |
| FloatingControls.FloatingControlsOverlay.TouchDown | app/src/main/java/com/bbkey2mouse/overlay/FloatingControlsOverlay.kt:375-397 | the snapshot becomes `OnDown` |
| FloatingControls.FloatingControlsOverlay.ClearSingleGestureFlags | app/src/main/java/com/bbkey2mouse/overlay/FloatingControlsOverlay.kt:376-378 | clears the sticky flags of the previous gesture |
| FloatingControls.FloatingControlsOverlay.RecordTouchStart | app/src/main/java/com/bbkey2mouse/overlay/FloatingControlsOverlay.kt:379-383 | records the start point, last point and start time |
| FloatingControls.FloatingControlsOverlay.SecondFingerDown | app/src/main/java/com/bbkey2mouse/overlay/FloatingControlsOverlay.kt:399-417 | the snapshot and outputs follow `OnPointerDown` |
| FloatingControls.FloatingControlsOverlay.CancelSingleFinger | app/src/main/java/com/bbkey2mouse/overlay/FloatingControlsOverlay.kt:403-406 | cancels the long press, the drag and the repositioning |
| FloatingControls.FloatingControlsOverlay.TouchMove | app/src/main/java/com/bbkey2mouse/overlay/FloatingControlsOverlay.kt:419-475 | the snapshot and outputs follow `OnMove` |
| FloatingControls.FloatingControlsOverlay.ShiftWindowByTwoFingers | app/src/main/java/com/bbkey2mouse/overlay/FloatingControlsOverlay.kt:421-441 | moves the window by the raw delta and records the raw point |
| FloatingControls.FloatingControlsOverlay.ShiftWindowByHandle | app/src/main/java/com/bbkey2mouse/overlay/FloatingControlsOverlay.kt:443-454 | moves the window by the raw delta from the last point |
| FloatingControls.FloatingControlsOverlay.DragPointer | app/src/main/java/com/bbkey2mouse/overlay/FloatingControlsOverlay.kt:455-472 | the single-finger branch of `OnMove` |
| FloatingControls.FloatingControlsOverlay.FingerLifted | app/src/main/java/com/bbkey2mouse/overlay/FloatingControlsOverlay.kt:477-487 | the snapshot and outputs follow `OnPointerUp`; settings change only by the saves |
| FloatingControls.FloatingControlsOverlay.Release | app/src/main/java/com/bbkey2mouse/overlay/FloatingControlsOverlay.kt:489-515 | the snapshot and outputs follow `OnRelease`; settings change only by the saves |
| FloatingControls.FloatingControlsOverlay.ResetGesture | app/src/main/java/com/bbkey2mouse/overlay/FloatingControlsOverlay.kt:509-514 | clears the four mode flags |
| FloatingControls.FloatingControlsOverlay.LongPressFires | app/src/main/java/com/bbkey2mouse/overlay/FloatingControlsOverlay.kt:89-96 | the snapshot and outputs follow `OnLongPressTimer`; the invariant is kept |
| MouseAccessibility.ReadKeys | app/src/main/java/com/bbkey2mouse/service/MouseAccessibilityService.kt:207-210 | an empty store gives space, enter, backspace and left shift |
| MouseAccessibility.ToggleMode | app/src/main/java/com/bbkey2mouse/service/MouseAccessibilityService.kt:319-327 | flips the mode, writes the new value, ends by broadcasting it, keeps the invariant |
| MouseAccessibility.OnKey | app/src/main/java/com/bbkey2mouse/service/MouseAccessibilityService.kt:196-278 | every key event keeps the invariant (mouse mode needs the overlays; a check is pending only while the key is held) |
| MouseAccessibility.OnToggleCheck | app/src/main/java/com/bbkey2mouse/service/MouseAccessibilityService.kt:223-231 | no check is left pending; the invariant is kept |
| MouseAccessibility.OnTouch | app/src/main/java/com/bbkey2mouse/service/MouseAccessibilityService.kt:285-317 | the mode, toggle tracking and scroll mode are untouched; with mouse mode off nothing is consumed and nothing changes |
| MouseAccessibility.OnIntent | app/src/main/java/com/bbkey2mouse/service/MouseAccessibilityService.kt:76-95 | every intent keeps the invariant |
| MouseAccessibility.OnConnect | app/src/main/java/com/bbkey2mouse/service/MouseAccessibilityService.kt:138-143 | restoring the mode keeps the invariant |
| MouseAccessibility.Destroy | app/src/main/java/com/bbkey2mouse/service/MouseAccessibilityService.kt:146-161 | leaves mouse mode, drops the overlays and writes no setting |
| MouseAccessibility.ToggleKeyFacts | app/src/main/java/com/bbkey2mouse/service/MouseAccessibilityService.kt:213-244 | a press schedules one check, and a repeat while held changes nothing; a release cancels the check and is consumed iff held ≥ 500 ms or mouse mode is on; neither switches the mode |
| MouseAccessibility.OtherKeyFacts | app/src/main/java/com/bbkey2mouse/service/MouseAccessibilityService.kt:249-277 | with mouse mode off nothing is consumed or changed; with it on the click, right-click and scroll keys are consumed both ways, a click press taps for 50 ms at the cursor, a right-click press presses for 550 ms, and the scroll key (when not also the click or right-click key) sets scroll mode to whether it is down, which only it can change |
| MouseAccessibility.ToggleCheckFacts | app/src/main/java/com/bbkey2mouse/service/MouseAccessibilityService.kt:223-231 | the check switches the mode iff the key is still held and 500 ms have passed; a switch writes and broadcasts the new mode and ends with a 100 ms vibration |
| MouseAccessibility.TouchFacts | app/src/main/java/com/bbkey2mouse/service/MouseAccessibilityService.kt:288-315 | a press records the position; a move while touching emits current − last (as a cursor move, or in scroll mode as a swipe against three times the delta) and then records it; a move without a press is ignored; up or cancel ends the touch |
| MouseAccessibility.IntentFacts | app/src/main/java/com/bbkey2mouse/service/MouseAccessibilityService.kt:78-92 | toggle flips the mode, enable leaves it on and disable off; enabling when on or disabling when off changes nothing and emits nothing; other intents change nothing; a written value is the new mode and is broadcast |
| MouseAccessibility.ConnectRestoresMode | app/src/main/java/com/bbkey2mouse/service/MouseAccessibilityService.kt:138-143 | a new service takes the stored mode and broadcasts it |
| MouseAccessibility.Apply | app/src/main/java/com/bbkey2mouse/service/MouseAccessibilityService.kt:76-317 | any event keeps the invariant |
| MouseAccessibility.RunKeepsInv | app/src/main/java/com/bbkey2mouse/service/MouseAccessibilityService.kt:329-369 | the invariant holds after any sequence of events |
| MouseAccessibility.HeldStep | app/src/main/java/com/bbkey2mouse/service/MouseAccessibilityService.kt:217-231 | while the key stays held, an event switches the mode only by spending the pending check, and posts none |
| MouseAccessibility.HeldKeySwitchesAtMostOnce | app/src/main/java/com/bbkey2mouse/service/MouseAccessibilityService.kt:217-231 | while the key stays held, the mode switches at most as often as a check was pending |
| MouseAccessibility.OnePressSwitchesAtMostOnce | app/src/main/java/com/bbkey2mouse/service/MouseAccessibilityService.kt:216-244 | from press to release of the toggle key the mode switches at most once, and no check is left pending |
| MouseAccessibility.LongPressSwitches | app/src/main/java/com/bbkey2mouse/service/MouseAccessibilityService.kt:223-243 | a press whose check runs at ≥ 500 ms switches the mode once, broadcasts it, vibrates, and its release is consumed |
| MouseAccessibility.ShortPressPassesThrough | app/src/main/java/com/bbkey2mouse/service/MouseAccessibilityService.kt:233-243 | a press released before 500 ms switches nothing, leaves no check, and is consumed only in mouse mode |
| MouseAccessibility.TouchDeltasTelescope | app/src/main/java/com/bbkey2mouse/service/MouseAccessibilityService.kt:295-307 | the cursor moves of a touch add up to its last position minus its first, one move per event |
| MouseAccessibility.RunTouchIsRun | app/src/main/java/com/bbkey2mouse/service/MouseAccessibilityService.kt:285-317 | a touchpad sequence run alone equals the same events run through the service |
| MouseAccessibility.MouseAccessibilityService.constructor | app/src/main/java/com/bbkey2mouse/service/MouseAccessibilityService.kt:45-63 | the initial state, no tracker, no receiver |
| MouseAccessibility.MouseAccessibilityService.OnCreate | app/src/main/java/com/bbkey2mouse/service/MouseAccessibilityService.kt:97-100 | the instance is registered |
| MouseAccessibility.MouseAccessibilityService.MouseModeActive | app/src/main/java/com/bbkey2mouse/service/MouseAccessibilityService.kt:40-42 | false without a registered instance; true only in mouse mode |
| MouseAccessibility.MouseAccessibilityService.OnServiceConnected | app/src/main/java/com/bbkey2mouse/service/MouseAccessibilityService.kt:102-144 | a fresh tracker holds exactly the accepted present devices and listens; the receiver is registered; the state follows `OnConnect` with the stored mode |
| MouseAccessibility.MouseAccessibilityService.OnDestroy | app/src/main/java/com/bbkey2mouse/service/MouseAccessibilityService.kt:146-161 | the old tracker is stopped and emptied and dropped; the state follows `Destroy`; unregistered |
| MouseAccessibility.MouseAccessibilityService.OnGenericMotionEvent | app/src/main/java/com/bbkey2mouse/service/MouseAccessibilityService.kt:167-171 | without a tracker or for an event it does not accept: not consumed, nothing changes; otherwise `OnTouch` |
| MouseAccessibility.MouseAccessibilityService.OnKeyEvent | app/src/main/java/com/bbkey2mouse/service/MouseAccessibilityService.kt:196-278 | state, answer and outputs follow `OnKey` with the stored key codes; the invariant is kept |
| MouseAccessibility.MouseAccessibilityService.OnKeyboardTouch | app/src/main/java/com/bbkey2mouse/service/MouseAccessibilityService.kt:285-317 | state, answer and outputs follow `OnTouch` |
| MouseAccessibility.MouseAccessibilityService.ToggleCheckFires | app/src/main/java/com/bbkey2mouse/service/MouseAccessibilityService.kt:223-231 | follows `OnToggleCheck`; the settings change exactly by the mode it writes |
| MouseAccessibility.MouseAccessibilityService.ToggleMouseMode | app/src/main/java/com/bbkey2mouse/service/MouseAccessibilityService.kt:319-327 | follows `ToggleMode`; the stored mode equals the new mode and nothing else is written |
| MouseAccessibility.MouseAccessibilityService.EnableMouseMode | app/src/main/java/com/bbkey2mouse/service/MouseAccessibilityService.kt:329-360 | creates and shows the overlays, enters mouse mode, vibrates 50 ms |
| MouseAccessibility.MouseAccessibilityService.DisableMouseMode | app/src/main/java/com/bbkey2mouse/service/MouseAccessibilityService.kt:362-369 | hides existing overlays, leaves mouse mode, vibrates 30 ms |
| MouseAccessibility.MouseAccessibilityService.OnReceive | app/src/main/java/com/bbkey2mouse/service/MouseAccessibilityService.kt:76-95 | follows `OnIntent`; the settings change exactly by the mode it writes |

## Left out

- Drawing is not modelled: `onDraw` of both overlays, the cursor shapes, paints and clip paths. Only which shape is drawn is modelled (`ShapeDrawn`).
- Bitmap decoding, URI parsing and scaling are replaced by their outcome, an `ImageLoad` value. Recycling of bitmaps is not modelled.
- Window-manager calls are a success flag. `updateViewLayout` and `invalidate` are not modelled.
- Animations take effect at once. A fade-in that starts while a dim or hide animation runs cancels it and drops its end action; since the model has no animation in progress, this case does not arise in it.
- Floating point is exact real arithmetic. `Float.toInt()` truncates toward zero, as in Kotlin.
- Timers are flags. Two posts of the same runnable collapse into one. The delay itself is not modelled: the clock at which a timer runs is a parameter.
- Settings that `Preferences.kt` does not define are parameters: the standalone-image flag, the trackpad image size, `POINTER_CUSTOM` and the custom image URIs.
- SharedPreferences I/O and `registerListener`/`unregisterListener` are not modelled. The store is the map itself.
- `KeyEvent.keyCodeToString` is a function parameter of `KeyName`.
- Lower-casing of device names covers ASCII letters only.
- `getConnectedDevices` is not modelled. It only maps the tracked ids through the OS device table.
- The device listener's notifications are delivered whether or not it is registered. The model does not tie them to `listening`.
- Logging is not modelled. Neither is `onAccessibilityEvent`, `onGesture`, `onInterrupt` or the service-info flag setup in `onServiceConnected`.
- `TouchInterceptorOverlay` is not part of this model. The service's calls to show and hide it are folded into `ShowOverlays`/`HideOverlays`.
- The service's calls into the overlays are emitted as commands and are not linked to the overlay classes. These are `ShowOverlays`, `HideOverlays`, `RefreshOverlaySettings` and `MoveCursor`.
- The cursor position used by the service's gestures is a parameter.
- The vibrate-on-click check that a completed click gesture makes is carried by the emitted `Dispatch` command. The model does not evaluate it.
