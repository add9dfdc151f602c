/** Values the service receives from, or hands back to, the Android platform,
    reduced to the fields the core reads. Screen coordinates are `real`
    (the platform uses 32-bit floats; rounding is not modelled), times are
    milliseconds as `int`. */
module Platform {

  datatype Option<+T> = None | Some(value: T)

  /** `MotionEvent.getActionMasked()` as the core distinguishes it. */
  datatype MotionAction =
    | Down
    | Up
    | Move
    | Cancel
    | PointerDown
    | PointerUp
    | OtherAction(code: int)

  /** `InputDevice.MotionRange` of one axis. */
  datatype MotionRange = MotionRange(min: real, max: real)

  /** `InputDevice`: its id, its source bit mask, its display name and the
      motion ranges of its X and Y axes (absent when the device has none). */
  datatype InputDevice = InputDevice(
    id: int,
    sources: bv32,
    name: string,
    xRange: Option<MotionRange>,
    yRange: Option<MotionRange>)

  /** `MotionEvent`: view-local (x, y) and screen (rawX, rawY) coordinates of
      the first pointer, the number of pointers down, and the device that
      produced it (`getDevice()` is null when the device is gone). */
  datatype MotionEvent = MotionEvent(
    action: MotionAction,
    pointerCount: nat,
    x: real,
    y: real,
    rawX: real,
    rawY: real,
    deviceId: int,
    device: Option<InputDevice>)

  datatype KeyAction = KeyDown | KeyUp | KeyMultiple

  datatype KeyEvent = KeyEvent(keyCode: int, action: KeyAction)

  /** What loading a user-chosen image produced: no URI configured, the
      content resolver returned no stream, the stream did not decode, a
      bitmap of the given size, or an exception while opening or decoding. */
  datatype ImageLoad =
    | NoUri
    | NoStream
    | Undecodable
    | Decoded(width: int, height: int)
    | LoadFailed

  /** Kotlin's `coerceIn` on integers. */
  function CoerceIn(v: int, lo: int, hi: int): (r: int)
    requires lo <= hi
    ensures lo <= r <= hi
    ensures lo <= v <= hi ==> r == v
    ensures v < lo ==> r == lo
    ensures hi < v ==> r == hi
  {
    if v < lo then lo else if hi < v then hi else v
  }

  /** Kotlin's `coerceIn` on floating-point values. */
  function CoerceInReal(v: real, lo: real, hi: real): (r: real)
    requires lo <= hi
    ensures lo <= r <= hi
    ensures lo <= v <= hi ==> r == v
    ensures v < lo ==> r == lo
    ensures hi < v ==> r == hi
  {
    if v < lo then lo else if hi < v then hi else v
  }

  /** Kotlin's `Float.toInt()`: rounds toward zero. */
  function TruncToInt(v: real): (n: int)
    ensures 0.0 <= v ==> 0 <= n && n as real <= v < n as real + 1.0
    ensures v < 0.0 ==> n <= 0 && n as real - 1.0 < v <= n as real
  {
    if 0.0 <= v then v.Floor else -((-v).Floor)
  }

  function Abs(v: real): (r: real)
    ensures 0.0 <= r && (r == v || r == -v)
  {
    if v < 0.0 then -v else v
  }
}
