/** The settings store: a flat key-value store in which every key has a
    declared default, some keys are clamped to a range when written, and a
    few derived readings (trackpad colour, input mode, key names) are
    computed from stored values. The persistence behind the store is not
    modelled: the store is the map itself. */
module Prefs {
  import opened Platform

  /** The setting keys. Each Kotlin getter/setter pair reads/writes one key:
      getPointerSpeed/setPointerSpeed → PointerSpeed, getTrackpadWidth/
      setTrackpadWidth → TrackpadWidth, isMouseModeEnabled/
      setMouseModeEnabled → MouseModeEnabled, and so on. */
  datatype Key =
    | PointerSpeed
    | PointerSize
    | PointerImage
    | ToggleKeycode
    | ClickKeycode
    | RightClickKeycode
    | ScrollModeKeycode
    | VibrateOnClick
    | AutoHideCursor
    | MouseModeEnabled
    | InputMode
    | TrackpadColor
    | TrackpadOpacity
    | TrackpadShape
    | TrackpadWidth
    | TrackpadHeight
    | TrackpadX
    | TrackpadY
    | TrackpadShowDrag
    | TrackpadRounding
    | TrackpadTwoFingerDrag

  datatype Kind = IntKind | RealKind | BoolKind

  datatype Value = IntValue(intValue: int) | RealValue(realValue: real) | BoolValue(boolValue: bool)

  // Pointer image options
  const POINTER_DEFAULT := 0
  const POINTER_CHEESE := 1
  const POINTER_DOT := 2
  const POINTER_HAND := 3

  // Input mode options
  const INPUT_MODE_VIRTUAL := 0
  const INPUT_MODE_KEYBOARD := 1

  // Trackpad shape options
  const SHAPE_SQUARE := 0
  const SHAPE_ROUNDED := 1
  const SHAPE_CIRCLE := 2

  // Trackpad colour options
  const COLOR_CYAN := 0
  const COLOR_PURPLE := 1
  const COLOR_GREEN := 2
  const COLOR_ORANGE := 3
  const COLOR_WHITE := 4
  const COLOR_DARK := 5

  // Android key codes used as defaults and named by KeyName
  const KEYCODE_COMMA := 55
  const KEYCODE_PERIOD := 56
  const KEYCODE_ALT_LEFT := 57
  const KEYCODE_ALT_RIGHT := 58
  const KEYCODE_SHIFT_LEFT := 59
  const KEYCODE_SHIFT_RIGHT := 60
  const KEYCODE_SPACE := 62
  const KEYCODE_SYM := 63
  const KEYCODE_ENTER := 66
  const KEYCODE_DEL := 67
  const KEYCODE_AT := 77

  // Clamping ranges of the setters
  const MIN_POINTER_SPEED: real := 0.5
  const MAX_POINTER_SPEED: real := 5.0
  const MIN_POINTER_SIZE := 16
  const MAX_POINTER_SIZE := 128
  const MIN_TRACKPAD_OPACITY := 20
  const MAX_TRACKPAD_OPACITY := 100
  const MIN_TRACKPAD_SIDE := 50
  const MAX_TRACKPAD_SIDE := 400
  const MIN_TRACKPAD_ROUNDING := 0
  const MAX_TRACKPAD_ROUNDING := 100

  function KindOf(k: Key): Kind {
    match k
    case PointerSpeed => RealKind
    case VibrateOnClick | AutoHideCursor | MouseModeEnabled | TrackpadShowDrag | TrackpadTwoFingerDrag => BoolKind
    case _ => IntKind
  }

  predicate HasKind(v: Value, kind: Kind) {
    match kind
    case IntKind => v.IntValue?
    case RealKind => v.RealValue?
    case BoolKind => v.BoolValue?
  }

  /** A value the store can hold under `k`: of the key's kind and, for the
      clamped keys, inside the clamping range. */
  predicate Admissible(k: Key, v: Value) {
    HasKind(v, KindOf(k)) &&
    match k
    case PointerSpeed => MIN_POINTER_SPEED <= v.realValue <= MAX_POINTER_SPEED
    case PointerSize => MIN_POINTER_SIZE <= v.intValue <= MAX_POINTER_SIZE
    case TrackpadOpacity => MIN_TRACKPAD_OPACITY <= v.intValue <= MAX_TRACKPAD_OPACITY
    case TrackpadWidth | TrackpadHeight => MIN_TRACKPAD_SIDE <= v.intValue <= MAX_TRACKPAD_SIDE
    case TrackpadRounding => MIN_TRACKPAD_ROUNDING <= v.intValue <= MAX_TRACKPAD_ROUNDING
    case _ => true
  }

  /** The declared default of every key (the mouse-mode flag defaults to
      false at its getter). */
  function Default(k: Key): (v: Value)
    ensures Admissible(k, v)
  {
    match k
    case PointerSpeed => RealValue(1.5)
    case PointerSize => IntValue(48)
    case PointerImage => IntValue(POINTER_DEFAULT)
    case ToggleKeycode => IntValue(KEYCODE_SPACE)
    case ClickKeycode => IntValue(KEYCODE_ENTER)
    case RightClickKeycode => IntValue(KEYCODE_DEL)
    case ScrollModeKeycode => IntValue(KEYCODE_SHIFT_LEFT)
    case VibrateOnClick => BoolValue(true)
    case AutoHideCursor => BoolValue(true)
    case MouseModeEnabled => BoolValue(false)
    case InputMode => IntValue(INPUT_MODE_VIRTUAL)
    case TrackpadColor => IntValue(COLOR_CYAN)
    case TrackpadOpacity => IntValue(80)
    case TrackpadShape => IntValue(SHAPE_ROUNDED)
    case TrackpadWidth => IntValue(180)
    case TrackpadHeight => IntValue(120)
    case TrackpadX => IntValue(50)
    case TrackpadY => IntValue(400)
    case TrackpadShowDrag => BoolValue(false)
    case TrackpadRounding => IntValue(16)
    case TrackpadTwoFingerDrag => BoolValue(true)
  }

  /** What a setter stores for `v`: clamped for the five clamped settings,
      unchanged for every other key. */
  function Coerce(k: Key, v: Value): (r: Value)
    requires HasKind(v, KindOf(k))
    ensures Admissible(k, r)
    ensures Admissible(k, v) ==> r == v
  {
    match k
    case PointerSpeed => RealValue(CoerceInReal(v.realValue, MIN_POINTER_SPEED, MAX_POINTER_SPEED))
    case PointerSize => IntValue(CoerceIn(v.intValue, MIN_POINTER_SIZE, MAX_POINTER_SIZE))
    case TrackpadOpacity => IntValue(CoerceIn(v.intValue, MIN_TRACKPAD_OPACITY, MAX_TRACKPAD_OPACITY))
    case TrackpadWidth | TrackpadHeight => IntValue(CoerceIn(v.intValue, MIN_TRACKPAD_SIDE, MAX_TRACKPAD_SIDE))
    case TrackpadRounding => IntValue(CoerceIn(v.intValue, MIN_TRACKPAD_ROUNDING, MAX_TRACKPAD_ROUNDING))
    case _ => v
  }

  /** The trackpad position is stored as given, whatever its value. */
  lemma PositionStoredUnclamped(x: int, y: int)
    ensures Coerce(TrackpadX, IntValue(x)) == IntValue(x)
    ensures Coerce(TrackpadY, IntValue(y)) == IntValue(y)
  {
  }

  /** Writing a width below the range stores the lower bound, above it the
      upper bound. */
  lemma WidthClampedAtBothEnds(w: int)
    ensures w < 50 ==> Coerce(TrackpadWidth, IntValue(w)) == IntValue(50)
    ensures 400 < w ==> Coerce(TrackpadWidth, IntValue(w)) == IntValue(400)
  {
  }

  /** `getTrackpadColorValue` on a stored colour index: the six named
      colours map to fixed opaque ARGB values, any other index to cyan. */
  function ColorValue(index: int): (argb: bv32)
    ensures argb >> 24 == 0xFF
    ensures !(COLOR_CYAN <= index <= COLOR_DARK) ==> argb == 0xFF00_D9FF
  {
    if index == COLOR_CYAN then 0xFF00_D9FF
    else if index == COLOR_PURPLE then 0xFF9C_27B0
    else if index == COLOR_GREEN then 0xFF4C_AF50
    else if index == COLOR_ORANGE then 0xFFFF_9800
    else if index == COLOR_WHITE then 0xFFFF_FFFF
    else if index == COLOR_DARK then 0xFF2A_2A3E
    else 0xFF00_D9FF
  }

  /** The six named colours are pairwise different. */
  lemma ColorsDistinct(i: int, j: int)
    requires COLOR_CYAN <= i <= COLOR_DARK && COLOR_CYAN <= j <= COLOR_DARK && i != j
    ensures ColorValue(i) != ColorValue(j)
  {
  }

  /** `s.removePrefix(prefix)`. */
  function RemovePrefix(s: string, prefix: string): (r: string)
    ensures prefix <= s ==> prefix + r == s
    ensures !(prefix <= s) ==> r == s
  {
    if prefix <= s then s[|prefix|..] else s
  }

  /** `getKeyName`: fixed names for nine keys (both shift codes read
      "Shift", both alt codes "Alt"); any other code is named by the
      platform's `keyCodeToString` with its "KEYCODE_" prefix removed. */
  function KeyName(keycode: int, keyCodeToString: int -> string): (name: string)
    ensures keycode == KEYCODE_SPACE ==> name == "Space"
    ensures keycode == KEYCODE_ENTER ==> name == "Enter"
    ensures keycode == KEYCODE_DEL ==> name == "Backspace"
    ensures keycode == KEYCODE_SYM ==> name == "Sym"
    ensures keycode == KEYCODE_AT ==> name == "@"
    ensures keycode == KEYCODE_PERIOD ==> name == "."
    ensures keycode == KEYCODE_COMMA ==> name == ","
    ensures keycode == KEYCODE_SHIFT_LEFT || keycode == KEYCODE_SHIFT_RIGHT ==> name == "Shift"
    ensures keycode == KEYCODE_ALT_LEFT || keycode == KEYCODE_ALT_RIGHT ==> name == "Alt"
    ensures keycode !in {KEYCODE_SPACE, KEYCODE_ENTER, KEYCODE_DEL, KEYCODE_SHIFT_LEFT,
                         KEYCODE_SHIFT_RIGHT, KEYCODE_ALT_LEFT, KEYCODE_ALT_RIGHT,
                         KEYCODE_SYM, KEYCODE_AT, KEYCODE_PERIOD, KEYCODE_COMMA}
            ==> name == RemovePrefix(keyCodeToString(keycode), "KEYCODE_")
  {
    if keycode == KEYCODE_SPACE then "Space"
    else if keycode == KEYCODE_ENTER then "Enter"
    else if keycode == KEYCODE_DEL then "Backspace"
    else if keycode == KEYCODE_SHIFT_LEFT || keycode == KEYCODE_SHIFT_RIGHT then "Shift"
    else if keycode == KEYCODE_ALT_LEFT || keycode == KEYCODE_ALT_RIGHT then "Alt"
    else if keycode == KEYCODE_SYM then "Sym"
    else if keycode == KEYCODE_AT then "@"
    else if keycode == KEYCODE_PERIOD then "."
    else if keycode == KEYCODE_COMMA then ","
    else RemovePrefix(keyCodeToString(keycode), "KEYCODE_")
  }

  /** The known names do not depend on the platform's fallback naming. */
  lemma KnownKeyNamesIgnoreFallback(keycode: int, f: int -> string, g: int -> string)
    requires keycode in {KEYCODE_SPACE, KEYCODE_ENTER, KEYCODE_DEL, KEYCODE_SHIFT_LEFT,
                         KEYCODE_SHIFT_RIGHT, KEYCODE_ALT_LEFT, KEYCODE_ALT_RIGHT,
                         KEYCODE_SYM, KEYCODE_AT, KEYCODE_PERIOD, KEYCODE_COMMA}
    ensures KeyName(keycode, f) == KeyName(keycode, g)
  {
  }

  class Preferences {
    var store: map<Key, Value>

    /** Every stored value is admissible for its key: the setters are the
        only writers and they clamp. */
    ghost predicate Valid()
      reads this
    {
      forall k :: k in store ==> Admissible(k, store[k])
    }

    constructor ()
      ensures Valid() && store == map[]
    {
      store := map[];
    }

    /** A getter: the stored value, or the key's default when none is
        stored. */
    function Get(k: Key): (v: Value)
      reads this
      requires Valid()
      ensures Admissible(k, v)
      ensures k !in store ==> v == Default(k)
    {
      if k in store then store[k] else Default(k)
    }

    function GetInt(k: Key): int
      reads this
      requires Valid() && KindOf(k) == IntKind
    {
      Get(k).intValue
    }

    function GetReal(k: Key): real
      reads this
      requires Valid() && KindOf(k) == RealKind
    {
      Get(k).realValue
    }

    function GetBool(k: Key): bool
      reads this
      requires Valid() && KindOf(k) == BoolKind
    {
      Get(k).boolValue
    }

    /** A setter: writes the coerced value under its own key and no other. */
    method Set(k: Key, v: Value)
      requires Valid() && HasKind(v, KindOf(k))
      modifies this
      ensures Valid()
      ensures store == old(store)[k := Coerce(k, v)]
      ensures Get(k) == Coerce(k, v)
      ensures forall k' :: k' != k ==> Get(k') == old(Get(k'))
    {
      store := store[k := Coerce(k, v)];
    }

    /** `getTrackpadColorValue`. */
    function TrackpadColorValue(): (argb: bv32)
      reads this
      requires Valid()
      ensures argb >> 24 == 0xFF
      ensures TrackpadColor !in store ==> argb == 0xFF00_D9FF
    {
      ColorValue(GetInt(TrackpadColor))
    }

    /** `isVirtualMode`: the stored input mode is the virtual trackpad. */
    function IsVirtualMode(): (r: bool)
      reads this
      requires Valid()
      ensures InputMode !in store ==> r
      ensures r <==> Get(InputMode) == IntValue(INPUT_MODE_VIRTUAL)
    {
      GetInt(InputMode) == INPUT_MODE_VIRTUAL
    }

    /** `isMouseModeEnabled`: false until something stores true. */
    function IsMouseModeEnabled(): (r: bool)
      reads this
      requires Valid()
      ensures MouseModeEnabled !in store ==> !r
    {
      GetBool(MouseModeEnabled)
    }
  }

  /** An empty store reads the declared defaults. */
  lemma EmptyStoreReadsDefaults(p: Preferences)
    requires p.Valid() && p.store == map[]
    ensures p.GetInt(TrackpadWidth) == 180 && p.GetInt(TrackpadHeight) == 120
    ensures p.GetInt(TrackpadOpacity) == 80
    ensures p.IsVirtualMode() && !p.IsMouseModeEnabled()
  {
  }
}
