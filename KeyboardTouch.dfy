/** The device classifier: decides whether an input device, or the device
    behind a motion event, is the touch surface of the BlackBerry KEY2
    keyboard. Pure: no state. */
module KeyboardTouchService {
  import opened Platform

  /** `InputDevice.SOURCE_TOUCHPAD` of the Android SDK: the position class
      bit (0x8) together with bit 20. */
  const SOURCE_TOUCHPAD: bv32 := 0x0010_0008

  /** Lower-cased name fragments of known BlackBerry keyboard touch surfaces. */
  const BB_KEYBOARD_PATTERNS: seq<string> :=
    ["bbq", "blackberry", "keyboard touchpad", "keypad", "priv"]

  /** Width over height at or below which, or at or above which, the
      geometric heuristic rejects. */
  const MIN_ASPECT: real := 2.0
  const MAX_ASPECT: real := 5.0

  predicate HasTouchpadSource(sources: bv32) {
    sources & SOURCE_TOUCHPAD == SOURCE_TOUCHPAD
  }

  /** `String.lowercase()` restricted to ASCII letters (other characters are
      kept as they are). */
  function LowerChar(c: char): char {
    if 'A' <= c <= 'Z' then (c as int + 32) as char else c
  }

  function Lowercase(s: string): string {
    seq(|s|, i requires 0 <= i < |s| => LowerChar(s[i]))
  }

  /** `p` occurs in `s` starting at position `i`. */
  predicate OccursAt(p: string, s: string, i: int) {
    0 <= i <= |s| - |p| && s[i..i + |p|] == p
  }

  /** `p` occurs in `s` at some position (the meaning of `String.contains`). */
  ghost predicate OccursIn(p: string, s: string) {
    exists i :: OccursAt(p, s, i)
  }

  /** `s.contains(p)`, scanning `s` from the left. */
  function Contains(s: string, p: string): bool
    decreases |s|
  {
    if |s| < |p| then false
    else s[..|p|] == p || Contains(s[1..], p)
  }

  lemma {:induction false} ContainsIsOccurrence(s: string, p: string)
    ensures Contains(s, p) <==> OccursIn(p, s)
    decreases |s|
  {
    if |s| < |p| {
    } else if s[..|p|] == p {
      assert OccursAt(p, s, 0);
    } else {
      ContainsIsOccurrence(s[1..], p);
      OccurrenceShifts(s, p);
    }
  }

  /** Past a mismatch at the front, `p` occurs in `s` iff it occurs in its tail. */
  lemma OccurrenceShifts(s: string, p: string)
    requires |p| <= |s| && s[..|p|] != p
    ensures OccursIn(p, s) <==> OccursIn(p, s[1..])
  {
    if OccursIn(p, s) {
      var i :| OccursAt(p, s, i);
      assert i != 0;
      assert s[1..][i - 1..i - 1 + |p|] == s[i..i + |p|];
      assert OccursAt(p, s[1..], i - 1);
    }
    if OccursIn(p, s[1..]) {
      var j :| OccursAt(p, s[1..], j);
      assert s[j + 1..j + 1 + |p|] == s[1..][j..j + |p|];
      assert OccursAt(p, s, j + 1);
    }
  }

  /** Some known pattern occurs in the lower-cased device name. */
  predicate NameMatches(name: string) {
    exists p | p in BB_KEYBOARD_PATTERNS :: Contains(Lowercase(name), p)
  }

  /** `isLikelyBBKeyboard`: both axis ranges exist and the width over height
      ratio lies strictly between 2 and 5; a non-positive height gives the
      ratio 0, which is rejected. */
  function IsLikelyBBKeyboard(d: InputDevice): (r: bool)
    ensures r <==>
      d.xRange.Some? && d.yRange.Some? &&
      var width := d.xRange.value.max - d.xRange.value.min;
      var height := d.yRange.value.max - d.yRange.value.min;
      0.0 < height && MIN_ASPECT * height < width < MAX_ASPECT * height
  {
    if d.xRange.None? || d.yRange.None? then false
    else
      var width := d.xRange.value.max - d.xRange.value.min;
      var height := d.yRange.value.max - d.yRange.value.min;
      var aspectRatio := if 0.0 < height then width / height else 0.0;
      if 0.0 < height then
        RatioBounds(width, height);
        MIN_ASPECT < aspectRatio && aspectRatio < MAX_ASPECT
      else
        MIN_ASPECT < aspectRatio && aspectRatio < MAX_ASPECT
  }

  lemma RatioBounds(width: real, height: real)
    requires 0.0 < height
    ensures MIN_ASPECT < width / height <==> MIN_ASPECT * height < width
    ensures width / height < MAX_ASPECT <==> width < MAX_ASPECT * height
  {
    assert width == (width / height) * height;
  }

  /** `isKeyboardTouchDevice`: the touchpad source bit is required; after
      that a name match or the geometric heuristic accepts. */
  function IsKeyboardTouchDevice(d: InputDevice): (r: bool)
    ensures r ==> HasTouchpadSource(d.sources)
  {
    if !HasTouchpadSource(d.sources) then false
    else NameMatches(d.name) || IsLikelyBBKeyboard(d)
  }

  /** The classifier stated without the scanning helpers: the source bit,
      and then an occurrence of a pattern in the lower-cased name or the
      ratio test written without division. */
  lemma KeyboardTouchDeviceIff(d: InputDevice)
    ensures IsKeyboardTouchDevice(d) <==>
      HasTouchpadSource(d.sources) &&
      ((exists p | p in BB_KEYBOARD_PATTERNS :: OccursIn(p, Lowercase(d.name))) ||
       (d.xRange.Some? && d.yRange.Some? &&
        var width := d.xRange.value.max - d.xRange.value.min;
        var height := d.yRange.value.max - d.yRange.value.min;
        0.0 < height && 2.0 * height < width < 5.0 * height))
  {
    forall p | p in BB_KEYBOARD_PATTERNS
      ensures Contains(Lowercase(d.name), p) <==> OccursIn(p, Lowercase(d.name))
    {
      ContainsIsOccurrence(Lowercase(d.name), p);
    }
  }

  /** A device without the touchpad source bit is rejected whatever its name. */
  lemma NoTouchpadSourceNeverMatches(d: InputDevice)
    requires !HasTouchpadSource(d.sources)
    ensures !IsKeyboardTouchDevice(d)
  {
  }

  /** A touchpad whose name contains a known pattern in any letter case is
      accepted. */
  lemma {:induction false} PatternInNameMatches(d: InputDevice, i: int, p: string)
    requires HasTouchpadSource(d.sources)
    requires p in BB_KEYBOARD_PATTERNS
    requires 0 <= i <= |d.name| - |p| && Lowercase(d.name)[i..i + |p|] == p
    ensures IsKeyboardTouchDevice(d)
  {
    assert OccursAt(p, Lowercase(d.name), i);
    ContainsIsOccurrence(Lowercase(d.name), p);
    assert NameMatches(d.name);
  }

  /** `isKeyboardTouchEvent`: an event whose device is gone never matches. */
  function IsKeyboardTouchEvent(e: MotionEvent): (r: bool)
    ensures e.device.None? ==> !r
    ensures r ==> HasTouchpadSource(e.device.value.sources)
  {
    match e.device
    case None => false
    case Some(d) => IsKeyboardTouchDevice(d)
  }

  /** The OS device table as `InputManager` exposes it: the id is listed and
      `getInputDevice(id)` returns a device that the classifier accepts. */
  predicate AcceptedId(devices: map<int, InputDevice>, id: int) {
    id in devices && IsKeyboardTouchDevice(devices[id])
  }

  /** `getKeyboardTouchDevices`: the accepted devices among `ids`, in the
      order of `ids`; ids whose device lookup fails are skipped. */
  function KeyboardTouchDevices(ids: seq<int>, devices: map<int, InputDevice>): (r: seq<InputDevice>)
    ensures |r| <= |ids|
    ensures forall d :: d in r <==> exists id :: id in ids && AcceptedId(devices, id) && devices[id] == d
    decreases |ids|
  {
    if ids == [] then []
    else
      var rest := KeyboardTouchDevices(ids[1..], devices);
      assert forall id :: id in ids <==> id == ids[0] || id in ids[1..];
      if AcceptedId(devices, ids[0]) then [devices[ids[0]]] + rest else rest
  }

  /** The device list respects the order of the ids: listing a concatenation
      lists each part in turn. */
  lemma {:induction false} KeyboardTouchDevicesAppend(a: seq<int>, b: seq<int>, devices: map<int, InputDevice>)
    ensures KeyboardTouchDevices(a + b, devices) ==
            KeyboardTouchDevices(a, devices) + KeyboardTouchDevices(b, devices)
    decreases |a|
  {
    if a == [] {
      assert a + b == b;
    } else {
      assert (a + b)[0] == a[0];
      assert (a + b)[1..] == a[1..] + b;
      KeyboardTouchDevicesAppend(a[1..], b, devices);
    }
  }

  /** `hasKeyboardTouch`: some listed id has an accepted device. */
  function HasKeyboardTouch(ids: seq<int>, devices: map<int, InputDevice>): (r: bool)
    ensures r <==> exists id :: id in ids && AcceptedId(devices, id)
  {
    var found := KeyboardTouchDevices(ids, devices);
    AcceptedIdIsListed(ids, devices);
    assert |found| > 0 ==> found[0] in found;
    |found| > 0
  }

  lemma AcceptedIdIsListed(ids: seq<int>, devices: map<int, InputDevice>)
    ensures (exists id :: id in ids && AcceptedId(devices, id)) ==>
            |KeyboardTouchDevices(ids, devices)| > 0
  {
    if exists id :: id in ids && AcceptedId(devices, id) {
      var id :| id in ids && AcceptedId(devices, id);
      assert devices[id] in KeyboardTouchDevices(ids, devices);
    }
  }
}
