/** The accessibility service: the mouse-mode switch (a long press of the
    toggle key, or a broadcast intent), the key bindings for click, right
    click and scroll mode, and the translation of keyboard-touchpad motion
    into cursor moves and scroll gestures.

    The service's behaviour is given first as pure step functions on a
    `Service` snapshot, over which properties of whole event sequences are
    proved, and then as the class `MouseAccessibilityService`, whose
    methods update its fields and are proved to follow the step functions.

    The long-press check posted to the main-thread handler is the flag
    `checkPending`; `ToggleCheckFires` is that check running. The wall clock
    is a parameter `now`. The service's calls into the overlays (show,
    hide, move the cursor, reload settings) and into the system (gesture
    dispatch, vibration, state broadcast) are emitted as `ServiceOutput`
    commands; the current cursor position is a parameter `cursorAt`. */
module MouseAccessibility {
  import opened Platform
  import opened Prefs
  import Devices = InputEventInterceptor

  /** `longPressThreshold`: how long the toggle key must be held. */
  const LONG_PRESS_THRESHOLD := 500

  /** Vibration lengths: a long-press toggle, entering and leaving mouse
      mode, and the confirmations of a completed click and right click. */
  const TOGGLE_VIBRATION := 100
  const ENABLE_VIBRATION := 50
  const DISABLE_VIBRATION := 30
  const CLICK_VIBRATION := 30
  const RIGHT_CLICK_VIBRATION := 50

  /** Stroke durations of the dispatched gestures, and the scroll gain. */
  const CLICK_DURATION := 50
  const LONG_PRESS_DURATION := 550
  const SCROLL_DURATION := 100
  const SCROLL_FACTOR: real := 3.0

  /** One stroke of a dispatched gesture: a path from one point to another
      over `durationMs`. */
  datatype Stroke = Stroke(fromX: real, fromY: real, toX: real, toY: real, durationMs: int)

  /** What the service asks of the overlays and the system. */
  datatype ServiceOutput =
    | ShowOverlays            // create (when absent) and show the cursor, trackpad and touch overlays
    | HideOverlays            // hide the three overlays
    | RefreshOverlaySettings  // the cursor and trackpad overlays re-read their settings
    | MoveCursor(dx: real, dy: real)
    /** A gesture; on completion it vibrates for `completionVibration`
        milliseconds when vibrate-on-click is set at that moment. */
    | Dispatch(stroke: Stroke, completionVibration: Option<int>)
    | Vibrate(ms: int)
    | BroadcastState(enabled: bool)

  /** The configured key codes. */
  datatype Keys = Keys(toggle: int, click: int, rightClick: int, scrollMode: int)

  /** The broadcast intents the receiver handles; any other action is ignored. */
  datatype Intent = ToggleMouse | EnableMouse | DisableMouse | UpdateSettings | QueryState | OtherIntent

  /** The service's fields: the mode, whether the overlays exist, the
      toggle-key tracking and the pending long-press check, scroll mode, and
      the keyboard-touchpad tracking. */
  datatype Service = Service(
    mouseMode: bool,
    overlays: bool,
    toggleKeyDown: bool,
    toggleKeyDownTime: int,
    checkPending: bool,
    scrollMode: bool,
    lastTouchX: real,
    lastTouchY: real,
    touching: bool)

  /** The answer to a key or touch event: the new state, whether the event
      is consumed, and the commands emitted. */
  datatype Reply = Reply(next: Service, consumed: bool, out: seq<ServiceOutput>)

  /** The effect of a timer, an intent or a lifecycle call: the new state,
      the commands emitted, and the mouse-mode value written to the
      settings, if any. */
  datatype Effect = Effect(next: Service, out: seq<ServiceOutput>, persist: Option<bool>)

  /** Mouse mode needs the overlays, and a long-press check is only pending
      while the toggle key is held. */
  predicate Inv(s: Service) {
    (s.mouseMode ==> s.overlays) && (s.checkPending ==> s.toggleKeyDown)
  }

  /** The state of a new service. */
  const Initial := Service(false, false, false, 0, false, false, 0.0, 0.0, false)

  /** The key codes read from the settings. */
  function ReadKeys(prefs: Preferences): (keys: Keys)
    reads prefs
    requires prefs.Valid()
    ensures prefs.store == map[] ==>
      keys == Keys(KEYCODE_SPACE, KEYCODE_ENTER, KEYCODE_DEL, KEYCODE_SHIFT_LEFT)
  {
    Keys(prefs.GetInt(ToggleKeycode), prefs.GetInt(ClickKeycode),
         prefs.GetInt(RightClickKeycode), prefs.GetInt(ScrollModeKeycode))
  }

  /** `performClick`: a 50 ms tap at the cursor, when the cursor overlay exists. */
  function ClickGesture(s: Service, at: (real, real)): seq<ServiceOutput> {
    if s.overlays then [Dispatch(Stroke(at.0, at.1, at.0, at.1, CLICK_DURATION), Some(CLICK_VIBRATION))]
    else []
  }

  /** `performLongPress`: a 550 ms press at the cursor. */
  function LongPressGesture(s: Service, at: (real, real)): seq<ServiceOutput> {
    if s.overlays then [Dispatch(Stroke(at.0, at.1, at.0, at.1, LONG_PRESS_DURATION), Some(RIGHT_CLICK_VIBRATION))]
    else []
  }

  /** `performScroll`: a 100 ms swipe from the cursor against three times
      the finger's motion. */
  function ScrollGesture(s: Service, at: (real, real), dx: real, dy: real): seq<ServiceOutput> {
    if s.overlays then
      [Dispatch(Stroke(at.0, at.1, at.0 - dx * SCROLL_FACTOR, at.1 - dy * SCROLL_FACTOR, SCROLL_DURATION), None)]
    else []
  }

  /** `enableMouseMode`. */
  function EnableMode(s: Service): Effect {
    Effect(s.(mouseMode := true, overlays := true), [ShowOverlays, Vibrate(ENABLE_VIBRATION)], None)
  }

  /** `disableMouseMode`: absent overlays are skipped. */
  function DisableMode(s: Service): Effect {
    Effect(s.(mouseMode := false),
           (if s.overlays then [HideOverlays] else []) + [Vibrate(DISABLE_VIBRATION)], None)
  }

  /** The mode switched and then, as after every switch requested by the
      user, written to the settings and broadcast. */
  function Switched(e: Effect): Effect {
    Effect(e.next, e.out + [BroadcastState(e.next.mouseMode)], Some(e.next.mouseMode))
  }

  /** `toggleMouseMode`. */
  function ToggleMode(s: Service): (r: Effect)
    ensures r.next.mouseMode == !s.mouseMode
    ensures r.persist == Some(r.next.mouseMode)
    ensures Inv(s) ==> Inv(r.next)
    ensures |r.out| > 0 && r.out[|r.out| - 1] == BroadcastState(r.next.mouseMode)
  {
    Switched(if s.mouseMode then DisableMode(s) else EnableMode(s))
  }

  /** `onKeyEvent` with the key codes `keys`, the clock `now` and the cursor
      at `at`. The toggle key's press and release are handled first, in any
      mode; every other key is let through while mouse mode is off. */
  function OnKey(s: Service, e: KeyEvent, keys: Keys, now: int, at: (real, real)): (r: Reply)
    ensures Inv(s) ==> Inv(r.next)
  {
    if e.keyCode == keys.toggle && e.action == KeyDown then
      if !s.toggleKeyDown then
        Reply(s.(toggleKeyDown := true, toggleKeyDownTime := now, checkPending := true), s.mouseMode, [])
      else
        Reply(s, s.mouseMode, [])
    else if e.keyCode == keys.toggle && e.action == KeyUp then
      Reply(s.(toggleKeyDown := false, checkPending := false),
            now - s.toggleKeyDownTime >= LONG_PRESS_THRESHOLD || s.mouseMode, [])
    else if !s.mouseMode then
      Reply(s, false, [])
    else if e.keyCode == keys.click then
      Reply(s, true, if e.action == KeyDown then ClickGesture(s, at) else [])
    else if e.keyCode == keys.rightClick then
      Reply(s, true, if e.action == KeyDown then LongPressGesture(s, at) else [])
    else if e.keyCode == keys.scrollMode then
      Reply(s.(scrollMode := e.action == KeyDown), true, [])
    else
      Reply(s, false, [])
  }

  /** The long-press check: it toggles only when the key is still held and
      the clock shows the threshold reached. */
  function OnToggleCheck(s: Service, now: int): (r: Effect)
    ensures !r.next.checkPending
    ensures Inv(s) ==> Inv(r.next)
  {
    var s' := s.(checkPending := false);
    if s.toggleKeyDown && now - s.toggleKeyDownTime >= LONG_PRESS_THRESHOLD then
      var t := ToggleMode(s');
      Effect(t.next, t.out + [Vibrate(TOGGLE_VIBRATION)], t.persist)
    else
      Effect(s', [], None)
  }

  /** `onKeyboardTouch`: motion is translated only in mouse mode; a move
      counts only between a press and a release, and becomes a scroll
      gesture in scroll mode and a cursor move otherwise. */
  function OnTouch(s: Service, e: MotionEvent, at: (real, real)): (r: Reply)
    ensures r.next.mouseMode == s.mouseMode && r.next.overlays == s.overlays
    ensures r.next.toggleKeyDown == s.toggleKeyDown && r.next.checkPending == s.checkPending
    ensures r.next.scrollMode == s.scrollMode
    ensures !s.mouseMode ==> r == Reply(s, false, [])
  {
    if !s.mouseMode then Reply(s, false, [])
    else
      match e.action
      case Down => Reply(s.(lastTouchX := e.x, lastTouchY := e.y, touching := true), true, [])
      case Move =>
        if s.touching then
          var dx := e.x - s.lastTouchX;
          var dy := e.y - s.lastTouchY;
          Reply(s.(lastTouchX := e.x, lastTouchY := e.y), true,
                if s.scrollMode then ScrollGesture(s, at, dx, dy)
                else if s.overlays then [MoveCursor(dx, dy)] else [])
        else Reply(s, false, [])
      case Up => Reply(s.(touching := false), true, [])
      case Cancel => Reply(s.(touching := false), true, [])
      case _ => Reply(s, false, [])
  }

  /** Facts about the keyboard touchpad in mouse mode. A press records the
      position; a move while touching emits its delta from the last position
      (as a cursor move, or in scroll mode as a swipe against three times
      the delta) and then records the new position; a move without a press
      is ignored; a release or cancel ends the touch. */
  lemma TouchFacts(s: Service, e: MotionEvent, at: (real, real), r: Reply)
    requires r == OnTouch(s, e, at)
    requires Inv(s) && s.mouseMode
    ensures e.action == Down ==>
      r.consumed && r.out == [] && r.next.touching && (r.next.lastTouchX, r.next.lastTouchY) == (e.x, e.y)
    ensures e.action == Move && s.touching ==>
      r.consumed && r.next.touching && (r.next.lastTouchX, r.next.lastTouchY) == (e.x, e.y) &&
      var dx := e.x - s.lastTouchX; var dy := e.y - s.lastTouchY;
      r.out == if s.scrollMode
        then [Dispatch(Stroke(at.0, at.1, at.0 - dx * 3.0, at.1 - dy * 3.0, SCROLL_DURATION), None)]
        else [MoveCursor(dx, dy)]
    ensures e.action == Move && !s.touching ==> r == Reply(s, false, [])
    ensures e.action in {Up, Cancel} ==> r.consumed && r.out == [] && r.next == s.(touching := false)
    ensures e.action !in {Down, Move, Up, Cancel} ==> r == Reply(s, false, [])
  {
  }

  /** The broadcast receiver. Enabling when on, or disabling when off, does
      nothing. */
  function OnIntent(s: Service, i: Intent): (r: Effect)
    ensures Inv(s) ==> Inv(r.next)
  {
    match i
    case ToggleMouse => ToggleMode(s)
    case EnableMouse => if !s.mouseMode then Switched(EnableMode(s)) else Effect(s, [], None)
    case DisableMouse => if s.mouseMode then Switched(DisableMode(s)) else Effect(s, [], None)
    case UpdateSettings => Effect(s, if s.overlays then [RefreshOverlaySettings] else [], None)
    case QueryState => Effect(s, [BroadcastState(s.mouseMode)], None)
    case OtherIntent => Effect(s, [], None)
  }

  /** The mode part of `onServiceConnected`: mouse mode is restored from the
      setting `persisted` (without writing it back) and the state broadcast. */
  function OnConnect(s: Service, persisted: bool): (r: Effect)
    ensures Inv(s) ==> Inv(r.next)
  {
    var e := if persisted then EnableMode(s) else Effect(s, [], None);
    Effect(e.next, e.out + [BroadcastState(e.next.mouseMode)], None)
  }

  /** The mode part of `onDestroy`: mouse mode is left and the overlays
      dropped; the setting is not written. */
  function Destroy(s: Service): (r: Effect)
    ensures !r.next.mouseMode && !r.next.overlays && r.persist.None?
    ensures Inv(s) ==> Inv(r.next)
  {
    var e := DisableMode(s);
    Effect(e.next.(overlays := false), e.out, None)
  }

  /** Facts about the toggle key. A press schedules one check, and a
      repeated press while held changes nothing; a release cancels the
      check and is consumed iff the key was held past the threshold or
      mouse mode is on. Neither switches the mode. */
  lemma ToggleKeyFacts(s: Service, e: KeyEvent, keys: Keys, now: int, at: (real, real), r: Reply)
    requires r == OnKey(s, e, keys, now, at)
    requires e.keyCode == keys.toggle && e.action != KeyMultiple
    ensures r.next.mouseMode == s.mouseMode && r.out == []
    ensures Inv(s) ==> Inv(r.next)
    ensures e.action == KeyDown ==>
      r.consumed == s.mouseMode && r.next.toggleKeyDown &&
      (s.toggleKeyDown ==> r.next == s) &&
      (!s.toggleKeyDown ==> r.next.checkPending && r.next.toggleKeyDownTime == now)
    ensures e.action == KeyUp ==>
      !r.next.toggleKeyDown && !r.next.checkPending &&
      (r.consumed <==> now - s.toggleKeyDownTime >= LONG_PRESS_THRESHOLD || s.mouseMode)
  {
  }

  /** Facts about every other key. With mouse mode off nothing is consumed
      and nothing changes. With it on, the click, right-click and scroll keys
      are consumed in both directions, a press of the click key taps at the
      cursor and one of the right-click key long-presses there, and the
      scroll key sets scroll mode exactly while it is down. No other field
      changes. */
  lemma OtherKeyFacts(s: Service, e: KeyEvent, keys: Keys, now: int, at: (real, real), r: Reply)
    requires r == OnKey(s, e, keys, now, at)
    requires Inv(s)
    requires e.keyCode != keys.toggle || e.action == KeyMultiple
    ensures !s.mouseMode ==> r == Reply(s, false, [])
    ensures r.next == s.(scrollMode := r.next.scrollMode)
    ensures s.mouseMode ==>
      (r.consumed <==> e.keyCode in {keys.click, keys.rightClick, keys.scrollMode})
    ensures s.mouseMode && e.keyCode == keys.click && e.action == KeyDown ==>
      r.out == [Dispatch(Stroke(at.0, at.1, at.0, at.1, CLICK_DURATION), Some(CLICK_VIBRATION))]
    ensures s.mouseMode && e.keyCode == keys.rightClick && e.keyCode != keys.click && e.action == KeyDown ==>
      r.out == [Dispatch(Stroke(at.0, at.1, at.0, at.1, LONG_PRESS_DURATION), Some(RIGHT_CLICK_VIBRATION))]
    ensures e.action != KeyDown ==> r.out == []
    ensures r.next.scrollMode != s.scrollMode ==>
      s.mouseMode && e.keyCode == keys.scrollMode && (r.next.scrollMode <==> e.action == KeyDown)
    ensures s.mouseMode && e.keyCode == keys.scrollMode && e.keyCode !in {keys.click, keys.rightClick} ==>
      r.next.scrollMode == (e.action == KeyDown)
  {
  }

  /** The check toggles the mode iff the key is still held and the
      threshold is reached; a toggle writes the new mode, broadcasts it and
      ends with the long vibration. */
  lemma ToggleCheckFacts(s: Service, now: int, r: Effect)
    requires r == OnToggleCheck(s, now)
    ensures r.next.mouseMode != s.mouseMode <==>
      s.toggleKeyDown && now - s.toggleKeyDownTime >= LONG_PRESS_THRESHOLD
    ensures r.next.mouseMode != s.mouseMode ==>
      r.persist == Some(r.next.mouseMode) &&
      BroadcastState(r.next.mouseMode) in r.out && r.out[|r.out| - 1] == Vibrate(TOGGLE_VIBRATION)
    ensures r.next.mouseMode == s.mouseMode ==> r.out == [] && r.persist.None?
  {
  }

  /** Facts about the receiver: each of the three mode intents leaves the
      mode as it names, a written value is always the new mode, and a
      written mode is always broadcast. */
  lemma IntentFacts(s: Service, i: Intent, r: Effect)
    requires r == OnIntent(s, i)
    ensures i == ToggleMouse ==> r.next.mouseMode == !s.mouseMode
    ensures i == EnableMouse ==> r.next.mouseMode
    ensures i == DisableMouse ==> !r.next.mouseMode
    ensures i !in {ToggleMouse, EnableMouse, DisableMouse} ==> r.next == s && r.persist.None?
    ensures r.persist.Some? ==> r.persist.value == r.next.mouseMode && BroadcastState(r.next.mouseMode) in r.out
    ensures r.next.mouseMode == s.mouseMode ==> r.persist.None?
    // enabling when on, or disabling when off, does nothing at all
    ensures i == EnableMouse && s.mouseMode ==> r == Effect(s, [], None)
    ensures i == DisableMouse && !s.mouseMode ==> r == Effect(s, [], None)
  {
    if r.persist.Some? {
      assert r.out[|r.out| - 1] == BroadcastState(r.next.mouseMode);
    }
  }

  /** A new service starts out of mouse mode, then follows the setting. */
  lemma ConnectRestoresMode(persisted: bool)
    ensures OnConnect(Initial, persisted).next.mouseMode == persisted
    ensures OnConnect(Initial, persisted).out[|OnConnect(Initial, persisted).out| - 1] == BroadcastState(persisted)
  {
  }

  /** Anything that happens to the service. */
  datatype ServiceEvent =
    | KeyInput(key: KeyEvent, now: int, cursorAt: (real, real))
    | ToggleTimer(now: int)
    | KeyboardTouch(motion: MotionEvent, cursorAt: (real, real))
    | Received(intent: Intent)

  /** One event; the check runs only while it is pending. */
  function Apply(s: Service, ev: ServiceEvent, keys: Keys): (r: Effect)
    ensures Inv(s) ==> Inv(r.next)
  {
    match ev
    case KeyInput(e, now, at) =>
      var r := OnKey(s, e, keys, now, at); Effect(r.next, r.out, None)
    case ToggleTimer(now) => if s.checkPending then OnToggleCheck(s, now) else Effect(s, [], None)
    case KeyboardTouch(e, at) => var r := OnTouch(s, e, at); Effect(r.next, r.out, None)
    case Received(i) => OnIntent(s, i)
  }

  /** The result of a sequence of events: the final state, the number of
      mode switches, and every command emitted. */
  datatype Trace = Trace(last: Service, switches: nat, out: seq<ServiceOutput>)

  function Run(s: Service, evs: seq<ServiceEvent>, keys: Keys): Trace
    decreases |evs|
  {
    if evs == [] then Trace(s, 0, [])
    else
      var first := Apply(s, evs[0], keys);
      var rest := Run(first.next, evs[1..], keys);
      Trace(rest.last, (if first.next.mouseMode != s.mouseMode then 1 else 0) + rest.switches, first.out + rest.out)
  }

  lemma {:induction false} RunKeepsInv(s: Service, evs: seq<ServiceEvent>, keys: Keys)
    requires Inv(s)
    ensures Inv(Run(s, evs, keys).last)
    decreases |evs|
  {
    if evs != [] {
      RunKeepsInv(Apply(s, evs[0], keys).next, evs[1..], keys);
    }
  }

  /** Running two sequences in turn is running their concatenation. */
  lemma {:induction false} RunAppend(s: Service, a: seq<ServiceEvent>, b: seq<ServiceEvent>, keys: Keys)
    ensures var ra := Run(s, a, keys); var rb := Run(ra.last, b, keys);
      Run(s, a + b, keys) == Trace(rb.last, ra.switches + rb.switches, ra.out + rb.out)
    decreases |a|
  {
    if a != [] {
      assert (a + b)[0] == a[0];
      assert (a + b)[1..] == a[1..] + b;
      var first := Apply(s, a[0], keys);
      RunAppend(first.next, a[1..], b, keys);
      var ra := Run(first.next, a[1..], keys);
      var rb := Run(ra.last, b, keys);
      assert first.out + (ra.out + rb.out) == (first.out + ra.out) + rb.out;
    } else {
      assert a + b == b;
    }
  }

  /** An event that neither releases the toggle key nor asks for a mode
      change by intent. */
  predicate KeepsToggleHeld(ev: ServiceEvent, keys: Keys) {
    match ev
    case KeyInput(e, _, _) => !(e.keyCode == keys.toggle && e.action == KeyUp)
    case ToggleTimer(_) => true
    case KeyboardTouch(_, _) => true
    case Received(i) => i !in {ToggleMouse, EnableMouse, DisableMouse}
  }

  /** While the toggle key stays held, one event switches the mode only by
      spending the pending check, and never posts a new one. */
  lemma HeldStep(s: Service, ev: ServiceEvent, keys: Keys)
    requires Inv(s) && s.toggleKeyDown && KeepsToggleHeld(ev, keys)
    ensures var n := Apply(s, ev, keys).next;
      n.toggleKeyDown &&
      (if n.mouseMode != s.mouseMode then 1 else 0) + (if n.checkPending then 1 else 0)
        <= (if s.checkPending then 1 else 0)
  {
    match ev
    case KeyInput(e, now, at) =>
      if e.keyCode == keys.toggle && e.action != KeyMultiple {
        ToggleKeyFacts(s, e, keys, now, at, OnKey(s, e, keys, now, at));
      } else {
        OtherKeyFacts(s, e, keys, now, at, OnKey(s, e, keys, now, at));
      }
    case ToggleTimer(now) =>
    case KeyboardTouch(e, at) =>
    case Received(i) =>
  }

  /** While the toggle key stays held, the mode switches at most as often as
      a check was pending: once at most. */
  lemma {:induction false} HeldKeySwitchesAtMostOnce(s: Service, evs: seq<ServiceEvent>, keys: Keys)
    requires Inv(s) && s.toggleKeyDown
    requires forall i :: 0 <= i < |evs| ==> KeepsToggleHeld(evs[i], keys)
    ensures var t := Run(s, evs, keys);
      t.last.toggleKeyDown &&
      t.switches + (if t.last.checkPending then 1 else 0) <= (if s.checkPending then 1 else 0)
    decreases |evs|
  {
    if evs != [] {
      HeldStep(s, evs[0], keys);
      var n := Apply(s, evs[0], keys).next;
      assert forall i :: 0 <= i < |evs[1..]| ==> evs[1..][i] == evs[i + 1];
      HeldKeySwitchesAtMostOnce(n, evs[1..], keys);
    }
  }

  /** One press of the toggle key, from its press to its release, switches
      the mode at most once, whatever happens in between (other than a mode
      intent), and leaves no check pending. */
  lemma OnePressSwitchesAtMostOnce(s: Service, down: ServiceEvent, held: seq<ServiceEvent>, up: ServiceEvent, keys: Keys)
    requires Inv(s) && !s.toggleKeyDown
    requires down.KeyInput? && down.key == KeyEvent(keys.toggle, KeyDown)
    requires up.KeyInput? && up.key == KeyEvent(keys.toggle, KeyUp)
    requires forall i :: 0 <= i < |held| ==> KeepsToggleHeld(held[i], keys)
    ensures var t := Run(s, [down] + held + [up], keys);
      t.switches <= 1 && !t.last.checkPending && !t.last.toggleKeyDown
  {
    var d := Apply(s, down, keys);
    ToggleKeyFacts(s, down.key, keys, down.now, down.cursorAt, OnKey(s, down.key, keys, down.now, down.cursorAt));
    HeldKeySwitchesAtMostOnce(d.next, held, keys);
    var h := Run(d.next, held, keys);
    RunKeepsInv(d.next, held, keys);
    ToggleKeyFacts(h.last, up.key, keys, up.now, up.cursorAt, OnKey(h.last, up.key, keys, up.now, up.cursorAt));
    RunAppend(s, [down], held, keys);
    RunAppend(s, [down] + held, [up], keys);
  }

  /** A press held past the threshold, with the check running on time,
      switches the mode, and its release is then consumed. */
  lemma LongPressSwitches(s: Service, keys: Keys, t0: int, t1: int, t2: int, at: (real, real))
    requires Inv(s) && !s.toggleKeyDown
    requires t0 + LONG_PRESS_THRESHOLD <= t1 <= t2
    ensures var t := Run(s, [KeyInput(KeyEvent(keys.toggle, KeyDown), t0, at), ToggleTimer(t1)], keys);
      t.last.mouseMode == !s.mouseMode && t.switches == 1 &&
      BroadcastState(!s.mouseMode) in t.out && Vibrate(TOGGLE_VIBRATION) in t.out &&
      OnKey(t.last, KeyEvent(keys.toggle, KeyUp), keys, t2, at).consumed
  {
    var evs := [KeyInput(KeyEvent(keys.toggle, KeyDown), t0, at), ToggleTimer(t1)];
    var d := OnKey(s, KeyEvent(keys.toggle, KeyDown), keys, t0, at);
    ToggleKeyFacts(s, KeyEvent(keys.toggle, KeyDown), keys, t0, at, d);
    var c := OnToggleCheck(d.next, t1);
    ToggleCheckFacts(d.next, t1, c);
    assert Apply(s, evs[0], keys).next == d.next;
    assert Apply(d.next, evs[1], keys) == c;
    assert evs[1..][1..] == [];
    assert Run(d.next, evs[1..], keys) == Trace(c.next, 1, c.out);
    assert Vibrate(TOGGLE_VIBRATION) == c.out[|c.out| - 1];
  }

  /** A press released before the threshold switches nothing, leaves no
      check pending, and is let through unless mouse mode is on. */
  lemma ShortPressPassesThrough(s: Service, keys: Keys, t0: int, t1: int, at: (real, real))
    requires Inv(s) && !s.toggleKeyDown
    requires t0 <= t1 < t0 + LONG_PRESS_THRESHOLD
    ensures var d := OnKey(s, KeyEvent(keys.toggle, KeyDown), keys, t0, at);
      var u := OnKey(d.next, KeyEvent(keys.toggle, KeyUp), keys, t1, at);
      u.next.mouseMode == s.mouseMode && !u.next.checkPending &&
      d.consumed == s.mouseMode && u.consumed == s.mouseMode && d.out + u.out == []
  {
    var d := OnKey(s, KeyEvent(keys.toggle, KeyDown), keys, t0, at);
    ToggleKeyFacts(s, KeyEvent(keys.toggle, KeyDown), keys, t0, at, d);
  }

  /** The horizontal and vertical totals of the cursor moves among `out`. */
  function MovedX(out: seq<ServiceOutput>): real
    decreases |out|
  {
    if out == [] then 0.0 else (if out[0].MoveCursor? then out[0].dx else 0.0) + MovedX(out[1..])
  }

  function MovedY(out: seq<ServiceOutput>): real
    decreases |out|
  {
    if out == [] then 0.0 else (if out[0].MoveCursor? then out[0].dy else 0.0) + MovedY(out[1..])
  }

  lemma {:induction false} MovedAppend(a: seq<ServiceOutput>, b: seq<ServiceOutput>)
    ensures MovedX(a + b) == MovedX(a) + MovedX(b) && MovedY(a + b) == MovedY(a) + MovedY(b)
    decreases |a|
  {
    if a != [] {
      assert (a + b)[0] == a[0];
      assert (a + b)[1..] == a[1..] + b;
      MovedAppend(a[1..], b);
      var h := if a[0].MoveCursor? then a[0].dx else 0.0;
      var v := if a[0].MoveCursor? then a[0].dy else 0.0;
      assert MovedX(a + b) == h + MovedX(a[1..] + b);
      assert MovedY(a + b) == v + MovedY(a[1..] + b);
    } else {
      assert a + b == b;
    }
  }

  /** Touchpad moves that follow a press, in mouse mode and outside scroll
      mode, move the cursor by exactly the finger's total displacement: the
      deltas add up to the last position minus the first, and nothing but
      cursor moves is emitted. */
  lemma {:induction false} TouchDeltasTelescope(s: Service, moves: seq<MotionEvent>, at: (real, real))
    requires Inv(s) && s.mouseMode && s.touching && !s.scrollMode
    requires forall i :: 0 <= i < |moves| ==> moves[i].action == Move
    ensures var t := RunTouch(s, moves, at);
      t.last.touching && t.last.mouseMode && !t.last.scrollMode &&
      MovedX(t.out) == t.last.lastTouchX - s.lastTouchX &&
      MovedY(t.out) == t.last.lastTouchY - s.lastTouchY &&
      |t.out| == |moves| && (forall i :: 0 <= i < |t.out| ==> t.out[i].MoveCursor?)
    decreases |moves|
  {
    if moves != [] {
      var r := OnTouch(s, moves[0], at);
      assert r.out == [MoveCursor(moves[0].x - s.lastTouchX, moves[0].y - s.lastTouchY)];
      assert forall i :: 0 <= i < |moves[1..]| ==> moves[1..][i] == moves[i + 1];
      TouchDeltasTelescope(r.next, moves[1..], at);
      var rest := RunTouch(r.next, moves[1..], at);
      MovedAppend(r.out, rest.out);
    }
  }

  /** A sequence of touchpad events (no mode switch can happen in it). */
  function RunTouch(s: Service, es: seq<MotionEvent>, at: (real, real)): Trace
    decreases |es|
  {
    if es == [] then Trace(s, 0, [])
    else
      var first := OnTouch(s, es[0], at);
      var rest := RunTouch(first.next, es[1..], at);
      Trace(rest.last, rest.switches, first.out + rest.out)
  }

  /** A touchpad sequence is the same as the matching service events. */
  lemma {:induction false} RunTouchIsRun(s: Service, es: seq<MotionEvent>, at: (real, real), keys: Keys)
    ensures var evs := seq(|es|, i requires 0 <= i < |es| => KeyboardTouch(es[i], at));
      Run(s, evs, keys) == RunTouch(s, es, at)
    decreases |es|
  {
    var evs := seq(|es|, i requires 0 <= i < |es| => KeyboardTouch(es[i], at));
    if es != [] {
      var tail := seq(|es[1..]|, i requires 0 <= i < |es[1..]| => KeyboardTouch(es[1..][i], at));
      assert evs[1..] == tail;
      RunTouchIsRun(OnTouch(s, es[0], at).next, es[1..], at, keys);
    }
  }

  class MouseAccessibilityService {
    /** Whether the service instance is registered (`instance != null`). */
    var running: bool
    var isMouseModeEnabled: bool
    /** Whether the overlays have been created. */
    var overlaysCreated: bool
    var toggleKeyDownTime: int
    var isToggleKeyDown: bool
    /** Whether the long-press check is posted. */
    var toggleCheckPending: bool
    var isScrollModeActive: bool
    var lastTouchX: real
    var lastTouchY: real
    var isTouching: bool
    var receiverRegistered: bool
    var inputInterceptor: Devices.InputEventInterceptor?

    function Snapshot(): Service
      reads this`isMouseModeEnabled, this`overlaysCreated, this`isToggleKeyDown, this`toggleKeyDownTime,
            this`toggleCheckPending, this`isScrollModeActive, this`lastTouchX, this`lastTouchY, this`isTouching
    {
      Service(isMouseModeEnabled, overlaysCreated, isToggleKeyDown, toggleKeyDownTime,
              toggleCheckPending, isScrollModeActive, lastTouchX, lastTouchY, isTouching)
    }

    ghost predicate Valid()
      reads this`isMouseModeEnabled, this`overlaysCreated, this`isToggleKeyDown, this`toggleKeyDownTime,
            this`toggleCheckPending, this`isScrollModeActive, this`lastTouchX, this`lastTouchY, this`isTouching
    {
      Inv(Snapshot())
    }

    constructor ()
      ensures Valid() && Snapshot() == Initial
      ensures !running && !receiverRegistered && inputInterceptor == null
    {
      running := false;
      isMouseModeEnabled := false;
      overlaysCreated := false;
      toggleKeyDownTime := 0;
      isToggleKeyDown := false;
      toggleCheckPending := false;
      isScrollModeActive := false;
      lastTouchX, lastTouchY := 0.0, 0.0;
      isTouching := false;
      receiverRegistered := false;
      inputInterceptor := null;
    }

    /** `onCreate`. */
    method OnCreate()
      modifies this`running
      ensures running
    {
      running := true;
    }

    /** `isMouseModeActive`: false when no instance is registered. */
    function MouseModeActive(): (r: bool)
      reads this`running, this`isMouseModeEnabled
      ensures r ==> running && isMouseModeEnabled
      ensures !running ==> !r
    {
      running && isMouseModeEnabled
    }

    /** `onServiceConnected`: starts a new device tracker over the present
        devices `ids`/`devices`, registers the receiver, restores mouse mode
        from the settings and broadcasts the state. */
    method OnServiceConnected(prefs: Preferences, ids: seq<int>, devices: map<int, InputDevice>)
      returns (out: seq<ServiceOutput>)
      requires Valid() && prefs.Valid()
      modifies this`inputInterceptor, this`receiverRegistered, this`isMouseModeEnabled, this`overlaysCreated
      ensures Valid() && receiverRegistered
      ensures inputInterceptor != null && fresh(inputInterceptor)
      ensures inputInterceptor.keyboardDeviceIds == Devices.AcceptedIds(ids, devices) && inputInterceptor.listening
      ensures var r := OnConnect(old(Snapshot()), prefs.IsMouseModeEnabled());
        Snapshot() == r.next && out == r.out
    {
      var tracker := new Devices.InputEventInterceptor();
      tracker.Start(ids, devices);
      inputInterceptor := tracker;
      receiverRegistered := true;
      out := [];
      if prefs.IsMouseModeEnabled() {
        out := EnableMouseMode();
      }
      out := out + [BroadcastState(isMouseModeEnabled)];
    }

    /** `onDestroy`: the tracker is stopped and dropped, mouse mode is left
        without writing the setting, the overlays are dropped and the
        receiver unregistered. */
    method OnDestroy() returns (out: seq<ServiceOutput>)
      requires Valid()
      modifies this`running, this`inputInterceptor, this`isMouseModeEnabled, this`overlaysCreated,
               this`receiverRegistered, inputInterceptor
      ensures Valid() && !running && !receiverRegistered && inputInterceptor == null
      ensures old(inputInterceptor) != null ==>
        old(inputInterceptor).keyboardDeviceIds == {} && !old(inputInterceptor).listening
      ensures var r := Destroy(old(Snapshot()));
        Snapshot() == r.next && out == r.out
    {
      running := false;
      if inputInterceptor != null {
        inputInterceptor.Stop();
      }
      inputInterceptor := null;
      out := DisableMouseMode();
      overlaysCreated := false;
      receiverRegistered := false;
    }

    /** `onGenericMotionEvent`: without a tracker nothing is consumed;
        otherwise the tracker's filter passes the event on to
        `onKeyboardTouch` when it comes from a keyboard touch surface. */
    method OnGenericMotionEvent(e: MotionEvent, cursorAt: (real, real)) returns (consumed: bool, out: seq<ServiceOutput>)
      requires Valid()
      modifies this`lastTouchX, this`lastTouchY, this`isTouching
      ensures Valid()
      ensures var fromTouchpad := old(inputInterceptor) != null && inputInterceptor.IsKeyboardTouchEvent(e);
        var r := if fromTouchpad then OnTouch(old(Snapshot()), e, cursorAt) else Reply(old(Snapshot()), false, []);
        Snapshot() == r.next && consumed == r.consumed && out == r.out
    {
      if inputInterceptor == null {
        return false, [];
      }
      if !inputInterceptor.IsKeyboardTouchEvent(e) {
        return false, [];
      }
      consumed, out := OnKeyboardTouch(e, cursorAt);
    }

    /** `onKeyEvent`, the key codes being read from `prefs`. */
    method OnKeyEvent(e: KeyEvent, now: int, cursorAt: (real, real), prefs: Preferences)
      returns (consumed: bool, out: seq<ServiceOutput>)
      requires Valid() && prefs.Valid()
      modifies this`isToggleKeyDown, this`toggleKeyDownTime, this`toggleCheckPending, this`isScrollModeActive
      ensures Valid()
      ensures var r := OnKey(old(Snapshot()), e, ReadKeys(prefs), now, cursorAt);
        Snapshot() == r.next && consumed == r.consumed && out == r.out
    {
      var keys := ReadKeys(prefs);
      if e.keyCode == keys.toggle && e.action == KeyDown {
        if !isToggleKeyDown {
          isToggleKeyDown := true;
          toggleKeyDownTime := now;
          toggleCheckPending := true;
        }
        return isMouseModeEnabled, [];
      }
      if e.keyCode == keys.toggle && e.action == KeyUp {
        var wasLongPress := now - toggleKeyDownTime >= LONG_PRESS_THRESHOLD;
        isToggleKeyDown := false;
        toggleCheckPending := false;
        return wasLongPress || isMouseModeEnabled, [];
      }
      if !isMouseModeEnabled {
        return false, [];
      }
      if e.keyCode == keys.click {
        out := if e.action == KeyDown then ClickGesture(Snapshot(), cursorAt) else [];
        return true, out;
      }
      if e.keyCode == keys.rightClick {
        out := if e.action == KeyDown then LongPressGesture(Snapshot(), cursorAt) else [];
        return true, out;
      }
      if e.keyCode == keys.scrollMode {
        isScrollModeActive := e.action == KeyDown;
        return true, [];
      }
      return false, [];
    }

    /** `onKeyboardTouch`. */
    method OnKeyboardTouch(e: MotionEvent, cursorAt: (real, real)) returns (consumed: bool, out: seq<ServiceOutput>)
      requires Valid()
      modifies this`lastTouchX, this`lastTouchY, this`isTouching
      ensures Valid()
      ensures var r := OnTouch(old(Snapshot()), e, cursorAt);
        Snapshot() == r.next && consumed == r.consumed && out == r.out
    {
      if !isMouseModeEnabled {
        return false, [];
      }
      match e.action {
        case Down =>
          lastTouchX := e.x;
          lastTouchY := e.y;
          isTouching := true;
          return true, [];
        case Move =>
          if isTouching {
            var deltaX := e.x - lastTouchX;
            var deltaY := e.y - lastTouchY;
            out := if isScrollModeActive then ScrollGesture(Snapshot(), cursorAt, deltaX, deltaY)
                   else if overlaysCreated then [MoveCursor(deltaX, deltaY)] else [];
            lastTouchX := e.x;
            lastTouchY := e.y;
            return true, out;
          }
          return false, [];
        case Up =>
          isTouching := false;
          return true, [];
        case Cancel =>
          isTouching := false;
          return true, [];
        case _ =>
          return false, [];
      }
    }

    /** The posted long-press check running at time `now`. */
    method ToggleCheckFires(now: int, prefs: Preferences) returns (out: seq<ServiceOutput>)
      requires Valid() && prefs.Valid() && toggleCheckPending
      modifies this`toggleCheckPending, this`isMouseModeEnabled, this`overlaysCreated, prefs
      ensures Valid() && prefs.Valid()
      ensures var r := OnToggleCheck(old(Snapshot()), now);
        Snapshot() == r.next && out == r.out &&
        prefs.store == if r.persist.Some? then old(prefs.store)[MouseModeEnabled := BoolValue(r.persist.value)]
                       else old(prefs.store)
    {
      toggleCheckPending := false;
      out := [];
      if isToggleKeyDown && now - toggleKeyDownTime >= LONG_PRESS_THRESHOLD {
        out := ToggleMouseMode(prefs);
        out := out + [Vibrate(TOGGLE_VIBRATION)];
      }
    }

    /** `toggleMouseMode`: switches, writes the new mode, broadcasts it. */
    method ToggleMouseMode(prefs: Preferences) returns (out: seq<ServiceOutput>)
      requires Valid() && prefs.Valid()
      modifies this`isMouseModeEnabled, this`overlaysCreated, prefs
      ensures Valid() && prefs.Valid()
      ensures var r := ToggleMode(old(Snapshot()));
        Snapshot() == r.next && out == r.out
      ensures prefs.store == old(prefs.store)[MouseModeEnabled := BoolValue(isMouseModeEnabled)]
      ensures prefs.IsMouseModeEnabled() == isMouseModeEnabled
    {
      if isMouseModeEnabled {
        out := DisableMouseMode();
      } else {
        out := EnableMouseMode();
      }
      prefs.Set(MouseModeEnabled, BoolValue(isMouseModeEnabled));
      out := out + [BroadcastState(isMouseModeEnabled)];
    }

    /** `enableMouseMode`. */
    method EnableMouseMode() returns (out: seq<ServiceOutput>)
      modifies this`isMouseModeEnabled, this`overlaysCreated
      ensures var r := EnableMode(old(Snapshot()));
        Snapshot() == r.next && out == r.out
    {
      overlaysCreated := true;
      out := [ShowOverlays];
      isMouseModeEnabled := true;
      out := out + [Vibrate(ENABLE_VIBRATION)];
    }

    /** `disableMouseMode`. */
    method DisableMouseMode() returns (out: seq<ServiceOutput>)
      modifies this`isMouseModeEnabled
      ensures var r := DisableMode(old(Snapshot()));
        Snapshot() == r.next && out == r.out
    {
      out := if overlaysCreated then [HideOverlays] else [];
      isMouseModeEnabled := false;
      out := out + [Vibrate(DISABLE_VIBRATION)];
    }

    /** The broadcast receiver's `onReceive`. */
    method OnReceive(i: Intent, prefs: Preferences) returns (out: seq<ServiceOutput>)
      requires Valid() && prefs.Valid()
      modifies this`isMouseModeEnabled, this`overlaysCreated, prefs
      ensures Valid() && prefs.Valid()
      ensures var r := OnIntent(old(Snapshot()), i);
        Snapshot() == r.next && out == r.out &&
        prefs.store == if r.persist.Some? then old(prefs.store)[MouseModeEnabled := BoolValue(r.persist.value)]
                       else old(prefs.store)
    {
      out := [];
      match i {
        case ToggleMouse =>
          out := ToggleMouseMode(prefs);
        case EnableMouse =>
          if !isMouseModeEnabled {
            out := EnableMouseMode();
            prefs.Set(MouseModeEnabled, BoolValue(true));
            out := out + [BroadcastState(isMouseModeEnabled)];
          }
        case DisableMouse =>
          if isMouseModeEnabled {
            out := DisableMouseMode();
            prefs.Set(MouseModeEnabled, BoolValue(false));
            out := out + [BroadcastState(isMouseModeEnabled)];
          }
        case UpdateSettings =>
          if overlaysCreated {
            out := [RefreshOverlaySettings];
          }
        case QueryState =>
          out := [BroadcastState(isMouseModeEnabled)];
        case OtherIntent =>
      }
    }
  }
}
