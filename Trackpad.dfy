/** The floating virtual trackpad: an on-screen window that turns touches
    into cursor drags, a tap into a left click, a long press into a right
    click, a touch on the optional drag handle into window repositioning,
    and a two-finger touch into a latched window move.

    The gesture logic is stated twice: as a pure transition function over a
    `Gesture` value (`OnTouch`, `OnLongPressTimer`), about which the
    properties over whole touch sequences are proved, and as the class
    `FloatingControlsOverlay`, whose methods update its fields step by step
    and are proved to agree with the transition function. */
module FloatingControls {
  import opened Platform
  import opened Prefs

  const LONG_PRESS_THRESHOLD := 400
  const TAP_THRESHOLD := 200
  const MOVE_THRESHOLD: real := 10.0
  const DRAG_HANDLE_HEIGHT := 30
  const DRAG_HANDLE_PADDING := 8

  /** What the trackpad hands to its owner: the three callbacks it calls
      (left click, right click, drag by a delta), a vibration of the given
      length, and a write of the window position to the settings. */
  datatype TrackpadOutput =
    | LeftClick
    | RightClick
    | Drag(dx: real, dy: real)
    | Haptic(ms: int)
    | SavePosition(x: int, y: int)

  /** The settings the touch handler reads: the drag-handle flag and the
      two-finger flag (fields of the overlay) and vibrate-on-click (read
      from the settings at each vibration). */
  datatype TouchConfig = TouchConfig(showDragHandle: bool, twoFingerDragEnabled: bool, vibrateOnClick: bool)

  /** The touch-tracking fields of the overlay, the pending long-press
      timer, and the window position (x, y). */
  datatype Gesture = Gesture(
    touchStartX: real,
    touchStartY: real,
    lastTouchX: real,
    lastTouchY: real,
    touchStartTime: int,
    isDraggingTrackpad: bool,
    isMovingPosition: bool,
    isTwoFingerDrag: bool,
    wasInTwoFingerMode: bool,
    hasMoved: bool,
    longPressTriggered: bool,
    longPressPending: bool,
    twoFingerLastRawX: real,
    twoFingerLastRawY: real,
    x: int,
    y: int)

  datatype Step = Step(next: Gesture, out: seq<TrackpadOutput>)

  /** `vibrate(ms)`: a vibration only when vibrate-on-click is set. */
  function Vibrate(cfg: TouchConfig, ms: int): seq<TrackpadOutput> {
    if cfg.vibrateOnClick then [Haptic(ms)] else []
  }

  /** Top of the touch surface below the drag handle. */
  function TrackpadTop(cfg: TouchConfig): int {
    if cfg.showDragHandle then DRAG_HANDLE_HEIGHT + DRAG_HANDLE_PADDING else 0
  }

  predicate InDragHandle(cfg: TouchConfig, e: MotionEvent) {
    cfg.showDragHandle && e.y < TrackpadTop(cfg) as real
  }

  /** The overlay consumes the six touch actions; any other action goes to
      the platform's default handler, which does not consume it. */
  predicate Handles(e: MotionEvent) {
    !e.action.OtherAction?
  }

  /** No single-finger mode is active and no long press is pending: the
      state after every release. */
  predicate AtRest(g: Gesture) {
    !g.isDraggingTrackpad && !g.isMovingPosition && !g.isTwoFingerDrag &&
    !g.wasInTwoFingerMode && !g.longPressPending
  }

  /** The relations between the flags that every transition keeps. */
  predicate Inv(g: Gesture) {
    FlagsInv(g.longPressPending, g.isDraggingTrackpad, g.isMovingPosition, g.isTwoFingerDrag,
             g.wasInTwoFingerMode, g.hasMoved, g.longPressTriggered)
  }

  /** A long press is pending only for an unmoved single-finger drag that
      has not fired yet; a two-finger drag lies within two-finger mode,
      which excludes the single-finger modes. */
  predicate FlagsInv(longPressPending: bool, isDraggingTrackpad: bool, isMovingPosition: bool,
                     isTwoFingerDrag: bool, wasInTwoFingerMode: bool, hasMoved: bool, longPressTriggered: bool)
  {
    (longPressPending ==> isDraggingTrackpad && !hasMoved && !longPressTriggered && !wasInTwoFingerMode) &&
    (isTwoFingerDrag ==> wasInTwoFingerMode) &&
    (wasInTwoFingerMode ==> !isDraggingTrackpad && !isMovingPosition)
  }

  predicate NoDrag(out: seq<TrackpadOutput>) {
    forall i :: 0 <= i < |out| ==> !out[i].Drag?
  }

  /** Number of clicks, left or right, among the outputs. */
  function Clicks(out: seq<TrackpadOutput>): nat
    decreases |out|
  {
    if out == [] then 0
    else (if out[0] == LeftClick || out[0] == RightClick then 1 else 0) + Clicks(out[1..])
  }

  function OnDown(g: Gesture, e: MotionEvent, now: int, inDragHandle: bool): Gesture {
    var started := g.(wasInTwoFingerMode := false,
                    touchStartX := e.rawX, touchStartY := e.rawY,
                    lastTouchX := e.x, lastTouchY := e.y,
                    touchStartTime := now,
                    hasMoved := false, longPressTriggered := false, isTwoFingerDrag := false);
    if inDragHandle then started.(isMovingPosition := true)
    else started.(isDraggingTrackpad := true, longPressPending := true)
  }

  function OnPointerDown(g: Gesture, e: MotionEvent, cfg: TouchConfig): Step {
    if cfg.twoFingerDragEnabled && e.pointerCount == 2 then
      Step(g.(longPressPending := false,
              isDraggingTrackpad := false, isMovingPosition := false,
              isTwoFingerDrag := true, wasInTwoFingerMode := true,
              twoFingerLastRawX := e.rawX, twoFingerLastRawY := e.rawY),
           Vibrate(cfg, 20))
    else
      Step(g, [])
  }

  function OnMove(g: Gesture, e: MotionEvent): Step {
    if g.wasInTwoFingerMode then
      if g.isTwoFingerDrag && 2 <= e.pointerCount then
        Step(g.(x := TruncToInt(g.x as real + (e.rawX - g.twoFingerLastRawX)),
                y := TruncToInt(g.y as real + (e.rawY - g.twoFingerLastRawY)),
                twoFingerLastRawX := e.rawX, twoFingerLastRawY := e.rawY),
             [])
      else
        Step(g, [])
    else if g.isMovingPosition then
      Step(g.(x := TruncToInt(g.x as real + (e.rawX - g.touchStartX)),
              y := TruncToInt(g.y as real + (e.rawY - g.touchStartY)),
              touchStartX := e.rawX, touchStartY := e.rawY),
           [])
    else if g.isDraggingTrackpad then
      var crossed := !g.hasMoved &&
        (Abs(e.rawX - g.touchStartX) > MOVE_THRESHOLD || Abs(e.rawY - g.touchStartY) > MOVE_THRESHOLD);
      var moved := g.hasMoved || crossed;
      Step(g.(hasMoved := moved, longPressPending := g.longPressPending && !crossed,
              lastTouchX := e.x, lastTouchY := e.y),
           if moved then [Drag(e.x - g.lastTouchX, e.y - g.lastTouchY)] else [])
    else
      Step(g, [])
  }

  function OnPointerUp(g: Gesture): Step {
    if g.isTwoFingerDrag then Step(g.(isTwoFingerDrag := false), [SavePosition(g.x, g.y)])
    else Step(g, [])
  }

  /** A tap: the touch began on the touch surface, never entered two-finger
      mode, never moved past the threshold, fired no long press and lasted
      less than the tap threshold. */
  predicate IsTap(g: Gesture, now: int) {
    !g.wasInTwoFingerMode && !g.isMovingPosition && g.isDraggingTrackpad &&
    !g.hasMoved && !g.longPressTriggered && now - g.touchStartTime < TAP_THRESHOLD
  }

  function OnRelease(g: Gesture, now: int, cfg: TouchConfig): Step {
    var out :=
      if g.wasInTwoFingerMode || g.isMovingPosition then [SavePosition(g.x, g.y)]
      else if IsTap(g, now) then Vibrate(cfg, 30) + [LeftClick]
      else [];
    Step(g.(longPressPending := false,
            isDraggingTrackpad := false, isMovingPosition := false,
            isTwoFingerDrag := false, wasInTwoFingerMode := false),
         out)
  }

  /** `onTouchEvent` as a transition: the next state and the outputs. */
  function OnTouch(g: Gesture, e: MotionEvent, now: int, cfg: TouchConfig): (r: Step)
    ensures Inv(g) ==> Inv(r.next)
  {
    match e.action
    case Down => Step(OnDown(g, e, now, InDragHandle(cfg, e)), [])
    case PointerDown => OnPointerDown(g, e, cfg)
    case Move => OnMove(g, e)
    case PointerUp => OnPointerUp(g)
    case Up => OnRelease(g, now, cfg)
    case Cancel => OnRelease(g, now, cfg)
    case OtherAction(_) => Step(g, [])
  }

  /** What one touch event does to the gesture, action by action. */
  lemma TouchStepFacts(g: Gesture, e: MotionEvent, now: int, cfg: TouchConfig, r: Step)
    requires r == OnTouch(g, e, now, cfg)
    // a fresh touch clears the sticky flags; it schedules the long press
    // unless it lands on the drag handle
    ensures e.action.Down? ==>
      r.out == [] && !r.next.hasMoved && !r.next.longPressTriggered && !r.next.wasInTwoFingerMode &&
      (InDragHandle(cfg, e) ==> r.next.longPressPending == g.longPressPending && r.next.isMovingPosition) &&
      (!InDragHandle(cfg, e) ==> r.next.longPressPending && r.next.isDraggingTrackpad)
    // moving past the threshold is remembered until the next fresh touch
    ensures !e.action.Down? && g.hasMoved ==> r.next.hasMoved
    ensures Inv(g) && e.action.Move? && !g.wasInTwoFingerMode && !g.isMovingPosition && g.isDraggingTrackpad &&
            (Abs(e.rawX - g.touchStartX) > MOVE_THRESHOLD || Abs(e.rawY - g.touchStartY) > MOVE_THRESHOLD)
            ==> r.next.hasMoved && !r.next.longPressPending
    // a drag is reported only once moved, with the per-event local delta
    ensures !NoDrag(r.out) ==>
      e.action.Move? && !g.wasInTwoFingerMode && r.next.hasMoved &&
      r.out == [Drag(e.x - g.lastTouchX, e.y - g.lastTouchY)]
  {
  }

  /** The clicks one touch event produces. */
  lemma TouchClickFacts(g: Gesture, e: MotionEvent, now: int, cfg: TouchConfig, r: Step)
    requires r == OnTouch(g, e, now, cfg)
    // a left click exactly on the release of a tap; never a right click
    ensures LeftClick in r.out <==> (e.action.Up? || e.action.Cancel?) && IsTap(g, now)
    ensures RightClick !in r.out
  {
  }

  /** What one touch event does to two-finger mode and to the window. */
  lemma TouchTwoFingerFacts(g: Gesture, e: MotionEvent, now: int, cfg: TouchConfig, r: Step)
    requires r == OnTouch(g, e, now, cfg)
    // a second finger latches two-finger mode and cancels everything else
    ensures e.action.PointerDown? && cfg.twoFingerDragEnabled && e.pointerCount == 2 ==>
      !r.next.longPressPending && !r.next.isDraggingTrackpad && !r.next.isMovingPosition &&
      r.next.isTwoFingerDrag && r.next.wasInTwoFingerMode
    // while latched, a move only shifts the window by the raw delta
    ensures e.action.Move? && g.wasInTwoFingerMode ==>
      r.out == [] && r.next.wasInTwoFingerMode &&
      if g.isTwoFingerDrag && 2 <= e.pointerCount then
        r.next.x == TruncToInt(g.x as real + (e.rawX - g.twoFingerLastRawX)) &&
        r.next.y == TruncToInt(g.y as real + (e.rawY - g.twoFingerLastRawY))
      else
        r.next.x == g.x && r.next.y == g.y
    // lifting one finger ends the window move but keeps the latch
    ensures e.action.PointerUp? ==>
      !r.next.isTwoFingerDrag && r.next.wasInTwoFingerMode == g.wasInTwoFingerMode
    // lifting the last finger (or a cancel) returns to rest
    ensures e.action.Up? || e.action.Cancel? ==> AtRest(r.next)
  {
  }

  /** `longPressRunnable`, run by the timer only while it is pending. */
  function OnLongPressTimer(g: Gesture, cfg: TouchConfig): (r: Step)
    ensures Inv(g) ==> Inv(r.next)
    ensures !r.next.longPressPending
    ensures RightClick in r.out ==>
      g.longPressPending && !g.hasMoved && !g.longPressTriggered && r.next.longPressTriggered
    ensures Inv(g) && g.longPressPending ==> RightClick in r.out
    ensures LeftClick !in r.out && NoDrag(r.out)
  {
    if !g.longPressPending then Step(g, [])
    else if !g.hasMoved && !g.longPressTriggered then
      Step(g.(longPressPending := false, longPressTriggered := true), Vibrate(cfg, 50) + [RightClick])
    else
      Step(g.(longPressPending := false), [])
  }

  /** What reaches the overlay: a touch event at a given clock reading, or
      the long-press timer going off. */
  datatype TrackpadEvent = Touch(e: MotionEvent, now: int) | LongPressFires

  function Apply(g: Gesture, ev: TrackpadEvent, cfg: TouchConfig): Step {
    match ev
    case Touch(e, now) => OnTouch(g, e, now, cfg)
    case LongPressFires => OnLongPressTimer(g, cfg)
  }

  /** A sequence of events applied in delivery order; the outputs are
      concatenated. */
  function Run(g: Gesture, evs: seq<TrackpadEvent>, cfg: TouchConfig): Step
    decreases |evs|
  {
    if evs == [] then Step(g, [])
    else
      var first := Apply(g, evs[0], cfg);
      var rest := Run(first.next, evs[1..], cfg);
      Step(rest.next, first.out + rest.out)
  }

  predicate IsFreshTouch(ev: TrackpadEvent) {
    ev.Touch? && ev.e.action.Down?
  }

  /** The events of one gesture after its first touch: no fresh touch. */
  predicate NoFreshTouch(evs: seq<TrackpadEvent>) {
    forall i :: 0 <= i < |evs| ==> !IsFreshTouch(evs[i])
  }

  lemma {:induction false} ClicksAppend(a: seq<TrackpadOutput>, b: seq<TrackpadOutput>)
    ensures Clicks(a + b) == Clicks(a) + Clicks(b)
    decreases |a|
  {
    if a == [] {
      assert a + b == b;
    } else {
      assert (a + b)[0] == a[0];
      assert (a + b)[1..] == a[1..] + b;
      ClicksAppend(a[1..], b);
    }
  }

  lemma {:induction false} NoDragAppend(a: seq<TrackpadOutput>, b: seq<TrackpadOutput>)
    requires NoDrag(a) && NoDrag(b)
    ensures NoDrag(a + b)
  {
    forall i | 0 <= i < |a + b|
      ensures !(a + b)[i].Drag?
    {
      if i < |a| {
        assert (a + b)[i] == a[i];
      } else {
        assert (a + b)[i] == b[i - |a|];
      }
    }
  }

  lemma {:induction false} RunKeepsInv(g: Gesture, evs: seq<TrackpadEvent>, cfg: TouchConfig)
    requires Inv(g)
    ensures Inv(Run(g, evs, cfg).next)
    decreases |evs|
  {
    if evs != [] {
      RunKeepsInv(Apply(g, evs[0], cfg).next, evs[1..], cfg);
    }
  }

  /** At most one click can still come before the gesture ends: one if a
      long press is pending or a tap is still possible, none otherwise. */
  function ClickBudget(g: Gesture): nat {
    if g.longPressPending || (g.isDraggingTrackpad && !g.hasMoved && !g.longPressTriggered) then 1 else 0
  }

  lemma StepSpendsBudget(g: Gesture, ev: TrackpadEvent, cfg: TouchConfig)
    requires Inv(g) && !IsFreshTouch(ev)
    ensures Clicks(Apply(g, ev, cfg).out) + ClickBudget(Apply(g, ev, cfg).next) <= ClickBudget(g)
  {
    var s := Apply(g, ev, cfg);
    if ev.LongPressFires? {
      if g.longPressPending {
        ClicksAppend(Vibrate(cfg, 50), [RightClick]);
      }
    } else {
      match ev.e.action
      case PointerDown =>
        ClicksAppend(Vibrate(cfg, 20), []);
      case Up =>
        if IsTap(g, ev.now) { ClicksAppend(Vibrate(cfg, 30), [LeftClick]); }
      case Cancel =>
        if IsTap(g, ev.now) { ClicksAppend(Vibrate(cfg, 30), [LeftClick]); }
      case _ =>
    }
  }

  /** Between two fresh touches the trackpad emits at most one click: a
      long press and a tap exclude each other, and neither repeats. */
  lemma {:induction false} AtMostOneClickPerGesture(g: Gesture, evs: seq<TrackpadEvent>, cfg: TouchConfig)
    requires Inv(g) && NoFreshTouch(evs)
    ensures Clicks(Run(g, evs, cfg).out) <= ClickBudget(g) <= 1
    decreases |evs|
  {
    if evs != [] {
      var first := Apply(g, evs[0], cfg);
      StepSpendsBudget(g, evs[0], cfg);
      AtMostOneClickPerGesture(first.next, evs[1..], cfg);
      ClicksAppend(first.out, Run(first.next, evs[1..], cfg).out);
    }
  }

  /** Once the touch has moved past the threshold it stays moved, and no tap
      or long press can follow, until the next fresh touch. */
  lemma {:induction false} MovedIsSticky(g: Gesture, evs: seq<TrackpadEvent>, cfg: TouchConfig)
    requires Inv(g) && g.hasMoved && NoFreshTouch(evs)
    ensures Run(g, evs, cfg).next.hasMoved
    ensures Clicks(Run(g, evs, cfg).out) == 0
    decreases |evs|
  {
    AtMostOneClickPerGesture(g, evs, cfg);
    if evs != [] {
      MovedStep(g, evs[0], cfg);
      MovedIsSticky(Apply(g, evs[0], cfg).next, evs[1..], cfg);
    }
  }

  /** One event other than a fresh touch keeps a moved touch moved. */
  lemma MovedStep(g: Gesture, ev: TrackpadEvent, cfg: TouchConfig)
    requires Inv(g) && g.hasMoved && !IsFreshTouch(ev)
    ensures Inv(Apply(g, ev, cfg).next) && Apply(g, ev, cfg).next.hasMoved
  {
  }

  /** With no single-finger drag and no pending long press (in particular
      once two-finger mode is latched), nothing until the next fresh touch
      drags the cursor or clicks. */
  lemma {:induction false} NoSingleFingerGesture(g: Gesture, evs: seq<TrackpadEvent>, cfg: TouchConfig)
    requires Inv(g) && !g.isDraggingTrackpad && !g.longPressPending && NoFreshTouch(evs)
    ensures NoDrag(Run(g, evs, cfg).out)
    ensures Clicks(Run(g, evs, cfg).out) == 0
    decreases |evs|
  {
    AtMostOneClickPerGesture(g, evs, cfg);
    if evs != [] {
      var first := Apply(g, evs[0], cfg);
      NoSingleFingerStep(g, evs[0], cfg);
      NoSingleFingerGesture(first.next, evs[1..], cfg);
      NoDragAppend(first.out, Run(first.next, evs[1..], cfg).out);
    }
  }

  /** One event without a fresh touch leaves a gesture with no single-finger
      drag and no pending long press as it was, and drags nothing. */
  lemma NoSingleFingerStep(g: Gesture, ev: TrackpadEvent, cfg: TouchConfig)
    requires Inv(g) && !g.isDraggingTrackpad && !g.longPressPending && !IsFreshTouch(ev)
    ensures var s := Apply(g, ev, cfg);
      NoDrag(s.out) && Inv(s.next) && !s.next.isDraggingTrackpad && !s.next.longPressPending
  {
    if ev.Touch? {
      match ev.e.action
      case PointerDown =>
      case Move =>
      case PointerUp =>
      case Up =>
      case Cancel =>
      case OtherAction(_) =>
    }
  }

  /** Entering two-finger mode suppresses drag, tap and long press for the
      rest of the gesture, also after the second finger lifts. */
  lemma TwoFingerLatch(g: Gesture, evs: seq<TrackpadEvent>, cfg: TouchConfig)
    requires Inv(g) && g.wasInTwoFingerMode && NoFreshTouch(evs)
    ensures NoDrag(Run(g, evs, cfg).out)
    ensures Clicks(Run(g, evs, cfg).out) == 0
  {
    NoSingleFingerGesture(g, evs, cfg);
  }

  /** A touch that stays within the movement threshold of its start and is
      released before the tap threshold produces exactly one left click
      (with its vibration) and no drag. */
  lemma {:induction false} TapProducesLeftClick(
    g: Gesture, cfg: TouchConfig, down: MotionEvent, t0: int,
    moves: seq<TrackpadEvent>, up: MotionEvent, t1: int)
    requires AtRest(g)
    requires down.action.Down? && !InDragHandle(cfg, down)
    requires forall i :: 0 <= i < |moves| ==>
      moves[i].Touch? && moves[i].e.action.Move? &&
      Abs(moves[i].e.rawX - down.rawX) <= MOVE_THRESHOLD &&
      Abs(moves[i].e.rawY - down.rawY) <= MOVE_THRESHOLD
    requires up.action.Up? && t1 - t0 < TAP_THRESHOLD
    ensures Run(g, [Touch(down, t0)] + moves + [Touch(up, t1)], cfg).out == Vibrate(cfg, 30) + [LeftClick]
  {
    var g1 := OnDown(g, down, t0, false);
    StillTapping(g1, moves, cfg);
    RunAppend(g, [Touch(down, t0)], moves + [Touch(up, t1)], cfg);
    RunAppend(g1, moves, [Touch(up, t1)], cfg);
    assert [Touch(down, t0)] + moves + [Touch(up, t1)] == [Touch(down, t0)] + (moves + [Touch(up, t1)]);
  }

  /** Moves within the threshold leave a fresh single-finger touch as it is,
      apart from the last position, and output nothing. */
  lemma {:induction false} StillTapping(g: Gesture, moves: seq<TrackpadEvent>, cfg: TouchConfig)
    requires g.isDraggingTrackpad && !g.isMovingPosition && !g.wasInTwoFingerMode
    requires !g.hasMoved && !g.longPressTriggered
    requires forall i :: 0 <= i < |moves| ==>
      moves[i].Touch? && moves[i].e.action.Move? &&
      Abs(moves[i].e.rawX - g.touchStartX) <= MOVE_THRESHOLD &&
      Abs(moves[i].e.rawY - g.touchStartY) <= MOVE_THRESHOLD
    ensures var r := Run(g, moves, cfg);
      r.out == [] && r.next.isDraggingTrackpad && !r.next.isMovingPosition && !r.next.wasInTwoFingerMode &&
      !r.next.hasMoved && !r.next.longPressTriggered && r.next.touchStartTime == g.touchStartTime
    decreases |moves|
  {
    if moves != [] {
      var first := Apply(g, moves[0], cfg);
      StillTapping(first.next, moves[1..], cfg);
    }
  }

  lemma {:induction false} RunAppend(g: Gesture, a: seq<TrackpadEvent>, b: seq<TrackpadEvent>, cfg: TouchConfig)
    ensures Run(g, a + b, cfg).next == Run(Run(g, a, cfg).next, b, cfg).next
    ensures Run(g, a + b, cfg).out == Run(g, a, cfg).out + Run(Run(g, a, cfg).next, b, cfg).out
    decreases |a|
  {
    if a == [] {
      assert a + b == b;
    } else {
      var first := Apply(g, a[0], cfg);
      assert (a + b)[0] == a[0];
      assert (a + b)[1..] == a[1..] + b;
      RunAppend(first.next, a[1..], b, cfg);
      var mid := Run(first.next, a[1..], cfg);
      var tail := Run(mid.next, b, cfg);
      assert Run(g, a + b, cfg).out == first.out + (mid.out + tail.out);
      assert first.out + (mid.out + tail.out) == (first.out + mid.out) + tail.out;
    }
  }

  /** Down at (100, 100), up at (102, 101) 80 ms later: a left click and no
      drag. */
  lemma ExampleShortTap(g: Gesture)
    requires AtRest(g)
    ensures var cfg := TouchConfig(false, true, true);
      Run(g, [Touch(MotionEvent(Down, 1, 100.0, 100.0, 100.0, 100.0, 0, None), 1000),
              Touch(MotionEvent(Move, 1, 102.0, 101.0, 102.0, 101.0, 0, None), 1040),
              Touch(MotionEvent(Up, 1, 102.0, 101.0, 102.0, 101.0, 0, None), 1080)], cfg).out
      == [Haptic(30), LeftClick]
  {
  }

  /** Down, the long-press timer fires, then up: a right click and no left
      click. */
  lemma ExampleLongPress(g: Gesture)
    requires AtRest(g)
    ensures var cfg := TouchConfig(false, true, false);
      Run(g, [Touch(MotionEvent(Down, 1, 100.0, 100.0, 100.0, 100.0, 0, None), 1000),
              LongPressFires,
              Touch(MotionEvent(Up, 1, 100.0, 100.0, 100.0, 100.0, 0, None), 1450)], cfg).out
      == [RightClick]
  {
  }

  /** Down, a move 15 px to the right, a further move, up after 300 ms:
      two drags with the per-event deltas and no click. */
  lemma ExampleDrag(g: Gesture)
    requires AtRest(g)
    ensures var cfg := TouchConfig(false, true, true);
      Run(g, [Touch(MotionEvent(Down, 1, 100.0, 100.0, 100.0, 100.0, 0, None), 1000),
              Touch(MotionEvent(Move, 1, 115.0, 100.0, 115.0, 100.0, 0, None), 1050),
              Touch(MotionEvent(Move, 1, 120.0, 103.0, 120.0, 103.0, 0, None), 1100),
              Touch(MotionEvent(Up, 1, 120.0, 103.0, 120.0, 103.0, 0, None), 1300)], cfg).out
      == [Drag(15.0, 0.0), Drag(5.0, 3.0)]
  {
  }

  /** `getEffectiveTrackpadSize`: in standalone-image mode with a known
      image, the longer side is the configured image size and the shorter
      one follows the image's aspect ratio (rounded toward zero);
      otherwise the configured width and height. */
  function EffectiveTrackpadSize(
    standaloneImageMode: bool, imageWidth: int, imageHeight: int,
    trackpadImageSize: int, trackpadWidth: int, trackpadHeight: int): (r: (int, int))
    ensures !(standaloneImageMode && 0 < imageWidth && 0 < imageHeight) ==>
      r == (trackpadWidth, trackpadHeight)
    ensures standaloneImageMode && 0 < imageHeight < imageWidth ==> r.0 == trackpadImageSize
    ensures standaloneImageMode && 0 < imageWidth <= imageHeight ==> r.1 == trackpadImageSize
  {
    if standaloneImageMode && 0 < imageWidth && 0 < imageHeight then
      var aspectRatio := imageWidth as real / imageHeight as real;
      if aspectRatio > 1.0 then
        AspectRatioAbove(imageWidth, imageHeight);
        (trackpadImageSize, TruncToInt(trackpadImageSize as real / aspectRatio))
      else
        AspectRatioAbove(imageWidth, imageHeight);
        (TruncToInt(trackpadImageSize as real * aspectRatio), trackpadImageSize)
    else
      (trackpadWidth, trackpadHeight)
  }

  /** In standalone-image mode the shorter side keeps the image's aspect
      ratio up to rounding toward zero: `side / size` lies within one unit
      of `shorter / longer`, stated without division. */
  lemma EffectiveSizeKeepsAspect(imageWidth: int, imageHeight: int, size: int, trackpadWidth: int, trackpadHeight: int)
    requires 0 < imageWidth && 0 < imageHeight && 0 <= size
    ensures var r := EffectiveTrackpadSize(true, imageWidth, imageHeight, size, trackpadWidth, trackpadHeight);
      0 <= r.0 <= size && 0 <= r.1 <= size &&
      (imageHeight < imageWidth ==> r.1 * imageWidth <= size * imageHeight < (r.1 + 1) * imageWidth) &&
      (imageWidth <= imageHeight ==> r.0 * imageHeight <= size * imageWidth < (r.0 + 1) * imageHeight)
  {
    AspectRatioAbove(imageWidth, imageHeight);
    if imageHeight < imageWidth {
      SideByDivision(size, imageWidth, imageHeight);
    } else {
      SideByMultiplication(size, imageWidth, imageHeight);
    }
  }

  lemma AspectRatioAbove(w: int, h: int)
    requires 0 < w && 0 < h
    ensures w as real / h as real > 1.0 <==> h < w
  {
    assert w as real == (w as real / h as real) * h as real;
  }

  /** The shorter side of a wide image: `size / (w / h)` rounded toward zero. */
  lemma SideByDivision(size: int, w: int, h: int)
    requires 0 < w && 0 < h
    ensures 0 <= size ==>
      var n := TruncToInt(size as real / (w as real / h as real));
      n * w <= size * h < (n + 1) * w && (h <= w ==> n <= size)
  {
    if 0 <= size {
      DivideByRatio(size, w, h);
      ScaledSide(size, h, w, size as real / (w as real / h as real));
    }
  }

  /** The shorter side of a tall image: `size * (w / h)` rounded toward zero. */
  lemma SideByMultiplication(size: int, w: int, h: int)
    requires 0 < w && 0 < h
    ensures 0 <= size ==>
      var n := TruncToInt(size as real * (w as real / h as real));
      n * h <= size * w < (n + 1) * h && (w <= h ==> n <= size)
  {
    if 0 <= size {
      MultiplyByRatio(size, w, h);
      ScaledSide(size, w, h, size as real * (w as real / h as real));
    }
  }

  lemma DivideByRatio(size: int, w: int, h: int)
    requires 0 < w && 0 < h
    ensures (size as real / (w as real / h as real)) * w as real == (size * h) as real
  {
    var q := w as real / h as real;
    assert q * h as real == w as real;
    assert size as real / q == size as real * h as real / w as real;
    CastMul(size, h);
  }

  lemma MultiplyByRatio(size: int, w: int, h: int)
    requires 0 < w && 0 < h
    ensures (size as real * (w as real / h as real)) * h as real == (size * w) as real
  {
    var q := w as real / h as real;
    assert q * h as real == w as real;
    assert (size as real * q) * h as real == size as real * (q * h as real);
    CastMul(size, w);
  }

  lemma CastMul(a: int, b: int)
    ensures (a * b) as real == a as real * b as real
  {
  }

  /** Truncating a non-negative `v` with `v * den == size * num`. */
  lemma ScaledSide(size: int, num: int, den: int, v: real)
    requires 0 <= size && 0 < num && 0 < den
    requires v * den as real == (size * num) as real
    ensures var n := TruncToInt(v);
      n * den <= size * num < (n + 1) * den && (num <= den ==> n <= size)
  {
    var n := TruncToInt(v);
    NonNegativeProduct(size, num);
    TruncBracket(v, den as real, (size * num) as real);
    CastMul(n, den);
    CastMul(n + 1, den);
    if num <= den {
      AtMostSize(size, num, den, v);
    }
  }

  lemma NonNegativeProduct(a: int, b: int)
    requires 0 <= a && 0 <= b
    ensures 0 <= a * b
  {
  }

  lemma TruncBracket(v: real, d: real, p: real)
    requires 0.0 < d && v * d == p && 0.0 <= p
    ensures 0.0 <= v
    ensures (TruncToInt(v) as real) * d <= p
    ensures p < (TruncToInt(v) as real) * d + d
  {
    if v < 0.0 {
      MulMonotone(v, 0.0, d);
      assert false;
    }
    var n := TruncToInt(v);
    assert n as real <= v < n as real + 1.0;
    MulMonotone(n as real, v, d);
    MulMonotone(v, n as real + 1.0, d);
    assert n as real * d <= v * d;
    assert v * d < (n as real + 1.0) * d;
    assert (n as real + 1.0) * d == n as real * d + d;
    assert p < n as real * d + d;
    assert n == TruncToInt(v);
    assert p < (TruncToInt(v) as real) * d + d;
  }

  lemma AtMostSize(size: int, num: int, den: int, v: real)
    requires 0 <= size && 0 < num <= den
    requires v * den as real == (size * num) as real
    ensures TruncToInt(v) <= size
  {
    CastMul(size, num);
    if size == 0 {
      assert v * den as real == 0.0;
    } else {
      MulMonotone(num as real, den as real, size as real);
      if size as real < v {
        MulMonotone(size as real, v, den as real);
      }
    }
  }

  lemma MulMonotone(a: real, b: real, c: real)
    requires a <= b && 0.0 < c
    ensures a * c <= b * c
    ensures a < b ==> a * c < b * c
  {
  }

  /** `updateDimensions`: the window is the effective trackpad size, taller
      by the drag handle and its padding when the handle is shown. */
  function WindowSize(effective: (int, int), showDragHandle: bool): (r: (int, int))
    ensures r.0 == effective.0
    ensures r.1 - effective.1 == if showDragHandle then DRAG_HANDLE_HEIGHT + DRAG_HANDLE_PADDING else 0
  {
    (effective.0, if showDragHandle then effective.1 + DRAG_HANDLE_HEIGHT + DRAG_HANDLE_PADDING else effective.1)
  }

  predicate NoSave(out: seq<TrackpadOutput>) {
    forall i :: 0 <= i < |out| ==> !out[i].SavePosition?
  }

  /** The settings store after the position writes among `out`. */
  function ApplySaves(store: map<Key, Value>, out: seq<TrackpadOutput>): (r: map<Key, Value>)
    ensures NoSave(out) ==> r == store
    decreases |out|
  {
    if out == [] then store
    else
      var saved :=
        if out[0].SavePosition? then store[TrackpadX := IntValue(out[0].x)][TrackpadY := IntValue(out[0].y)]
        else store;
      ApplySaves(saved, out[1..])
  }

  /** The size a decoded image is scaled to (the effective size in
      standalone-image mode, the configured size otherwise) is positive, and
      so is the image. */
  predicate ScaleTargetPositive(standalone: bool, imageWidth: int, imageHeight: int, size: int,
                                trackpadWidth: int, trackpadHeight: int)
  {
    var target := if standalone then EffectiveTrackpadSize(true, imageWidth, imageHeight, size, trackpadWidth, trackpadHeight)
                  else (trackpadWidth, trackpadHeight);
    0 < target.0 && 0 < target.1 && 0 < imageWidth && 0 < imageHeight
  }

  /** What `loadCustomTrackpadImage` leaves, as (bitmap held, original
      width, original height), from what was held and the outcome of
      loading, given the settings that decide the scaling target. */
  function ImageAfterLoad(held: (bool, int, int), image: ImageLoad, standalone: bool, size: int,
                          trackpadWidth: int, trackpadHeight: int): (r: (bool, int, int))
    // a held bitmap always comes with a positive original size
    ensures (held.0 ==> 0 < held.1 && 0 < held.2) ==> (r.0 ==> 0 < r.1 && 0 < r.2)
    // no URI or a failure clears the image
    ensures image.NoUri? || image.LoadFailed? ==> r == (false, 0, 0)
    // a missing stream or an undecodable image keeps what was held
    ensures image.NoStream? || image.Undecodable? ==> r == held
    // a decoded image is held with its size exactly when it can be scaled
    ensures image.Decoded? ==>
      (r.0 <==> ScaleTargetPositive(standalone, image.width, image.height, size, trackpadWidth, trackpadHeight)) &&
      (r.0 ==> (r.1, r.2) == (image.width, image.height)) &&
      (!r.0 ==> (r.1, r.2) == (0, 0))
  {
    match image
    case NoUri => (false, 0, 0)
    case NoStream => held
    case Undecodable => held
    case Decoded(w, h) =>
      if ScaleTargetPositive(standalone, w, h, size, trackpadWidth, trackpadHeight) then (true, w, h)
      else (false, 0, 0)
    case LoadFailed => (false, 0, 0)
  }

  /** Every setting the trackpad reads, and the saved window position. */
  datatype TrackpadSettings = TrackpadSettings(
    width: int, height: int, color: bv32, opacity: int, rounding: int,
    showDragHandle: bool, twoFingerDrag: bool,
    standaloneImageMode: bool, imageSize: int,
    x: int, y: int)

  /** The getters the trackpad calls. Standalone-image mode and the image
      size used in it are not part of the modelled settings file and come
      in as parameters. */
  function ReadTrackpadSettings(prefs: Preferences, standaloneImageMode: bool, imageSize: int): (s: TrackpadSettings)
    reads prefs
    requires prefs.Valid()
    ensures MIN_TRACKPAD_SIDE <= s.width <= MAX_TRACKPAD_SIDE && MIN_TRACKPAD_SIDE <= s.height <= MAX_TRACKPAD_SIDE
    ensures MIN_TRACKPAD_OPACITY <= s.opacity <= MAX_TRACKPAD_OPACITY
    ensures MIN_TRACKPAD_ROUNDING <= s.rounding <= MAX_TRACKPAD_ROUNDING
    ensures s.color >> 24 == 0xFF
    ensures prefs.store == map[] ==>
      s.width == 180 && s.height == 120 && s.opacity == 80 && s.rounding == 16 &&
      s.x == 50 && s.y == 400 && !s.showDragHandle && s.twoFingerDrag
  {
    TrackpadSettings(
      prefs.GetInt(TrackpadWidth), prefs.GetInt(TrackpadHeight), prefs.TrackpadColorValue(),
      prefs.GetInt(TrackpadOpacity), prefs.GetInt(TrackpadRounding),
      prefs.GetBool(TrackpadShowDrag), prefs.GetBool(TrackpadTwoFingerDrag),
      standaloneImageMode, imageSize,
      prefs.GetInt(TrackpadX), prefs.GetInt(TrackpadY))
  }

  class FloatingControlsOverlay {
    var isAttached: bool

    // settings copied from the store
    var trackpadWidth: int
    var trackpadHeight: int
    var trackpadColor: bv32
    var trackpadOpacity: int
    var trackpadRounding: int
    var showDragHandle: bool
    var twoFingerDragEnabled: bool
    var standaloneImageMode: bool
    var trackpadImageSize: int

    // the user's image: its original size and whether a scaled bitmap is held
    var originalImageWidth: int
    var originalImageHeight: int
    var hasCustomBitmap: bool

    // window layout
    var layoutWidth: int
    var layoutHeight: int
    var layoutX: int
    var layoutY: int

    // touch tracking
    var touchStartX: real
    var touchStartY: real
    var lastTouchX: real
    var lastTouchY: real
    var touchStartTime: int
    var isDraggingTrackpad: bool
    var isMovingPosition: bool
    var isTwoFingerDrag: bool
    var wasInTwoFingerMode: bool
    var hasMoved: bool
    var twoFingerLastRawX: real
    var twoFingerLastRawY: real
    var longPressTriggered: bool
    var longPressPending: bool

    function Snapshot(): Gesture
      reads this`touchStartX, this`touchStartY, this`lastTouchX, this`lastTouchY, this`touchStartTime,
            this`isDraggingTrackpad, this`isMovingPosition, this`isTwoFingerDrag, this`wasInTwoFingerMode,
            this`hasMoved, this`longPressTriggered, this`longPressPending,
            this`twoFingerLastRawX, this`twoFingerLastRawY, this`layoutX, this`layoutY
    {
      Gesture(touchStartX, touchStartY, lastTouchX, lastTouchY, touchStartTime,
              isDraggingTrackpad, isMovingPosition, isTwoFingerDrag, wasInTwoFingerMode,
              hasMoved, longPressTriggered, longPressPending,
              twoFingerLastRawX, twoFingerLastRawY, layoutX, layoutY)
    }

    function Config(prefs: Preferences): TouchConfig
      reads this`showDragHandle, this`twoFingerDragEnabled, prefs
      requires prefs.Valid()
    {
      TouchConfig(showDragHandle, twoFingerDragEnabled, prefs.GetBool(VibrateOnClick))
    }

    function Effective(): (int, int)
      reads this`standaloneImageMode, this`originalImageWidth, this`originalImageHeight,
            this`trackpadImageSize, this`trackpadWidth, this`trackpadHeight
    {
      EffectiveTrackpadSize(standaloneImageMode, originalImageWidth, originalImageHeight,
                            trackpadImageSize, trackpadWidth, trackpadHeight)
    }

    /** The image fields: whether a bitmap is held, and the original size. */
    function Image(): (bool, int, int)
      reads this`hasCustomBitmap, this`originalImageWidth, this`originalImageHeight
    {
      (hasCustomBitmap, originalImageWidth, originalImageHeight)
    }

    /** A held image has a size. */
    ghost predicate ImageValid()
      reads this`originalImageWidth, this`originalImageHeight, this`hasCustomBitmap
    {
      hasCustomBitmap ==> 0 < originalImageWidth && 0 < originalImageHeight
    }

    /** The window is laid out for the current settings and image. */
    ghost predicate LaidOut()
      reads this`standaloneImageMode, this`originalImageWidth, this`originalImageHeight,
            this`trackpadImageSize, this`trackpadWidth, this`trackpadHeight,
            this`layoutWidth, this`layoutHeight, this`showDragHandle
    {
      (layoutWidth, layoutHeight) == WindowSize(Effective(), showDragHandle)
    }

    /** `Inv` on the touch-tracking fields. */
    ghost predicate GestureValid()
      reads this`longPressPending, this`isDraggingTrackpad, this`isMovingPosition, this`isTwoFingerDrag,
            this`wasInTwoFingerMode, this`hasMoved, this`longPressTriggered
    {
      FlagsInv(longPressPending, isDraggingTrackpad, isMovingPosition, isTwoFingerDrag,
               wasInTwoFingerMode, hasMoved, longPressTriggered)
    }

    ghost predicate Valid()
      reads this`longPressPending, this`isDraggingTrackpad, this`isMovingPosition, this`isTwoFingerDrag,
            this`wasInTwoFingerMode, this`hasMoved, this`longPressTriggered,
            this`originalImageWidth, this`originalImageHeight, this`hasCustomBitmap
    {
      GestureValid() && ImageValid()
    }

    /** The settings fields and the window position. */
    function Settings(): TrackpadSettings
      reads this`trackpadWidth, this`trackpadHeight, this`trackpadColor, this`trackpadOpacity,
            this`trackpadRounding, this`showDragHandle, this`twoFingerDragEnabled,
            this`standaloneImageMode, this`trackpadImageSize, this`layoutX, this`layoutY
    {
      TrackpadSettings(trackpadWidth, trackpadHeight, trackpadColor, trackpadOpacity, trackpadRounding,
                       showDragHandle, twoFingerDragEnabled, standaloneImageMode, trackpadImageSize,
                       layoutX, layoutY)
    }

    /** Construction reads the settings and the saved position and lays out
        the window; no image is loaded yet. */
    constructor (settings: TrackpadSettings)
      ensures Valid() && AtRest(Snapshot()) && LaidOut()
      ensures Settings() == settings && !isAttached && !hasCustomBitmap
      ensures (layoutWidth, layoutHeight) == WindowSize((settings.width, settings.height), settings.showDragHandle)
    {
      isAttached := false;
      trackpadWidth, trackpadHeight := settings.width, settings.height;
      trackpadColor, trackpadOpacity := settings.color, settings.opacity;
      trackpadRounding := settings.rounding;
      showDragHandle := settings.showDragHandle;
      standaloneImageMode, trackpadImageSize := settings.standaloneImageMode, settings.imageSize;
      originalImageWidth, originalImageHeight := 0, 0;
      hasCustomBitmap := false;
      touchStartX, touchStartY, lastTouchX, lastTouchY := 0.0, 0.0, 0.0, 0.0;
      touchStartTime := 0;
      isDraggingTrackpad, isMovingPosition, isTwoFingerDrag, wasInTwoFingerMode := false, false, false, false;
      hasMoved := false;
      twoFingerDragEnabled := settings.twoFingerDrag;
      twoFingerLastRawX, twoFingerLastRawY := 0.0, 0.0;
      longPressTriggered, longPressPending := false, false;
      layoutX, layoutY := settings.x, settings.y;
      var size := WindowSize(EffectiveTrackpadSize(settings.standaloneImageMode, 0, 0, settings.imageSize,
                                                   settings.width, settings.height),
                             settings.showDragHandle);
      layoutWidth, layoutHeight := size.0, size.1;
    }

    /** `updateDimensions`. */
    method UpdateDimensions()
      modifies this`layoutWidth, this`layoutHeight
      ensures (layoutWidth, layoutHeight) == WindowSize(Effective(), showDragHandle)
    {
      var size := Effective();
      var height := if showDragHandle then size.1 + DRAG_HANDLE_HEIGHT + DRAG_HANDLE_PADDING else size.1;
      layoutWidth := size.0;
      layoutHeight := height;
    }

    /** `loadCustomTrackpadImage`, with the platform's loading reduced to
        its outcome. No URI or a failure clears the image; a missing stream
        or an undecodable one keeps what was held; a decoded image is kept
        with its size unless scaling it to a non-positive size fails. */
    method LoadCustomTrackpadImage(image: ImageLoad)
      modifies this`originalImageWidth, this`originalImageHeight, this`hasCustomBitmap
      ensures hasCustomBitmap ==> 0 < originalImageWidth && 0 < originalImageHeight
      ensures image.NoUri? || image.LoadFailed? ==>
        !hasCustomBitmap && originalImageWidth == 0 && originalImageHeight == 0
      ensures image.NoStream? || image.Undecodable? ==>
        hasCustomBitmap == old(hasCustomBitmap) && originalImageWidth == old(originalImageWidth) &&
        originalImageHeight == old(originalImageHeight)
      ensures image.Decoded? ==>
        if ScaleTargetPositive(standaloneImageMode, image.width, image.height,
                               trackpadImageSize, trackpadWidth, trackpadHeight) then
          hasCustomBitmap && originalImageWidth == image.width && originalImageHeight == image.height
        else
          !hasCustomBitmap && originalImageWidth == 0 && originalImageHeight == 0
      requires hasCustomBitmap ==> 0 < originalImageWidth && 0 < originalImageHeight
      ensures Image() == ImageAfterLoad(old(Image()), image, standaloneImageMode, trackpadImageSize,
                                        trackpadWidth, trackpadHeight)
    {
      match image
      case NoUri =>
        hasCustomBitmap := false;
        originalImageWidth, originalImageHeight := 0, 0;
      case NoStream =>
      case Undecodable =>
      case Decoded(w, h) =>
        originalImageWidth, originalImageHeight := w, h;
        if ScaleTargetPositive(standaloneImageMode, w, h, trackpadImageSize, trackpadWidth, trackpadHeight) {
          hasCustomBitmap := true;
        } else {
          // scaling to a non-positive size throws; the handler clears the image
          hasCustomBitmap := false;
          originalImageWidth, originalImageHeight := 0, 0;
        }
      case LoadFailed =>
        hasCustomBitmap := false;
        originalImageWidth, originalImageHeight := 0, 0;
    }

    /** `updateSettings`: takes every setting and the saved position,
        reloads the image and lays the window out again. */
    method UpdateSettings(settings: TrackpadSettings, image: ImageLoad)
      requires ImageValid()
      modifies this`trackpadWidth, this`trackpadHeight, this`trackpadColor, this`trackpadOpacity,
               this`trackpadRounding, this`showDragHandle, this`twoFingerDragEnabled,
               this`standaloneImageMode, this`trackpadImageSize,
               this`originalImageWidth, this`originalImageHeight, this`hasCustomBitmap,
               this`layoutWidth, this`layoutHeight, this`layoutX, this`layoutY
      ensures ImageValid() && LaidOut() && Settings() == settings
      ensures Image() == ImageAfterLoad(old(Image()), image, settings.standaloneImageMode, settings.imageSize,
                                        settings.width, settings.height)
    {
      CopySettings(settings);
      LoadCustomTrackpadImage(image);
      UpdateDimensions();
    }

    method CopySettings(settings: TrackpadSettings)
      modifies this`trackpadWidth, this`trackpadHeight, this`trackpadColor, this`trackpadOpacity,
               this`trackpadRounding, this`showDragHandle, this`twoFingerDragEnabled,
               this`standaloneImageMode, this`trackpadImageSize, this`layoutX, this`layoutY
      ensures Settings() == settings
    {
      trackpadWidth, trackpadHeight := settings.width, settings.height;
      trackpadColor, trackpadOpacity := settings.color, settings.opacity;
      trackpadRounding := settings.rounding;
      showDragHandle := settings.showDragHandle;
      twoFingerDragEnabled := settings.twoFingerDrag;
      standaloneImageMode, trackpadImageSize := settings.standaloneImageMode, settings.imageSize;
      layoutX, layoutY := settings.x, settings.y;
    }

    /** `show`: only when detached; takes the settings afresh and attaches
        the window (`addOk` is whether the window manager accepted it). */
    method Show(settings: TrackpadSettings, image: ImageLoad, addOk: bool)
      requires Valid()
      modifies this`isAttached, this`trackpadWidth, this`trackpadHeight, this`trackpadColor, this`trackpadOpacity,
               this`trackpadRounding, this`showDragHandle, this`twoFingerDragEnabled,
               this`standaloneImageMode, this`trackpadImageSize,
               this`originalImageWidth, this`originalImageHeight, this`hasCustomBitmap,
               this`layoutWidth, this`layoutHeight, this`layoutX, this`layoutY
      ensures Valid()
      ensures old(isAttached) ==> unchanged(this)
      ensures !old(isAttached) ==> isAttached == addOk && LaidOut() && Settings() == settings
      ensures !old(isAttached) ==>
        Image() == ImageAfterLoad(old(Image()), image, settings.standaloneImageMode, settings.imageSize,
                                  settings.width, settings.height)
    {
      if isAttached {
        return;
      }
      UpdateSettings(settings, image);
      GestureFrame();
      if addOk {
        isAttached := true;
      }
    }

    /** `hide`: only when attached; saves the window position, then detaches
        (`removeOk` is whether the window manager removed it). */
    method Hide(prefs: Preferences, removeOk: bool)
      requires Valid() && prefs.Valid()
      modifies this`isAttached, prefs
      ensures Valid() && prefs.Valid()
      ensures !old(isAttached) ==> !isAttached && prefs.store == old(prefs.store)
      ensures old(isAttached) ==>
        isAttached == !removeOk &&
        prefs.store == old(prefs.store)[TrackpadX := IntValue(layoutX)][TrackpadY := IntValue(layoutY)]
    {
      if !isAttached {
        return;
      }
      SavePositionTo(prefs);
      if removeOk {
        isAttached := false;
      }
    }

    method SavePositionTo(prefs: Preferences)
      requires prefs.Valid()
      modifies prefs
      ensures prefs.Valid()
      ensures prefs.store == old(prefs.store)[TrackpadX := IntValue(layoutX)][TrackpadY := IntValue(layoutY)]
    {
      prefs.Set(TrackpadX, IntValue(layoutX));
      prefs.Set(TrackpadY, IntValue(layoutY));
    }

    /** `onTouchEvent`: updates the touch-tracking fields and the window
        position as `OnTouch` says, emits its outputs, and writes the
        position to the settings where it says so. */
    method OnTouchEvent(e: MotionEvent, now: int, prefs: Preferences) returns (handled: bool, out: seq<TrackpadOutput>)
      requires Valid() && prefs.Valid()
      modifies this`touchStartX, this`touchStartY, this`lastTouchX, this`lastTouchY, this`touchStartTime,
               this`isDraggingTrackpad, this`isMovingPosition, this`isTwoFingerDrag, this`wasInTwoFingerMode,
               this`hasMoved, this`longPressTriggered, this`longPressPending,
               this`twoFingerLastRawX, this`twoFingerLastRawY, this`layoutX, this`layoutY, prefs
      ensures Valid() && prefs.Valid()
      ensures handled == Handles(e)
      ensures var s := OnTouch(old(Snapshot()), e, now, old(Config(prefs)));
        Snapshot() == s.next && out == s.out
      ensures prefs.store == ApplySaves(old(prefs.store), out)
    {
      GestureValidIsInv();
      var cfg := Config(prefs);
      var trackpadTop := if showDragHandle then DRAG_HANDLE_HEIGHT + DRAG_HANDLE_PADDING else 0;
      var inDragHandle := showDragHandle && e.y < trackpadTop as real;
      handled := true;
      out := [];
      match e.action {
        case Down =>
          TouchDown(e, now, inDragHandle);
        case PointerDown =>
          out := SecondFingerDown(e, cfg);
        case Move =>
          out := TouchMove(e);
        case PointerUp =>
          out := FingerLifted(prefs);
        case Up =>
          out := Release(now, cfg, prefs);
        case Cancel =>
          out := Release(now, cfg, prefs);
        case OtherAction(_) =>
          handled := false;
      }
      GestureValidIsInv();
    }

    /** The gesture part of the invariant depends on the touch-tracking flags only. */
    twostate lemma GestureFrame()
      requires unchanged(this`longPressPending, this`isDraggingTrackpad, this`isMovingPosition, this`isTwoFingerDrag,
                         this`wasInTwoFingerMode, this`hasMoved, this`longPressTriggered)
      ensures GestureValid() == old(GestureValid())
    {
    }

    lemma GestureValidIsInv()
      ensures GestureValid() <==> Inv(Snapshot())
    {
    }

    /** The ACTION_DOWN branch of `onTouchEvent`. */
    method TouchDown(e: MotionEvent, now: int, inDragHandle: bool)
      modifies this`touchStartX, this`touchStartY, this`lastTouchX, this`lastTouchY, this`touchStartTime,
               this`isDraggingTrackpad, this`isMovingPosition, this`isTwoFingerDrag, this`wasInTwoFingerMode,
               this`hasMoved, this`longPressTriggered, this`longPressPending
      ensures Snapshot() == OnDown(old(Snapshot()), e, now, inDragHandle)
    {
      ClearSingleGestureFlags();
      RecordTouchStart(e, now);
      if inDragHandle {
        isMovingPosition := true;
      } else {
        isDraggingTrackpad := true;
        longPressPending := true;
      }
    }

    /** A fresh touch forgets two-finger mode, movement and a fired long press. */
    method ClearSingleGestureFlags()
      modifies this`wasInTwoFingerMode, this`hasMoved, this`longPressTriggered, this`isTwoFingerDrag
      ensures Snapshot() == old(Snapshot()).(wasInTwoFingerMode := false, hasMoved := false,
                                            longPressTriggered := false, isTwoFingerDrag := false)
    {
      wasInTwoFingerMode := false;
      hasMoved := false;
      longPressTriggered := false;
      isTwoFingerDrag := false;
    }

    /** A fresh touch records where (screen and view coordinates) and when it began. */
    method RecordTouchStart(e: MotionEvent, now: int)
      modifies this`touchStartX, this`touchStartY, this`lastTouchX, this`lastTouchY, this`touchStartTime
      ensures Snapshot() == old(Snapshot()).(touchStartX := e.rawX, touchStartY := e.rawY,
                                            lastTouchX := e.x, lastTouchY := e.y, touchStartTime := now)
    {
      touchStartX := e.rawX;
      touchStartY := e.rawY;
      lastTouchX := e.x;
      lastTouchY := e.y;
      touchStartTime := now;
    }

    /** The ACTION_POINTER_DOWN branch of `onTouchEvent`. */
    method SecondFingerDown(e: MotionEvent, cfg: TouchConfig) returns (out: seq<TrackpadOutput>)
      requires cfg.twoFingerDragEnabled == twoFingerDragEnabled
      modifies this`isDraggingTrackpad, this`isMovingPosition, this`isTwoFingerDrag, this`wasInTwoFingerMode,
               this`longPressPending, this`twoFingerLastRawX, this`twoFingerLastRawY
      ensures var s := OnPointerDown(old(Snapshot()), e, cfg);
        Snapshot() == s.next && out == s.out
    {
      out := [];
      if twoFingerDragEnabled && e.pointerCount == 2 {
        CancelSingleFinger();
        isTwoFingerDrag := true;
        wasInTwoFingerMode := true;
        twoFingerLastRawX, twoFingerLastRawY := e.rawX, e.rawY;
        out := Vibrate(cfg, 20);
      }
    }

    /** Cancels the pending long press and any single-finger drag or move. */
    method CancelSingleFinger()
      modifies this`longPressPending, this`isDraggingTrackpad, this`isMovingPosition
      ensures Snapshot() == old(Snapshot()).(longPressPending := false, isDraggingTrackpad := false,
                                            isMovingPosition := false)
    {
      longPressPending := false;
      isDraggingTrackpad := false;
      isMovingPosition := false;
    }

    /** The ACTION_MOVE branch of `onTouchEvent`. */
    method TouchMove(e: MotionEvent) returns (out: seq<TrackpadOutput>)
      modifies this`touchStartX, this`touchStartY, this`lastTouchX, this`lastTouchY,
               this`hasMoved, this`longPressPending,
               this`twoFingerLastRawX, this`twoFingerLastRawY, this`layoutX, this`layoutY
      ensures var s := OnMove(old(Snapshot()), e);
        Snapshot() == s.next && out == s.out
    {
      out := [];
      if wasInTwoFingerMode {
        // after two-finger mode every other input is blocked
        if isTwoFingerDrag && 2 <= e.pointerCount {
          ShiftWindowByTwoFingers(e);
        }
        return;
      }
      if isMovingPosition {
        ShiftWindowByHandle(e);
      } else if isDraggingTrackpad {
        out := DragPointer(e);
      }
    }

    /** Moves the window by the raw movement of the fingers since the last event. */
    method ShiftWindowByTwoFingers(e: MotionEvent)
      modifies this`layoutX, this`layoutY, this`twoFingerLastRawX, this`twoFingerLastRawY
      ensures Snapshot() == old(Snapshot()).(
        x := TruncToInt(old(layoutX) as real + (e.rawX - old(twoFingerLastRawX))),
        y := TruncToInt(old(layoutY) as real + (e.rawY - old(twoFingerLastRawY))),
        twoFingerLastRawX := e.rawX, twoFingerLastRawY := e.rawY)
    {
      var deltaX := e.rawX - twoFingerLastRawX;
      var deltaY := e.rawY - twoFingerLastRawY;
      layoutX := TruncToInt(layoutX as real + deltaX);
      layoutY := TruncToInt(layoutY as real + deltaY);
      twoFingerLastRawX, twoFingerLastRawY := e.rawX, e.rawY;
    }

    /** Moves the window by the raw movement of the finger on the drag handle. */
    method ShiftWindowByHandle(e: MotionEvent)
      modifies this`layoutX, this`layoutY, this`touchStartX, this`touchStartY
      ensures Snapshot() == old(Snapshot()).(
        x := TruncToInt(old(layoutX) as real + (e.rawX - old(touchStartX))),
        y := TruncToInt(old(layoutY) as real + (e.rawY - old(touchStartY))),
        touchStartX := e.rawX, touchStartY := e.rawY)
    {
      layoutX := TruncToInt(layoutX as real + (e.rawX - touchStartX));
      layoutY := TruncToInt(layoutY as real + (e.rawY - touchStartY));
      touchStartX, touchStartY := e.rawX, e.rawY;
    }

    /** A single-finger move on the touch surface: past the threshold it
        cancels the long press, and once moved it drags the pointer by the
        view-local movement since the last event. */
    method DragPointer(e: MotionEvent) returns (out: seq<TrackpadOutput>)
      requires !wasInTwoFingerMode && !isMovingPosition && isDraggingTrackpad
      modifies this`hasMoved, this`longPressPending, this`lastTouchX, this`lastTouchY
      ensures var s := OnMove(old(Snapshot()), e);
        Snapshot() == s.next && out == s.out
    {
      out := [];
      var deltaX := e.rawX - touchStartX;
      var deltaY := e.rawY - touchStartY;
      var moveDeltaX := e.x - lastTouchX;
      var moveDeltaY := e.y - lastTouchY;
      if !hasMoved && (Abs(deltaX) > MOVE_THRESHOLD || Abs(deltaY) > MOVE_THRESHOLD) {
        hasMoved := true;
        longPressPending := false;
      }
      if hasMoved {
        out := [Drag(moveDeltaX, moveDeltaY)];
      }
      lastTouchX, lastTouchY := e.x, e.y;
    }

    /** The ACTION_POINTER_UP branch of `onTouchEvent`. */
    method FingerLifted(prefs: Preferences) returns (out: seq<TrackpadOutput>)
      requires prefs.Valid()
      modifies this`isTwoFingerDrag, prefs
      ensures prefs.Valid()
      ensures var s := OnPointerUp(old(Snapshot()));
        Snapshot() == s.next && out == s.out
      ensures prefs.store == ApplySaves(old(prefs.store), out)
    {
      out := [];
      if isTwoFingerDrag {
        isTwoFingerDrag := false;
        SavePositionTo(prefs);
        out := [SavePosition(layoutX, layoutY)];
      }
    }

    /** The ACTION_UP / ACTION_CANCEL branch of `onTouchEvent`. */
    method Release(now: int, cfg: TouchConfig, prefs: Preferences) returns (out: seq<TrackpadOutput>)
      requires prefs.Valid()
      modifies this`isDraggingTrackpad, this`isMovingPosition, this`isTwoFingerDrag,
               this`wasInTwoFingerMode, this`longPressPending, prefs
      ensures prefs.Valid()
      ensures var s := OnRelease(old(Snapshot()), now, cfg);
        Snapshot() == s.next && out == s.out
      ensures prefs.store == ApplySaves(old(prefs.store), out)
    {
      longPressPending := false;
      out := [];
      if wasInTwoFingerMode {
        SavePositionTo(prefs);
        out := [SavePosition(layoutX, layoutY)];
      } else if isMovingPosition {
        SavePositionTo(prefs);
        out := [SavePosition(layoutX, layoutY)];
      } else if isDraggingTrackpad && !hasMoved && !longPressTriggered {
        var touchDuration := now - touchStartTime;
        if touchDuration < TAP_THRESHOLD {
          out := Vibrate(cfg, 30) + [LeftClick];
        }
      }
      ResetGesture();
    }

    /** Every gesture mode ends when the last finger lifts. */
    method ResetGesture()
      modifies this`isDraggingTrackpad, this`isMovingPosition, this`isTwoFingerDrag, this`wasInTwoFingerMode
      ensures Snapshot() == old(Snapshot()).(isDraggingTrackpad := false, isMovingPosition := false,
                                            isTwoFingerDrag := false, wasInTwoFingerMode := false)
    {
      isDraggingTrackpad := false;
      isMovingPosition := false;
      isTwoFingerDrag := false;
      wasInTwoFingerMode := false;
    }

    /** `longPressRunnable`, run when its timer goes off. */
    method LongPressFires(prefs: Preferences) returns (out: seq<TrackpadOutput>)
      requires Valid() && prefs.Valid() && longPressPending
      modifies this`longPressTriggered, this`longPressPending
      ensures Valid()
      ensures var s := OnLongPressTimer(old(Snapshot()), Config(prefs));
        Snapshot() == s.next && out == s.out
    {
      longPressPending := false;
      out := [];
      if !hasMoved && !longPressTriggered {
        longPressTriggered := true;
        out := Vibrate(Config(prefs), 50) + [RightClick];
      }
    }
  }
}
