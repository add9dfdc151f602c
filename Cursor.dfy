/** The on-screen cursor: its position clamped to the screen, the window
    attach flag, and the visible -> dimmed -> hidden pipeline driven by the
    dim and hide timers.

    Timers are pending flags; `DimFires` and `HideFires` are the timers
    going off. An alpha animation is collapsed into its end state, and the
    action run at its end happens at once. */
module CursorOverlay {
  import opened Platform
  import opened Prefs

  const DIMMED_ALPHA: real := 0.3

  /** The visibility of the cursor: the two flags, the view's alpha, and
      which timer is pending. */
  datatype Fade = Fade(isVisible: bool, isDimmed: bool, alpha: real, dimPending: bool, hidePending: bool)

  /** At most one timer is pending; the hide timer only after dimming; an
      invisible cursor is transparent and a visible undimmed one opaque. */
  predicate FadeInv(f: Fade) {
    !(f.dimPending && f.hidePending) &&
    (f.hidePending ==> f.isVisible && f.isDimmed) &&
    (f.dimPending ==> f.isVisible) &&
    (!f.isVisible ==> f.alpha == 0.0) &&
    (f.isVisible && !f.isDimmed ==> f.alpha == 1.0)
  }

  predicate NoTimer(f: Fade) {
    !f.dimPending && !f.hidePending
  }

  /** `scheduleAutoHide`: both timers are cancelled and the dim timer started. */
  function ScheduleAutoHide(f: Fade): (r: Fade)
    ensures r.dimPending && !r.hidePending
    ensures (r.isVisible, r.isDimmed, r.alpha) == (f.isVisible, f.isDimmed, f.alpha)
  {
    f.(dimPending := true, hidePending := false)
  }

  /** `fadeIn`. */
  function FadeIn(f: Fade): Fade {
    f.(isVisible := true, isDimmed := false, alpha := 1.0)
  }

  /** The visibility part of `moveCursor`: a hidden or dimmed cursor fades
      back in, and the inactivity timer restarts. */
  function Activity(f: Fade): (r: Fade)
    ensures FadeInv(f) ==> FadeInv(r) && r == Fade(true, false, 1.0, true, false)
  {
    ScheduleAutoHide(if !f.isVisible || f.isDimmed then FadeIn(f) else f)
  }

  /** The visibility part of a successful `show`: fully visible, and the
      inactivity timer starts. */
  function Shown(f: Fade): (r: Fade)
    ensures FadeInv(f) ==> FadeInv(r)
    ensures r.isVisible && r.alpha == 1.0 && r.dimPending && !r.hidePending
  {
    ScheduleAutoHide(f.(isVisible := true, alpha := 1.0))
  }

  /** `dimRunnable`: the cursor dims, and the hide timer starts when
      auto-hide is on. */
  function OnDim(f: Fade, autoHide: bool): (r: Fade)
    ensures FadeInv(f) && f.dimPending ==> FadeInv(r)
    ensures r.isDimmed && r.alpha == DIMMED_ALPHA && !r.dimPending && (r.hidePending <==> autoHide)
  {
    f.(isDimmed := true, alpha := DIMMED_ALPHA, dimPending := false, hidePending := autoHide)
  }

  /** `hideRunnable`: the cursor fades out completely. */
  function OnHide(f: Fade): (r: Fade)
    ensures FadeInv(f) && f.hidePending ==> FadeInv(r) && NoTimer(r)
    ensures !r.isVisible && r.alpha == 0.0 && !r.hidePending
  {
    f.(alpha := 0.0, isVisible := false, hidePending := false)
  }

  /** The pending timer, if any, going off. */
  function FireTimer(f: Fade, autoHide: bool): Fade {
    if f.dimPending then OnDim(f, autoHide)
    else if f.hidePending then OnHide(f)
    else f
  }

  /** Left alone after some activity, the cursor dims after the first timer;
      with auto-hide it disappears after the second, without it it stays
      dimmed and no timer is left. */
  lemma IdleCursorFades(f: Fade, autoHide: bool)
    requires FadeInv(f)
    ensures var dimmed := FireTimer(Activity(f), autoHide);
      dimmed.isVisible && dimmed.isDimmed && dimmed.alpha == DIMMED_ALPHA &&
      (dimmed.hidePending <==> autoHide) &&
      var later := FireTimer(dimmed, autoHide);
      FadeInv(later) && NoTimer(later) &&
      (autoHide ==> !later.isVisible && later.alpha == 0.0) &&
      (!autoHide ==> later == dimmed)
  {
  }

  /** What `loadCustomCursor` leaves held: nothing unless custom mode is on
      and a URI is set; a missing stream or an undecodable image keeps what
      was held; a decoded image is scaled to the cursor size, which fails
      (and clears) for a non-positive size. */
  function BitmapAfterLoad(held: bool, isCustom: bool, cursorSize: int, load: ImageLoad): (r: bool)
    ensures r ==> isCustom && !load.NoUri? && !load.LoadFailed?
    ensures isCustom && (load.NoStream? || load.Undecodable?) ==> r == held
    ensures isCustom && load.Decoded? ==> (r <==> 0 < cursorSize)
  {
    if load.NoUri? || !isCustom then false
    else
      match load
      case NoStream => held
      case Undecodable => held
      case Decoded(_, _) => 0 < cursorSize
      case LoadFailed => false
  }

  /** What `onDraw` draws. */
  datatype CursorShape = Arrow | Cheese | Dot | Hand | CustomBitmap | NoShape

  /** `onDraw`: the four built-in images first, then the custom image,
      which falls back to the arrow without a bitmap; any other image
      index draws nothing. `pointerCustom` is the custom image index. */
  function ShapeDrawn(cursorImage: int, pointerCustom: int, hasBitmap: bool): (r: CursorShape)
    ensures r == CustomBitmap ==> hasBitmap && cursorImage == pointerCustom
    ensures cursorImage == pointerCustom ==> r != NoShape
    ensures r == NoShape <==>
      cursorImage != pointerCustom && !(POINTER_DEFAULT <= cursorImage <= POINTER_HAND)
    ensures cursorImage == POINTER_DEFAULT ==> r == Arrow
    ensures cursorImage == POINTER_CHEESE ==> r == Cheese
    ensures cursorImage == POINTER_DOT ==> r == Dot
    ensures cursorImage == POINTER_HAND ==> r == Hand
    // custom mode draws the held bitmap, and the arrow when none is held
    ensures cursorImage == pointerCustom && !(POINTER_DEFAULT <= pointerCustom <= POINTER_HAND) ==>
      r == (if hasBitmap then CustomBitmap else Arrow)
  {
    if cursorImage == POINTER_DEFAULT then Arrow
    else if cursorImage == POINTER_CHEESE then Cheese
    else if cursorImage == POINTER_DOT then Dot
    else if cursorImage == POINTER_HAND then Hand
    else if cursorImage == pointerCustom then (if hasBitmap then CustomBitmap else Arrow)
    else NoShape
  }

  class CursorOverlay {
    /** The custom pointer image index (a settings constant). */
    const pointerCustom: int

    var isAttached: bool
    var cursorX: real
    var cursorY: real
    var screenWidth: int
    var screenHeight: int
    var cursorSize: int
    var cursorImage: int
    var autoHideEnabled: bool
    /** Whether a custom cursor bitmap is held. */
    var hasCustomBitmap: bool

    var isVisible: bool
    var isDimmed: bool
    var alpha: real
    var dimPending: bool
    var hidePending: bool

    function FadeState(): Fade
      reads this`isVisible, this`isDimmed, this`alpha, this`dimPending, this`hidePending
    {
      Fade(isVisible, isDimmed, alpha, dimPending, hidePending)
    }

    /** The cursor lies on the screen, whose size is not negative. */
    ghost predicate OnScreen()
      reads this`cursorX, this`cursorY, this`screenWidth, this`screenHeight
    {
      0 <= screenWidth && 0 <= screenHeight &&
      0.0 <= cursorX <= screenWidth as real && 0.0 <= cursorY <= screenHeight as real
    }

    ghost predicate Valid()
      reads this`cursorX, this`cursorY, this`screenWidth, this`screenHeight,
            this`isVisible, this`isDimmed, this`alpha, this`dimPending, this`hidePending,
            this`hasCustomBitmap, this`cursorImage
    {
      OnScreen() && FadeInv(FadeState()) && (hasCustomBitmap ==> cursorImage == pointerCustom)
    }

    /** A new overlay: detached, at the origin of an empty screen, visible,
        with the given settings and no custom bitmap. */
    constructor (pointerCustom: int, cursorSize: int, cursorImage: int, autoHideEnabled: bool)
      ensures Valid() && !isAttached && FadeState() == Fade(true, false, 1.0, false, false)
      ensures this.pointerCustom == pointerCustom && this.cursorSize == cursorSize &&
              this.cursorImage == cursorImage && this.autoHideEnabled == autoHideEnabled
      ensures (cursorX, cursorY, screenWidth, screenHeight) == (0.0, 0.0, 0, 0) && !hasCustomBitmap
    {
      this.pointerCustom := pointerCustom;
      isAttached := false;
      cursorX, cursorY := 0.0, 0.0;
      screenWidth, screenHeight := 0, 0;
      this.cursorSize := cursorSize;
      this.cursorImage := cursorImage;
      this.autoHideEnabled := autoHideEnabled;
      hasCustomBitmap := false;
      isVisible, isDimmed, alpha := true, false, 1.0;
      dimPending, hidePending := false, false;
    }

    /** `show`, when detached: takes the display size, centres the cursor
        and attaches the window (`addOk` is whether the window manager
        accepted it); only then is the cursor made visible and the
        inactivity timer started. */
    method Show(width: int, height: int, addOk: bool)
      requires Valid() && 0 <= width && 0 <= height
      modifies this`isAttached, this`cursorX, this`cursorY, this`screenWidth, this`screenHeight,
               this`isVisible, this`alpha, this`dimPending, this`hidePending
      ensures Valid()
      ensures old(isAttached) ==> unchanged(this)
      ensures !old(isAttached) ==>
        screenWidth == width && screenHeight == height &&
        cursorX == width as real / 2.0 && cursorY == height as real / 2.0 &&
        isAttached == addOk &&
        FadeState() == if addOk then Shown(old(FadeState())) else old(FadeState())
    {
      if isAttached {
        return;
      }
      Center(width, height);
      if addOk {
        isAttached := true;
        isVisible := true;
        alpha := 1.0;
        ScheduleAutoHideTimers();
      }
    }

    /** Takes the display size and puts the cursor at its centre. */
    method Center(width: int, height: int)
      requires 0 <= width && 0 <= height
      modifies this`cursorX, this`cursorY, this`screenWidth, this`screenHeight
      ensures OnScreen()
      ensures screenWidth == width && screenHeight == height
      ensures cursorX == width as real / 2.0 && cursorY == height as real / 2.0
    {
      screenWidth := width;
      screenHeight := height;
      cursorX := screenWidth as real / 2.0;
      cursorY := screenHeight as real / 2.0;
    }

    /** `hide`, when attached: cancels both timers and detaches the window
        (`removeOk` is whether the window manager removed it). */
    method Hide(removeOk: bool)
      requires Valid()
      modifies this`isAttached, this`dimPending, this`hidePending
      ensures Valid()
      ensures !old(isAttached) ==> unchanged(this)
      ensures old(isAttached) ==>
        isAttached == !removeOk && FadeState() == old(FadeState()).(dimPending := false, hidePending := false)
    {
      if isAttached {
        dimPending := false;
        hidePending := false;
        if removeOk {
          isAttached := false;
        }
      }
    }

    /** `moveCursor`, `speed` being the pointer-speed setting: each
        coordinate moves by the scaled delta, clamped to the screen; a
        hidden or dimmed cursor fades back in and the inactivity timer
        restarts. */
    method MoveCursor(deltaX: real, deltaY: real, speed: real)
      requires Valid()
      modifies this`cursorX, this`cursorY, this`isVisible, this`isDimmed, this`alpha,
               this`dimPending, this`hidePending
      ensures Valid()
      ensures cursorX == CoerceInReal(old(cursorX) + deltaX * speed, 0.0, screenWidth as real)
      ensures cursorY == CoerceInReal(old(cursorY) + deltaY * speed, 0.0, screenHeight as real)
      ensures FadeState() == Activity(old(FadeState()))
    {
      cursorX := CoerceInReal(cursorX + deltaX * speed, 0.0, screenWidth as real);
      cursorY := CoerceInReal(cursorY + deltaY * speed, 0.0, screenHeight as real);
      if !isVisible || isDimmed {
        FadeInCursor();
      }
      ScheduleAutoHideTimers();
    }

    /** `getCursorPosition`. */
    function CursorPosition(): (p: (real, real))
      reads this`cursorX, this`cursorY, this`screenWidth, this`screenHeight
      requires OnScreen()
      ensures 0.0 <= p.0 <= screenWidth as real && 0.0 <= p.1 <= screenHeight as real
      ensures p == (cursorX, cursorY)
    {
      (cursorX, cursorY)
    }

    /** `updateSettings`: takes the pointer settings and reloads the custom
        bitmap (`load` is the outcome of loading the configured URI). */
    method UpdateSettings(cursorSize: int, cursorImage: int, autoHideEnabled: bool, load: ImageLoad)
      requires Valid()
      modifies this`cursorSize, this`cursorImage, this`autoHideEnabled, this`hasCustomBitmap
      ensures Valid()
      ensures this.cursorSize == cursorSize && this.cursorImage == cursorImage &&
              this.autoHideEnabled == autoHideEnabled
      ensures hasCustomBitmap ==
        BitmapAfterLoad(old(hasCustomBitmap), cursorImage == pointerCustom, cursorSize, load)
    {
      this.cursorSize := cursorSize;
      this.cursorImage := cursorImage;
      this.autoHideEnabled := autoHideEnabled;
      LoadCustomCursor(load);
    }

    /** `loadCustomCursor`. */
    method LoadCustomCursor(load: ImageLoad)
      modifies this`hasCustomBitmap
      ensures hasCustomBitmap == BitmapAfterLoad(old(hasCustomBitmap), cursorImage == pointerCustom, cursorSize, load)
    {
      if !load.NoUri? && cursorImage == pointerCustom {
        match load {
          case NoStream =>
          case Undecodable =>
          case Decoded(_, _) =>
            // scaling to a non-positive size throws, and the handler clears the bitmap
            hasCustomBitmap := 0 < cursorSize;
          case LoadFailed =>
            hasCustomBitmap := false;
        }
      } else {
        hasCustomBitmap := false;
      }
    }

    /** The shape `onDraw` draws now. */
    function Shape(): (s: CursorShape)
      reads this`cursorX, this`cursorY, this`screenWidth, this`screenHeight,
            this`isVisible, this`isDimmed, this`alpha, this`dimPending, this`hidePending,
            this`hasCustomBitmap, this`cursorImage
      requires Valid()
      // a held bitmap is drawn unless a built-in image shares the custom index
      ensures hasCustomBitmap && !(POINTER_DEFAULT <= pointerCustom <= POINTER_HAND) ==> s == CustomBitmap
      ensures cursorImage == pointerCustom ==> s != NoShape
    {
      ShapeDrawn(cursorImage, pointerCustom, hasCustomBitmap)
    }

    /** `scheduleAutoHide`. */
    method ScheduleAutoHideTimers()
      modifies this`dimPending, this`hidePending
      ensures FadeState() == ScheduleAutoHide(old(FadeState()))
    {
      dimPending := false;
      hidePending := false;
      dimPending := true;
    }

    /** `fadeIn`. */
    method FadeInCursor()
      modifies this`isVisible, this`isDimmed, this`alpha
      ensures FadeState() == FadeIn(old(FadeState()))
    {
      isVisible := true;
      isDimmed := false;
      alpha := 1.0;
    }

    /** `dimCursor`, run when the dim timer goes off. */
    method DimFires()
      requires Valid() && dimPending
      modifies this`isDimmed, this`alpha, this`dimPending, this`hidePending
      ensures Valid()
      ensures FadeState() == OnDim(old(FadeState()), autoHideEnabled)
    {
      dimPending := false;
      isDimmed := true;
      alpha := DIMMED_ALPHA;
      hidePending := autoHideEnabled;
    }

    /** `hideCursor`, run when the hide timer goes off. */
    method HideFires()
      requires Valid() && hidePending
      modifies this`alpha, this`isVisible, this`hidePending
      ensures Valid()
      ensures FadeState() == OnHide(old(FadeState()))
    {
      hidePending := false;
      alpha := 0.0;
      isVisible := false;
    }
  }
}
