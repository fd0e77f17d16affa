/**
 * The BingSwitch view: its fields are updated in place by the measure pass,
 * the touch handler, the public control calls and the animation frames.
 * Model() reads the touch-relevant fields as a TouchMachine.Widget, and each
 * state-changing method is proved to move Model() exactly as the matching
 * TouchMachine function does.
 */
module View {
  import opened Geometry
  import opened TouchMachine
  import opened Drawing

  class BingSwitch {
    // Layout results of the last measure pass.
    var minWidth: int
    var minHeight: int
    var thumbWidth: int
    var thumbHeight: int
    const innerMarginPx: int
    var measuredWidth: int
    var measuredHeight: int
    var switchTop: int
    var paddingTop: int
    var paddingRight: int
    var thumbPositionOn: int
    var thumbPositionOff: int
    var thumbPositionHalf: int

    // Interaction state.
    var isChecked: bool
    var touchMode: TouchMode
    var downX: int
    var downThumbX: int
    var currentThumbPosition: int

    var hasListener: bool
    var scroller: Anim
    /** The values the registered listener has been called with, in order. */
    ghost var notifications: seq<bool>

    ghost function Model(): Widget
      reads this`isChecked, this`touchMode, this`downX, this`downThumbX, this`currentThumbPosition,
            this`thumbPositionOff, this`thumbPositionOn, this`thumbPositionHalf,
            this`hasListener, this`scroller, this`notifications
    {
      Widget(isChecked, touchMode, downX, downThumbX, currentThumbPosition,
             thumbPositionOff, thumbPositionOn, thumbPositionHalf,
             hasListener, scroller, notifications)
    }

    /** A new view: unchecked, idle, no listener, no animation, nothing measured. */
    constructor (innerMarginPx: nat)
      ensures this.innerMarginPx == innerMarginPx
      ensures Model() == Widget(false, Idle, 0, 0, 0, 0, 0, 0, false, Stopped, [])
      ensures Inv(Model()) && RestInv(Model())
      ensures measuredWidth == 0 && measuredHeight == 0 && switchTop == 0
      ensures paddingTop == 0 && paddingRight == 0
      ensures minWidth == 0 && minHeight == 0 && thumbWidth == 0 && thumbHeight == 0
    {
      this.innerMarginPx := innerMarginPx;
      isChecked := false;
      touchMode := Idle;
      downX, downThumbX, currentThumbPosition := 0, 0, 0;
      thumbPositionOn, thumbPositionOff, thumbPositionHalf := 0, 0, 0;
      minWidth, minHeight, thumbWidth, thumbHeight := 0, 0, 0, 0;
      measuredWidth, measuredHeight, switchTop := 0, 0, 0;
      paddingTop, paddingRight := 0, 0;
      hasListener := false;
      scroller := Stopped;
      notifications := [];
    }

    /**
     * onMeasure: size the view from the specs, place the track vertically,
     * derive the thumb stops and snap the thumb to its resting position.
     */
    method OnMeasure(wSpec: MeasureSpec, hSpec: MeasureSpec, padding: Padding,
                     gravity: VerticalGravity, track: Intrinsic, thumb: Intrinsic)
      modifies this`paddingTop, this`paddingRight, this`minWidth, this`minHeight,
               this`thumbWidth, this`thumbHeight, this`measuredWidth, this`measuredHeight,
               this`switchTop, this`thumbPositionOff, this`thumbPositionOn, this`thumbPositionHalf,
               this`currentThumbPosition
      ensures minWidth == WidthOf(track) && minHeight == HeightOf(track)
      ensures thumbWidth == WidthOf(thumb) && thumbHeight == HeightOf(thumb)
      ensures paddingTop == padding.top && paddingRight == padding.right
      ensures var m := Measure(wSpec, hSpec, padding, gravity, track, thumb, innerMarginPx);
        measuredWidth == m.width && measuredHeight == m.height && switchTop == m.top &&
        Model() == Relayout(old(Model()), m.stops)
    {
      var m := Measure(wSpec, hSpec, padding, gravity, track, thumb, innerMarginPx);
      ghost var before := Model();
      StoreLayout(padding, track, thumb, m);
      assert Model() == before;
      PlaceThumb(m.stops);
    }

    /** The part of onMeasure that records paddings, drawable sizes and the measured box. */
    method StoreLayout(padding: Padding, track: Intrinsic, thumb: Intrinsic, m: Layout)
      modifies this`paddingTop, this`paddingRight, this`minWidth, this`minHeight,
               this`thumbWidth, this`thumbHeight, this`measuredWidth, this`measuredHeight, this`switchTop
      ensures minWidth == WidthOf(track) && minHeight == HeightOf(track)
      ensures thumbWidth == WidthOf(thumb) && thumbHeight == HeightOf(thumb)
      ensures paddingTop == padding.top && paddingRight == padding.right
      ensures measuredWidth == m.width && measuredHeight == m.height && switchTop == m.top
    {
      paddingTop, paddingRight := padding.top, padding.right;
      minWidth, minHeight := WidthOf(track), HeightOf(track);
      thumbWidth, thumbHeight := WidthOf(thumb), HeightOf(thumb);
      measuredWidth, measuredHeight, switchTop := m.width, m.height, m.top;
    }

    /** The end of onMeasure: store the stops and snap the thumb to its rest. */
    method PlaceThumb(stops: ThumbStops)
      modifies this`thumbPositionOff, this`thumbPositionOn, this`thumbPositionHalf, this`currentThumbPosition
      ensures Model() == Relayout(old(Model()), stops)
    {
      thumbPositionOff, thumbPositionOn, thumbPositionHalf := stops.off, stops.on, stops.half;
      currentThumbPosition := if isChecked then thumbPositionOn else thumbPositionOff;
    }

    /** onDraw: the drawables and rectangles for the current state. */
    method OnDraw() returns (track: TrackDrawable, thumb: ThumbDrawable, trackRect: Rect, thumbRect: Rect)
      ensures track == TrackTouching <==> touchMode != Idle
      ensures track == TrackCheckedNormal <==> touchMode == Idle && isChecked
      ensures thumb == ThumbBlack <==> touchMode == Idle && !isChecked
      ensures trackRect == TrackBounds(measuredWidth, paddingRight, switchTop, minWidth, minHeight)
      ensures thumbRect == ThumbBounds(currentThumbPosition, switchTop, innerMarginPx, thumbWidth, thumbHeight)
    {
      track := SelectTrack(touchMode, isChecked);
      thumb := SelectThumb(touchMode, isChecked);
      var trackR := measuredWidth - paddingRight;
      var trackT := switchTop;
      trackRect := Rect(trackR - minWidth, trackT, trackR, trackT + minHeight);
      var thumbL := currentThumbPosition;
      var thumbT := switchTop + innerMarginPx;
      thumbRect := Rect(thumbL, thumbT, thumbL + thumbWidth, thumbT + thumbHeight);
    }

    /** onTouchEvent: every action is consumed. */
    method OnTouchEvent(action: MotionAction) returns (handled: bool)
      modifies this`touchMode, this`downX, this`downThumbX, this`currentThumbPosition,
               this`isChecked, this`scroller, this`notifications
      ensures handled
      ensures Model() == OnTouch(old(Model()), action)
    {
      match action {
        case Down(x) =>
          touchMode := Touching;
          downX := x;
          downThumbX := currentThumbPosition;
        case Move(x) =>
          if x != downX {
            touchMode := Dragging;
            var deltaX := downX - x;
            currentThumbPosition := downThumbX - deltaX;
            if currentThumbPosition < thumbPositionOff {
              currentThumbPosition := thumbPositionOff;
            } else if currentThumbPosition > thumbPositionOn {
              currentThumbPosition := thumbPositionOn;
            }
          }
        case Up =>
          if touchMode == Touching {
            isChecked := !isChecked;
            CallOnCheckedChangeListener();
            AnimThumb();
          } else if touchMode == Dragging {
            if (currentThumbPosition < thumbPositionHalf && isChecked)
              || (currentThumbPosition >= thumbPositionHalf && !isChecked)
            {
              isChecked := !isChecked;
              CallOnCheckedChangeListener();
              AnimThumb();
            } else {
              AnimThumb();
            }
          }
          touchMode := Idle;
        case OtherAction =>
      }
      handled := true;
    }

    /** Starts the scroller from the thumb's position toward its resting position. */
    method AnimThumb()
      modifies this`scroller
      ensures Model() == TouchMachine.AnimThumb(old(Model()))
    {
      var target := if isChecked then thumbPositionOn else thumbPositionOff;
      scroller := Scrolling(currentThumbPosition, target);
    }

    /** computeScroll, `elapsed` milliseconds after the current animation started. */
    method ComputeScroll(elapsed: nat)
      modifies this`currentThumbPosition, this`scroller
      ensures Model() == Frame(old(Model()), elapsed)
    {
      match scroller {
        case Stopped =>
        case Scrolling(start, target) =>
          if elapsed < AnimDuration {
            currentThumbPosition := start + Quot((target - start) * elapsed, AnimDuration);
          } else {
            currentThumbPosition := target;
            scroller := Stopped;
          }
      }
    }

    /** Calls the listener, when one is registered, with the current value. */
    method CallOnCheckedChangeListener()
      modifies this`notifications
      ensures Model() == CallListener(old(Model()))
    {
      if hasListener {
        notifications := notifications + [isChecked];
      }
    }

    method GetChecked() returns (b: bool)
      ensures b == isChecked
    {
      b := isChecked;
    }

    /** setChecked: changes, notifies and animates only when the value differs. */
    method SetChecked(b: bool)
      modifies this`currentThumbPosition, this`isChecked, this`scroller, this`notifications
      ensures Model() == TouchMachine.SetChecked(old(Model()), b)
    {
      if isChecked != b {
        currentThumbPosition := if isChecked then thumbPositionOn else thumbPositionOff;
        isChecked := b;
        CallOnCheckedChangeListener();
        AnimThumb();
      }
    }

    /** toggle: the same flip as setChecked, unconditionally. */
    method Toggle()
      modifies this`currentThumbPosition, this`isChecked, this`scroller, this`notifications
      ensures Model() == TouchMachine.Toggle(old(Model()))
    {
      currentThumbPosition := if isChecked then thumbPositionOn else thumbPositionOff;
      isChecked := !isChecked;
      CallOnCheckedChangeListener();
      AnimThumb();
    }

    /** setOnCheckedChangeListener: `present` is false for a null listener. */
    method SetOnCheckedChangeListener(present: bool)
      modifies this`hasListener
      ensures hasListener == present
      ensures Model() == old(Model()).(listener := present)
    {
      hasListener := present;
    }
  }
}
