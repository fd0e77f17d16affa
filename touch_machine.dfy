/**
 * The BingSwitch state machine as values: the widget's mutable state, one
 * function per event that changes it (pointer down/move/up, the public
 * setChecked/toggle calls, the animation frame), and lemmas about what any
 * sequence of those events preserves. The class in module View is proved
 * against these functions.
 */
module TouchMachine {
  import opened Geometry

  /** The widget's interaction phase (IDLE, TOUCHING, DRAGGING). */
  datatype TouchMode = Idle | Touching | Dragging

  /**
   * The thumb animation: Stopped, or scrolling from `start` toward `target`.
   * A new animation replaces the one in flight.
   */
  datatype Anim = Stopped | Scrolling(start: int, target: int)

  /** A pointer action, its x already cast to an int. */
  datatype MotionAction = Down(x: int) | Move(x: int) | Up | OtherAction

  /**
   * The state the event handlers read and write. `listener` says whether a
   * checked-change listener is registered; `log` lists, in order, the values
   * that listener has been called with.
   */
  datatype Widget = Widget(
    checked: bool,
    mode: TouchMode,
    downX: int,
    downThumbX: int,
    pos: int,
    off: int,
    on: int,
    half: int,
    listener: bool,
    anim: Anim,
    log: seq<bool>)

  /** The thumb's resting position for the current checked value. */
  function Resting(w: Widget): int
  {
    if w.checked then w.on else w.off
  }

  /**
   * The widget's standing invariant between layout passes: the thumb fits in
   * the track, and the thumb and any animation stay within [off, on].
   */
  ghost predicate Inv(w: Widget)
  {
    w.off <= w.on &&
    w.off <= w.pos <= w.on &&
    (w.anim.Scrolling? ==> w.off <= w.anim.start <= w.on && w.off <= w.anim.target <= w.on)
  }

  /** The clamp of a dragged position, tested against off first and on second. */
  function Clamp(p: int, lo: int, hi: int): (r: int)
    ensures lo <= hi ==> lo <= r <= hi
    ensures lo <= p <= hi ==> r == p
    ensures p < lo ==> r == lo
    ensures lo <= p && hi < p ==> r == hi
  {
    if p < lo then lo else if p > hi then hi else p
  }

  /** Calls the listener, if one is registered, with the current value. */
  function CallListener(w: Widget): (r: Widget)
    ensures r == w.(log := r.log)
    ensures r.log == if w.listener then w.log + [w.checked] else w.log
  {
    if w.listener then w.(log := w.log + [w.checked]) else w
  }

  /** Starts an animation from the thumb's position to its resting position. */
  function AnimThumb(w: Widget): (r: Widget)
    ensures r == w.(anim := r.anim)
    ensures r.anim.Scrolling? && r.anim.start == w.pos && r.anim.target == Resting(w)
  {
    w.(anim := Scrolling(w.pos, Resting(w)))
  }

  /** ACTION_DOWN: enter TOUCHING and remember where the press started. */
  function PointerDown(w: Widget, x: int): (r: Widget)
    ensures r.mode == Touching && r.downX == x && r.downThumbX == w.pos
    ensures r == w.(mode := Touching, downX := x, downThumbX := w.pos)
  {
    w.(mode := Touching, downX := x, downThumbX := w.pos)
  }

  /**
   * ACTION_MOVE: a move back to the press x changes nothing; any other x
   * enters DRAGGING and moves the thumb by the pointer's displacement from
   * the press point, clamped to [off, on]. The mode is not consulted.
   */
  function PointerMove(w: Widget, x: int): (r: Widget)
    ensures x == w.downX ==> r == w
    ensures x != w.downX ==> r == w.(mode := Dragging, pos := r.pos)
    ensures x != w.downX ==> r.pos == Clamp(w.downThumbX + (x - w.downX), w.off, w.on)
    ensures x != w.downX && w.off <= w.on ==> w.off <= r.pos <= w.on
    ensures w.off <= w.downThumbX <= w.on ==>
      (x < w.downX ==> r.pos <= w.downThumbX) && (x > w.downX ==> r.pos >= w.downThumbX)
  {
    if x == w.downX then w
    else
      var moved := w.downThumbX - (w.downX - x);
      w.(mode := Dragging, pos := Clamp(moved, w.off, w.on))
  }

  /** Flips the checked value, notifies, and animates toward the new rest. */
  function FlipOnRelease(w: Widget): Widget
  {
    AnimThumb(CallListener(w.(checked := !w.checked)))
  }

  /**
   * ACTION_UP: a tap (TOUCHING) always flips; a drag flips exactly when the
   * thumb was released on the other side of the midpoint from the side its
   * checked value rests on. Either way the thumb animates toward its
   * (possibly new) rest. From IDLE nothing happens. The mode ends IDLE.
   */
  function PointerUp(w: Widget): (r: Widget)
    ensures r.mode == Idle
    ensures r.checked != w.checked <==>
      (w.mode == Touching || (w.mode == Dragging && (w.pos >= w.half) != w.checked))
    ensures r.log == if w.listener && r.checked != w.checked then w.log + [r.checked] else w.log
    ensures w.mode != Idle ==> r.anim == Scrolling(w.pos, if r.checked then w.on else w.off)
    ensures w.mode == Idle ==> r == w
    ensures r == w.(mode := Idle, checked := r.checked, anim := r.anim, log := r.log)
  {
    match w.mode
    case Touching =>
      FlipOnRelease(w).(mode := Idle)
    case Dragging =>
      if (w.pos < w.half && w.checked) || (w.pos >= w.half && !w.checked) then
        FlipOnRelease(w).(mode := Idle)
      else
        AnimThumb(w).(mode := Idle)
    case Idle =>
      w.(mode := Idle)
  }

  /**
   * onTouchEvent: dispatch on the action. Only a release can change the value
   * or notify; other actions change nothing.
   */
  function OnTouch(w: Widget, a: MotionAction): (r: Widget)
    ensures !a.Up? ==> r.checked == w.checked && r.log == w.log && r.anim == w.anim
    ensures a.Down? ==> r.mode == Touching && r.downX == a.x && r.pos == w.pos
    ensures a.Move? && a.x != w.downX ==> r.mode == Dragging
    ensures a.Up? ==> r.mode == Idle
    ensures a.OtherAction? ==> r == w
    ensures a.Down? ==> r == PointerDown(w, a.x)
    ensures a.Move? ==> r == PointerMove(w, a.x)
    ensures a.Up? ==> r == PointerUp(w)
  {
    match a
    case Down(x) => PointerDown(w, x)
    case Move(x) => PointerMove(w, x)
    case Up => PointerUp(w)
    case OtherAction => w
  }

  /**
   * toggle(): snap the thumb to the old resting position, take the other
   * value, notify, and animate from there to the new resting position.
   */
  function Toggle(w: Widget): (r: Widget)
    ensures r.checked == !w.checked
    ensures r.pos == Resting(w) && r.anim == Scrolling(Resting(w), Resting(r))
    ensures r.log == if w.listener then w.log + [!w.checked] else w.log
    ensures r == w.(checked := r.checked, pos := r.pos, anim := r.anim, log := r.log)
  {
    var snapped := w.(pos := Resting(w));
    AnimThumb(CallListener(snapped.(checked := !w.checked)))
  }

  /** setChecked(b): the same flip as toggle when b differs from the current value, else nothing. */
  function SetChecked(w: Widget, b: bool): (r: Widget)
    ensures b == w.checked ==> r == w
    ensures r.checked == b
    ensures b != w.checked ==> r.pos == Resting(w) && r.anim == Scrolling(Resting(w), Resting(r))
    ensures r.log == if w.listener && b != w.checked then w.log + [b] else w.log
    ensures r == w.(checked := r.checked, pos := r.pos, anim := r.anim, log := r.log)
  {
    if w.checked != b then Toggle(w) else w
  }

  /**
   * computeScroll for a frame `elapsed` milliseconds after the animation
   * started: before the end the thumb is interpolated between start and
   * target; at or after the end it lands on the target and the animation
   * stops. Without an animation nothing changes.
   */
  function Frame(w: Widget, elapsed: nat): (r: Widget)
    ensures w.anim.Stopped? ==> r == w
    ensures r == w.(pos := r.pos, anim := r.anim)
    ensures w.anim.Scrolling? ==> Between(r.pos, w.anim.start, w.anim.target)
    ensures w.anim.Scrolling? && elapsed == 0 ==> r.pos == w.anim.start && r.anim == w.anim
    ensures elapsed < AnimDuration ==> r.anim == w.anim
    ensures w.anim.Scrolling? && elapsed >= AnimDuration ==> r.pos == w.anim.target && r.anim.Stopped?
  {
    match w.anim
    case Stopped => w
    case Scrolling(start, target) =>
      if elapsed < AnimDuration then
        QuotOfScaled(target - start, elapsed, AnimDuration);
        w.(pos := start + Quot((target - start) * elapsed, AnimDuration))
      else
        w.(pos := target, anim := Stopped)
  }

  /**
   * The state after a layout pass has produced new thumb stops: the stops are
   * replaced and the thumb snaps to the resting position of the current value.
   */
  function Relayout(w: Widget, t: ThumbStops): (r: Widget)
    ensures r.off == t.off && r.on == t.on && r.half == t.half
    ensures r.pos == Resting(r)
    ensures r == w.(off := r.off, on := r.on, half := r.half, pos := r.pos)
  {
    var moved := w.(off := t.off, on := t.on, half := t.half);
    moved.(pos := Resting(moved))
  }

  /**
   * The at-rest invariant: a running animation heads for the resting
   * position of the current value, and a thumb that is neither touched nor
   * animating sits on that resting position.
   */
  ghost predicate RestInv(w: Widget)
  {
    (w.anim.Scrolling? ==> w.anim.target == Resting(w)) &&
    (w.mode == Idle && w.anim.Stopped? ==> w.pos == Resting(w))
  }

  /** A layout pass with no animation running establishes RestInv. */
  lemma RelayoutEstablishesRest(w: Widget, t: ThumbStops)
    requires w.anim.Stopped?
    ensures RestInv(Relayout(w, t))
  {
  }

  /** A layout pass with a thumb that fits, and no animation running, establishes Inv. */
  lemma RelayoutEstablishesInv(w: Widget, t: ThumbStops)
    requires t.off <= t.on && w.anim.Stopped?
    ensures Inv(Relayout(w, t))
  {
  }

  // ---------------------------------------------------------------------
  // Event sequences

  /** Everything that changes the state between two layout passes. */
  datatype Input =
    | Touch(action: MotionAction)
    | SetCheckedCall(value: bool)
    | ToggleCall
    | ScrollFrame(elapsed: nat)

  function Apply(w: Widget, i: Input): Widget
  {
    match i
    case Touch(a) => OnTouch(w, a)
    case SetCheckedCall(b) => SetChecked(w, b)
    case ToggleCall => Toggle(w)
    case ScrollFrame(t) => Frame(w, t)
  }

  function Run(w: Widget, ins: seq<Input>): Widget
    decreases |ins|
  {
    if ins == [] then w else Run(Apply(w, ins[0]), ins[1..])
  }

  /** The successive new checked values along a run, one per change. */
  function Changes(w: Widget, ins: seq<Input>): seq<bool>
    decreases |ins|
  {
    if ins == [] then []
    else
      var next := Apply(w, ins[0]);
      (if next.checked != w.checked then [next.checked] else []) + Changes(next, ins[1..])
  }

  /**
   * One input notifies exactly when it changes the checked value, with the
   * new value, and never touches the stops or the listener.
   */
  lemma ApplyStep(w: Widget, i: Input)
    ensures var r := Apply(w, i);
      r.listener == w.listener && r.off == w.off && r.on == w.on && r.half == w.half &&
      r.log == if w.listener && r.checked != w.checked then w.log + [r.checked] else w.log
  {
  }

  /** Every input keeps the invariant. */
  lemma ApplyKeepsInv(w: Widget, i: Input)
    requires Inv(w)
    ensures Inv(Apply(w, i))
  {
  }

  /** Every input keeps the at-rest invariant. */
  lemma ApplyKeepsRest(w: Widget, i: Input)
    requires RestInv(w)
    ensures RestInv(Apply(w, i))
  {
  }

  /**
   * After any sequence of events between layout passes, a running animation
   * still heads for the resting position of the current value, and a settled
   * thumb sits on it.
   */
  lemma {:induction false} RunKeepsRest(w: Widget, ins: seq<Input>)
    requires RestInv(w)
    ensures RestInv(Run(w, ins))
    decreases |ins|
  {
    if ins != [] {
      ApplyKeepsRest(w, ins[0]);
      RunKeepsRest(Apply(w, ins[0]), ins[1..]);
    }
  }

  /** No sequence of events between layout passes lets the thumb leave [off, on]. */
  lemma {:induction false} RunKeepsInv(w: Widget, ins: seq<Input>)
    requires Inv(w)
    ensures Inv(Run(w, ins))
    ensures Run(w, ins).off == w.off && Run(w, ins).on == w.on && Run(w, ins).half == w.half
    decreases |ins|
  {
    if ins != [] {
      ApplyKeepsInv(w, ins[0]);
      ApplyStep(w, ins[0]);
      RunKeepsInv(Apply(w, ins[0]), ins[1..]);
    }
  }

  /**
   * A registered listener hears exactly the changes of the checked value, in
   * order; without one, nothing is logged.
   */
  lemma {:induction false} RunNotifiesChanges(w: Widget, ins: seq<Input>)
    ensures Run(w, ins).listener == w.listener
    ensures Run(w, ins).log == if w.listener then w.log + Changes(w, ins) else w.log
    decreases |ins|
  {
    if ins != [] {
      var next := Apply(w, ins[0]);
      ApplyStep(w, ins[0]);
      RunNotifiesChanges(next, ins[1..]);
      if w.listener {
        var head := if next.checked != w.checked then [next.checked] else [];
        assert next.log == w.log + head;
        assert Changes(w, ins) == head + Changes(next, ins[1..]);
        assert w.log + head + Changes(next, ins[1..]) == w.log + (head + Changes(next, ins[1..]));
      }
    }
  }

  /**
   * The changes along a run alternate, start away from the initial value and
   * end at the final value: the listener never hears the same value twice in
   * a row, and the last thing it heard is the current state.
   */
  lemma {:induction false} ChangesAlternate(w: Widget, ins: seq<Input>)
    ensures var c := Changes(w, ins);
      (c != [] ==> c[0] != w.checked && c[|c| - 1] == Run(w, ins).checked) &&
      (c == [] ==> Run(w, ins).checked == w.checked) &&
      (forall k :: 0 < k < |c| ==> c[k] != c[k - 1])
    decreases |ins|
  {
    if ins != [] {
      var next := Apply(w, ins[0]);
      var rest := Changes(next, ins[1..]);
      ChangesAlternate(next, ins[1..]);
      var head := if next.checked != w.checked then [next.checked] else [];
      var c := head + rest;
      assert Changes(w, ins) == c;
      if head != [] {
        forall k | 0 < k < |c|
          ensures c[k] != c[k - 1]
        {
          if k > 1 {
            assert c[k] == rest[k - 1] && c[k - 1] == rest[k - 2];
          }
        }
      }
    }
  }

  /** A tap (down then up, no move) flips the value and notifies once. */
  lemma TapFlips(w: Widget, x: int)
    ensures PointerUp(PointerDown(w, x)).checked == !w.checked
    ensures PointerUp(PointerDown(w, x)).log == if w.listener then w.log + [!w.checked] else w.log
    ensures PointerUp(PointerDown(w, x)).anim.Scrolling?
  {
  }

  /**
   * A press followed by a move back to the press x is still a tap: the move
   * leaves the state alone and the release flips.
   */
  lemma MoveToPressPointIsTap(w: Widget, x: int)
    ensures PointerUp(PointerMove(PointerDown(w, x), x)) == PointerUp(PointerDown(w, x))
  {
  }

  /**
   * A drag flips the value exactly when the thumb ends on the other side of
   * the midpoint from the side the value rests on.
   */
  lemma DragFlipsIffOtherSide(w: Widget, x0: int, x1: int)
    requires x1 != x0
    ensures var dragged := PointerMove(PointerDown(w, x0), x1);
      var released := PointerUp(dragged);
      dragged.mode == Dragging &&
      (released.checked != w.checked <==> (dragged.pos >= w.half) != w.checked)
  {
  }

  /**
   * Unchecked with off = 10, on = 50, half = 30: a press at x = 100 and a move
   * to x = 70 leave the thumb clamped at 10, and the release does not flip.
   */
  lemma LeftDragStaysOff()
    ensures var w := Widget(false, Idle, 0, 0, 10, 10, 50, 30, true, Stopped, []);
      var dragged := PointerMove(PointerDown(w, 100), 70);
      var released := PointerUp(dragged);
      dragged.pos == 10 && !released.checked && released.log == [] &&
      released.anim == Scrolling(10, 10)
  {
  }

  /** setChecked with the current value is a no-op; with the other, one flip. */
  lemma SetCheckedIdempotent(w: Widget, b: bool)
    ensures SetChecked(SetChecked(w, b), b) == SetChecked(w, b)
    ensures SetChecked(w, w.checked) == w
  {
  }

  /** Two toggles restore the value, and a listener hears both flips. */
  lemma ToggleTwice(w: Widget)
    ensures Toggle(Toggle(w)).checked == w.checked
    ensures Toggle(Toggle(w)).log == if w.listener then w.log + [!w.checked, w.checked] else w.log
    ensures Toggle(Toggle(w)).anim.Scrolling? && Toggle(Toggle(w)).anim.target == Resting(w)
  {
  }

  /** An action other than down, move or up leaves the phase as it was. */
  lemma OtherActionIgnored(w: Widget)
    ensures OnTouch(w, OtherAction) == w
  {
  }
}
