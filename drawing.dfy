/**
 * What BingSwitch's onDraw paints: which track and thumb drawables it picks
 * for the interaction phase and checked value, and the rectangles it gives
 * them.
 */
module Drawing {
  import opened Geometry
  import opened TouchMachine

  datatype TrackDrawable = TrackUncheckedNormal | TrackCheckedNormal | TrackTouching

  datatype ThumbDrawable = ThumbWhite | ThumbBlack

  datatype Rect = Rect(left: int, top: int, right: int, bottom: int)

  /** While touched the track is the touching one; at rest it shows the value. */
  function SelectTrack(mode: TouchMode, checked: bool): (d: TrackDrawable)
    ensures d == TrackTouching <==> mode != Idle
    ensures d == TrackCheckedNormal <==> mode == Idle && checked
    ensures d == TrackUncheckedNormal <==> mode == Idle && !checked
  {
    match mode
    case Idle => if checked then TrackCheckedNormal else TrackUncheckedNormal
    case Touching => TrackTouching
    case Dragging => TrackTouching
  }

  /** The thumb is black only at rest and unchecked; otherwise it is white. */
  function SelectThumb(mode: TouchMode, checked: bool): (d: ThumbDrawable)
    ensures d == ThumbBlack <==> mode == Idle && !checked
  {
    match mode
    case Idle => if checked then ThumbWhite else ThumbBlack
    case Touching => ThumbWhite
    case Dragging => ThumbWhite
  }

  /** The track is right-aligned against the right padding, at its intrinsic size. */
  function TrackBounds(width: int, padRight: int, top: int, trackWidth: int, trackHeight: int): (r: Rect)
    ensures r.right == width - padRight && r.right - r.left == trackWidth
    ensures r.top == top && r.bottom - r.top == trackHeight
  {
    var right := width - padRight;
    Rect(right - trackWidth, top, right, top + trackHeight)
  }

  /** The thumb sits at its position, one inner margin below the track's top. */
  function ThumbBounds(pos: int, top: int, margin: int, thumbWidth: int, thumbHeight: int): (r: Rect)
    ensures r.left == pos && r.right - r.left == thumbWidth
    ensures r.top == top + margin && r.bottom - r.top == thumbHeight
  {
    Rect(pos, top + margin, pos + thumbWidth, top + margin + thumbHeight)
  }

  /**
   * A thumb anywhere between its stops is drawn inside the track, at least one
   * inner margin from either side and exactly one below the track's top.
   */
  lemma ThumbInsideTrack(width: int, padRight: int, top: int, trackWidth: int, trackHeight: int,
                         thumbWidth: int, thumbHeight: int, margin: int, pos: int)
    requires var t := Stops(width, padRight, trackWidth, thumbWidth, margin); t.off <= pos <= t.on
    ensures var track := TrackBounds(width, padRight, top, trackWidth, trackHeight);
      var thumb := ThumbBounds(pos, top, margin, thumbWidth, thumbHeight);
      track.left + margin <= thumb.left && thumb.right + margin <= track.right &&
      thumb.top == track.top + margin &&
      (thumbHeight + 2 * margin <= trackHeight ==> thumb.bottom + margin <= track.bottom)
  {
  }
}
