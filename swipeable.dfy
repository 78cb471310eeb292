/**
 * The swipe-to-reveal chat row (components/SwiperableRow.tsx): where a
 * release leaves the row, how the drag is shown, and the two action buttons.
 * Offsets are reals; animations appear only through the value they end at.
 */
module Swipeable {

  /** A drag further left than this opens the row. */
  const SwipeThreshold: real := -120.0
  /** The offset of an open row and of a closed one. */
  const OpenOffset: real := -120.0
  const ClosedOffset: real := 0.0
  /** Gesture handler state ACTIVE: a state change out of it is a release. */
  const ActiveState: int := 4

  /** The interpolation's input range [-100, 0] and output range [-120, 0]. */
  const InputLow: real := -100.0
  const InputHigh: real := 0.0
  const OutputLow: real := -120.0
  const OutputHigh: real := 0.0

  /** Where a release with horizontal translation `dragX` sends the row. */
  function ReleaseTarget(dragX: real): (t: real)
    ensures t == OpenOffset <==> dragX < SwipeThreshold
    ensures t == OpenOffset || t == ClosedOffset
  {
    if dragX < SwipeThreshold then OpenOffset else ClosedOffset
  }

  /** A positive length divided by itself; used where the input reaches the top of its range. */
  lemma UnitRatio(d: real)
    requires d > 0.0
    ensures d / d == 1.0
  {
  }

  /**
   * `interpolate` with extrapolate 'clamp' over one input segment: the input
   * is first held inside the input range, then mapped linearly.
   */
  function InterpolateClamped(x: real, inLow: real, inHigh: real, outLow: real, outHigh: real): (y: real)
    requires inLow < inHigh
    ensures x <= inLow ==> y == outLow
    ensures x >= inHigh ==> y == outHigh
  {
    var held := if x < inLow then inLow else if x > inHigh then inHigh else x;
    var ratio := (held - inLow) / (inHigh - inLow);
    assert held == inLow ==> ratio == 0.0;
    assert held == inHigh ==> ratio == 1.0 by {
      if held == inHigh {
        UnitRatio(inHigh - inLow);
      }
    }
    ratio * (outHigh - outLow) + outLow
  }

  /**
   * limitedTranslateX: the offset shown for the raw translation `x`, that is
   * `x * 6/5` held inside [-120, 0].
   */
  function LimitedTranslateX(x: real): (y: real)
    ensures OutputLow <= y <= OutputHigh
    ensures InputLow <= x <= InputHigh ==> y == x * 6.0 / 5.0
    ensures x <= InputLow ==> y == OutputLow
    ensures x >= InputHigh ==> y == OutputHigh
  {
    InterpolateClamped(x, InputLow, InputHigh, OutputLow, OutputHigh)
  }

  /** A further drag is never shown closer to the closed position. */
  lemma LimitedTranslateXMonotone(x1: real, x2: real)
    requires x1 <= x2
    ensures LimitedTranslateX(x1) <= LimitedTranslateX(x2)
  {
  }

  /** After a release the row is shown fully open or fully closed. */
  lemma ReleaseShows(dragX: real)
    ensures LimitedTranslateX(ReleaseTarget(dragX)) == (if dragX < SwipeThreshold then OutputLow else OutputHigh)
  {
  }

  /** The two actions behind the row. */
  datatype RowAction = Archive | Delete

  /** The buttons rendered, left to right: each only when its callback is given. */
  function ActionButtons(hasArchive: bool, hasDelete: bool): (buttons: seq<RowAction>)
    ensures Archive in buttons <==> hasArchive
    ensures Delete in buttons <==> hasDelete
    ensures |buttons| == (if hasArchive then 1 else 0) + (if hasDelete then 1 else 0)
    ensures hasArchive && hasDelete ==> buttons == [Archive, Delete]
  {
    (if hasArchive then [Archive] else []) + (if hasDelete then [Delete] else [])
  }

  /** The SwipeableRow component. */
  class Row {
    /** Whether `onArchive` and `onDelete` were supplied. */
    const hasArchive: bool
    const hasDelete: bool
    /** The value of the row's Animated.Value once its latest change has taken effect. */
    var translateX: real
    /** The action callbacks invoked so far, in order. */
    var invoked: seq<RowAction>

    constructor (hasArchive: bool, hasDelete: bool)
      ensures this.hasArchive == hasArchive && this.hasDelete == hasDelete
      ensures translateX == ClosedOffset && invoked == []
    {
      this.hasArchive := hasArchive;
      this.hasDelete := hasDelete;
      translateX := 0.0;
      invoked := [];
    }

    /** The offset the row is drawn at, never past the open position nor right of closed. */
    function DisplayedOffset(): (r: real)
      reads this
      ensures OpenOffset <= r <= ClosedOffset
    {
      LimitedTranslateX(translateX)
    }

    /** onGestureEvent: the drag's translation drives the value directly. */
    method OnGestureEvent(translationX: real)
      modifies this`translateX
      ensures translateX == translationX
    {
      translateX := translationX;
    }

    /** onHandlerStateChange: only a release moves the row, open or closed. */
    method OnHandlerStateChange(oldState: int, translationX: real)
      modifies this`translateX
      ensures oldState == ActiveState ==> translateX == ReleaseTarget(translationX)
      ensures oldState != ActiveState ==> translateX == old(translateX)
      ensures oldState == ActiveState ==> DisplayedOffset() == OpenOffset || DisplayedOffset() == ClosedOffset
    {
      if oldState == ActiveState {
        var dragX := translationX;
        if dragX < SwipeThreshold {
          translateX := OpenOffset;
        } else {
          translateX := ClosedOffset;
        }
      }
    }

    /** reset: the row springs back closed. */
    method Reset()
      modifies this`translateX
      ensures translateX == ClosedOffset && DisplayedOffset() == ClosedOffset
    {
      translateX := 0.0;
    }

    /** A press on Archive: run the callback, then close the row. */
    method PressArchive()
      requires hasArchive
      modifies this`translateX, this`invoked
      ensures invoked == old(invoked) + [Archive]
      ensures translateX == ClosedOffset
    {
      invoked := invoked + [Archive];
      Reset();
    }

    /** A press on Delete: run the callback, then close the row. */
    method PressDelete()
      requires hasDelete
      modifies this`translateX, this`invoked
      ensures invoked == old(invoked) + [Delete]
      ensures translateX == ClosedOffset
    {
      invoked := invoked + [Delete];
      Reset();
    }
  }
}
