/** An abstract model of the platform's `android.widget.Scroller` as the view
    uses it: a flag that says whether an animation runs, the start offset and
    distance of the last started animation, its duration, and the current
    position. Time and the interpolated position in the middle of an animation
    are supplied by the caller. */
module Scrolling {

  /** v lies on the closed segment between a and b, in either order. */
  predicate Between(v: int, a: int, b: int)
  {
    (a <= v <= b) || (b <= v <= a)
  }

  class Scroller {
    var finished: bool
    var startX: int
    var dx: int
    var duration: int
    var currX: int

    /** The offset the running animation ends at. */
    function FinalX(): int
      reads this
    {
      startX + dx
    }

    /** A new scroller has no animation running. */
    constructor ()
      ensures finished && startX == 0 && dx == 0 && duration == 0 && currX == 0
    {
      finished := true;
      startX := 0;
      dx := 0;
      duration := 0;
      currX := 0;
    }

    /** Starts an animation from `start` over the distance `delta`. */
    method StartScroll(start: int, delta: int, millis: int)
      modifies this
      ensures !finished && startX == start && dx == delta && duration == millis
      ensures FinalX() == start + delta
      ensures currX == old(currX)
    {
      finished := false;
      startX := start;
      dx := delta;
      duration := millis;
    }

    /** Stops the animation; the scroller's own position jumps to the end,
        but nothing moves the view. */
    method AbortAnimation()
      modifies this
      ensures finished && currX == FinalX()
      ensures startX == old(startX) && dx == old(dx) && duration == old(duration)
    {
      currX := startX + dx;
      finished := true;
    }

    /** Advances the animation to `timePassed` milliseconds after its start.
        Reports whether an animation was running; a running one ends once
        its duration has passed, and until then sits at `interpolated`, the
        position the platform's interpolator gives for that time. */
    method ComputeScrollOffset(timePassed: int, interpolated: int) returns (running: bool)
      requires Between(interpolated, startX, FinalX())
      modifies this
      ensures running == !old(finished)
      ensures old(finished) ==> unchanged(this)
      ensures !old(finished) && timePassed >= duration ==> finished && currX == FinalX()
      ensures !old(finished) && timePassed < duration ==> !finished && currX == interpolated
      ensures startX == old(startX) && dx == old(dx) && duration == old(duration)
      ensures !old(finished) ==> Between(currX, startX, FinalX())
    {
      if finished {
        running := false;
        return;
      }
      if timePassed < duration {
        currX := interpolated;
      } else {
        currX := startX + dx;
        finished := true;
      }
      running := true;
    }
  }
}
