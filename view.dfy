/** The horizontal pager view: three screen-wide pages side by side, a
    gesture arbiter that takes over horizontal drags from the children, a
    drag that moves the scroll offset, and a settle animation to a page's
    rest offset on release. */
module ScrollView {
  import opened Paging
  import opened Scrolling
  import opened Layout

  /** The action of a motion event; `Other` stands for every action the view
      has no case for (cancel, pointer up and down, ...). */
  datatype Action = Down | Move | Up | Other

  /** Duration in milliseconds of the settle animation. */
  const SettleMillis := 1000

  class HorizontalScrollView {
    /** The coordinates of the last motion event either handler saw. */
    var lastX: int
    var lastY: int
    /** The number of children, as of the last measurement. */
    var childCount: nat
    const screenWidth: nat
    /** The release threshold. */
    const critical: nat
    const scroller: Scroller
    /** The page shown or being settled on, counted from 1. */
    var showViewIndex: int
    /** The horizontal scroll offset of the content. */
    var scrollX: int
    var children: seq<Child>
    /** The size set by the last measurement. */
    var measured: Size

    /** The state every callback keeps: the threshold belongs to the screen
        width, the recorded child count is a count of real children, a
        running settle animation ends at the current page's rest offset, and
        on any screen at least four pixels wide the view is `Paged`. */
    ghost predicate Valid()
      reads this, scroller
    {
      critical == Threshold(screenWidth) &&
      childCount <= |children| &&
      (!scroller.finished ==> scroller.FinalX() == RestOffset(showViewIndex, screenWidth)) &&
      (screenWidth >= 4 ==> Paged())
    }

    /** One of the three pages is current, the content is never scrolled to
        the left of the first page, and a running settle animation starts at
        a non-negative offset. */
    ghost predicate Paged()
      reads this, scroller
    {
      1 <= showViewIndex <= PageCount &&
      scrollX >= 0 &&
      (!scroller.finished ==> scroller.startX >= 0)
    }

    /** A view on a screen `width` pixels wide holding `kids`, not yet
        measured, resting on the first page's offset with page index 1. */
    constructor (width: nat, kids: seq<Child>)
      ensures Valid() && Paged()
      ensures screenWidth == width && critical == width / 4
      ensures showViewIndex == InitialPage && scrollX == 0 && lastX == 0 && lastY == 0
      ensures children == kids && childCount == 0 && measured == Size(0, 0)
      ensures scroller.finished && fresh(scroller)
    {
      lastX, lastY := 0, 0;
      childCount := 0;
      screenWidth := width;
      critical := width / 4;
      scroller := new Scroller();
      showViewIndex := InitialPage;
      scrollX := 0;
      children := kids;
      measured := Size(0, 0);
    }

    /** Decides whether the view takes the rest of the gesture from its
        children. A press is taken only to stop a running settle animation,
        which it stops where it is; a move is taken exactly when it is more
        horizontal than vertical since the last sample; a release never. */
    method Intercept(action: Action, x: int, y: int) returns (intercept: bool)
      requires Valid()
      modifies this`lastX, this`lastY, scroller
      ensures Valid()
      ensures intercept <==>
        (action == Down && !old(scroller.finished)) ||
        (action == Move && Abs(x - old(lastX)) > Abs(y - old(lastY)))
      ensures lastX == x && lastY == y
      ensures action == Down ==> scroller.finished
      ensures action == Down && !old(scroller.finished) ==>
        scroller.currX == scroller.FinalX() &&
        scroller.startX == old(scroller.startX) && scroller.dx == old(scroller.dx) &&
        scroller.duration == old(scroller.duration)
      ensures !(action == Down && !old(scroller.finished)) ==> unchanged(scroller)
    {
      intercept := false;
      match action {
        case Down =>
          intercept := false;
          if !scroller.finished {
            scroller.AbortAnimation();
            intercept := true;
          }
        case Move =>
          var deltaX := x - lastX;
          var deltaY := y - lastY;
          if Abs(deltaX) > Abs(deltaY) {
            intercept := true;
          } else {
            intercept := false;
          }
        case Up =>
          intercept := false;
        case Other =>
      }
      lastX := x;
      lastY := y;
    }

    /** Handles a motion event of a gesture the view has taken; it always
        consumes the event. A press stops a running settle animation; a move
        drags the content by the horizontal movement while the offset stays
        positive; a release picks the page to settle on and animates the
        offset from where it is to that page's rest offset. */
    method Touch(action: Action, x: int, y: int) returns (handled: bool)
      requires Valid()
      modifies this`lastX, this`lastY, this`scrollX, this`showViewIndex, scroller
      ensures Valid()
      ensures handled
      ensures lastX == x && lastY == y
      ensures action == Down ==>
        scroller.finished && scrollX == old(scrollX) && showViewIndex == old(showViewIndex)
      ensures action == Down && !old(scroller.finished) ==>
        scroller.currX == scroller.FinalX() &&
        scroller.startX == old(scroller.startX) && scroller.dx == old(scroller.dx) &&
        scroller.duration == old(scroller.duration)
      ensures action == Down && old(scroller.finished) ==> unchanged(scroller)
      ensures action == Move ==>
        scrollX == DragOffset(old(scrollX), x - old(lastX)) &&
        showViewIndex == old(showViewIndex) && unchanged(scroller)
      ensures action == Up ==>
        showViewIndex == ReleaseIndex(old(showViewIndex), old(scrollX), screenWidth) &&
        scrollX == old(scrollX) && !scroller.finished && scroller.startX == old(scrollX) &&
        scroller.dx == RestOffset(showViewIndex, screenWidth) - old(scrollX) &&
        scroller.FinalX() == RestOffset(showViewIndex, screenWidth) &&
        scroller.duration == SettleMillis
      ensures action == Other ==>
        scrollX == old(scrollX) && showViewIndex == old(showViewIndex) && unchanged(scroller)
    {
      match action {
        case Down =>
          if !scroller.finished {
            scroller.AbortAnimation();
          }
        case Move =>
          var deltaX := x - lastX;
          if scrollX - deltaX > 0 {
            scrollX := scrollX - deltaX;
          }
        case Up =>
          var oldIndex := showViewIndex;
          var subScrollX := scrollX - RestOffset(showViewIndex, screenWidth);
          if Abs(subScrollX) >= critical {
            var next := scrollX > RestOffset(showViewIndex, screenWidth);
            if showViewIndex < PageCount && next {
              showViewIndex := showViewIndex + 1;
            } else {
              showViewIndex := showViewIndex - 1;
            }
          }
          assert showViewIndex == ReleaseIndex(oldIndex, scrollX, screenWidth);
          if screenWidth >= 4 {
            ReleaseStaysOnPages(oldIndex, scrollX, screenWidth);
          }
          var dx := RestOffset(showViewIndex, screenWidth) - scrollX;
          SmoothScrollByDx(dx);
        case Other =>
      }
      lastX := x;
      lastY := y;
      handled := true;
    }

    /** Starts the settle animation from the current offset over `dx`. */
    method SmoothScrollByDx(dx: int)
      modifies scroller
      ensures !scroller.finished && scroller.startX == scrollX && scroller.dx == dx
      ensures scroller.FinalX() == scrollX + dx && scroller.duration == SettleMillis
      ensures scroller.currX == old(scroller.currX)
    {
      scroller.StartScroll(scrollX, dx, SettleMillis);
    }

    /** Per-frame callback: while the settle animation runs, moves the content
        to the animation's position, given `timePassed` milliseconds since it
        started and the platform interpolator's position `interpolated`. Once
        the animation has run its course the content rests on the current
        page. With no animation running nothing changes. */
    method ComputeScroll(timePassed: int, interpolated: int)
      requires Valid()
      requires Between(interpolated, scroller.startX, scroller.FinalX())
      modifies this`scrollX, scroller
      ensures Valid()
      ensures old(scroller.finished) ==> scrollX == old(scrollX) && unchanged(scroller)
      ensures !old(scroller.finished) ==> scrollX == scroller.currX
      ensures !old(scroller.finished) && timePassed < scroller.duration ==>
        !scroller.finished && scrollX == interpolated
      ensures !old(scroller.finished) && timePassed >= scroller.duration ==>
        scroller.finished && scrollX == old(scroller.FinalX())
      ensures !old(scroller.finished) && timePassed >= scroller.duration ==>
        scrollX == RestOffset(showViewIndex, screenWidth)
      ensures scroller.startX == old(scroller.startX) && scroller.dx == old(scroller.dx)
      ensures scroller.duration == old(scroller.duration)
    {
      var running := scroller.ComputeScrollOffset(timePassed, interpolated);
      if running {
        scrollX := scroller.currX;
      }
    }

    /** The height of the tallest shown child among the counted ones. */
    method GetChildMaxHeight() returns (maxHeight: nat)
      requires Valid()
      ensures maxHeight == MaxVisibleHeight(children[..childCount])
    {
      maxHeight := 0;
      var i := 0;
      while i < childCount
        invariant 0 <= i <= childCount
        invariant maxHeight == MaxVisibleHeight(children[..i])
      {
        assert children[..i + 1][..i] == children[..i];
        var childView := children[i];
        if childView.visibility != Gone {
          var height := childView.measuredHeight;
          if height > maxHeight {
            maxHeight := height;
          }
        }
        i := i + 1;
      }
    }

    /** Records the child count and measures the view for the given specs
        and horizontal paddings; `superSize` is what the platform's default
        measurement recorded before. */
    method OnMeasure(widthSpec: MeasureSpec, heightSpec: MeasureSpec, padLeft: int, padRight: int,
                     layoutParams: Option<Size>, superSize: Size)
      requires Valid()
      modifies this`childCount, this`measured
      ensures Valid()
      ensures childCount == |children|
      ensures measured == MeasuredDimension(children, widthSpec, heightSpec, padLeft, padRight, layoutParams, superSize)
    {
      measured := superSize;
      childCount := |children|;
      assert children[..childCount] == children;
      if childCount == 0 {
        if layoutParams.Some? {
          measured := Size(layoutParams.value.width, layoutParams.value.height);
        } else {
          measured := Size(0, 0);
        }
      } else if heightSpec.mode == AtMost && widthSpec.mode == AtMost {
        var measuredWidth := children[0].measuredWidth * childCount;
        var measureHeight := GetChildMaxHeight();
        measuredWidth := padLeft + measuredWidth + padRight;
        measured := Size(measuredWidth, measureHeight);
      } else if heightSpec.mode == AtMost {
        var measureHeight := GetChildMaxHeight();
        measured := Size(widthSpec.size, measureHeight);
      } else if widthSpec.mode == AtMost {
        var measuredWidth := children[0].measuredWidth * childCount;
        measuredWidth := padLeft + measuredWidth + padRight;
        measured := Size(measuredWidth, heightSpec.size);
      }
    }

    /** Places the shown children among the counted ones side by side from
        the left edge, each at its measured size; gone children, and children
        beyond the recorded count, keep their old frames. */
    method OnLayout()
      requires Valid()
      modifies this`children
      ensures Valid()
      ensures |children| == |old(children)|
      ensures forall i :: 0 <= i < |children| ==>
        children[i] == if i < childCount && Shown(old(children)[i])
                       then Placed(old(children)[i], LeftEdge(old(children), i))
                       else old(children)[i]
    {
      var childLeft := 0;
      var i := 0;
      while i < childCount
        invariant 0 <= i <= childCount
        invariant |children| == |old(children)|
        invariant childLeft == LeftEdge(old(children), i)
        invariant forall k :: 0 <= k < |children| ==>
          children[k] == if k < i && Shown(old(children)[k])
                         then Placed(old(children)[k], LeftEdge(old(children), k))
                         else old(children)[k]
      {
        VisibleWidthStep(old(children), i);
        var childView := children[i];
        if childView.visibility != Gone {
          var childWidth := childView.measuredWidth;
          children := children[i := Placed(childView, childLeft)];
          childLeft := childLeft + childWidth;
        }
        i := i + 1;
      }
    }
  }

  /** A swipe from the first page to the second: press, drag left by more
      than a quarter screen, release, and let the animation finish. */
  method SwipeToSecondPage()
  {
    var view := new HorizontalScrollView(1080, []);
    var taken := view.Intercept(Down, 500, 300);
    assert !taken;
    taken := view.Intercept(Move, 400, 310);
    assert taken;
    var handled := view.Touch(Move, 100, 320);
    assert view.scrollX == 300;
    handled := view.Touch(Up, 100, 320);
    assert view.showViewIndex == 2;
    view.ComputeScroll(200, 700);
    assert view.scrollX == 700;
    view.ComputeScroll(1000, 1080);
    assert view.scrollX == 1080;
  }

  /** A press in the middle of a settle animation stops it where it is, and
      later frames leave the content there. */
  method PressStopsSettle()
  {
    var view := new HorizontalScrollView(1080, []);
    var taken := view.Intercept(Down, 500, 300);
    taken := view.Intercept(Move, 400, 300);
    var handled := view.Touch(Move, 100, 300);
    handled := view.Touch(Up, 100, 300);
    view.ComputeScroll(400, 800);
    taken := view.Intercept(Down, 100, 300);
    assert taken && view.scrollX == 800;
    view.ComputeScroll(1000, view.scroller.FinalX());
    assert view.scrollX == 800;
  }
}
