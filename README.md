# HorizontalScrollView: a verified model of a three-page horizontal pager

The repository's one piece of logic is `HorizontalScrollView`, an Android
`ViewGroup`. It shows its children side by side as three screen-wide pages and
settles the gesture conflict between itself and its children by
"external interception". This project models it in Dafny as a class with the
view's own fields:

- `lastX` and `lastY` hold the last touch sample.
- `showViewIndex` is the page index.
- `scrollX` is the scroll offset.
- `childCount` is the child count recorded by the last measurement.
- `critical` is the quarter-width threshold.
- `scroller` is the settle animator.

There is one method per callback:

- `Intercept` models `onInterceptTouchEvent`.
- `Touch` models `onTouchEvent`.
- `ComputeScroll` models `computeScroll`.
- `OnMeasure`, `GetChildMaxHeight` and `OnLayout` model the measure and layout passes.

The platform `Scroller` is a small class of its own (`Scrolling.Scroller`). It
has a finished flag, a start offset, a distance, a duration and a current
position. Completing an animation sets the position to start plus distance.

Files:

- `paging.dfy` (module `Paging`): the page geometry, the drag rule and the release rule, as functions, with lemmas about them.
- `scroller.dfy` (module `Scrolling`): the abstract scroller.
- `layout.dfy` (module `Layout`): children, frames and measure specs. It also holds the specification functions of the layout and measure passes, with lemmas.
- `view.dfy` (module `ScrollView`): the view class and two client scenarios (`SwipeToSecondPage`, `PressStopsSettle`).

The class invariant `Valid()` says:

- the threshold is `W/4`;
- the recorded child count never exceeds the number of children;
- a running settle animation ends exactly at the current page's rest offset `(showViewIndex-1)*W`;
- on any screen at least 4 pixels wide, `Paged()` holds.

`Paged()` says:

- the page index is 1, 2 or 3;
- the offset is never negative;
- a running settle animation starts at a non-negative offset.

Every callback preserves `Valid()`. Because the running animation always
targets the current page, `ComputeScroll` proves that a completed animation
leaves the content at the rest offset of the current page.

Behaviours of the code worth knowing:

- On release the page index is not saturated at the last page. Once the threshold is met, the code decrements whenever the step-forward guard fails. On page 3, an overshoot to the right settles on page 2 (`Paging.OvershootAtLastPage`).
- A release steps at most one page, however far the drag went. On a screen at least 4 pixels wide, a release from page 1 at any offset of at least the threshold settles on page 2, even one at or beyond page 3's rest offset (`Paging.ReleaseStepsOnePageOnly`).
- The page index starts at 1, the page whose rest offset is 0.
- The page-range part of the invariant needs a screen at least 4 pixels wide. Below that, `W/4` is 0, and a release exactly at a page's rest offset moves one page back; from page 1 that is page 0 (`Paging.NarrowScreenLeavesPages`).

## Model

| member | source | states |
|---|---|---|
| `ScrollView.HorizontalScrollView.constructor` | app/src/main/java/com/yishu/scrollview/HorizontalScrollView.java:50-57 | The threshold is `W/4`, the page index is 1, no animation runs, and the invariant holds. |
| `ScrollView.HorizontalScrollView.Intercept` | app/src/main/java/com/yishu/scrollview/HorizontalScrollView.java:69-102 | Intercepts iff (DOWN and an animation was running) or (MOVE and `abs(x-lastX) > abs(y-lastY)`), so never on UP and not on equal deltas. A DOWN stops the animation without moving the content. The last sample becomes `(x, y)`, and the invariant is preserved. |
| `ScrollView.HorizontalScrollView.Touch` | app/src/main/java/com/yishu/scrollview/HorizontalScrollView.java:191-234 | Always returns true, and the last sample becomes `(x, y)`. DOWN stops a running animation without moving the content, and the scroller's own position jumps to the end while its start, distance and duration are kept. MOVE sets the offset to `DragOffset(old offset, x-lastX)`. UP sets the index to `ReleaseIndex` and starts a 1000 ms animation from the current offset with `dx = rest(newIndex) - scrollX`, so it ends at the new page's rest offset. The invariant is preserved. |
| `ScrollView.HorizontalScrollView.SmoothScrollByDx` | app/src/main/java/com/yishu/scrollview/HorizontalScrollView.java:242-246 | Starts an animation at the current offset over `dx`, lasting 1000 ms. |
| `ScrollView.HorizontalScrollView.ComputeScroll` | app/src/main/java/com/yishu/scrollview/HorizontalScrollView.java:249-254 | Changes nothing when no animation runs. Otherwise the offset follows the scroller's position. Once the duration has passed, the animation is finished and the offset is the current page's rest offset, on every screen width. |
| `ScrollView.HorizontalScrollView.GetChildMaxHeight` | app/src/main/java/com/yishu/scrollview/HorizontalScrollView.java:162-174 | Returns the maximum height of the shown children among the first `childCount`, or 0 if none is shown. |
| `ScrollView.HorizontalScrollView.OnMeasure` | app/src/main/java/com/yishu/scrollview/HorizontalScrollView.java:111-154 | Records the child count and sets the measured size to `MeasuredDimension` of the children, specs, paddings, layout params and default size. |
| `ScrollView.HorizontalScrollView.OnLayout` | app/src/main/java/com/yishu/scrollview/HorizontalScrollView.java:177-187 | Each shown child among the first `childCount` gets frame `(left, 0, left+width, height)`, where `left` is the sum of the widths of the shown children before it. Gone children and children past the count keep their frames. |
| `Scrolling.Scroller.constructor` | app/src/main/java/com/yishu/scrollview/HorizontalScrollView.java:55 | A new scroller has no animation running (finished), so the first DOWN is not intercepted. |
| `Scrolling.Scroller.StartScroll` | app/src/main/java/com/yishu/scrollview/HorizontalScrollView.java:244 | Marks the animation as running, with the given start, distance and duration. |
| `Scrolling.Scroller.AbortAnimation` | app/src/main/java/com/yishu/scrollview/HorizontalScrollView.java:77-79 | Finishes the animation and jumps the scroller's own position to the end. |
| `Scrolling.Scroller.ComputeScrollOffset` | app/src/main/java/com/yishu/scrollview/HorizontalScrollView.java:250-251 | Returns whether an animation was running. A running one either sits at the interpolated position or, once its duration has passed, finishes at start plus distance. |
| `Paging.DragOffset` | app/src/main/java/com/yishu/scrollview/HorizontalScrollView.java:201-212 | The offset moves to `scrollX - deltaX` exactly when that is positive, and stays put otherwise. |
| `Paging.DragKeepsOffsetPositive` | app/src/main/java/com/yishu/scrollview/HorizontalScrollView.java:206-207 | A drag never takes a positive offset to zero or below. |
| `Paging.Threshold` | app/src/main/java/com/yishu/scrollview/HorizontalScrollView.java:54 | The threshold is the quarter width rounded down: `4t <= W < 4t+4`. |
| `Paging.RestOffset` | app/src/main/java/com/yishu/scrollview/HorizontalScrollView.java:218 | The rest offset of any page from 1 on is non-negative. |
| `Paging.ReleaseIndex` | app/src/main/java/com/yishu/scrollview/HorizontalScrollView.java:215-226 | The index is kept iff `abs(scrollX - rest) < W/4`. It becomes `idx+1` iff the threshold is met and `idx < 3 && scrollX > rest`. It becomes `idx-1` iff the threshold is met and that guard fails. |
| `Paging.ReleaseStaysOnPages` | app/src/main/java/com/yishu/scrollview/HorizontalScrollView.java:218-226 | For `W >= 4`, a release from pages 1..3 at a non-negative offset lands on pages 1..3. |
| `Paging.OvershootAtLastPage` | app/src/main/java/com/yishu/scrollview/HorizontalScrollView.java:221-225 | On page 3, an overshoot to the right of at least the threshold settles on page 2. |
| `Paging.ReleaseStepsOnePageOnly` | app/src/main/java/com/yishu/scrollview/HorizontalScrollView.java:219-226 | For `W >= 4`, a release from page 1 at any offset of at least `W/4`, however large, settles on page 2. |
| `Paging.NarrowScreenLeavesPages` | app/src/main/java/com/yishu/scrollview/HorizontalScrollView.java:54 | For `W < 4`, a release from any page exactly at its rest offset goes one page back, so page 1 goes to page 0. |
| `Layout.Placed` | app/src/main/java/com/yishu/scrollview/HorizontalScrollView.java:182-183 | A placed child's frame starts at `left`, has its measured width and height, and is top-aligned. Its sizes and visibility are kept. |
| `Layout.MaxVisibleHeightIsMax` | app/src/main/java/com/yishu/scrollview/HorizontalScrollView.java:162-174 | The max height is at least every shown child's height, and it is either one of those heights or 0. |
| `Layout.MaxVisibleHeightOfHidden` | app/src/main/java/com/yishu/scrollview/HorizontalScrollView.java:163-171 | With no shown child, the max height is 0. |
| `Layout.VisibleWidthStep` | app/src/main/java/com/yishu/scrollview/HorizontalScrollView.java:181-185 | The left edge advances past a child by its width if it is shown, and by 0 if it is gone. |
| `Layout.ShownChildrenAdjacent` | app/src/main/java/com/yishu/scrollview/HorizontalScrollView.java:178-186 | A shown child's right edge is the left edge of the next shown child, with only gone children between them. |
| `Layout.ShownChildrenDoNotOverlap` | app/src/main/java/com/yishu/scrollview/HorizontalScrollView.java:178-186 | A shown child ends at or before the left edge of every later child. |
| `Layout.FirstShownChildAtZero` | app/src/main/java/com/yishu/scrollview/HorizontalScrollView.java:178 | The first shown child is placed at left edge 0. |
| `Layout.UniformVisibleWidth` | app/src/main/java/com/yishu/scrollview/HorizontalScrollView.java:141 | When all children are `w` wide, the shown ones take at most `count*w`, and exactly that if none is gone. |
| `Layout.MeasureWithoutChildren` | app/src/main/java/com/yishu/scrollview/HorizontalScrollView.java:133-139 | With zero children, the measured size is the layout params' size, or (0,0) if there are none. |
| `Layout.MeasuredWidthWrapsPages` | app/src/main/java/com/yishu/scrollview/HorizontalScrollView.java:140-153 | Under an AT_MOST width with uniformly wide pages, the measured width `padL + child0Width*count + padR` holds both paddings and every shown child. It is exactly that when no child is gone. |
| `Layout.MeasuredSizeWithoutWrapWidth` | app/src/main/java/com/yishu/scrollview/HorizontalScrollView.java:112-153 | With children and a non-AT_MOST width: the width is the spec's size when the height is AT_MOST, and the default measurement stands when neither is. |
| `Layout.MeasuredHeightFitsTallest` | app/src/main/java/com/yishu/scrollview/HorizontalScrollView.java:140-148 | Under an AT_MOST height, the measured height fits every shown child and equals the tallest one's height (or 0). |

## Left out

- `MeasureSpec` bit packing: specs are passed as a mode and a size. `super.onMeasure` is not modelled either; its result enters as the parameter `superSize`, which stands when neither spec is AT_MOST. `measureChildren` is foreign and is not modelled: each child's measured size is fixed when the view is built, so a later `OnMeasure` under other specs cannot re-measure a child to a different size.
- The scroller's time-based, floating-point interpolation: the clock enters `ComputeScroll` as `timePassed`, and the interpolated position as `interpolated`. The only constraint on `interpolated` is that it lies between the start and the final offset.
- Reading the screen width from the window manager: the width `W` is a constructor parameter.
- Logging, `invalidate`/`postInvalidate` redraw scheduling, and the vertical scroll offset (always 0 here) are not modelled.
- Java's 32-bit `int` arithmetic: coordinates, offsets and sizes are unbounded integers. Wrap-around can only occur far beyond any screen's coordinates, and so can `Math.abs` of the minimum `int`. The float-to-int cast of event coordinates is left out too: events carry integers.
- Children are values in a sequence held by the view, and `OnLayout` rewrites their frames. Child views as separate objects, and their aliasing, are not modelled. Adding or removing children after construction is not modelled either.
- The platform's event dispatch is not modelled: which events reach `Intercept` and which reach `Touch`, and in what order, is up to the caller. The two scenarios in `view.dfy` each follow one such sequence.
- The activity glue and the screen-width helper are not part of this model.
