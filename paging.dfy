/** The page geometry of the horizontal pager and its two decisions about the
    scroll offset: where a drag sample moves it, and which page a release
    settles on. Offsets and screen coordinates are unbounded integers. */
module Paging {

  /** The view is written for exactly three side-by-side pages. */
  const PageCount := 3

  /** The page index a new view starts with; its rest offset is 0, the
      offset a new view has, so this is the first page. */
  const InitialPage := 1

  function Abs(n: int): (r: nat)
    ensures r == n || r == -n
  {
    if n < 0 then -n else n
  }

  /** Scroll offset at which page `index` (counted from 1) rests on a screen
      `width` pixels wide. */
  function RestOffset(index: int, width: nat): (r: int)
    ensures index >= 1 ==> r >= 0
  {
    (index - 1) * width
  }

  /** The release threshold, a quarter of the screen width rounded down
      (Java's integer division, which on a non-negative width is floor). */
  function Threshold(width: nat): (r: nat)
    ensures 4 * r <= width < 4 * r + 4
  {
    width / 4
  }

  /** The offset after one drag sample whose horizontal movement is `deltaX`:
      the content follows the finger, but only onto a strictly positive
      offset; a sample that would reach zero or below is ignored. */
  function DragOffset(scrollX: int, deltaX: int): (r: int)
    ensures r == scrollX - deltaX || r == scrollX
    ensures r > 0 || r == scrollX
    ensures scrollX - deltaX > 0 ==> r == scrollX - deltaX
  {
    if scrollX - deltaX > 0 then scrollX - deltaX else scrollX
  }

  /** True when on release the offset lies at least a threshold away from the
      rest offset of the current page. */
  predicate PastThreshold(index: int, scrollX: int, width: nat)
  {
    Abs(scrollX - RestOffset(index, width)) >= Threshold(width)
  }

  /** True when the offset lies to the right of the current page's rest
      offset and there is a page to the right to go to. */
  predicate StepsForward(index: int, scrollX: int, width: nat)
  {
    index < PageCount && scrollX > RestOffset(index, width)
  }

  /** The page a release settles on. Below the threshold the page is kept;
      at or past it the page moves one step, forward when the offset lies to
      the right and a next page exists, and back in EVERY other case - also
      on the last page when the offset overshoots to the right. */
  function ReleaseIndex(index: int, scrollX: int, width: nat): (r: int)
    ensures r == index <==> !PastThreshold(index, scrollX, width)
    ensures r == index + 1 <==> PastThreshold(index, scrollX, width) && StepsForward(index, scrollX, width)
    ensures r == index - 1 <==> PastThreshold(index, scrollX, width) && !StepsForward(index, scrollX, width)
  {
    var subScrollX := scrollX - RestOffset(index, width);
    if Abs(subScrollX) >= Threshold(width) then
      if index < PageCount && scrollX > RestOffset(index, width) then index + 1 else index - 1
    else
      index
  }

  /** On a screen at least four pixels wide, a release from a page at a
      non-negative offset lands on one of the three pages again. */
  lemma ReleaseStaysOnPages(index: int, scrollX: int, width: nat)
    requires 1 <= index <= PageCount && scrollX >= 0 && width >= 4
    ensures 1 <= ReleaseIndex(index, scrollX, width) <= PageCount
  {
  }

  /** The source's asymmetry: on the last page, dragging a threshold or more
      past its rest offset to the right settles on the page before it, not on
      the last page. */
  lemma OvershootAtLastPage(scrollX: int, width: nat)
    requires scrollX >= RestOffset(PageCount, width) + Threshold(width)
    ensures ReleaseIndex(PageCount, scrollX, width) == PageCount - 1
  {
  }

  /** The release rule steps one page whatever the drag distance: a release
      from the first page at any offset of at least the threshold - also at
      or beyond the third page's rest offset - settles on the second page. */
  lemma ReleaseStepsOnePageOnly(scrollX: int, width: nat)
    requires width >= 4 && scrollX >= Threshold(width)
    ensures ReleaseIndex(1, scrollX, width) == 2
  {
  }

  /** On a screen narrower than four pixels the threshold is 0, so a release
      exactly at the rest offset of any page moves one page back; from the
      first page that leaves the three pages. */
  lemma NarrowScreenLeavesPages(index: int, width: nat)
    requires width < 4
    ensures ReleaseIndex(index, RestOffset(index, width), width) == index - 1
  {
  }

  /** A drag never takes a positive offset to zero or below. */
  lemma DragKeepsOffsetPositive(scrollX: int, deltaX: int)
    requires scrollX > 0
    ensures DragOffset(scrollX, deltaX) > 0
  {
  }
}
