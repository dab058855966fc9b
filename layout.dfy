/** The children of the pager as the layout pass sees them, and the
    specification of its two size computations: the left-to-right placement
    of the children and the measured size of the pager itself. */
module Layout {

  datatype Option<T> = None | Some(value: T)

  /** A child's visibility; an invisible child still takes up space, a gone
      one does not. */
  datatype Visibility = Visible | Invisible | Gone

  /** The rectangle a child was last placed at, in the pager's coordinates. */
  datatype Frame = Frame(left: int, top: int, right: int, bottom: int)

  /** A child with the size its own measurement produced and its frame. */
  datatype Child = Child(measuredWidth: nat, measuredHeight: nat, visibility: Visibility, frame: Frame)

  datatype Size = Size(width: int, height: int)

  /** The mode half of a measure spec. */
  datatype Mode = Unspecified | Exactly | AtMost

  /** A measure spec as mode and size, without the bit packing. */
  datatype MeasureSpec = MeasureSpec(mode: Mode, size: nat)

  predicate Shown(c: Child)
  {
    c.visibility != Gone
  }

  /** Total width of the shown children of `cs`. */
  function VisibleWidth(cs: seq<Child>): nat
  {
    if cs == [] then 0
    else VisibleWidth(cs[..|cs| - 1]) + (if Shown(cs[|cs| - 1]) then cs[|cs| - 1].measuredWidth else 0)
  }

  /** The left edge at which the layout pass places child `i`: the widths of
      the shown children before it, added up. */
  function LeftEdge(cs: seq<Child>, i: nat): nat
    requires i <= |cs|
  {
    VisibleWidth(cs[..i])
  }

  /** Child `c` placed with its left edge at `left`, top-aligned, at its
      measured size. */
  function Placed(c: Child, left: int): (r: Child)
    ensures r.measuredWidth == c.measuredWidth && r.measuredHeight == c.measuredHeight
    ensures r.visibility == c.visibility
    ensures r.frame.right - r.frame.left == c.measuredWidth && r.frame.left == left
    ensures r.frame.bottom - r.frame.top == c.measuredHeight && r.frame.top == 0
  {
    c.(frame := Frame(left, 0, left + c.measuredWidth, c.measuredHeight))
  }

  /** Height of the tallest shown child of `cs`, or 0 when none is shown. */
  function MaxVisibleHeight(cs: seq<Child>): nat
  {
    if cs == [] then 0
    else
      var m := MaxVisibleHeight(cs[..|cs| - 1]);
      var c := cs[|cs| - 1];
      if Shown(c) && c.measuredHeight > m then c.measuredHeight else m
  }

  /** The fold really is a maximum: no shown child is taller, and unless it
      is 0 some shown child is exactly that tall. */
  lemma {:induction false} MaxVisibleHeightIsMax(cs: seq<Child>)
    ensures forall i :: 0 <= i < |cs| && Shown(cs[i]) ==> cs[i].measuredHeight <= MaxVisibleHeight(cs)
    ensures MaxVisibleHeight(cs) == 0 ||
            exists i :: 0 <= i < |cs| && Shown(cs[i]) && cs[i].measuredHeight == MaxVisibleHeight(cs)
  {
    if cs != [] {
      var init := cs[..|cs| - 1];
      MaxVisibleHeightIsMax(init);
      assert forall i :: 0 <= i < |init| ==> init[i] == cs[i];
      if MaxVisibleHeight(cs) != 0 && MaxVisibleHeight(cs) == MaxVisibleHeight(init) {
        var j :| 0 <= j < |init| && Shown(init[j]) && init[j].measuredHeight == MaxVisibleHeight(init);
        assert cs[j] == init[j];
      }
    }
  }

  /** With no shown child there is nothing to be tall. */
  lemma MaxVisibleHeightOfHidden(cs: seq<Child>)
    requires forall i :: 0 <= i < |cs| ==> !Shown(cs[i])
    ensures MaxVisibleHeight(cs) == 0
  {
  }

  /** Passing child `j` moves the left edge on by its width when it is shown
      and leaves it where it is when it is gone. */
  lemma VisibleWidthStep(cs: seq<Child>, j: nat)
    requires j < |cs|
    ensures LeftEdge(cs, j + 1) == LeftEdge(cs, j) + (if Shown(cs[j]) then cs[j].measuredWidth else 0)
  {
    assert cs[..j + 1][..j] == cs[..j];
  }

  /** Every shown child ends where the next shown child starts, provided only
      gone children lie between them: the layout leaves no gaps. */
  lemma {:induction false} ShownChildrenAdjacent(cs: seq<Child>, i: nat, j: nat)
    requires i < j <= |cs| && Shown(cs[i])
    requires forall k :: i < k < j ==> !Shown(cs[k])
    ensures LeftEdge(cs, i) + cs[i].measuredWidth == LeftEdge(cs, j)
  {
    VisibleWidthStep(cs, j - 1);
    if j - 1 > i {
      ShownChildrenAdjacent(cs, i, j - 1);
    }
  }

  /** Shown children never overlap: each one ends at or before the left edge
      of every later child. */
  lemma {:induction false} ShownChildrenDoNotOverlap(cs: seq<Child>, i: nat, j: nat)
    requires i < j <= |cs| && Shown(cs[i])
    ensures LeftEdge(cs, i) + cs[i].measuredWidth <= LeftEdge(cs, j)
  {
    VisibleWidthStep(cs, j - 1);
    if j - 1 > i {
      ShownChildrenDoNotOverlap(cs, i, j - 1);
    }
  }

  /** The first shown child is placed at the pager's left edge. */
  lemma {:induction false} FirstShownChildAtZero(cs: seq<Child>, i: nat)
    requires i <= |cs|
    requires forall k :: 0 <= k < i ==> !Shown(cs[k])
    ensures LeftEdge(cs, i) == 0
  {
    if i > 0 {
      VisibleWidthStep(cs, i - 1);
      FirstShownChildAtZero(cs, i - 1);
    }
  }

  /** When every child is as wide as `w` - the pages of this pager are -
      the shown children together are at most `|cs|` times `w` wide, and
      exactly that wide when none is gone. */
  lemma {:induction false} UniformVisibleWidth(cs: seq<Child>, w: nat)
    requires forall i :: 0 <= i < |cs| ==> cs[i].measuredWidth == w
    ensures VisibleWidth(cs) <= |cs| * w
    ensures (forall i :: 0 <= i < |cs| ==> Shown(cs[i])) ==> VisibleWidth(cs) == |cs| * w
  {
    if cs != [] {
      var init := cs[..|cs| - 1];
      assert forall i :: 0 <= i < |init| ==> init[i] == cs[i];
      UniformVisibleWidth(init, w);
      assert |cs| * w == |init| * w + w;
    }
  }

  /** The wrap-content width: both paddings and the first child's width once
      per child. */
  function WrapWidth(cs: seq<Child>, padLeft: int, padRight: int): int
    requires cs != []
  {
    padLeft + cs[0].measuredWidth * |cs| + padRight
  }

  /** The size the pager records for itself for the given specs, given
      `superSize`, the size the platform's default measurement recorded
      first. */
  function MeasuredDimension(cs: seq<Child>, widthSpec: MeasureSpec, heightSpec: MeasureSpec,
                             padLeft: int, padRight: int, layoutParams: Option<Size>, superSize: Size): Size
  {
    if |cs| == 0 then
      if layoutParams.Some? then Size(layoutParams.value.width, layoutParams.value.height) else Size(0, 0)
    else if heightSpec.mode == AtMost && widthSpec.mode == AtMost then
      Size(WrapWidth(cs, padLeft, padRight), MaxVisibleHeight(cs))
    else if heightSpec.mode == AtMost then
      Size(widthSpec.size, MaxVisibleHeight(cs))
    else if widthSpec.mode == AtMost then
      Size(WrapWidth(cs, padLeft, padRight), heightSpec.size)
    else
      superSize
  }

  /** Without children the pager takes the size of its layout parameters,
      or no size at all when it has none. */
  lemma MeasureWithoutChildren(widthSpec: MeasureSpec, heightSpec: MeasureSpec, padLeft: int, padRight: int,
                               layoutParams: Option<Size>, superSize: Size)
    ensures layoutParams.Some? ==>
      MeasuredDimension([], widthSpec, heightSpec, padLeft, padRight, layoutParams, superSize) == layoutParams.value
    ensures layoutParams.None? ==>
      MeasuredDimension([], widthSpec, heightSpec, padLeft, padRight, layoutParams, superSize) == Size(0, 0)
  {
  }

  /** Under an at-most width the wrap-content width of uniformly wide pages
      holds the paddings and every shown page, and is exactly that when no
      page is gone. */
  lemma {:induction false} MeasuredWidthWrapsPages(cs: seq<Child>, widthSpec: MeasureSpec, heightSpec: MeasureSpec,
                                padLeft: int, padRight: int, layoutParams: Option<Size>, superSize: Size)
    requires cs != [] && widthSpec.mode == AtMost
    requires forall i :: 0 <= i < |cs| ==> cs[i].measuredWidth == cs[0].measuredWidth
    ensures MeasuredDimension(cs, widthSpec, heightSpec, padLeft, padRight, layoutParams, superSize).width
      >= padLeft + VisibleWidth(cs) + padRight
    ensures (forall i :: 0 <= i < |cs| ==> Shown(cs[i])) ==>
      MeasuredDimension(cs, widthSpec, heightSpec, padLeft, padRight, layoutParams, superSize).width
        == padLeft + VisibleWidth(cs) + padRight
  {
    UniformVisibleWidth(cs, cs[0].measuredWidth);
    assert WrapWidth(cs, padLeft, padRight) == padLeft + |cs| * cs[0].measuredWidth + padRight;
  }

  /** When the width spec is not at-most, the width is the spec's own size
      if the height is at-most, and the default measurement stands if
      neither is. */
  lemma MeasuredSizeWithoutWrapWidth(cs: seq<Child>, widthSpec: MeasureSpec, heightSpec: MeasureSpec,
                                     padLeft: int, padRight: int, layoutParams: Option<Size>, superSize: Size)
    requires cs != [] && widthSpec.mode != AtMost
    ensures heightSpec.mode == AtMost ==>
      MeasuredDimension(cs, widthSpec, heightSpec, padLeft, padRight, layoutParams, superSize).width == widthSpec.size
    ensures heightSpec.mode != AtMost ==>
      MeasuredDimension(cs, widthSpec, heightSpec, padLeft, padRight, layoutParams, superSize) == superSize
  {
  }

  /** Under an at-most height the pager is exactly as tall as its tallest
      shown child: every shown child fits, and the height is one of theirs
      (or 0). */
  lemma MeasuredHeightFitsTallest(cs: seq<Child>, widthSpec: MeasureSpec, heightSpec: MeasureSpec,
                                  padLeft: int, padRight: int, layoutParams: Option<Size>, superSize: Size)
    requires cs != [] && heightSpec.mode == AtMost
    ensures forall i :: 0 <= i < |cs| && Shown(cs[i]) ==>
      cs[i].measuredHeight <= MeasuredDimension(cs, widthSpec, heightSpec, padLeft, padRight, layoutParams, superSize).height
    ensures var h := MeasuredDimension(cs, widthSpec, heightSpec, padLeft, padRight, layoutParams, superSize).height;
      h == 0 || exists i :: 0 <= i < |cs| && Shown(cs[i]) && cs[i].measuredHeight == h
  {
    MaxVisibleHeightIsMax(cs);
  }
}
