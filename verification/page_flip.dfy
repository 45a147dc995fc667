/**
 * The page-flip controller of the in-game notebook (Assets/PageController.cs).
 *
 * Each page is a transform with, possibly, a Hotspot child and a Canvas child.
 * The controller keeps the index of the current page; swiping right or left
 * moves it by one within the pages, re-orders the canvases around the page
 * being flipped and switches on the hotspots of the current page and the page
 * before it. Here the pages become two arrays (the hotspot's active flag and
 * the canvas's sorting order) and a fixed sequence saying which pages have a
 * hotspot at all.
 */
module PageFlip {

  /** One flip animation: the page that is moved and the x position it slides to. */
  datatype Tween = Tween(page: int, endX: real)

  /** Where a page slides to when flipped forward, and back. */
  const NextEndX: real := -0.142
  const PreviousEndX: real := 0.1429

  /** Everything the controller changes, as plain values. */
  datatype Pages = Pages(current: int, active: seq<bool>, order: seq<int>, tweens: seq<Tween>)

  /** The page arrays agree with the page count and the current page is one of them. */
  predicate WellFormed(has: seq<bool>, p: Pages)
  {
    |p.active| == |has| && |p.order| == |has| && 0 <= p.current < |has|
  }

  function Distance(i: int, j: int): nat
  {
    if i < j then j - i else i - j
  }

  /**
   * The hotspot flags after the hotspot rule has been applied for page
   * `current`: a page that has a hotspot is switched on exactly when it lies
   * between `current - 1` and `current`; a page without one keeps its flag.
   */
  function HotspotsAfter(has: seq<bool>, active: seq<bool>, current: int): (r: seq<bool>)
    requires |active| == |has|
    ensures |r| == |has|
  {
    seq(|has|, i requires 0 <= i < |has| => if has[i] then current - 1 <= i <= current else active[i])
  }

  /**
   * The canvas sorting orders after focusing on page `focus`: a page at
   * distance d <= 2 from it gets 2 - d, every other page keeps its order.
   */
  function FocusedOrder(order: seq<int>, focus: int): (r: seq<int>)
    ensures |r| == |order|
  {
    seq(|order|, i requires 0 <= i < |order| =>
      if Distance(i, focus) <= 2 then 2 - Distance(i, focus) else order[i])
  }

  /**
   * A right swipe: below the last page the current page is focused and
   * animated, then the index moves up by one; the hotspot rule is applied in
   * every case, at the last page too.
   */
  function SwipeNext(has: seq<bool>, p: Pages): (r: Pages)
    requires WellFormed(has, p)
    ensures WellFormed(has, r)
  {
    if p.current < |has| - 1 then
      var next := p.current + 1;
      Pages(next, HotspotsAfter(has, p.active, next), FocusedOrder(p.order, p.current),
            p.tweens + [Tween(p.current, NextEndX)])
    else
      p.(active := HotspotsAfter(has, p.active, p.current))
  }

  /**
   * A left swipe: above the first page the index moves down by one, then the
   * new current page is focused and animated; the hotspot rule is applied in
   * every case, at the first page too.
   */
  function SwipePrevious(has: seq<bool>, p: Pages): (r: Pages)
    requires WellFormed(has, p)
    ensures WellFormed(has, r)
  {
    if p.current > 0 then
      var previous := p.current - 1;
      Pages(previous, HotspotsAfter(has, p.active, previous), FocusedOrder(p.order, previous),
            p.tweens + [Tween(previous, PreviousEndX)])
    else
      p.(active := HotspotsAfter(has, p.active, p.current))
  }

  /** The number of pages below `k` whose hotspot exists and is active. */
  function CountActive(has: seq<bool>, active: seq<bool>, k: nat): nat
    requires |active| == |has| && k <= |has|
  {
    if k == 0 then 0
    else CountActive(has, active, k - 1) + (if has[k - 1] && active[k - 1] then 1 else 0)
  }

  // ---------------------------------------------------------------------------
  // Properties of the swipes

  /** A right swipe moves the index up by exactly one below the last page, and keeps it otherwise. */
  lemma SwipeNextIndex(has: seq<bool>, p: Pages)
    requires WellFormed(has, p)
    ensures SwipeNext(has, p).current == if p.current < |has| - 1 then p.current + 1 else p.current
  {
  }

  /** A left swipe moves the index down by exactly one above the first page, and keeps it otherwise. */
  lemma SwipePreviousIndex(has: seq<bool>, p: Pages)
    requires WellFormed(has, p)
    ensures SwipePrevious(has, p).current == if p.current > 0 then p.current - 1 else p.current
  {
  }

  /**
   * After either swipe, at a boundary or not, a page that has a hotspot is
   * active if and only if it is the current page or the one before it; a page
   * without a hotspot keeps its flag.
   */
  lemma SwipeHotspots(has: seq<bool>, p: Pages, i: int)
    requires WellFormed(has, p) && 0 <= i < |has|
    ensures var q := SwipeNext(has, p);
      (has[i] ==> (q.active[i] <==> i == q.current || i == q.current - 1)) &&
      (!has[i] ==> q.active[i] == p.active[i])
    ensures var q := SwipePrevious(has, p);
      (has[i] ==> (q.active[i] <==> i == q.current || i == q.current - 1)) &&
      (!has[i] ==> q.active[i] == p.active[i])
  {
  }

  /**
   * Focusing gives the focused page 2, its neighbours 1, the pages two away 0,
   * and leaves every other page's order alone.
   */
  lemma FocusedOrderAt(order: seq<int>, focus: int, i: int)
    requires 0 <= i < |order|
    ensures i == focus ==> FocusedOrder(order, focus)[i] == 2
    ensures i == focus - 1 || i == focus + 1 ==> FocusedOrder(order, focus)[i] == 1
    ensures i == focus - 2 || i == focus + 2 ==> FocusedOrder(order, focus)[i] == 0
    ensures i < focus - 2 || i > focus + 2 ==> FocusedOrder(order, focus)[i] == order[i]
  {
  }

  /**
   * A swipe that moves animates exactly one page and that page is the one
   * brought to the front: the page before the increment for a right swipe,
   * the page after the decrement for a left swipe. A swipe that does not move
   * leaves the orders and the animations as they were.
   */
  lemma AnimatedPageIsFocused(has: seq<bool>, p: Pages)
    requires WellFormed(has, p)
    ensures var q := SwipeNext(has, p);
      if p.current < |has| - 1 then
        q.tweens == p.tweens + [Tween(q.current - 1, NextEndX)] && q.order[q.current - 1] == 2
      else
        q.tweens == p.tweens && q.order == p.order
    ensures var q := SwipePrevious(has, p);
      if p.current > 0 then
        q.tweens == p.tweens + [Tween(q.current, PreviousEndX)] && q.order[q.current] == 2
      else
        q.tweens == p.tweens && q.order == p.order
  {
  }

  /** Applying the hotspot rule twice is the same as applying the second one alone. */
  lemma HotspotsAfterOverrides(has: seq<bool>, active: seq<bool>, first: int, second: int)
    requires |active| == |has|
    ensures HotspotsAfter(has, HotspotsAfter(has, active, first), second) == HotspotsAfter(has, active, second)
  {
  }

  /** Focusing on the same page twice changes nothing more. */
  lemma FocusedOrderIdempotent(order: seq<int>, focus: int)
    ensures FocusedOrder(FocusedOrder(order, focus), focus) == FocusedOrder(order, focus)
  {
  }

  /**
   * From any page but the last, a right swipe followed by a left swipe comes
   * back to the same page, with the hotspot rule and the focus applied for
   * that page and both flips recorded.
   */
  lemma NextThenPrevious(has: seq<bool>, p: Pages)
    requires WellFormed(has, p) && p.current < |has| - 1
    ensures SwipePrevious(has, SwipeNext(has, p)) ==
      Pages(p.current, HotspotsAfter(has, p.active, p.current), FocusedOrder(p.order, p.current),
            p.tweens + [Tween(p.current, NextEndX), Tween(p.current, PreviousEndX)])
  {
    HotspotsAfterOverrides(has, p.active, p.current + 1, p.current);
    FocusedOrderIdempotent(p.order, p.current);
  }

  /**
   * Counting the pages below `k` whose hotspot is on after the hotspot rule:
   * only `current` and `current - 1` can contribute.
   */
  lemma {:induction false} ActiveHotspotCount(has: seq<bool>, active: seq<bool>, current: int, k: nat)
    requires |active| == |has| && 0 <= current < |has| && k <= |has|
    ensures CountActive(has, HotspotsAfter(has, active, current), k) ==
      (if current < k && has[current] then 1 else 0) +
      (if 0 < current && current - 1 < k && has[current - 1] then 1 else 0)
  {
    if k > 0 {
      ActiveHotspotCount(has, active, current, k - 1);
    }
  }

  /** After any swipe at most two hotspots are active: those of the current page and the page before it. */
  lemma AtMostTwoActiveHotspots(has: seq<bool>, p: Pages)
    requires WellFormed(has, p)
    ensures CountActive(has, SwipeNext(has, p).active, |has|) <= 2
    ensures CountActive(has, SwipePrevious(has, p).active, |has|) <= 2
  {
    ActiveHotspotCount(has, p.active, SwipeNext(has, p).current, |has|);
    ActiveHotspotCount(has, p.active, SwipePrevious(has, p).current, |has|);
  }

  // ---------------------------------------------------------------------------
  // The controller itself

  class PageController {
    /** Which pages have a Hotspot child; the children never change. */
    const hasHotspot: seq<bool>
    /** The active flag of each page's hotspot (meaningless where there is none). */
    const hotspotActive: array<bool>
    /** The sorting order of each page's canvas. */
    const sortingOrder: array<int>
    var currentPage: int
    var numOfPages: int
    /** The flip animations started so far, oldest first. */
    var tweens: seq<Tween>

    ghost predicate Valid()
      reads this
    {
      numOfPages == |hasHotspot| == hotspotActive.Length == sortingOrder.Length &&
      0 <= currentPage && (currentPage < numOfPages || currentPage == 0)
    }

    ghost function State(): Pages
      reads this, hotspotActive, sortingOrder
    {
      Pages(currentPage, hotspotActive[..], sortingOrder[..], tweens)
    }

    /** The controller as Start leaves it: on the first page, counting the pages it was given. */
    constructor (hasHotspot: seq<bool>, active: seq<bool>, order: seq<int>)
      requires |active| == |hasHotspot| && |order| == |hasHotspot|
      ensures Valid() && fresh(hotspotActive) && fresh(sortingOrder)
      ensures this.hasHotspot == hasHotspot && numOfPages == |hasHotspot|
      ensures State() == Pages(0, active, order, [])
    {
      this.hasHotspot := hasHotspot;
      hotspotActive := new bool[|active|](i requires 0 <= i < |active| => active[i]);
      sortingOrder := new int[|order|](i requires 0 <= i < |order| => order[i]);
      currentPage := 0;
      numOfPages := |hasHotspot|;
      tweens := [];
    }

    method SwipeToNextPage()
      requires Valid() && numOfPages >= 1
      modifies this, hotspotActive, sortingOrder
      ensures Valid() && numOfPages == old(numOfPages)
      ensures currentPage == if old(currentPage) < numOfPages - 1 then old(currentPage) + 1 else old(currentPage)
      ensures State() == SwipeNext(hasHotspot, old(State()))
    {
      if currentPage < numOfPages - 1 {
        FocusOnPage();
        SwipePageAnimation(currentPage, NextEndX);
        currentPage := currentPage + 1;
      }
      SetPagesHotspot();
    }

    method SwipeToPreviousPage()
      requires Valid() && numOfPages >= 1
      modifies this, hotspotActive, sortingOrder
      ensures Valid() && numOfPages == old(numOfPages)
      ensures currentPage == if old(currentPage) > 0 then old(currentPage) - 1 else old(currentPage)
      ensures State() == SwipePrevious(hasHotspot, old(State()))
    {
      if currentPage > 0 {
        currentPage := currentPage - 1;
        FocusOnPage();
        SwipePageAnimation(currentPage, PreviousEndX);
      }
      SetPagesHotspot();
    }

    /** Switches every hotspot off, then those of the current page and the page before it on. */
    method SetPagesHotspot()
      requires Valid() && currentPage < numOfPages
      modifies hotspotActive
      ensures hotspotActive[..] == HotspotsAfter(hasHotspot, old(hotspotActive[..]), currentPage)
    {
      for i := 0 to hotspotActive.Length
        invariant forall j :: 0 <= j < i ==> hotspotActive[j] == (!hasHotspot[j] && old(hotspotActive[j]))
        invariant forall j :: i <= j < hotspotActive.Length ==> hotspotActive[j] == old(hotspotActive[j])
      {
        SetHotspotIfNotAbsent(i, false);
      }
      SetHotspotIfNotAbsent(currentPage, true);
      if currentPage > 0 {
        SetHotspotIfNotAbsent(currentPage - 1, true);
      }
    }

    /** Sets the active flag of a page's hotspot, if the page has one. */
    method SetHotspotIfNotAbsent(pageIndex: int, value: bool)
      requires Valid() && 0 <= pageIndex < numOfPages
      modifies hotspotActive
      ensures hotspotActive[..] ==
        if hasHotspot[pageIndex] then old(hotspotActive[..])[pageIndex := value] else old(hotspotActive[..])
    {
      if hasHotspot[pageIndex] {
        hotspotActive[pageIndex] := value;
      }
    }

    /** Brings the current page's canvas to the front and ranks its neighbours behind it. */
    method FocusOnPage()
      requires Valid() && currentPage < numOfPages
      modifies sortingOrder
      ensures sortingOrder[..] == FocusedOrder(old(sortingOrder[..]), currentPage)
    {
      if currentPage > 0 {
        sortingOrder[currentPage - 1] := 1;
        if currentPage > 1 {
          sortingOrder[currentPage - 2] := 0;
        }
      }
      if currentPage < numOfPages - 1 {
        sortingOrder[currentPage + 1] := 1;
        if currentPage < numOfPages - 2 {
          sortingOrder[currentPage + 2] := 0;
        }
      }
      sortingOrder[currentPage] := 2;
    }

    /** Starts the flip animation of one page; only the request is recorded. */
    method SwipePageAnimation(pageIndex: int, endValueX: real)
      requires Valid() && 0 <= pageIndex < numOfPages
      modifies this`tweens
      ensures tweens == old(tweens) + [Tween(pageIndex, endValueX)]
    {
      tweens := tweens + [Tween(pageIndex, endValueX)];
    }
  }
}
