/** The attachment controller of the wire animation: whether the free ends
    follow the cursor or hang loose, decided once per frame for all wires from
    the scroll position, the cursor's distance to the centroid of the word
    anchors and the viewport width; and the page flags that follow the decision. */
module Attachment {
  import opened Basics

  const SCROLL_DETACH_THRESHOLD: real := 100.0
  const REATTACH_THRESHOLD: real := 300.0
  const MOBILE_MAX_WIDTH: real := 768.0

  function IsMobile(width: real): bool
  {
    width <= MOBILE_MAX_WIDTH
  }

  /** `shouldBeDetached` of a frame: detached once scrolled past 100 unless the
      cursor is within 300 of the anchors' centroid; always detached on a
      mobile-width viewport. */
  function ShouldBeDetached(scrollY: real, distToText: real, width: real): (d: bool)
    ensures d <==> IsMobile(width) || (scrollY > SCROLL_DETACH_THRESHOLD && distToText >= REATTACH_THRESHOLD)
  {
    var byScroll := if scrollY > SCROLL_DETACH_THRESHOLD then !(distToText < REATTACH_THRESHOLD) else false;
    if IsMobile(width) then true else byScroll
  }

  lemma NotScrolledStaysAttached(scrollY: real, distToText: real, width: real)
    requires scrollY <= SCROLL_DETACH_THRESHOLD && !IsMobile(width)
    ensures !ShouldBeDetached(scrollY, distToText, width)
  {
  }

  /** The re-attach zone: near the text the wires attach even while scrolled. */
  lemma ReattachZone(scrollY: real, distToText: real, width: real)
    requires scrollY > SCROLL_DETACH_THRESHOLD && distToText < REATTACH_THRESHOLD && !IsMobile(width)
    ensures !ShouldBeDetached(scrollY, distToText, width)
  {
  }

  lemma ScrolledAndFarDetaches(scrollY: real, distToText: real, width: real)
    requires scrollY > SCROLL_DETACH_THRESHOLD && distToText >= REATTACH_THRESHOLD
    ensures ShouldBeDetached(scrollY, distToText, width)
  {
  }

  lemma MobileAlwaysDetached(scrollY: real, distToText: real, width: real)
    requires IsMobile(width)
    ensures ShouldBeDetached(scrollY, distToText, width)
  {
  }

  /** The state chosen when the wires are created: scrolled past 100 or mobile,
      with no re-attach zone; that is, the per-frame rule with the cursor just
      outside the re-attach distance. */
  function StartsDetached(scrollY: real, width: real): (d: bool)
    ensures d == ShouldBeDetached(scrollY, REATTACH_THRESHOLD, width)
  {
    scrollY > SCROLL_DETACH_THRESHOLD || IsMobile(width)
  }

  /** The creation-time rule and the per-frame rule disagree exactly in the
      re-attach zone: scrolled, not mobile, cursor near the text. There the wires
      start detached and the first frame attaches them. */
  lemma StartVersusFrame(scrollY: real, distToText: real, width: real)
    ensures StartsDetached(scrollY, width) != ShouldBeDetached(scrollY, distToText, width)
        <==> scrollY > SCROLL_DETACH_THRESHOLD && !IsMobile(width) && distToText < REATTACH_THRESHOLD
    ensures !StartsDetached(scrollY, width) ==> !ShouldBeDetached(scrollY, distToText, width)
  {
  }

  /** The controller's state: `isDetached`, the page's 'scrolled' class and the
      visibility of the cursor dot. */
  datatype Flags = Flags(detached: bool, scrolled: bool, cursorDotVisible: bool)

  /** The transition of a frame: on a change of `isDetached`, 'scrolled' and the
      hidden dot follow it; without a change nothing is written. */
  function Transition(f: Flags, shouldBeDetached: bool): (r: Flags)
    ensures r.detached == shouldBeDetached
    ensures r.detached != f.detached ==> r.scrolled == r.detached && r.cursorDotVisible == !r.detached
    ensures r.detached == f.detached ==> r == f
  {
    if shouldBeDetached && !f.detached then Flags(true, true, false)
    else if !shouldBeDetached && f.detached then Flags(false, false, true)
    else f
  }

  /** Repeating a frame's transition with the same decision changes nothing. */
  lemma TransitionIdempotent(f: Flags, shouldBeDetached: bool)
    ensures Transition(Transition(f, shouldBeDetached), shouldBeDetached) == Transition(f, shouldBeDetached)
  {
  }

  /** The page flags agree with `isDetached`. */
  predicate Consistent(f: Flags)
  {
    f.scrolled == f.detached && f.cursorDotVisible == !f.detached
  }

  lemma TransitionKeepsConsistent(f: Flags, shouldBeDetached: bool)
    requires Consistent(f)
    ensures Consistent(Transition(f, shouldBeDetached))
  {
  }

  // ---------------------------------------------------------------------
  // Centroid of the anchors
  // ---------------------------------------------------------------------

  function SumX(anchors: seq<Point>): real
  {
    if |anchors| == 0 then 0.0 else SumX(anchors[..|anchors| - 1]) + anchors[|anchors| - 1].x
  }

  function SumY(anchors: seq<Point>): real
  {
    if |anchors| == 0 then 0.0 else SumY(anchors[..|anchors| - 1]) + anchors[|anchors| - 1].y
  }

  /** The mean of the anchors, or (0, 0) when there are none. */
  function Centroid(anchors: seq<Point>): Point
  {
    if |anchors| == 0 then Point(0.0, 0.0)
    else Point(SumX(anchors) / |anchors| as real, SumY(anchors) / |anchors| as real)
  }

  /** The `avgAnchorX`/`avgAnchorY` loop. */
  method ComputeCentroid(anchors: seq<Point>) returns (c: Point)
    ensures c == Centroid(anchors)
  {
    var avgAnchorX := 0.0;
    var avgAnchorY := 0.0;
    if |anchors| > 0 {
      for i := 0 to |anchors|
        invariant avgAnchorX == SumX(anchors[..i]) && avgAnchorY == SumY(anchors[..i])
      {
        assert anchors[..i + 1][..i] == anchors[..i];
        avgAnchorX := avgAnchorX + anchors[i].x;
        avgAnchorY := avgAnchorY + anchors[i].y;
      }
      assert anchors[..|anchors|] == anchors;
      avgAnchorX := avgAnchorX / |anchors| as real;
      avgAnchorY := avgAnchorY / |anchors| as real;
    }
    c := Point(avgAnchorX, avgAnchorY);
  }

  lemma {:induction false} SumXBounds(anchors: seq<Point>, lo: real, hi: real)
    requires forall i :: 0 <= i < |anchors| ==> lo <= anchors[i].x <= hi
    ensures |anchors| as real * lo <= SumX(anchors) <= |anchors| as real * hi
  {
    if |anchors| > 0 {
      var n := |anchors|;
      SumXBounds(anchors[..n - 1], lo, hi);
      assert (n - 1) as real * lo + lo == n as real * lo;
      assert (n - 1) as real * hi + hi == n as real * hi;
    }
  }

  lemma {:induction false} SumYBounds(anchors: seq<Point>, lo: real, hi: real)
    requires forall i :: 0 <= i < |anchors| ==> lo <= anchors[i].y <= hi
    ensures |anchors| as real * lo <= SumY(anchors) <= |anchors| as real * hi
  {
    if |anchors| > 0 {
      var n := |anchors|;
      SumYBounds(anchors[..n - 1], lo, hi);
      assert (n - 1) as real * lo + lo == n as real * lo;
      assert (n - 1) as real * hi + hi == n as real * hi;
    }
  }

  /** The centroid of a non-empty anchor list lies in any box holding all anchors;
      in particular, anchors that all coincide have that point as centroid. */
  lemma CentroidInBox(anchors: seq<Point>, lo: Point, hi: Point)
    requires |anchors| > 0
    requires forall i :: 0 <= i < |anchors| ==> lo.x <= anchors[i].x <= hi.x && lo.y <= anchors[i].y <= hi.y
    ensures lo.x <= Centroid(anchors).x <= hi.x && lo.y <= Centroid(anchors).y <= hi.y
  {
    CentroidXInRange(anchors, lo.x, hi.x);
    CentroidYInRange(anchors, lo.y, hi.y);
  }

  lemma CentroidXInRange(anchors: seq<Point>, lo: real, hi: real)
    requires |anchors| > 0
    requires forall i :: 0 <= i < |anchors| ==> lo <= anchors[i].x <= hi
    ensures lo <= Centroid(anchors).x <= hi
  {
    SumXBounds(anchors, lo, hi);
    DivideBounds(SumX(anchors), |anchors| as real, lo, hi);
  }

  lemma CentroidYInRange(anchors: seq<Point>, lo: real, hi: real)
    requires |anchors| > 0
    requires forall i :: 0 <= i < |anchors| ==> lo <= anchors[i].y <= hi
    ensures lo <= Centroid(anchors).y <= hi
  {
    SumYBounds(anchors, lo, hi);
    DivideBounds(SumY(anchors), |anchors| as real, lo, hi);
  }

  lemma DivideBounds(sum: real, n: real, lo: real, hi: real)
    requires n > 0.0 && n * lo <= sum <= n * hi
    ensures lo <= sum / n <= hi
  {
    assert sum / n - lo == (sum - n * lo) / n;
    assert hi - sum / n == (n * hi - sum) / n;
  }
}
