/** The scroll handler's geometry, shared by both hooks: the document height is
    the largest of six DOM measurements, and the page counts as scrolled to the
    bottom when the viewport's lower edge is within a configured distance of it.
    All measurements are integers (fractional `pageYOffset` is not modelled). */
module ScrollTrigger {

  /** What `handleInfiniteScroll` reads from `document` and `window`. */
  datatype ScrollMetrics = ScrollMetrics(
    bodyScrollHeight: int,
    rootScrollHeight: int,
    bodyOffsetHeight: int,
    rootOffsetHeight: int,
    bodyClientHeight: int,
    rootClientHeight: int,
    pageYOffset: int)

  /** The six heights handed to `Math.max`, in the source's order. */
  function Heights(m: ScrollMetrics): seq<int> {
    [m.bodyScrollHeight, m.rootScrollHeight,
     m.bodyOffsetHeight, m.rootOffsetHeight,
     m.bodyClientHeight, m.rootClientHeight]
  }

  /** `Math.max` over a non-empty list: one of the arguments, and no smaller than any. */
  function MaxOf(s: seq<int>): (r: int)
    requires |s| > 0
    ensures r in s
    ensures forall i :: 0 <= i < |s| ==> s[i] <= r
  {
    if |s| == 1 then s[0]
    else
      var rest := MaxOf(s[1..]);
      if s[0] >= rest then s[0] else rest
  }

  /** Height of the whole document regardless of browser. */
  function ScrollHeight(m: ScrollMetrics): (h: int)
    ensures h in Heights(m)
    ensures forall i :: 0 <= i < |Heights(m)| ==> Heights(m)[i] <= h
  {
    MaxOf(Heights(m))
  }

  /** The bottom-distance test: the viewport's lower edge
      (`rootClientHeight + pageYOffset`) has come within `distance` of the
      document height. Equivalently, it is within `distance` of EVERY one of
      the six measurements, whichever of them the browser reports as largest. */
  function ReachedBottom(m: ScrollMetrics, distance: int): (r: bool)
    ensures r <==> forall i :: 0 <= i < |Heights(m)| ==>
                     Heights(m)[i] - (m.rootClientHeight + m.pageYOffset) <= distance
  {
    m.rootClientHeight + m.pageYOffset >= ScrollHeight(m) - distance
  }

  /** The whole trigger condition of `handleInfiniteScroll`. */
  function ShouldFetch(hasNextPage: bool, fetchingNextPage: bool, m: ScrollMetrics, distance: int): (r: bool)
    ensures !hasNextPage ==> !r
    ensures fetchingNextPage ==> !r
    ensures hasNextPage && !fetchingNextPage ==> (r <==> ReachedBottom(m, distance))
  {
    hasNextPage && !fetchingNextPage && ReachedBottom(m, distance)
  }
}
