/**
 * Where the sidebar and diagonal decorations sit on a US-letter page, in whole
 * tenths of an inch (every coordinate and margin of these two designs is a
 * multiple of 0.1 inch), with the origin at the bottom-left corner.
 */
module Geometry {

  const PageWidth := 85
  const PageHeight := 110

  datatype Point = Point(x: int, y: int)

  /** A rectangle by its lower-left corner, width and height. */
  datatype Rect = Rect(x: int, y: int, w: int, h: int)

  datatype Margins = Margins(left: int, right: int, top: int, bottom: int)

  /** The sidebar design's accent band: 1.5 inch wide, full page height. */
  const SidebarBand := Rect(0, 0, 15, 110)

  /** The sidebar design's document margins (1.8 inch on the left). */
  const SidebarMargins := Margins(18, 5, 5, 5)

  /** The corners of the diagonal design's banner, in drawing order. */
  const DiagonalBanner: seq<Point> := [Point(0, 110), Point(85, 110), Point(85, 95), Point(0, 100)]

  /** The diagonal design's document margins (1.8 inch at the top). */
  const DiagonalMargins := Margins(6, 6, 18, 5)

  /** The lowest height any of the points reaches. */
  function LowestY(ps: seq<Point>): (m: int)
    requires ps != []
    ensures forall i :: 0 <= i < |ps| ==> m <= ps[i].y
    ensures exists i :: 0 <= i < |ps| && ps[i].y == m
  {
    if |ps| == 1 then ps[0].y
    else
      var rest := LowestY(ps[1..]);
      assert forall i :: 1 <= i < |ps| ==> ps[i] == ps[1..][i - 1];
      if ps[0].y <= rest then ps[0].y else rest
  }

  /** The text frame's edges: what the margins leave of the page. */
  function TextLeft(m: Margins): int { m.left }
  function TextTop(m: Margins): int { PageHeight - m.top }

  /** The sidebar band spans the whole page height and ends before the text frame begins. */
  lemma SidebarBandInMargin()
    ensures SidebarBand.x == 0 && SidebarBand.y == 0 && SidebarBand.h == PageHeight
    ensures SidebarBand.x + SidebarBand.w <= TextLeft(SidebarMargins)
    ensures TextLeft(SidebarMargins) - (SidebarBand.x + SidebarBand.w) == 3
  {
  }

  /**
   * The banner reaches down to 1.5 inch below the top edge at its lowest, which
   * is above the top of the text frame: the banner stays within the top margin.
   */
  lemma DiagonalBannerInMargin()
    ensures LowestY(DiagonalBanner) == PageHeight - 15
    ensures LowestY(DiagonalBanner) >= TextTop(DiagonalMargins)
    ensures forall i :: 0 <= i < |DiagonalBanner| ==> 0 <= DiagonalBanner[i].x <= PageWidth
  {
    var m := LowestY(DiagonalBanner);
    assert m <= DiagonalBanner[2].y;
    assert m >= 95 by {
      var i :| 0 <= i < |DiagonalBanner| && DiagonalBanner[i].y == m;
    }
  }
}
