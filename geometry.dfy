/** Axis-aligned rectangles, with the two tests the game asks of pygame.Rect.
    Both tests are ASSUMPTIONS about pygame, stated on exact reals:
    - colliderect: the open interiors intersect, so rectangles that only touch do not collide;
    - collidepoint: the left and top edges are inside, the right and bottom edges are not.
    Every rectangle the game builds has positive width and height. */
module Geometry {
  datatype Rect = Rect(left: real, top: real, width: real, height: real) {
    function Right(): real { left + width }
    function Bottom(): real { top + height }
  }

  /** pygame's Rect.colliderect: overlap on both axes, strictly. Two rectangles of positive
      size that overlap share a point by collidepoint: the corner where both begin. */
  predicate Overlaps(a: Rect, b: Rect)
    ensures Overlaps(a, b) && 0.0 < a.width && 0.0 < a.height && 0.0 < b.width && 0.0 < b.height ==>
      var x := if a.left < b.left then b.left else a.left;
      var y := if a.top < b.top then b.top else a.top;
      ContainsPoint(a, x, y) && ContainsPoint(b, x, y)
  {
    a.left < b.Right() && b.left < a.Right() && a.top < b.Bottom() && b.top < a.Bottom()
  }

  /** pygame's Rect.collidepoint. A rectangle without area contains no point. */
  predicate ContainsPoint(r: Rect, px: real, py: real)
    ensures ContainsPoint(r, px, py) ==> 0.0 < r.width && 0.0 < r.height
  {
    r.left <= px < r.Right() && r.top <= py < r.Bottom()
  }

  /** `inner` lies entirely inside `outer` (edges may coincide). */
  predicate Within(inner: Rect, outer: Rect) {
    outer.left <= inner.left && inner.Right() <= outer.Right() &&
    outer.top <= inner.top && inner.Bottom() <= outer.Bottom()
  }

  /** Two rectangles from disjoint vertical or horizontal bands do not overlap;
      and conversely rectangles that do not overlap are so separated. */
  predicate Separated(a: Rect, b: Rect) {
    a.Right() <= b.left || b.Right() <= a.left || a.Bottom() <= b.top || b.Bottom() <= a.top
  }

  lemma OverlapsSymmetric(a: Rect, b: Rect)
    ensures Overlaps(a, b) <==> Overlaps(b, a)
  {
  }

  lemma OverlapsIffNotSeparated(a: Rect, b: Rect)
    ensures Overlaps(a, b) <==> !Separated(a, b)
  {
  }

  /** Overlapping a part means overlapping the whole. */
  lemma OverlapsEnclosing(a: Rect, part: Rect, whole: Rect)
    requires Within(part, whole)
    requires Overlaps(a, part)
    ensures Overlaps(a, whole)
  {
  }
}
