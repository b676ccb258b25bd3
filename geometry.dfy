/** Axis-aligned integer rectangles and the overlap test the game uses for
    every collision (pygame's `Rect.colliderect`). */
module Geometry {

  /** A rectangle given by its top-left corner and its (possibly negative) size. */
  datatype Rect = Rect(x: int, y: int, w: int, h: int) {
    function Left(): int { if w < 0 then x + w else x }
    function Right(): int { if w < 0 then x else x + w }
    function Top(): int { if h < 0 then y + h else y }
    function Bottom(): int { if h < 0 then y else y + h }

    /** A rectangle of zero width or height covers no area. */
    predicate Empty() { w == 0 || h == 0 }

    /** The unit cell whose top-left corner is (px, py) lies inside the rectangle. */
    predicate HasCell(px: int, py: int) {
      !Empty() && Left() <= px < Right() && Top() <= py < Bottom()
    }
  }

  /** Positive-area overlap: an empty rectangle meets nothing, and rectangles
      that only share an edge do not overlap. Negative sizes are normalised. */
  predicate Overlaps(a: Rect, b: Rect) {
    && !a.Empty() && !b.Empty()
    && a.Left() < b.Right() && b.Left() < a.Right()
    && a.Top() < b.Bottom() && b.Top() < a.Bottom()
  }

  /** Overlap is exactly "some unit cell lies in both rectangles". */
  lemma OverlapsIffCommonCell(a: Rect, b: Rect)
    ensures Overlaps(a, b) <==> exists px, py :: a.HasCell(px, py) && b.HasCell(px, py)
  {
    if Overlaps(a, b) {
      var px := if a.Left() < b.Left() then b.Left() else a.Left();
      var py := if a.Top() < b.Top() then b.Top() else a.Top();
      assert a.HasCell(px, py) && b.HasCell(px, py);
    }
  }

  /** Overlap does not depend on the order of the arguments. */
  lemma OverlapsSymmetric(a: Rect, b: Rect)
    ensures Overlaps(a, b) == Overlaps(b, a)
  {
  }

  /** Two rectangles stacked so that one's bottom edge is the other's top edge
      do not collide, whatever their sizes. */
  lemma TouchingEdgesDoNotOverlap(a: Rect, b: Rect)
    requires a.h >= 0 && b.h >= 0 && a.y + a.h == b.y
    ensures !Overlaps(a, b)
  {
  }
}
