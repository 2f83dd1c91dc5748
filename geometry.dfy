/** `Rect` of src/math/Rect.ts: an axis-aligned rectangle and the
    containment test `hitTest`. */
module Geometry {

  datatype Rect = Rect(x: int, y: int, width: int, height: int) {

    /** `clone`: a rectangle with the same four fields.  Dafny values
        have no identity, so "a new object" is only "an equal value". */
    function Clone(): (r: Rect)
      ensures r.x == x && r.y == y && r.width == width && r.height == height
    {
      Rect(x, y, width, height)
    }

    /** Instance `hitTest(other)`: delegates to the static test. */
    predicate HitTest(other: Rect) {
      StaticHitTest(this, other)
    }
  }

  /** Static `hitTest(a, b)`: `a` lies within `b` on both axes. */
  predicate StaticHitTest(a: Rect, b: Rect) {
    && a.x >= b.x
    && a.y >= b.y
    && a.x + a.width <= b.x + b.width
    && a.y + a.height <= b.y + b.height
  }

  /** The pixel (px, py) lies inside `r` (half-open on the far sides). */
  predicate Covers(r: Rect, px: int, py: int) {
    r.x <= px < r.x + r.width && r.y <= py < r.y + r.height
  }

  /** `a` and `b` are separated along one axis, so they share no pixel. */
  predicate Disjoint(a: Rect, b: Rect) {
    || a.x + a.width <= b.x
    || b.x + b.width <= a.x
    || a.y + a.height <= b.y
    || b.y + b.height <= a.y
  }

  /** For a rectangle with at least one pixel, `hitTest` holds exactly when
      every pixel of `a` is a pixel of `b`. */
  lemma HitTestIsPixelInclusion(a: Rect, b: Rect)
    requires a.width >= 1 && a.height >= 1
    ensures StaticHitTest(a, b) <==> forall px, py :: Covers(a, px, py) ==> Covers(b, px, py)
  {
    if forall px, py :: Covers(a, px, py) ==> Covers(b, px, py) {
      assert Covers(a, a.x, a.y);
      assert Covers(a, a.x + a.width - 1, a.y + a.height - 1);
    }
  }

  /** `Disjoint`, the separation stated of the extrusion strips, means
      that no pixel lies in both rectangles. */
  lemma DisjointSharesNoPixel(a: Rect, b: Rect, px: int, py: int)
    requires Disjoint(a, b)
    ensures !(Covers(a, px, py) && Covers(b, px, py))
  {
  }

  lemma HitTestReflexive(a: Rect)
    ensures StaticHitTest(a, a)
  {
  }

  lemma HitTestTransitive(a: Rect, b: Rect, c: Rect)
    requires StaticHitTest(a, b) && StaticHitTest(b, c)
    ensures StaticHitTest(a, c)
  {
  }

  lemma HitTestAntisymmetric(a: Rect, b: Rect)
    requires StaticHitTest(a, b) && StaticHitTest(b, a)
    ensures a == b
  {
  }

  /** A contained rectangle is no wider and no taller than its container. */
  lemma HitTestBoundsSize(a: Rect, b: Rect)
    requires StaticHitTest(a, b)
    ensures a.width <= b.width && a.height <= b.height
  {
  }

  /** The instance test agrees with the static one, and a clone tests the
      same as the original on either side. */
  lemma InstanceAgreesWithStatic(a: Rect, b: Rect)
    ensures a.HitTest(b) == StaticHitTest(a, b)
    ensures a.Clone().HitTest(b) == a.HitTest(b)
    ensures b.HitTest(a.Clone()) == b.HitTest(a)
  {
  }
}
