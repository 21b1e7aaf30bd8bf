/** Axis-aligned boxes and the one intersection test every collision rule of the game uses. */
module Geometry {

  /** A box given by its top-left corner and its size; y grows downward, as on the canvas. */
  datatype Box = Box(x: int, y: int, width: int, height: int)

  /** The overlap test `isColliding`: strict inequality on each of the four sides. Boxes collide
      only when, on each axis, their sizes add up to more than 0. */
  predicate Colliding(a: Box, b: Box)
    ensures Colliding(a, b) ==> a.width + b.width > 0 && a.height + b.height > 0
  {
    a.x < b.x + b.width && a.x + a.width > b.x &&
    a.y < b.y + b.height && a.y + a.height > b.y
  }

  /** The unit cell whose top-left corner is (px, py) lies inside `a`. */
  predicate CoversCell(a: Box, px: int, py: int)
  {
    a.x <= px < a.x + a.width && a.y <= py < a.y + a.height
  }

  /** The test does not depend on the order of its arguments. */
  lemma CollidingSymmetric(a: Box, b: Box)
    ensures Colliding(a, b) <==> Colliding(b, a)
  {
  }

  /** Boxes that only touch along an edge do not collide. */
  lemma TouchingIsNotColliding(a: Box, b: Box)
    requires a.x + a.width == b.x || b.x + b.width == a.x ||
             a.y + a.height == b.y || b.y + b.height == a.y
    ensures !Colliding(a, b)
  {
  }

  /** For boxes of positive size, colliding means sharing at least one unit cell:
      the strict test is exactly "the interiors intersect". */
  lemma CollidingIffSharedCell(a: Box, b: Box)
    requires a.width > 0 && a.height > 0 && b.width > 0 && b.height > 0
    ensures Colliding(a, b) <==> exists px, py :: CoversCell(a, px, py) && CoversCell(b, px, py)
  {
    if Colliding(a, b) {
      var px := if a.x < b.x then b.x else a.x;
      var py := if a.y < b.y then b.y else a.y;
      assert CoversCell(a, px, py) && CoversCell(b, px, py);
    }
  }
}
