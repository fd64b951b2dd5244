/** Axis-aligned boxes and the overlap test every collision in the game uses. */
module Geometry {

  /** A rectangle given by its top-left corner and its extent; y grows downwards, as on a canvas. */
  datatype Box = Box(x: real, y: real, width: real, height: real)

  /** Game.js `collides`: the boxes overlap on both axes, every comparison strict. */
  predicate Collides(a: Box, b: Box)
  {
    a.x < b.x + b.width &&
    a.x + a.width > b.x &&
    a.y < b.y + b.height &&
    a.y + a.height > b.y
  }

  /** The point (px, py) lies strictly inside the box. */
  predicate Inside(b: Box, px: real, py: real)
  {
    b.x < px < b.x + b.width && b.y < py < b.y + b.height
  }

  lemma CollidesSymmetric(a: Box, b: Box)
    ensures Collides(a, b) == Collides(b, a)
  {
  }

  /** Boxes that meet only along an edge do not collide, because every comparison is strict. */
  lemma SharedEdgeIsNotCollision(a: Box, b: Box)
    requires a.x + a.width == b.x || b.x + b.width == a.x || a.y + a.height == b.y || b.y + b.height == a.y
    ensures !Collides(a, b) && !Collides(b, a)
  {
  }

  function Max(u: real, v: real): real { if u < v then v else u }
  function Min(u: real, v: real): real { if u < v then u else v }

  /** For boxes of positive size, `collides` is exactly "the interiors share a point". */
  lemma CollidesIffCommonPoint(a: Box, b: Box)
    requires a.width > 0.0 && a.height > 0.0 && b.width > 0.0 && b.height > 0.0
    ensures Collides(a, b) <==> exists px, py :: Inside(a, px, py) && Inside(b, px, py)
  {
    if Collides(a, b) {
      var px := (Max(a.x, b.x) + Min(a.x + a.width, b.x + b.width)) / 2.0;
      var py := (Max(a.y, b.y) + Min(a.y + a.height, b.y + b.height)) / 2.0;
      assert Inside(a, px, py) && Inside(b, px, py);
    }
  }
}
