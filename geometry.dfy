/** Screen dimensions and the axis-aligned box test that every collision,
    pressure-plate, interaction and exit check of the game rests on. */
module Geometry {

  const SCREEN_WIDTH: int := 800
  const SCREEN_HEIGHT: int := 600
  const TILE_SIZE: int := 40

  /** An axis-aligned box: top-left corner (x, y), width w and height h, in pixels. */
  datatype Rect = Rect(x: int, y: int, w: int, h: int)

  /** Strict overlap on both axes: boxes that only share an edge do not overlap.
      This is the behaviour assumed of the graphics library's rectangle
      collision test, whose own code is not part of this model. */
  predicate Overlaps(a: Rect, b: Rect)
  {
    a.x < b.x + b.w && b.x < a.x + a.w && a.y < b.y + b.h && b.y < a.y + a.h
  }

  /** The game asks the test both ways round (player box against object box,
      plate box against player box); the answer does not depend on the order. */
  lemma OverlapsSymmetric(a: Rect, b: Rect)
    ensures Overlaps(a, b) <==> Overlaps(b, a)
  {
  }

  /** A box that starts exactly where another ends, beside it (sharing the
      vertical edge at a.x + a.w) or below it (sharing the horizontal edge at
      a.y + a.h), does not overlap it: an actor flush against a wall is not
      colliding with it. */
  lemma SharedEdgeIsNoOverlap(a: Rect, b: Rect)
    requires b.x == a.x + a.w || b.y == a.y + a.h
    ensures !Overlaps(a, b)
  {
  }

  /** `max(lo, min(v, hi))`, the clamp applied to a player's position after a move. */
  function Clamp(v: int, lo: int, hi: int): (r: int)
    ensures lo <= hi ==> lo <= r <= hi
    ensures lo <= v <= hi ==> r == v
    ensures v < lo ==> r == lo
    ensures lo <= hi < v ==> r == hi
  {
    var m := if v < hi then v else hi;
    if lo > m then lo else m
  }
}
