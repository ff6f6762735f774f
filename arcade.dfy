/** What both programs take from pygame: axis-aligned rectangles (pygame.Rect,
    reduced to its four integer coordinates) with the overlap test
    Rect.colliderect, and the keys held down in a frame (pygame.key.get_pressed). */
module Arcade {

  /** The random lane choice of a spawn, as an index into a road's four lanes. */
  type LaneIndex = i: nat | i < 4

  /** The keys a frame reads: the arrow keys and either shift key (boost). */
  datatype Keys = Keys(left: bool, right: bool, boost: bool)

  /** A rectangle with its top-left corner at (x, y), width w and height h
      (screen coordinates: y grows downwards). */
  datatype Rect = Rect(x: int, y: int, w: int, h: int)

  /** Rect.colliderect: the two boxes share interior area. Edges that only
      touch do not count, hence the strict comparisons. */
  predicate Collide(a: Rect, b: Rect)
  {
    a.x < b.x + b.w && b.x < a.x + a.w && a.y < b.y + b.h && b.y < a.y + a.h
  }

  /** The rectangle moved down by dy pixels (the `obs.y += speed` of both frame loops). */
  function Lowered(r: Rect, dy: int): (m: Rect)
    ensures m.x == r.x && m.w == r.w && m.h == r.h
    ensures m.y == r.y + dy
  {
    r.(y := r.y + dy)
  }

  /** Overlap does not depend on which box asks. */
  lemma CollideSymmetric(a: Rect, b: Rect)
    ensures Collide(a, b) <==> Collide(b, a)
  {
  }

  /** A box that lies wholly below another never collides with it. */
  lemma BelowNeverCollides(a: Rect, b: Rect)
    requires b.y >= a.y + a.h
    ensures !Collide(a, b)
  {
  }

  /** A player box (100,100,60,100) overlaps an obstacle at (100,150,60,100) and
      misses one at (300,150,60,100). */
  lemma CollisionExamples()
    ensures Collide(Rect(100, 150, 60, 100), Rect(100, 100, 60, 100))
    ensures !Collide(Rect(300, 150, 60, 100), Rect(100, 100, 60, 100))
  {
  }
}
