/** The part of raylib's interface that the game step relies on: its 2D vector and
    rectangle records and the rectangle-intersection test.  raylib itself is not part
    of this model; CheckCollisionRecs below is the usual strict axis-aligned overlap
    test and is an ASSUMPTION about the library, not something derived from it.
    Floating-point coordinates are modelled as mathematical reals. */
module Raylib {

  /** raylib's Vector2. */
  datatype Vec2 = Vec2(x: real, y: real)

  /** raylib's Rectangle: top-left corner and size. */
  datatype Rect = Rect(x: real, y: real, width: real, height: real)

  /** Assumed behaviour of raylib's CheckCollisionRecs: the rectangles overlap on
      both axes (strict comparisons, so rectangles that only touch do not collide). */
  predicate CheckCollisionRecs(a: Rect, b: Rect)
  {
    a.x < b.x + b.width && a.x + a.width > b.x &&
    a.y < b.y + b.height && a.y + a.height > b.y
  }
}
