/** Positions and rectangles shared by the other modules. */
module Grid {

  datatype Vec2 = Vec2(x: int, y: int) {
    function Plus(v: Vec2): Vec2 {
      Vec2(x + v.x, y + v.y)
    }

    function Minus(v: Vec2): Vec2 {
      Vec2(x - v.x, y - v.y)
    }
  }

  function Abs(x: int): nat {
    if x < 0 then -x else x
  }

  function Max(x: int, y: int): int {
    if x < y then y else x
  }

  function Min(x: int, y: int): int {
    if x < y then x else y
  }

  /** Chebyshev distance. */
  function Dist8(a: Vec2, b: Vec2): nat {
    Max(Abs(a.x - b.x), Abs(a.y - b.y))
  }

  /** The half-open rectangle left <= x < right, top <= y < bottom. */
  datatype Rectangle = Rectangle(left: int, top: int, right: int, bottom: int) {
    predicate Contains(v: Vec2) {
      left <= v.x < right && top <= v.y < bottom
    }

    function MinusMargin(m: int): Rectangle {
      Rectangle(left + m, top + m, right - m, bottom - m)
    }

    function Squares(): set<Vec2> {
      set x, y | left <= x < right && top <= y < bottom :: Vec2(x, y)
    }
  }
}
