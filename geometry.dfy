/**
  The plane geometry the two game entities use: SpriteKit's CGPoint, CGVector and
  CGSize, with CGFloat idealised as a real number. Only addition, subtraction,
  negation, halving and comparison occur.
 */
module Geometry {

  datatype Point = Point(x: real, y: real)

  datatype Vector = Vector(dx: real, dy: real)

  datatype Size = Size(width: real, height: real)

  /** CGPoint.zero, the default position of every node. */
  const Origin: Point := Point(0.0, 0.0)

  /** The point reached from `p` by one step of `v`. */
  function Translate(p: Point, v: Vector): (q: Point)
    ensures q.x - p.x == v.dx && q.y - p.y == v.dy
  {
    Point(p.x + v.dx, p.y + v.dy)
  }

  /** The point halfway between `a` and `b`. */
  function Midpoint(a: Point, b: Point): (m: Point)
    ensures m.x - a.x == b.x - m.x && m.y - a.y == b.y - m.y
  {
    Point((a.x + b.x) / 2.0, (a.y + b.y) / 2.0)
  }
}
