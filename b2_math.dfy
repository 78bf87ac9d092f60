/**
 * The slice of Box2D's vector arithmetic (b2Vec2, b2Dot, b2Cross) that the
 * body logic and the Qt bridge rely on. Floats are modelled as reals.
 */
module B2Math {

  /** b2Vec2: a 2-D column vector in physics units (metres). */
  datatype Vec2 = Vec2(x: real, y: real)

  /** The zero vector, as b2Vec2::SetZero leaves it. */
  function Zero(): Vec2 { Vec2(0.0, 0.0) }

  function Add(a: Vec2, b: Vec2): Vec2 { Vec2(a.x + b.x, a.y + b.y) }

  function Sub(a: Vec2, b: Vec2): Vec2 { Vec2(a.x - b.x, a.y - b.y) }

  /** Scalar times vector (b2Vec2 operator* with a float on the left). */
  function Mul(s: real, v: Vec2): Vec2 { Vec2(s * v.x, s * v.y) }

  /** b2Dot. */
  function Dot(a: Vec2, b: Vec2): real { a.x * b.x + a.y * b.y }

  /** b2Cross of two vectors: the z-component of the 3-D cross product. */
  function Cross(a: Vec2, b: Vec2): real { a.x * b.y - a.y * b.x }
}
