/**
 * The bridge between Qt's geometry types and Box2D's b2Vec2
 * (GraphicsPhysics/Maths/maths.cpp), together with the few Qt value
 * operations the scene and the items use on them: QPointF arithmetic,
 * QPointF::toPoint with qRound, and qDegreesToRadians/qRadiansToDegrees.
 * qreal and float are both modelled as real, so the float narrowing of the
 * C++ conversions is not represented.
 */
module Maths {
  import opened B2Math

  /** QPointF: a point in pixel units with real coordinates. */
  datatype PointF = PointF(x: real, y: real)

  /** QVector2D: a 2-D vector with real components. */
  datatype Vector2D = Vector2D(x: real, y: real)

  /** vector2DToVec2: copy both components into a b2Vec2. */
  function Vector2DToVec2(v: Vector2D): (r: Vec2)
    ensures r.x == v.x && r.y == v.y
  {
    Vec2(v.x, v.y)
  }

  /** pointToVec2: copy both coordinates into a b2Vec2. */
  function PointToVec2(p: PointF): (r: Vec2)
    ensures r.x == p.x && r.y == p.y
  {
    Vec2(p.x, p.y)
  }

  /** vec2ToPoint: copy both components into a QPointF. */
  function Vec2ToPoint(v: Vec2): (r: PointF)
    ensures r.x == v.x && r.y == v.y
  {
    PointF(v.x, v.y)
  }

  /** QPointF operator+ */
  function PAdd(a: PointF, b: PointF): PointF { PointF(a.x + b.x, a.y + b.y) }

  /** QPointF operator- */
  function PSub(a: PointF, b: PointF): PointF { PointF(a.x - b.x, a.y - b.y) }

  /** QPointF operator* with a scalar. */
  function PMul(p: PointF, c: real): PointF { PointF(p.x * c, p.y * c) }

  /** QPointF operator/ with a non-zero scalar. */
  function PDiv(p: PointF, c: real): PointF
    requires c != 0.0
  {
    PointF(p.x / c, p.y / c)
  }

  /** Converting a point to a b2Vec2 and back gives the same point. */
  lemma PointRoundTrip(p: PointF)
    ensures Vec2ToPoint(PointToVec2(p)) == p
  {
  }

  /** Converting a b2Vec2 to a point and back gives the same vector. */
  lemma Vec2RoundTrip(v: Vec2)
    ensures PointToVec2(Vec2ToPoint(v)) == v
  {
  }

  /** Dividing by the pixel scale commutes with the conversion to physics vectors. */
  lemma PointToVec2Div(p: PointF, c: real)
    requires c != 0.0
    ensures PointToVec2(PDiv(p, c)) == Mul(1.0 / c, PointToVec2(p))
  {
  }

  /** Scaling to physics units and back to pixels recovers the point. */
  lemma DivThenMul(p: PointF, c: real)
    requires c != 0.0
    ensures PMul(PDiv(p, c), c) == p
  {
  }

  /**
   * qRound on a double as Qt 6 computes it: int(d + 0.5) for d >= 0 and
   * int(d - 0.5) otherwise, the cast truncating toward zero. The result is
   * the nearest integer, and halves round away from zero.
   */
  function QRound(r: real): (n: int)
    ensures r - 0.5 <= n as real <= r + 0.5
    ensures 0.0 <= r ==> r - 0.5 < n as real
    ensures r < 0.0 ==> n as real < r + 0.5
  {
    if r >= 0.0 then (r + 0.5).Floor else -((-r + 0.5).Floor)
  }

  /** qRound is symmetric about zero. */
  lemma QRoundOdd(r: real)
    ensures QRound(-r) == -QRound(r)
  {
  }

  /** A half rounds away from zero: k + 0.5 up for k >= 0, k - 0.5 down for k <= 0. */
  lemma QRoundHalves(k: int)
    ensures 0 <= k ==> QRound(k as real + 0.5) == k + 1
    ensures k <= 0 ==> QRound(k as real - 0.5) == k - 1
  {
  }

  /** QPointF::toPoint: both coordinates rounded with qRound. */
  function ToPoint(p: PointF): PointF {
    PointF(QRound(p.x) as real, QRound(p.y) as real)
  }

  /** toPoint lands on whole pixels, within half a pixel of the point on each axis. */
  lemma ToPointNear(p: PointF)
    ensures var r := ToPoint(p);
      && r.x == r.x.Floor as real && r.y == r.y.Floor as real
      && p.x - 0.5 <= r.x <= p.x + 0.5 && p.y - 0.5 <= r.y <= p.y + 0.5
  {
    var n, m := QRound(p.x), QRound(p.y);
    assert (n as real).Floor == n && (m as real).Floor == m;
  }

  /** M_PI as Qt's qmath uses it, to the precision of the literal. */
  const Pi: real := 3.14159265358979323846

  /** qDegreesToRadians. */
  function DegreesToRadians(degrees: real): real { degrees * (Pi / 180.0) }

  /** qRadiansToDegrees. */
  function RadiansToDegrees(radians: real): real { radians * (180.0 / Pi) }

  /** The two angle conversions are inverse to each other. */
  lemma AngleRoundTrip(degrees: real, radians: real)
    ensures RadiansToDegrees(DegreesToRadians(degrees)) == degrees
    ensures DegreesToRadians(RadiansToDegrees(radians)) == radians
  {
  }
}
