/**
 * The pure geometry behind the graphics items (the GraphicsPhysics/Item sources):
 * the painter paths the constructors build, their bounding boxes, the
 * re-centring of pixel geometry on a local origin, the conversion of local
 * pixel geometry to physics units, and the material defaults of setMaterial.
 */
module ItemShapes {
  import opened B2Math
  import opened B2Shapes
  import opened Maths

  /** One call that extends a QPainterPath. */
  datatype PathElement =
    | MoveTo(p: PointF)
    | LineTo(p: PointF)
      /** addEllipse(center, rx, ry) */
    | AddEllipse(center: PointF, rx: real, ry: real)
      /** addRect(x, y, w, h) */
    | AddRect(x: real, y: real, w: real, h: real)
      /** addPolygon(QPolygonF(points)) */
    | AddPolygon(points: seq<PointF>)

  /** A QPainterPath, as the sequence of calls that built it. */
  type PainterPath = seq<PathElement>

  /** QRectF: top-left corner, width and height. */
  datatype RectF = RectF(x: real, y: real, w: real, h: real)

  predicate RectContains(r: RectF, p: PointF) {
    r.x <= p.x <= r.x + r.w && r.y <= p.y <= r.y + r.h
  }

  /**
   * The points that bound one element: its vertices, or the corners of the
   * box an ellipse or rectangle spans.
   */
  function ElementPoints(e: PathElement): seq<PointF> {
    match e
    case MoveTo(p) => [p]
    case LineTo(p) => [p]
    case AddEllipse(c, rx, ry) => [PointF(c.x - rx, c.y - ry), PointF(c.x + rx, c.y + ry)]
    case AddRect(x, y, w, h) => [PointF(x, y), PointF(x + w, y + h)]
    case AddPolygon(pts) => pts
  }

  /** The bounding points of a whole path, element by element. */
  function PathPoints(path: PainterPath): seq<PointF> {
    if |path| == 0 then [] else PathPoints(path[..|path| - 1]) + ElementPoints(path[|path| - 1])
  }

  function Min(a: real, b: real): real { if a <= b then a else b }
  function Max(a: real, b: real): real { if a <= b then b else a }

  /**
   * The smallest rectangle holding every point; QRectF() for no points.
   * Every point lies inside it, and each of its edges touches a point.
   */
  function Bounds(pts: seq<PointF>): (r: RectF)
    ensures forall i :: 0 <= i < |pts| ==> RectContains(r, pts[i])
    ensures |pts| > 0 ==> exists i :: 0 <= i < |pts| && pts[i].x == r.x
    ensures |pts| > 0 ==> exists i :: 0 <= i < |pts| && pts[i].y == r.y
    ensures |pts| > 0 ==> exists i :: 0 <= i < |pts| && pts[i].x == r.x + r.w
    ensures |pts| > 0 ==> exists i :: 0 <= i < |pts| && pts[i].y == r.y + r.h
    ensures r.w >= 0.0 && r.h >= 0.0
  {
    if |pts| == 0 then RectF(0.0, 0.0, 0.0, 0.0)
    else if |pts| == 1 then RectF(pts[0].x, pts[0].y, 0.0, 0.0)
    else
      var b := Bounds(pts[..|pts| - 1]);
      var p := pts[|pts| - 1];
      var left := Min(b.x, p.x);
      var top := Min(b.y, p.y);
      var right := Max(b.x + b.w, p.x);
      var bottom := Max(b.y + b.h, p.y);
      assert forall i :: 0 <= i < |pts| - 1 ==> pts[..|pts| - 1][i] == pts[i];
      RectF(left, top, right - left, bottom - top)
  }

  /** QPainterPath::boundingRect. */
  function PathBounds(path: PainterPath): RectF {
    Bounds(PathPoints(path))
  }

  /**
   * ItemBase::boundingRect: the path's bounding box with its top-left corner
   * moved out by 3 pixels and its bottom-right corner moved out by 3 pixels.
   */
  function ItemBoundingRect(path: PainterPath): (r: RectF)
    ensures var b := PathBounds(path);
      r.x == b.x - 3.0 && r.y == b.y - 3.0 && r.w == b.w + 6.0 && r.h == b.h + 6.0
  {
    var b := PathBounds(path);
    var topLeft := PSub(PointF(b.x, b.y), PointF(3.0, 3.0));
    var bottomRight := PAdd(PointF(b.x + b.w, b.y + b.h), PointF(3.0, 3.0));
    RectF(topLeft.x, topLeft.y, bottomRight.x - topLeft.x, bottomRight.y - topLeft.y)
  }

  /** Every point that bounds an element of the path lies in the item's bounding rect, at least 3 pixels inside it. */
  lemma {:induction false} PathPointsInBoundingRect(path: PainterPath, k: int, e: PathElement, i: int)
    requires 0 <= k < |path| && e == path[k] && 0 <= i < |ElementPoints(e)|
    ensures var r := ItemBoundingRect(path); var p := ElementPoints(e)[i];
      r.x + 3.0 <= p.x <= r.x + r.w - 3.0 && r.y + 3.0 <= p.y <= r.y + r.h - 3.0
  {
    var j := ElementPointIndex(path, k, i);
    assert PathPoints(path)[j] == ElementPoints(e)[i];
  }

  /** Where the i-th bounding point of element k sits in PathPoints(path). */
  lemma {:induction false} ElementPointIndex(path: PainterPath, k: int, i: int) returns (j: int)
    requires 0 <= k < |path| && 0 <= i < |ElementPoints(path[k])|
    ensures 0 <= j < |PathPoints(path)| && PathPoints(path)[j] == ElementPoints(path[k])[i]
  {
    var init := path[..|path| - 1];
    if k == |path| - 1 {
      j := |PathPoints(init)| + i;
    } else {
      assert path[k] == init[k];
      j := ElementPointIndex(init, k, i);
    }
  }

  // ----- Item outlines -----

  /** ItemCircle's outline: an ellipse centred on the origin with both radii r. */
  function CirclePath(r: real): PainterPath {
    [AddEllipse(PointF(0.0, 0.0), r, r)]
  }

  /** ItemRect's outline: a w by h rectangle centred on the origin. */
  function RectPath(w: real, h: real): PainterPath {
    [AddRect(-w / 2.0, -h / 2.0, w, h)]
  }

  /** ItemEdge's outline: a move to the first local end and a line to the second. */
  function EdgePath(p1: PointF, p2: PointF): PainterPath {
    [MoveTo(p1), LineTo(p2)]
  }

  /**
   * ItemChain's outline: a move to the first point, then a line to each later
   * point in order.
   */
  function OpenPath(pts: seq<PointF>): (r: PainterPath)
    ensures |r| == |pts|
    ensures |pts| > 0 ==> r[0] == MoveTo(pts[0])
    ensures forall i :: 0 < i < |pts| ==> r[i] == LineTo(pts[i])
  {
    if |pts| == 0 then []
    else if |pts| == 1 then [MoveTo(pts[0])]
    else
      var init := pts[..|pts| - 1];
      assert forall i :: 0 <= i < |pts| - 1 ==> init[i] == pts[i];
      OpenPath(init) + [LineTo(pts[|pts| - 1])]
  }

  /** Extending a non-empty point list by one extends its open path by one line. */
  lemma OpenPathSnoc(pts: seq<PointF>, x: PointF)
    requires |pts| > 0
    ensures OpenPath(pts + [x]) == OpenPath(pts) + [LineTo(x)]
  {
    assert (pts + [x])[..|pts|] == pts;
  }

  /** The outline of a w by h rectangle centred on the origin is bounded by exactly that rectangle. */
  lemma RectPathBounds(w: real, h: real)
    requires w >= 0.0 && h >= 0.0
    ensures PathBounds(RectPath(w, h)) == RectF(-w / 2.0, -h / 2.0, w, h)
  {
    assert PathPoints(RectPath(w, h)) == [PointF(-w / 2.0, -h / 2.0), PointF(-w / 2.0 + w, -h / 2.0 + h)];
  }

  /** A circle of radius r is bounded by the 2r square around the origin. */
  lemma CirclePathBounds(r: real)
    requires r >= 0.0
    ensures PathBounds(CirclePath(r)) == RectF(-r, -r, 2.0 * r, 2.0 * r)
  {
    assert PathPoints(CirclePath(r)) == [PointF(0.0 - r, 0.0 - r), PointF(0.0 + r, 0.0 + r)];
  }

  // ----- Re-centring -----

  /** The midpoint ItemEdge places its body at. */
  function Midpoint(p1: PointF, p2: PointF): PointF {
    PDiv(PAdd(p1, p2), 2.0)
  }

  /**
   * Re-centring an edge on its midpoint: the two local ends are opposite,
   * and adding the midpoint back gives the original ends.
   */
  lemma EdgeRecentring(p1: PointF, p2: PointF)
    ensures var pos := Midpoint(p1, p2);
      PSub(p1, pos) == PMul(PSub(p2, pos), -1.0)
      && PAdd(pos, PSub(p1, pos)) == p1 && PAdd(pos, PSub(p2, pos)) == p2
  {
  }

  /** When the two ends coincide, both local ends are the origin. */
  lemma EdgeDegenerate(p: PointF)
    ensures PSub(p, Midpoint(p, p)) == PointF(0.0, 0.0)
  {
  }

  /** Pixel points divided by the scale: the vertices handed to the first b2PolygonShape::Set. */
  function ScaledVertices(points: seq<PointF>, scale: real): (r: seq<Vec2>)
    requires scale != 0.0
    ensures |r| == |points|
    ensures forall i :: 0 <= i < |points| ==> r[i] == PointToVec2(PDiv(points[i], scale))
  {
    if |points| == 0 then []
    else
      var init := points[..|points| - 1];
      assert forall i :: 0 <= i < |points| - 1 ==> init[i] == points[i];
      ScaledVertices(init, scale) + [PointToVec2(PDiv(points[|points| - 1], scale))]
  }

  /** The pixel position of a physics centroid: vec2ToPoint(centroid) * scale. */
  function CentroidPosition(centroid: Vec2, scale: real): PointF {
    PMul(Vec2ToPoint(centroid), scale)
  }

  /**
   * The local vertices of a polygon or chain: each input point minus the
   * body position, rounded to whole pixels by QPointF::toPoint.
   */
  function LocalPoints(points: seq<PointF>, pos: PointF): (r: seq<PointF>)
    ensures |r| == |points|
    ensures forall i :: 0 <= i < |points| ==> r[i] == ToPoint(PSub(points[i], pos))
  {
    if |points| == 0 then []
    else
      var init := points[..|points| - 1];
      assert forall i :: 0 <= i < |points| - 1 ==> init[i] == points[i];
      LocalPoints(init, pos) + [ToPoint(PSub(points[|points| - 1], pos))]
  }

  /**
   * Each local vertex, placed back at the body position, lies within half a
   * pixel of the input point it came from, on both axes.
   */
  lemma LocalPointsNear(points: seq<PointF>, pos: PointF, i: int)
    requires 0 <= i < |points|
    ensures var r := LocalPoints(points, pos)[i];
      && points[i].x - 0.5 <= pos.x + r.x <= points[i].x + 0.5
      && points[i].y - 0.5 <= pos.y + r.y <= points[i].y + 0.5
  {
    ToPointNear(PSub(points[i], pos));
  }

  /** A vertex half a pixel below and left of the body rounds away from it. */
  lemma LocalPointsRoundAway()
    ensures LocalPoints([PointF(0.0, 0.0), PointF(1.0, 1.0)], PointF(0.5, 0.5))
         == [PointF(-1.0, -1.0), PointF(1.0, 1.0)]
  {
  }

  /**
   * ItemPolygon's m_points: the local vertices followed by a closing copy of
   * the first, so the list is one longer than the input and ends where it
   * starts.
   */
  function ClosedLocalPoints(points: seq<PointF>, pos: PointF): (r: seq<PointF>)
    requires |points| > 0
    ensures |r| == |points| + 1
    ensures r[..|points|] == LocalPoints(points, pos)
    ensures r[|points|] == r[0]
  {
    LocalPoints(points, pos) + [ToPoint(PSub(points[0], pos))]
  }

  // ----- Materials -----

  /** The arguments of ItemBase::setMaterial. isSensor is a float, as declared. */
  datatype Material = Material(
    friction: real,
    restitution: real,
    density: real,
    restitutionThreshold: real,
    isSensor: real)

  /** setMaterial's default arguments. */
  function DefaultMaterial(): Material {
    Material(0.2, 0.0, 0.0, 1.0 * LengthUnitsPerMeter, 0.0)
  }

  /**
   * The fixture definition setMaterial fills in: the shape and every
   * material value unchanged, the float sensor argument converted to bool
   * (any non-zero value is true).
   */
  function FixtureFor(shape: Shape, m: Material): (f: FixtureDef)
    ensures f.shape == shape && f.friction == m.friction && f.restitution == m.restitution
    ensures f.density == m.density && f.restitutionThreshold == m.restitutionThreshold
    ensures f.isSensor <==> m.isSensor != 0.0
  {
    FixtureDef(shape, m.friction, m.restitution, m.restitutionThreshold, m.density, m.isSensor != 0.0)
  }

  /** With the defaults, a fixture has friction 0.2, no restitution, no density, threshold 1 and is not a sensor. */
  lemma DefaultFixture(shape: Shape)
    ensures FixtureFor(shape, DefaultMaterial())
      == FixtureDef(shape, 0.2, 0.0, 1.0, 0.0, false)
  {
  }

  /**
   * The box setMaterial falls back to when no shape was made: half the
   * bounding rect's width and height, in physics units.
   */
  function FallbackBox(bounds: RectF, scale: real): Shape
    requires scale != 0.0
  {
    BoxShape(bounds.w / 2.0 / scale, bounds.h / 2.0 / scale)
  }

  // ----- Painting -----

  /** What paintItem draws for each kind of item. */
  datatype ItemDraw =
    | DrawEllipse(center: PointF, rx: real, ry: real)
    | DrawRect(x: real, y: real, w: real, h: real)
    | DrawLine(p1: PointF, p2: PointF)
    | DrawPolygon(points: seq<PointF>)
    | DrawPath(path: PainterPath)

  /** One step of ItemBase::paint. */
  datatype PaintOp =
    | PaintItem(draw: ItemDraw)
    | PaintImage
    | PaintShape(path: PainterPath)
    | PaintBoundingRect(rect: RectF)

  /** The position of each kind of step in paint's fixed order. */
  function Rank(op: PaintOp): nat {
    match op
    case PaintItem(_) => 0
    case PaintImage => 1
    case PaintShape(_) => 2
    case PaintBoundingRect(_) => 3
  }
}
