/**
 * The graphics items that carry a physics body (GraphicsPhysics/Item):
 * ItemBase and its five variants ItemCircle, ItemRect, ItemEdge,
 * ItemPolygon and ItemChain, as one class whose `variant` holds the members
 * each subclass adds. A constructor per variant runs the ItemBase
 * constructor's steps and then the subclass's.
 *
 * The pixel-per-metre scale is Scene::m_pix_meter as it stood when the item
 * was made; the centroid b2PolygonShape::Set computes is a parameter of the
 * polygon and chain constructors.
 */
module Items {
  import opened B2Math
  import opened B2Shapes
  import opened B2Body
  import opened B2World
  import opened Maths
  import opened ItemShapes
  import opened Wrappers

  /** The members each subclass adds to ItemBase. */
  datatype Variant =
      /** ItemCircle::m_r */
    | CircleItem(r: real)
      /** ItemRect::m_w, m_h */
    | RectItem(w: real, h: real)
      /** ItemEdge::m_p1, m_p2: the ends relative to the body position. */
    | EdgeItem(p1: PointF, p2: PointF)
      /** ItemPolygon::m_points: local vertices, closed. */
    | PolygonItem(points: seq<PointF>)
      /** ItemChain::m_points: local vertices, open. */
    | ChainItem(points: seq<PointF>)

  /** QVariant: invalid, or a value of some named type. */
  datatype QVariant = Invalid | Holding(typeName: string, value: string)

  /** The literal divisor ItemCircle uses for its physics radius. */
  const CircleDivisor: real := 30.0

  /** updateTransform's render position for a body position: each component times the scale. */
  function RenderPos(v: Vec2, scale: int): PointF {
    PointF(v.x * scale as real, v.y * scale as real)
  }

  /** The physics position setPos gives the body for a pixel position. */
  function BodyPos(p: PointF, scale: int): Vec2
    requires scale > 0
  {
    PointToVec2(PDiv(p, scale as real))
  }

  /** Placing the body at p / scale and rendering it at position * scale gives back p. */
  lemma RenderBodyPos(p: PointF, scale: int)
    requires scale > 0
    ensures RenderPos(BodyPos(p, scale), scale) == p
  {
  }

  /**
   * ItemCircle divides by a literal 30 instead of the scene's scale, so its
   * physics radius, read back in pixels, matches the drawn radius exactly
   * when the scale is 30.
   */
  lemma CircleRadiusInPixels(r: real, scale: int)
    requires r != 0.0 && scale > 0
    ensures (r / CircleDivisor) * scale as real == r <==> scale == 30
  {
    var s := scale as real;
    if (r / CircleDivisor) * s == r {
      assert r * (s / 30.0) == r * 1.0;
      assert s / 30.0 == 1.0;
    }
  }

  /**
   * The first loop of the polygon and chain constructors: a new array of
   * the points divided by the scale.
   */
  method ScaleVertices(points: seq<PointF>, s: real) returns (vertices: array<Vec2>)
    requires s != 0.0
    ensures fresh(vertices) && vertices[..] == ScaledVertices(points, s)
  {
    var count := |points|;
    vertices := new Vec2[count];
    var i := 0;
    while i < count
      invariant 0 <= i <= count
      invariant forall k :: 0 <= k < i ==> vertices[k] == PointToVec2(PDiv(points[k], s))
    {
      vertices[i] := PointToVec2(PDiv(points[i], s));
      i := i + 1;
    }
  }

  /**
   * The second loop of ItemPolygon's constructor: append each local vertex
   * to m_points and overwrite the vertex array with it in physics units.
   */
  method RecentreVertices(points: seq<PointF>, p: PointF, s: real, vertices: array<Vec2>)
    returns (mPoints: seq<PointF>)
    requires s != 0.0 && vertices.Length == |points|
    modifies vertices
    ensures mPoints == LocalPoints(points, p)
    ensures vertices[..] == ScaledVertices(mPoints, s)
  {
    var count := |points|;
    mPoints := [];
    var i := 0;
    while i < count
      invariant 0 <= i <= count && |mPoints| == i
      invariant forall k :: 0 <= k < i ==> mPoints[k] == ToPoint(PSub(points[k], p))
      invariant forall k :: 0 <= k < i ==> vertices[k] == PointToVec2(PDiv(mPoints[k], s))
    {
      mPoints := mPoints + [ToPoint(PSub(points[i], p))];
      vertices[i] := PointToVec2(PDiv(mPoints[i], s));
      i := i + 1;
    }
    ScaledVerticesPointwise(vertices[..], mPoints, s);
  }

  /** A vertex list that agrees pointwise with the scaled points is the scaled points. */
  lemma ScaledVerticesPointwise(v: seq<Vec2>, points: seq<PointF>, s: real)
    requires s != 0.0 && |v| == |points|
    requires forall k :: 0 <= k < |v| ==> v[k] == PointToVec2(PDiv(points[k], s))
    ensures v == ScaledVertices(points, s)
  {
  }

  /**
   * The second loop of ItemChain's constructor: as for the polygon, and the
   * outline grows by a move to the first local vertex and a line to each
   * later one.
   */
  method RecentreChain(points: seq<PointF>, p: PointF, s: real, vertices: array<Vec2>)
    returns (mPoints: seq<PointF>, path: PainterPath)
    requires s != 0.0 && vertices.Length == |points|
    modifies vertices
    ensures mPoints == LocalPoints(points, p)
    ensures path == OpenPath(mPoints)
    ensures vertices[..] == ScaledVertices(mPoints, s)
  {
    var count := |points|;
    mPoints := [];
    path := [];
    var i := 0;
    while i < count
      invariant 0 <= i <= count && |mPoints| == i
      invariant forall k :: 0 <= k < i ==> mPoints[k] == ToPoint(PSub(points[k], p))
      invariant path == OpenPath(mPoints)
      invariant forall k :: 0 <= k < i ==> vertices[k] == PointToVec2(PDiv(mPoints[k], s))
    {
      var local := ToPoint(PSub(points[i], p));
      if i > 0 {
        OpenPathSnoc(mPoints, local);
      }
      mPoints := mPoints + [local];
      vertices[i] := PointToVec2(PDiv(local, s));
      path := path + [if i == 0 then MoveTo(local) else LineTo(local)];
      i := i + 1;
    }
    ScaledVerticesPointwise(vertices[..], mPoints, s);
  }

  /**
   * The geometry ItemPolygon's constructor computes before it touches the
   * item: b2PolygonShape::Set on the scaled points yields the centroid, whose
   * pixel position becomes the body position; the local vertices, closed by
   * a copy of the first, become m_points, and Set on the re-scaled local
   * vertices the physics shape.
   */
  method PolygonGeometry(points: seq<PointF>, s: real, centroid: seq<Vec2> -> Vec2)
    returns (p: PointF, mPoints: seq<PointF>, physics: Shape)
    requires s != 0.0 && |points| > 0
    ensures p == CentroidPosition(centroid(ScaledVertices(points, s)), s)
    ensures mPoints == ClosedLocalPoints(points, p)
    ensures physics == PolygonShape(ScaledVertices(LocalPoints(points, p), s))
  {
    var vertices := ScaleVertices(points, s);
    var firstSet := PolygonShape(vertices[..]);
    p := PMul(Vec2ToPoint(centroid(firstSet.points)), s);
    mPoints := RecentreVertices(points, p, s, vertices);
    mPoints := mPoints + [ToPoint(PSub(points[0], p))];
    physics := PolygonShape(vertices[..]);
  }

  /**
   * The geometry ItemChain's constructor computes: the same body position
   * and local vertices as the polygon's, without the closing copy, the open
   * outline through them, and a chain over the re-scaled local vertices
   * with both ghost vertices at the origin.
   */
  method ChainGeometry(points: seq<PointF>, s: real, centroid: seq<Vec2> -> Vec2)
    returns (p: PointF, mPoints: seq<PointF>, path: PainterPath, physics: Shape)
    requires s != 0.0
    ensures p == CentroidPosition(centroid(ScaledVertices(points, s)), s)
    ensures mPoints == LocalPoints(points, p)
    ensures path == OpenPath(mPoints)
    ensures physics == ChainShape(ScaledVertices(mPoints, s), Zero(), Zero())
  {
    var vertices := ScaleVertices(points, s);
    var firstSet := PolygonShape(vertices[..]);
    p := PMul(Vec2ToPoint(centroid(firstSet.points)), s);
    mPoints, path := RecentreChain(points, p, s, vertices);
    physics := ChainShape(vertices[..], Vec2(0.0, 0.0), Vec2(0.0, 0.0));
  }

  class ItemBase {
    /** Scene::m_pix_meter, pixels per metre. */
    const scale: int
    const variant: Variant
    /** m_pBody */
    var body: Body?
    /** m_pB2Shape */
    var b2Shape: Option<Shape>
    /** m_shape */
    var shape: PainterPath
    var isShowShape: bool
    var isShowBoundingRect: bool
    /** Whether m_image holds a loaded image. */
    var hasImage: bool
    var userData: QVariant
    /** QGraphicsItem::ItemIsSelectable */
    var selectable: bool
    /** QGraphicsItem::pos and QGraphicsItem::rotation. */
    var pos: PointF
    var rotation: real

    /**
     * A constructed item: it owns a body whose user data points back at it,
     * and the body carries exactly one fixture, made from the item's shape.
     */
    ghost predicate Valid()
      reads this`body, this`b2Shape, body
    {
      && scale > 0
      && body != null
      && body.userData == this
      && b2Shape.Some?
      && |body.fixtures| == 1
      && body.fixtures[0].shape == b2Shape.value
    }

    /** The render position and rotation show the body's pose. */
    ghost predicate Synced()
      reads this`body, this`pos, this`rotation, body
    {
      body != null && pos == RenderPos(body.position, scale) && rotation == RadiansToDegrees(body.angle)
    }

    /**
     * The ItemBase constructor's work once the object exists: the body is
     * created from the definition with the item itself as user data, and
     * the item becomes selectable.
     */
    method InitBase(world: World, def: BodyDef)
      modifies this`body, this`selectable, world`bodies
      ensures body != null && fresh(body)
      ensures world.bodies == old(world.bodies) + {body}
      ensures body.userData == this && body.bodyType == def.bodyType
      ensures body.flags == InitialFlags(def.(userData := this))
      ensures body.angle == def.angle && body.fixtures == []
      ensures selectable
    {
      var bd := def.(userData := this);
      body := world.CreateBody(bd);
      selectable := true;
    }

    /** ItemCircle: a circle of radius r centred at center. */
    constructor Circle(world: World, def: BodyDef, center: PointF, r: real, scale: int)
      requires scale > 0
      modifies world`bodies
      ensures Valid() && Synced() && fresh(body)
      ensures world.bodies == old(world.bodies) + {body}
      ensures this.scale == scale && variant == CircleItem(r)
      ensures body.bodyType == def.bodyType && body.flags == InitialFlags(def.(userData := this))
      ensures body.position == BodyPos(center, scale) && body.angle == def.angle && pos == center
      ensures shape == CirclePath(r)
      ensures b2Shape == Some(CircleShape(Zero(), r / CircleDivisor))
      ensures body.fixtures == [FixtureFor(b2Shape.value, DefaultMaterial())]
      ensures !isShowShape && !isShowBoundingRect && !hasImage && selectable && userData == Invalid
    {
      this.scale := scale;
      variant := CircleItem(r);
      body := null;
      b2Shape := None;
      shape := [];
      isShowShape := false;
      isShowBoundingRect := false;
      hasImage := false;
      userData := Invalid;
      selectable := false;
      pos := PointF(0.0, 0.0);
      rotation := 0.0;
      new;
      Build(world, def, [AddEllipse(PointF(0.0, 0.0), r, r)], CircleShape(Vec2(0.0, 0.0), r / 30.0), center);
    }

    /** ItemRect: a w by h rectangle centred at center. */
    constructor Rect(world: World, def: BodyDef, center: PointF, w: real, h: real, scale: int)
      requires scale > 0
      modifies world`bodies
      ensures Valid() && Synced() && fresh(body)
      ensures world.bodies == old(world.bodies) + {body}
      ensures this.scale == scale && variant == RectItem(w, h)
      ensures body.bodyType == def.bodyType && body.flags == InitialFlags(def.(userData := this))
      ensures body.position == BodyPos(center, scale) && body.angle == def.angle && pos == center
      ensures shape == RectPath(w, h)
      ensures b2Shape == Some(BoxShape(w / 2.0 / scale as real, h / 2.0 / scale as real))
      ensures body.fixtures == [FixtureFor(b2Shape.value, DefaultMaterial())]
      ensures !isShowShape && !isShowBoundingRect && !hasImage && selectable && userData == Invalid
    {
      this.scale := scale;
      variant := RectItem(w, h);
      body := null;
      b2Shape := None;
      shape := [];
      isShowShape := false;
      isShowBoundingRect := false;
      hasImage := false;
      userData := Invalid;
      selectable := false;
      pos := PointF(0.0, 0.0);
      rotation := 0.0;
      new;
      Build(world, def, [AddRect(-w / 2.0, -h / 2.0, w, h)], BoxShape(w / 2.0 / scale as real, h / 2.0 / scale as real), center);
    }

    /** ItemEdge: a segment from p1 to p2, re-centred on its midpoint. */
    constructor Edge(world: World, def: BodyDef, p1: PointF, p2: PointF, scale: int)
      requires scale > 0
      modifies world`bodies
      ensures Valid() && Synced() && fresh(body)
      ensures world.bodies == old(world.bodies) + {body}
      ensures this.scale == scale
      ensures body.bodyType == def.bodyType && body.flags == InitialFlags(def.(userData := this))
      ensures var mid := Midpoint(p1, p2);
        && variant == EdgeItem(PSub(p1, mid), PSub(p2, mid))
        && body.position == BodyPos(mid, scale) && body.angle == def.angle && pos == mid
        && shape == EdgePath(PSub(p1, mid), PSub(p2, mid))
        && b2Shape == Some(EdgeShape(PointToVec2(PDiv(PSub(p1, mid), scale as real)),
                                     PointToVec2(PDiv(PSub(p2, mid), scale as real))))
      ensures body.fixtures == [FixtureFor(b2Shape.value, DefaultMaterial())]
      ensures !isShowShape && !isShowBoundingRect && !hasImage && selectable && userData == Invalid
    {
      var mid := PDiv(PAdd(p1, p2), 2.0);
      var m1 := PSub(p1, mid);
      var m2 := PSub(p2, mid);
      this.scale := scale;
      variant := EdgeItem(m1, m2);
      body := null;
      b2Shape := None;
      shape := [];
      isShowShape := false;
      isShowBoundingRect := false;
      hasImage := false;
      userData := Invalid;
      selectable := false;
      pos := PointF(0.0, 0.0);
      rotation := 0.0;
      new;
      Build(world, def, [MoveTo(m1), LineTo(m2)],
            EdgeShape(PointToVec2(PDiv(m1, scale as real)), PointToVec2(PDiv(m2, scale as real))), mid);
    }

    /**
     * ItemPolygon: the points are scaled to physics units, their centroid
     * gives the body position, and the local vertices are the points minus
     * that position rounded to whole pixels, closed by a copy of the first.
     */
    constructor Polygon(world: World, def: BodyDef, points: seq<PointF>, scale: int,
                        centroid: seq<Vec2> -> Vec2)
      requires scale > 0
      requires 3 <= |points| <= MaxPolygonVertices
      modifies world`bodies
      ensures Valid() && Synced() && fresh(body)
      ensures world.bodies == old(world.bodies) + {body}
      ensures this.scale == scale
      ensures body.bodyType == def.bodyType && body.flags == InitialFlags(def.(userData := this))
      ensures var p := CentroidPosition(centroid(ScaledVertices(points, scale as real)), scale as real);
        && variant == PolygonItem(ClosedLocalPoints(points, p))
        && body.position == BodyPos(p, scale) && body.angle == def.angle && pos == p
        && shape == [AddPolygon(ClosedLocalPoints(points, p))]
        && b2Shape == Some(PolygonShape(ScaledVertices(LocalPoints(points, p), scale as real)))
      ensures body.fixtures == [FixtureFor(b2Shape.value, DefaultMaterial())]
      ensures !isShowShape && !isShowBoundingRect && !hasImage && selectable && userData == Invalid
    {
      var p, mPoints, physics := PolygonGeometry(points, scale as real, centroid);
      this.scale := scale;
      variant := PolygonItem(mPoints);
      body := null;
      b2Shape := None;
      shape := [];
      isShowShape := false;
      isShowBoundingRect := false;
      hasImage := false;
      userData := Invalid;
      selectable := false;
      pos := PointF(0.0, 0.0);
      rotation := 0.0;
      new;
      Build(world, def, [AddPolygon(mPoints)], physics, p);
    }

    /**
     * ItemChain: the same re-centring as ItemPolygon without the closing
     * vertex; the outline is an open path through the local vertices and the
     * physics shape a chain with both ghost vertices at the origin.
     */
    constructor Chain(world: World, def: BodyDef, points: seq<PointF>, scale: int,
                      centroid: seq<Vec2> -> Vec2)
      requires scale > 0
      requires 3 <= |points| <= MaxPolygonVertices
      modifies world`bodies
      ensures Valid() && Synced() && fresh(body)
      ensures world.bodies == old(world.bodies) + {body}
      ensures this.scale == scale
      ensures body.bodyType == def.bodyType && body.flags == InitialFlags(def.(userData := this))
      ensures var p := CentroidPosition(centroid(ScaledVertices(points, scale as real)), scale as real);
        && variant == ChainItem(LocalPoints(points, p))
        && body.position == BodyPos(p, scale) && body.angle == def.angle && pos == p
        && shape == OpenPath(LocalPoints(points, p))
        && b2Shape == Some(ChainShape(ScaledVertices(LocalPoints(points, p), scale as real), Zero(), Zero()))
      ensures body.fixtures == [FixtureFor(b2Shape.value, DefaultMaterial())]
      ensures !isShowShape && !isShowBoundingRect && !hasImage && selectable && userData == Invalid
    {
      var p, mPoints, path, physics := ChainGeometry(points, scale as real, centroid);
      this.scale := scale;
      variant := ChainItem(mPoints);
      body := null;
      b2Shape := None;
      shape := [];
      isShowShape := false;
      isShowBoundingRect := false;
      hasImage := false;
      userData := Invalid;
      selectable := false;
      pos := PointF(0.0, 0.0);
      rotation := 0.0;
      new;
      Build(world, def, path, physics, p);
    }

    /**
     * What every constructor does once the object exists: the ItemBase
     * constructor's body creation, then the subclass's outline (drawn
     * into the still empty path), physics shape and position, then
     * setMaterial with the default material.
     */
    method Build(world: World, def: BodyDef, outline: PainterPath, physics: Shape, p: PointF)
      requires scale > 0 && shape == []
      modifies this`body, this`selectable, this`shape, this`b2Shape, this`pos, this`rotation, world`bodies
      ensures Valid() && Synced() && fresh(body)
      ensures world.bodies == old(world.bodies) + {body}
      ensures body.bodyType == def.bodyType && body.flags == InitialFlags(def.(userData := this))
      ensures body.position == BodyPos(p, scale) && body.angle == def.angle && pos == p
      ensures shape == outline && b2Shape == Some(physics)
      ensures body.fixtures == [FixtureFor(physics, DefaultMaterial())]
      ensures selectable
    {
      InitBase(world, def);
      shape := outline;
      b2Shape := Some(physics);
      SetPos(p);
      var m := DefaultMaterial();
      SetMaterial(m.friction, m.restitution, m.density, m.restitutionThreshold, m.isSensor);
    }

    /**
     * ItemBase::setPos: the body moves to p in physics units and keeps its
     * angle; after the resync the item is rendered at p.
     */
    method SetPos(p: PointF)
      requires body != null && scale > 0
      modifies body`position, body`angle, body`worldCenter, this`pos, this`rotation
      ensures body.position == BodyPos(p, scale) && body.angle == old(body.angle)
      ensures Synced() && pos == p
    {
      body.SetTransform(PointToVec2(PDiv(p, scale as real)), body.GetAngle());
      UpdateTransform();
      RenderBodyPos(p, scale);
    }

    /**
     * ItemBase::setRotation: the body keeps its position and turns to the
     * angle in radians; after the resync the item is rendered at that many
     * degrees.
     */
    method SetRotation(degrees: real)
      requires body != null
      modifies body`position, body`angle, body`worldCenter, this`pos, this`rotation
      ensures body.position == old(body.position) && body.angle == DegreesToRadians(degrees)
      ensures Synced() && rotation == degrees
    {
      body.SetTransform(body.GetPosition(), DegreesToRadians(degrees));
      UpdateTransform();
      AngleRoundTrip(degrees, 0.0);
    }

    /**
     * ItemBase::setMaterial: without a shape, a box from the bounding rect
     * is made first; then the head fixture is destroyed and a fixture with
     * exactly the given material is created.
     */
    method SetMaterial(friction: real, restitution: real, density: real,
                       restitutionThreshold: real, isSensor: real)
      requires body != null && scale > 0
      modifies this`b2Shape, body`fixtures
      ensures old(b2Shape).None? ==> b2Shape == Some(FallbackBox(BoundingRect(), scale as real))
      ensures old(b2Shape).Some? ==> b2Shape == old(b2Shape)
      ensures b2Shape.Some?
      ensures body.fixtures
        == [FixtureFor(b2Shape.value, Material(friction, restitution, density, restitutionThreshold, isSensor))]
           + (if |old(body.fixtures)| == 0 then [] else old(body.fixtures)[1..])
      ensures |old(body.fixtures)| <= 1 ==> |body.fixtures| == 1
    {
      if b2Shape == None {
        b2Shape := Some(FallbackBox(BoundingRect(), scale as real));
      }
      var fixtureDef := FixtureDef(b2Shape.value, friction, restitution, restitutionThreshold, density, isSensor != 0.0);
      ghost var rest := if |body.fixtures| == 0 then [] else body.fixtures[1..];
      body.DestroyFixture(body.GetFixtureList());
      assert body.fixtures == rest;
      body.CreateFixture(fixtureDef);
      assert body.fixtures == [fixtureDef] + rest;
    }

    method SetShowBoundingRect(show: bool)
      modifies this`isShowBoundingRect
      ensures isShowBoundingRect == show
    {
      isShowBoundingRect := show;
    }

    method SetShowShape(show: bool)
      modifies this`isShowShape
      ensures isShowShape == show
    {
      isShowShape := show;
    }

    /** ItemBase::setLinearVelocity: the body receives v in physics units. */
    method SetLinearVelocity(v: PointF)
      requires body != null && scale > 0
      modifies body`flags, body`linearVelocity, body`angularVelocity, body`force, body`torque, body`sleepTime
      ensures body.State() == LinearVelocitySet(body.bodyType, old(body.State()), BodyPos(v, scale))
    {
      var q := PDiv(v, scale as real);
      body.SetLinearVelocity(Vector2DToVec2(Vector2D(q.x, q.y)));
    }

    method SetUserData(data: QVariant)
      modifies this`userData
      ensures userData == data
    {
      userData := data;
    }

    /** ItemBase::userData: the value last stored. */
    method GetUserData() returns (data: QVariant)
      ensures data == userData
    {
      data := userData;
    }

    /**
     * ItemBase::updateTransform: the render position becomes the body
     * position times the scale and the rotation the body angle in degrees,
     * each written only when it differs.
     */
    method UpdateTransform()
      requires body != null
      modifies this`pos, this`rotation
      ensures Synced()
    {
      var p := PointF(body.GetPosition().x * scale as real, body.GetPosition().y * scale as real);
      var angle := RadiansToDegrees(body.GetAngle());
      if p != pos {
        pos := p;
      }
      if angle != rotation {
        rotation := angle;
      }
    }

    /** ItemBase::boundingRect. */
    function BoundingRect(): RectF
      reads this
    {
      ItemBoundingRect(shape)
    }

    /** What each variant's paintItem draws. */
    function ItemDrawing(): ItemDraw
      reads this
    {
      match variant
      case CircleItem(r) => DrawEllipse(PointF(0.0, 0.0), r, r)
      case RectItem(w, h) => DrawRect(-w / 2.0, -h / 2.0, w, h)
      case EdgeItem(p1, p2) => DrawLine(p1, p2)
      case PolygonItem(pts) => DrawPolygon(pts)
      case ChainItem(_) => DrawPath(shape)
    }

    /**
     * ItemBase::paint: the item's own drawing first, then the image if one
     * is loaded, then the outline if shown, then the bounding rect if shown.
     */
    method Paint() returns (ops: seq<PaintOp>)
      ensures |ops| > 0 && ops[0] == PaintItem(ItemDrawing())
      ensures PaintImage in ops <==> hasImage
      ensures PaintShape(shape) in ops <==> isShowShape
      ensures PaintBoundingRect(BoundingRect()) in ops <==> isShowBoundingRect
      ensures |ops| == 1 + (if hasImage then 1 else 0) + (if isShowShape then 1 else 0)
                         + (if isShowBoundingRect then 1 else 0)
      ensures forall i, j :: 0 <= i < j < |ops| ==> Rank(ops[i]) < Rank(ops[j])
    {
      ops := [PaintItem(ItemDrawing())];
      if hasImage {
        ops := ops + [PaintImage];
      }
      if isShowShape {
        ops := ops + [PaintShape(shape)];
      }
      if isShowBoundingRect {
        ops := ops + [PaintBoundingRect(BoundingRect())];
      }
    }

    /**
     * ItemBase's destructor: the body is destroyed in its world and the
     * physics shape is freed.
     */
    method Destroy(world: World)
      requires body != null && body in world.bodies
      modifies this`body, this`b2Shape, world`bodies, body`fixtures
      ensures body == null && b2Shape == None
      ensures world.bodies == old(world.bodies) - {old(body)}
    {
      world.DestroyBody(body);
      body := null;
      if b2Shape.Some? {
        b2Shape := None;
      }
    }
  }

  /** ItemRect draws exactly the rectangle its outline holds. */
  lemma RectDrawsItsOutline(w: real, h: real)
    ensures var d := DrawRect(-w / 2.0, -h / 2.0, w, h);
      RectPath(w, h) == [AddRect(d.x, d.y, d.w, d.h)]
  {
  }
}
