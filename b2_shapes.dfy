/**
 * The collision shapes and fixture definitions the items hand to Box2D.
 * The shape classes' own geometry (hull computation, mass, ray casts) lives
 * in engine sources that are not part of this model; a shape is kept as the
 * data it was built from.
 */
module B2Shapes {
  import opened B2Math

  /** b2_maxPolygonVertices (b2_settings.h). */
  const MaxPolygonVertices: nat := 8

  /** b2_lengthUnitsPerMeter (b2_settings.h). */
  const LengthUnitsPerMeter: real := 1.0

  datatype Shape =
      /** b2CircleShape with centre m_p and radius m_radius. */
    | CircleShape(p: Vec2, radius: real)
      /** b2PolygonShape::SetAsBox(hx, hy): an axis-aligned box centred on the origin. */
    | BoxShape(hx: real, hy: real)
      /** b2PolygonShape::Set(points, count), kept as the points it was given. */
    | PolygonShape(points: seq<Vec2>)
      /** b2EdgeShape::SetTwoSided(v1, v2). */
    | EdgeShape(v1: Vec2, v2: Vec2)
      /** b2ChainShape::CreateChain(vertices, count, prevVertex, nextVertex). */
    | ChainShape(vertices: seq<Vec2>, prevVertex: Vec2, nextVertex: Vec2)

  /** b2FixtureDef: the shape and the material a fixture is created from. */
  datatype FixtureDef = FixtureDef(
    shape: Shape,
    friction: real,
    restitution: real,
    restitutionThreshold: real,
    density: real,
    isSensor: bool)
}
