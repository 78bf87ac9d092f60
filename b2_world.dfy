/**
 * The part of b2World the scene uses (b2_world.h): creating and destroying
 * bodies and taking a time step. The solver behind Step is not part of this
 * model: a step is recorded with its arguments and may move every body, but
 * never adds, removes or re-fixtures one.
 */
module B2World {
  import opened B2Math
  import opened B2Body

  /** The arguments of one b2World::Step call. */
  datatype StepCall = StepCall(timeStep: real, velocityIterations: int, positionIterations: int)

  class World {
    const gravity: Vec2
    /** The bodies currently in the world's body list. */
    var bodies: set<Body>
    /** Every Step call so far, oldest first. */
    var steps: seq<StepCall>

    constructor (gravity: Vec2)
      ensures this.gravity == gravity && bodies == {} && steps == []
    {
      this.gravity := gravity;
      bodies := {};
      steps := [];
    }

    /** b2World::CreateBody: a new body built from def joins the world. */
    method CreateBody(def: BodyDef) returns (b: Body)
      modifies this`bodies
      ensures fresh(b) && bodies == old(bodies) + {b}
      ensures b.bodyType == def.bodyType && b.userData == def.userData
      ensures b.flags == InitialFlags(def)
      ensures b.position == def.position && b.angle == def.angle
      ensures b.linearVelocity == def.linearVelocity && b.angularVelocity == def.angularVelocity
      ensures b.fixtures == []
    {
      b := new Body(def);
      bodies := bodies + {b};
    }

    /** b2World::DestroyBody: the body leaves the world, with its fixtures. */
    method DestroyBody(b: Body)
      requires b in bodies
      modifies this`bodies, b`fixtures
      ensures bodies == old(bodies) - {b} && b.fixtures == []
    {
      bodies := bodies - {b};
      b.fixtures := [];
    }

    /**
     * b2World::Step: collision detection, integration and constraint
     * solution. Callers may assume only what is stated here.
     */
    method Step(timeStep: real, velocityIterations: int, positionIterations: int)
      modifies this`steps, bodies
      ensures steps == old(steps) + [StepCall(timeStep, velocityIterations, positionIterations)]
      ensures bodies == old(bodies)
      ensures forall b :: b in bodies ==> b.fixtures == old(b.fixtures)
    {
      steps := steps + [StepCall(timeStep, velocityIterations, positionIterations)];
    }
  }
}
