/**
 * The contact listener (GraphicsPhysics/ContactListener/contactlistener.cpp):
 * each of the four b2ContactListener callbacks the world makes during a step
 * is re-emitted as exactly one Qt signal carrying the same arguments. The
 * listener holds no state, so it is modelled as a function from callback to
 * signal.
 */
module Contacts {
  import opened B2Math
  import opened B2Body

  /** b2WorldManifold: the contact normal and the two world contact points. */
  datatype WorldManifold = WorldManifold(normal: Vec2, point0: Vec2, point1: Vec2)

  /** b2Manifold as PreSolve passes it: the local contact data before the step. */
  datatype Manifold = Manifold(localNormal: Vec2, localPoint: Vec2, pointCount: nat)

  /** b2ContactImpulse as PostSolve passes it. */
  datatype ContactImpulse = ContactImpulse(normalImpulses: seq<real>, tangentImpulses: seq<real>)

  /**
   * b2Contact as the listener sees it: the bodies of fixture A and fixture B
   * and the world manifold b2Contact::GetWorldManifold reports.
   */
  datatype Contact = Contact(bodyA: Body, bodyB: Body, worldManifold: WorldManifold)

  /** The four b2ContactListener callbacks. */
  datatype Callback =
    | BeginContact(contact: Contact)
    | EndContact(contact: Contact)
    | PreSolve(contact: Contact, oldManifold: Manifold)
    | PostSolve(contact: Contact, impulse: ContactImpulse)

  /** The four signals of ContactListener. */
  datatype ListenerSignal =
    | BeginContactSignal(contact: Contact)
    | EndContactSignal(contact: Contact)
    | PreSolveSignal(contact: Contact, oldManifold: Manifold)
    | PostSolveSignal(contact: Contact, impulse: ContactImpulse)

  /** The signal one callback emits. */
  function Forward(cb: Callback): ListenerSignal {
    match cb
    case BeginContact(c) => BeginContactSignal(c)
    case EndContact(c) => EndContactSignal(c)
    case PreSolve(c, m) => PreSolveSignal(c, m)
    case PostSolve(c, i) => PostSolveSignal(c, i)
  }

  /** The callback a signal was emitted for. */
  function CallbackOf(s: ListenerSignal): Callback {
    match s
    case BeginContactSignal(c) => BeginContact(c)
    case EndContactSignal(c) => EndContact(c)
    case PreSolveSignal(c, m) => PreSolve(c, m)
    case PostSolveSignal(c, i) => PostSolve(c, i)
  }

  /**
   * Each callback yields a signal of the matching kind with the same
   * arguments, so the signal determines the callback.
   */
  lemma ForwardFaithful(cb: Callback)
    ensures CallbackOf(Forward(cb)) == cb
    ensures Forward(cb).contact == cb.contact
    ensures cb.BeginContact? <==> Forward(cb).BeginContactSignal?
    ensures cb.EndContact? <==> Forward(cb).EndContactSignal?
    ensures cb.PreSolve? <==> Forward(cb).PreSolveSignal?
    ensures cb.PostSolve? <==> Forward(cb).PostSolveSignal?
  {
  }

  /** The signals emitted over a step: one per callback, in callback order. */
  function ForwardAll(cbs: seq<Callback>): (r: seq<ListenerSignal>)
    ensures |r| == |cbs|
    ensures forall i :: 0 <= i < |cbs| ==> r[i] == Forward(cbs[i])
  {
    if |cbs| == 0 then [] else ForwardAll(cbs[..|cbs| - 1]) + [Forward(cbs[|cbs| - 1])]
  }

  /** The callbacks a signal log was emitted for. */
  function CallbacksOf(signals: seq<ListenerSignal>): (r: seq<Callback>)
    ensures |r| == |signals|
    ensures forall i :: 0 <= i < |signals| ==> r[i] == CallbackOf(signals[i])
  {
    if |signals| == 0 then [] else CallbacksOf(signals[..|signals| - 1]) + [CallbackOf(signals[|signals| - 1])]
  }

  /** The callback sequence can be read back from the signal log. */
  lemma ForwardAllRoundTrip(cbs: seq<Callback>)
    ensures CallbacksOf(ForwardAll(cbs)) == cbs
  {
    forall i | 0 <= i < |cbs|
      ensures CallbacksOf(ForwardAll(cbs))[i] == cbs[i]
    {
      ForwardFaithful(cbs[i]);
    }
  }
}
