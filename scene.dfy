/**
 * The scene (GraphicsPhysics/Scene): the registry of physics items, the
 * queue of items waiting to be destroyed, and the tick that sweeps that
 * queue, steps the world and resynchronises every item.
 *
 * QGraphicsScene's item index is the set `sceneItems`; `m_items` and
 * `m_destroyItems` are the sequences `items` and `destroyItems`. Emitted
 * signals are appended to `signals`. The ghost sequence `deleted` records
 * every item the scene has deleted, so that "deleted at most once" can be
 * stated as an invariant.
 */
module Scenes {
  import opened B2Math
  import opened B2Body
  import opened B2World
  import opened B2Shapes
  import opened Maths
  import opened ItemShapes
  import opened Items
  import opened Contacts
  import opened ListOps

  /** m_fps, m_velocityIterations and m_positionIterations. */
  const Fps: real := 60.0
  const VelocityIterations: int := 8
  const PositionIterations: int := 3

  /** The default arguments of the Scene constructor. */
  const DefaultPixMeter: int := 30
  const DefaultGravity: Vector2D := Vector2D(0.0, -9.8)

  /** The two signals of Scene. */
  datatype SceneSignal =
      /** signalTimerEvent */
    | TimerSignal
      /** signalBeginContact(A, B, pos) */
    | ContactSignal(a: object?, b: object?, pos: PointF)

  /**
   * What onBeginContact emits for a contact: the user-data pointers of the
   * bodies of fixture A and fixture B, and the first world manifold point
   * in pixels.
   */
  function ContactReport(c: Contact, pixMeter: int): SceneSignal {
    ContactSignal(c.bodyA.userData, c.bodyB.userData,
                  PMul(Vec2ToPoint(c.worldManifold.point0), pixMeter as real))
  }

  /**
   * The scene signals one step's listener signals produce: the scene is
   * connected to BeginContactSignal only, so each begin-contact yields one
   * report, in order, and every other signal yields none.
   */
  function Reports(sigs: seq<ListenerSignal>, pixMeter: int): (r: seq<SceneSignal>)
    ensures |r| <= |sigs|
    ensures forall s :: s in r ==> s.ContactSignal?
  {
    if |sigs| == 0 then []
    else
      var last := sigs[|sigs| - 1];
      Reports(sigs[..|sigs| - 1], pixMeter)
        + (if last.BeginContactSignal? then [ContactReport(last.contact, pixMeter)] else [])
  }

  /** Reporting one more signal extends the reports by what that signal yields. */
  lemma ReportsSnoc(sigs: seq<ListenerSignal>, i: int, pixMeter: int)
    requires 0 <= i < |sigs|
    ensures Reports(sigs[..i + 1], pixMeter) == Reports(sigs[..i], pixMeter)
      + (if sigs[i].BeginContactSignal? then [ContactReport(sigs[i].contact, pixMeter)] else [])
  {
    assert sigs[..i + 1][..i] == sigs[..i];
  }

  /** The number of begin-contact signals in a log. */
  function BeginCount(sigs: seq<ListenerSignal>): nat {
    if |sigs| == 0 then 0
    else BeginCount(sigs[..|sigs| - 1]) + (if sigs[|sigs| - 1].BeginContactSignal? then 1 else 0)
  }

  /** A step's callbacks produce exactly one scene report per BeginContact callback. */
  lemma {:induction false} ReportsPerBeginContact(cbs: seq<Callback>, pixMeter: int)
    ensures |Reports(ForwardAll(cbs), pixMeter)| == BeginCount(ForwardAll(cbs))
    ensures (forall i :: 0 <= i < |cbs| ==> !cbs[i].BeginContact?) ==> Reports(ForwardAll(cbs), pixMeter) == []
  {
    if |cbs| > 0 {
      var init := cbs[..|cbs| - 1];
      ReportsPerBeginContact(init, pixMeter);
      assert ForwardAll(cbs)[..|cbs| - 1] == ForwardAll(init);
      ForwardFaithful(cbs[|cbs| - 1]);
    }
  }

  /**
   * One turn of the sweep over entry i of the snapshot q keeps the list
   * equal to q's first entries removed from the original list s, and the
   * deletions equal to the sweep's deletions so far.
   */
  lemma SweepTurn<T>(s: seq<T>, q: seq<T>, i: int, base: seq<T>,
                     prevItems: seq<T>, prevDeleted: seq<T>, nextItems: seq<T>, nextDeleted: seq<T>)
    requires 0 <= i < |q|
    requires prevItems == RemoveEach(s, q[..i]) && prevDeleted == base + SweepDeleted(s, q[..i])
    requires nextItems == RemoveOne(prevItems, q[i])
    requires nextDeleted == prevDeleted + (if q[i] in prevItems then [q[i]] else [])
    ensures nextItems == RemoveEach(s, q[..i + 1])
    ensures nextDeleted == base + SweepDeleted(s, q[..i + 1])
  {
    assert q[..i + 1][..i] == q[..i];
  }

  /**
   * When both bodies of a contact belong to valid items, the report names
   * exactly those items, and its position divided by the scale is the
   * manifold point in physics units.
   */
  lemma ContactNamesItems(c: Contact, a: ItemBase, b: ItemBase, pixMeter: int)
    requires pixMeter > 0
    requires a.body == c.bodyA && b.body == c.bodyB
    requires a.body != null && a.body.userData == a && b.body != null && b.body.userData == b
    ensures ContactReport(c, pixMeter).a == a && ContactReport(c, pixMeter).b == b
    ensures PointToVec2(PDiv(ContactReport(c, pixMeter).pos, pixMeter as real)) == c.worldManifold.point0
  {
    var p := Vec2ToPoint(c.worldManifold.point0);
    assert PDiv(PMul(p, pixMeter as real), pixMeter as real) == p;
  }

  /**
   * A clear() followed by one tick: every item that was in the scene is
   * queued by the clear, so the sweep of that tick removes all of them from
   * m_items, whatever was queued before.
   */
  lemma ClearThenTickEmpties(items: seq<ItemBase>, pending: seq<ItemBase>, listed: seq<ItemBase>,
                             sceneItems: set<ItemBase>)
    requires NoDup(items) && (forall it :: it in items <==> it in sceneItems)
    requires multiset(listed) == multiset(sceneItems)
    ensures RemoveEach(items, pending + listed) == []
  {
    forall it | it in items ensures it in listed {
      assert it in multiset(sceneItems);
    }
    RemoveEachAllQueued(items, pending, listed);
  }

  /** The bodies that the items of d had, by the map bodyOf. */
  ghost function BodiesOf(bodyOf: map<ItemBase, Body?>, d: seq<ItemBase>): set<Body?> {
    set it | it in d && it in bodyOf :: bodyOf[it]
  }

  lemma BodiesOfSnoc(bodyOf: map<ItemBase, Body?>, d: seq<ItemBase>, x: ItemBase)
    ensures BodiesOf(bodyOf, d + [x]) == BodiesOf(bodyOf, d) + (if x in bodyOf then {bodyOf[x]} else {})
  {
  }

  /**
   * One turn of the sweep on the world's bodies: when the entry x was
   * listed, the body it had leaves the world, and otherwise nothing does.
   */
  lemma SweepBodies(b0: set<Body>, prev: set<Body>, next: set<Body>, bodyOf: map<ItemBase, Body?>,
                    done: seq<ItemBase>, x: ItemBase, xb: Body?, listed: bool)
    requires prev == b0 - BodiesOf(bodyOf, done)
    requires listed ==> x in bodyOf && xb == bodyOf[x] && next == prev - {xb}
    requires !listed ==> next == prev
    ensures next == b0 - BodiesOf(bodyOf, done + (if listed then [x] else []))
  {
    BodiesOfSnoc(bodyOf, done, x);
    if !listed {
      assert done + [] == done;
    }
  }

  class Scene {
    /** Scene::m_pix_meter as this scene set it. */
    const pixMeter: int
    /** m_pWorld */
    const world: World
    /** m_items */
    var items: seq<ItemBase>
    /** The graphics scene's items. */
    var sceneItems: set<ItemBase>
    /** m_destroyItems */
    var destroyItems: seq<ItemBase>
    /** m_isStop */
    var isStop: bool
    /** Every signal emitted so far, oldest first. */
    var signals: seq<SceneSignal>
    /** Every item deleted so far, in order. */
    ghost var deleted: seq<ItemBase>

    /** m_items and the graphics scene hold the same items, each once. */
    ghost predicate Listed()
      reads this`items, this`sceneItems
    {
      && NoDup(items)
      && (forall it :: it in items ==> it in sceneItems)
      && (forall it :: it in sceneItems ==> it in items)
    }

    /**
     * Every item of the graphics scene is a valid item at this scene's
     * scale whose body is in the world and which has not been deleted; no
     * item has been deleted twice.
     */
    ghost predicate Live()
      reads this`sceneItems, this`deleted, world`bodies, sceneItems, world.bodies
    {
      && NoDup(deleted)
      && (forall it :: it in sceneItems ==>
            && it.body in world.bodies
            && it.Valid()
            && it.scale == pixMeter
            && it !in deleted)
    }

    /** The scene's invariant. */
    ghost predicate Valid()
      reads this`items, this`sceneItems, this`deleted, world`bodies, sceneItems, world.bodies
    {
      pixMeter > 0 && Listed() && Live()
    }

    /**
     * Scene::Scene: a world with the given gravity, the scale set, and the
     * scene stopped with nothing in it.
     */
    constructor (gravity: Vector2D, pixMeter: int)
      requires pixMeter > 0
      ensures Valid() && fresh(world)
      ensures this.pixMeter == pixMeter && world.gravity == Vector2DToVec2(gravity)
      ensures world.bodies == {} && world.steps == []
      ensures items == [] && sceneItems == {} && destroyItems == [] && isStop && signals == []
    {
      this.pixMeter := pixMeter;
      world := new World(Vector2DToVec2(gravity));
      items := [];
      sceneItems := {};
      destroyItems := [];
      isStop := true;
      signals := [];
      deleted := [];
    }

    /**
     * Scene::CreateItem after the item exists: addItem puts it in the
     * graphics scene and m_items gets it at the end.
     */
    method Register(item: ItemBase)
      requires Valid()
      requires item.body in world.bodies && item.Valid() && item.scale == pixMeter
      requires item !in sceneItems && item !in deleted
      modifies this`items, this`sceneItems
      ensures Valid()
      ensures items == old(items) + [item] && sceneItems == old(sceneItems) + {item}
    {
      NoDupAppend(items, [item]);
      items := items + [item];
      sceneItems := sceneItems + {item};
    }

    method CreateCircle(center: PointF, r: real, def: BodyDef) returns (item: ItemBase)
      requires Valid()
      modifies this`items, this`sceneItems, world`bodies
      ensures Valid() && fresh(item) && fresh(item.body)
      ensures items == old(items) + [item] && sceneItems == old(sceneItems) + {item}
      ensures world.bodies == old(world.bodies) + {item.body}
      ensures item.variant == CircleItem(r) && item.pos == center
      ensures item.body.bodyType == def.bodyType
    {
      item := new ItemBase.Circle(world, def, center, r, pixMeter);
      Register(item);
    }

    method CreateRect(center: PointF, w: real, h: real, def: BodyDef) returns (item: ItemBase)
      requires Valid()
      modifies this`items, this`sceneItems, world`bodies
      ensures Valid() && fresh(item) && fresh(item.body)
      ensures items == old(items) + [item] && sceneItems == old(sceneItems) + {item}
      ensures world.bodies == old(world.bodies) + {item.body}
      ensures item.variant == RectItem(w, h) && item.pos == center
      ensures item.body.bodyType == def.bodyType
    {
      item := new ItemBase.Rect(world, def, center, w, h, pixMeter);
      Register(item);
    }

    method CreatePolygon(points: seq<PointF>, def: BodyDef, centroid: seq<Vec2> -> Vec2)
      returns (item: ItemBase)
      requires Valid()
      requires 3 <= |points| <= MaxPolygonVertices
      modifies this`items, this`sceneItems, world`bodies
      ensures Valid() && fresh(item) && fresh(item.body)
      ensures items == old(items) + [item] && sceneItems == old(sceneItems) + {item}
      ensures world.bodies == old(world.bodies) + {item.body}
      ensures item.variant.PolygonItem? && |item.variant.points| == |points| + 1
      ensures item.body.bodyType == def.bodyType
    {
      item := new ItemBase.Polygon(world, def, points, pixMeter, centroid);
      Register(item);
    }

    method CreateEdge(p1: PointF, p2: PointF, def: BodyDef) returns (item: ItemBase)
      requires Valid()
      modifies this`items, this`sceneItems, world`bodies
      ensures Valid() && fresh(item) && fresh(item.body)
      ensures items == old(items) + [item] && sceneItems == old(sceneItems) + {item}
      ensures world.bodies == old(world.bodies) + {item.body}
      ensures item.variant.EdgeItem? && item.pos == Midpoint(p1, p2)
      ensures item.body.bodyType == def.bodyType
    {
      item := new ItemBase.Edge(world, def, p1, p2, pixMeter);
      Register(item);
    }

    /** Scene::CreateChan */
    method CreateChain(points: seq<PointF>, def: BodyDef, centroid: seq<Vec2> -> Vec2)
      returns (item: ItemBase)
      requires Valid()
      requires 3 <= |points| <= MaxPolygonVertices
      modifies this`items, this`sceneItems, world`bodies
      ensures Valid() && fresh(item) && fresh(item.body)
      ensures items == old(items) + [item] && sceneItems == old(sceneItems) + {item}
      ensures world.bodies == old(world.bodies) + {item.body}
      ensures item.variant.ChainItem? && |item.variant.points| == |points|
      ensures item.body.bodyType == def.bodyType
    {
      item := new ItemBase.Chain(world, def, points, pixMeter, centroid);
      Register(item);
    }

    /**
     * Scene::DestroyItem: the item is only queued, however often it already
     * is; nothing leaves the scene until the next tick.
     */
    method DestroyItem(item: ItemBase)
      modifies this`destroyItems
      ensures destroyItems == old(destroyItems) + [item]
    {
      destroyItems := destroyItems + [item];
    }

    method Start()
      modifies this`isStop
      ensures !isStop
    {
      isStop := false;
    }

    method Stop()
      modifies this`isStop
      ensures isStop
    {
      isStop := true;
    }

    /**
     * Scene::clear: every item of the graphics scene is queued, in the
     * unspecified order QGraphicsScene::items() lists them; nothing is
     * removed yet.
     */
    method Clear()
      modifies this`destroyItems
      ensures |destroyItems| >= |old(destroyItems)|
      ensures destroyItems[..|old(destroyItems)|] == old(destroyItems)
      ensures multiset(destroyItems[|old(destroyItems)|..]) == multiset(sceneItems)
    {
      var rest := sceneItems;
      var listed: seq<ItemBase> := [];
      while rest != {}
        invariant rest <= sceneItems
        invariant multiset(listed) + multiset(rest) == multiset(sceneItems)
        decreases |rest|
      {
        var it :| it in rest;
        listed := listed + [it];
        assert multiset(rest - {it}) + multiset{it} == multiset(rest);
        rest := rest - {it};
      }
      var before := destroyItems;
      destroyItems := destroyItems + listed;
      assert destroyItems[..|before|] == before && destroyItems[|before|..] == listed;
    }

    /** Scene::setShowAllShape: every item of m_items shows its outline, or none does. */
    method SetShowAllShape(show: bool)
      requires Valid()
      modifies sceneItems`isShowShape
      ensures Valid()
      ensures forall it :: it in items ==> it.isShowShape == show
      ensures forall it :: it in sceneItems ==> it.isShowBoundingRect == old(it.isShowBoundingRect)
    {
      var i := 0;
      while i < |items|
        invariant 0 <= i <= |items|
        invariant forall it :: it in sceneItems ==> it.body == old(it.body) && it.b2Shape == old(it.b2Shape)
        invariant forall it :: it in sceneItems ==> it.isShowBoundingRect == old(it.isShowBoundingRect)
        invariant forall k :: 0 <= k < i ==> items[k].isShowShape == show
      {
        items[i].SetShowShape(show);
        i := i + 1;
      }
    }

    /** Scene::setShowAllBoundingRect: every item of m_items shows its bounding rect, or none does. */
    method SetShowAllBoundingRect(show: bool)
      requires Valid()
      modifies sceneItems`isShowBoundingRect
      ensures Valid()
      ensures forall it :: it in items ==> it.isShowBoundingRect == show
      ensures forall it :: it in sceneItems ==> it.isShowShape == old(it.isShowShape)
    {
      var i := 0;
      while i < |items|
        invariant 0 <= i <= |items|
        invariant forall it :: it in sceneItems ==> it.body == old(it.body) && it.b2Shape == old(it.b2Shape)
        invariant forall it :: it in sceneItems ==> it.isShowShape == old(it.isShowShape)
        invariant forall k :: 0 <= k < i ==> items[k].isShowBoundingRect == show
      {
        items[i].SetShowBoundingRect(show);
        i := i + 1;
      }
    }

    /** Scene::onBeginContact */
    method OnBeginContact(c: Contact)
      modifies this`signals
      ensures signals == old(signals) + [ContactReport(c, pixMeter)]
    {
      var a := c.bodyA.userData;
      var b := c.bodyB.userData;
      var pos := PMul(Vec2ToPoint(c.worldManifold.point0), pixMeter as real);
      signals := signals + [ContactSignal(a, b, pos)];
    }

    /**
     * One turn of the sweep in Scene::timerEvent for the item at the head
     * of the queue: it is taken off the queue and off m_items, and removed
     * from the graphics scene and deleted when it is still there.
     */
    method SweepOne(item: ItemBase)
      requires Valid()
      requires |destroyItems| > 0 && destroyItems[0] == item
      modifies this`items, this`sceneItems, this`destroyItems, this`deleted, world`bodies,
               sceneItems`body, sceneItems`b2Shape, world.bodies
      ensures Valid()
      ensures destroyItems == old(destroyItems)[1..]
      ensures items == RemoveOne(old(items), item)
      ensures deleted == old(deleted) + (if item in old(items) then [item] else [])
      ensures sceneItems == old(sceneItems) - {item}
      ensures world.bodies == old(world.bodies) - (if item in old(items) then {old(item.body)} else {})
      ensures item in old(items) ==> item.body == null
      ensures forall it :: it in old(sceneItems) && it != item ==> it.body == old(it.body)
    {
      destroyItems := RemoveOne(destroyItems, item);
      forall y | y in items ensures y in RemoveOne(items, item) <==> y != item {
        RemoveOneMember(items, item, y);
      }
      forall y | y in RemoveOne(items, item) ensures y in items && y != item {
        RemoveOneMember(items, item, y);
      }
      RemoveOneMember(items, item, item);
      items := RemoveOne(items, item);
      if item in sceneItems {
        DeleteItem(item);
      }
    }

    /**
     * QGraphicsScene::removeItem followed by delete: the item leaves the
     * graphics scene and its destructor destroys its body.
     */
    method DeleteItem(item: ItemBase)
      requires Live() && item in sceneItems
      modifies this`sceneItems, this`deleted, world`bodies, item`body, item`b2Shape, item.body`fixtures
      ensures Live()
      ensures sceneItems == old(sceneItems) - {item} && deleted == old(deleted) + [item]
      ensures world.bodies == old(world.bodies) - {old(item.body)}
      ensures item.body == null && item.b2Shape.None?
    {
      sceneItems := sceneItems - {item};
      NoDupAppend(deleted, [item]);
      deleted := deleted + [item];
      item.Destroy(world);
    }

    /**
     * The first part of Scene::timerEvent: each entry of a snapshot of the
     * queue, in order, goes through one turn of the sweep. The bodies of
     * the deleted items leave the world, and nothing else does.
     */
    method SweepDestroyed()
      requires Valid()
      modifies this`items, this`sceneItems, this`destroyItems, this`deleted, world`bodies,
               sceneItems`body, sceneItems`b2Shape, world.bodies
      ensures Valid()
      ensures destroyItems == []
      ensures items == RemoveEach(old(items), old(destroyItems))
      ensures deleted == old(deleted) + SweepDeleted(old(items), old(destroyItems))
      ensures sceneItems <= old(sceneItems)
      ensures world.bodies == old(world.bodies) - old(set it | it in SweepDeleted(items, destroyItems) :: it.body)
      ensures forall it :: it in SweepDeleted(old(items), old(destroyItems)) ==> it.body == null
    {
      var snapshot := destroyItems;
      ghost var bodyOf := map it | it in items :: it.body;
      var i := 0;
      while i < |snapshot|
        invariant 0 <= i <= |snapshot|
        invariant Valid()
        invariant destroyItems == snapshot[i..]
        invariant items == RemoveEach(old(items), snapshot[..i])
        invariant deleted == old(deleted) + SweepDeleted(old(items), snapshot[..i])
        invariant sceneItems <= old(sceneItems)
        invariant forall it :: it in items ==> it in bodyOf && it.body == bodyOf[it]
        invariant world.bodies == old(world.bodies) - BodiesOf(bodyOf, SweepDeleted(old(items), snapshot[..i]))
        invariant forall it :: it in SweepDeleted(old(items), snapshot[..i]) ==> it.body == null
      {
        SweepStep(snapshot, i, old(items), old(deleted), old(world.bodies), bodyOf);
        i := i + 1;
      }
      assert snapshot[..i] == snapshot;
      ghost var swept := SweepDeleted(old(items), snapshot);
      forall it | it in swept ensures it in bodyOf && bodyOf[it] == old(it.body) {
        SweepDeletedFrom(old(items), snapshot, it);
      }
    }

    /**
     * One iteration of SweepDestroyed's loop over entry i of the snapshot
     * q, with the loop's invariant in terms of the list s0, the deletions
     * d0 and the world's bodies b0 from before the sweep, and each listed
     * item's body then.
     */
    method SweepStep(q: seq<ItemBase>, i: nat, ghost s0: seq<ItemBase>, ghost d0: seq<ItemBase>,
                     ghost b0: set<Body>, ghost bodyOf: map<ItemBase, Body?>)
      requires Valid()
      requires i < |q| && destroyItems == q[i..]
      requires items == RemoveEach(s0, q[..i]) && deleted == d0 + SweepDeleted(s0, q[..i])
      requires forall it :: it in items ==> it in bodyOf && it.body == bodyOf[it]
      requires world.bodies == b0 - BodiesOf(bodyOf, SweepDeleted(s0, q[..i]))
      requires forall it :: it in SweepDeleted(s0, q[..i]) ==> it.body == null
      modifies this`items, this`sceneItems, this`destroyItems, this`deleted, world`bodies,
               sceneItems`body, sceneItems`b2Shape, world.bodies
      ensures Valid()
      ensures destroyItems == q[i + 1..]
      ensures items == RemoveEach(s0, q[..i + 1]) && deleted == d0 + SweepDeleted(s0, q[..i + 1])
      ensures sceneItems <= old(sceneItems)
      ensures forall it :: it in items ==> it in bodyOf && it.body == bodyOf[it]
      ensures world.bodies == b0 - BodiesOf(bodyOf, SweepDeleted(s0, q[..i + 1]))
      ensures forall it :: it in SweepDeleted(s0, q[..i + 1]) ==> it.body == null
    {
      ghost var prevItems, prevDeleted, prevBodies := items, deleted, world.bodies;
      ghost var done := SweepDeleted(s0, q[..i]);
      var x := q[i];
      ghost var xb := x.body;
      assert x in prevItems ==> x in bodyOf && x.body == bodyOf[x];
      SweepOne(x);
      SweepTurn(s0, q, i, d0, prevItems, prevDeleted, items, deleted);
      assert q[..i + 1][..i] == q[..i];
      assert SweepDeleted(s0, q[..i + 1]) == done + (if x in prevItems then [x] else []);
      forall it | it in items ensures it in bodyOf && it.body == bodyOf[it] {
        assert it in sceneItems && it != x;
      }
      forall it | it in done ensures it.body == null {
        assert it in prevDeleted;
      }
      SweepBodies(b0, prevBodies, world.bodies, bodyOf, done, x, xb, x in prevItems);
    }

    /**
     * One fixed step of the world (1/60 s, 8 velocity and 3 position
     * iterations); the step leaves every body's fixtures in place, so the
     * items stay consistent with their bodies.
     */
    method StepWorld()
      requires Valid()
      modifies world`steps, world.bodies
      ensures Valid()
      ensures world.steps == old(world.steps) + [StepCall(1.0 / Fps, VelocityIterations, PositionIterations)]
    {
      world.Step(1.0 / Fps, VelocityIterations, PositionIterations);
    }

    /**
     * The listener signals a step produces reach the scene's slot: each
     * begin-contact signal is reported, the others are not connected.
     */
    method Dispatch(callbacks: seq<Callback>)
      modifies this`signals
      ensures signals == old(signals) + Reports(ForwardAll(callbacks), pixMeter)
    {
      var sigs := ForwardAll(callbacks);
      var i := 0;
      while i < |sigs|
        invariant 0 <= i <= |sigs|
        invariant signals == old(signals) + Reports(sigs[..i], pixMeter)
      {
        ReportsSnoc(sigs, i, pixMeter);
        if sigs[i].BeginContactSignal? {
          OnBeginContact(sigs[i].contact);
        }
        i := i + 1;
      }
      assert sigs[..i] == sigs;
    }

    /** The resynchronisation loop of Scene::timerEvent: updateTransform on every item of m_items. */
    method SyncItems()
      requires Valid()
      modifies sceneItems`pos, sceneItems`rotation
      ensures Valid()
      ensures forall it :: it in items ==> it.Synced()
    {
      var i := 0;
      while i < |items|
        invariant 0 <= i <= |items|
        invariant forall it :: it in sceneItems ==> it.body == old(it.body) && it.b2Shape == old(it.b2Shape)
        invariant forall k :: 0 <= k < i ==> items[k].Synced()
      {
        items[i].UpdateTransform();
        i := i + 1;
      }
    }

    /**
     * The running part of Scene::timerEvent: one world step, whose contact
     * callbacks reach the scene and whose signal handlers queue items, then
     * every item follows its body, then the timer signal.
     */
    method Advance(callbacks: seq<Callback>, queued: seq<ItemBase>)
      requires Valid()
      modifies this`destroyItems, this`signals, world`steps, world.bodies, sceneItems`pos, sceneItems`rotation
      ensures Valid()
      ensures items == old(items) && deleted == old(deleted)
      ensures destroyItems == old(destroyItems) + queued
      ensures world.steps == old(world.steps) + [StepCall(1.0 / Fps, VelocityIterations, PositionIterations)]
      ensures signals == old(signals) + Reports(ForwardAll(callbacks), pixMeter) + [TimerSignal]
      ensures forall it :: it in items ==> it.Synced()
    {
      StepWorld();
      Dispatch(callbacks);
      destroyItems := destroyItems + queued;
      SyncItems();
      signals := signals + [TimerSignal];
    }

    /**
     * Scene::timerEvent. The world's callbacks during the step and the
     * items that the handlers of the scene's signals queue during the step
     * are parameters.
     */
    method TimerEvent(callbacks: seq<Callback>, queued: seq<ItemBase>)
      requires Valid()
      modifies this`items, this`sceneItems, this`destroyItems, this`deleted, this`signals,
               world`bodies, world`steps, world.bodies,
               sceneItems`body, sceneItems`b2Shape, sceneItems`pos, sceneItems`rotation
      ensures Valid()
      ensures items == RemoveEach(old(items), old(destroyItems))
      ensures deleted == old(deleted) + SweepDeleted(old(items), old(destroyItems))
      ensures world.bodies == old(world.bodies) - old(set it | it in SweepDeleted(items, destroyItems) :: it.body)
      ensures forall it :: it in SweepDeleted(old(items), old(destroyItems)) ==> it.body == null
      ensures isStop == old(isStop)
      ensures isStop ==> destroyItems == [] && world.steps == old(world.steps) && signals == old(signals)
      ensures !isStop ==>
        && destroyItems == queued
        && world.steps == old(world.steps) + [StepCall(1.0 / Fps, VelocityIterations, PositionIterations)]
        && signals == old(signals) + Reports(ForwardAll(callbacks), pixMeter) + [TimerSignal]
        && forall it :: it in items ==> it.Synced()
    {
      ghost var swept := SweepDeleted(items, destroyItems);
      SweepDestroyed();
      if isStop {
        return;
      }
      Advance(callbacks, queued);
      forall it | it in swept ensures it.body == null {
        assert it in deleted;
      }
    }
  }
}
