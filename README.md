# GraphicsPhysics and the custom widgets, modelled in Dafny

This project models the core of a Qt application that puts Box2D rigid bodies
behind `QGraphicsItem`s, together with two of its custom widgets:

- **The scene** (`Scenes`, scene.dfy): `Scene` keeps the list of physics
  items (`m_items`), the graphics scene's own item set, and a queue of items
  waiting to be destroyed (`m_destroyItems`). Each timer tick first sweeps
  that queue. Every queued entry is taken off the queue and off `m_items`, and
  an item still in the graphics scene is removed and deleted. Then, unless the
  scene is stopped, the tick steps the world, moves every item to its body's
  pose, and emits `signalTimerEvent`. Begin-contact callbacks reach the scene
  through the contact listener and become `signalBeginContact`, carrying the
  two items and the contact point in pixels.
- **The items** (`Items`, item.dfy; `ItemShapes`, item_shapes.dfy):
  `ItemBase` and its five kinds (circle, rectangle, edge, polygon, chain) are
  one class with a `Variant`. Each constructor creates the body with the item
  as its user data, builds the outline path and the Box2D shape, places the
  body, and attaches one fixture with the default material. Polygons and chains
  are re-centred on their centroid, and their local vertices are rounded to
  whole pixels with `QPointF::toPoint`.
- **The contact listener** (`Contacts`, contact_listener.dfy): each of the
  four Box2D callbacks becomes exactly one Qt signal with the same arguments.
- **The pixel/metre bridge** (`Maths`, maths.dfy): the `QPointF`/`QVector2D`
  ↔ `b2Vec2` conversions, `qRound`, and the angle conversions.
- **b2Body's inline state logic** (`B2Body`, b2_body.dfy): the flag word, the
  body-type guards, `SetAwake`, the velocity setters, the `Apply*` family and
  the fixture list. Each setter method is proved to implement a pure function
  on a `Motion` snapshot, and the header's promises are proved about those
  functions. `B2World` (b2_world.dfy) is the part of `b2World` the scene uses.
- **ScreenCaptureWgt** (`ScreenCapture`, screen_capture.dfy): the screenshot
  dialog's states (select, move), the selection rectangle, the per-axis drag
  that keeps the selection on the screen, and the clamped menu position.
- **FrameWgt** (`Frame`, frame_wgt.dfy): the frameless window's edge and
  corner bands, the resize drag with its minimum-size check and its pinned
  drag origin, and the margin and corner-radius updates.

Pixel positions are `real` in the graphics code and `int` in the widgets,
where the mouse events give integer `QPoint`s. Entities that the source updates in place
(`Scene`, `ItemBase`, `b2Body`, `b2World`, the two widgets) are classes with
`modifies` frames. Geometry, signals and flag words are values.

Behaviour of the code that the model keeps as written:

- `Scene::DestroyItem` appends to the queue every time it is called. An item
  queued twice is still deleted only once, because the sweep checks that the
  item is still in the graphics scene (`ListOps.SweepDeletedCount`).
- No constructor checks its geometry: a zero radius, coinciding edge ends and
  the like are passed on to the engine.
- `onBeginContact` forwards the raw user-data pointers. It does not filter out
  bodies that have no item.
- `ItemCircle` divides its radius by the literal 30, not by the scene's scale
  (`Items.CircleRadiusInPixels`).
- `Scene::destroyItems` calls `m_items.removeOne` with a `QGraphicsItem*`,
  which only Qt 6's `QList` accepts, so the graphics code is Qt 6 code and
  `qRound` rounds halves away from zero (`Maths.QRoundHalves`,
  `ItemShapes.LocalPointsRoundAway`).

## Model

| member | source | states |
|---|---|---|
| Maths.Vector2DToVec2 | GraphicsPhysics/Maths/maths.cpp:3-6 | the b2Vec2 has the vector's x and y |
| Maths.PointToVec2 | GraphicsPhysics/Maths/maths.cpp:8-11 | the b2Vec2 has the point's x and y |
| Maths.Vec2ToPoint | GraphicsPhysics/Maths/maths.cpp:13-16 | the point has the vector's x and y |
| Maths.PointRoundTrip | GraphicsPhysics/Maths/maths.cpp:8-16 | vec2ToPoint(pointToVec2(p)) == p |
| Maths.Vec2RoundTrip | GraphicsPhysics/Maths/maths.cpp:8-16 | pointToVec2(vec2ToPoint(v)) == v |
| Maths.PointToVec2Div | GraphicsPhysics/Item/itembase.cpp:26 | dividing a pixel point by the scale and converting it is the converted point times 1/scale |
| Maths.DivThenMul | GraphicsPhysics/Item/itembase.cpp:24-28 | dividing by the scale and multiplying by it again recovers the point |
| Maths.QRound | GraphicsPhysics/Item/itempolygon.cpp:20 | qRound(r) is within half of r: strictly above r - 0.5 when r >= 0, strictly below r + 0.5 when r < 0 |
| Maths.QRoundOdd | GraphicsPhysics/Item/itempolygon.cpp:20 | qRound(-r) == -qRound(r) |
| Maths.QRoundHalves | GraphicsPhysics/Item/itempolygon.cpp:20 | k + 0.5 rounds to k + 1 for k >= 0, and k - 0.5 to k - 1 for k <= 0 |
| Maths.ToPointNear | GraphicsPhysics/Item/itempolygon.cpp:20 | toPoint gives whole coordinates within half a pixel of the point on each axis |
| Maths.AngleRoundTrip | GraphicsPhysics/Item/itembase.cpp:30-34 | qRadiansToDegrees and qDegreesToRadians are inverse to each other, both ways |
| B2Body.WithFlag | GraphicsPhysics/box2d-2.4.2/include/box2d/b2_body.h:781-791 | setting or clearing one bit of m_flags: the bit ends up set exactly when asked, and every other bit is unchanged |
| B2Body.ClearAfterSet | GraphicsPhysics/box2d-2.4.2/include/box2d/b2_body.h:798-819 | clearing a bit just set gives the same word as clearing it alone |
| B2Body.InitialFlags | GraphicsPhysics/box2d-2.4.2/include/box2d/b2_body.h:570-579 | a new body's bullet, fixed-rotation, auto-sleep and enabled bits follow the definition; it is awake only if asked and not static; the island and TOI bits are clear |
| B2Body.DefaultBodyDefFlags | GraphicsPhysics/box2d-2.4.2/include/box2d/b2_body.h:55-70 | the default definition is a static, enabled, sleepable, non-bullet body at rest at the origin with gravity scale 1, and a body made from it is not awake |
| B2Body.Awaken | GraphicsPhysics/box2d-2.4.2/include/box2d/b2_body.h:798-819 | a static body is unchanged; otherwise the awake bit equals flag and the sleep time is 0; waking keeps the velocities, force and torque; sleeping zeroes all four; no other flag changes |
| B2Body.SleepAfterWake | GraphicsPhysics/box2d-2.4.2/include/box2d/b2_body.h:798-819 | SetAwake(true) then SetAwake(false) has the same effect as SetAwake(false) |
| B2Body.SleepIdempotent | GraphicsPhysics/box2d-2.4.2/include/box2d/b2_body.h:798-819 | SetAwake(false) twice has the same effect as once |
| B2Body.LinearVelocitySet | GraphicsPhysics/box2d-2.4.2/include/box2d/b2_body.h:662-675 | a static body is unchanged; otherwise the velocity is v, and the body is awake exactly when it was already awake or v·v > 0; a non-zero v restarts the sleep timer, a zero v keeps it; the angular velocity, force, torque and every other flag bit are unchanged |
| B2Body.AngularVelocitySet | GraphicsPhysics/box2d-2.4.2/include/box2d/b2_body.h:682-695 | the same guard, wake rule and sleep-timer restart for the angular velocity w; the linear velocity, force, torque and every other flag bit are unchanged |
| B2Body.SleepingAllowedSet | GraphicsPhysics/box2d-2.4.2/include/box2d/b2_body.h:836-847 | the auto-sleep bit equals flag; forbidding sleep wakes a non-static body and restarts its sleep timer; allowing it leaves the awake state and the timer alone; the dynamics are unchanged |
| B2Body.SleepingAllowedKeepsOtherBits | GraphicsPhysics/box2d-2.4.2/include/box2d/b2_body.h:836-847 | no flag bit other than auto-sleep and awake changes |
| B2Body.WakeForApply | GraphicsPhysics/box2d-2.4.2/include/box2d/b2_body.h:904-922 | the shared Apply* prologue: the body is awake afterwards exactly when it was awake or wake was asked, and its dynamics are unchanged |
| B2Body.ForceApplied | GraphicsPhysics/box2d-2.4.2/include/box2d/b2_body.h:904-922 | on a non-dynamic body, or on a sleeping body not woken, nothing changes; otherwise the body is awake and the force and the torque about the centre accumulate |
| B2Body.ForceToCenterApplied | GraphicsPhysics/box2d-2.4.2/include/box2d/b2_body.h:924-941 | the same guards, and only the force accumulates |
| B2Body.TorqueApplied | GraphicsPhysics/box2d-2.4.2/include/box2d/b2_body.h:943-960 | the same guards, and only the torque accumulates |
| B2Body.LinearImpulseApplied | GraphicsPhysics/box2d-2.4.2/include/box2d/b2_body.h:962-980 | the same guards; v grows by invMass·impulse, and ω by invI times the cross product of the lever arm and the impulse |
| B2Body.LinearImpulseToCenterApplied | GraphicsPhysics/box2d-2.4.2/include/box2d/b2_body.h:982-999 | the same guards; v grows by invMass·impulse |
| B2Body.AngularImpulseApplied | GraphicsPhysics/box2d-2.4.2/include/box2d/b2_body.h:1001-1018 | the same guards; ω grows by invI·impulse |
| B2Body.Body.constructor | GraphicsPhysics/box2d-2.4.2/include/box2d/b2_body.h:55-70 | a body takes its type, user data, pose, velocities, damping and gravity scale from the definition and its flags from InitialFlags; it starts with no force, torque or fixtures |
| B2Body.Body.SetTransform | GraphicsPhysics/box2d-2.4.2/include/box2d/b2_body.h:209 | the position and angle are the given ones, and the centre of mass moves with the origin |
| B2Body.Body.SetAwake | GraphicsPhysics/box2d-2.4.2/include/box2d/b2_body.h:798-819 | the new state is Awaken of the old |
| B2Body.Body.SetLinearVelocity | GraphicsPhysics/box2d-2.4.2/include/box2d/b2_body.h:662-675 | the new state is LinearVelocitySet of the old |
| B2Body.Body.SetAngularVelocity | GraphicsPhysics/box2d-2.4.2/include/box2d/b2_body.h:682-695 | the new state is AngularVelocitySet of the old |
| B2Body.Body.SetBullet | GraphicsPhysics/box2d-2.4.2/include/box2d/b2_body.h:781-796 | only the bullet bit changes, and IsBullet then reports flag |
| B2Body.Body.SetSleepingAllowed | GraphicsPhysics/box2d-2.4.2/include/box2d/b2_body.h:836-852 | the new state is SleepingAllowedSet of the old |
| B2Body.Body.ApplyForce | GraphicsPhysics/box2d-2.4.2/include/box2d/b2_body.h:904-922 | the new state is ForceApplied of the old, about the current centre of mass |
| B2Body.Body.ApplyForceToCenter | GraphicsPhysics/box2d-2.4.2/include/box2d/b2_body.h:924-941 | the new state is ForceToCenterApplied of the old |
| B2Body.Body.ApplyTorque | GraphicsPhysics/box2d-2.4.2/include/box2d/b2_body.h:943-960 | the new state is TorqueApplied of the old |
| B2Body.Body.ApplyLinearImpulse | GraphicsPhysics/box2d-2.4.2/include/box2d/b2_body.h:962-980 | the new state is LinearImpulseApplied of the old, with the body's inverse mass and inertia |
| B2Body.Body.ApplyLinearImpulseToCenter | GraphicsPhysics/box2d-2.4.2/include/box2d/b2_body.h:982-999 | the new state is LinearImpulseToCenterApplied of the old |
| B2Body.Body.ApplyAngularImpulse | GraphicsPhysics/box2d-2.4.2/include/box2d/b2_body.h:1001-1018 | the new state is AngularImpulseApplied of the old |
| B2Body.Body.CreateFixture | GraphicsPhysics/box2d-2.4.2/include/box2d/b2_body.h:165 | the new fixture becomes the head of the list, in front of the old list |
| B2Body.Body.DestroyFixture | GraphicsPhysics/box2d-2.4.2/include/box2d/b2_body.h:197 | a null fixture leaves the list alone; otherwise the first occurrence is removed |
| B2World.World.constructor | GraphicsPhysics/box2d-2.4.2/include/box2d/b2_world.h:56 | a world with the given gravity, no bodies and no steps |
| B2World.World.CreateBody | GraphicsPhysics/box2d-2.4.2/include/box2d/b2_world.h:96 | a fresh body built from the definition joins the body set |
| B2World.World.DestroyBody | GraphicsPhysics/box2d-2.4.2/include/box2d/b2_world.h:106 | the body leaves the set together with its fixtures |
| B2World.World.Step | GraphicsPhysics/box2d-2.4.2/include/box2d/b2_world.h:132-134 | the call is recorded with its arguments; no body is added or removed and no fixture list changes |
| Contacts.ForwardFaithful | GraphicsPhysics/ContactListener/contactlistener.cpp:5-23 | each callback yields the signal of the same kind with the same contact, and the callback can be read back from the signal |
| Contacts.ForwardAll | GraphicsPhysics/ContactListener/contactlistener.cpp:5-23 | over a step, one signal per callback, in callback order |
| Contacts.CallbacksOf | GraphicsPhysics/ContactListener/contactlistener.cpp:5-23 | reading a signal log back gives one callback per signal, in order |
| Contacts.ForwardAllRoundTrip | GraphicsPhysics/ContactListener/contactlistener.cpp:5-23 | the callback sequence is recovered exactly from the signals emitted |
| ItemShapes.Bounds | GraphicsPhysics/Item/itembase.cpp:122 | QPainterPath::boundingRect: every bounding point lies inside, each edge touches a point, and the size is non-negative |
| ItemShapes.ItemBoundingRect | GraphicsPhysics/Item/itembase.cpp:119-124 | the path's bounds grown by 3 pixels on each side |
| ItemShapes.PathPointsInBoundingRect | GraphicsPhysics/Item/itembase.cpp:119-124 | every point of every path element lies in the item's bounding rect, at least 3 pixels inside it |
| ItemShapes.OpenPath | GraphicsPhysics/Item/itemchain.cpp:19-31 | one element per point: a move to the first point, then a line to each later point |
| ItemShapes.OpenPathSnoc | GraphicsPhysics/Item/itemchain.cpp:23-30 | appending a point to a non-empty list appends one line to its path |
| ItemShapes.RectPathBounds | GraphicsPhysics/Item/itemrect.cpp:9 | the rectangle outline is bounded by exactly the w by h rectangle centred on the origin |
| ItemShapes.CirclePathBounds | GraphicsPhysics/Item/itemcircle.cpp:7 | the circle outline is bounded by the 2r square centred on the origin |
| ItemShapes.EdgeRecentring | GraphicsPhysics/Item/itemedge.cpp:8-10 | the two local ends are opposite, and adding the midpoint back gives the original ends |
| ItemShapes.EdgeDegenerate | GraphicsPhysics/Item/itemedge.cpp:8-10 | coinciding ends give both local ends at the origin |
| ItemShapes.ScaledVertices | GraphicsPhysics/Item/itempolygon.cpp:11-14 | one vertex per point, each the point divided by the scale |
| ItemShapes.LocalPoints | GraphicsPhysics/Item/itempolygon.cpp:18-22 | one local vertex per point, each toPoint of the point minus the body position |
| ItemShapes.LocalPointsNear | GraphicsPhysics/Item/itempolygon.cpp:20 | each local vertex placed back at the body position lies within half a pixel of its input point |
| ItemShapes.LocalPointsRoundAway | GraphicsPhysics/Item/itempolygon.cpp:18-21 | points (0,0) and (1,1) around a body at (0.5,0.5) become (-1,-1) and (1,1) |
| ItemShapes.ClosedLocalPoints | GraphicsPhysics/Item/itempolygon.cpp:18-23 | the local vertices followed by one closing copy of the first |
| ItemShapes.FixtureFor | GraphicsPhysics/Item/itembase.cpp:68-74 | the fixture has the shape and every material value unchanged; the float sensor value becomes true exactly when it is non-zero |
| ItemShapes.DefaultFixture | GraphicsPhysics/Item/itembase.h:41-45 | the default material gives friction 0.2, restitution 0, density 0, threshold 1 and no sensor |
| Items.RenderBodyPos | GraphicsPhysics/Item/itembase.cpp:24-28 | placing the body at p / scale and rendering it at position · scale gives back p |
| Items.CircleRadiusInPixels | GraphicsPhysics/Item/itemcircle.cpp:11 | a non-zero radius read back in pixels matches the drawn radius exactly when the scale is 30 |
| Items.ScaleVertices | GraphicsPhysics/Item/itempolygon.cpp:9-14 | the fresh vertex array holds ScaledVertices of the points |
| Items.RecentreVertices | GraphicsPhysics/Item/itempolygon.cpp:18-22 | m_points becomes LocalPoints, and the array is overwritten with them scaled to metres |
| Items.RecentreChain | GraphicsPhysics/Item/itemchain.cpp:19-31 | as RecentreVertices, and the outline is OpenPath of the local vertices |
| Items.PolygonGeometry | GraphicsPhysics/Item/itempolygon.cpp:9-27 | the body position is the centroid in pixels; m_points are the closed local vertices; the physics polygon is on the scaled local vertices |
| Items.ChainGeometry | GraphicsPhysics/Item/itemchain.cpp:10-35 | the same position and open local vertices, their open path, and a chain on them with both ghost vertices at the origin |
| Items.ItemBase.InitBase | GraphicsPhysics/Item/itembase.cpp:6-11 | a fresh body joins the world with the item as user data and the definition's type, flags and angle; the item is selectable |
| Items.ItemBase.Circle | GraphicsPhysics/Item/itemcircle.cpp:3-14 | a valid item synced with its body at center; an ellipse outline; a circle shape of radius r/30; one default-material fixture |
| Items.ItemBase.Rect | GraphicsPhysics/Item/itemrect.cpp:5-15 | a valid, synced item at center; a centred rectangle outline; a box of half-sizes w/2/scale and h/2/scale; one default fixture |
| Items.ItemBase.Edge | GraphicsPhysics/Item/itemedge.cpp:5-18 | the item sits at the midpoint; the local ends, the line outline and the edge shape are the ends minus the midpoint; one default fixture |
| Items.ItemBase.Polygon | GraphicsPhysics/Item/itempolygon.cpp:5-31 | the item sits at the centroid position; its points and outline are the closed local vertices; the physics polygon is on the scaled local vertices; one default fixture |
| Items.ItemBase.Chain | GraphicsPhysics/Item/itemchain.cpp:6-39 | the item sits at the centroid position; its points are the open local vertices with their open path; the chain shape is on them; one default fixture |
| Items.ItemBase.SetPos | GraphicsPhysics/Item/itembase.cpp:24-28 | the body moves to p / scale and keeps its angle; the item is synced and rendered at p |
| Items.ItemBase.SetRotation | GraphicsPhysics/Item/itembase.cpp:30-34 | the body keeps its position and takes the angle in radians; the item is synced and rendered at the given degrees |
| Items.ItemBase.SetMaterial | GraphicsPhysics/Item/itembase.cpp:60-78 | without a shape, the fallback box from the bounding rect; the head fixture is replaced by one with exactly the given material; an item with at most one fixture ends with exactly one |
| Items.ItemBase.SetShowBoundingRect | GraphicsPhysics/Item/itembase.cpp:80-83 | the flag is the given value |
| Items.ItemBase.SetShowShape | GraphicsPhysics/Item/itembase.cpp:85-88 | the flag is the given value |
| Items.ItemBase.SetLinearVelocity | GraphicsPhysics/Item/itembase.cpp:90-93 | the body's new state is LinearVelocitySet with v / scale |
| Items.ItemBase.SetUserData | GraphicsPhysics/Item/itembase.cpp:95-98 | the stored value is data |
| Items.ItemBase.GetUserData | GraphicsPhysics/Item/itembase.cpp:100-103 | returns the value last stored |
| Items.ItemBase.UpdateTransform | GraphicsPhysics/Item/itembase.cpp:105-117 | the render position is the body position times the scale, and the rotation is the body angle in degrees |
| Items.ItemBase.Paint | GraphicsPhysics/Item/itembase.cpp:136-171 | the item's own drawing comes first; the image, outline and bounding rect each appear exactly when enabled; nothing else is drawn; the order is fixed |
| Items.ItemBase.Destroy | GraphicsPhysics/Item/itembase.cpp:13-22 | the body leaves the world, and the body pointer and the shape are cleared |
| Items.RectDrawsItsOutline | GraphicsPhysics/Item/itemrect.cpp:9-21 | ItemRect paints exactly the rectangle its outline holds |
| ListOps.RemoveOneMultiset | GraphicsPhysics/Scene/scene.cpp:100-101 | removeOne takes away exactly one copy of x if there is one, and nothing else |
| ListOps.RemoveEachMultiset | GraphicsPhysics/Scene/scene.cpp:98-101 | removing each queued entry once takes away exactly the multiset of the queue |
| ListOps.RemoveEachMember | GraphicsPhysics/Scene/scene.cpp:98-101 | on a list without duplicates, an item survives exactly when it was listed and never queued, and no duplicates appear |
| ListOps.RemoveOneMember | GraphicsPhysics/Scene/scene.cpp:101 | one removeOne on a list without duplicates keeps exactly the other items |
| ListOps.RemoveOneAbsent | GraphicsPhysics/Scene/scene.cpp:100 | removeOne of an absent item leaves the list unchanged |
| ListOps.SweepDeletedCount | GraphicsPhysics/Scene/scene.cpp:97-107 | however often an item is queued, the sweep deletes it once if it was listed, and never otherwise |
| ListOps.SweepDeletedFrom | GraphicsPhysics/Scene/scene.cpp:97-107 | the sweep deletes exactly the items both listed and queued, each once |
| ListOps.RemoveEachCovered | GraphicsPhysics/Scene/scene.cpp:97-107 | a queue that names every listed item at least as often as it is listed empties the list |
| ListOps.RemoveEachAllQueued | GraphicsPhysics/Scene/scene.cpp:122-125 | if every listed item is queued after whatever came before, the sweep empties the list |
| Scenes.Reports | GraphicsPhysics/Scene/scene.cpp:82-93 | a step's signals give at most one report each, and every report is a begin-contact report |
| Scenes.ReportsSnoc | GraphicsPhysics/Scene/scene.cpp:13 | one more listener signal adds its report only if it is a begin-contact |
| Scenes.ReportsPerBeginContact | GraphicsPhysics/Scene/scene.cpp:13 | exactly one report per BeginContact callback, and none when the step has no begin-contact |
| Scenes.SweepTurn | GraphicsPhysics/Scene/scene.cpp:97-107 | one turn of the sweep keeps the list equal to the removal of the queue prefix, and the deletions equal to the sweep's deletions so far |
| Scenes.ContactNamesItems | GraphicsPhysics/Scene/scene.cpp:82-93 | for two valid items, the report names exactly them, and its position divided by the scale is the manifold point |
| Scenes.ClearThenTickEmpties | GraphicsPhysics/Scene/scene.cpp:122-125 | a clear followed by a tick's sweep leaves m_items empty, whatever was queued before |
| Scenes.Scene.constructor | GraphicsPhysics/Scene/scene.cpp:6-14 | the scale is set; the world has the gravity, no bodies and no steps; the scene is stopped and empty |
| Scenes.Scene.Register | GraphicsPhysics/Scene/scene.h:82-88 | the item is appended to m_items and added to the graphics scene, and the invariant is kept |
| Scenes.Scene.CreateCircle | GraphicsPhysics/Scene/scene.cpp:16-19 | a fresh circle item with a fresh body is appended, and the invariant is kept |
| Scenes.Scene.CreateRect | GraphicsPhysics/Scene/scene.cpp:21-24 | a fresh rectangle item is appended, and the invariant is kept |
| Scenes.Scene.CreatePolygon | GraphicsPhysics/Scene/scene.cpp:26-29 | a fresh polygon item with one more point than given is appended, and the invariant is kept |
| Scenes.Scene.CreateEdge | GraphicsPhysics/Scene/scene.cpp:31-34 | a fresh edge item at the midpoint is appended, and the invariant is kept |
| Scenes.Scene.CreateChain | GraphicsPhysics/Scene/scene.cpp:36-39 | a fresh chain item with as many points as given is appended, and the invariant is kept |
| Scenes.Scene.DestroyItem | GraphicsPhysics/Scene/scene.cpp:41-44 | the item is appended to the queue, even when it is already queued |
| Scenes.Scene.Start | GraphicsPhysics/Scene/scene.cpp:56-59 | the scene runs |
| Scenes.Scene.Stop | GraphicsPhysics/Scene/scene.cpp:61-64 | the scene is stopped |
| Scenes.Scene.Clear | GraphicsPhysics/Scene/scene.cpp:122-125 | the old queue is kept, and the queue is extended by every graphics-scene item exactly once, in some order |
| Scenes.Scene.SetShowAllShape | GraphicsPhysics/Scene/scene.cpp:66-72 | every listed item shows its outline exactly when asked; its frame lets it change only the items' outline flags, so the bounding-rect flags and the invariant are untouched |
| Scenes.Scene.SetShowAllBoundingRect | GraphicsPhysics/Scene/scene.cpp:74-80 | every listed item shows its bounding rect exactly when asked; its frame lets it change only the items' bounding-rect flags, so the outline flags and the invariant are untouched |
| Scenes.Scene.OnBeginContact | GraphicsPhysics/Scene/scene.cpp:82-93 | exactly one signal is emitted: ContactReport of the contact |
| Scenes.Scene.SweepOne | GraphicsPhysics/Scene/scene.cpp:99-106 | the head of the queue leaves the queue and m_items, and it is deleted only if it was still listed; then its body leaves the world and its body pointer is null, and no other body leaves and no other item's body changes; the invariant is kept |
| Scenes.Scene.DeleteItem | GraphicsPhysics/Scene/scene.cpp:104-105 | the item leaves the graphics scene, its body leaves the world, and it is recorded as deleted once |
| Scenes.Scene.SweepDestroyed | GraphicsPhysics/Scene/scene.cpp:97-107 | the queue is empty; m_items is the old list with each queued entry removed once; the deleted items are SweepDeleted; the world's bodies are the old ones less exactly the bodies the deleted items had, and each deleted item's body pointer is null; the invariant is kept |
| Scenes.Scene.StepWorld | GraphicsPhysics/Scene/scene.cpp:113 | one step of 1/60 s with 8 velocity and 3 position iterations, and the invariant is kept |
| Scenes.Scene.Dispatch | GraphicsPhysics/Scene/scene.cpp:13 | the signals grow by the reports of the step's callbacks |
| Scenes.Scene.SyncItems | GraphicsPhysics/Scene/scene.cpp:114-117 | every listed item is synced with its body, and the invariant is kept; its frame lets it change only the items' position and rotation |
| Scenes.Scene.Advance | GraphicsPhysics/Scene/scene.cpp:113-119 | one step, its contact reports, the items queued during it, every item synced, then the timer signal; m_items unchanged; its frame leaves the world's body set and every item's body, shape and display flags alone |
| Scenes.Scene.TimerEvent | GraphicsPhysics/Scene/scene.cpp:95-120 | always the sweep, whose deleted items' bodies leave the world and no others do; when stopped, nothing more; when running, one step, the contact reports, every item synced, and the timer signal; the invariant is kept |
| ScreenCapture.ScRect | UI/ScreenCaptureWgt/screencapturewgt.cpp:88-92 | the corners are ordered, both given points are inside, and every edge comes from one of them |
| ScreenCapture.ScRectSymmetric | UI/ScreenCaptureWgt/screencapturewgt.cpp:88-92 | the order of the two corners does not matter |
| ScreenCapture.ScRectSmallest | UI/ScreenCaptureWgt/screencapturewgt.cpp:88-92 | any rectangle holding both corners holds the whole selection |
| ScreenCapture.DragAxis | UI/ScreenCaptureWgt/screencapturewgt.cpp:124-140 | both ends move by d, or neither does; the extent is kept; they move exactly when both stay in [0, max] |
| ScreenCapture.DragAxisStaysOnScreen | UI/ScreenCaptureWgt/screencapturewgt.cpp:129-140 | a selection on the screen stays on it |
| ScreenCapture.DragKeepsSize | UI/ScreenCaptureWgt/screencapturewgt.cpp:124-140 | a drag keeps the selection's width and height |
| ScreenCapture.ClampMenu | UI/ScreenCaptureWgt/screencapturewgt.cpp:188-203 | with room, the result is in [0, limit] and equals v when v already is; without room, it is the negative limit |
| ScreenCapture.MenuPos | UI/ScreenCaptureWgt/screencapturewgt.cpp:186-203 | where the screen can hold the menu, the menu is entirely on it |
| ScreenCapture.MenuUnderSelection | UI/ScreenCaptureWgt/screencapturewgt.cpp:186-203 | with room, the menu is right-aligned with the selection, 10 pixels below it |
| ScreenCapture.MenuOffScreenWhenTooWide | UI/ScreenCaptureWgt/screencapturewgt.cpp:192-195 | a screen narrower than the menu puts the menu at the negative x of maxW - menuW |
| ScreenCapture.ScreenCaptureWgt.Selection | UI/ScreenCaptureWgt/screencapturewgt.cpp:88-92 | the selection is ScRect of the corners, in either order |
| ScreenCapture.ScreenCaptureWgt.constructor | UI/ScreenCaptureWgt/screencapturewgt.cpp:4-35 | selecting, the menu hidden, the dialog open, nothing captured; showFullScreen's showEvent leaves both corners at (-1,-1) |
| ScreenCapture.ScreenCaptureWgt.ShowEvent | UI/ScreenCaptureWgt/screencapturewgt.cpp:71-75 | both corners are (-1, -1), so the selection is the single pixel at (-1, -1) |
| ScreenCapture.ScreenCaptureWgt.MousePress | UI/ScreenCaptureWgt/screencapturewgt.cpp:147-176 | a non-left button rejects and changes nothing else; otherwise the menu hides, SELECT restarts at pos, a MOV press outside restarts a selection from pos keeping the end, and one inside starts a move |
| ScreenCapture.ScreenCaptureWgt.MouseMove | UI/ScreenCaptureWgt/screencapturewgt.cpp:116-145 | in SELECT the end follows the mouse; in MOV each axis moves by DragAxis and the mouse position is remembered |
| ScreenCapture.ScreenCaptureWgt.MouseRelease | UI/ScreenCaptureWgt/screencapturewgt.cpp:178-205 | SELECT becomes MOV; a move restores the arrow; the menu is shown at MenuPos |
| ScreenCapture.ScreenCaptureWgt.OnOk | UI/ScreenCaptureWgt/screencapturewgt.cpp:94-109 | the selection is captured and the dialog accepted |
| ScreenCapture.ScreenCaptureWgt.OnClose | UI/ScreenCaptureWgt/screencapturewgt.cpp:111-114 | the dialog is rejected |
| ScreenCapture.SelectByDrag | UI/ScreenCaptureWgt/screencapturewgt.cpp:116-205 | press, drag and release in SELECT select the rectangle between the two positions and show the menu |
| Frame.OpFlag.Code | UI/FrameWgt/framewgt.h:78-89 | values -1..7, and -1 exactly for NONE |
| Frame.CodeInjective | UI/FrameWgt/framewgt.h:78-89 | distinct bands have distinct values |
| Frame.BandsMoveEdges | UI/FrameWgt/framewgt.cpp:299-406 | no band moves two opposite edges, and only NONE moves none |
| Frame.OpflagAt | UI/FrameWgt/framewgt.cpp:182-241 | left bands exactly when x < blur; right bands exactly when x is past width - blur and not left; NONE exactly inside the blur margin |
| Frame.OpflagVerticalReach | UI/FrameWgt/framewgt.cpp:182-241 | in the side columns the corners reach blur + radius from the top and bottom; in the middle column the edges reach only blur |
| Frame.OpflagCornersCoverMargin | UI/FrameWgt/framewgt.cpp:182-241 | with a non-negative radius, the top-left square of the margin is the TL band |
| Frame.Settle | UI/FrameWgt/framewgt.cpp:408-418 | along each axis, a size below the minimum is refused, and that axis keeps its position and size |
| Frame.RightDragKeeps | UI/FrameWgt/framewgt.cpp:312-321 | a right-edge drag keeps the position and height, and the width grows by dx unless that falls below the minimum |
| Frame.LeftDragKeepsRightEdge | UI/FrameWgt/framewgt.cpp:301-310 | a left-edge drag keeps the right edge, the top and the height |
| Frame.UnmovedEdgesStay | UI/FrameWgt/framewgt.cpp:299-418 | for every band, each edge the band does not move stays where it was |
| Frame.ResizeRespectsMinimum | UI/FrameWgt/framewgt.cpp:408-418 | each new size meets its minimum or is the old size with the old position; a window at its minimum stays at or above it |
| Frame.DragStep | UI/FrameWgt/framewgt.cpp:297-418 | the switch gives Resized geometry, and the drag origin is pinned to the dragged edge on an axis whose size was refused |
| Frame.Margins | UI/FrameWgt/framewgt.cpp:64-77 | no margin when maximised or full screen, the blur width otherwise |
| Frame.FrameWgt.constructor | UI/FrameWgt/framewgt.cpp:147-180 | a 400 by 300 window with shadow, radius, margins and border radius 10, no drag, not maximised, hidden since nothing shows it, and the title bar shown |
| Frame.FrameWgt.CalculateOpflag | UI/FrameWgt/framewgt.cpp:182-241 | the stored band is OpflagAt of the position and the window size |
| Frame.FrameWgt.MousePress | UI/FrameWgt/framewgt.cpp:256-273 | a press on the border widget or off every band changes nothing; otherwise a drag starts from the global position |
| Frame.FrameWgt.MouseMove | UI/FrameWgt/framewgt.cpp:275-420 | without a drag, the band is recomputed; with one, the band is kept; a maximised window does not resize; otherwise the geometry is Resized and the origin NextLastPos |
| Frame.FrameWgt.MouseRelease | UI/FrameWgt/framewgt.cpp:422-426 | any drag ends |
| Frame.FrameWgt.SetBlurRadius | UI/FrameWgt/framewgt.cpp:64-77 | the blur is r, and the margins are Margins of it |
| Frame.FrameWgt.PaintMargins | UI/FrameWgt/framewgt.cpp:430-439 | the margins are Margins of the current blur |
| Frame.FrameWgt.SetRadius | UI/FrameWgt/framewgt.cpp:52-56 | the radius is r and is applied at once |
| Frame.FrameWgt.SetHiddenTitleBar | UI/FrameWgt/framewgt.cpp:89-93 | the title bar is hidden exactly when asked, and the configured radius is applied again, even to a maximised or full-screen window |
| Frame.FrameWgt.SetBackgroundColor | UI/FrameWgt/framewgt.cpp:39-50 | square corners when maximised or full screen, the radius otherwise |
| Frame.FrameWgt.OnMax | UI/FrameWgt/framewgt.cpp:130-144 | nothing while hidden; square corners when maximised; the radius when restored |

## Left out

- Joints (`Scene::CreateJoint`, `Scene::DestroyJoint` and the joint headers): they only forward to the engine.
- `ItemBase::setImage` and `setBrush`: image loading and scaling need `QImage`. The model keeps only whether an image is loaded.
- All pixel output: the painters, pens, brushes, the dialog's blurred background, and FrameWgt's shadow painting. `ItemBase::paint` is modelled as the sequence of draw steps.
- Timers and the event loop. A tick is a call to `TimerEvent`. The world's callbacks during the step are a parameter, and so are the items that signal handlers queue during the step.
- The solver inside `b2World::Step`. A step is recorded with its arguments and promises only that no body is added or removed and no fixture list changes.
- `b2PolygonShape::Set`: its hull and centroid computation is in engine sources that are not part of this model. The centroid is a function parameter of the polygon and chain constructors.
- Mass data: `ResetMassData` is engine code, so the inverse mass and inertia are fields that the model never recomputes. The local centre of mass is taken to be the body origin: `SetTransform` puts the world centre at the new position, and the moment arms of `ApplyForce` and `ApplyLinearImpulse` are measured from there.
- `Scene::m_pix_meter` is a static shared by all scenes. Each scene and each item here keeps the scale it was made with.
- Float narrowing: `float`, `qreal` and `b2Vec2` components are all `real`.
- Overflow of `int`/`QPoint` coordinates in the widgets.
- The screen grab, the clipboard, stylesheets, cursors on the border widget, the title bar and the menu widget's layout. The menu width, the screen size and the minimum window size are constructor parameters.
- Sub-pixel mouse positions in FrameWgt: the Qt 6 branch reads the `QPointF` `globalPosition()`, and the model takes whole-pixel positions, as the Qt 5 branch's `globalPos()` gives.
- The graphics scene as a public `QGraphicsScene`: the model's scene holds exactly the items in `m_items`. Items that other code adds to or removes from it directly are not modelled, so there "still in the graphics scene" during the sweep is the same as "still in `m_items`".
- Window-state changes (`show`, `showMaximized`, `showFullScreen`, `hide`) are Qt's; `Frame.FrameWgt.SetWindowState` sets the state that FrameWgt reads.
- FrameWgt's title-bar setters, shadow colour, and the hide-min/hide-max options: they only forward to the title bar or restyle it. `setHiddenTitleBar` also re-applies the radius and is modelled; what the title bar then draws is not.
- The damping and gravity-scale setters of `b2Body`, and the getters beyond those the items use.
- `Utils` and `View`: they are outside the scene/item bridge.
- Items.ItemBase.Polygon: requires 3 to 8 points, because `b2PolygonShape::Set` asserts that count and its behaviour outside it is engine code that is not modelled.
- Items.ItemBase.Chain: requires 3 to 8 points for the same reason, since the first `Set` call runs on the chain's points too.
- Scenes.Scene.CreatePolygon and Scenes.Scene.CreateChain: carry the same 3 to 8 point requirement as the constructors they call.
- Items.ItemBase.Circle, Rect, Edge, Polygon and Chain: require a positive scale, because the source divides by `Scene::m_pix_meter`, and a zero scale there is undefined behaviour.
