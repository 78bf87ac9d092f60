/**
 * The inline state logic of Box2D's b2Body (b2_body.h): the body-type
 * guards, the flag word with its awake, auto-sleep and bullet bits, the
 * velocity and force setters, the Apply* family and the fixture list.
 *
 * The setters are specified by pure functions over a Motion snapshot (the
 * flags, velocities, accumulated force and torque, and sleep time); the
 * methods of class Body are proved to implement them, and the properties the
 * header promises are stated on those functions.
 */
module B2Body {
  import opened B2Math
  import opened B2Shapes
  import opened ListOps
  import opened Wrappers

  datatype BodyType = StaticBody | KinematicBody | DynamicBody

  /** b2BodyDef. userData is b2BodyUserData's pointer member. */
  datatype BodyDef = BodyDef(
    bodyType: BodyType,
    position: Vec2,
    angle: real,
    linearVelocity: Vec2,
    angularVelocity: real,
    linearDamping: real,
    angularDamping: real,
    allowSleep: bool,
    awake: bool,
    fixedRotation: bool,
    bullet: bool,
    enabled: bool,
    gravityScale: real,
    userData: object?)

  /** The b2BodyDef default constructor; the user-data pointer starts at zero. */
  function DefaultBodyDef(): BodyDef {
    BodyDef(StaticBody, Zero(), 0.0, Zero(), 0.0, 0.0, 0.0,
            true, true, false, false, true, 1.0, null)
  }

  // The bits of b2Body::m_flags.
  const IslandFlag: bv16 := 0x0001
  const AwakeFlag: bv16 := 0x0002
  const AutoSleepFlag: bv16 := 0x0004
  const BulletFlag: bv16 := 0x0008
  const FixedRotationFlag: bv16 := 0x0010
  const EnabledFlag: bv16 := 0x0020
  const ToiFlag: bv16 := 0x0040

  /** The test the getters use: (m_flags & bit) == bit. */
  predicate HasFlag(flags: bv16, bit: bv16) {
    flags & bit == bit
  }

  lemma SetBitFacts(flags: bv16, bit: bv16)
    ensures HasFlag(flags | bit, bit)
    ensures (flags | bit) & !bit == flags & !bit
  {
  }

  lemma ClearBitFacts(flags: bv16, bit: bv16)
    requires bit != 0
    ensures !HasFlag(flags & !bit, bit)
    ensures (flags & !bit) & !bit == flags & !bit
  {
  }

  /** m_flags |= bit when on, m_flags &= ~bit otherwise: only that bit changes. */
  function WithFlag(flags: bv16, bit: bv16, on: bool): (r: bv16)
    requires bit != 0
    ensures HasFlag(r, bit) == on
    ensures r & !bit == flags & !bit
  {
    if on then SetBitFacts(flags, bit); flags | bit
    else ClearBitFacts(flags, bit); flags & !bit
  }

  /** Setting or clearing the auto-sleep bit, then perhaps setting the awake bit, keeps every other bit. */
  lemma KeepsOtherBits(f: bv16)
    ensures (f | AutoSleepFlag) & !(AutoSleepFlag | AwakeFlag) == f & !(AutoSleepFlag | AwakeFlag)
    ensures (f & !AutoSleepFlag) & !(AutoSleepFlag | AwakeFlag) == f & !(AutoSleepFlag | AwakeFlag)
    ensures ((f & !AutoSleepFlag) | AwakeFlag) & !(AutoSleepFlag | AwakeFlag) == f & !(AutoSleepFlag | AwakeFlag)
  {
  }

  /** Clearing a bit just set leaves the word as clearing it alone would. */
  lemma ClearAfterSet(flags: bv16, bit: bv16)
    requires bit != 0
    ensures WithFlag(WithFlag(flags, bit, true), bit, false) == WithFlag(flags, bit, false)
  {
    SetBitFacts(flags, bit);
  }

  /**
   * The flag word a new body starts with. The b2Body constructor lives in
   * b2_body.cpp, which is not part of this model: this follows Box2D 2.4,
   * which never marks a static body awake.
   */
  function InitialFlags(def: BodyDef): (r: bv16)
    ensures HasFlag(r, BulletFlag) == def.bullet
    ensures HasFlag(r, FixedRotationFlag) == def.fixedRotation
    ensures HasFlag(r, AutoSleepFlag) == def.allowSleep
    ensures HasFlag(r, AwakeFlag) == (def.awake && def.bodyType != StaticBody)
    ensures HasFlag(r, EnabledFlag) == def.enabled
    ensures !HasFlag(r, IslandFlag) && !HasFlag(r, ToiFlag)
  {
    (if def.bullet then BulletFlag else 0)
    | (if def.fixedRotation then FixedRotationFlag else 0)
    | (if def.allowSleep then AutoSleepFlag else 0)
    | (if def.awake && def.bodyType != StaticBody then AwakeFlag else 0)
    | (if def.enabled then EnabledFlag else 0)
  }

  /** The part of a body's state that the inline setters change. */
  datatype Motion = Motion(
    flags: bv16,
    linearVelocity: Vec2,
    angularVelocity: real,
    force: Vec2,
    torque: real,
    sleepTime: real)

  predicate Awake(m: Motion) { HasFlag(m.flags, AwakeFlag) }

  /** Velocities, force and torque are all as they were. */
  predicate SameDynamics(a: Motion, b: Motion) {
    a.linearVelocity == b.linearVelocity && a.angularVelocity == b.angularVelocity
    && a.force == b.force && a.torque == b.torque
  }

  /**
   * b2Body::SetAwake. A static body is left alone; waking sets the awake
   * bit and restarts the sleep timer; putting to sleep clears the bit and
   * zeroes the sleep timer, both velocities, the force and the torque.
   */
  function Awaken(t: BodyType, m: Motion, flag: bool): (r: Motion)
    ensures t == StaticBody ==> r == m
    ensures t != StaticBody ==> Awake(r) == flag && r.sleepTime == 0.0
    ensures r.flags & !AwakeFlag == m.flags & !AwakeFlag
    ensures flag ==> SameDynamics(r, m)
    ensures t != StaticBody && !flag ==>
      r.linearVelocity == Zero() && r.angularVelocity == 0.0 && r.force == Zero() && r.torque == 0.0
  {
    if t == StaticBody then m
    else if flag then m.(flags := WithFlag(m.flags, AwakeFlag, true), sleepTime := 0.0)
    else m.(flags := WithFlag(m.flags, AwakeFlag, false), sleepTime := 0.0,
            linearVelocity := Zero(), angularVelocity := 0.0, force := Zero(), torque := 0.0)
  }

  /**
   * b2Body::SetLinearVelocity: ignored on a static body; otherwise the body
   * is woken when v is non-zero and the velocity is stored.
   */
  function LinearVelocitySet(t: BodyType, m: Motion, v: Vec2): (r: Motion)
    ensures t == StaticBody ==> r == m
    ensures t != StaticBody ==> r.linearVelocity == v
    ensures t != StaticBody ==> Awake(r) == (Awake(m) || Dot(v, v) > 0.0)
    ensures t != StaticBody && Dot(v, v) > 0.0 ==> r.sleepTime == 0.0
    ensures t == StaticBody || !(Dot(v, v) > 0.0) ==> r.sleepTime == m.sleepTime
    ensures r.flags & !AwakeFlag == m.flags & !AwakeFlag
    ensures r.angularVelocity == m.angularVelocity && r.force == m.force && r.torque == m.torque
  {
    if t == StaticBody then m
    else (if Dot(v, v) > 0.0 then Awaken(t, m, true) else m).(linearVelocity := v)
  }

  /** b2Body::SetAngularVelocity: the same guard and wake rule for w. */
  function AngularVelocitySet(t: BodyType, m: Motion, w: real): (r: Motion)
    ensures t == StaticBody ==> r == m
    ensures t != StaticBody ==> r.angularVelocity == w
    ensures t != StaticBody ==> Awake(r) == (Awake(m) || w * w > 0.0)
    ensures t != StaticBody && w * w > 0.0 ==> r.sleepTime == 0.0
    ensures t == StaticBody || !(w * w > 0.0) ==> r.sleepTime == m.sleepTime
    ensures r.flags & !AwakeFlag == m.flags & !AwakeFlag
    ensures r.linearVelocity == m.linearVelocity && r.force == m.force && r.torque == m.torque
  {
    if t == StaticBody then m
    else (if w * w > 0.0 then Awaken(t, m, true) else m).(angularVelocity := w)
  }

  /**
   * b2Body::SetSleepingAllowed: sets or clears the auto-sleep bit; clearing
   * it also wakes the body, which a static body ignores.
   */
  function SleepingAllowedSet(t: BodyType, m: Motion, flag: bool): (r: Motion)
    ensures HasFlag(r.flags, AutoSleepFlag) == flag
    ensures flag || t == StaticBody ==> Awake(r) == Awake(m)
    ensures !flag && t != StaticBody ==> Awake(r)
    ensures !flag && t != StaticBody ==> r.sleepTime == 0.0
    ensures flag || t == StaticBody ==> r.sleepTime == m.sleepTime
    ensures SameDynamics(r, m)
  {
    if flag then m.(flags := WithFlag(m.flags, AutoSleepFlag, true))
    else Awaken(t, m.(flags := WithFlag(m.flags, AutoSleepFlag, false)), true)
  }

  /** SetSleepingAllowed touches no flag but the auto-sleep and awake bits. */
  lemma SleepingAllowedKeepsOtherBits(t: BodyType, m: Motion, flag: bool)
    ensures SleepingAllowedSet(t, m, flag).flags & !(AutoSleepFlag | AwakeFlag)
         == m.flags & !(AutoSleepFlag | AwakeFlag)
  {
    if flag {
      AllowSleepKeepsOtherBits(t, m, flag);
    } else if t == StaticBody {
      StaticForbidSleepKeepsOtherBits(t, m, flag);
    } else {
      ForbidSleepKeepsOtherBits(t, m, flag);
    }
  }

  /** Allowing sleep only sets the auto-sleep bit. */
  lemma AllowSleepKeepsOtherBits(t: BodyType, m: Motion, flag: bool)
    requires flag
    ensures SleepingAllowedSet(t, m, flag).flags & !(AutoSleepFlag | AwakeFlag)
         == m.flags & !(AutoSleepFlag | AwakeFlag)
  {
    assert SleepingAllowedSet(t, m, flag).flags == m.flags | AutoSleepFlag;
    KeepsOtherBits(m.flags);
  }

  /** Forbidding sleep on a static body only clears the auto-sleep bit. */
  lemma StaticForbidSleepKeepsOtherBits(t: BodyType, m: Motion, flag: bool)
    requires !flag && t == StaticBody
    ensures SleepingAllowedSet(t, m, flag).flags & !(AutoSleepFlag | AwakeFlag)
         == m.flags & !(AutoSleepFlag | AwakeFlag)
  {
    assert SleepingAllowedSet(t, m, flag).flags == m.flags & !AutoSleepFlag;
    KeepsOtherBits(m.flags);
  }

  /** Forbidding sleep on any other body clears the auto-sleep bit and sets the awake bit. */
  lemma ForbidSleepKeepsOtherBits(t: BodyType, m: Motion, flag: bool)
    requires !flag && t != StaticBody
    ensures SleepingAllowedSet(t, m, flag).flags & !(AutoSleepFlag | AwakeFlag)
         == m.flags & !(AutoSleepFlag | AwakeFlag)
  {
    assert SleepingAllowedSet(t, m, flag).flags == (m.flags & !AutoSleepFlag) | AwakeFlag;
    KeepsOtherBits(m.flags);
  }

  /**
   * The prologue every Apply* method shares on a dynamic body: when asked
   * to wake a sleeping body, wake it.
   */
  function WakeForApply(m: Motion, wake: bool): (r: Motion)
    ensures Awake(r) == (Awake(m) || wake)
    ensures SameDynamics(r, m)
  {
    if wake && !Awake(m) then Awaken(DynamicBody, m, true) else m
  }

  /**
   * The outcome common to every Apply*: nothing on a non-dynamic body or on
   * a sleeping body that is not to be woken; otherwise the body is awake and
   * `accumulated` is the result.
   */
  predicate AppliedAs(t: BodyType, m: Motion, wake: bool, r: Motion, accumulated: Motion) {
    && (t != DynamicBody ==> r == m)
    && (t == DynamicBody && !wake && !Awake(m) ==> r == m)
    && (t == DynamicBody && (wake || Awake(m)) ==> Awake(r) && r == accumulated)
  }

  /** b2Body::ApplyForce: force at a world point also adds its torque about the centre. */
  function ForceApplied(t: BodyType, m: Motion, center: Vec2, f: Vec2, point: Vec2, wake: bool): (r: Motion)
    ensures AppliedAs(t, m, wake, r,
      WakeForApply(m, wake).(force := Add(m.force, f), torque := m.torque + Cross(Sub(point, center), f)))
  {
    if t != DynamicBody then m
    else
      var w := WakeForApply(m, wake);
      if Awake(w) then w.(force := Add(w.force, f), torque := w.torque + Cross(Sub(point, center), f))
      else w
  }

  /** b2Body::ApplyForceToCenter: only the force accumulates. */
  function ForceToCenterApplied(t: BodyType, m: Motion, f: Vec2, wake: bool): (r: Motion)
    ensures AppliedAs(t, m, wake, r, WakeForApply(m, wake).(force := Add(m.force, f)))
  {
    if t != DynamicBody then m
    else
      var w := WakeForApply(m, wake);
      if Awake(w) then w.(force := Add(w.force, f)) else w
  }

  /** b2Body::ApplyTorque. */
  function TorqueApplied(t: BodyType, m: Motion, torque: real, wake: bool): (r: Motion)
    ensures AppliedAs(t, m, wake, r, WakeForApply(m, wake).(torque := m.torque + torque))
  {
    if t != DynamicBody then m
    else
      var w := WakeForApply(m, wake);
      if Awake(w) then w.(torque := w.torque + torque) else w
  }

  /** b2Body::ApplyLinearImpulse: both velocities change, scaled by the inverse mass and inertia. */
  function LinearImpulseApplied(t: BodyType, m: Motion, invMass: real, invI: real, center: Vec2,
                                impulse: Vec2, point: Vec2, wake: bool): (r: Motion)
    ensures AppliedAs(t, m, wake, r,
      WakeForApply(m, wake).(linearVelocity := Add(m.linearVelocity, Mul(invMass, impulse)),
                             angularVelocity := m.angularVelocity + invI * Cross(Sub(point, center), impulse)))
  {
    if t != DynamicBody then m
    else
      var w := WakeForApply(m, wake);
      if Awake(w) then
        w.(linearVelocity := Add(w.linearVelocity, Mul(invMass, impulse)),
           angularVelocity := w.angularVelocity + invI * Cross(Sub(point, center), impulse))
      else w
  }

  /** b2Body::ApplyLinearImpulseToCenter: v += invMass * impulse. */
  function LinearImpulseToCenterApplied(t: BodyType, m: Motion, invMass: real, impulse: Vec2, wake: bool): (r: Motion)
    ensures AppliedAs(t, m, wake, r,
      WakeForApply(m, wake).(linearVelocity := Add(m.linearVelocity, Mul(invMass, impulse))))
  {
    if t != DynamicBody then m
    else
      var w := WakeForApply(m, wake);
      if Awake(w) then w.(linearVelocity := Add(w.linearVelocity, Mul(invMass, impulse))) else w
  }

  /** b2Body::ApplyAngularImpulse: w += invI * impulse. */
  function AngularImpulseApplied(t: BodyType, m: Motion, invI: real, impulse: real, wake: bool): (r: Motion)
    ensures AppliedAs(t, m, wake, r,
      WakeForApply(m, wake).(angularVelocity := m.angularVelocity + invI * impulse))
  {
    if t != DynamicBody then m
    else
      var w := WakeForApply(m, wake);
      if Awake(w) then w.(angularVelocity := w.angularVelocity + invI * impulse) else w
  }

  /**
   * A default body definition describes a static body that may sleep, is
   * enabled and not a bullet, and at rest at the origin; a body made from it
   * does not start awake, because it is static.
   */
  lemma DefaultBodyDefFlags()
    ensures DefaultBodyDef().bodyType == StaticBody && DefaultBodyDef().awake
    ensures DefaultBodyDef().position == Zero() && DefaultBodyDef().angle == 0.0
    ensures DefaultBodyDef().linearVelocity == Zero() && DefaultBodyDef().angularVelocity == 0.0
    ensures DefaultBodyDef().gravityScale == 1.0
    ensures var f := InitialFlags(DefaultBodyDef());
      HasFlag(f, AutoSleepFlag) && HasFlag(f, EnabledFlag) && !HasFlag(f, BulletFlag)
      && !HasFlag(f, FixedRotationFlag) && !HasFlag(f, AwakeFlag)
  {
  }

  /** Waking a body and then putting it to sleep is the same as putting it to sleep. */
  lemma SleepAfterWake(t: BodyType, m: Motion)
    ensures Awaken(t, Awaken(t, m, true), false) == Awaken(t, m, false)
  {
    if t != StaticBody {
      ClearAfterSet(m.flags, AwakeFlag);
    }
  }

  /** Putting a body to sleep twice is the same as doing it once. */
  lemma SleepIdempotent(t: BodyType, m: Motion)
    ensures Awaken(t, Awaken(t, m, false), false) == Awaken(t, m, false)
  {
    ClearBitFacts(m.flags, AwakeFlag);
  }

  /** A Box2D body: the fields the inline methods of b2_body.h read and write. */
  class Body {
    const bodyType: BodyType
    /** m_userData.pointer: set once from the definition. */
    const userData: object?
    var flags: bv16
    /** m_xf.p, the world position of the body origin. */
    var position: Vec2
    /** m_sweep.a, the world angle in radians. */
    var angle: real
    /** m_sweep.c, the world centre of mass. */
    var worldCenter: Vec2
    var linearVelocity: Vec2
    var angularVelocity: real
    var force: Vec2
    var torque: real
    var sleepTime: real
    /** Mass data, kept up to date by the engine's ResetMassData. */
    var invMass: real
    var invI: real
    var linearDamping: real
    var angularDamping: real
    var gravityScale: real
    /** m_fixtureList, head first. */
    var fixtures: seq<FixtureDef>

    function State(): Motion
      reads this
    {
      Motion(flags, linearVelocity, angularVelocity, force, torque, sleepTime)
    }

    /**
     * A body as b2World::CreateBody makes it from a definition. The local
     * centre of mass is taken as the body origin and the mass data as zero
     * until fixtures are added.
     */
    constructor (def: BodyDef)
      ensures bodyType == def.bodyType && userData == def.userData
      ensures flags == InitialFlags(def)
      ensures position == def.position && angle == def.angle && worldCenter == def.position
      ensures linearVelocity == def.linearVelocity && angularVelocity == def.angularVelocity
      ensures force == Zero() && torque == 0.0 && sleepTime == 0.0
      ensures linearDamping == def.linearDamping && angularDamping == def.angularDamping
      ensures gravityScale == def.gravityScale
      ensures fixtures == []
    {
      bodyType := def.bodyType;
      userData := def.userData;
      flags := InitialFlags(def);
      position := def.position;
      angle := def.angle;
      worldCenter := def.position;
      linearVelocity := def.linearVelocity;
      angularVelocity := def.angularVelocity;
      force := Zero();
      torque := 0.0;
      sleepTime := 0.0;
      invMass := 0.0;
      invI := 0.0;
      linearDamping := def.linearDamping;
      angularDamping := def.angularDamping;
      gravityScale := def.gravityScale;
      fixtures := [];
    }

    function GetPosition(): Vec2
      reads this
    {
      position
    }

    function GetAngle(): real
      reads this
    {
      angle
    }

    predicate IsAwake()
      reads this
    {
      HasFlag(flags, AwakeFlag)
    }

    predicate IsBullet()
      reads this
    {
      HasFlag(flags, BulletFlag)
    }

    predicate IsSleepingAllowed()
      reads this
    {
      HasFlag(flags, AutoSleepFlag)
    }

    predicate IsEnabled()
      reads this
    {
      HasFlag(flags, EnabledFlag)
    }

    predicate IsFixedRotation()
      reads this
    {
      HasFlag(flags, FixedRotationFlag)
    }

    /** b2Body::GetFixtureList: the head fixture, or none. */
    function GetFixtureList(): Option<FixtureDef>
      reads this
    {
      if |fixtures| == 0 then None else Some(fixtures[0])
    }

    /**
     * b2Body::SetTransform: place the body origin and set its angle. With
     * the local centre at the origin, the centre of mass moves with it.
     */
    method SetTransform(p: Vec2, a: real)
      modifies this`position, this`angle, this`worldCenter
      ensures position == p && angle == a && worldCenter == p
    {
      position := p;
      angle := a;
      worldCenter := p;
    }

    method SetAwake(flag: bool)
      modifies this`flags, this`linearVelocity, this`angularVelocity, this`force, this`torque, this`sleepTime
      ensures State() == Awaken(bodyType, old(State()), flag)
    {
      if bodyType == StaticBody {
        return;
      }
      if flag {
        flags := WithFlag(flags, AwakeFlag, true);
        sleepTime := 0.0;
      } else {
        flags := WithFlag(flags, AwakeFlag, false);
        sleepTime := 0.0;
        linearVelocity := Zero();
        angularVelocity := 0.0;
        force := Zero();
        torque := 0.0;
      }
    }

    method SetLinearVelocity(v: Vec2)
      modifies this`flags, this`linearVelocity, this`angularVelocity, this`force, this`torque, this`sleepTime
      ensures State() == LinearVelocitySet(bodyType, old(State()), v)
    {
      if bodyType == StaticBody {
        return;
      }
      if Dot(v, v) > 0.0 {
        SetAwake(true);
      }
      linearVelocity := v;
    }

    method SetAngularVelocity(w: real)
      modifies this`flags, this`linearVelocity, this`angularVelocity, this`force, this`torque, this`sleepTime
      ensures State() == AngularVelocitySet(bodyType, old(State()), w)
    {
      if bodyType == StaticBody {
        return;
      }
      if w * w > 0.0 {
        SetAwake(true);
      }
      angularVelocity := w;
    }

    /** b2Body::SetBullet: only the bullet bit changes, and IsBullet then reports flag. */
    method SetBullet(flag: bool)
      modifies this`flags
      ensures flags == WithFlag(old(flags), BulletFlag, flag)
      ensures IsBullet() == flag
    {
      if flag {
        flags := WithFlag(flags, BulletFlag, true);
      } else {
        flags := WithFlag(flags, BulletFlag, false);
      }
    }

    method SetSleepingAllowed(flag: bool)
      modifies this`flags, this`linearVelocity, this`angularVelocity, this`force, this`torque, this`sleepTime
      ensures State() == SleepingAllowedSet(bodyType, old(State()), flag)
    {
      if flag {
        flags := WithFlag(flags, AutoSleepFlag, true);
      } else {
        flags := WithFlag(flags, AutoSleepFlag, false);
        SetAwake(true);
      }
    }

    method ApplyForce(f: Vec2, point: Vec2, wake: bool)
      modifies this`flags, this`linearVelocity, this`angularVelocity, this`force, this`torque, this`sleepTime
      ensures State() == ForceApplied(bodyType, old(State()), worldCenter, f, point, wake)
    {
      if bodyType != DynamicBody {
        return;
      }
      if wake && flags & AwakeFlag == 0 {
        SetAwake(true);
      }
      if flags & AwakeFlag != 0 {
        force := Add(force, f);
        torque := torque + Cross(Sub(point, worldCenter), f);
      }
    }

    method ApplyForceToCenter(f: Vec2, wake: bool)
      modifies this`flags, this`linearVelocity, this`angularVelocity, this`force, this`torque, this`sleepTime
      ensures State() == ForceToCenterApplied(bodyType, old(State()), f, wake)
    {
      if bodyType != DynamicBody {
        return;
      }
      if wake && flags & AwakeFlag == 0 {
        SetAwake(true);
      }
      if flags & AwakeFlag != 0 {
        force := Add(force, f);
      }
    }

    method ApplyTorque(t: real, wake: bool)
      modifies this`flags, this`linearVelocity, this`angularVelocity, this`force, this`torque, this`sleepTime
      ensures State() == TorqueApplied(bodyType, old(State()), t, wake)
    {
      if bodyType != DynamicBody {
        return;
      }
      if wake && flags & AwakeFlag == 0 {
        SetAwake(true);
      }
      if flags & AwakeFlag != 0 {
        torque := torque + t;
      }
    }

    method ApplyLinearImpulse(impulse: Vec2, point: Vec2, wake: bool)
      modifies this`flags, this`linearVelocity, this`angularVelocity, this`force, this`torque, this`sleepTime
      ensures State() == LinearImpulseApplied(bodyType, old(State()), invMass, invI, worldCenter, impulse, point, wake)
    {
      if bodyType != DynamicBody {
        return;
      }
      if wake && flags & AwakeFlag == 0 {
        SetAwake(true);
      }
      if flags & AwakeFlag != 0 {
        linearVelocity := Add(linearVelocity, Mul(invMass, impulse));
        angularVelocity := angularVelocity + invI * Cross(Sub(point, worldCenter), impulse);
      }
    }

    method ApplyLinearImpulseToCenter(impulse: Vec2, wake: bool)
      modifies this`flags, this`linearVelocity, this`angularVelocity, this`force, this`torque, this`sleepTime
      ensures State() == LinearImpulseToCenterApplied(bodyType, old(State()), invMass, impulse, wake)
    {
      if bodyType != DynamicBody {
        return;
      }
      if wake && flags & AwakeFlag == 0 {
        SetAwake(true);
      }
      if flags & AwakeFlag != 0 {
        linearVelocity := Add(linearVelocity, Mul(invMass, impulse));
      }
    }

    method ApplyAngularImpulse(impulse: real, wake: bool)
      modifies this`flags, this`linearVelocity, this`angularVelocity, this`force, this`torque, this`sleepTime
      ensures State() == AngularImpulseApplied(bodyType, old(State()), invI, impulse, wake)
    {
      if bodyType != DynamicBody {
        return;
      }
      if wake && flags & AwakeFlag == 0 {
        SetAwake(true);
      }
      if flags & AwakeFlag != 0 {
        angularVelocity := angularVelocity + invI * impulse;
      }
    }

    /** b2Body::CreateFixture: the new fixture becomes the head of the list. */
    method CreateFixture(def: FixtureDef)
      modifies this`fixtures
      ensures fixtures == [def] + old(fixtures)
    {
      fixtures := [def] + fixtures;
    }

    /**
     * b2Body::DestroyFixture: remove the given fixture from the list; a null
     * fixture is ignored.
     */
    method DestroyFixture(f: Option<FixtureDef>)
      requires f.Some? ==> f.value in fixtures
      modifies this`fixtures
      ensures f.None? ==> fixtures == old(fixtures)
      ensures f.Some? ==> fixtures == RemoveOne(old(fixtures), f.value)
    {
      if f.Some? {
        fixtures := RemoveOne(fixtures, f.value);
      }
    }
  }
}
