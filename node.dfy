// Node: a scene item that finds the Device it lives under, subscribes to
// the device's init / shutdown / update broadcasts and, on every update,
// integrates its angular and linear velocity over the frame time.
//
// The rotation about +Y (QQuaternion::fromAxisAndAngle(0, 1, 0, a) * v) is
// kept abstract: the cosine and sine of an angle given in degrees are
// supplied by the caller as a `Trig` value.
module Nodes {
  import opened Common

  /** Cosine and sine of an angle in degrees. */
  datatype Trig = Trig(cos: real -> real, sin: real -> real)

  /** v rotated about the +Y axis by the angle whose cosine is c and sine is s. */
  function RotateY(c: real, s: real, v: Vec3): Vec3
  {
    Vec3(c * v.x + s * v.z, v.y, c * v.z - s * v.x)
  }

  /** fromAxisAndAngle(0, 1, 0, degrees) * v. */
  function Yaw(trig: Trig, degrees: real, v: Vec3): Vec3
  {
    RotateY(trig.cos(degrees), trig.sin(degrees), v)
  }

  /**
   * A rotation about +Y keeps the y component, maps the zero vector to
   * itself, is the identity for a zero angle and, for a proper cosine and
   * sine, keeps the squared length in the horizontal plane.
   */
  lemma RotateYProperties(c: real, s: real, v: Vec3)
    ensures RotateY(c, s, v).y == v.y
    ensures RotateY(c, s, Zero3) == Zero3
    ensures RotateY(1.0, 0.0, v) == v
    ensures c * c + s * s == 1.0 ==>
      var r := RotateY(c, s, v);
      r.x * r.x + r.z * r.z == v.x * v.x + v.z * v.z
  {
    var r := RotateY(c, s, v);
    calc {
      r.x * r.x + r.z * r.z;
      (c * v.x + s * v.z) * (c * v.x + s * v.z) + (c * v.z - s * v.x) * (c * v.z - s * v.x);
      (c * c + s * s) * (v.x * v.x) + (c * c + s * s) * (v.z * v.z);
    }
  }

  /** A rotation of a scaled vector is the scaled rotation. */
  lemma RotateYScales(c: real, s: real, v: Vec3, k: real)
    ensures RotateY(c, s, Scale(v, k)) == Scale(RotateY(c, s, v), k)
  {
    var w := Scale(v, k);
    assert c * w.x + s * w.z == (c * v.x + s * v.z) * k;
    assert c * w.z - s * w.x == (c * v.z - s * v.x) * k;
  }

  /**
   * A plain Qt connection appends a delivery every time it is made; the
   * `direct_connect` macro asks for a unique connection, which is added
   * only when the same one is not already present.
   */
  function DirectConnect<C(==)>(connections: seq<C>, c: C): (r: seq<C>)
    ensures c in r && forall d :: d in connections ==> d in r
    ensures forall d :: d in r ==> d in connections || d == c
    ensures |r| <= |connections| + 1
  {
    if c in connections then connections else connections + [c]
  }

  /** Making the same unique connection twice is the same as making it once. */
  lemma DirectConnectIdempotent<C>(connections: seq<C>, c: C)
    ensures DirectConnect(DirectConnect(connections, c), c) == DirectConnect(connections, c)
    ensures c in connections ==> DirectConnect(connections, c) == connections
  {
  }

  /** The device broadcasts a node can subscribe to. */
  datatype Broadcast = Init | Update | Shutdown

  datatype Hook = InitHook | ShutdownHook | UpdateHook

  datatype NodeEvent =
    | AngularVelocityChanged(angular: Vec3)
    | LinearVelocityChanged(linear: Vec3)
    | XChanged | YChanged | ZChanged | RotationChanged
    /** A virtual hook ran; the Node defaults do nothing else. */
    | HookRan(hook: Hook)
    /** The "must be located under a Device tree" error and the QML engine's exit(-1). */
    | NoDeviceError
    /** QQuickItem::componentComplete was reached. */
    | BaseComponentComplete

  /**
   * The one device pointer all nodes share (a static member): the Device
   * constructor stores itself there.
   */
  class DeviceSlot {
    var device: Option<nat>

    constructor ()
      ensures device == None
    {
      device := None;
    }
  }

  /** Position, rotation and velocities of a node. */
  datatype Motion = Motion(position: Vec3, rotation: real)

  /**
   * One update step: the rotation advances by angular.y * dt first, and the
   * position then moves by linear * dt rotated through the new angle.
   */
  function Step(m: Motion, angular: Vec3, linear: Vec3, dt: real, trig: Trig): Motion
  {
    var rotY := m.rotation + angular.y * dt;
    Motion(Add(m.position, Yaw(trig, rotY, Scale(linear, dt))), rotY)
  }

  /**
   * What a step promises: the height changes by exactly linear.y * dt, a
   * node with no linear velocity or a zero frame time stays where it is,
   * with no angular velocity or a zero frame time the rotation is kept, and
   * whatever the angle, the node covers the horizontal distance of
   * linear * dt when the cosine and sine given for the new angle are a
   * proper pair.
   */
  lemma StepProperties(m: Motion, angular: Vec3, linear: Vec3, dt: real, trig: Trig)
    ensures Step(m, angular, linear, dt, trig).position.y == m.position.y + linear.y * dt
    ensures linear == Zero3 || dt == 0.0 ==> Step(m, angular, linear, dt, trig).position == m.position
    ensures angular.y == 0.0 || dt == 0.0 ==> Step(m, angular, linear, dt, trig).rotation == m.rotation
    ensures var n := Step(m, angular, linear, dt, trig);
      var c := trig.cos(n.rotation);
      var s := trig.sin(n.rotation);
      var d := Sub(n.position, m.position);
      c * c + s * s == 1.0 ==> d.x * d.x + d.z * d.z == (linear.x * dt) * (linear.x * dt) + (linear.z * dt) * (linear.z * dt)
  {
    var rotY := m.rotation + angular.y * dt;
    RotateYProperties(trig.cos(rotY), trig.sin(rotY), Scale(linear, dt));
    var moved := Yaw(trig, rotY, Scale(linear, dt));
    assert Sub(Add(m.position, moved), m.position) == moved;
    if linear == Zero3 || dt == 0.0 {
      assert Scale(linear, dt) == Zero3;
    }
  }

  class Node {
    /** Node::m_device, the same object for every node. */
    const slot: DeviceSlot
    var x: real
    var y: real
    var z: real
    var rotation: real
    var angularVelocity: Vec3
    var linearVelocity: Vec3
    /** The broadcasts this node's handlers are connected to, in connection order. */
    var subscriptions: seq<Broadcast>
    /** Notifications, hook runs and log entries, oldest first. */
    var events: seq<NodeEvent>

    constructor (s: DeviceSlot)
      ensures slot == s && x == 0.0 && y == 0.0 && z == 0.0 && rotation == 0.0
      ensures angularVelocity == Zero3 && linearVelocity == Zero3
      ensures subscriptions == [] && events == []
    {
      slot := s;
      x, y, z, rotation := 0.0, 0.0, 0.0, 0.0;
      angularVelocity := Zero3;
      linearVelocity := Zero3;
      subscriptions := [];
      events := [];
    }

    function CurrentMotion(): Motion
      reads this
    {
      Motion(Vec3(x, y, z), rotation)
    }

    method SetAngularVelocity(v: Vec3)
      modifies this`angularVelocity, this`events
      ensures angularVelocity == v
      ensures events == old(events) + IfChanged(old(angularVelocity), v, AngularVelocityChanged(v))
    {
      if angularVelocity != v {
        angularVelocity := v;
        events := events + [AngularVelocityChanged(v)];
      }
    }

    method SetLinearVelocity(v: Vec3)
      modifies this`linearVelocity, this`events
      ensures linearVelocity == v
      ensures events == old(events) + IfChanged(old(linearVelocity), v, LinearVelocityChanged(v))
    {
      if linearVelocity != v {
        linearVelocity := v;
        events := events + [LinearVelocityChanged(v)];
      }
    }

    // The QQuickItem setters the update step uses; each notifies on change.

    method SetX(v: real)
      modifies this`x, this`events
      ensures x == v && events == old(events) + IfChanged(old(x), v, XChanged)
    {
      if x != v {
        x := v;
        events := events + [XChanged];
      }
    }

    method SetY(v: real)
      modifies this`y, this`events
      ensures y == v && events == old(events) + IfChanged(old(y), v, YChanged)
    {
      if y != v {
        y := v;
        events := events + [YChanged];
      }
    }

    method SetZ(v: real)
      modifies this`z, this`events
      ensures z == v && events == old(events) + IfChanged(old(z), v, ZChanged)
    {
      if z != v {
        z := v;
        events := events + [ZChanged];
      }
    }

    method SetRotation(v: real)
      modifies this`rotation, this`events
      ensures rotation == v && events == old(events) + IfChanged(old(rotation), v, RotationChanged)
    {
      if rotation != v {
        rotation := v;
        events := events + [RotationChanged];
      }
    }

    /**
     * componentComplete. `ancestors` is the chain of parent items as far as
     * each is a Node, nearest first. The walk reads the shared device
     * pointer through each ancestor, which is the pointer it started from,
     * so it finds a device exactly when one was already registered.
     */
    method ComponentComplete(ancestors: seq<Node>)
      requires forall i :: 0 <= i < |ancestors| ==> ancestors[i].slot == slot
      modifies slot, this`subscriptions, this`events
      ensures slot.device == old(slot.device)
      ensures slot.device.None? ==> subscriptions == old(subscriptions) && events == old(events) + [NoDeviceError]
      ensures slot.device.Some? ==>
        subscriptions == old(subscriptions) + [Init, Shutdown, Update] && events == old(events) + [BaseComponentComplete]
    {
      // pNode is `this` at k == 0, ancestors[k - 1] for 0 < k <= |ancestors|, and null beyond.
      var k := 0;
      while slot.device.None? && k <= |ancestors|
        invariant 0 <= k <= |ancestors| + 1
        invariant slot.device == old(slot.device)
        invariant subscriptions == old(subscriptions) && events == old(events)
        decreases |ancestors| + 1 - k
      {
        k := k + 1;
        if k <= |ancestors| {
          slot.device := ancestors[k - 1].slot.device;
        }
      }
      if slot.device.None? {
        events := events + [NoDeviceError];
        return;
      }
      subscriptions := subscriptions + [Init, Shutdown, Update];
      events := events + [BaseComponentComplete];
    }

    /** The handler connected to the device's init broadcast. */
    method OnInit()
      modifies this`events
      ensures events == old(events) + [HookRan(InitHook)]
    {
      events := events + [HookRan(InitHook)];
    }

    /** The handler connected to the device's shutdown broadcast. */
    method OnShutdown()
      modifies this`events
      ensures events == old(events) + [HookRan(ShutdownHook)]
    {
      events := events + [HookRan(ShutdownHook)];
    }

    /**
     * The handler connected to the device's update broadcast, given the
     * device's dt. The position is written x, y, z, then the rotation,
     * and the update hook runs last.
     */
    method OnUpdateStep(dt: real, trig: Trig)
      modifies this`x, this`y, this`z, this`rotation, this`events
      ensures CurrentMotion() == Step(old(CurrentMotion()), angularVelocity, linearVelocity, dt, trig)
      ensures events == old(events)
        + IfChanged(old(x), x, XChanged) + IfChanged(old(y), y, YChanged)
        + IfChanged(old(z), z, ZChanged) + IfChanged(old(rotation), rotation, RotationChanged)
        + [HookRan(UpdateHook)]
    {
      var rotY := rotation + angularVelocity.y * dt;
      var offset := Yaw(trig, rotY, Scale(linearVelocity, dt));
      ghost var target := Step(CurrentMotion(), angularVelocity, linearVelocity, dt, trig);
      assert target.rotation == rotY;
      assert target.position == Add(Vec3(x, y, z), offset);
      SetX(x + offset.x);
      SetY(y + offset.y);
      SetZ(z + offset.z);
      SetRotation(rotY);
      events := events + [HookRan(UpdateHook)];
    }
  }
}
