// VRHeadset: the item whose pose drives the stereo camera. While it sits
// in a VRWindow it moves itself once per rendered frame (sync, connected
// to the window's beforeRendering) and mirrors every change of its x, y,
// z and rotation into the window's renderer.
module Headsets {
  import opened Common
  import Nodes

  /** The pose fields of a VRWindow's renderer. */
  class RendererPose {
    var position: Vec3
    /** Orientation = fromAxisAndAngle(0, 1, 0, orientation). */
    var orientation: real

    constructor ()
      ensures position == Zero3 && orientation == 0.0
    {
      position := Zero3;
      orientation := 0.0;
    }
  }

  datatype HeadsetSignal =
    | AngularVelocityChanged(angular: Vec3)
    | LinearVelocityChanged(linear: Vec3)
    | XChanged | YChanged | ZChanged | RotationChanged

  /** disconnect(): every connection to `w` is removed, the others stay. */
  function Disconnect(connections: seq<RendererPose>, w: RendererPose): (r: seq<RendererPose>)
    ensures w !in r
    ensures forall i :: 0 <= i < |connections| && connections[i] != w ==> connections[i] in r
    ensures forall i :: 0 <= i < |r| ==> r[i] in connections
  {
    if connections == [] then []
    else if connections[0] == w then Disconnect(connections[1..], w)
    else [connections[0]] + Disconnect(connections[1..], w)
  }

  /**
   * One sync: the rotation advances by angular.y (no frame time) and the
   * position moves by the linear velocity rotated through the new angle.
   */
  function SyncStep(m: Nodes.Motion, angular: Vec3, linear: Vec3, trig: Nodes.Trig): Nodes.Motion
  {
    var rotY := m.rotation + angular.y;
    Nodes.Motion(Add(m.position, Nodes.Yaw(trig, rotY, linear)), rotY)
  }

  /**
   * A sync is the node update step with a frame time of one, so it
   * keeps every property of that step: rotation first, then the move,
   * the height changing by linear.y only, and no motion at all with zero
   * velocities.
   */
  lemma SyncIsUnitStep(m: Nodes.Motion, angular: Vec3, linear: Vec3, trig: Nodes.Trig)
    ensures SyncStep(m, angular, linear, trig) == Nodes.Step(m, angular, linear, 1.0, trig)
    ensures SyncStep(m, angular, linear, trig).position.y == m.position.y + linear.y
    ensures angular == Zero3 && linear == Zero3 ==> SyncStep(m, angular, linear, trig) == m
  {
    assert Scale(linear, 1.0) == linear;
    Nodes.StepProperties(m, angular, linear, 1.0, trig);
  }

  class VRHeadset {
    var x: real
    var y: real
    var z: real
    var rotation: real
    var angularVelocity: Vec3
    var linearVelocity: Vec3
    /** m_vrWindow's renderer; null when the item is not in a VRWindow. */
    var vrWindow: RendererPose?
    /** The windows whose beforeRendering is connected to sync. */
    var syncConnections: seq<RendererPose>
    var signals: seq<HeadsetSignal>

    /**
     * sync is connected to exactly the current window, and that window's
     * renderer holds this item's position and rotation.
     */
    ghost predicate Valid()
      reads this, vrWindow
    {
      if vrWindow == null then syncConnections == []
      else syncConnections == [vrWindow] && vrWindow.position == Vec3(x, y, z) && vrWindow.orientation == rotation
    }

    constructor ()
      ensures Valid() && vrWindow == null
      ensures x == 0.0 && y == 0.0 && z == 0.0 && rotation == 0.0
      ensures angularVelocity == Zero3 && linearVelocity == Zero3 && signals == []
    {
      x, y, z, rotation := 0.0, 0.0, 0.0, 0.0;
      angularVelocity := Zero3;
      linearVelocity := Zero3;
      vrWindow := null;
      syncConnections := [];
      signals := [];
    }

    function CurrentMotion(): Nodes.Motion
      reads this
    {
      Nodes.Motion(Vec3(x, y, z), rotation)
    }

    method SetAngularVelocity(v: Vec3)
      modifies this`angularVelocity, this`signals
      ensures angularVelocity == v
      ensures signals == old(signals) + IfChanged(old(angularVelocity), v, AngularVelocityChanged(v))
    {
      if angularVelocity != v {
        angularVelocity := v;
        signals := signals + [AngularVelocityChanged(v)];
      }
    }

    method SetLinearVelocity(v: Vec3)
      modifies this`linearVelocity, this`signals
      ensures linearVelocity == v
      ensures signals == old(signals) + IfChanged(old(linearVelocity), v, LinearVelocityChanged(v))
    {
      if linearVelocity != v {
        linearVelocity := v;
        signals := signals + [LinearVelocityChanged(v)];
      }
    }

    // The QQuickItem setters: each notifies on change, and the notification
    // runs the matching mirroring handler (onXChanged ... onRotationChanged).

    method SetX(v: real)
      requires Valid()
      modifies this`x, this`signals, vrWindow
      ensures Valid() && x == v && signals == old(signals) + IfChanged(old(x), v, XChanged)
    {
      if x != v {
        x := v;
        signals := signals + [XChanged];
        if vrWindow != null {
          vrWindow.position := vrWindow.position.(x := x);
        }
      }
    }

    method SetY(v: real)
      requires Valid()
      modifies this`y, this`signals, vrWindow
      ensures Valid() && y == v && signals == old(signals) + IfChanged(old(y), v, YChanged)
    {
      if y != v {
        y := v;
        signals := signals + [YChanged];
        if vrWindow != null {
          vrWindow.position := vrWindow.position.(y := y);
        }
      }
    }

    method SetZ(v: real)
      requires Valid()
      modifies this`z, this`signals, vrWindow
      ensures Valid() && z == v && signals == old(signals) + IfChanged(old(z), v, ZChanged)
    {
      if z != v {
        z := v;
        signals := signals + [ZChanged];
        if vrWindow != null {
          vrWindow.position := vrWindow.position.(z := z);
        }
      }
    }

    method SetRotation(v: real)
      requires Valid()
      modifies this`rotation, this`signals, vrWindow
      ensures Valid() && rotation == v && signals == old(signals) + IfChanged(old(rotation), v, RotationChanged)
    {
      if rotation != v {
        rotation := v;
        signals := signals + [RotationChanged];
        if vrWindow != null {
          vrWindow.orientation := rotation;
        }
      }
    }

    /** The per-frame move, written x, y, z, then the rotation. */
    method Sync(trig: Nodes.Trig)
      requires Valid()
      modifies this`x, this`y, this`z, this`rotation, this`signals, vrWindow
      ensures Valid()
      ensures CurrentMotion() == SyncStep(old(CurrentMotion()), angularVelocity, linearVelocity, trig)
      ensures signals == old(signals)
        + IfChanged(old(x), x, XChanged) + IfChanged(old(y), y, YChanged)
        + IfChanged(old(z), z, ZChanged) + IfChanged(old(rotation), rotation, RotationChanged)
    {
      var offset := Nodes.Yaw(trig, rotation + angularVelocity.y, linearVelocity);
      ghost var target := SyncStep(CurrentMotion(), angularVelocity, linearVelocity, trig);
      assert target.rotation == rotation + angularVelocity.y;
      assert target.position == Add(Vec3(x, y, z), offset);
      SetX(x + offset.x);
      SetY(y + offset.y);
      SetZ(z + offset.z);
      SetRotation(rotation + angularVelocity.y);
    }

    /**
     * handleWindowChanged, given the new window's renderer (null when the
     * new window is not a VRWindow): sync moves from the old window to the
     * new one, whose renderer receives the current pose.
     */
    method HandleWindowChanged(win: RendererPose?)
      requires Valid()
      modifies this`vrWindow, this`syncConnections, win
      ensures Valid() && vrWindow == win
      ensures x == old(x) && y == old(y) && z == old(z) && rotation == old(rotation)
      ensures win != null ==> win.position == Vec3(x, y, z) && win.orientation == rotation
    {
      if vrWindow != null {
        assert Disconnect(syncConnections[1..], vrWindow) == [];
        syncConnections := Disconnect(syncConnections, vrWindow);
      }
      vrWindow := win;
      if vrWindow != null {
        syncConnections := syncConnections + [vrWindow];
        vrWindow.orientation := rotation;
        vrWindow.position := Vec3(x, y, z);
      }
    }
  }
}
