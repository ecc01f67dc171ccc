// Device: the root node that owns the LibOVR session and drives every
// frame. It registers itself as the shared device of all nodes, connects to
// its window's scene-graph signals, emits init once the eye buffers exist,
// and per frame emits one update followed by one render per eye, bracketed
// by the eye buffer's set-and-clear and unset/commit. LibOVR, GL and the
// window are abstract: their answers are parameters and their calls are
// events in `trace`.
module Devices {
  import opened Common
  import Nodes

  /** The headset item; only the pose the device reads is modelled. */
  class Headset {
    var x: real
    var y: real
    var z: real
    var rotation: real

    constructor ()
      ensures x == 0.0 && y == 0.0 && z == 0.0 && rotation == 0.0
    {
      x, y, z, rotation := 0.0, 0.0, 0.0, 0.0;
    }
  }

  /** The matrices the device publishes, kept symbolic. */
  datatype Matrix =
    | Identity
    /** LookAtRH from the headset pose shifted by the eye pose fetched for `frame`. */
    | EyeView(eye: nat, position: Vec3, rotation: real, frame: int)
    /** ovrMatrix4f_Projection of the eye's default field of view, near 0.2, far 1000. */
    | EyeProj(eye: nat)
    /** lookAt from the headset pose, without LibOVR. */
    | MonoView(position: Vec3, rotation: real)
    /** perspective(45, width / height, 0.2, 1000). */
    | MonoProj

  /** The QQuickWindow signals the device connects to. */
  datatype WindowSignal = SceneGraphInitialized | BeforeRenderPassRecording | SceneGraphAboutToStop

  datatype Connection = Connection(window: nat, signal: WindowSignal)

  /** The VALIDATE steps of scene-graph initialisation. */
  datatype ValidateStep =
    | InitializeLibOvr | OpenGlOnly | CreateSession | DefaultAdapter | EyeTexture(eye: nat) | MirrorTexture

  /** What onSceneGraphInitialized does, in order. */
  datatype SetupEvent =
    | Initialize | Create | CreateEyeBuffer(eye: nat) | CreateMirror | MirrorFramebuffer
    | SetTrackingOrigin | InitSignal | StartTimer
    /** VALIDATE(false, ...): a message box and exit(-1). */
    | Exit(step: ValidateStep)

  /** What the per-frame and shutdown handlers do, in order: broadcasts, LibOVR and GL calls. */
  datatype FrameEvent =
    | UpdateSignal | RenderSignal | ShutdownSignal
    | BeginExternalCommands | Quit | Recenter | GetEyePoses(frame: int)
    | SetAndClear(eye: nat) | Unset(eye: nat) | Commit(eye: nat) | SubmitFrame(frame: int)
    | MirrorBlit | ClearViewport | ResetOpenGlState | EndExternalCommands | RequestUpdate

  /** The answers of LibOVR and the window during onSceneGraphInitialized. */
  datatype InitAnswers = InitAnswers(
    initialized: bool, openGl: bool, sessionCreated: bool, defaultAdapter: bool,
    leftEyeOk: bool, rightEyeOk: bool, mirrorOk: bool)

  /** ovrSessionStatus, as far as a frame looks at it. */
  datatype SessionStatus = SessionStatus(shouldQuit: bool, shouldRecenter: bool, isVisible: bool)

  function EyeBufferOk(a: InitAnswers, eye: nat): bool
  {
    if eye == 0 then a.leftEyeOk else a.rightEyeOk
  }

  // Scene-graph initialisation.

  /** The eye-buffer loop from `eye` on: each buffer is made, then validated. */
  function EyeBufferTrace(a: InitAnswers, eye: nat): seq<SetupEvent>
    requires eye <= 2
    decreases 2 - eye
  {
    if eye == 2 then []
    else if !EyeBufferOk(a, eye) then [CreateEyeBuffer(eye), Exit(EyeTexture(eye))]
    else [CreateEyeBuffer(eye)] + EyeBufferTrace(a, eye + 1)
  }

  /** Everything onSceneGraphInitialized does, given LibOVR's answers. */
  function InitTrace(a: InitAnswers): seq<SetupEvent>
  {
    if !a.initialized then [Initialize, Exit(InitializeLibOvr)]
    else if !a.openGl then [Initialize, Exit(OpenGlOnly)]
    else if !a.sessionCreated then [Initialize, Create, Exit(CreateSession)]
    else if !a.defaultAdapter then [Initialize, Create, Exit(DefaultAdapter)]
    else if !(a.leftEyeOk && a.rightEyeOk) then [Initialize, Create] + EyeBufferTrace(a, 0)
    else if !a.mirrorOk then [Initialize, Create] + EyeBufferTrace(a, 0) + [CreateMirror, Exit(MirrorTexture)]
    else [Initialize, Create] + EyeBufferTrace(a, 0) + [CreateMirror, MirrorFramebuffer, SetTrackingOrigin, InitSignal, StartTimer]
  }

  predicate InitSucceeds(a: InitAnswers)
  {
    a.initialized && a.openGl && a.sessionCreated && a.defaultAdapter && a.leftEyeOk && a.rightEyeOk && a.mirrorOk
  }

  /**
   * init is emitted at most once, and exactly when every VALIDATE passes;
   * it then comes after both eye buffers were made. Otherwise the process
   * exits at the first failing step, which is the last event.
   */
  lemma InitOrder(a: InitAnswers)
    ensures InitSignal in InitTrace(a) <==> InitSucceeds(a)
    ensures InitSucceeds(a) ==>
      InitTrace(a) == [Initialize, Create, CreateEyeBuffer(0), CreateEyeBuffer(1),
                        CreateMirror, MirrorFramebuffer, SetTrackingOrigin, InitSignal, StartTimer]
    ensures InitTrace(a)[|InitTrace(a)| - 1].Exit? <==> !InitSucceeds(a)
    ensures !a.leftEyeOk ==> CreateEyeBuffer(1) !in InitTrace(a)
  {
    if a.initialized && a.openGl && a.sessionCreated && a.defaultAdapter {
      if !a.leftEyeOk {
        assert EyeBufferTrace(a, 0) == [CreateEyeBuffer(0), Exit(EyeTexture(0))];
      } else {
        assert EyeBufferTrace(a, 1) == if a.rightEyeOk then [CreateEyeBuffer(1)] else [CreateEyeBuffer(1), Exit(EyeTexture(1))];
      }
    }
  }

  /** The window's scene-graph signals the device is connected to, at most once each. */
  function ConnectWindow(connections: seq<Connection>, window: nat): (r: seq<Connection>)
    ensures Connection(window, SceneGraphInitialized) in r
    ensures Connection(window, BeforeRenderPassRecording) in r
    ensures Connection(window, SceneGraphAboutToStop) in r
    ensures forall i :: 0 <= i < |connections| ==> connections[i] in r
    ensures forall i :: 0 <= i < |r| ==> r[i] in connections || r[i].window == window
  {
    Nodes.DirectConnect(Nodes.DirectConnect(Nodes.DirectConnect(
      connections, Connection(window, SceneGraphInitialized)),
      Connection(window, BeforeRenderPassRecording)),
      Connection(window, SceneGraphAboutToStop))
  }

  /** Moving into the same window twice connects nothing more. */
  lemma ConnectWindowIdempotent(connections: seq<Connection>, window: nat)
    ensures ConnectWindow(ConnectWindow(connections, window), window) == ConnectWindow(connections, window)
  {
    var once := ConnectWindow(connections, window);
    assert Connection(window, SceneGraphInitialized) in once;
    assert Connection(window, BeforeRenderPassRecording) in once;
    assert Connection(window, SceneGraphAboutToStop) in once;
  }

  // Frames.

  /** The frame renders through LibOVR: it was not asked to quit and the session is visible. */
  predicate Renders(status: SessionStatus)
  {
    !status.shouldQuit && status.isVisible
  }

  /** frameIndex advances: a rendered frame whose submit succeeded. */
  predicate Submitted(status: SessionStatus, submitOk: bool)
  {
    Renders(status) && submitOk
  }

  /** One eye: switch to its buffer, emit render, unset the buffer, commit it. */
  function EyePass(eye: nat): seq<FrameEvent>
  {
    [SetAndClear(eye), RenderSignal, Unset(eye), Commit(eye)]
  }

  /** The eye loop for eyes 0 .. n-1. */
  function EyePasses(n: nat): (r: seq<FrameEvent>)
    ensures |r| == 4 * n
  {
    if n == 0 then [] else EyePasses(n - 1) + EyePass(n - 1)
  }

  /** The mirror blit and the frame's end, reached unless the frame quit or its submit failed. */
  function FrameEnd(): seq<FrameEvent>
  {
    [MirrorBlit, ResetOpenGlState, EndExternalCommands, RequestUpdate]
  }

  /** The frame's first calls once it does not quit: begin the external commands, then recenter if asked. */
  function FrameHead(status: SessionStatus): seq<FrameEvent>
  {
    [BeginExternalCommands] + if status.shouldRecenter then [Recenter] else []
  }

  /** The visible branch up to the submit: eye poses, the update broadcast, both eyes, the submit. */
  function VisiblePart(frameIndex: int): seq<FrameEvent>
  {
    [GetEyePoses(frameIndex), UpdateSignal] + EyePasses(2) + [SubmitFrame(frameIndex)]
  }

  /** After a submit: the frame's end if it succeeded, nothing if it failed. */
  function SubmitTail(submitOk: bool): seq<FrameEvent>
  {
    if submitOk then FrameEnd() else []
  }

  /** Everything onBeforeRenderPassRecording does with the LibOVR session. */
  function FrameTrace(frameIndex: int, status: SessionStatus, submitOk: bool): seq<FrameEvent>
  {
    if status.shouldQuit then [BeginExternalCommands, Quit]
    else if status.isVisible then FrameHead(status) + VisiblePart(frameIndex) + SubmitTail(submitOk)
    else FrameHead(status) + FrameEnd()
  }

  /** A quitting frame asks the application to quit and does nothing else. */
  lemma QuitFrame(frameIndex: int, status: SessionStatus, submitOk: bool)
    requires status.shouldQuit
    ensures FrameTrace(frameIndex, status, submitOk) == [BeginExternalCommands, Quit]
    ensures UpdateSignal !in FrameTrace(frameIndex, status, submitOk)
    ensures RenderSignal !in FrameTrace(frameIndex, status, submitOk)
    ensures !Submitted(status, submitOk)
  {
  }

  /** The eye loop's two passes: eye 0's, then eye 1's. */
  lemma EyePassesTwo()
    ensures EyePasses(2) == EyePass(0) + EyePass(1)
  {
    assert EyePasses(1) == EyePass(0);
  }

  /** The recenter request, when honoured, comes before the eye poses are fetched. */
  lemma RecenterFirst(frameIndex: int, status: SessionStatus, submitOk: bool)
    ensures Recenter in FrameTrace(frameIndex, status, submitOk) <==> !status.shouldQuit && status.shouldRecenter
    ensures Renders(status) && status.shouldRecenter ==>
      FrameTrace(frameIndex, status, submitOk)[1] == Recenter
      && FrameTrace(frameIndex, status, submitOk)[2] == GetEyePoses(frameIndex)
  {
    EyePassesTwo();
  }

  /**
   * A rendered frame fetches the eye poses, emits one update, then runs eye
   * 0's pass and eye 1's pass (set-and-clear, render, unset, commit) and
   * submits. No other update or render appears anywhere in the frame.
   */
  lemma RenderedFrameOrder(frameIndex: int, status: SessionStatus, submitOk: bool)
    requires Renders(status)
    ensures FrameTrace(frameIndex, status, submitOk) == FrameHead(status)
      + [GetEyePoses(frameIndex), UpdateSignal] + EyePass(0) + EyePass(1) + [SubmitFrame(frameIndex)]
      + SubmitTail(submitOk)
    ensures UpdateSignal !in FrameHead(status) + EyePass(0) + EyePass(1) + [SubmitFrame(frameIndex)] + SubmitTail(submitOk)
    ensures RenderSignal !in FrameHead(status) + [GetEyePoses(frameIndex), UpdateSignal, SubmitFrame(frameIndex)] + SubmitTail(submitOk)
    ensures EyePass(0)[1] == RenderSignal && EyePass(1)[1] == RenderSignal
  {
    EyePassesTwo();
  }

  /**
   * A failed submit ends the frame at once: no mirror blit, no end of the
   * external commands and no request for the next frame.
   */
  lemma FailedSubmitEndsFrame(frameIndex: int, status: SessionStatus)
    requires Renders(status)
    ensures var t := FrameTrace(frameIndex, status, false);
      t[|t| - 1] == SubmitFrame(frameIndex)
      && MirrorBlit !in t && EndExternalCommands !in t && RequestUpdate !in t
    ensures !Submitted(status, false)
  {
    EyePassesTwo();
  }

  /** A frame of a session that is not visible renders nothing, submits nothing, and still blits and ends. */
  lemma HiddenFrame(frameIndex: int, status: SessionStatus, submitOk: bool)
    requires !status.shouldQuit && !status.isVisible
    ensures var t := FrameTrace(frameIndex, status, submitOk);
      UpdateSignal !in t && RenderSignal !in t && SubmitFrame(frameIndex) !in t
      && t[|t| - 4..] == FrameEnd()
    ensures !Submitted(status, submitOk)
  {
  }

  /** The frame without LibOVR: one render from the headset pose, and no update. */
  function DesktopFrameTrace(): seq<FrameEvent>
  {
    [BeginExternalCommands, ClearViewport, RenderSignal, ResetOpenGlState, EndExternalCommands, RequestUpdate]
  }

  lemma DesktopFrameRendersOnce()
    ensures DesktopFrameTrace()[2] == RenderSignal && RenderSignal !in DesktopFrameTrace()[..2] + DesktopFrameTrace()[3..]
    ensures UpdateSignal !in DesktopFrameTrace()
    ensures DesktopFrameTrace()[0] == BeginExternalCommands
    ensures DesktopFrameTrace()[|DesktopFrameTrace()| - 2] == EndExternalCommands
  {
  }

  /** m_t in seconds from the running timer's elapsed milliseconds. */
  function Seconds(elapsedMs: nat): real
  {
    elapsedMs as real / 1000.0
  }

  /**
   * m_t and m_dt, with the function-static prev_t of
   * onBeforeRenderPassRecording: the time of the last sampled frame.
   */
  datatype Clock = Clock(t: real, dt: real, prevT: real)

  /** Sampling the running timer: t in seconds, dt since the previous sample, which becomes t. */
  function Tick(c: Clock, elapsedMs: nat): (r: Clock)
  {
    var t := Seconds(elapsedMs);
    Clock(t, t - c.prevT, t)
  }

  /**
   * dt is always the time since the previous sample, so over two sampled
   * frames the dts add up to the time since the sample before them; the
   * first frame's dt is its t, since prev_t starts at 0.
   */
  lemma TickProperties(c: Clock, ms1: nat, ms2: nat)
    ensures Tick(c, ms1).t == Seconds(ms1) && Tick(c, ms1).prevT == Tick(c, ms1).t
    ensures Tick(c, ms1).dt + Tick(Tick(c, ms1), ms2).dt == Seconds(ms2) - c.prevT
    ensures c.prevT == 0.0 ==> Tick(c, ms1).dt == Tick(c, ms1).t
    ensures ms1 <= ms2 ==> Tick(Tick(c, ms1), ms2).dt >= 0.0
  {
  }

  class Device {
    /** The static device pointer shared by every node. */
    const slot: Nodes.DeviceSlot
    const defaultHeadset: Headset
    var headset: Headset
    var clock: Clock
    var view: Matrix
    var proj: Matrix
    var eyePosition: Vec3
    var frameIndex: int
    /** Whether m_eyeRenderTexture[eye] holds a buffer. */
    var eyeRenderTexture: seq<bool>
    var mirrorFbo: bool
    /** The windows' signals this device is connected to. */
    var connections: seq<Connection>
    /** What scene-graph initialisation did, oldest first. */
    var setup: seq<SetupEvent>
    /** What the frames and the shutdown did, oldest first. */
    var trace: seq<FrameEvent>
    /** The arguments of the headsetChanged signals emitted so far. */
    var headsetChanges: seq<Headset?>

    /** The constructor makes this the device of every node and selects a new default headset. */
    constructor (s: Nodes.DeviceSlot, id: nat)
      modifies s
      ensures slot == s && s.device == Some(id)
      ensures fresh(defaultHeadset) && headset == defaultHeadset
      ensures clock == Clock(0.0, 0.0, 0.0) && frameIndex == 0
      ensures view == Identity && proj == Identity && eyePosition == Zero3
      ensures eyeRenderTexture == [false, false] && !mirrorFbo
      ensures connections == [] && setup == [] && trace == [] && headsetChanges == []
    {
      slot := s;
      var h := new Headset();
      defaultHeadset := h;
      headset := h;
      clock := Clock(0.0, 0.0, 0.0);
      view, proj, eyePosition := Identity, Identity, Zero3;
      frameIndex := 0;
      eyeRenderTexture := [false, false];
      mirrorFbo := false;
      connections := [];
      setup := [];
      trace := [];
      headsetChanges := [];
      new;
      s.device := Some(id);
    }

    /**
     * A null headset selects the default one. headsetChanged carries the
     * argument, and is emitted whenever the argument differs from the current
     * headset, including null while the default is already selected.
     */
    method SetHeadset(newHeadset: Headset?)
      modifies this`headset, this`headsetChanges
      ensures newHeadset != null ==> headset == newHeadset
      ensures newHeadset == null ==> headset == defaultHeadset
      ensures headsetChanges == old(headsetChanges) + (if old(headset) != newHeadset then [newHeadset] else [])
    {
      if headset != newHeadset {
        if newHeadset == null {
          headset := defaultHeadset;
        } else {
          headset := newHeadset;
        }
        headsetChanges := headsetChanges + [newHeadset];
      }
    }

    /** windowChanged: a new window's three scene-graph signals are connected uniquely. */
    method OnWindowChanged(window: Option<nat>)
      modifies this`connections
      ensures connections == (if window.Some? then ConnectWindow(old(connections), window.value) else old(connections))
    {
      if window.Some? {
        connections := Nodes.DirectConnect(connections, Connection(window.value, SceneGraphInitialized));
        connections := Nodes.DirectConnect(connections, Connection(window.value, BeforeRenderPassRecording));
        connections := Nodes.DirectConnect(connections, Connection(window.value, SceneGraphAboutToStop));
      }
    }

    function HeadsetPosition(): Vec3
      reads this, headset
    {
      Vec3(headset.x, headset.y, headset.z)
    }

    /** onSceneGraphInitialized with LibOVR: validate, make both eye buffers and the mirror, emit init. */
    method OnSceneGraphInitialized(a: InitAnswers)
      requires |eyeRenderTexture| == 2
      modifies this`eyeRenderTexture, this`mirrorFbo, this`setup
      ensures setup == old(setup) + InitTrace(a)
      ensures InitSucceeds(a) ==> eyeRenderTexture == [true, true] && mirrorFbo
      ensures !InitSucceeds(a) ==> mirrorFbo == old(mirrorFbo)
      ensures !(a.initialized && a.openGl && a.sessionCreated && a.defaultAdapter) ==>
        eyeRenderTexture == old(eyeRenderTexture)
    {
      var events := [Initialize];
      if !a.initialized {
        setup := setup + (events + [Exit(InitializeLibOvr)]);
        return;
      }
      if !a.openGl {
        setup := setup + (events + [Exit(OpenGlOnly)]);
        return;
      }
      events := events + [Create];
      if !a.sessionCreated {
        setup := setup + (events + [Exit(CreateSession)]);
        return;
      }
      if !a.defaultAdapter {
        setup := setup + (events + [Exit(DefaultAdapter)]);
        return;
      }
      var buffers, ok := MakeEyeBuffers(a);
      events := events + buffers;
      if !ok {
        setup := setup + events;
        return;
      }
      if !a.mirrorOk {
        setup := setup + (events + [CreateMirror, Exit(MirrorTexture)]);
        return;
      }
      mirrorFbo := true;
      setup := setup + (events + [CreateMirror, MirrorFramebuffer, SetTrackingOrigin, InitSignal, StartTimer]);
    }

    /** onSceneGraphInitialized without LibOVR: init is emitted and the timer started, with nothing to validate. */
    method OnSceneGraphInitializedDesktop()
      modifies this`setup
      ensures setup == old(setup) + [InitSignal, StartTimer]
    {
      setup := setup + [InitSignal, StartTimer];
    }

    /** The eye-buffer loop: each buffer is stored before it is validated. */
    method MakeEyeBuffers(a: InitAnswers) returns (events: seq<SetupEvent>, ok: bool)
      requires |eyeRenderTexture| == 2
      modifies this`eyeRenderTexture
      ensures events == EyeBufferTrace(a, 0)
      ensures ok <==> a.leftEyeOk && a.rightEyeOk
      ensures ok ==> eyeRenderTexture == [true, true]
    {
      events := [];
      var eye := 0;
      while eye < 2
        invariant 0 <= eye <= 2 && |eyeRenderTexture| == 2
        invariant forall e :: 0 <= e < eye ==> EyeBufferOk(a, e) && eyeRenderTexture[e]
        invariant EyeBufferTrace(a, 0) == events + EyeBufferTrace(a, eye)
      {
        eyeRenderTexture := eyeRenderTexture[eye := true];
        events := events + [CreateEyeBuffer(eye)];
        if !EyeBufferOk(a, eye) {
          events := events + [Exit(EyeTexture(eye))];
          return events, false;
        }
        eye := eye + 1;
      }
      ok := true;
    }

    /**
     * onBeforeRenderPassRecording with LibOVR, given the session status, the
     * running timer's elapsed milliseconds and whether ovr_SubmitFrame
     * succeeds. The view and projection are overwritten per eye, so eye 1's
     * remain.
     */
    method OnBeforeRenderPassRecording(status: SessionStatus, elapsedMs: nat, submitOk: bool)
      modifies this`trace, this`frameIndex, this`clock, this`view, this`proj
      ensures trace == old(trace) + FrameTrace(old(frameIndex), status, submitOk)
      ensures frameIndex == old(frameIndex) + (if Submitted(status, submitOk) then 1 else 0)
      ensures clock == if Renders(status) then Tick(old(clock), elapsedMs) else old(clock)
      ensures view == if Renders(status) then EyeView(1, HeadsetPosition(), headset.rotation, old(frameIndex)) else old(view)
      ensures proj == if Renders(status) then EyeProj(1) else old(proj)
    {
      var events := [BeginExternalCommands];
      if status.shouldQuit {
        trace := trace + (events + [Quit]);
        return;
      }
      if status.shouldRecenter {
        events := events + [Recenter];
      }
      assert events == FrameHead(status);
      if status.isVisible {
        var visible, submitted := RenderVisibleFrame(elapsedMs, submitOk);
        events := events + visible;
        if !submitted {
          trace := trace + events;
          return;
        }
      }
      events := events + FrameEnd();
      trace := trace + events;
    }

    /**
     * The visible branch up to the submit: eye poses, t and dt, the update
     * broadcast, both eyes, and the submit, after which frameIndex advances
     * only if it succeeded.
     */
    method RenderVisibleFrame(elapsedMs: nat, submitOk: bool) returns (events: seq<FrameEvent>, submitted: bool)
      modifies this`frameIndex, this`clock, this`view, this`proj
      ensures events == VisiblePart(old(frameIndex)) && submitted == submitOk
      ensures frameIndex == old(frameIndex) + (if submitOk then 1 else 0)
      ensures clock == Tick(old(clock), elapsedMs)
      ensures view == EyeView(1, HeadsetPosition(), headset.rotation, old(frameIndex))
      ensures proj == EyeProj(1)
    {
      events := [GetEyePoses(frameIndex)];
      var t := Seconds(elapsedMs);
      clock := clock.(t := t, dt := t - clock.prevT);
      clock := clock.(prevT := t);
      events := events + [UpdateSignal];
      var eyes, _ := RenderEyes(HeadsetPosition(), headset.rotation);
      events := events + eyes + [SubmitFrame(frameIndex)];
      if !submitOk {
        return events, false;
      }
      frameIndex := frameIndex + 1;
      submitted := true;
    }

    /**
     * The eye loop: each eye's view and projection are set before its
     * render is emitted. `seen` is what view() and proj() answer while
     * each render broadcast is delivered: eye 0's matrices, then eye 1's.
     */
    method RenderEyes(position: Vec3, rotation: real) returns (events: seq<FrameEvent>, seen: seq<(Matrix, Matrix)>)
      modifies this`view, this`proj
      ensures events == EyePasses(2)
      ensures seen == [(EyeView(0, position, rotation, frameIndex), EyeProj(0)), (EyeView(1, position, rotation, frameIndex), EyeProj(1))]
      ensures view == EyeView(1, position, rotation, frameIndex) && proj == EyeProj(1)
    {
      events := [];
      seen := [];
      var eye := 0;
      while eye < 2
        invariant 0 <= eye <= 2
        invariant events == EyePasses(eye)
        invariant |seen| == eye
        invariant forall e :: 0 <= e < eye ==> seen[e] == (EyeView(e, position, rotation, frameIndex), EyeProj(e))
        invariant eye > 0 ==> view == EyeView(eye - 1, position, rotation, frameIndex) && proj == EyeProj(eye - 1)
      {
        events := events + [SetAndClear(eye)];
        view := EyeView(eye, position, rotation, frameIndex);
        proj := EyeProj(eye);
        events := events + [RenderSignal];
        seen := seen + [(view, proj)];
        events := events + [Unset(eye), Commit(eye)];
        eye := eye + 1;
      }
    }

    /** onBeforeRenderPassRecording without LibOVR: one render from the headset's own pose. */
    method OnBeforeRenderPassRecordingDesktop()
      modifies this`trace, this`view, this`proj, this`eyePosition
      ensures trace == old(trace) + DesktopFrameTrace()
      ensures eyePosition == Vec3(headset.x, headset.y, headset.z)
      ensures view == MonoView(eyePosition, headset.rotation) && proj == MonoProj
    {
      trace := trace + [BeginExternalCommands, ClearViewport];
      eyePosition := Vec3(headset.x, headset.y, headset.z);
      view := MonoView(eyePosition, headset.rotation);
      proj := MonoProj;
      trace := trace + [RenderSignal, ResetOpenGlState, EndExternalCommands, RequestUpdate];
    }

    method OnSceneGraphAboutToStop()
      modifies this`trace
      ensures trace == old(trace) + [ShutdownSignal]
    {
      trace := trace + [ShutdownSignal];
    }
  }
}
