// VRRenderer: the LibOVR renderer that predates Device. init creates the
// session, the two eye swap chains, the mirror texture and its read
// framebuffer and the demo room; paint renders one frame of both eyes and
// submits it; cleanup releases everything. The LibOVR and GL results the
// code branches on are inputs; the calls it makes are recorded in order.
module VRRenderers {

  // ---------------------------------------------------------------------
  // The RAII wrappers: their destructors release only what is held.

  datatype ChainKind = ColorChain | DepthChain

  datatype ReleaseCall =
    | DestroyTextureSwapChain(kind: ChainKind)
    | DeleteFramebuffer(fbo: nat)
    | DeleteTexture(texture: nat)

  /** OculusTextureBuffer: a colour and a depth swap chain and an FBO. */
  class OculusTextureBuffer {
    /** ColorTextureChain / DepthTextureChain are non-null. */
    var colorChain: bool
    var depthChain: bool
    var fboId: nat
    var calls: seq<ReleaseCall>

    /**
     * The constructor: each chain is held if ovr_CreateTextureSwapChainGL
     * produced it; the FBO always comes from glGenFramebuffers.
     */
    constructor (colorCreated: bool, depthCreated: bool, framebuffer: nat)
      ensures colorChain == colorCreated && depthChain == depthCreated
      ensures fboId == framebuffer && calls == []
    {
      colorChain := colorCreated;
      depthChain := depthCreated;
      fboId := framebuffer;
      calls := [];
    }

    /** The destructor: each held resource is released once and reset. */
    method Destroy()
      modifies this
      ensures !colorChain && !depthChain && fboId == 0
      ensures calls == old(calls)
        + (if old(colorChain) then [DestroyTextureSwapChain(ColorChain)] else [])
        + (if old(depthChain) then [DestroyTextureSwapChain(DepthChain)] else [])
        + (if old(fboId) != 0 then [DeleteFramebuffer(old(fboId))] else [])
    {
      if colorChain {
        calls := calls + [DestroyTextureSwapChain(ColorChain)];
        colorChain := false;
      }
      if depthChain {
        calls := calls + [DestroyTextureSwapChain(DepthChain)];
        depthChain := false;
      }
      if fboId != 0 {
        calls := calls + [DeleteFramebuffer(fboId)];
        fboId := 0;
      }
    }
  }

  /** TextureBuffer: a texture and, for a render target, an FBO. */
  class TextureBuffer {
    var texId: nat
    var fboId: nat
    var calls: seq<ReleaseCall>

    /** glGenTextures always; glGenFramebuffers only for a render target. */
    constructor (renderTarget: bool, texture: nat, framebuffer: nat)
      ensures texId == texture && fboId == (if renderTarget then framebuffer else 0) && calls == []
    {
      texId := texture;
      fboId := if renderTarget then framebuffer else 0;
      calls := [];
    }

    method Destroy()
      modifies this
      ensures texId == 0 && fboId == 0
      ensures calls == old(calls)
        + (if old(texId) != 0 then [DeleteTexture(old(texId))] else [])
        + (if old(fboId) != 0 then [DeleteFramebuffer(old(fboId))] else [])
    {
      if texId != 0 {
        calls := calls + [DeleteTexture(texId)];
        texId := 0;
      }
      if fboId != 0 {
        calls := calls + [DeleteFramebuffer(fboId)];
        fboId := 0;
      }
    }
  }

  /** Destroying twice releases nothing the second time. */
  method DestroyTwice(b: OculusTextureBuffer)
    modifies b
    ensures !b.colorChain && !b.depthChain && b.fboId == 0
    ensures b.calls == old(b.calls)
      + (if old(b.colorChain) then [DestroyTextureSwapChain(ColorChain)] else [])
      + (if old(b.depthChain) then [DestroyTextureSwapChain(DepthChain)] else [])
      + (if old(b.fboId) != 0 then [DeleteFramebuffer(old(b.fboId))] else [])
  {
    b.Destroy();
    var once := b.calls;
    b.Destroy();
    assert b.calls == once;
  }

  /** A texture that is not a render target releases only its texture. */
  method DestroyPlainTexture(texture: nat, framebuffer: nat) returns (calls: seq<ReleaseCall>)
    ensures calls == if texture != 0 then [DeleteTexture(texture)] else []
  {
    var t := new TextureBuffer(false, texture, framebuffer);
    t.Destroy();
    calls := t.calls;
  }

  // ---------------------------------------------------------------------
  // init.

  /** The VALIDATE checks of init, each of which ends the process when it fails. */
  datatype ValidateStep = DefaultAdapter | EyeTexture(eye: nat) | MirrorTexture

  datatype SetupEvent =
    | GenFramebuffer(fbo: nat)
    | CreateSession
    | CreateEyeTexture(eye: nat)
    | CreateMirrorTexture
    | MirrorFramebuffer(fbo: nat)
    | CreateRoomScene
    | SetTrackingOrigin
    | Exit(step: ValidateStep)

  /** What LibOVR and GL answer during init. */
  datatype InitAnswers = InitAnswers(
    fboHandle: nat, created: bool, defaultAdapter: bool,
    leftChainsOk: bool, rightChainsOk: bool, mirrorOk: bool, mirrorFboHandle: nat)

  predicate EyeOk(a: InitAnswers, eye: nat) { if eye == 0 then a.leftChainsOk else a.rightChainsOk }

  /** The eye loop from `eye` on: each texture is created, then validated. */
  function EyeTextureTrace(a: InitAnswers, eye: nat): seq<SetupEvent>
    requires eye <= 2
    decreases 2 - eye
  {
    if eye == 2 then []
    else if !EyeOk(a, eye) then [CreateEyeTexture(eye), Exit(EyeTexture(eye))]
    else [CreateEyeTexture(eye)] + EyeTextureTrace(a, eye + 1)
  }

  predicate SessionSetupSucceeds(a: InitAnswers)
  {
    a.created && a.defaultAdapter && a.leftChainsOk && a.rightChainsOk && a.mirrorOk
  }

  /** What init does once no session exists. */
  function SessionSetupTrace(a: InitAnswers): seq<SetupEvent>
  {
    if !a.created then [CreateSession]
    else if !a.defaultAdapter then [CreateSession, Exit(DefaultAdapter)]
    else if !(a.leftChainsOk && a.rightChainsOk) then [CreateSession] + EyeTextureTrace(a, 0)
    else if !a.mirrorOk then
      [CreateSession] + EyeTextureTrace(a, 0) + [CreateMirrorTexture, Exit(MirrorTexture)]
    else
      [CreateSession] + EyeTextureTrace(a, 0)
        + [CreateMirrorTexture, MirrorFramebuffer(a.mirrorFboHandle), CreateRoomScene, SetTrackingOrigin]
  }

  /** The whole of init, given m_fboId and whether a session exists beforehand. */
  function InitTrace(fboWas: nat, hadSession: bool, a: InitAnswers): seq<SetupEvent>
  {
    (if fboWas != 0 then [GenFramebuffer(a.fboHandle)] else [])
      + (if hadSession then [] else SessionSetupTrace(a))
  }

  /**
   * The framebuffer guard is inverted: init generates m_fboId only when
   * it is already nonzero, so from its initial value 0 it never does; a
   * session is created only when none exists, and a failed ovr_Create
   * ends init with nothing else done.
   */
  lemma InitGuards(fboWas: nat, hadSession: bool, a: InitAnswers)
    ensures GenFramebuffer(a.fboHandle) in InitTrace(fboWas, hadSession, a) <==> fboWas != 0
    ensures CreateSession in InitTrace(fboWas, hadSession, a) <==> !hadSession
    ensures !hadSession && !a.created ==> InitTrace(fboWas, hadSession, a)[|InitTrace(fboWas, hadSession, a)| - 1] == CreateSession
    ensures CreateRoomScene in InitTrace(fboWas, hadSession, a) <==> !hadSession && SessionSetupSucceeds(a)
  {
    var t := SessionSetupTrace(a);
    assert GenFramebuffer(a.fboHandle) !in t;
    assert EyeTextureTrace(a, 0) == if !a.leftChainsOk then [CreateEyeTexture(0), Exit(EyeTexture(0))]
      else [CreateEyeTexture(0)] + EyeTextureTrace(a, 1);
    assert EyeTextureTrace(a, 1) == if !a.rightChainsOk then [CreateEyeTexture(1), Exit(EyeTexture(1))]
      else [CreateEyeTexture(1)];
  }

  // ---------------------------------------------------------------------
  // paint.

  /** ovrSessionStatus: the four flags paint reads. */
  datatype SessionStatus = SessionStatus(shouldQuit: bool, shouldRecenter: bool, isVisible: bool, hasInputFocus: bool)

  datatype FrameEvent =
    | BeginExternalCommands
    | Recenter
    /** roomScene->Models[0]->Pos moves along the orbit; the orbit maths is not modelled. */
    | AnimateCube
    | GetEyePoses(frame: int)
    | SetAndClear(eye: nat)
    | RenderScene(eye: nat)
    | Unset(eye: nat)
    | Commit(eye: nat)
    | SubmitFrame(frame: int)
    | MirrorBlit(fbo: nat)
    | ResetOpenGlState
    | EndExternalCommands
    | RequestUpdate

  function EyePass(eye: nat): seq<FrameEvent>
  {
    [SetAndClear(eye), RenderScene(eye), Unset(eye), Commit(eye)]
  }

  /** The first n iterations of the eye loop. */
  function EyePasses(n: nat): (r: seq<FrameEvent>)
    ensures |r| == 4 * n
  {
    if n == 0 then [] else EyePasses(n - 1) + EyePass(n - 1)
  }

  function VisiblePart(frame: int, status: SessionStatus): seq<FrameEvent>
  {
    (if status.hasInputFocus then [AnimateCube] else [])
      + [GetEyePoses(frame)] + EyePasses(2) + [SubmitFrame(frame)]
  }

  function FrameEnd(mirrorFbo: nat): seq<FrameEvent>
  {
    [MirrorBlit(mirrorFbo), ResetOpenGlState, EndExternalCommands, RequestUpdate]
  }

  function FrameHead(status: SessionStatus): seq<FrameEvent>
  {
    [BeginExternalCommands] + if status.shouldRecenter then [Recenter] else []
  }

  /** One paint call. */
  function PaintTrace(frame: int, mirrorFbo: nat, status: SessionStatus, submitOk: bool): seq<FrameEvent>
  {
    if status.shouldQuit then [BeginExternalCommands]
    else if !status.isVisible then FrameHead(status) + FrameEnd(mirrorFbo)
    else if !submitOk then FrameHead(status) + VisiblePart(frame, status)
    else FrameHead(status) + VisiblePart(frame, status) + FrameEnd(mirrorFbo)
  }

  /** Whether paint advances frameIndex. */
  predicate Advances(status: SessionStatus, submitOk: bool)
  {
    !status.shouldQuit && status.isVisible && submitOk
  }

  /**
   * ShouldQuit: paint returns right after beginExternalCommands, without
   * the matching endExternalCommands, rendering nothing.
   */
  lemma QuitPaint(frame: int, mirrorFbo: nat, status: SessionStatus, submitOk: bool)
    requires status.shouldQuit
    ensures PaintTrace(frame, mirrorFbo, status, submitOk) == [BeginExternalCommands]
    ensures EndExternalCommands !in PaintTrace(frame, mirrorFbo, status, submitOk)
    ensures !Advances(status, submitOk)
  {
  }

  lemma EyePassesTwo()
    ensures EyePasses(2) == EyePass(0) + EyePass(1)
  {
    assert EyePasses(1) == EyePass(0);
  }

  /** The eye loop only sets, renders, unsets and commits. */
  lemma {:induction false} EyePassesOnly(n: nat)
    ensures forall e :: e in EyePasses(n) ==> e.SetAndClear? || e.RenderScene? || e.Unset? || e.Commit?
  {
    if n > 0 {
      EyePassesOnly(n - 1);
    }
  }

  /**
   * A visible frame: the eye poses for the current frame index come
   * first, eye 0's pass precedes eye 1's, each pass is set-and-clear,
   * render, unset, commit, and the submit of the same frame index follows
   * both.
   */
  lemma VisiblePaintOrder(frame: int, mirrorFbo: nat, status: SessionStatus, submitOk: bool)
    requires !status.shouldQuit && status.isVisible
    ensures PaintTrace(frame, mirrorFbo, status, submitOk) ==
      FrameHead(status) + (if status.hasInputFocus then [AnimateCube] else []) + [GetEyePoses(frame)]
      + EyePass(0) + EyePass(1) + [SubmitFrame(frame)] + (if submitOk then FrameEnd(mirrorFbo) else [])
  {
    EyePassesTwo();
  }

  /**
   * A failed submit ends the frame at the submit: no blit, no
   * endExternalCommands and no update request.
   */
  lemma FailedSubmitPaint(frame: int, mirrorFbo: nat, status: SessionStatus)
    requires !status.shouldQuit && status.isVisible
    ensures var t := PaintTrace(frame, mirrorFbo, status, false);
      t[|t| - 1] == SubmitFrame(frame)
      && EndExternalCommands !in t && RequestUpdate !in t && MirrorBlit(mirrorFbo) !in t
  {
    EyePassesOnly(2);
  }

  /** A hidden frame renders nothing and still blits, resets and requests an update. */
  lemma HiddenPaint(frame: int, mirrorFbo: nat, status: SessionStatus, submitOk: bool)
    requires !status.shouldQuit && !status.isVisible
    ensures PaintTrace(frame, mirrorFbo, status, submitOk) == FrameHead(status) + FrameEnd(mirrorFbo)
    ensures forall e :: RenderScene(e) !in PaintTrace(frame, mirrorFbo, status, submitOk)
    ensures !Advances(status, submitOk)
  {
  }

  // ---------------------------------------------------------------------
  // cleanup.

  datatype TeardownEvent =
    | DeleteRoomScene
    | DeleteMirrorFramebuffer(fbo: nat)
    | DestroyMirrorTexture
    | DeleteEyeTexture(eye: nat)
    | DeleteFboId(fbo: nat)
    | DestroySession

  class VRRenderer {
    var fboId: nat
    /** eyeRenderTexture[eye] is non-null. */
    var eyeTextures: seq<bool>
    var mirrorTexture: bool
    var mirrorFbo: nat
    var roomScene: bool
    /** long long frameIndex. */
    var frameIndex: int
    var session: bool
    var setup: seq<SetupEvent>
    var trace: seq<FrameEvent>
    var teardown: seq<TeardownEvent>

    /** The member initialisers of the header; the constructor's LibOVR checks are not part of this model. */
    constructor ()
      ensures fboId == 0 && eyeTextures == [false, false] && !mirrorTexture && mirrorFbo == 0
      ensures !roomScene && frameIndex == 0 && !session
      ensures setup == [] && trace == [] && teardown == []
    {
      fboId := 0;
      eyeTextures := [false, false];
      mirrorTexture := false;
      mirrorFbo := 0;
      roomScene := false;
      frameIndex := 0;
      session := false;
      setup := [];
      trace := [];
      teardown := [];
    }

    method Init(a: InitAnswers)
      requires |eyeTextures| == 2
      modifies this`fboId, this`session, this`eyeTextures, this`mirrorTexture, this`mirrorFbo, this`roomScene, this`setup
      ensures setup == old(setup) + InitTrace(old(fboId), old(session), a)
      ensures fboId == if old(fboId) != 0 then a.fboHandle else 0
      ensures session == (old(session) || a.created)
      ensures |eyeTextures| == 2
      ensures !old(session) && SessionSetupSucceeds(a) ==>
        eyeTextures == [true, true] && mirrorTexture && mirrorFbo == a.mirrorFboHandle && roomScene
      ensures old(session) ==> (eyeTextures == old(eyeTextures) && mirrorTexture == old(mirrorTexture)
        && mirrorFbo == old(mirrorFbo) && roomScene == old(roomScene))
      ensures !old(session) && !a.created ==> (eyeTextures == old(eyeTextures) && mirrorTexture == old(mirrorTexture)
        && mirrorFbo == old(mirrorFbo) && roomScene == old(roomScene))
    {
      var events: seq<SetupEvent> := [];
      if fboId != 0 {
        fboId := a.fboHandle;
        events := [GenFramebuffer(fboId)];
      }
      if session {
        setup := setup + events;
        return;
      }
      var created := CreateSessionResources(a);
      setup := setup + (events + created);
    }

    /** The `if (!session)` block of init. */
    method CreateSessionResources(a: InitAnswers) returns (events: seq<SetupEvent>)
      requires |eyeTextures| == 2 && !session
      modifies this`session, this`eyeTextures, this`mirrorTexture, this`mirrorFbo, this`roomScene
      ensures events == SessionSetupTrace(a)
      ensures session == a.created
      ensures |eyeTextures| == 2
      ensures SessionSetupSucceeds(a) ==>
        eyeTextures == [true, true] && mirrorTexture && mirrorFbo == a.mirrorFboHandle && roomScene
      ensures !a.created ==> (eyeTextures == old(eyeTextures) && mirrorTexture == old(mirrorTexture)
        && mirrorFbo == old(mirrorFbo) && roomScene == old(roomScene))
    {
      events := [CreateSession];
      if !a.created {
        return;
      }
      session := true;
      if !a.defaultAdapter {
        return events + [Exit(DefaultAdapter)];
      }
      var eyes, ok := MakeEyeTextures(a);
      events := events + eyes;
      if !ok {
        return;
      }
      if !a.mirrorOk {
        return events + [CreateMirrorTexture, Exit(MirrorTexture)];
      }
      mirrorTexture := true;
      mirrorFbo := a.mirrorFboHandle;
      roomScene := true;
      events := events + [CreateMirrorTexture, MirrorFramebuffer(mirrorFbo), CreateRoomScene, SetTrackingOrigin];
    }

    /** The eye-texture loop of init: each texture is stored before it is validated. */
    method MakeEyeTextures(a: InitAnswers) returns (events: seq<SetupEvent>, ok: bool)
      requires |eyeTextures| == 2
      modifies this`eyeTextures
      ensures events == EyeTextureTrace(a, 0)
      ensures |eyeTextures| == 2
      ensures ok <==> a.leftChainsOk && a.rightChainsOk
      ensures ok ==> eyeTextures == [true, true]
    {
      events := [];
      var eye := 0;
      while eye < 2
        invariant 0 <= eye <= 2 && |eyeTextures| == 2
        invariant forall e :: 0 <= e < eye ==> EyeOk(a, e) && eyeTextures[e]
        invariant EyeTextureTrace(a, 0) == events + EyeTextureTrace(a, eye)
      {
        eyeTextures := eyeTextures[eye := true];
        events := events + [CreateEyeTexture(eye)];
        if !EyeOk(a, eye) {
          events := events + [Exit(EyeTexture(eye))];
          return events, false;
        }
        eye := eye + 1;
      }
      ok := true;
    }

    /** paint, given the session status and whether ovr_SubmitFrame succeeds. */
    method Paint(status: SessionStatus, submitOk: bool)
      modifies this`trace, this`frameIndex
      ensures trace == old(trace) + PaintTrace(old(frameIndex), mirrorFbo, status, submitOk)
      ensures frameIndex == old(frameIndex) + (if Advances(status, submitOk) then 1 else 0)
    {
      var events := [BeginExternalCommands];
      if status.shouldQuit {
        trace := trace + events;
        return;
      }
      if status.shouldRecenter {
        events := events + [Recenter];
      }
      assert events == FrameHead(status);
      if status.isVisible {
        var visible := RenderVisible(status);
        events := events + visible;
        if !submitOk {
          trace := trace + events;
          return;
        }
        frameIndex := frameIndex + 1;
      }
      events := events + FrameEnd(mirrorFbo);
      trace := trace + events;
    }

    /** The visible block of paint up to the submit. */
    method RenderVisible(status: SessionStatus) returns (events: seq<FrameEvent>)
      ensures events == VisiblePart(frameIndex, status)
    {
      events := if status.hasInputFocus then [AnimateCube] else [];
      events := events + [GetEyePoses(frameIndex)];
      var eyes := RenderEyes();
      events := events + eyes + [SubmitFrame(frameIndex)];
    }

    /** The eye loop of paint. */
    method RenderEyes() returns (events: seq<FrameEvent>)
      ensures events == EyePasses(2)
    {
      events := [];
      for eye := 0 to 2
        invariant events == EyePasses(eye)
      {
        events := events + [SetAndClear(eye)];
        events := events + [RenderScene(eye)];
        events := events + [Unset(eye), Commit(eye)];
      }
    }

    /**
     * cleanup: everything held is released and reset; the eye textures are
     * deleted unconditionally (deleting null does nothing) and ovr_Destroy
     * is called even without a session.
     */
    method Cleanup()
      requires |eyeTextures| == 2
      modifies this`roomScene, this`mirrorFbo, this`mirrorTexture, this`eyeTextures, this`fboId, this`session, this`teardown
      ensures !roomScene && mirrorFbo == 0 && !mirrorTexture && eyeTextures == [false, false] && fboId == 0 && !session
      ensures teardown == old(teardown) + TeardownTrace(old(roomScene), old(mirrorFbo), old(mirrorTexture), old(eyeTextures), old(fboId))
    {
      var events: seq<TeardownEvent> := [];
      if roomScene {
        events := [DeleteRoomScene];
        roomScene := false;
      }
      var mirror: seq<TeardownEvent> := [];
      if mirrorFbo != 0 {
        mirror := [DeleteMirrorFramebuffer(mirrorFbo)];
        mirrorFbo := 0;
      }
      var texture: seq<TeardownEvent> := [];
      if mirrorTexture {
        texture := [DestroyMirrorTexture];
        mirrorTexture := false;
      }
      var eyes := DeleteEyeTextures();
      var fbo: seq<TeardownEvent> := [];
      if fboId != 0 {
        fbo := [DeleteFboId(fboId)];
        fboId := 0;
      }
      session := false;
      events := events + mirror + texture + eyes + fbo + [DestroySession];
      teardown := teardown + events;
    }

    /** The eye loop of cleanup. */
    method DeleteEyeTextures() returns (events: seq<TeardownEvent>)
      requires |eyeTextures| == 2
      modifies this`eyeTextures
      ensures eyeTextures == [false, false]
      ensures events == EyeDeletions(old(eyeTextures), 2)
    {
      events := [];
      for eye := 0 to 2
        invariant |eyeTextures| == 2
        invariant forall e :: 0 <= e < eye ==> !eyeTextures[e]
        invariant forall e :: eye <= e < 2 ==> eyeTextures[e] == old(eyeTextures[e])
        invariant events == EyeDeletions(old(eyeTextures), eye)
      {
        if eyeTextures[eye] {
          events := events + [DeleteEyeTexture(eye)];
        }
        eyeTextures := eyeTextures[eye := false];
      }
      assert eyeTextures == [false, false];
    }
  }

  /** cleanup, given what is held when it starts. */
  function TeardownTrace(roomScene: bool, mirrorFbo: nat, mirrorTexture: bool, eyeTextures: seq<bool>, fboId: nat): seq<TeardownEvent>
    requires |eyeTextures| == 2
  {
    (if roomScene then [DeleteRoomScene] else [])
      + (if mirrorFbo != 0 then [DeleteMirrorFramebuffer(mirrorFbo)] else [])
      + (if mirrorTexture then [DestroyMirrorTexture] else [])
      + EyeDeletions(eyeTextures, 2)
      + (if fboId != 0 then [DeleteFboId(fboId)] else [])
      + [DestroySession]
  }

  /** The deletions of eye textures 0 .. n - 1 that were non-null. */
  function EyeDeletions(held: seq<bool>, n: nat): (r: seq<TeardownEvent>)
    requires n <= |held|
    ensures |r| <= n
  {
    if n == 0 then [] else EyeDeletions(held, n - 1) + (if held[n - 1] then [DeleteEyeTexture(n - 1)] else [])
  }

  /** An eye texture is deleted exactly when it was held. */
  lemma {:induction false} EyeDeletionsHeld(held: seq<bool>, n: nat, eye: nat)
    requires n <= |held|
    ensures DeleteEyeTexture(eye) in EyeDeletions(held, n) <==> eye < n && held[eye]
  {
    if n > 0 {
      EyeDeletionsHeld(held, n - 1, eye);
    }
  }

  /** The eye loop of cleanup deletes nothing but eye textures. */
  lemma {:induction false} EyeDeletionsOnly(held: seq<bool>, n: nat)
    requires n <= |held|
    ensures forall e :: e in EyeDeletions(held, n) ==> e.DeleteEyeTexture?
  {
    if n > 0 {
      EyeDeletionsOnly(held, n - 1);
    }
  }

  /**
   * cleanup releases each resource exactly when it is held, and always
   * destroys the session last.
   */
  lemma TeardownReleasesHeld(roomScene: bool, mirrorFbo: nat, mirrorTexture: bool, eyeTextures: seq<bool>, fboId: nat)
    requires |eyeTextures| == 2
    ensures var t := TeardownTrace(roomScene, mirrorFbo, mirrorTexture, eyeTextures, fboId);
      (DeleteRoomScene in t <==> roomScene)
      && (DestroyMirrorTexture in t <==> mirrorTexture)
      && (forall f :: DeleteMirrorFramebuffer(f) in t <==> mirrorFbo != 0 && f == mirrorFbo)
      && (forall f :: DeleteFboId(f) in t <==> fboId != 0 && f == fboId)
      && t[|t| - 1] == DestroySession
  {
    EyeDeletionsOnly(eyeTextures, 2);
  }

  /**
   * From the initial state, init never generates m_fboId, so cleanup
   * never deletes it: the inverted guard makes that framebuffer dead code.
   */
  method InitThenCleanup(a: InitAnswers) returns (r: VRRenderer)
    ensures fresh(r) && r.fboId == 0
    ensures GenFramebuffer(a.fboHandle) !in r.setup
    ensures DeleteFboId(a.fboHandle) !in r.teardown
  {
    r := new VRRenderer();
    r.Init(a);
    InitGuards(0, false, a);
    assert r.setup == InitTrace(0, false, a);
    TeardownReleasesHeld(r.roomScene, r.mirrorFbo, r.mirrorTexture, r.eyeTextures, r.fboId);
    r.Cleanup();
  }
}
