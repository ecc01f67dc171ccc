// Texture: an image file decoded off the render thread and uploaded on the
// next frame. The status machine is None -> Loading -> Processing | Error;
// the upload step keeps the status at Processing and drops the pixels.
module Textures {
  import opened Common
  import opened Gl
  import VRTypes
  import Paths

  datatype Status = StatusNone | StatusLoading | StatusProcessing | StatusReady | StatusError

  /** The integer value of each Status enumerator. */
  function StatusValue(s: Status): (v: nat)
    ensures v <= 4
  {
    match s
    case StatusNone => 0
    case StatusLoading => 1
    case StatusProcessing => 2
    case StatusReady => 3
    case StatusError => 4
  }

  lemma StatusValuesAreOrdered()
    ensures forall s1: Status, s2: Status :: StatusValue(s1) == StatusValue(s2) ==> s1 == s2
    ensures StatusValue(StatusNone) == 0
    ensures StatusValue(StatusNone) < StatusValue(StatusLoading) < StatusValue(StatusProcessing)
      < StatusValue(StatusReady) < StatusValue(StatusError)
  {
  }

  // The Target enumerators the upload switch recognises.
  const TargetTexture2D: int := GL_TEXTURE_2D
  const TargetTextureCubeMap: int := GL_TEXTURE_CUBE_MAP

  /** What the decoder hands back: the image size, its channel count and its pixels. */
  datatype Decoded = Decoded(width: int, height: int, channelCount: int, pixels: Bytes)

  /** The worker's result; `decodedData` is None for a missing or undecodable file. */
  datatype Bitmap = Bitmap(width: int, height: int, channelCount: int, decodedData: Option<Bytes>, target: int)

  /** A default-constructed Bitmap with the requested target. */
  function EmptyBitmap(target: int): (b: Bitmap)
    ensures b.width == 0 && b.height == 0 && b.channelCount == 0 && b.decodedData.None? && b.target == target
  {
    Bitmap(0, 0, 0, None, target)
  }

  /** The snapshot of source, target and format a load starts from. */
  datatype LoadRequest = LoadRequest(source: string, target: int, format: int)

  /**
   * The bitmap the worker produces for `req`: it opens the resolved file
   * name and decodes the contents with the requested channel count.
   */
  function WorkerBitmap(fs: Paths.FileSystem, decode: (Bytes, int) -> Option<Decoded>, req: LoadRequest): Bitmap
  {
    match fs.read(Paths.FileName(fs, req.source))
    case None => EmptyBitmap(req.target)
    case Some(contents) =>
      match decode(contents, req.format)
      case None => EmptyBitmap(req.target)
      case Some(d) => Bitmap(d.width, d.height, d.channelCount, Some(d.pixels), req.target)
  }

  /** The bitmap has pixels exactly when the file opened and decoded. */
  lemma WorkerBitmapHasData(fs: Paths.FileSystem, decode: (Bytes, int) -> Option<Decoded>, req: LoadRequest)
    ensures var b := WorkerBitmap(fs, decode, req);
      var contents := fs.read(Paths.FileName(fs, req.source));
      && b.target == req.target
      && (b.decodedData.Some? <==> contents.Some? && decode(contents.value, req.format).Some?)
  {
  }

  /** Channel count to GL pixel format; None for a count the upload rejects. */
  function ChannelFormat(channelCount: int): (r: Option<int>)
    ensures r.Some? <==> 1 <= channelCount <= 4
    ensures r.Some? ==> r.value == [GL_RED, GL_RG, GL_RGB, GL_RGBA][channelCount - 1]
  {
    if channelCount == 1 then Some(GL_RED)
    else if channelCount == 2 then Some(GL_RG)
    else if channelCount == 3 then Some(GL_RGB)
    else if channelCount == 4 then Some(GL_RGBA)
    else None
  }

  /** Target enumerator to GL texture target; None for anything else. */
  function GlTarget(target: int): (r: Option<int>)
    ensures r.Some? <==> target == TargetTexture2D || target == TargetTextureCubeMap
    ensures r.Some? ==> r.value == target
  {
    if target == TargetTexture2D then Some(GL_TEXTURE_2D)
    else if target == TargetTextureCubeMap then Some(GL_TEXTURE_CUBE_MAP)
    else None
  }

  /** The anisotropy a filter mode requests, or None when `sm` names no filter. */
  function Anisotropy(sm: bv32): (r: Option<int>)
    ensures r.Some? <==> sm & VRTypes.Sample_FilterMask != 3
    ensures sm & VRTypes.Sample_FilterMask == VRTypes.Sample_Anisotropic ==> r == Some(4)
    ensures sm & VRTypes.Sample_FilterMask in {VRTypes.Sample_Linear, VRTypes.Sample_Nearest} ==> r == Some(1)
  {
    var f := sm & VRTypes.Sample_FilterMask;
    if f == VRTypes.Sample_Linear || f == VRTypes.Sample_Nearest then Some(1)
    else if f == VRTypes.Sample_Anisotropic then Some(4)
    else None
  }

  /** The filter half of setSampleMode: min/mag filters and the anisotropy. */
  function FilterCalls(target: int, sm: bv32): seq<Call>
  {
    var f := sm & VRTypes.Sample_FilterMask;
    if f == VRTypes.Sample_Linear || f == VRTypes.Sample_Anisotropic then
      [TexParameteri(target, GL_TEXTURE_MIN_FILTER, GL_LINEAR_MIPMAP_LINEAR),
       TexParameteri(target, GL_TEXTURE_MAG_FILTER, GL_LINEAR),
       TexParameteri(target, GL_TEXTURE_MAX_ANISOTROPY_EXT, Anisotropy(sm).value)]
    else if f == VRTypes.Sample_Nearest then
      [TexParameteri(target, GL_TEXTURE_MIN_FILTER, GL_NEAREST),
       TexParameteri(target, GL_TEXTURE_MAG_FILTER, GL_NEAREST),
       TexParameteri(target, GL_TEXTURE_MAX_ANISOTROPY_EXT, Anisotropy(sm).value)]
    else []
  }

  /** The wrap mode a sample mode selects, or None when `sm` names none. */
  function WrapMode(sm: bv32): Option<int>
  {
    var a := sm & VRTypes.Sample_AddressMask;
    if a == VRTypes.Sample_Repeat then Some(GL_REPEAT)
    else if a == VRTypes.Sample_Clamp then Some(GL_CLAMP_TO_EDGE)
    else if a == VRTypes.Sample_ClampBorder then Some(GL_CLAMP_TO_BORDER)
    else None
  }

  /** The addressing half of setSampleMode: the same wrap mode on S and T. */
  function WrapCalls(target: int, sm: bv32): seq<Call>
  {
    match WrapMode(sm)
    case None => []
    case Some(w) => [TexParameteri(target, GL_TEXTURE_WRAP_S, w), TexParameteri(target, GL_TEXTURE_WRAP_T, w)]
  }

  function BindCalls(handle: nat, target: int, slot: int): seq<Call>
  {
    if handle == 0 then [] else [ActiveTexture(GL_TEXTURE0 + slot), BindTexture(target, handle)]
  }

  /** All calls of setSampleMode(sm) on a texture with this handle and target. */
  function SampleModeCalls(handle: nat, target: int, sm: bv32): seq<Call>
  {
    if handle == 0 then [] else BindCalls(handle, target, 0) + FilterCalls(target, sm) + WrapCalls(target, sm)
  }

  /**
   * A combined mode f|a decodes to the filter of f and the wrap of a, each
   * independently of the other half; the anisotropy is 1 for Linear and
   * Nearest and 4 for Anisotropic, and the wrap mode of Repeat, Clamp and
   * ClampBorder is REPEAT, CLAMP_TO_EDGE and CLAMP_TO_BORDER.
   */
  lemma {:induction false} SampleModeDecodesIndependently(target: int, f: bv32, a: bv32)
    requires f in VRTypes.FilterModes && a in VRTypes.AddressModes
    ensures FilterCalls(target, f | a) == FilterCalls(target, f) && |FilterCalls(target, f)| == 3
    ensures WrapCalls(target, f | a) == WrapCalls(target, a) && |WrapCalls(target, a)| == 2
    ensures Anisotropy(f) == Some(if f == VRTypes.Sample_Anisotropic then 4 else 1)
    ensures WrapMode(a) == Some(if a == VRTypes.Sample_Repeat then GL_REPEAT
      else if a == VRTypes.Sample_Clamp then GL_CLAMP_TO_EDGE else GL_CLAMP_TO_BORDER)
  {
    VRTypes.SampleModeSplits(f, a);
  }

  /** The calls of one successful upload of `bm`. */
  function UploadCalls(bm: Bitmap, handle: nat, target: int, generated: nat): seq<Call>
    requires ChannelFormat(bm.channelCount).Some? && GlTarget(bm.target).Some?
  {
    var format := ChannelFormat(bm.channelCount).value;
    var glTarget := GlTarget(bm.target).value;
    var h := if handle == 0 then generated else handle;
    [Enable(glTarget)]
    + (if handle == 0 then [GenTextures(generated)] else [])
    + [BindTexture(glTarget, h), TexImage2D(glTarget, format, bm.width, bm.height, bm.decodedData), GenerateMipmap(glTarget)]
    + SampleModeCalls(h, target, UploadSampleMode)
  }

  /** The sample mode every upload ends with. */
  const UploadSampleMode: bv32 := VRTypes.Sample_Anisotropic | VRTypes.Sample_Clamp

  datatype Signal =
    | SourceChanged(source: string)
    | TargetChanged(target: int)
    | FormatChanged(format: int)
    | StatusChanged(status: Status)

  class Texture {
    var source: string
    var status: Status
    var target: int
    var format: int
    var handle: nat
    /** The worker run in flight, if any. */
    var pending: Option<LoadRequest>
    /** The result the future watcher holds. */
    var result: Option<Bitmap>
    /** loadImage invocations queued by a source, target or format change. */
    var queuedLoads: nat
    var calls: seq<Call>
    var signals: seq<Signal>

    /** Processing is only ever entered with a decoded result at hand. */
    ghost predicate Valid()
      reads this
    {
      status == StatusProcessing ==> result.Some?
    }

    constructor ()
      ensures Valid()
      ensures status == StatusNone && target == 0 && handle == 0 && source == ""
      ensures pending.None? && result.None? && queuedLoads == 0 && calls == [] && signals == []
    {
      source := "";
      status := StatusNone;
      target := 0;
      format := 0;
      handle := 0;
      pending := None;
      result := None;
      queuedLoads := 0;
      calls := [];
      signals := [];
    }

    method SetSource(newSource: string)
      requires Valid()
      modifies this
      ensures Valid() && source == newSource
      ensures old(source) != newSource ==> signals == old(signals) + [SourceChanged(newSource)] && queuedLoads == old(queuedLoads) + 1
      ensures old(source) == newSource ==> signals == old(signals) && queuedLoads == old(queuedLoads)
      ensures status == old(status) && target == old(target) && format == old(format) && handle == old(handle)
      ensures pending == old(pending) && result == old(result) && calls == old(calls)
    {
      if source != newSource {
        source := newSource;
        signals := signals + [SourceChanged(newSource)];
        queuedLoads := queuedLoads + 1;
      }
    }

    method SetTarget(newTarget: int)
      requires Valid()
      modifies this
      ensures Valid() && target == newTarget
      ensures old(target) != newTarget ==> signals == old(signals) + [TargetChanged(newTarget)] && queuedLoads == old(queuedLoads) + 1
      ensures old(target) == newTarget ==> signals == old(signals) && queuedLoads == old(queuedLoads)
      ensures status == old(status) && source == old(source) && format == old(format) && handle == old(handle)
      ensures pending == old(pending) && result == old(result) && calls == old(calls)
    {
      if target != newTarget {
        target := newTarget;
        signals := signals + [TargetChanged(newTarget)];
        queuedLoads := queuedLoads + 1;
      }
    }

    method SetFormat(newFormat: int)
      requires Valid()
      modifies this
      ensures Valid() && format == newFormat
      ensures old(format) != newFormat ==> signals == old(signals) + [FormatChanged(newFormat)] && queuedLoads == old(queuedLoads) + 1
      ensures old(format) == newFormat ==> signals == old(signals) && queuedLoads == old(queuedLoads)
      ensures status == old(status) && source == old(source) && target == old(target) && handle == old(handle)
      ensures pending == old(pending) && result == old(result) && calls == old(calls)
    {
      if format != newFormat {
        format := newFormat;
        signals := signals + [FormatChanged(newFormat)];
        queuedLoads := queuedLoads + 1;
      }
    }

    /**
     * setStatus. Entering Processing without a worker result would make the
     * next update dereference a null bitmap, so that is excluded.
     */
    method SetStatus(newStatus: Status)
      requires Valid() && (newStatus == StatusProcessing ==> result.Some?)
      modifies this`status, this`signals
      ensures Valid() && status == newStatus
      ensures signals == old(signals) + (if old(status) != newStatus then [StatusChanged(newStatus)] else [])
    {
      if status != newStatus {
        status := newStatus;
        signals := signals + [StatusChanged(newStatus)];
      }
    }

    method Bind(slot: int)
      modifies this`calls
      ensures calls == old(calls) + BindCalls(handle, target, slot)
    {
      if handle != 0 {
        calls := calls + [ActiveTexture(GL_TEXTURE0 + slot), BindTexture(target, handle)];
      }
    }

    method SetSampleMode(sm: bv32)
      modifies this`calls
      ensures calls == old(calls) + SampleModeCalls(handle, target, sm)
    {
      if handle == 0 {
        return;
      }
      Bind(0);
      calls := calls + FilterCalls(target, sm) + WrapCalls(target, sm);
    }

    /** loadImage: starts a worker run unless one is already loading. */
    method LoadImage()
      requires Valid()
      modifies this
      ensures Valid()
      ensures old(status) == StatusLoading ==> pending == old(pending) && signals == old(signals)
      ensures old(status) != StatusLoading ==>
        && pending == Some(LoadRequest(source, target, format))
        && signals == old(signals) + [StatusChanged(StatusLoading)]
      ensures status == StatusLoading
      ensures source == old(source) && target == old(target) && format == old(format) && handle == old(handle)
      ensures result == old(result) && queuedLoads == old(queuedLoads) && calls == old(calls)
    {
      if status != StatusLoading {
        SetStatus(StatusLoading);
        pending := Some(LoadRequest(source, target, format));
      }
    }

    /** The event loop delivering one queued loadImage. */
    method DeliverQueuedLoad()
      requires Valid() && queuedLoads > 0
      modifies this
      ensures Valid() && queuedLoads == old(queuedLoads) - 1 && status == StatusLoading
      ensures old(status) != StatusLoading ==> pending == Some(LoadRequest(source, target, format))
      ensures old(status) == StatusLoading ==> pending == old(pending)
    {
      queuedLoads := queuedLoads - 1;
      LoadImage();
    }

    /** The worker has finished the pending run; `fs` and `decode` stand for QFile and stb_image. */
    method OnImageDecodingComplete(fs: Paths.FileSystem, decode: (Bytes, int) -> Option<Decoded>)
      requires Valid() && pending.Some?
      modifies this
      ensures Valid()
      ensures result == Some(WorkerBitmap(fs, decode, old(pending).value)) && pending.None?
      ensures status == if result.value.decodedData.Some? then StatusProcessing else StatusError
      ensures signals == old(signals) + (if old(status) != status then [StatusChanged(status)] else [])
      ensures source == old(source) && target == old(target) && format == old(format) && handle == old(handle)
      ensures queuedLoads == old(queuedLoads) && calls == old(calls)
    {
      var bitmap := WorkerBitmap(fs, decode, pending.value);
      result := Some(bitmap);
      pending := None;
      if bitmap.decodedData.Some? {
        SetStatus(StatusProcessing);
      } else {
        SetStatus(StatusError);
      }
    }

    /** The per-frame update; `generated` is the name glGenTextures returns if it is called. */
    method OnUpdate(generated: nat)
      requires Valid() && generated > 0
      modifies this
      ensures Valid()
      ensures old(status) != StatusProcessing ==>
        status == old(status) && handle == old(handle) && result == old(result) && calls == old(calls) && signals == old(signals)
      ensures old(status) == StatusProcessing ==>
        var bm := old(result).value;
        if ChannelFormat(bm.channelCount).None? || GlTarget(bm.target).None? then
          && status == StatusError && handle == old(handle) && result == old(result) && calls == old(calls)
          && signals == old(signals) + [StatusChanged(StatusError)]
        else
          && status == StatusProcessing && signals == old(signals)
          && handle == (if old(handle) == 0 then generated else old(handle))
          && calls == old(calls) + UploadCalls(bm, old(handle), target, generated)
          && result == Some(bm.(decodedData := None))
      ensures source == old(source) && target == old(target) && format == old(format)
      ensures pending == old(pending) && queuedLoads == old(queuedLoads)
    {
      if status != StatusProcessing {
        return;
      }
      var bm := result.value;
      var glFormat := ChannelFormat(bm.channelCount);
      if glFormat.None? {
        SetStatus(StatusError);
        return;
      }
      var glTarget := GlTarget(bm.target);
      if glTarget.None? {
        SetStatus(StatusError);
        return;
      }
      Upload(bm, generated);
    }

    /** The successful branch of the update: upload `bm` and drop its pixels. */
    method Upload(bm: Bitmap, generated: nat)
      requires Valid() && generated > 0 && status == StatusProcessing
      requires ChannelFormat(bm.channelCount).Some? && GlTarget(bm.target).Some?
      modifies this`handle, this`calls, this`result
      ensures Valid()
      ensures handle == (if old(handle) == 0 then generated else old(handle))
      ensures calls == old(calls) + UploadCalls(bm, old(handle), target, generated)
      ensures result == Some(bm.(decodedData := None))
    {
      var glTarget := GlTarget(bm.target).value;
      ghost var h0 := handle;
      UploadPixels(bm, generated);
      SetSampleMode(UploadSampleMode);
      result := Some(bm.(decodedData := None));
      AppendFour(old(calls), [Enable(glTarget)], if h0 == 0 then [GenTextures(generated)] else [],
        [BindTexture(glTarget, handle), TexImage2D(glTarget, ChannelFormat(bm.channelCount).value, bm.width, bm.height, bm.decodedData),
         GenerateMipmap(glTarget)],
        SampleModeCalls(handle, target, UploadSampleMode));
    }

    /** The texture enabled, named on first use, bound, filled with the pixels and mipmapped. */
    method UploadPixels(bm: Bitmap, generated: nat)
      requires ChannelFormat(bm.channelCount).Some? && GlTarget(bm.target).Some?
      modifies this`handle, this`calls
      ensures handle == (if old(handle) == 0 then generated else old(handle))
      ensures var glTarget := GlTarget(bm.target).value;
        calls == old(calls) + [Enable(glTarget)] + (if old(handle) == 0 then [GenTextures(generated)] else [])
          + [BindTexture(glTarget, handle), TexImage2D(glTarget, ChannelFormat(bm.channelCount).value, bm.width, bm.height, bm.decodedData),
             GenerateMipmap(glTarget)]
    {
      var glFormat := ChannelFormat(bm.channelCount).value;
      var glTarget := GlTarget(bm.target).value;
      calls := calls + [Enable(glTarget)];
      if handle == 0 {
        handle := generated;
        calls := calls + [GenTextures(generated)];
      }
      calls := calls + [BindTexture(glTarget, handle),
        TexImage2D(glTarget, glFormat, bm.width, bm.height, bm.decodedData),
        GenerateMipmap(glTarget)];
    }

    method OnShutdown()
      modifies this`handle, this`calls
      ensures handle == 0
      ensures calls == old(calls) + (if old(handle) == 0 then [] else [DeleteTextures(old(handle))])
    {
      if handle != 0 {
        calls := calls + [DeleteTextures(handle)];
        handle := 0;
      }
    }
  }

  /**
   * The texture never leaves Processing on its own: after one successful
   * upload, the next frame uploads again, this time with no pixels, and the
   * status is still Processing.
   */
  method UploadRepeatsWithoutPixels(t: Texture, g1: nat, g2: nat)
    requires t.Valid() && t.status == StatusProcessing && g1 > 0 && g2 > 0
    requires ChannelFormat(t.result.value.channelCount).Some? && GlTarget(t.result.value.target).Some?
    modifies t
    ensures t.status == StatusProcessing && |t.calls| >= |old(t.calls)|
    ensures TexImage2D(GlTarget(old(t.result).value.target).value, ChannelFormat(old(t.result).value.channelCount).value,
      old(t.result).value.width, old(t.result).value.height, None) in t.calls[|old(t.calls)|..]
  {
    t.OnUpdate(g1);
    var mid := |t.calls|;
    var h := t.handle;
    t.OnUpdate(g2);
    assert t.calls[mid..] == UploadCalls(t.result.value, h, t.target, g2);
    assert t.calls[mid..][2] == t.calls[mid + 2];
  }
}
