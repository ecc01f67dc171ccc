// The bitmask vocabularies shared by the renderer: buffer usages, map
// flags, sampler modes and texture formats, and the SAFE_DELETE idiom.
module VRTypes {
  import opened Common

  // BufferUsage.
  const BufferUsage_Unknown: bv32 := 0x00
  const BufferUsage_Vertex: bv32 := 0x01
  const BufferUsage_Index: bv32 := 0x02
  const BufferUsage_Uniform: bv32 := 0x04
  const BufferUsage_Feedback: bv32 := 0x08
  const BufferUsage_Compute: bv32 := 0x10
  const BufferUsage_Static: bv32 := 0x80

  // MapFlags.
  const Map_Default: bv32 := 0x00
  const Map_Discard: bv32 := 0x01
  const Map_Read: bv32 := 0x02
  const Map_Unsynchronized: bv32 := 0x04

  // SampleMode: a filter in the low two bits, an addressing mode in the next two.
  const Sample_Linear: bv32 := 0
  const Sample_Nearest: bv32 := 1
  const Sample_Anisotropic: bv32 := 2
  const Sample_FilterMask: bv32 := 3
  const Sample_Repeat: bv32 := 0
  const Sample_Clamp: bv32 := 4
  const Sample_ClampBorder: bv32 := 8
  const Sample_AddressMask: bv32 := 12
  const Sample_Count: bv32 := 13

  // TextureFormat (a 64-bit enumeration).
  const Texture_B5G6R5: bv64 := 0x10
  const Texture_BGR5A1: bv64 := 0x20
  const Texture_BGRA4: bv64 := 0x30
  const Texture_RGBA8: bv64 := 0x40
  const Texture_BGRA8: bv64 := 0x50
  const Texture_BGRX: bv64 := 0x60
  const Texture_RGBA16f: bv64 := 0x70
  const Texture_R11G11B10f: bv64 := 0x80
  const Texture_RGBA: bv64 := Texture_RGBA8
  const Texture_BGRA: bv64 := Texture_BGRA8
  const Texture_R: bv64 := 0x100
  const Texture_A: bv64 := 0x110
  const Texture_BC1: bv64 := 0x210
  const Texture_BC2: bv64 := 0x220
  const Texture_BC3: bv64 := 0x230
  const Texture_BC6S: bv64 := 0x240
  const Texture_BC6U: bv64 := 0x241
  const Texture_BC7: bv64 := 0x250
  const Texture_Depth32f: bv64 := 0x1000
  const Texture_Depth24Stencil8: bv64 := 0x2000
  const Texture_Depth32fStencil8: bv64 := 0x4000
  const Texture_Depth16: bv64 := 0x8000
  const Texture_DepthMask: bv64 := 0xf000
  const Texture_TypeMask: bv64 := 0xfff0
  const Texture_Compressed: bv64 := 0x200
  const Texture_SamplesMask: bv64 := 0x000f
  const Texture_RenderTarget: bv64 := 0x10000
  const Texture_SampleDepth: bv64 := 0x20000
  const Texture_GenMipmaps: bv64 := 0x40000
  const Texture_SRGB: bv64 := 0x80000
  const Texture_Mirror: bv64 := 0x100000
  const Texture_SwapTextureSet: bv64 := 0x200000
  const Texture_SwapTextureSetStatic: bv64 := 0x400000
  const Texture_Hdcp: bv64 := 0x800000
  const Texture_CpuDynamic: bv64 := 0x1000000
  const Texture_GenMipmapsBySdk: bv64 := 0x2000000
  const Texture_Cubemap: bv64 := 0x4000000
  const Texture_MirrorPostDistortion: bv64 := 0x10000000
  const Texture_MirrorLeftEyeOnly: bv64 := 0x20000000
  const Texture_MirrorRightEyeOnly: bv64 := 0x40000000
  const Texture_MirrorIncludeGuardian: bv64 := 0x80000000
  const Texture_MirrorIncludeNotifications: bv64 := 0x100000000
  const Texture_MirrorIncludeSystemGui: bv64 := 0x200000000
  const Texture_MirrorForceSymmetricFov: bv64 := 0x400000000

  const FilterModes: seq<bv32> := [Sample_Linear, Sample_Nearest, Sample_Anisotropic]
  const AddressModes: seq<bv32> := [Sample_Repeat, Sample_Clamp, Sample_ClampBorder]
  const ColourFormats: seq<bv64> := [Texture_B5G6R5, Texture_BGR5A1, Texture_BGRA4, Texture_RGBA8,
    Texture_BGRA8, Texture_BGRX, Texture_RGBA16f, Texture_R11G11B10f, Texture_R, Texture_A]
  const BlockFormats: seq<bv64> := [Texture_BC1, Texture_BC2, Texture_BC3, Texture_BC6S, Texture_BC6U, Texture_BC7]
  const DepthFormats: seq<bv64> := [Texture_Depth32f, Texture_Depth24Stencil8, Texture_Depth32fStencil8, Texture_Depth16]
  const TextureFlags: seq<bv64> := [Texture_RenderTarget, Texture_SampleDepth, Texture_GenMipmaps,
    Texture_SRGB, Texture_Mirror, Texture_SwapTextureSet, Texture_SwapTextureSetStatic, Texture_Hdcp,
    Texture_CpuDynamic, Texture_GenMipmapsBySdk, Texture_Cubemap, Texture_MirrorPostDistortion,
    Texture_MirrorLeftEyeOnly, Texture_MirrorRightEyeOnly, Texture_MirrorIncludeGuardian,
    Texture_MirrorIncludeNotifications, Texture_MirrorIncludeSystemGui, Texture_MirrorForceSymmetricFov]

  predicate SingleBit32(x: bv32) { x != 0 && x & (x - 1) == 0 }

  /**
   * Every filter lies inside the filter mask and every addressing mode
   * inside the address mask; the masks are disjoint, so a combined mode
   * splits back into its two halves.
   */
  lemma SampleModeSplits(f: bv32, a: bv32)
    requires f in FilterModes && a in AddressModes
    ensures f & Sample_FilterMask == f && a & Sample_AddressMask == a
    ensures Sample_FilterMask & Sample_AddressMask == 0
    ensures (f | a) & Sample_FilterMask == f
    ensures (f | a) & Sample_AddressMask == a
  {
  }

  /** The non-default BufferUsage and MapFlags values are distinct single bits. */
  lemma UsageAndMapFlagsAreBits()
    ensures forall x | x in [BufferUsage_Vertex, BufferUsage_Index, BufferUsage_Uniform,
      BufferUsage_Feedback, BufferUsage_Compute, BufferUsage_Static] :: SingleBit32(x)
    ensures forall x | x in [Map_Discard, Map_Read, Map_Unsynchronized] :: SingleBit32(x)
    ensures BufferUsage_Unknown == 0 && Map_Default == 0
    ensures |{BufferUsage_Vertex, BufferUsage_Index, BufferUsage_Uniform,
      BufferUsage_Feedback, BufferUsage_Compute, BufferUsage_Static}| == 6
    ensures |{Map_Discard, Map_Read, Map_Unsynchronized}| == 3
  {
  }

  /**
   * The depth formats lie inside the depth mask, no colour or block
   * compressed format touches it, every block compressed format carries
   * the compression bit, and the RGBA/BGRA names are aliases.
   */
  lemma FormatClasses()
    ensures forall f | f in DepthFormats :: f & Texture_DepthMask == f && f != 0
    ensures forall f | f in ColourFormats + BlockFormats :: f & Texture_DepthMask == 0
    ensures forall f | f in BlockFormats :: f & Texture_Compressed == Texture_Compressed
    ensures forall f | f in ColourFormats :: f & Texture_Compressed == 0
    ensures Texture_RGBA == Texture_RGBA8 && Texture_BGRA == Texture_BGRA8
  {
  }

  /** Every flag from RenderTarget up lies outside the type and sample-count bits. */
  lemma FlagsAboveFormat()
    ensures Texture_TypeMask | Texture_SamplesMask == 0xffff
    ensures forall f | f in TextureFlags :: f & 0xffff == 0 && f != 0
  {
  }

  /**
   * SAFE_DELETE(p): a non-null pointer is deleted and nulled; a null one is
   * left alone. The second component lists the objects deleted.
   */
  function SafeDelete<T>(p: Option<T>): (r: (Option<T>, seq<T>))
    ensures r.0 == None
    ensures p.None? ==> r.1 == []
    ensures p.Some? ==> r.1 == [p.value]
  {
    match p
    case None => (None, [])
    case Some(obj) => (None, [obj])
  }
}
