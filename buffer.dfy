// Buffer: a GPU buffer object staged on the CPU. The setters record what
// changed in a dirty mask; the per-frame update allocates the buffer name
// on first use, uploads once and clears the mask.
module Buffers {
  import opened Gl

  datatype Target = TargetIndexBuffer | TargetUniformBuffer | TargetVertexBuffer

  /** The GLenum each Target enumerator is declared as. */
  function TargetEnum(t: Target): (e: int)
    ensures e in {GL_ELEMENT_ARRAY_BUFFER, GL_UNIFORM_BUFFER, GL_ARRAY_BUFFER}
  {
    match t
    case TargetIndexBuffer => GL_ELEMENT_ARRAY_BUFFER
    case TargetUniformBuffer => GL_UNIFORM_BUFFER
    case TargetVertexBuffer => GL_ARRAY_BUFFER
  }

  datatype Usage = UsageDynamicDraw | UsageStaticDraw | UsageStreamDraw

  /** The GLenum each Usage enumerator is declared as. */
  function UsageEnum(u: Usage): (e: int)
    ensures e in {GL_DYNAMIC_DRAW, GL_STATIC_DRAW, GL_STREAM_DRAW}
  {
    match u
    case UsageDynamicDraw => GL_DYNAMIC_DRAW
    case UsageStaticDraw => GL_STATIC_DRAW
    case UsageStreamDraw => GL_STREAM_DRAW
  }

  /** Each enumeration has three values, and distinct values are distinct GLenums. */
  lemma EnumsAreFaithful()
    ensures forall t1: Target, t2: Target :: TargetEnum(t1) == TargetEnum(t2) ==> t1 == t2
    ensures forall u1: Usage, u2: Usage :: UsageEnum(u1) == UsageEnum(u2) ==> u1 == u2
    ensures |{TargetEnum(TargetIndexBuffer), TargetEnum(TargetUniformBuffer), TargetEnum(TargetVertexBuffer)}| == 3
    ensures |{UsageEnum(UsageDynamicDraw), UsageEnum(UsageStaticDraw), UsageEnum(UsageStreamDraw)}| == 3
  {
  }

  // DirtyFlag.
  const DirtyNone: bv32 := 0x00
  const DirtyTarget: bv32 := 0x01
  const DirtyUsage: bv32 := 0x02
  const DirtyData: bv32 := 0x04
  const DirtyAll: bv32 := DirtyTarget | DirtyData | DirtyUsage

  lemma DirtyFlagsAreDistinctBits()
    ensures DirtyNone == 0
    ensures DirtyTarget & DirtyUsage == 0 && DirtyTarget & DirtyData == 0 && DirtyUsage & DirtyData == 0
    ensures forall f | f in [DirtyTarget, DirtyUsage, DirtyData] :: f != 0 && f & (f - 1) == 0
  {
  }

  /** A mask holding only staging bits is clean exactly when none of them is set, and clearing them leaves it clean. */
  lemma StagedBits(d: bv32)
    requires d & !DirtyAll == 0
    ensures d != DirtyNone <==> d & DirtyAll != 0
    ensures d & !DirtyAll == DirtyNone && DirtyNone & !DirtyAll == 0
  {
  }

  datatype Signal = TargetChanged(target: Target) | UsageChanged(usage: Usage) | DataChanged(data: Bytes)

  /**
   * The GL calls one update issues, given the state it starts from and the
   * name glGenBuffers hands out.
   */
  function UpdateCalls(handle: nat, dirty: bv32, target: Target, usage: Usage, data: Bytes, generated: nat): seq<Call>
  {
    if dirty == DirtyNone then []
    else
      var h := if handle == 0 then generated else handle;
      (if handle == 0 then [GenBuffers(generated)] else [])
      + (if dirty & DirtyAll != 0 then [BindBuffer(TargetEnum(target), h), BufferData(TargetEnum(target), data, UsageEnum(usage))] else [])
  }

  /**
   * What an update uploads: nothing with a clean mask; otherwise a name is
   * generated only when there is none yet, and exactly one upload of the
   * current target, data and usage follows, bound to the buffer's name.
   */
  lemma UpdateUploadsCurrentState(handle: nat, dirty: bv32, target: Target, usage: Usage, data: Bytes, generated: nat)
    requires dirty & !DirtyAll == 0
    ensures dirty == DirtyNone ==> UpdateCalls(handle, dirty, target, usage, data, generated) == []
    ensures dirty != DirtyNone ==>
      var calls := UpdateCalls(handle, dirty, target, usage, data, generated);
      var h := if handle == 0 then generated else handle;
      && (GenBuffers(generated) in calls <==> handle == 0)
      && |calls| >= 2
      && calls[|calls| - 2..] == [BindBuffer(TargetEnum(target), h), BufferData(TargetEnum(target), data, UsageEnum(usage))]
  {
  }

  class Buffer {
    var handle: nat
    var target: Target
    var usage: Usage
    var data: Bytes
    var dirty: bv32
    /** The GL calls this buffer has issued, oldest first. */
    var calls: seq<Call>
    /** The change notifications it has emitted, oldest first. */
    var signals: seq<Signal>

    /** Only the three staging bits are ever set. */
    ghost predicate Valid()
      reads this
    {
      dirty & !DirtyAll == 0
    }

    constructor ()
      ensures Valid()
      ensures handle == 0 && target == TargetVertexBuffer && usage == UsageStaticDraw
      ensures data == [] && dirty == DirtyNone && calls == [] && signals == []
    {
      handle := 0;
      target := TargetVertexBuffer;
      usage := UsageStaticDraw;
      data := [];
      dirty := DirtyNone;
      calls := [];
      signals := [];
    }

    method SetTarget(newTarget: Target)
      requires Valid()
      modifies this
      ensures Valid()
      ensures target == newTarget
      ensures old(target) != newTarget ==> dirty == old(dirty) | DirtyTarget && signals == old(signals) + [TargetChanged(newTarget)]
      ensures old(target) == newTarget ==> dirty == old(dirty) && signals == old(signals)
      ensures handle == old(handle) && usage == old(usage) && data == old(data) && calls == old(calls)
    {
      if target != newTarget {
        target := newTarget;
        dirty := dirty | DirtyTarget;
        signals := signals + [TargetChanged(newTarget)];
      }
    }

    method SetUsage(newUsage: Usage)
      requires Valid()
      modifies this
      ensures Valid()
      ensures usage == newUsage
      ensures old(usage) != newUsage ==> dirty == old(dirty) | DirtyUsage && signals == old(signals) + [UsageChanged(newUsage)]
      ensures old(usage) == newUsage ==> dirty == old(dirty) && signals == old(signals)
      ensures handle == old(handle) && target == old(target) && data == old(data) && calls == old(calls)
    {
      if usage != newUsage {
        usage := newUsage;
        dirty := dirty | DirtyUsage;
        signals := signals + [UsageChanged(newUsage)];
      }
    }

    /** Unlike the other setters, setData marks and notifies even for equal bytes. */
    method SetData(newData: Bytes)
      requires Valid()
      modifies this
      ensures Valid()
      ensures data == newData && dirty == old(dirty) | DirtyData
      ensures signals == old(signals) + [DataChanged(newData)]
      ensures handle == old(handle) && target == old(target) && usage == old(usage) && calls == old(calls)
    {
      data := newData;
      dirty := dirty | DirtyData;
      signals := signals + [DataChanged(newData)];
    }

    method Bind()
      modifies this`calls
      ensures calls == old(calls) + (if handle == 0 then [] else [BindBuffer(TargetEnum(target), handle)])
    {
      if handle != 0 {
        calls := calls + [BindBuffer(TargetEnum(target), handle)];
      }
    }

    /** The staged target, data and usage uploaded into the named buffer, and the mask cleared. */
    method Upload()
      requires Valid() && dirty != DirtyNone
      modifies this`dirty, this`calls
      ensures dirty == DirtyNone
      ensures calls == old(calls) + [BindBuffer(TargetEnum(target), handle), BufferData(TargetEnum(target), data, UsageEnum(usage))]
    {
      var d := dirty;
      StagedBits(d);
      if d & DirtyAll != 0 {
        calls := calls + [BindBuffer(TargetEnum(target), handle), BufferData(TargetEnum(target), data, UsageEnum(usage))];
        dirty := d & !DirtyAll;
      }
    }

    /** `generated` is the (nonzero) name glGenBuffers returns if it is called. */
    method OnUpdate(generated: nat)
      requires Valid() && generated > 0
      modifies this`handle, this`dirty, this`calls
      ensures Valid() && dirty == DirtyNone
      ensures calls == old(calls) + UpdateCalls(old(handle), old(dirty), target, usage, data, generated)
      ensures handle == (if old(dirty) != DirtyNone && old(handle) == 0 then generated else old(handle))
    {
      if dirty == DirtyNone {
        return;
      }
      StagedBits(dirty);
      if handle == 0 {
        handle := generated;
        calls := calls + [GenBuffers(generated)];
      }
      Upload();
    }

    method OnShutdown()
      modifies this
      ensures handle == 0
      ensures calls == old(calls) + (if old(handle) == 0 then [] else [DeleteBuffers([old(handle)])])
      ensures target == old(target) && usage == old(usage) && data == old(data)
      ensures dirty == old(dirty) && signals == old(signals)
    {
      if handle != 0 {
        calls := calls + [DeleteBuffers([handle])];
        handle := 0;
      }
    }
  }

  /**
   * Two updates with no setter in between: the second issues no GL call,
   * and the buffer keeps the name the first one gave it.
   */
  method UpdateTwice(b: Buffer, g1: nat, g2: nat)
    requires b.Valid() && g1 > 0 && g2 > 0
    modifies b`handle, b`dirty, b`calls
    ensures b.calls == old(b.calls) + UpdateCalls(old(b.handle), old(b.dirty), b.target, b.usage, b.data, g1)
    ensures b.dirty == DirtyNone
    ensures b.handle == (if old(b.dirty) != DirtyNone && old(b.handle) == 0 then g1 else old(b.handle))
    ensures b.target == old(b.target) && b.usage == old(b.usage) && b.data == old(b.data)
  {
    b.OnUpdate(g1);
    var between := b.calls;
    var h := b.handle;
    b.OnUpdate(g2);
    assert b.calls == between && b.handle == h;
  }
}
