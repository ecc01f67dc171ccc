// SkinnedMesh: a model file imported off the render thread, turned into
// vertex buffers on the next frame, and drawn every frame after that with
// the bone matrices of its first animation. The status machine is
// None -> Loading -> Processing | Error, and Processing -> Ready on the
// frame that builds the buffers.
module SkinnedMeshes {
  import opened Common
  import opened Gl
  import opened Skinning
  import Paths
  import VRTypes
  import ShaderPrograms

  datatype Status = StatusNone | StatusLoading | StatusProcessing | StatusReady | StatusError

  const NUM_BONES_PER_VERTEX: nat := 4

  // VB_TYPES: the slots of the buffer-handle array.
  const INDEX_BUFFER: nat := 0
  const POS_VB: nat := 1
  const NORMAL_VB: nat := 2
  const TEXCOORD_VB: nat := 3
  const BONE_VB: nat := 4
  const NUM_VBS: nat := 5

  // The vertex attribute locations the mesh's shader reads.
  const POSITION_LOCATION: nat := 0
  const TEX_COORD_LOCATION: nat := 1
  const NORMAL_LOCATION: nat := 2
  const BONE_ID_LOCATION: nat := 3
  const BONE_WEIGHT_LOCATION: nat := 4

  // ---------------------------------------------------------------------
  // VertexBoneData: the bones that move one vertex, in four slots.

  datatype VertexBoneData = VertexBoneData(ids: seq<nat>, weights: seq<real>)

  /** Both arrays have NUM_BONES_PER_VERTEX slots. */
  predicate Slotted(v: VertexBoneData)
  {
    |v.ids| == NUM_BONES_PER_VERTEX && |v.weights| == NUM_BONES_PER_VERTEX
  }

  predicate AllSlotted(data: seq<VertexBoneData>)
  {
    forall k | 0 <= k < |data| :: Slotted(data[k])
  }

  /** The value a VertexBoneData starts with, and the one Reset leaves: every id and weight zero. */
  function ZeroBoneData(): (v: VertexBoneData)
    ensures Slotted(v)
    ensures forall k | 0 <= k < NUM_BONES_PER_VERTEX :: v.ids[k] == 0 && v.weights[k] == 0.0
  {
    VertexBoneData([0, 0, 0, 0], [0.0, 0.0, 0.0, 0.0])
  }

  /** The lowest slot at or after `from` whose weight is 0.0. */
  function FreeSlotFrom(v: VertexBoneData, from: nat): (r: Option<nat>)
    requires Slotted(v) && from <= NUM_BONES_PER_VERTEX
    ensures r.Some? ==> from <= r.value < NUM_BONES_PER_VERTEX
    decreases NUM_BONES_PER_VERTEX - from
  {
    if from == NUM_BONES_PER_VERTEX then None
    else if v.weights[from] == 0.0 then Some(from)
    else FreeSlotFrom(v, from + 1)
  }

  function FreeSlot(v: VertexBoneData): Option<nat>
    requires Slotted(v)
  {
    FreeSlotFrom(v, 0)
  }

  /** AddBoneData: (id, weight) in the free slot; None when every slot is taken, where the code stops with qFatal. */
  function AddWeight(v: VertexBoneData, id: nat, weight: real): (r: Option<VertexBoneData>)
    requires Slotted(v)
    ensures r.Some? ==> Slotted(r.value)
  {
    match FreeSlot(v)
    case None => None
    case Some(s) => Some(VertexBoneData(v.ids[s := id], v.weights[s := weight]))
  }

  lemma {:induction false} FreeSlotFromIsLowest(v: VertexBoneData, from: nat)
    requires Slotted(v) && from <= NUM_BONES_PER_VERTEX
    ensures FreeSlotFrom(v, from).None? <==> forall k | from <= k < NUM_BONES_PER_VERTEX :: v.weights[k] != 0.0
    ensures FreeSlotFrom(v, from).Some? ==>
      var s := FreeSlotFrom(v, from).value;
      v.weights[s] == 0.0 && forall k | from <= k < s :: v.weights[k] != 0.0
    decreases NUM_BONES_PER_VERTEX - from
  {
    if from < NUM_BONES_PER_VERTEX && v.weights[from] != 0.0 {
      FreeSlotFromIsLowest(v, from + 1);
    }
  }

  /**
   * The weight goes into the lowest slot whose weight is 0.0 and the other
   * slots keep theirs; with no such slot there is no result.
   */
  lemma AddWeightFillsLowestFreeSlot(v: VertexBoneData, id: nat, weight: real)
    requires Slotted(v)
    ensures AddWeight(v, id, weight).None? <==> forall k | 0 <= k < NUM_BONES_PER_VERTEX :: v.weights[k] != 0.0
    ensures AddWeight(v, id, weight).Some? ==>
      var r := AddWeight(v, id, weight).value;
      exists s | 0 <= s < NUM_BONES_PER_VERTEX ::
        && v.weights[s] == 0.0 && (forall k | 0 <= k < s :: v.weights[k] != 0.0)
        && r.ids[s] == id && r.weights[s] == weight
        && forall k | 0 <= k < NUM_BONES_PER_VERTEX && k != s :: r.ids[k] == v.ids[k] && r.weights[k] == v.weights[k]
  {
    FreeSlotFromIsLowest(v, 0);
    if FreeSlot(v).Some? {
      var s := FreeSlot(v).value;
      var r := AddWeight(v, id, weight).value;
      assert r.ids[s] == id && r.weights[s] == weight;
    }
  }

  /** VertexBoneData::AddBoneData; the code has no way on once every slot is taken. */
  method AddBoneData(v: VertexBoneData, id: nat, weight: real) returns (r: VertexBoneData)
    requires Slotted(v) && FreeSlot(v).Some?
    ensures AddWeight(v, id, weight) == Some(r)
  {
    var i := 0;
    while i < NUM_BONES_PER_VERTEX
      invariant 0 <= i <= NUM_BONES_PER_VERTEX
      invariant FreeSlot(v) == FreeSlotFrom(v, i)
    {
      if v.weights[i] == 0.0 {
        return VertexBoneData(v.ids[i := id], v.weights[i := weight]);
      }
      i := i + 1;
    }
    assert false;
  }

  // ---------------------------------------------------------------------
  // Keyframes and channels.

  /**
   * FindPosition, FindRotation and FindScaling, on the times of the keys
   * they search. With no key the unsigned `count - 1` wraps and the search
   * reads past the keys; a channel always has one.
   */
  method FindKey(t: real, times: seq<real>) returns (i: nat)
    requires |times| > 0
    ensures i == KeyIndex(times, t)
  {
    i := 0;
    while i + 1 < |times|
      invariant KeyIndex(times, t) == KeyIndexFrom(times, t, i)
      decreases |times| - i
    {
      if t < times[i + 1] {
        return;
      }
      i := i + 1;
    }
    i := 0;
  }

  /** CalcInterpolatedPosition and CalcInterpolatedScaling. */
  method CalcInterpolatedVector(t: real, keys: seq<VectorKey>) returns (out: Vec3)
    requires |keys| > 0 && Increasing(VectorTimes(keys))
    ensures out == InterpolatedVector(keys, t)
  {
    if |keys| == 1 {
      return keys[0].value;
    }
    var times := VectorTimes(keys);
    var i := FindKey(t, times);
    KeyIndexInRange(times, t);
    var next := i + 1;
    var factor := (t - keys[i].time) / (keys[next].time - keys[i].time);
    out := Add(keys[i].value, Scale(Sub(keys[next].value, keys[i].value), factor));
  }

  /** CalcInterpolatedRotation. */
  method CalcInterpolatedRotation(t: real, keys: seq<QuatKey>) returns (out: Rotation)
    requires |keys| > 0 && Increasing(QuatTimes(keys))
    ensures out == InterpolatedRotation(keys, t)
  {
    if |keys| == 1 {
      return KeyRotation(keys[0].value);
    }
    var times := QuatTimes(keys);
    var i := FindKey(t, times);
    KeyIndexInRange(times, t);
    var next := i + 1;
    var factor := (t - keys[i].time) / (keys[next].time - keys[i].time);
    out := Slerp(keys[i].value, keys[next].value, factor);
  }

  /** FindNodeAnim: the first channel named after the node, None for a null result. */
  method FindNodeAnim(a: Animation, name: string) returns (r: Option<NodeAnim>)
    ensures r == ChannelFor(a.channels, name)
  {
    var i := 0;
    while i < |a.channels|
      invariant 0 <= i <= |a.channels|
      invariant ChannelFor(a.channels, name) == ChannelFor(a.channels[i..], name)
    {
      if name == a.channels[i].nodeName {
        return Some(a.channels[i]);
      }
      assert a.channels[i..][1..] == a.channels[i + 1..];
      i := i + 1;
    }
    return None;
  }

  /** The animation time BoneTransform samples: seconds in ticks, wrapped by fmod into the clip. */
  function AnimationTime(a: Animation, seconds: real, fmod: (real, real) -> real): real
  {
    fmod(seconds * TicksPerSecond(a), a.duration)
  }

  // ---------------------------------------------------------------------
  // The bone table, and the bone data LoadBones gives the vertices.

  /** m_BoneMapping and m_BoneInfo; m_NumBones is the length of the table. */
  datatype BoneTable = BoneTable(mapping: map<string, nat>, info: seq<BoneInfo>)

  /** Every name has an index of the table, no two names share one, and there are as many names as entries. */
  predicate TableValid(t: BoneTable)
  {
    && MapsInto(t.mapping, t.info)
    && (forall a, b | a in t.mapping && b in t.mapping && a != b :: t.mapping[a] != t.mapping[b])
    && |t.mapping.Keys| == |t.info|
  }

  /** The table's validity rests on the number of entries only: posing the bones keeps it. */
  lemma TableValidResized(t: BoneTable, info: seq<BoneInfo>)
    requires TableValid(t) && |info| == |t.info|
    ensures TableValid(BoneTable(t.mapping, info))
  {
  }

  /** The index LoadBones gives a bone of the mesh, and the table after it. */
  function Register(t: BoneTable, b: Bone): (BoneTable, nat)
  {
    if b.name in t.mapping then (t, t.mapping[b.name])
    else (BoneTable(t.mapping[b.name := |t.info|], t.info + [BoneInfo(Given(b.offset), Identity)]), |t.info|)
  }

  /**
   * Bones are numbered in the order their names first appear: a new name
   * takes the next index and its offset matrix, a known name keeps its
   * index and leaves the table as it is, and nothing already numbered moves.
   */
  lemma RegisterAssignsInInsertionOrder(t: BoneTable, b: Bone)
    requires TableValid(t)
    ensures var (r, index) := Register(t, b);
      && TableValid(r) && b.name in r.mapping && r.mapping[b.name] == index
      && |t.info| <= |r.info| && r.info[..|t.info|] == t.info
      && (forall n | n in t.mapping :: n in r.mapping && r.mapping[n] == t.mapping[n])
      && (b.name in t.mapping <==> r == t)
      && (b.name !in t.mapping ==> index == |t.info| && |r.info| == |t.info| + 1 && r.info[index].offset == Given(b.offset))
  {
    if b.name !in t.mapping {
      var (r, index) := Register(t, b);
      assert r.mapping.Keys == t.mapping.Keys + {b.name};
      assert r.info[..|t.info|] == t.info;
    }
  }

  /** Weights of a mesh whose vertices start at `base` all land on one of `count` vertices. */
  predicate WeightsFit(ws: seq<Weight>, base: nat, count: nat)
  {
    forall w | 0 <= w < |ws| :: base + ws[w].vertexId < count
  }

  predicate BonesFit(bones: seq<Bone>, base: nat, count: nat)
  {
    forall b | 0 <= b < |bones| :: WeightsFit(bones[b].weights, base, count)
  }

  /** Every weight of the bone goes to vertex base + mVertexId; None once a vertex has no free slot. */
  function AddWeights(data: seq<VertexBoneData>, base: nat, id: nat, ws: seq<Weight>): (r: Option<seq<VertexBoneData>>)
    requires AllSlotted(data) && WeightsFit(ws, base, |data|)
    ensures r.Some? ==> |r.value| == |data| && AllSlotted(r.value)
    decreases |ws|
  {
    if ws == [] then Some(data)
    else
      var last := ws[|ws| - 1];
      match AddWeights(data, base, id, ws[..|ws| - 1])
      case None => None
      case Some(d) =>
        match AddWeight(d[base + last.vertexId], id, last.weight)
        case None => None
        case Some(v) => Some(d[base + last.vertexId := v])
  }

  /** The bone table and the vertices' bone data, as LoadBones leaves them. */
  datatype Loaded = Loaded(table: BoneTable, data: seq<VertexBoneData>)

  /** LoadBones on the bones of a mesh whose vertices start at `base`, None where it would stop with qFatal. */
  function LoadBonesOf(s: Loaded, base: nat, bones: seq<Bone>): (r: Option<Loaded>)
    requires AllSlotted(s.data) && BonesFit(bones, base, |s.data|)
    ensures r.Some? ==> |r.value.data| == |s.data| && AllSlotted(r.value.data)
    decreases |bones|
  {
    if bones == [] then Some(s)
    else
      var last := bones[|bones| - 1];
      match LoadBonesOf(s, base, bones[..|bones| - 1])
      case None => None
      case Some(p) =>
        var (t, index) := Register(p.table, last);
        match AddWeights(p.data, base, index, last.weights)
        case None => None
        case Some(d) => Some(Loaded(t, d))
  }

  predicate AllBonesWithin(meshes: seq<Mesh>)
  {
    forall k | 0 <= k < |meshes| :: MeshBonesWithin(meshes[k])
  }

  lemma BonesWithinFit(m: Mesh, base: nat, count: nat)
    requires MeshBonesWithin(m) && base + |m.positions| <= count
    ensures BonesFit(m.bones, base, count)
  {
    forall b | 0 <= b < |m.bones| ensures WeightsFit(m.bones[b].weights, base, count) {
      assert WeightsWithin(m.bones[b], |m.positions|);
    }
  }

  /** LoadBones on every mesh in turn, each on the vertices its entry's BaseVertex starts. */
  function LoadMeshBones(s: Loaded, meshes: seq<Mesh>): (r: Option<Loaded>)
    requires AllSlotted(s.data) && AllBonesWithin(meshes) && VertexCount(meshes) <= |s.data|
    ensures r.Some? ==> |r.value.data| == |s.data| && AllSlotted(r.value.data)
    decreases |meshes|
  {
    if meshes == [] then Some(s)
    else
      var init, last := meshes[..|meshes| - 1], meshes[|meshes| - 1];
      match LoadMeshBones(s, init)
      case None => None
      case Some(p) =>
        BonesWithinFit(last, VertexCount(init), |p.data|);
        LoadBonesOf(p, VertexCount(init), last.bones)
  }

  /**
   * The bone table and the per-vertex bone data InitFromScene ends with:
   * LoadBones over every mesh in order, from zeroed slots; None when a
   * vertex would be given a fifth weight.
   */
  function ImportedBones(table: BoneTable, meshes: seq<Mesh>): (r: Option<Loaded>)
    requires AllBonesWithin(meshes)
    ensures r.Some? ==> |r.value.data| == VertexCount(meshes) && AllSlotted(r.value.data)
  {
    LoadMeshBones(Loaded(table, ZeroBones(VertexCount(meshes))), meshes)
  }

  function ZeroBones(n: nat): (r: seq<VertexBoneData>)
    ensures |r| == n && AllSlotted(r)
  {
    seq(n, _ => ZeroBoneData())
  }

  /** Loading only ever adds to the table: every name keeps its index and every entry its offset. */
  lemma {:induction false} LoadBonesExtendsTable(s: Loaded, base: nat, bones: seq<Bone>)
    requires AllSlotted(s.data) && BonesFit(bones, base, |s.data|) && TableValid(s.table)
    requires LoadBonesOf(s, base, bones).Some?
    ensures var r := LoadBonesOf(s, base, bones).value.table;
      && TableValid(r) && |s.table.info| <= |r.info| && r.info[..|s.table.info|] == s.table.info
      && (forall n | n in s.table.mapping :: n in r.mapping && r.mapping[n] == s.table.mapping[n])
      && (forall b | 0 <= b < |bones| :: bones[b].name in r.mapping)
    decreases |bones|
  {
    if bones != [] {
      var init, last := bones[..|bones| - 1], bones[|bones| - 1];
      LoadBonesExtendsTable(s, base, init);
      var p := LoadBonesOf(s, base, init).value;
      RegisterAssignsInInsertionOrder(p.table, last);
      var r := LoadBonesOf(s, base, bones).value.table;
      assert r == Register(p.table, last).0;
      assert r.info[..|s.table.info|] == p.table.info[..|s.table.info|];
      forall b | 0 <= b < |bones| ensures bones[b].name in r.mapping {
        if b < |bones| - 1 {
          assert bones[b] == init[b];
        }
      }
    }
  }

  /** The prefix of a load that gets through also gets through. */
  lemma {:induction false} AddWeightsPrefix(data: seq<VertexBoneData>, base: nat, id: nat, ws: seq<Weight>, n: nat)
    requires AllSlotted(data) && WeightsFit(ws, base, |data|) && n <= |ws|
    requires AddWeights(data, base, id, ws).Some?
    ensures AddWeights(data, base, id, ws[..n]).Some?
    decreases |ws|
  {
    if n < |ws| {
      AddWeightsPrefix(data, base, id, ws[..|ws| - 1], n);
      assert ws[..|ws| - 1][..n] == ws[..n];
    } else {
      assert ws[..n] == ws;
    }
  }

  lemma {:induction false} LoadBonesPrefix(s: Loaded, base: nat, bones: seq<Bone>, n: nat)
    requires AllSlotted(s.data) && BonesFit(bones, base, |s.data|) && n <= |bones|
    requires LoadBonesOf(s, base, bones).Some?
    ensures LoadBonesOf(s, base, bones[..n]).Some?
    decreases |bones|
  {
    if n < |bones| {
      LoadBonesPrefix(s, base, bones[..|bones| - 1], n);
      assert bones[..|bones| - 1][..n] == bones[..n];
    } else {
      assert bones[..n] == bones;
    }
  }

  /** One more bone: registered in the table, then its weights added. */
  lemma LoadBonesStep(s: Loaded, base: nat, bones: seq<Bone>, i: nat, p: Loaded, t: BoneTable, index: nat)
    requires AllSlotted(s.data) && BonesFit(bones, base, |s.data|) && i < |bones|
    requires LoadBonesOf(s, base, bones[..i]) == Some(p) && (t, index) == Register(p.table, bones[i])
    requires LoadBonesOf(s, base, bones[..i + 1]).Some?
    ensures WeightsFit(bones[i].weights, base, |p.data|) && AddWeights(p.data, base, index, bones[i].weights).Some?
    ensures LoadBonesOf(s, base, bones[..i + 1]) == Some(Loaded(t, AddWeights(p.data, base, index, bones[i].weights).value))
  {
    assert bones[..i + 1][..i] == bones[..i];
  }

  lemma {:induction false} LoadMeshBonesPrefix(s: Loaded, meshes: seq<Mesh>, n: nat)
    requires AllSlotted(s.data) && AllBonesWithin(meshes) && VertexCount(meshes) <= |s.data| && n <= |meshes|
    requires LoadMeshBones(s, meshes).Some?
    ensures VertexCount(meshes[..n]) <= VertexCount(meshes)
    ensures LoadMeshBones(s, meshes[..n]).Some?
    decreases |meshes|
  {
    if n < |meshes| {
      LoadMeshBonesPrefix(s, meshes[..|meshes| - 1], n);
      assert meshes[..|meshes| - 1][..n] == meshes[..n];
    } else {
      assert meshes[..n] == meshes;
    }
  }

  // ---------------------------------------------------------------------
  // The vertex attributes and indices InitMesh collects.

  /** A QVector2D. */
  datatype Vec2 = Vec2(x: real, y: real)

  /** What InitMesh reads of a mesh: a normal per vertex, and texture coordinates per vertex when it has any. */
  predicate AttributesFit(m: Mesh)
  {
    |m.normals| >= |m.positions| && (m.texCoords.Some? ==> |m.texCoords.value| >= |m.positions|)
  }

  predicate AllAttributesFit(meshes: seq<Mesh>)
  {
    forall k | 0 <= k < |meshes| :: AttributesFit(meshes[k])
  }

  /** The (x, y) of the mesh's first texture coordinate channel, and (0, 0) for every vertex of a mesh without one. */
  function MeshTexCoord(m: Mesh, v: nat): Vec2
    requires AttributesFit(m) && v < |m.positions|
  {
    if m.texCoords.Some? then Vec2(m.texCoords.value[v].x, m.texCoords.value[v].y) else Vec2(0.0, 0.0)
  }

  function MeshTexCoords(m: Mesh): (r: seq<Vec2>)
    requires AttributesFit(m)
    ensures |r| == |m.positions| && forall v | 0 <= v < |r| :: r[v] == MeshTexCoord(m, v)
  {
    seq(|m.positions|, v requires 0 <= v < |m.positions| => MeshTexCoord(m, v))
  }

  /** The three indices of every face, as the mesh numbers its vertices. */
  function FaceIndices(faces: seq<Face>): (r: seq<nat>)
    ensures |r| == 3 * |faces|
  {
    if faces == [] then [] else
      var f := faces[|faces| - 1];
      FaceIndices(faces[..|faces| - 1]) + [f.a, f.b, f.c]
  }

  /** Face f's indices are entries 3f, 3f + 1 and 3f + 2 of the mesh's indices. */
  lemma {:induction false} FaceIndicesInOrder(faces: seq<Face>, f: nat)
    requires f < |faces|
    ensures var r := FaceIndices(faces);
      r[3 * f] == faces[f].a && r[3 * f + 1] == faces[f].b && r[3 * f + 2] == faces[f].c
    decreases |faces|
  {
    if f < |faces| - 1 {
      FaceIndicesInOrder(faces[..|faces| - 1], f);
      assert faces[..|faces| - 1][f] == faces[f];
    }
  }

  /** The Positions vector after InitMesh on every mesh. */
  function Positions(meshes: seq<Mesh>): (r: seq<Vec3>)
    ensures |r| == VertexCount(meshes)
  {
    if meshes == [] then [] else Positions(meshes[..|meshes| - 1]) + meshes[|meshes| - 1].positions
  }

  function Normals(meshes: seq<Mesh>): (r: seq<Vec3>)
    requires AllAttributesFit(meshes)
    ensures |r| == VertexCount(meshes)
  {
    if meshes == [] then [] else
      var last := meshes[|meshes| - 1];
      Normals(meshes[..|meshes| - 1]) + last.normals[..|last.positions|]
  }

  function TexCoords(meshes: seq<Mesh>): (r: seq<Vec2>)
    requires AllAttributesFit(meshes)
    ensures |r| == VertexCount(meshes)
  {
    if meshes == [] then [] else TexCoords(meshes[..|meshes| - 1]) + MeshTexCoords(meshes[|meshes| - 1])
  }

  function Indices(meshes: seq<Mesh>): (r: seq<nat>)
    ensures |r| == IndexCount(meshes)
  {
    if meshes == [] then [] else Indices(meshes[..|meshes| - 1]) + FaceIndices(meshes[|meshes| - 1].faces)
  }

  /** What one more mesh adds to every vector InitFromScene fills, and to the bone data. */
  lemma {:induction false} InitMeshStep(s: Loaded, meshes: seq<Mesh>, i: nat)
    requires AllAttributesFit(meshes) && AllSlotted(s.data) && AllBonesWithin(meshes) && VertexCount(meshes) <= |s.data|
    requires i < |meshes| && LoadMeshBones(s, meshes).Some?
    ensures VertexCount(meshes[..i]) + |meshes[i].positions| == VertexCount(meshes[..i + 1]) <= VertexCount(meshes)
    ensures Positions(meshes[..i + 1]) == Positions(meshes[..i]) + meshes[i].positions
    ensures Normals(meshes[..i + 1]) == Normals(meshes[..i]) + meshes[i].normals[..|meshes[i].positions|]
    ensures TexCoords(meshes[..i + 1]) == TexCoords(meshes[..i]) + MeshTexCoords(meshes[i])
    ensures Indices(meshes[..i + 1]) == Indices(meshes[..i]) + FaceIndices(meshes[i].faces)
    ensures LoadMeshBones(s, meshes[..i]).Some? && LoadMeshBones(s, meshes[..i + 1]).Some?
    ensures var p := LoadMeshBones(s, meshes[..i]).value;
      && BonesFit(meshes[i].bones, VertexCount(meshes[..i]), |p.data|)
      && LoadMeshBones(s, meshes[..i + 1]) == LoadBonesOf(p, VertexCount(meshes[..i]), meshes[i].bones)
  {
    LoadMeshBonesPrefix(s, meshes, i + 1);
    assert meshes[..i + 1][..i] == meshes[..i];
    assert meshes[..i + 1][i] == meshes[i];
    var p := LoadMeshBones(s, meshes[..i]).value;
    BonesWithinFit(meshes[i], VertexCount(meshes[..i]), |p.data|);
  }

  /**
   * The entries locate every mesh in the shared buffers: vertex v of mesh
   * k is vertex BaseVertex + v of the positions, and its indices start at
   * BaseIndex.
   */
  lemma {:induction false} EntriesLocateMeshes(meshes: seq<Mesh>, k: nat)
    requires k < |meshes|
    ensures var e := EntryOf(meshes, k);
      && e.baseVertex + |meshes[k].positions| <= |Positions(meshes)|
      && Positions(meshes)[e.baseVertex..e.baseVertex + |meshes[k].positions|] == meshes[k].positions
      && e.baseIndex + e.numIndices <= |Indices(meshes)|
      && Indices(meshes)[e.baseIndex..e.baseIndex + e.numIndices] == FaceIndices(meshes[k].faces)
  {
    PositionsLocateMesh(meshes, k);
    IndicesLocateMesh(meshes, k);
  }

  /** A slice inside the first operand of a concatenation is a slice of that operand. */
  lemma SliceOfFront<T>(a: seq<T>, b: seq<T>, i: nat, j: nat)
    requires i <= j <= |a|
    ensures (a + b)[i..j] == a[i..j]
  {
  }

  lemma {:induction false} PositionsLocateMesh(meshes: seq<Mesh>, k: nat)
    requires k < |meshes|
    ensures var base := VertexCount(meshes[..k]);
      base + |meshes[k].positions| <= |Positions(meshes)|
      && Positions(meshes)[base..base + |meshes[k].positions|] == meshes[k].positions
    decreases |meshes|
  {
    var init := meshes[..|meshes| - 1];
    assert init[..k] == meshes[..k];
    if k < |meshes| - 1 {
      PositionsLocateMesh(init, k);
      var base := VertexCount(meshes[..k]);
      SliceOfFront(Positions(init), meshes[|meshes| - 1].positions, base, base + |meshes[k].positions|);
    }
  }

  lemma {:induction false} IndicesLocateMesh(meshes: seq<Mesh>, k: nat)
    requires k < |meshes|
    ensures var base := IndexCount(meshes[..k]);
      base + 3 * |meshes[k].faces| <= |Indices(meshes)|
      && Indices(meshes)[base..base + 3 * |meshes[k].faces|] == FaceIndices(meshes[k].faces)
    decreases |meshes|
  {
    var init := meshes[..|meshes| - 1];
    assert init[..k] == meshes[..k];
    if k < |meshes| - 1 {
      IndicesLocateMesh(init, k);
      var base := IndexCount(meshes[..k]);
      SliceOfFront(Indices(init), FaceIndices(meshes[|meshes| - 1].faces), base, base + 3 * |meshes[k].faces|);
    }
  }

  // ---------------------------------------------------------------------
  // Materials.

  /** The diffuse texture path a material names, with the leading ".\" the code strips left in. */
  function DiffusePath(mat: Material): Option<string>
  {
    if mat.diffuseCount > 0 then mat.diffusePath else None
  }

  /**
   * The texture InitMaterials keeps for a material, by the full path it was
   * loaded from; `load` is what Texture::load reports for a path.
   */
  function MaterialTexture(dir: string, mat: Material, load: string -> bool): Option<string>
  {
    match DiffusePath(mat)
    case None => None
    case Some(p) => if load(TexturePath(dir, p)) then Some(TexturePath(dir, p)) else None
  }

  /** The material names a texture that does not load, which makes InitMaterials return false. */
  predicate MaterialFails(dir: string, mat: Material, load: string -> bool)
  {
    DiffusePath(mat).Some? && !load(TexturePath(dir, DiffusePath(mat).value))
  }

  /**
   * A material keeps a texture exactly when it names one that loads, and
   * then it is the one at Dir + "/" + the named path.
   */
  lemma MaterialTextureRule(dir: string, mat: Material, load: string -> bool)
    ensures MaterialTexture(dir, mat, load).Some? <==> DiffusePath(mat).Some? && !MaterialFails(dir, mat, load)
    ensures MaterialTexture(dir, mat, load).Some? ==>
      MaterialTexture(dir, mat, load).value == TexturePath(dir, mat.diffusePath.value)
    ensures mat.diffuseCount == 0 ==> MaterialTexture(dir, mat, load).None? && !MaterialFails(dir, mat, load)
  {
  }

  // ---------------------------------------------------------------------
  // What the mesh does to the GPU and the program.

  /** The import finished: no importer when the file could not be opened, else the scene Assimp made of it, if any. */
  datatype Import = NoImporter | Importer(scene: Option<Scene>)

  /**
   * The worker setSource starts: the file named by a `qrc:`, `file:` or
   * plain source read whole, and `parse` standing in for Assimp's import.
   */
  function ImportResult(fs: Paths.FileSystem, parse: Bytes -> Option<Scene>, path: string): (r: Import)
    ensures fs.read(Paths.FileName(fs, path)).None? <==> r.NoImporter?
  {
    match fs.read(Paths.FileName(fs, path))
    case None => NoImporter
    case Some(contents) => Importer(parse(contents))
  }

  datatype Signal =
    | SourceChanged(source: string)
    | StatusChanged(status: Status)
    | ShaderProgramChanged(program: ShaderPrograms.ShaderProgram?)

  /**
   * A call the mesh makes. The upload events stand for the glBindBuffer,
   * glBufferData, glEnableVertexAttribArray and glVertexAttrib*Pointer
   * calls of one attribute, and the program events for the uniform setters
   * of the mesh's ShaderProgram.
   */
  datatype Event =
    | GlCall(call: Call)
    | BuffersGenerated(handles: seq<nat>)
    | PositionsUploaded(buffer: nat, location: nat, positions: seq<Vec3>)
    | TexCoordsUploaded(buffer: nat, location: nat, coords: seq<Vec2>)
    | NormalsUploaded(buffer: nat, location: nat, normals: seq<Vec3>)
    | BoneDataUploaded(buffer: nat, idLocation: nat, weightLocation: nat, data: seq<VertexBoneData>)
    | IndicesUploaded(buffer: nat, indices: seq<nat>)
    | ProgramBound
    | BoneTransformSet(index: nat, transform: Mat)
    | EyeWorldPosSet(position: Vec3)
    | MvpSet(mvp: Mat)
    | ModelSet(model: Mat)
    /** Texture::bind(0) on the texture loaded from `path`. */
    | TextureBound(path: string)

  /** The buffer uploads at the end of InitFromScene, each into its own slot of the handle array. */
  function Uploads(buffers: seq<nat>, meshes: seq<Mesh>, data: seq<VertexBoneData>): seq<Event>
    requires |buffers| == NUM_VBS && AllAttributesFit(meshes)
  {
    [ PositionsUploaded(buffers[POS_VB], POSITION_LOCATION, Positions(meshes)),
      TexCoordsUploaded(buffers[TEXCOORD_VB], TEX_COORD_LOCATION, TexCoords(meshes)),
      NormalsUploaded(buffers[NORMAL_VB], NORMAL_LOCATION, Normals(meshes)),
      BoneDataUploaded(buffers[BONE_VB], BONE_ID_LOCATION, BONE_WEIGHT_LOCATION, data),
      IndicesUploaded(buffers[INDEX_BUFFER], Indices(meshes)) ]
  }

  /** glDrawElementsBaseVertex for an entry: its indices from BaseIndex (in bytes), its vertices from BaseVertex. */
  function DrawCall(e: MeshEntry): Event
  {
    GlCall(DrawElementsBaseVertex(GL_TRIANGLES, e.numIndices, GL_UNSIGNED_INT, 4 * e.baseIndex, e.baseVertex))
  }

  /** The draw of one entry: its material's texture bound, if it has one, then the indexed draw. */
  function DrawEntry(e: MeshEntry, textures: seq<Option<string>>): seq<Event>
    requires 0 <= e.materialIndex < |textures|
  {
    (match textures[e.materialIndex] case None => [] case Some(path) => [TextureBound(path)]) + [DrawCall(e)]
  }

  /** Every entry names one of the textures. */
  predicate EntriesIndexTextures(entries: seq<MeshEntry>, textures: seq<Option<string>>)
  {
    forall k | 0 <= k < |entries| :: 0 <= entries[k].materialIndex < |textures|
  }

  function DrawEntries(entries: seq<MeshEntry>, textures: seq<Option<string>>): seq<Event>
    requires EntriesIndexTextures(entries, textures)
  {
    if entries == [] then []
    else DrawEntries(entries[..|entries| - 1], textures) + DrawEntry(entries[|entries| - 1], textures)
  }

  /**
   * Every entry is drawn once, in order, each draw preceded at most by its
   * texture's bind; without textures the draws are exactly the entries'.
   */
  lemma {:induction false} DrawEntriesDrawEveryEntry(entries: seq<MeshEntry>, textures: seq<Option<string>>)
    requires EntriesIndexTextures(entries, textures)
    ensures |entries| <= |DrawEntries(entries, textures)| <= 2 * |entries|
    ensures (forall k | 0 <= k < |textures| :: textures[k].None?) ==>
      DrawEntries(entries, textures) == seq(|entries|, k requires 0 <= k < |entries| => DrawCall(entries[k]))
    decreases |entries|
  {
    if entries != [] {
      var init := entries[..|entries| - 1];
      DrawEntriesDrawEveryEntry(init, textures);
      if forall k | 0 <= k < |textures| :: textures[k].None? {
        assert seq(|entries|, k requires 0 <= k < |entries| => DrawCall(entries[k]))
          == seq(|init|, k requires 0 <= k < |init| => DrawCall(init[k])) + [DrawCall(entries[|entries| - 1])];
      }
    }
  }

  /** Clear's deletions: the buffers when the first handle is set, the vertex array when it is named. */
  function ClearEvents(buffers: seq<nat>, vao: nat): seq<Event>
  {
    (if |buffers| > 0 && buffers[0] != 0 then [GlCall(DeleteBuffers(buffers))] else [])
      + (if vao != 0 then [GlCall(DeleteVertexArrays(vao))] else [])
  }

  /** The start of onRender's Processing branch: Clear, then a new vertex array bound and five buffers generated. */
  function RegenerateEvents(oldBuffers: seq<nat>, oldVao: nat, newVao: nat, newBuffers: seq<nat>): seq<Event>
  {
    ClearEvents(oldBuffers, oldVao) + [GlCall(GenVertexArrays(newVao)), GlCall(BindVertexArray(newVao)), BuffersGenerated(newBuffers)]
  }

  /** The rest of it: the uploads when every texture loaded, and the vertex array unbound. */
  function InstallEvents(buffers: seq<nat>, meshes: seq<Mesh>, data: seq<VertexBoneData>, ok: bool): seq<Event>
    requires |buffers| == NUM_VBS && AllAttributesFit(meshes)
  {
    (if ok then Uploads(buffers, meshes, data) else []) + [GlCall(BindVertexArray(0))]
  }

  /** The end of onRender's Ready branch: every entry drawn inside the bound vertex array. */
  function DrawMeshEvents(vao: nat, entries: seq<MeshEntry>, textures: seq<Option<string>>): seq<Event>
    requires EntriesIndexTextures(entries, textures)
  {
    [GlCall(BindVertexArray(vao))] + DrawEntries(entries, textures) + [GlCall(BindVertexArray(0))]
  }

  /** The bone matrices BoneTransform hands back with animations: the final transformation of every bone. */
  function FinalTransforms(info: seq<BoneInfo>): (r: seq<Mat>)
    ensures |r| == |info| && forall b | 0 <= b < |info| :: r[b] == info[b].final
  {
    seq(|info|, b requires 0 <= b < |info| => info[b].final)
  }

  /** setBoneTransform for each of the matrices, in order. */
  function BoneUploads(transforms: seq<Mat>): (r: seq<Event>)
    ensures |r| == |transforms| && forall b | 0 <= b < |r| :: r[b] == BoneTransformSet(b, transforms[b])
  {
    seq(|transforms|, b requires 0 <= b < |transforms| => BoneTransformSet(b, transforms[b]))
  }

  /** The entries InitFromScene fills, one per mesh. */
  function Entries(meshes: seq<Mesh>): (r: seq<MeshEntry>)
    ensures |r| == |meshes| && forall k | 0 <= k < |meshes| :: r[k] == EntryOf(meshes, k)
  {
    seq(|meshes|, k requires 0 <= k < |meshes| => EntryOf(meshes, k))
  }

  /** The textures InitMaterials keeps, one per material. */
  function MaterialTextures(dir: string, materials: seq<Material>, load: string -> bool): (r: seq<Option<string>>)
    ensures |r| == |materials| && forall k | 0 <= k < |materials| :: r[k] == MaterialTexture(dir, materials[k], load)
  {
    seq(|materials|, k requires 0 <= k < |materials| => MaterialTexture(dir, materials[k], load))
  }

  /** InitMaterials returns true exactly when no material names a texture that fails to load. */
  predicate TexturesLoad(dir: string, materials: seq<Material>, load: string -> bool)
  {
    forall k | 0 <= k < |materials| :: !MaterialFails(dir, materials[k], load)
  }

  /** The vertex loop of InitMesh: a position, a normal and an (x, y) texture coordinate per vertex. */
  method AppendVertices(m: Mesh, positions: seq<Vec3>, normals: seq<Vec3>, texCoords: seq<Vec2>)
    returns (newPositions: seq<Vec3>, newNormals: seq<Vec3>, newTexCoords: seq<Vec2>)
    requires AttributesFit(m)
    ensures newPositions == positions + m.positions
    ensures newNormals == normals + m.normals[..|m.positions|]
    ensures newTexCoords == texCoords + MeshTexCoords(m)
  {
    newPositions, newNormals, newTexCoords := positions, normals, texCoords;
    var i := 0;
    while i < |m.positions|
      invariant 0 <= i <= |m.positions|
      invariant newPositions == positions + m.positions[..i]
      invariant newNormals == normals + m.normals[..i]
      invariant newTexCoords == texCoords + MeshTexCoords(m)[..i]
    {
      var texCoord := if m.texCoords.Some? then m.texCoords.value[i] else Zero3;
      newPositions := newPositions + [m.positions[i]];
      newNormals := newNormals + [m.normals[i]];
      newTexCoords := newTexCoords + [Vec2(texCoord.x, texCoord.y)];
      assert m.positions[..i + 1] == m.positions[..i] + [m.positions[i]];
      assert m.normals[..i + 1] == m.normals[..i] + [m.normals[i]];
      assert MeshTexCoords(m)[..i + 1] == MeshTexCoords(m)[..i] + [MeshTexCoord(m, i)];
      i := i + 1;
    }
    assert m.positions[..i] == m.positions;
    assert MeshTexCoords(m)[..i] == MeshTexCoords(m);
  }

  /** The face loop of InitMesh: the three indices of every face, in order. */
  method AppendFaces(faces: seq<Face>, indices: seq<nat>) returns (newIndices: seq<nat>)
    ensures newIndices == indices + FaceIndices(faces)
  {
    newIndices := indices;
    var f := 0;
    while f < |faces|
      invariant 0 <= f <= |faces|
      invariant newIndices == indices + FaceIndices(faces[..f])
    {
      var face := faces[f];
      newIndices := newIndices + [face.a, face.b, face.c];
      assert faces[..f + 1][..f] == faces[..f];
      f := f + 1;
    }
    assert faces[..f] == faces;
  }

  /** The inner loop of LoadBones: every weight of one bone through AddBoneData. */
  method AddBoneWeights(base: nat, id: nat, ws: seq<Weight>, bones: seq<VertexBoneData>) returns (out: seq<VertexBoneData>)
    requires AllSlotted(bones) && WeightsFit(ws, base, |bones|)
    requires AddWeights(bones, base, id, ws).Some?
    ensures AddWeights(bones, base, id, ws) == Some(out)
  {
    out := bones;
    var j := 0;
    while j < |ws|
      invariant 0 <= j <= |ws|
      invariant AddWeights(bones, base, id, ws[..j]) == Some(out)
    {
      AddWeightsPrefix(bones, base, id, ws, j + 1);
      assert ws[..j + 1][..j] == ws[..j];
      var vertex := base + ws[j].vertexId;
      var updated := AddBoneData(out[vertex], id, ws[j].weight);
      out := out[vertex := updated];
      j := j + 1;
    }
    assert ws[..j] == ws;
  }

  /**
   * The node's own matrix, replaced for an animated node by the
   * interpolated scaling, rotation and translation applied to it.
   */
  method NodeTransformation(a: Animation, t: real, node: Node) returns (m: Mat)
    requires AnimationWellFormed(a)
    ensures m == LocalTransform(a, t, node)
  {
    m := Given(node.transformation);
    var channel := FindNodeAnim(a, node.name);
    if channel.Some? {
      ChannelForIsFirst(a.channels, node.name);
      var c := channel.value;
      assert ChannelWellFormed(c);
      var scaling := CalcInterpolatedVector(t, c.scalingKeys);
      var rotation := CalcInterpolatedRotation(t, c.rotationKeys);
      var translation := CalcInterpolatedVector(t, c.positionKeys);
      m := Trs(m, translation, rotation, scaling);
    }
  }

  /**
   * What onRender reads of the device and of the node: the time, the eye
   * position, the matrices of the eye being rendered, and the node's
   * position, rotation about +y in degrees and uniform scale.
   */
  datatype Frame = Frame(t: real, eyePosition: Vec3, proj: Mat, view: Mat, position: Vec3, rotation: real, scale: real)

  function ModelMatrix(f: Frame): Mat
  {
    Placed(f.position, f.rotation, f.scale)
  }

  /** Every entry InitFromScene builds names one of the textures InitMaterials keeps. */
  lemma SceneEntriesIndexTextures(sc: Scene, dir: string, load: string -> bool)
    requires SceneWellFormed(sc)
    ensures EntriesIndexTextures(Entries(sc.meshes), MaterialTextures(dir, sc.materials, load))
  {
    var entries, textures := Entries(sc.meshes), MaterialTextures(dir, sc.materials, load);
    forall k | 0 <= k < |entries|
      ensures 0 <= entries[k].materialIndex < |textures|
    {
      assert MeshWellFormed(sc.meshes[k], |sc.materials|);
    }
  }

  // ---------------------------------------------------------------------
  // The mesh node.

  /** What Processing holds: a finished import that produced a scene. */
  predicate ImportReady(imported: Import)
  {
    imported.Importer? && imported.scene.Some? && SceneWellFormed(imported.scene.value)
  }

  /** What Ready holds: the scene the buffers were built from, and entries that name its textures. */
  predicate SceneReady(scene: Option<Scene>, entries: seq<MeshEntry>, textures: seq<Option<string>>)
  {
    scene.Some? && SceneWellFormed(scene.value) && EntriesIndexTextures(entries, textures)
  }

  class SkinnedMesh {
    var source: string
    var status: Status
    /** The path of the import running on the thread pool, if one runs. */
    var pending: Option<string>
    /** What the last finished import produced. */
    var imported: Import
    /** m_pScene: the scene the buffers were last built from. */
    var scene: Option<Scene>
    var globalInverse: Mat
    var vao: nat
    var buffers: seq<nat>
    var entries: seq<MeshEntry>
    /** m_Textures, each texture by the full path it was loaded from. */
    var textures: seq<Option<string>>
    var boneMapping: map<string, nat>
    var numBones: nat
    var boneInfo: seq<BoneInfo>
    var shaderProgram: ShaderPrograms.ShaderProgram?
    /** onRender is connected to the device's render broadcast. */
    var renderConnected: bool
    var events: seq<Event>
    var signals: seq<Signal>

    function Table(): BoneTable
      reads this
    {
      BoneTable(boneMapping, boneInfo)
    }

    /**
     * The handle array has its five slots, the bone count is the table's
     * length, an import is pending only while Loading, Processing holds an
     * imported scene, and Ready a scene whose entries name its textures.
     */
    ghost predicate Valid()
      reads this
    {
      && |buffers| == NUM_VBS && numBones == |boneInfo| && TableValid(Table())
      && (pending.Some? ==> status == StatusLoading)
      && (status == StatusProcessing ==> ImportReady(imported))
      && (status == StatusReady ==> SceneReady(scene, entries, textures))
    }

    constructor ()
      ensures Valid()
      ensures source == "" && status == StatusNone && pending == None && scene == None
      ensures vao == 0 && buffers == [0, 0, 0, 0, 0] && entries == [] && textures == []
      ensures boneMapping == map[] && numBones == 0 && boneInfo == [] && globalInverse == Identity
      ensures shaderProgram == null && !renderConnected && events == [] && signals == []
    {
      source := "";
      status := StatusNone;
      pending := None;
      imported := NoImporter;
      scene := None;
      globalInverse := Identity;
      vao := 0;
      buffers := [0, 0, 0, 0, 0];
      entries := [];
      textures := [];
      boneMapping := map[];
      numBones := 0;
      boneInfo := [];
      shaderProgram := null;
      renderConnected := false;
      events := [];
      signals := [];
    }

    method SetStatus(newStatus: Status)
      modifies this`status, this`signals
      ensures status == newStatus
      ensures signals == old(signals) + IfChanged(old(status), newStatus, StatusChanged(newStatus))
    {
      if status != newStatus {
        status := newStatus;
        signals := signals + [StatusChanged(newStatus)];
      }
    }

    method SetShaderProgram(p: ShaderPrograms.ShaderProgram?)
      modifies this`shaderProgram, this`signals
      ensures shaderProgram == p
      ensures signals == old(signals) + IfChanged(old(shaderProgram), p, ShaderProgramChanged(p))
    {
      if shaderProgram != p {
        shaderProgram := p;
        signals := signals + [ShaderProgramChanged(p)];
      }
    }

    /** A new source restarts the import; the import it replaces is no longer waited for. */
    method SetSource(newSource: string)
      requires Valid()
      modifies this`source, this`status, this`pending, this`signals
      ensures Valid() && source == newSource
      ensures old(source) != newSource ==>
        && status == StatusLoading && pending == Some(newSource)
        && signals == old(signals) + [SourceChanged(newSource)] + IfChanged(old(status), StatusLoading, StatusChanged(StatusLoading))
      ensures old(source) == newSource ==> status == old(status) && pending == old(pending) && signals == old(signals)
    {
      if source != newSource {
        source := newSource;
        signals := signals + [SourceChanged(newSource)];
        SetStatus(StatusLoading);
        pending := Some(newSource);
      }
    }

    /**
     * The import finished. A null importer (the file could not be opened)
     * is dereferenced: `nullImporter` reports that outcome, which changes
     * nothing. Otherwise a scene makes the mesh Processing, none Error.
     */
    method OnSceneLoadingComplete(fs: Paths.FileSystem, parse: Bytes -> Option<Scene>) returns (nullImporter: bool)
      requires Valid() && pending.Some?
      requires var r := ImportResult(fs, parse, pending.value); r.Importer? && r.scene.Some? ==> SceneWellFormed(r.scene.value)
      modifies this`pending, this`imported, this`status, this`signals
      ensures Valid()
      ensures nullImporter <==> fs.read(Paths.FileName(fs, old(pending).value)).None?
      ensures nullImporter ==> pending == old(pending) && imported == old(imported) && status == old(status) && signals == old(signals)
      ensures !nullImporter ==> pending == None && imported == ImportResult(fs, parse, old(pending).value)
      ensures !nullImporter && imported.scene.Some? ==>
        status == StatusProcessing && signals == old(signals) + IfChanged(old(status), StatusProcessing, StatusChanged(StatusProcessing))
      ensures !nullImporter && imported.scene.None? ==>
        status == StatusError && signals == old(signals) + IfChanged(old(status), StatusError, StatusChanged(StatusError))
    {
      var result := ImportResult(fs, parse, pending.value);
      if result.NoImporter? {
        return true;
      }
      nullImporter := false;
      pending := None;
      imported := result;
      if result.scene.Some? {
        SetStatus(StatusProcessing);
      } else {
        SetStatus(StatusError);
      }
    }

    method OnInit()
      modifies this`renderConnected
      ensures renderConnected
    {
      renderConnected := true;
    }

    /**
     * Textures are deleted (Texture has no destructor of its own, so this
     * issues nothing); the buffers are deleted but their handles kept, and
     * the VAO is deleted and zeroed.
     */
    method Clear()
      modifies this`textures, this`vao, this`events
      ensures |textures| == |old(textures)| && forall k | 0 <= k < |textures| :: textures[k].None?
      ensures vao == 0
      ensures events == old(events) + ClearEvents(buffers, old(vao))
    {
      var i := 0;
      while i < |textures|
        invariant 0 <= i <= |textures| == |old(textures)| && vao == old(vao)
        invariant forall k | 0 <= k < i :: textures[k].None?
        invariant events == old(events)
      {
        textures := textures[i := VRTypes.SafeDelete(textures[i]).0];
        i := i + 1;
      }
      var bufferDeletion := if |buffers| > 0 && buffers[0] != 0 then [GlCall(DeleteBuffers(buffers))] else [];
      var vaoDeletion := if vao != 0 then [GlCall(DeleteVertexArrays(vao))] else [];
      events := events + (bufferDeletion + vaoDeletion);
      vao := 0;
    }

    method OnShutdown()
      modifies this`textures, this`vao, this`events
      ensures |textures| == |old(textures)| && forall k | 0 <= k < |textures| :: textures[k].None?
      ensures vao == 0
      ensures events == old(events) + ClearEvents(buffers, old(vao))
    {
      Clear();
    }

    /** The index of a bone of the mesh: a new name takes the next index, a default BoneInfo and its offset matrix. */
    method RegisterBone(bone: Bone) returns (index: nat)
      requires numBones == |boneInfo| && TableValid(Table())
      modifies this`boneMapping, this`numBones, this`boneInfo
      ensures numBones == |boneInfo| && TableValid(Table())
      ensures (Table(), index) == Register(old(Table()), bone)
    {
      ghost var before := Table();
      if bone.name !in boneMapping {
        index := numBones;
        numBones := numBones + 1;
        boneInfo := boneInfo + [BoneInfo(Identity, Identity)];
        boneInfo := boneInfo[index := boneInfo[index].(offset := Given(bone.offset))];
        boneMapping := boneMapping[bone.name := index];
        assert boneInfo == before.info + [BoneInfo(Given(bone.offset), Identity)];
      } else {
        index := boneMapping[bone.name];
      }
      RegisterAssignsInInsertionOrder(before, bone);
    }

    /** LoadBones for mesh `meshIndex`, whose vertices start at its entry's BaseVertex. */
    method LoadBones(meshIndex: nat, m: Mesh, bones: seq<VertexBoneData>) returns (out: seq<VertexBoneData>)
      requires meshIndex < |entries| && numBones == |boneInfo| && TableValid(Table())
      requires AllSlotted(bones) && BonesFit(m.bones, entries[meshIndex].baseVertex, |bones|)
      requires LoadBonesOf(Loaded(Table(), bones), entries[meshIndex].baseVertex, m.bones).Some?
      modifies this`boneMapping, this`numBones, this`boneInfo
      ensures numBones == |boneInfo| && TableValid(Table())
      ensures LoadBonesOf(Loaded(old(Table()), bones), entries[meshIndex].baseVertex, m.bones) == Some(Loaded(Table(), out))
    {
      var base := entries[meshIndex].baseVertex;
      ghost var start := Loaded(Table(), bones);
      out := bones;
      var i := 0;
      while i < |m.bones|
        invariant 0 <= i <= |m.bones|
        invariant numBones == |boneInfo| && TableValid(Table())
        invariant LoadBonesOf(start, base, m.bones[..i]) == Some(Loaded(Table(), out))
      {
        var bone := m.bones[i];
        ghost var p := Loaded(Table(), out);
        var index := RegisterBone(bone);
        LoadBonesPrefix(start, base, m.bones, i + 1);
        LoadBonesStep(start, base, m.bones, i, p, Table(), index);
        out := AddBoneWeights(base, index, bone.weights, out);
        i := i + 1;
      }
      assert m.bones[..i] == m.bones;
    }

    /** InitMesh: the mesh's vertex attributes and face indices appended, its bones loaded. */
    method InitMesh(meshIndex: nat, m: Mesh, positions: seq<Vec3>, normals: seq<Vec3>, texCoords: seq<Vec2>,
                    bones: seq<VertexBoneData>, indices: seq<nat>)
      returns (newPositions: seq<Vec3>, newNormals: seq<Vec3>, newTexCoords: seq<Vec2>,
               newBones: seq<VertexBoneData>, newIndices: seq<nat>)
      requires AttributesFit(m)
      requires meshIndex < |entries| && numBones == |boneInfo| && TableValid(Table())
      requires AllSlotted(bones) && BonesFit(m.bones, entries[meshIndex].baseVertex, |bones|)
      requires LoadBonesOf(Loaded(Table(), bones), entries[meshIndex].baseVertex, m.bones).Some?
      modifies this`boneMapping, this`numBones, this`boneInfo
      ensures numBones == |boneInfo| && TableValid(Table())
      ensures newPositions == positions + m.positions
      ensures newNormals == normals + m.normals[..|m.positions|]
      ensures newTexCoords == texCoords + MeshTexCoords(m)
      ensures LoadBonesOf(Loaded(old(Table()), bones), entries[meshIndex].baseVertex, m.bones) == Some(Loaded(Table(), newBones))
      ensures newIndices == indices + FaceIndices(m.faces)
    {
      newPositions, newNormals, newTexCoords := AppendVertices(m, positions, normals, texCoords);
      newBones := LoadBones(meshIndex, m, bones);
      newIndices := AppendFaces(m.faces, indices);
    }

    /** InitMaterials: the texture of every material, from the directory of the source. */
    method InitMaterials(materials: seq<Material>, load: string -> bool) returns (ok: bool)
      requires |textures| == |materials|
      modifies this`textures
      ensures textures == MaterialTextures(MaterialDir(source), materials, load)
      ensures ok == TexturesLoad(MaterialDir(source), materials, load)
    {
      var slash := LastSlash(source);
      var dir: string;
      if slash == -1 {
        dir := ".";
      } else if slash == 0 {
        dir := "/";
      } else {
        dir := source[..slash];
      }
      assert dir == MaterialDir(source);

      ok := true;
      var i := 0;
      while i < |materials|
        invariant 0 <= i <= |materials| == |textures|
        invariant forall k | 0 <= k < i :: textures[k] == MaterialTexture(dir, materials[k], load)
        invariant ok == forall k | 0 <= k < i :: !MaterialFails(dir, materials[k], load)
      {
        textures := textures[i := None];
        if materials[i].diffuseCount > 0 && materials[i].diffusePath.Some? {
          var p := materials[i].diffusePath.value;
          if |p| >= 2 && p[..2] == ".\\" {
            p := p[2..];
          }
          var fullPath := dir + "/" + p;
          TexturePathStripsDotBackslash(dir, materials[i].diffusePath.value);
          assert fullPath == TexturePath(dir, materials[i].diffusePath.value);
          textures := textures[i := Some(fullPath)];
          if !load(fullPath) {
            textures := textures[i := None];
            ok := false;
          }
        }
        i := i + 1;
      }
    }

    /** The counting loop of InitFromScene: every entry from the vertex and index counts of the meshes before it. */
    method FillEntries(meshes: seq<Mesh>)
      modifies this`entries
      ensures entries == Entries(meshes)
    {
      entries := if |entries| >= |meshes| then entries[..|meshes|]
        else entries + seq(|meshes| - |entries|, _ => DefaultEntry());
      var numVertices, numIndices := 0, 0;
      var i := 0;
      while i < |entries|
        invariant 0 <= i <= |entries| == |meshes|
        invariant numVertices == VertexCount(meshes[..i]) && numIndices == IndexCount(meshes[..i])
        invariant forall k | 0 <= k < i :: entries[k] == EntryOf(meshes, k)
      {
        entries := entries[i := MeshEntry(3 * |meshes[i].faces|, numVertices, numIndices, ToInt32(meshes[i].materialIndex))];
        numVertices := numVertices + |meshes[i].positions|;
        numIndices := numIndices + entries[i].numIndices;
        assert meshes[..i + 1][..i] == meshes[..i];
        i := i + 1;
      }
    }

    /** The loop of InitFromScene over the meshes, from empty attribute vectors and zeroed bone data. */
    method InitMeshes(meshes: seq<Mesh>)
      returns (positions: seq<Vec3>, normals: seq<Vec3>, texCoords: seq<Vec2>, bones: seq<VertexBoneData>, indices: seq<nat>)
      requires AllAttributesFit(meshes) && AllBonesWithin(meshes)
      requires entries == Entries(meshes) && numBones == |boneInfo| && TableValid(Table())
      requires ImportedBones(Table(), meshes).Some?
      modifies this`boneMapping, this`numBones, this`boneInfo
      ensures numBones == |boneInfo| && TableValid(Table())
      ensures positions == Positions(meshes) && normals == Normals(meshes) && texCoords == TexCoords(meshes)
      ensures indices == Indices(meshes)
      ensures ImportedBones(old(Table()), meshes) == Some(Loaded(Table(), bones))
    {
      ghost var start := Loaded(Table(), ZeroBones(VertexCount(meshes)));
      positions, normals, texCoords, bones, indices := [], [], [], ZeroBones(VertexCount(meshes)), [];
      var i := 0;
      while i < |meshes|
        invariant 0 <= i <= |meshes|
        invariant numBones == |boneInfo| && TableValid(Table())
        invariant positions == Positions(meshes[..i]) && normals == Normals(meshes[..i])
        invariant texCoords == TexCoords(meshes[..i]) && indices == Indices(meshes[..i])
        invariant VertexCount(meshes[..i]) <= VertexCount(meshes)
        invariant LoadMeshBones(start, meshes[..i]) == Some(Loaded(Table(), bones))
      {
        InitMeshStep(start, meshes, i);
        assert entries[i].baseVertex == VertexCount(meshes[..i]);
        positions, normals, texCoords, bones, indices := InitMesh(i, meshes[i], positions, normals, texCoords, bones, indices);
        i := i + 1;
      }
      assert meshes[..i] == meshes;
    }

    /**
     * InitFromScene: the entries, the vertex data of every mesh, the bones
     * and the textures; the buffers are filled only when every texture loads.
     */
    method InitFromScene(sc: Scene, load: string -> bool) returns (ok: bool)
      requires SceneWellFormed(sc) && |buffers| == NUM_VBS && numBones == |boneInfo| && TableValid(Table())
      requires ImportedBones(Table(), sc.meshes).Some?
      modifies this`entries, this`textures, this`boneMapping, this`numBones, this`boneInfo, this`events
      ensures numBones == |boneInfo| && TableValid(Table())
      ensures entries == Entries(sc.meshes)
      ensures textures == MaterialTextures(MaterialDir(source), sc.materials, load)
      ensures ok == TexturesLoad(MaterialDir(source), sc.materials, load)
      ensures var loaded := ImportedBones(old(Table()), sc.meshes).value;
        && Table() == loaded.table
        && events == old(events) + (if ok then Uploads(buffers, sc.meshes, loaded.data) else [])
    {
      FillEntries(sc.meshes);
      textures := if |textures| >= |sc.materials| then textures[..|sc.materials|]
        else textures + seq(|sc.materials| - |textures|, _ => None);

      var positions, normals, texCoords, bones, indices := InitMeshes(sc.meshes);

      ok := InitMaterials(sc.materials, load);
      if !ok {
        return;
      }

      events := events + [
        PositionsUploaded(buffers[POS_VB], POSITION_LOCATION, positions),
        TexCoordsUploaded(buffers[TEXCOORD_VB], TEX_COORD_LOCATION, texCoords),
        NormalsUploaded(buffers[NORMAL_VB], NORMAL_LOCATION, normals),
        BoneDataUploaded(buffers[BONE_VB], BONE_ID_LOCATION, BONE_WEIGHT_LOCATION, bones),
        IndicesUploaded(buffers[INDEX_BUFFER], indices)];
    }

    /** ReadNodeHeirarchy: the final transformation of every bone under `node`, visited depth first. */
    method ReadNodeHierarchy(t: real, node: Node, parent: Mat)
      requires scene.Some? && |scene.value.animations| > 0 && AnimationWellFormed(scene.value.animations[0])
      requires MapsInto(boneMapping, boneInfo)
      modifies this`boneInfo
      ensures boneInfo == VisitNode(old(boneInfo), boneMapping, globalInverse, scene.value.animations[0], t, node, parent)
      decreases node
    {
      var a := scene.value.animations[0];
      var local := NodeTransformation(a, t, node);
      var global := Product(parent, local);
      if node.name in boneMapping {
        var b := boneMapping[node.name];
        boneInfo := boneInfo[b := boneInfo[b].(final := FinalTransformation(globalInverse, global, boneInfo[b]))];
      }
      ghost var visited := boneInfo;
      var i := 0;
      while i < |node.children|
        invariant 0 <= i <= |node.children| && |boneInfo| == |visited|
        invariant MapsInto(boneMapping, boneInfo)
        invariant boneInfo == VisitChildren(visited, boneMapping, globalInverse, a, t, node, i, global)
      {
        ReadNodeHierarchy(t, node.children[i], global);
        i := i + 1;
      }
    }

    /**
     * BoneTransform: nothing without animations; otherwise the hierarchy
     * walked at the first animation's time and one matrix per bone.
     */
    method BoneTransform(seconds: real, fmod: (real, real) -> real, transforms: seq<Mat>) returns (out: seq<Mat>)
      requires scene.Some? && SceneWellFormed(scene.value) && numBones == |boneInfo| && MapsInto(boneMapping, boneInfo)
      modifies this`boneInfo
      ensures scene.value.animations == [] ==> out == transforms && boneInfo == old(boneInfo)
      ensures scene.value.animations != [] ==>
        var a := scene.value.animations[0];
        && boneInfo == VisitNode(old(boneInfo), boneMapping, globalInverse, a, AnimationTime(a, seconds, fmod), scene.value.root, Identity)
        && out == FinalTransforms(boneInfo)
    {
      if scene.value.animations == [] {
        return transforms;
      }
      var a := scene.value.animations[0];
      var animationTime := AnimationTime(a, seconds, fmod);
      ReadNodeHierarchy(animationTime, scene.value.root, Identity);

      out := if |transforms| >= numBones then transforms[..numBones]
        else transforms + seq(numBones - |transforms|, _ => Identity);
      var i := 0;
      while i < numBones
        invariant 0 <= i <= numBones == |out| == |boneInfo|
        invariant forall k | 0 <= k < i :: out[k] == boneInfo[k].final
      {
        out := out[i := boneInfo[i].final];
        i := i + 1;
      }
    }

    /** Clear, then a new vertex array bound and five buffers generated. */
    method Regenerate(newVao: nat, newBuffers: seq<nat>)
      modifies this`textures, this`vao, this`buffers, this`events
      ensures |textures| == |old(textures)| && forall k | 0 <= k < |textures| :: textures[k].None?
      ensures vao == newVao && buffers == newBuffers
      ensures events == old(events) + RegenerateEvents(old(buffers), old(vao), newVao, newBuffers)
    {
      Clear();
      ghost var cleared := events;
      vao := newVao;
      events := events + [GlCall(GenVertexArrays(vao)), GlCall(BindVertexArray(vao))];
      buffers := newBuffers;
      events := events + [BuffersGenerated(buffers)];
      assert events == cleared + [GlCall(GenVertexArrays(newVao)), GlCall(BindVertexArray(newVao)), BuffersGenerated(newBuffers)];
      AppendTwo(old(events), ClearEvents(old(buffers), old(vao)),
        [GlCall(GenVertexArrays(newVao)), GlCall(BindVertexArray(newVao)), BuffersGenerated(newBuffers)]);
    }

    /** The scene becomes the mesh's own and is uploaded into the bound vertex array. */
    method Install(sc: Scene, load: string -> bool)
      requires SceneWellFormed(sc) && |buffers| == NUM_VBS && numBones == |boneInfo| && TableValid(Table())
      requires ImportedBones(Table(), sc.meshes).Some?
      modifies this`scene, this`globalInverse, this`entries, this`textures, this`boneMapping, this`numBones,
        this`boneInfo, this`events
      ensures numBones == |boneInfo| && TableValid(Table()) && EntriesIndexTextures(entries, textures)
      ensures scene == Some(sc) && globalInverse == Inverse(Given(sc.root.transformation))
      ensures var loaded := ImportedBones(old(Table()), sc.meshes).value;
        var dir := MaterialDir(source);
        && entries == Entries(sc.meshes) && textures == MaterialTextures(dir, sc.materials, load)
        && Table() == loaded.table
        && events == old(events) + InstallEvents(buffers, sc.meshes, loaded.data, TexturesLoad(dir, sc.materials, load))
    {
      scene := Some(sc);
      globalInverse := Inverse(Given(sc.root.transformation));
      var ok := InitFromScene(sc, load);
      SceneEntriesIndexTextures(sc, MaterialDir(source), load);
      events := events + [GlCall(BindVertexArray(0))];
      ghost var loaded := ImportedBones(old(Table()), sc.meshes).value;
      AppendTwo(old(events), if ok then Uploads(buffers, sc.meshes, loaded.data) else [], [GlCall(BindVertexArray(0))]);
    }

    /**
     * onRender while Processing: the old buffers go, a new vertex array
     * and five buffers are generated, the imported scene becomes the
     * mesh's scene and is uploaded, and the mesh is Ready. `newVao` and
     * `newBuffers` are the names the driver hands out.
     */
    method Rebuild(newVao: nat, newBuffers: seq<nat>, load: string -> bool)
      requires |buffers| == NUM_VBS && numBones == |boneInfo| && TableValid(Table()) && pending == None
      requires status == StatusProcessing && imported.Importer? && imported.scene.Some? && SceneWellFormed(imported.scene.value) && |newBuffers| == NUM_VBS
      requires var sc := imported.scene.value; ImportedBones(Table(), sc.meshes).Some?
      modifies this`textures, this`vao, this`buffers, this`scene, this`globalInverse, this`entries,
        this`boneMapping, this`numBones, this`boneInfo, this`status, this`events, this`signals
      ensures Valid() && status == StatusReady
      ensures var sc := old(imported.scene.value);
        var loaded := ImportedBones(old(Table()), sc.meshes).value;
        var dir := MaterialDir(source);
        var ok := TexturesLoad(dir, sc.materials, load);
        && scene == Some(sc) && globalInverse == Inverse(Given(sc.root.transformation))
        && vao == newVao && buffers == newBuffers
        && entries == Entries(sc.meshes) && textures == MaterialTextures(dir, sc.materials, load)
        && Table() == loaded.table
        && events == old(events) + RegenerateEvents(old(buffers), old(vao), newVao, newBuffers)
          + InstallEvents(newBuffers, sc.meshes, loaded.data, ok)
        && signals == old(signals) + [StatusChanged(StatusReady)]
    {
      ghost var table := Table();
      Regenerate(newVao, newBuffers);
      assert Table() == table;
      var sc := imported.scene.value;
      InstallReady(sc, load);
    }

    /** Install, then the status becomes Ready. */
    method InstallReady(sc: Scene, load: string -> bool)
      requires SceneWellFormed(sc) && |buffers| == NUM_VBS && numBones == |boneInfo| && TableValid(Table()) && pending == None
      requires ImportedBones(Table(), sc.meshes).Some?
      modifies this`scene, this`globalInverse, this`entries, this`textures, this`boneMapping, this`numBones,
        this`boneInfo, this`events, this`status, this`signals
      ensures Valid() && status == StatusReady
      ensures scene == Some(sc) && globalInverse == Inverse(Given(sc.root.transformation))
      ensures var loaded := ImportedBones(old(Table()), sc.meshes).value;
        var dir := MaterialDir(source);
        && entries == Entries(sc.meshes) && textures == MaterialTextures(dir, sc.materials, load)
        && Table() == loaded.table
        && events == old(events) + InstallEvents(buffers, sc.meshes, loaded.data, TexturesLoad(dir, sc.materials, load))
      ensures signals == old(signals) + IfChanged(old(status), StatusReady, StatusChanged(StatusReady))
    {
      Install(sc, load);
      SetStatus(StatusReady);
    }

    /** The bones posed at `seconds` and each final transformation set as a uniform. */
    method PoseBones(seconds: real, fmod: (real, real) -> real)
      requires scene.Some? && SceneWellFormed(scene.value) && numBones == |boneInfo| && MapsInto(boneMapping, boneInfo)
      modifies this`boneInfo, this`events
      ensures |boneInfo| == |old(boneInfo)|
      ensures var animations := scene.value.animations;
        && boneInfo == (if animations == [] then old(boneInfo)
          else VisitNode(old(boneInfo), boneMapping, globalInverse, animations[0],
            AnimationTime(animations[0], seconds, fmod), scene.value.root, Identity))
        && events == old(events) + BoneUploads(if animations == [] then [] else FinalTransforms(boneInfo))
    {
      var transforms := BoneTransform(seconds, fmod, []);
      ghost var posed := boneInfo;
      var i := 0;
      while i < |transforms|
        invariant 0 <= i <= |transforms| && boneInfo == posed
        invariant events == old(events) + BoneUploads(transforms[..i])
      {
        assert BoneUploads(transforms[..i + 1]) == BoneUploads(transforms[..i]) + [BoneTransformSet(i, transforms[i])];
        events := events + [BoneTransformSet(i, transforms[i])];
        i := i + 1;
      }
      assert transforms[..i] == transforms;
    }

    /** The vertex array bound, every entry drawn with its material's texture, and the array unbound. */
    method DrawMeshes()
      requires EntriesIndexTextures(entries, textures)
      modifies this`events
      ensures events == old(events) + DrawMeshEvents(vao, entries, textures)
    {
      events := events + [GlCall(BindVertexArray(vao))];
      var k := 0;
      while k < |entries|
        invariant 0 <= k <= |entries|
        invariant events == old(events) + [GlCall(BindVertexArray(vao))] + DrawEntries(entries[..k], textures)
      {
        assert entries[..k + 1][..k] == entries[..k];
        var materialIndex := entries[k].materialIndex;
        if textures[materialIndex].Some? {
          events := events + [TextureBound(textures[materialIndex].value)];
        }
        events := events + [DrawCall(entries[k])];
        k := k + 1;
      }
      assert entries[..k] == entries;
      events := events + [GlCall(BindVertexArray(0))];
    }

    /**
     * onRender while Ready: with a linked program, the bones are posed at
     * the device's time, the uniforms set, and every entry drawn with its
     * material's texture; with an unlinked one nothing happens. The link
     * status is read without a null check, so a mesh with no program is
     * dereferenced: `nullProgram` reports that outcome, which changes
     * nothing.
     */
    method Draw(f: Frame, fmod: (real, real) -> real) returns (nullProgram: bool)
      requires scene.Some? && SceneWellFormed(scene.value) && numBones == |boneInfo| && MapsInto(boneMapping, boneInfo)
      requires EntriesIndexTextures(entries, textures)
      modifies this`boneInfo, this`events
      ensures |boneInfo| == |old(boneInfo)|
      ensures nullProgram <==> shaderProgram == null
      ensures nullProgram || !shaderProgram.LinkStatus() ==> boneInfo == old(boneInfo) && events == old(events)
      ensures !nullProgram && shaderProgram.LinkStatus() ==>
        var animations := scene.value.animations;
        var transforms := if animations == [] then [] else FinalTransforms(boneInfo);
        var model := ModelMatrix(f);
        && boneInfo == (if animations == [] then old(boneInfo)
          else VisitNode(old(boneInfo), boneMapping, globalInverse, animations[0],
            AnimationTime(animations[0], f.t, fmod), scene.value.root, Identity))
        && events == old(events) + [ProgramBound] + BoneUploads(transforms)
          + [EyeWorldPosSet(f.eyePosition), MvpSet(Product(Product(f.proj, f.view), model)), ModelSet(model)]
          + DrawMeshEvents(vao, entries, textures)
    {
      nullProgram := shaderProgram == null;
      if nullProgram || !shaderProgram.LinkStatus() {
        return;
      }
      events := events + [ProgramBound];
      PoseBones(f.t, fmod);
      var model := ModelMatrix(f);
      events := events + [EyeWorldPosSet(f.eyePosition), MvpSet(Product(Product(f.proj, f.view), model)), ModelSet(model)];
      DrawMeshes();
    }

    /**
     * onRender: the work the mesh's status calls for, nothing in any status
     * but Processing and Ready. `nullProgram` reports a Ready mesh without
     * a shader program, which the source dereferences; nothing changes then.
     */
    method OnRender(f: Frame, newVao: nat, newBuffers: seq<nat>, load: string -> bool, fmod: (real, real) -> real)
      returns (nullProgram: bool)
      requires Valid() && |newBuffers| == NUM_VBS
      requires status == StatusProcessing ==>
        var sc := imported.scene.value; ImportedBones(Table(), sc.meshes).Some?
      modifies this`textures, this`vao, this`buffers, this`scene, this`globalInverse, this`entries,
        this`boneMapping, this`numBones, this`boneInfo, this`status, this`events, this`signals
      ensures Valid()
      ensures nullProgram <==> old(status) == StatusReady && shaderProgram == null
      ensures nullProgram ==> boneInfo == old(boneInfo) && events == old(events)
      ensures old(status) == StatusProcessing ==> status == StatusReady && scene == old(imported.scene)
      ensures old(status) == StatusProcessing ==>
        var sc := old(imported.scene.value);
        var loaded := ImportedBones(old(Table()), sc.meshes).value;
        var dir := MaterialDir(source);
        && globalInverse == Inverse(Given(sc.root.transformation))
        && vao == newVao && buffers == newBuffers
        && entries == Entries(sc.meshes) && textures == MaterialTextures(dir, sc.materials, load)
        && Table() == loaded.table
        && events == old(events) + RegenerateEvents(old(buffers), old(vao), newVao, newBuffers)
          + InstallEvents(newBuffers, sc.meshes, loaded.data, TexturesLoad(dir, sc.materials, load))
        && signals == old(signals) + [StatusChanged(StatusReady)]
      ensures old(status) == StatusReady ==>
        && status == StatusReady && scene == old(scene) && entries == old(entries)
        && textures == old(textures) && buffers == old(buffers) && vao == old(vao) && signals == old(signals)
        && boneMapping == old(boneMapping) && numBones == old(numBones) && globalInverse == old(globalInverse)
      ensures old(status) == StatusReady && !nullProgram && !shaderProgram.LinkStatus() ==>
        boneInfo == old(boneInfo) && events == old(events)
      ensures old(status) == StatusReady && !nullProgram && shaderProgram.LinkStatus() ==>
        var animations := old(scene).value.animations;
        var transforms := if animations == [] then [] else FinalTransforms(boneInfo);
        var model := ModelMatrix(f);
        && boneInfo == (if animations == [] then old(boneInfo)
          else VisitNode(old(boneInfo), old(boneMapping), old(globalInverse), animations[0],
            AnimationTime(animations[0], f.t, fmod), old(scene).value.root, Identity))
        && events == old(events) + [ProgramBound] + BoneUploads(transforms)
          + [EyeWorldPosSet(f.eyePosition), MvpSet(Product(Product(f.proj, f.view), model)), ModelSet(model)]
          + DrawMeshEvents(old(vao), old(entries), old(textures))
      ensures old(status) != StatusProcessing && old(status) != StatusReady ==>
        status == old(status) && events == old(events) && signals == old(signals) && boneInfo == old(boneInfo)
        && scene == old(scene) && vao == old(vao)
    {
      nullProgram := false;
      match status
      case StatusProcessing =>
        Rebuild(newVao, newBuffers, load);
      case StatusReady =>
        ghost var before := Table();
        nullProgram := Draw(f, fmod);
        TableValidResized(before, boneInfo);
      case _ =>
    }
  }
}
