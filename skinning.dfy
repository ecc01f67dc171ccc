// The scene a SkinnedMesh is built from, as the importer hands it over, and
// the computations SkinnedMesh performs on it that only compute a value: the
// keyframe search and interpolation of an animation channel, the channel
// of a node, the directory material textures are looked up in, and the
// bone matrices a walk of the node hierarchy produces. Matrix arithmetic is
// not carried out: a matrix is the expression that computes it.
module Skinning {
  import opened Common

  /** A glm::quat / aiQuaternion w + xi + yj + zk. */
  datatype Quat = Quat(w: real, x: real, y: real, z: real)

  /** An interpolated rotation: a key as it stands, or normalize(slerp(start, end, factor)). */
  datatype Rotation = KeyRotation(q: Quat) | Slerp(start: Quat, end: Quat, factor: real)

  /**
   * A 4x4 matrix as the expression that computes it. `Given` is a matrix
   * built from sixteen values of the scene, in the order the code passes
   * them to the glm::mat4 constructor; `Trs` is
   * glm::scale(glm::translate(base, translation) * glm::mat4(rotation), scaling);
   * `Placed` is a node's model matrix, glm::scale(glm::rotate(glm::translate(
   * glm::mat4(1), position), radians(degrees), +y), (scale, scale, scale)).
   */
  datatype Mat =
    | Identity
    | Given(entries: seq<real>)
    | Product(left: Mat, right: Mat)
    | Inverse(m: Mat)
    | Trs(base: Mat, translation: Vec3, rotation: Rotation, scaling: Vec3)
    | Placed(position: Vec3, degrees: real, scale: real)

  // ---------------------------------------------------------------------
  // The imported scene.

  datatype VectorKey = VectorKey(time: real, value: Vec3)
  datatype QuatKey = QuatKey(time: real, value: Quat)

  /** aiNodeAnim: the keys of one animated node. */
  datatype NodeAnim = NodeAnim(nodeName: string, positionKeys: seq<VectorKey>, rotationKeys: seq<QuatKey>, scalingKeys: seq<VectorKey>)

  /** aiAnimation. */
  datatype Animation = Animation(duration: real, ticksPerSecond: real, channels: seq<NodeAnim>)

  /** aiNode: a named node of the hierarchy with its transformation. */
  datatype Node = Node(name: string, transformation: seq<real>, children: seq<Node>)

  /** aiVertexWeight. */
  datatype Weight = Weight(vertexId: nat, weight: real)

  /** aiBone: a named bone, its offset matrix and the vertices it moves. */
  datatype Bone = Bone(name: string, offset: seq<real>, weights: seq<Weight>)

  /** A triangle of vertex indices (the import preset triangulates). */
  datatype Face = Face(a: nat, b: nat, c: nat)

  /** aiMesh; the number of vertices is the number of positions. */
  datatype Mesh = Mesh(
    positions: seq<Vec3>, normals: seq<Vec3>, texCoords: Option<seq<Vec3>>,
    faces: seq<Face>, bones: seq<Bone>, materialIndex: nat)

  /**
   * aiMaterial, for what the mesh asks of it: how many diffuse textures it
   * lists, and the path of the first one, None when aiGetMaterialTexture fails.
   */
  datatype Material = Material(diffuseCount: nat, diffusePath: Option<string>)

  /** aiScene. */
  datatype Scene = Scene(root: Node, meshes: seq<Mesh>, materials: seq<Material>, animations: seq<Animation>)

  /** What the importer guarantees of a mesh: one normal and texture coordinate per vertex, weights on existing vertices. */
  predicate MeshWellFormed(m: Mesh, materialCount: nat)
  {
    && |m.normals| == |m.positions|
    && (m.texCoords.Some? ==> |m.texCoords.value| >= |m.positions|)
    && m.materialIndex < materialCount
    && MeshBonesWithin(m)
  }

  /** Every bone of the mesh weighs only the mesh's own vertices. */
  predicate MeshBonesWithin(m: Mesh)
  {
    forall b | 0 <= b < |m.bones| :: WeightsWithin(m.bones[b], |m.positions|)
  }

  /** Every vertex a bone weighs is one of the mesh's. */
  predicate WeightsWithin(b: Bone, vertexCount: nat)
  {
    forall w | 0 <= w < |b.weights| :: b.weights[w].vertexId < vertexCount
  }

  /** Every channel has at least one key of each kind, at strictly increasing times. */
  predicate ChannelWellFormed(c: NodeAnim)
  {
    && |c.positionKeys| > 0 && |c.rotationKeys| > 0 && |c.scalingKeys| > 0
    && Increasing(VectorTimes(c.positionKeys)) && Increasing(QuatTimes(c.rotationKeys))
    && Increasing(VectorTimes(c.scalingKeys))
  }

  predicate AnimationWellFormed(a: Animation)
  {
    forall k | 0 <= k < |a.channels| :: ChannelWellFormed(a.channels[k])
  }

  /**
   * A scene as the importer delivers it; its material count fits the int
   * of QVector::size, with which material indices are compared.
   */
  predicate SceneWellFormed(s: Scene)
  {
    && |s.materials| < 0x8000_0000
    && (forall k | 0 <= k < |s.meshes| :: MeshWellFormed(s.meshes[k], |s.materials|))
    && (forall k | 0 <= k < |s.animations| :: AnimationWellFormed(s.animations[k]))
  }

  // ---------------------------------------------------------------------
  // Keyframe search.

  predicate Increasing(times: seq<real>)
  {
    forall i, j | 0 <= i < j < |times| :: times[i] < times[j]
  }

  function VectorTimes(keys: seq<VectorKey>): (r: seq<real>)
    ensures |r| == |keys| && forall k | 0 <= k < |keys| :: r[k] == keys[k].time
  {
    seq(|keys|, k requires 0 <= k < |keys| => keys[k].time)
  }

  function QuatTimes(keys: seq<QuatKey>): (r: seq<real>)
    ensures |r| == |keys| && forall k | 0 <= k < |keys| :: r[k] == keys[k].time
  {
    seq(|keys|, k requires 0 <= k < |keys| => keys[k].time)
  }

  /**
   * What FindPosition, FindRotation and FindScaling return, searching from
   * `from`: the first i with t < times[i + 1], and 0 when the search runs
   * off the end (the release build's fall-through after `assert(0)`).
   */
  function KeyIndexFrom(times: seq<real>, t: real, from: nat): (i: nat)
    decreases |times| - from
  {
    if from + 1 >= |times| then 0
    else if t < times[from + 1] then from
    else KeyIndexFrom(times, t, from + 1)
  }

  function KeyIndex(times: seq<real>, t: real): nat
  {
    KeyIndexFrom(times, t, 0)
  }

  /** The search from `from` finds the first later key after t, and 0 when there is none. */
  lemma {:induction false} KeyIndexFromIsFirst(times: seq<real>, t: real, from: nat)
    requires forall j | 1 <= j <= from && j < |times| :: times[j] <= t
    ensures var i := KeyIndexFrom(times, t, from);
      && ((exists k | 1 <= k < |times| :: t < times[k]) ==>
        && i + 1 < |times| && t < times[i + 1]
        && forall j | 1 <= j <= i :: times[j] <= t)
      && ((forall k | 1 <= k < |times| :: times[k] <= t) ==> i == 0)
    decreases |times| - from
  {
    if from + 1 < |times| && !(t < times[from + 1]) {
      KeyIndexFromIsFirst(times, t, from + 1);
    }
  }

  /**
   * The key index is the smallest i with t < times[i + 1], so i + 1 is a
   * key; when no key lies after t it is 0.
   */
  lemma KeyIndexIsFirst(times: seq<real>, t: real)
    ensures (exists k | 1 <= k < |times| :: t < times[k]) ==>
      && KeyIndex(times, t) + 1 < |times| && t < times[KeyIndex(times, t) + 1]
      && forall j | 1 <= j <= KeyIndex(times, t) :: times[j] <= t
    ensures (forall k | 1 <= k < |times| :: times[k] <= t) ==> KeyIndex(times, t) == 0
  {
    KeyIndexFromIsFirst(times, t, 0);
  }

  /** The index and the next one are both keys whenever there are two keys. */
  lemma KeyIndexInRange(times: seq<real>, t: real)
    requires |times| >= 2
    ensures KeyIndex(times, t) + 1 < |times|
  {
    KeyIndexIsFirst(times, t);
  }

  /** (t - times[i]) / (times[i + 1] - times[i]), the interpolation factor. */
  function Factor(times: seq<real>, t: real, i: nat): real
    requires i + 1 < |times| && Increasing(times)
  {
    (t - times[i]) / (times[i + 1] - times[i])
  }

  /**
   * The factor the interpolation asserts: inside the span of the keys, it
   * lies in [0, 1].
   */
  lemma FactorInUnitInterval(times: seq<real>, t: real)
    requires |times| >= 2 && Increasing(times)
    requires times[0] <= t < times[|times| - 1]
    ensures var i := KeyIndex(times, t); i + 1 < |times| && 0.0 <= Factor(times, t, i) < 1.0
  {
    KeyIndexIsFirst(times, t);
    var i := KeyIndex(times, t);
    assert t < times[|times| - 1];
    var n, d := t - times[i], times[i + 1] - times[i];
    assert d > 0.0 && 0.0 <= n < d;
    ProperFraction(n, d);
  }

  lemma ProperFraction(n: real, d: real)
    requires 0.0 <= n < d
    ensures 0.0 <= n / d < 1.0
  {
    var f := n / d;
    assert f * d == n;
  }

  /** Start + factor * (End - Start). */
  function Lerp(start: Vec3, end: Vec3, factor: real): Vec3
  {
    Add(start, Scale(Sub(end, start), factor))
  }

  /** CalcInterpolatedPosition and CalcInterpolatedScaling. */
  function InterpolatedVector(keys: seq<VectorKey>, t: real): Vec3
    requires |keys| > 0 && Increasing(VectorTimes(keys))
  {
    if |keys| == 1 then keys[0].value
    else
      var times := VectorTimes(keys);
      KeyIndexInRange(times, t);
      var i := KeyIndex(times, t);
      Lerp(keys[i].value, keys[i + 1].value, Factor(times, t, i))
  }

  /** CalcInterpolatedRotation. */
  function InterpolatedRotation(keys: seq<QuatKey>, t: real): Rotation
    requires |keys| > 0 && Increasing(QuatTimes(keys))
  {
    if |keys| == 1 then KeyRotation(keys[0].value)
    else
      var times := QuatTimes(keys);
      KeyIndexInRange(times, t);
      var i := KeyIndex(times, t);
      Slerp(keys[i].value, keys[i + 1].value, Factor(times, t, i))
  }

  /** A channel with a single key holds that key at every time. */
  lemma SingleKeyRule(c: NodeAnim, t: real)
    requires ChannelWellFormed(c)
    ensures |c.positionKeys| == 1 ==> InterpolatedVector(c.positionKeys, t) == c.positionKeys[0].value
    ensures |c.rotationKeys| == 1 ==> InterpolatedRotation(c.rotationKeys, t) == KeyRotation(c.rotationKeys[0].value)
    ensures |c.scalingKeys| == 1 ==> InterpolatedVector(c.scalingKeys, t) == c.scalingKeys[0].value
  {
  }

  /** At the time of a key that has a successor, the interpolation yields that key. */
  lemma InterpolationHitsKeys(keys: seq<VectorKey>, k: nat)
    requires Increasing(VectorTimes(keys)) && k + 1 < |keys|
    ensures InterpolatedVector(keys, keys[k].time) == keys[k].value
  {
    var times, t := VectorTimes(keys), keys[k].time;
    KeyIndexIsFirst(times, t);
    var i := KeyIndex(times, t);
    assert t < times[k + 1];
    assert Factor(times, t, i) == 0.0;
  }

  // ---------------------------------------------------------------------
  // Channels, ticks and the node hierarchy.

  /** What FindNodeAnim returns: the first channel for the node, if any. */
  function ChannelFor(channels: seq<NodeAnim>, name: string): Option<NodeAnim>
  {
    if channels == [] then None
    else if channels[0].nodeName == name then Some(channels[0])
    else ChannelFor(channels[1..], name)
  }

  /** A node has a channel exactly when one is named after it, and it is the first so named. */
  lemma {:induction false} ChannelForIsFirst(channels: seq<NodeAnim>, name: string)
    ensures ChannelFor(channels, name).None? <==> forall k | 0 <= k < |channels| :: channels[k].nodeName != name
    ensures ChannelFor(channels, name).Some? ==>
      exists k | 0 <= k < |channels| ::
        && ChannelFor(channels, name).value == channels[k] && channels[k].nodeName == name
        && forall j | 0 <= j < k :: channels[j].nodeName != name
  {
    if channels != [] && channels[0].nodeName != name {
      ChannelForIsFirst(channels[1..], name);
      if ChannelFor(channels, name).Some? {
        var k :| 0 <= k < |channels| - 1 && ChannelFor(channels, name).value == channels[1..][k]
          && channels[1..][k].nodeName == name && forall j | 0 <= j < k :: channels[1..][j].nodeName != name;
        assert ChannelFor(channels, name).value == channels[k + 1];
        assert forall j | 0 <= j < k + 1 :: channels[j].nodeName != name by {
          forall j | 0 <= j < k + 1 ensures channels[j].nodeName != name {
            if j > 0 {
              assert channels[j] == channels[1..][j - 1];
            }
          }
        }
      } else {
        forall k | 0 <= k < |channels| ensures channels[k].nodeName != name {
          if k > 0 {
            assert channels[k] == channels[1..][k - 1];
          }
        }
      }
    }
  }

  /** The clip's tick rate, and 25 ticks per second when the clip gives none. */
  function TicksPerSecond(a: Animation): (r: real)
    ensures r != 0.0
    ensures a.ticksPerSecond != 0.0 ==> r == a.ticksPerSecond
  {
    if a.ticksPerSecond != 0.0 then a.ticksPerSecond else 25.0
  }

  /**
   * A node's local transformation at animation time t: its own matrix, or,
   * for an animated node, that matrix translated, rotated and scaled by the
   * interpolated keys.
   */
  function LocalTransform(a: Animation, t: real, node: Node): Mat
    requires AnimationWellFormed(a)
  {
    match ChannelFor(a.channels, node.name)
    case None => Given(node.transformation)
    case Some(c) =>
      ChannelForIsFirst(a.channels, node.name);
      Trs(Given(node.transformation), InterpolatedVector(c.positionKeys, t),
        InterpolatedRotation(c.rotationKeys, t), InterpolatedVector(c.scalingKeys, t))
  }

  /** BoneInfo: a bone's offset matrix and its final transformation. */
  datatype BoneInfo = BoneInfo(offset: Mat, final: Mat)

  /** The name → index map assigns every name an index in the bone table. */
  predicate MapsInto(mapping: map<string, nat>, info: seq<BoneInfo>)
  {
    forall name | name in mapping :: mapping[name] < |info|
  }

  /** The bone's final transformation for a node whose global transformation is `global`. */
  function FinalTransformation(globalInverse: Mat, global: Mat, b: BoneInfo): Mat
  {
    Product(Product(globalInverse, global), b.offset)
  }

  /**
   * ReadNodeHeirarchy on `node` under `parent`: the bone named after the
   * node, if any, gets its final transformation, then the children are
   * visited in order under the node's global transformation.
   */
  function VisitNode(info: seq<BoneInfo>, mapping: map<string, nat>, globalInverse: Mat, a: Animation, t: real,
                     node: Node, parent: Mat): (r: seq<BoneInfo>)
    requires MapsInto(mapping, info) && AnimationWellFormed(a)
    ensures |r| == |info|
    decreases node, 1
  {
    var global := Product(parent, LocalTransform(a, t, node));
    var visited := if node.name in mapping then
        var b := mapping[node.name];
        info[b := info[b].(final := FinalTransformation(globalInverse, global, info[b]))]
      else info;
    VisitChildren(visited, mapping, globalInverse, a, t, node, |node.children|, global)
  }

  /** The first n children of `node` visited in order under `global`. */
  function VisitChildren(info: seq<BoneInfo>, mapping: map<string, nat>, globalInverse: Mat, a: Animation, t: real,
                         node: Node, n: nat, global: Mat): (r: seq<BoneInfo>)
    requires MapsInto(mapping, info) && AnimationWellFormed(a) && n <= |node.children|
    ensures |r| == |info|
    decreases node, 0, n
  {
    if n == 0 then info
    else
      var before := VisitChildren(info, mapping, globalInverse, a, t, node, n - 1, global);
      VisitNode(before, mapping, globalInverse, a, t, node.children[n - 1], global)
  }

  /** No name of the map is assigned bone index b. */
  predicate Unnamed(mapping: map<string, nat>, b: nat)
  {
    forall name | name in mapping :: mapping[name] != b
  }

  /** The walk changes no offset and touches only bones named by a node. */
  lemma {:induction false} VisitKeepsOffsets(info: seq<BoneInfo>, mapping: map<string, nat>, globalInverse: Mat,
                                             a: Animation, t: real, node: Node, parent: Mat)
    requires MapsInto(mapping, info) && AnimationWellFormed(a)
    ensures forall b | 0 <= b < |info| ::
      VisitNode(info, mapping, globalInverse, a, t, node, parent)[b].offset == info[b].offset
    ensures forall b | 0 <= b < |info| && Unnamed(mapping, b) ::
      VisitNode(info, mapping, globalInverse, a, t, node, parent)[b] == info[b]
    decreases node, 1
  {
    var global := Product(parent, LocalTransform(a, t, node));
    var visited := if node.name in mapping then
        var b := mapping[node.name];
        info[b := info[b].(final := FinalTransformation(globalInverse, global, info[b]))]
      else info;
    VisitChildrenKeepOffsets(visited, mapping, globalInverse, a, t, node, |node.children|, global);
  }

  lemma {:induction false} VisitChildrenKeepOffsets(info: seq<BoneInfo>, mapping: map<string, nat>, globalInverse: Mat,
                                                    a: Animation, t: real, node: Node, n: nat, global: Mat)
    requires MapsInto(mapping, info) && AnimationWellFormed(a) && n <= |node.children|
    ensures forall b | 0 <= b < |info| ::
      VisitChildren(info, mapping, globalInverse, a, t, node, n, global)[b].offset == info[b].offset
    ensures forall b | 0 <= b < |info| && Unnamed(mapping, b) ::
      VisitChildren(info, mapping, globalInverse, a, t, node, n, global)[b] == info[b]
    decreases node, 0, n
  {
    if n > 0 {
      VisitChildrenKeepOffsets(info, mapping, globalInverse, a, t, node, n - 1, global);
      var before := VisitChildren(info, mapping, globalInverse, a, t, node, n - 1, global);
      VisitKeepsOffsets(before, mapping, globalInverse, a, t, node.children[n - 1], global);
    }
  }

  /** A bone whose node is the root gets the root's global transformation times its offset. */
  lemma RootBoneTransform(info: seq<BoneInfo>, mapping: map<string, nat>, globalInverse: Mat, a: Animation, t: real, root: Node)
    requires MapsInto(mapping, info) && AnimationWellFormed(a)
    requires root.name in mapping && root.children == []
    ensures VisitNode(info, mapping, globalInverse, a, t, root, Identity)[mapping[root.name]].final
      == Product(Product(globalInverse, Product(Identity, LocalTransform(a, t, root))), info[mapping[root.name]].offset)
  {
  }

  // ---------------------------------------------------------------------
  // Material paths.

  /** QString::lastIndexOf("/"): the position of the last '/', or -1. */
  function LastSlash(s: string): (r: int)
    ensures -1 <= r < |s|
    ensures r >= 0 ==> s[r] == '/' && forall k | r < k < |s| :: s[k] != '/'
    ensures r == -1 ==> forall k | 0 <= k < |s| :: s[k] != '/'
  {
    if |s| == 0 then -1
    else if s[|s| - 1] == '/' then |s| - 1
    else LastSlash(s[..|s| - 1])
  }

  /** The directory textures are looked up in, derived from the mesh's source. */
  function MaterialDir(source: string): string
  {
    var slash := LastSlash(source);
    if slash == -1 then "."
    else if slash == 0 then "/"
    else source[..slash]
  }

  /** The full texture path: the directory, a '/', and the material's path without a leading ".\". */
  function TexturePath(dir: string, p: string): string
  {
    dir + "/" + (if |p| >= 2 && p[..2] == ".\\" then p[2..] else p)
  }

  /** Without a '/' in the source, textures are looked up in ".". */
  lemma MaterialDirWithoutSlash(source: string)
    requires forall k | 0 <= k < |source| :: source[k] != '/'
    ensures MaterialDir(source) == "."
  {
  }

  /** When the only '/' of the source is its first character, textures are looked up in "/". */
  lemma MaterialDirAtRoot(source: string)
    requires |source| > 0 && source[0] == '/' && forall k | 0 < k < |source| :: source[k] != '/'
    ensures MaterialDir(source) == "/"
  {
  }

  /**
   * Otherwise the directory is everything before the last '/', so a
   * texture path starts with the mesh source up to and including that '/'.
   */
  lemma MaterialDirBesideSource(source: string, p: string)
    requires LastSlash(source) > 0
    ensures MaterialDir(source) == source[..LastSlash(source)]
    ensures TexturePath(MaterialDir(source), p)[..LastSlash(source) + 1] == source[..LastSlash(source) + 1]
  {
    var s := LastSlash(source);
    assert TexturePath(source[..s], p)[..s + 1] == source[..s] + "/";
    assert source[..s + 1] == source[..s] + [source[s]];
  }

  /** A leading ".\" is dropped from the material's path, and only that. */
  lemma TexturePathStripsDotBackslash(dir: string, p: string)
    ensures |p| >= 2 && p[0] == '.' && p[1] == '\\' ==> TexturePath(dir, p) == dir + "/" + p[2..]
    ensures !(|p| >= 2 && p[0] == '.' && p[1] == '\\') ==> TexturePath(dir, p) == dir + "/" + p
  {
    if |p| >= 2 && p[0] == '.' && p[1] == '\\' {
      assert p[..2] == ".\\";
    }
  }

  // ---------------------------------------------------------------------
  // Mesh entries.

  /**
   * MeshEntry. MaterialIndex is an int32_t, so the header's
   * INVALID_MATERIAL (0xFFFFFFFF) is stored as -1.
   */
  datatype MeshEntry = MeshEntry(numIndices: nat, baseVertex: nat, baseIndex: nat, materialIndex: int)

  const INVALID_MATERIAL: nat := 0xFFFF_FFFF

  /** The value a uint32_t takes when stored in an int32_t. */
  function ToInt32(v: nat): (r: int)
    ensures -0x8000_0000 <= r < 0x8000_0000
    ensures v < 0x8000_0000 ==> r == v
  {
    var w := v % 0x1_0000_0000;
    if w < 0x8000_0000 then w else w - 0x1_0000_0000
  }

  /** A default-constructed MeshEntry. */
  function DefaultEntry(): (e: MeshEntry)
    ensures e.numIndices == 0 && e.baseVertex == 0 && e.baseIndex == 0 && e.materialIndex == -1
  {
    MeshEntry(0, 0, 0, ToInt32(INVALID_MATERIAL))
  }

  function VertexCount(meshes: seq<Mesh>): nat
  {
    if meshes == [] then 0 else VertexCount(meshes[..|meshes| - 1]) + |meshes[|meshes| - 1].positions|
  }

  function IndexCount(meshes: seq<Mesh>): nat
  {
    if meshes == [] then 0 else IndexCount(meshes[..|meshes| - 1]) + 3 * |meshes[|meshes| - 1].faces|
  }

  /** The entry of mesh k: 3 indices per face, and the vertices and indices of the meshes before it as bases. */
  function EntryOf(meshes: seq<Mesh>, k: nat): MeshEntry
    requires k < |meshes|
  {
    MeshEntry(3 * |meshes[k].faces|, VertexCount(meshes[..k]), IndexCount(meshes[..k]), ToInt32(meshes[k].materialIndex))
  }

  /** Each mesh's vertices and indices start where the previous mesh's end. */
  lemma EntriesAreContiguous(meshes: seq<Mesh>, k: nat)
    requires k + 1 < |meshes|
    ensures EntryOf(meshes, k + 1).baseVertex == EntryOf(meshes, k).baseVertex + |meshes[k].positions|
    ensures EntryOf(meshes, k + 1).baseIndex == EntryOf(meshes, k).baseIndex + EntryOf(meshes, k).numIndices
  {
    assert meshes[..k + 1][..k] == meshes[..k];
  }

  /** The first entry starts at vertex 0 and index 0. */
  lemma FirstEntryAtZero(meshes: seq<Mesh>)
    requires |meshes| > 0
    ensures EntryOf(meshes, 0).baseVertex == 0 && EntryOf(meshes, 0).baseIndex == 0
  {
  }
}
