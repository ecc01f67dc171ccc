// ShaderProgram: links a list of compiled shaders. Every edit of the list
// invalidates the link; the per-frame update links once all shaders are
// compiled, validates, and then looks up the locations of the uniforms the
// lighting and skinning shaders declare.
module ShaderPrograms {
  import opened Common
  import opened Gl
  import Shaders

  const MAX_POINT_LIGHTS: nat := 4
  const MAX_SPOT_LIGHTS: nat := 4
  const MAX_BONES: nat := 100

  /** The capacity of the `char Name[128]` buffer the names are formatted into. */
  const NameBufferSize: nat := 128

  // ---------------------------------------------------------------------
  // Uniform names.

  /** The uniforms with a fixed name, in the order the update looks them up. */
  const PlainNames: seq<string> := [
    "uMVP", "uModel", "uColorMap", "uEyeWorldPos",
    "uDirectionalLight.Base.Color", "uDirectionalLight.Base.AmbientIntensity",
    "uDirectionalLight.Direction", "uDirectionalLight.Base.DiffuseIntensity",
    "uMatSpecularIntensity", "uSpecularPower", "uNumPointLights", "uNumSpotLights"]

  /** The members of one point light, in lookup order. */
  const PointMembers: seq<string> := [
    "Base.Color", "Base.AmbientIntensity", "Position", "Base.DiffuseIntensity",
    "Atten.Constant", "Atten.Linear", "Atten.Exp"]

  /** The members of one spot light, in lookup order. */
  const SpotMembers: seq<string> := [
    "Base.Base.Color", "Base.Base.AmbientIntensity", "Base.Position", "Direction", "Cutoff",
    "Base.Base.DiffuseIntensity", "Base.Atten.Constant", "Base.Atten.Linear", "Base.Atten.Exp"]

  /**
   * The uniforms a successful link looks up, by what they name: fixed name
   * k, member m of point light i, member m of spot light i, or bone i.
   */
  datatype UniformSlot =
    | Global(index: nat)
    | PointLightMember(light: nat, member: nat)
    | SpotLightMember(light: nat, member: nat)
    | Bone(index: nat)

  /** A slot the location fields of the header provide for. */
  predicate Declared(u: UniformSlot)
  {
    match u
    case Global(k) => k < |PlainNames|
    case PointLightMember(i, m) => i < MAX_POINT_LIGHTS && m < |PointMembers|
    case SpotLightMember(i, m) => i < MAX_SPOT_LIGHTS && m < |SpotMembers|
    case Bone(i) => i < MAX_BONES
  }

  /**
   * The name formatted for a slot: `"uPointLights[%d].<member>"`,
   * `"uSpotLights[%d].<member>"`, `"uBones[%d]"` or the fixed name. A
   * member index outside the tables has no text.
   */
  function Text(u: UniformSlot): string
  {
    match u
    case Global(k) => if k < |PlainNames| then PlainNames[k] else ""
    case PointLightMember(i, m) => "uPointLights[" + NatToString(i) + "]." + (if m < |PointMembers| then PointMembers[m] else "")
    case SpotLightMember(i, m) => "uSpotLights[" + NatToString(i) + "]." + (if m < |SpotMembers| then SpotMembers[m] else "")
    case Bone(i) => "uBones[" + NatToString(i) + "]"
  }

  /** The twelve fixed names, in lookup order. */
  function PlainSlots(): (r: seq<UniformSlot>)
    ensures |r| == |PlainNames|
  {
    seq(|PlainNames|, k requires 0 <= k => Global(k))
  }

  /** The seven slots of point light i, in the loop's order. */
  function PointLightSlots(i: nat): (r: seq<UniformSlot>)
    ensures |r| == |PointMembers|
  {
    seq(|PointMembers|, m requires 0 <= m => PointLightMember(i, m))
  }

  /** The nine slots of spot light i, in the loop's order. */
  function SpotLightSlots(i: nat): (r: seq<UniformSlot>)
    ensures |r| == |SpotMembers|
  {
    seq(|SpotMembers|, m requires 0 <= m => SpotLightMember(i, m))
  }

  /** What the point-light loop looks up for lights 0..n-1, light 0 first. */
  function PointSlotsUpTo(n: nat): (r: seq<UniformSlot>)
    ensures |r| == 7 * n
  {
    seq(7 * n, k requires 0 <= k => PointLightMember(k / 7, k % 7))
  }

  function SpotSlotsUpTo(n: nat): (r: seq<UniformSlot>)
    ensures |r| == 9 * n
  {
    seq(9 * n, k requires 0 <= k => SpotLightMember(k / 9, k % 9))
  }

  function BoneSlots(n: nat): (r: seq<UniformSlot>)
    ensures |r| == n
  {
    seq(n, i requires 0 <= i => Bone(i))
  }

  /** Everything a successful link looks up, in order. */
  function AllSlots(): seq<UniformSlot>
  {
    PlainSlots() + PointSlotsUpTo(MAX_POINT_LIGHTS) + SpotSlotsUpTo(MAX_SPOT_LIGHTS) + BoneSlots(MAX_BONES)
  }

  /** One more iteration of the point-light loop appends light n's seven slots. */
  lemma PointSlotsStep(n: nat)
    ensures PointSlotsUpTo(n + 1) == PointSlotsUpTo(n) + PointLightSlots(n)
  {
    var a, b := PointSlotsUpTo(n + 1), PointSlotsUpTo(n) + PointLightSlots(n);
    forall k | 0 <= k < |a|
      ensures a[k] == b[k]
    {
      if k >= 7 * n {
        assert k / 7 == n && k % 7 == k - 7 * n;
      }
    }
  }

  lemma SpotSlotsStep(n: nat)
    ensures SpotSlotsUpTo(n + 1) == SpotSlotsUpTo(n) + SpotLightSlots(n)
  {
    var a, b := SpotSlotsUpTo(n + 1), SpotSlotsUpTo(n) + SpotLightSlots(n);
    forall k | 0 <= k < |a|
      ensures a[k] == b[k]
    {
      if k >= 9 * n {
        assert k / 9 == n && k % 9 == k - 9 * n;
      }
    }
  }

  /**
   * The lookup order: the 12 fixed names, then the 7 members of each
   * point light, the 9 members of each spot light and the 100 bones, 176
   * lookups in all, every one of them a declared slot.
   */
  lemma SlotsLayout()
    ensures |AllSlots()| == |PlainNames| + 7 * MAX_POINT_LIGHTS + 9 * MAX_SPOT_LIGHTS + MAX_BONES == 176
    ensures forall k | 0 <= k < |PlainNames| :: AllSlots()[k] == Global(k)
    ensures forall i, m | 0 <= i < MAX_POINT_LIGHTS && 0 <= m < |PointMembers| ::
      AllSlots()[12 + 7 * i + m] == PointLightMember(i, m)
    ensures forall i, m | 0 <= i < MAX_SPOT_LIGHTS && 0 <= m < |SpotMembers| ::
      AllSlots()[40 + 9 * i + m] == SpotLightMember(i, m)
    ensures forall i | 0 <= i < MAX_BONES :: AllSlots()[76 + i] == Bone(i)
    ensures forall k | 0 <= k < |AllSlots()| :: Declared(AllSlots()[k])
  {
    var all := AllSlots();
    forall i, m | 0 <= i < MAX_POINT_LIGHTS && 0 <= m < |PointMembers|
      ensures all[12 + 7 * i + m] == PointLightMember(i, m)
    {
      assert (7 * i + m) / 7 == i && (7 * i + m) % 7 == m;
    }
    forall i, m | 0 <= i < MAX_SPOT_LIGHTS && 0 <= m < |SpotMembers|
      ensures all[40 + 9 * i + m] == SpotLightMember(i, m)
    {
      assert (9 * i + m) / 9 == i && (9 * i + m) % 9 == m;
    }
  }

  lemma SingleDigit(i: nat)
    requires i < 10
    ensures NatToString(i) == [DigitChar(i)]
  {
  }

  /** At most three digits for a bone slot. */
  lemma ShortNumber(i: nat)
    requires i < 1000
    ensures |NatToString(i)| <= 3
  {
    if i >= 100 {
      assert NatToString(i / 10 / 10) == [DigitChar(i / 10 / 10)];
    }
  }

  /**
   * No declared name is cut off: each fits in the 128-byte buffer with its
   * terminating NUL.
   */
  lemma NamesFitBuffer(u: UniformSlot)
    requires Declared(u)
    ensures |Text(u)| < NameBufferSize
  {
    match u
    case Global(k) =>
    case PointLightMember(i, m) => SingleDigit(i);
    case SpotLightMember(i, m) => SingleDigit(i);
    case Bone(i) => ShortNumber(i);
  }

  /** Each table lists distinct names. */
  lemma TablesDistinct()
    ensures forall m, n | 0 <= m < n < |PlainNames| :: PlainNames[m] != PlainNames[n]
    ensures forall m, n | 0 <= m < n < |PointMembers| :: PointMembers[m] != PointMembers[n]
    ensures forall m, n | 0 <= m < n < |SpotMembers| :: SpotMembers[m] != SpotMembers[n]
  {
  }

  /** The characters that tell the four kinds of name apart. */
  lemma TextStart(u: UniformSlot)
    requires Declared(u)
    ensures |Text(u)| >= 4
    ensures u.PointLightMember? ==> Text(u)[1] == 'P'
    ensures u.SpotLightMember? ==> Text(u)[1] == 'S' && Text(u)[3] == 'o'
    ensures u.Bone? ==> Text(u)[1] == 'B'
    ensures u.Global? ==> Text(u)[1] != 'P' && Text(u)[1] != 'B' && (Text(u)[1] == 'S' ==> Text(u)[3] != 'o')
  {
    if u.Global? {
      GlobalTextStart(u.index);
    }
  }

  lemma GlobalTextStart(k: nat)
    requires k < |PlainNames|
    ensures |PlainNames[k]| >= 4 && PlainNames[k][1] in "MCEDNS"
    ensures PlainNames[k][1] == 'S' ==> PlainNames[k][3] == 'e'
  {
    var names := PlainNames;
    if k < 4 {
      assert names[0] == "uMVP" && names[1] == "uModel" && names[2] == "uColorMap" && names[3] == "uEyeWorldPos";
    } else if k < 8 {
      assert names[4][..4] == names[5][..4] == names[6][..4] == names[7][..4] == "uDir";
    } else {
      assert names[8] == "uMatSpecularIntensity" && names[9] == "uSpecularPower";
      assert names[10] == "uNumPointLights" && names[11] == "uNumSpotLights";
    }
  }

  /**
   * Distinct declared slots get distinct names, so every location field
   * holds the answer for its own uniform.
   */
  lemma TextInjective(u: UniformSlot, v: UniformSlot)
    requires Declared(u) && Declared(v) && u != v
    ensures Text(u) != Text(v)
  {
    TextStart(u);
    TextStart(v);
    var x, y := Text(u), Text(v);
    if u.Global? && v.Global? {
      TablesDistinct();
    } else if u.PointLightMember? && v.PointLightMember? {
      SingleDigit(u.light);
      SingleDigit(v.light);
      if u.light != v.light {
        assert x[13] != y[13];
      } else {
        TablesDistinct();
        assert x[16..] == PointMembers[u.member] && y[16..] == PointMembers[v.member];
      }
    } else if u.SpotLightMember? && v.SpotLightMember? {
      SingleDigit(u.light);
      SingleDigit(v.light);
      if u.light != v.light {
        assert x[12] != y[12];
      } else {
        TablesDistinct();
        assert x[15..] == SpotMembers[u.member] && y[15..] == SpotMembers[v.member];
      }
    } else if u.Bone? && v.Bone? {
      var a, b := NatToString(u.index), NatToString(v.index);
      if |a| == |b| {
        assert a == x[7..7 + |a|] && b == y[7..7 + |b|];
        if a == b {
          NatToStringInjective(u.index, v.index);
        }
      }
    } else {
      assert x[1] != y[1] || x[3] != y[3];
    }
  }

  // ---------------------------------------------------------------------
  // Uniform locations.

  datatype PointSlots = PointSlots(
    color: int, ambientIntensity: int, diffuseIntensity: int, position: int,
    attenConstant: int, attenLinear: int, attenExp: int)

  datatype SpotSlots = SpotSlots(
    color: int, ambientIntensity: int, diffuseIntensity: int, position: int,
    direction: int, cutoff: int, attenConstant: int, attenLinear: int, attenExp: int)

  /** The location fields of ShaderProgram. */
  datatype Locations = Locations(
    mvp: int, model: int, colorTexture: int, eyeWorldPos: int,
    dirColor: int, dirAmbientIntensity: int, dirDirection: int, dirDiffuseIntensity: int,
    matSpecularIntensity: int, matSpecularPower: int, numPointLights: int, numSpotLights: int,
    point: seq<PointSlots>, spot: seq<SpotSlots>, bones: seq<int>)
  {
    /** One slot per array element of the header. */
    predicate Sized()
    {
      |point| == MAX_POINT_LIGHTS && |spot| == MAX_SPOT_LIGHTS && |bones| == MAX_BONES
    }
  }

  /** Point light i's fields; members are numbered in lookup order. */
  function PointSlotsOf(lookup: string -> int, i: nat): PointSlots
  {
    var at := (m: nat) => lookup(Text(PointLightMember(i, m)));
    PointSlots(at(0), at(1), at(3), at(2), at(4), at(5), at(6))
  }

  function SpotSlotsOf(lookup: string -> int, i: nat): SpotSlots
  {
    var at := (m: nat) => lookup(Text(SpotLightMember(i, m)));
    SpotSlots(at(0), at(1), at(5), at(2), at(3), at(4), at(6), at(7), at(8))
  }

  /** The GetUniformLocation calls for `slots`, in order, on `program`. */
  function Lookups(program: nat, slots: seq<UniformSlot>): (r: seq<Call>)
    ensures |r| == |slots|
  {
    seq(|slots|, k requires 0 <= k < |slots| => GetUniformLocation(program, Text(slots[k])))
  }

  lemma LookupsAppend(program: nat, a: seq<UniformSlot>, b: seq<UniformSlot>)
    ensures Lookups(program, a + b) == Lookups(program, a) + Lookups(program, b)
  {
  }

  /** What a link issues: the old program deleted, a new one created, every shader attached, and the link. */
  function RelinkCalls(oldHandle: nat, created: nat, shaderHandles: seq<nat>): (r: seq<Call>)
    ensures |r| > 0 && r[|r| - 1] == LinkProgram(created)
  {
    (if oldHandle != 0 then [DeleteProgram(oldHandle)] else [])
      + [CreateProgram(created)] + AttachCalls(created, shaderHandles) + [LinkProgram(created)]
  }

  /** What a validation issues: glValidateProgram, then every uniform lookup when it succeeds. */
  function ValidateCalls(program: nat, valid: bool): (r: seq<Call>)
    ensures |r| > 0 && r[0] == ValidateProgram(program)
    ensures |r| == 1 + (if valid then |AllSlots()| else 0)
  {
    [ValidateProgram(program)] + (if valid then Lookups(program, AllSlots()) else [])
  }

  /** The lookups of all slots are those of the fixed names, then the three loops'. */
  lemma AllLookups(program: nat, before: seq<Call>)
    ensures before + Lookups(program, AllSlots()) == before + Lookups(program, PlainSlots()) + Lookups(program, PointSlotsUpTo(MAX_POINT_LIGHTS))
      + Lookups(program, SpotSlotsUpTo(MAX_SPOT_LIGHTS)) + Lookups(program, BoneSlots(MAX_BONES))
  {
    LookupsAppend(program, PlainSlots(), PointSlotsUpTo(MAX_POINT_LIGHTS));
    LookupsAppend(program, PlainSlots() + PointSlotsUpTo(MAX_POINT_LIGHTS), SpotSlotsUpTo(MAX_SPOT_LIGHTS));
    LookupsAppend(program, PlainSlots() + PointSlotsUpTo(MAX_POINT_LIGHTS) + SpotSlotsUpTo(MAX_SPOT_LIGHTS),
      BoneSlots(MAX_BONES));
  }

  // ---------------------------------------------------------------------
  // A shader's readiness for linking.

  /** The link gate: at least two shaders, each with a handle and compiled. */
  ghost predicate CanLink(shaders: seq<Shaders.Shader>)
    reads set k | 0 <= k < |shaders| :: shaders[k]
  {
    |shaders| >= 2 && forall k | 0 <= k < |shaders| :: shaders[k].handle != 0 && shaders[k].CompileStatus()
  }

  /** The handles of the shaders, in list order. */
  ghost function HandlesOf(shaders: seq<Shaders.Shader>): (r: seq<nat>)
    reads set k | 0 <= k < |shaders| :: shaders[k]
    ensures |r| == |shaders|
    ensures forall k | 0 <= k < |shaders| :: r[k] == shaders[k].handle
  {
    seq(|shaders|, k reads shaders requires 0 <= k < |shaders| => shaders[k].handle)
  }

  function AttachCalls(program: nat, handles: seq<nat>): (r: seq<Call>)
    ensures |r| == |handles|
    ensures forall k | 0 <= k < |handles| :: r[k] == AttachShader(program, handles[k])
  {
    seq(|handles|, k requires 0 <= k < |handles| => AttachShader(program, handles[k]))
  }

  datatype Signal =
    | HandleChanged(handle: nat)
    | LinkStatusChanged(linked: bool)
    | LinkInfoLogChanged(log: string)

  /** Uploads of `setPointLights(n, …)`: the count, then the seven slots of each light below n. */
  function PointUploads(loc: Locations, n: nat): (r: seq<Call>)
    requires loc.Sized() && n <= MAX_POINT_LIGHTS
    ensures |r| == 1 + 7 * n
  {
    if n == 0 then [Uniform(loc.numPointLights)]
    else
      var p := loc.point[n - 1];
      PointUploads(loc, n - 1)
      + [Uniform(p.color), Uniform(p.ambientIntensity), Uniform(p.diffuseIntensity), Uniform(p.position),
         Uniform(p.attenConstant), Uniform(p.attenLinear), Uniform(p.attenExp)]
  }

  /** The locations of light i's slots. */
  function PointSlotSet(p: PointSlots): set<int>
  {
    {p.color, p.ambientIntensity, p.diffuseIntensity, p.position, p.attenConstant, p.attenLinear, p.attenExp}
  }

  /** Uploads of `setSpotLights(n, …)`. */
  function SpotUploads(loc: Locations, n: nat): (r: seq<Call>)
    requires loc.Sized() && n <= MAX_SPOT_LIGHTS
    ensures |r| == 1 + 9 * n
  {
    if n == 0 then [Uniform(loc.numSpotLights)]
    else
      var p := loc.spot[n - 1];
      SpotUploads(loc, n - 1)
      + [Uniform(p.color), Uniform(p.ambientIntensity), Uniform(p.diffuseIntensity), Uniform(p.position),
         Uniform(p.direction), Uniform(p.cutoff), Uniform(p.attenConstant), Uniform(p.attenLinear),
         Uniform(p.attenExp)]
  }

  function SpotSlotSet(p: SpotSlots): set<int>
  {
    {p.color, p.ambientIntensity, p.diffuseIntensity, p.position, p.direction, p.cutoff,
     p.attenConstant, p.attenLinear, p.attenExp}
  }

  /**
   * `setPointLights(n, …)` uploads the count first and then touches only
   * the slots of lights 0..n-1.
   */
  lemma {:induction false} PointUploadsStayInSlots(loc: Locations, n: nat)
    requires loc.Sized() && n <= MAX_POINT_LIGHTS
    ensures PointUploads(loc, n)[0] == Uniform(loc.numPointLights)
    ensures forall k | 1 <= k < |PointUploads(loc, n)| ::
      PointUploads(loc, n)[k].Uniform? &&
      exists i | 0 <= i < n :: PointUploads(loc, n)[k].location in PointSlotSet(loc.point[i])
    decreases n
  {
    if n > 0 {
      PointUploadsStayInSlots(loc, n - 1);
      var r := PointUploads(loc, n);
      var prefix := PointUploads(loc, n - 1);
      assert r[..|prefix|] == prefix;
      forall k | 1 <= k < |r|
        ensures r[k].Uniform? && exists i | 0 <= i < n :: r[k].location in PointSlotSet(loc.point[i])
      {
        if k < |prefix| {
          assert r[k] == prefix[k];
        } else {
          assert r[k].location in PointSlotSet(loc.point[n - 1]);
        }
      }
    }
  }

  lemma {:induction false} SpotUploadsStayInSlots(loc: Locations, n: nat)
    requires loc.Sized() && n <= MAX_SPOT_LIGHTS
    ensures SpotUploads(loc, n)[0] == Uniform(loc.numSpotLights)
    ensures forall k | 1 <= k < |SpotUploads(loc, n)| ::
      SpotUploads(loc, n)[k].Uniform? &&
      exists i | 0 <= i < n :: SpotUploads(loc, n)[k].location in SpotSlotSet(loc.spot[i])
    decreases n
  {
    if n > 0 {
      SpotUploadsStayInSlots(loc, n - 1);
      var r := SpotUploads(loc, n);
      var prefix := SpotUploads(loc, n - 1);
      assert r[..|prefix|] == prefix;
      forall k | 1 <= k < |r|
        ensures r[k].Uniform? && exists i | 0 <= i < n :: r[k].location in SpotSlotSet(loc.spot[i])
      {
        if k < |prefix| {
          assert r[k] == prefix[k];
        } else {
          assert r[k].location in SpotSlotSet(loc.spot[n - 1]);
        }
      }
    }
  }

  class ShaderProgram {
    var shaders: seq<Shaders.Shader>
    var handle: nat
    /** The GLint status as the driver reported it. */
    var status: int
    var infoLog: string
    var locations: Locations
    var calls: seq<Call>
    var signals: seq<Signal>

    ghost predicate Valid()
      reads this
    {
      locations.Sized()
    }

    /** linkStatus(): the stored status is GL_TRUE. */
    predicate LinkStatus()
      reads this
    {
      status == GL_TRUE
    }

    /**
     * The location fields have no initialiser; `initial` stands for
     * whatever they hold before the first successful link.
     */
    constructor (initial: Locations)
      requires initial.Sized()
      ensures Valid()
      ensures shaders == [] && handle == 0 && status == GL_FALSE && !LinkStatus() && infoLog == ""
      ensures locations == initial && calls == [] && signals == []
    {
      shaders := [];
      handle := 0;
      status := GL_FALSE;
      infoLog := "";
      locations := initial;
      calls := [];
      signals := [];
    }

    method SetHandle(newHandle: nat)
      modifies this`handle, this`signals
      ensures handle == newHandle
      ensures signals == old(signals) + IfChanged(old(handle), newHandle, HandleChanged(newHandle))
    {
      if handle != newHandle {
        handle := newHandle;
        signals := signals + [HandleChanged(newHandle)];
      }
    }

    method SetLinkStatus(newStatus: int)
      modifies this`status, this`signals
      ensures status == newStatus
      ensures signals == old(signals) + IfChanged(old(status), newStatus, LinkStatusChanged(newStatus != 0))
    {
      if status != newStatus {
        status := newStatus;
        signals := signals + [LinkStatusChanged(newStatus != 0)];
      }
    }

    method SetLinkInfoLog(newLog: string)
      modifies this`infoLog, this`signals
      ensures infoLog == newLog
      ensures signals == old(signals) + IfChanged(old(infoLog), newLog, LinkInfoLogChanged(newLog))
    {
      if infoLog != newLog {
        infoLog := newLog;
        signals := signals + [LinkInfoLogChanged(newLog)];
      }
    }

    method AppendShader(s: Shaders.Shader)
      modifies this`shaders, this`status, this`signals
      ensures shaders == old(shaders) + [s] && status == GL_FALSE && !LinkStatus()
      ensures signals == old(signals) + IfChanged(old(status), GL_FALSE, LinkStatusChanged(false))
    {
      shaders := shaders + [s];
      SetLinkStatus(GL_FALSE);
    }

    method ClearShaders()
      modifies this`shaders, this`status, this`signals
      ensures shaders == [] && status == GL_FALSE && !LinkStatus()
      ensures signals == old(signals) + IfChanged(old(status), GL_FALSE, LinkStatusChanged(false))
    {
      shaders := [];
      SetLinkStatus(GL_FALSE);
    }

    /** QVector::operator[] demands an index in range. */
    method ReplaceShader(index: nat, s: Shaders.Shader)
      requires index < |shaders|
      modifies this`shaders, this`status, this`signals
      ensures shaders == old(shaders)[index := s] && status == GL_FALSE && !LinkStatus()
      ensures signals == old(signals) + IfChanged(old(status), GL_FALSE, LinkStatusChanged(false))
    {
      shaders := shaders[index := s];
      SetLinkStatus(GL_FALSE);
    }

    /** QVector::removeLast demands a non-empty vector. */
    method RemoveLastShader()
      requires |shaders| > 0
      modifies this`shaders, this`status, this`signals
      ensures shaders == old(shaders)[..|old(shaders)| - 1] && status == GL_FALSE && !LinkStatus()
      ensures signals == old(signals) + IfChanged(old(status), GL_FALSE, LinkStatusChanged(false))
    {
      shaders := shaders[..|shaders| - 1];
      SetLinkStatus(GL_FALSE);
    }

    method Bind()
      modifies this`calls
      ensures calls == old(calls) + [UseProgram(handle)]
    {
      calls := calls + [UseProgram(handle)];
    }

    method OnInit()
      modifies this`status, this`signals
      ensures status == GL_FALSE
      ensures signals == old(signals) + IfChanged(old(status), GL_FALSE, LinkStatusChanged(false))
    {
      SetLinkStatus(GL_FALSE);
    }

    /** glDeleteProgram is issued even for handle 0, which GL ignores. */
    method OnShutdown()
      modifies this`handle, this`status, this`calls, this`signals
      ensures handle == 0 && status == GL_FALSE
      ensures calls == old(calls) + [DeleteProgram(old(handle))]
      ensures signals == old(signals) + IfChanged(old(handle), 0, HandleChanged(0))
        + IfChanged(old(status), GL_FALSE, LinkStatusChanged(false))
    {
      calls := calls + [DeleteProgram(handle)];
      SetHandle(0);
      SetLinkStatus(GL_FALSE);
    }

    /** The loop of the link gate that inspects every shader. */
    method AllShadersCompiled() returns (ok: bool)
      ensures ok <==> forall k | 0 <= k < |shaders| :: shaders[k].handle != 0 && shaders[k].CompileStatus()
    {
      var i := 0;
      while i < |shaders|
        invariant 0 <= i <= |shaders|
        invariant forall k | 0 <= k < i :: shaders[k].handle != 0 && shaders[k].CompileStatus()
      {
        if shaders[i].handle == 0 || !shaders[i].CompileStatus() {
          return false;
        }
        i := i + 1;
      }
      return true;
    }

    /** The loop attaching every shader, in list order, to the program. */
    method AttachShaders()
      modifies this`calls
      ensures calls == old(calls) + AttachCalls(handle, HandlesOf(shaders))
    {
      ghost var handles := HandlesOf(shaders);
      var i := 0;
      while i < |shaders|
        invariant 0 <= i <= |shaders|
        invariant calls == old(calls) + AttachCalls(handle, handles[..i])
      {
        calls := calls + [AttachShader(handle, shaders[i].handle)];
        i := i + 1;
        assert AttachCalls(handle, handles[..i]) == AttachCalls(handle, handles[..i - 1]) + [AttachShader(handle, handles[i - 1])];
      }
      assert handles[..i] == handles;
    }

    /** `getUniformLocation(name)` for one slot. */
    method UniformLocation(lookup: string -> int, u: UniformSlot) returns (location: int)
      modifies this`calls
      ensures location == lookup(Text(u))
      ensures calls == old(calls) + Lookups(handle, [u])
    {
      calls := calls + [GetUniformLocation(handle, Text(u))];
      location := lookup(Text(u));
    }

    /** One iteration of the point-light loop: the seven lookups of light i. */
    method LookUpPointLight(lookup: string -> int, i: nat) returns (p: PointSlots)
      modifies this`calls
      ensures p == PointSlotsOf(lookup, i)
      ensures calls == old(calls) + Lookups(handle, PointLightSlots(i))
    {
      var slots := PointLightSlots(i);
      calls := calls + Lookups(handle, slots);
      var at := (m: nat) => lookup(Text(PointLightMember(i, m)));
      p := PointSlots(at(0), at(1), at(3), at(2), at(4), at(5), at(6));
    }

    /** The point-light loop of the location lookup. */
    method LookUpPointLights(lookup: string -> int) returns (slots: seq<PointSlots>)
      modifies this`calls
      ensures slots == PointLocations(lookup)
      ensures calls == old(calls) + Lookups(handle, PointSlotsUpTo(MAX_POINT_LIGHTS))
    {
      slots := [];
      var i := 0;
      while i < MAX_POINT_LIGHTS
        invariant 0 <= i <= MAX_POINT_LIGHTS && |slots| == i
        invariant forall k | 0 <= k < i :: slots[k] == PointSlotsOf(lookup, k)
        invariant calls == old(calls) + Lookups(handle, PointSlotsUpTo(i))
      {
        var p := LookUpPointLight(lookup, i);
        slots := slots + [p];
        LookupsAppend(handle, PointSlotsUpTo(i), PointLightSlots(i));
        PointSlotsStep(i);
        i := i + 1;
      }
    }

    /** One iteration of the spot-light loop: the nine lookups of light i. */
    method LookUpSpotLight(lookup: string -> int, i: nat) returns (p: SpotSlots)
      modifies this`calls
      ensures p == SpotSlotsOf(lookup, i)
      ensures calls == old(calls) + Lookups(handle, SpotLightSlots(i))
    {
      var slots := SpotLightSlots(i);
      calls := calls + Lookups(handle, slots);
      var at := (m: nat) => lookup(Text(SpotLightMember(i, m)));
      p := SpotSlots(at(0), at(1), at(5), at(2), at(3), at(4), at(6), at(7), at(8));
    }

    /** The spot-light loop of the location lookup. */
    method LookUpSpotLights(lookup: string -> int) returns (slots: seq<SpotSlots>)
      modifies this`calls
      ensures slots == SpotLocations(lookup)
      ensures calls == old(calls) + Lookups(handle, SpotSlotsUpTo(MAX_SPOT_LIGHTS))
    {
      slots := [];
      var i := 0;
      while i < MAX_SPOT_LIGHTS
        invariant 0 <= i <= MAX_SPOT_LIGHTS && |slots| == i
        invariant forall k | 0 <= k < i :: slots[k] == SpotSlotsOf(lookup, k)
        invariant calls == old(calls) + Lookups(handle, SpotSlotsUpTo(i))
      {
        var p := LookUpSpotLight(lookup, i);
        slots := slots + [p];
        LookupsAppend(handle, SpotSlotsUpTo(i), SpotLightSlots(i));
        SpotSlotsStep(i);
        i := i + 1;
      }
    }

    /** The bone loop of the location lookup. */
    method LookUpBones(lookup: string -> int) returns (slots: seq<int>)
      modifies this`calls
      ensures slots == BoneLocations(lookup)
      ensures calls == old(calls) + Lookups(handle, BoneSlots(MAX_BONES))
    {
      slots := [];
      var i := 0;
      while i < MAX_BONES
        invariant 0 <= i <= MAX_BONES && |slots| == i
        invariant forall k | 0 <= k < i :: slots[k] == lookup(Text(Bone(k)))
        invariant calls == old(calls) + Lookups(handle, BoneSlots(i))
      {
        var location := UniformLocation(lookup, Bone(i));
        slots := slots + [location];
        LookupsAppend(handle, BoneSlots(i), [Bone(i)]);
        assert BoneSlots(i + 1) == BoneSlots(i) + [Bone(i)];
        i := i + 1;
      }
    }

    /**
     * The lookups after a successful validation: the twelve fixed names
     * one statement each, then the three loops. `lookup` is
     * glGetUniformLocation on this program.
     */
    method LookUpLocations(lookup: string -> int)
      modifies this`calls, this`locations
      ensures Valid()
      ensures calls == old(calls) + Lookups(handle, AllSlots())
      ensures locations == LocationsOf(lookup)
    {
      calls := calls + Lookups(handle, PlainSlots());
      var at := (k: nat) => lookup(Text(Global(k)));
      var point := LookUpPointLights(lookup);
      var spot := LookUpSpotLights(lookup);
      var bones := LookUpBones(lookup);
      locations := Locations(
        at(0), at(1), at(2), at(3), at(4), at(5), at(6), at(7), at(8), at(9), at(10), at(11),
        point, spot, bones);
      AllLookups(handle, old(calls));
    }

    /**
     * The per-frame update. `created` is what glCreateProgram returns,
     * `linkResult` and `validateResult` what glGetProgramiv reports for
     * GL_LINK_STATUS and GL_VALIDATE_STATUS, `driverLog` the program's
     * info log and `lookup` glGetUniformLocation on the new program.
     */
    method OnUpdate(created: nat, linkResult: int, validateResult: int, driverLog: string, lookup: string -> int)
      requires Valid()
      modifies this`handle, this`status, this`infoLog, this`locations, this`calls, this`signals
      ensures Valid() && shaders == old(shaders)
      ensures old(LinkStatus()) || !CanLink(shaders) ==>
        && handle == old(handle) && status == old(status) && infoLog == old(infoLog)
        && locations == old(locations) && calls == old(calls) && signals == old(signals)
      ensures !old(LinkStatus()) && CanLink(shaders) ==>
        var linked := linkResult == GL_TRUE;
        var valid := linked && validateResult == GL_TRUE;
        var log := if valid then "" else driverLog;
        && handle == created
        && status == (if linked then validateResult else linkResult)
        && (LinkStatus() <==> valid)
        && infoLog == log
        && locations == (if valid then LocationsOf(lookup) else old(locations))
        && calls == old(calls) + RelinkCalls(old(handle), created, HandlesOf(shaders))
          + (if linked then ValidateCalls(created, valid) else [])
        && signals == old(signals) + IfChanged(old(handle), created, HandleChanged(created))
          + IfChanged(old(status), linkResult, LinkStatusChanged(linkResult != 0))
          + (if linked then IfChanged(linkResult, validateResult, LinkStatusChanged(validateResult != 0)) else [])
          + IfChanged(old(infoLog), log, LinkInfoLogChanged(log))
    {
      if LinkStatus() {
        return;
      }
      if |shaders| < 2 {
        return;
      }
      var ready := AllShadersCompiled();
      if !ready {
        return;
      }
      Link(created, linkResult, validateResult, driverLog, lookup);
    }

    /** Everything the update does once the gate is open. */
    method Link(created: nat, linkResult: int, validateResult: int, driverLog: string, lookup: string -> int)
      requires Valid()
      modifies this`handle, this`status, this`infoLog, this`locations, this`calls, this`signals
      ensures Valid()
      ensures
        var linked := linkResult == GL_TRUE;
        var valid := linked && validateResult == GL_TRUE;
        var log := if valid then "" else driverLog;
        && handle == created
        && status == (if linked then validateResult else linkResult)
        && infoLog == log
        && locations == (if valid then LocationsOf(lookup) else old(locations))
        && calls == old(calls) + RelinkCalls(old(handle), created, HandlesOf(shaders))
          + (if linked then ValidateCalls(created, valid) else [])
        && signals == old(signals) + IfChanged(old(handle), created, HandleChanged(created))
          + IfChanged(old(status), linkResult, LinkStatusChanged(linkResult != 0))
          + (if linked then IfChanged(linkResult, validateResult, LinkStatusChanged(validateResult != 0)) else [])
          + IfChanged(old(infoLog), log, LinkInfoLogChanged(log))
    {
      Relink(created);
      SetLinkStatus(linkResult);
      if linkResult == GL_TRUE {
        Validate(validateResult, driverLog, lookup);
      } else {
        SetLinkInfoLog(driverLog);
      }
    }

    /** A new program object with every shader attached, and glLinkProgram on it. */
    method Relink(created: nat)
      modifies this`handle, this`calls, this`signals
      ensures handle == created
      ensures calls == old(calls) + RelinkCalls(old(handle), created, HandlesOf(shaders))
      ensures signals == old(signals) + IfChanged(old(handle), created, HandleChanged(created))
    {
      ghost var handles := HandlesOf(shaders);
      ReplaceProgramObject(created);
      AttachShaders();
      calls := calls + [LinkProgram(handle)];
      assert HandlesOf(shaders) == handles;
      AppendFour(old(calls), if old(handle) != 0 then [DeleteProgram(old(handle))] else [], [CreateProgram(created)],
        AttachCalls(created, handles), [LinkProgram(created)]);
    }

    /** The old program object deleted, if there is one, and a new one created in its place. */
    method ReplaceProgramObject(created: nat)
      modifies this`handle, this`calls, this`signals
      ensures handle == created
      ensures calls == old(calls) + (if old(handle) != 0 then [DeleteProgram(old(handle))] else []) + [CreateProgram(created)]
      ensures signals == old(signals) + IfChanged(old(handle), created, HandleChanged(created))
    {
      if handle != 0 {
        calls := calls + [DeleteProgram(handle)];
      }
      calls := calls + [CreateProgram(created)];
      SetHandle(created);
    }

    /** What the update does once glLinkProgram has succeeded. */
    method Validate(validateResult: int, driverLog: string, lookup: string -> int)
      requires Valid()
      modifies this`status, this`infoLog, this`locations, this`calls, this`signals
      ensures Valid()
      ensures
        var valid := validateResult == GL_TRUE;
        var log := if valid then "" else driverLog;
        && status == validateResult
        && infoLog == log
        && locations == (if valid then LocationsOf(lookup) else old(locations))
        && calls == old(calls) + ValidateCalls(handle, valid)
        && signals == old(signals) + IfChanged(old(status), validateResult, LinkStatusChanged(validateResult != 0))
          + IfChanged(old(infoLog), log, LinkInfoLogChanged(log))
    {
      calls := calls + [ValidateProgram(handle)];
      SetLinkStatus(validateResult);
      if validateResult == GL_TRUE {
        SetLinkInfoLog("");
        LookUpLocations(lookup);
      } else {
        SetLinkInfoLog(driverLog);
      }
    }

    /** `setPointLights(n, lights)`; the slot array has no bounds check, so n is at most 4. */
    method SetPointLights(n: nat)
      requires Valid() && n <= MAX_POINT_LIGHTS
      modifies this`calls
      ensures calls == old(calls) + PointUploads(locations, n)
    {
      calls := calls + [Uniform(locations.numPointLights)];
      var i := 0;
      while i < n
        invariant 0 <= i <= n
        invariant calls == old(calls) + PointUploads(locations, i)
      {
        var p := locations.point[i];
        calls := calls + [Uniform(p.color), Uniform(p.ambientIntensity), Uniform(p.diffuseIntensity), Uniform(p.position),
                          Uniform(p.attenConstant), Uniform(p.attenLinear), Uniform(p.attenExp)];
        i := i + 1;
      }
    }

    /** `setSpotLights(n, lights)`; n is at most 4 for the same reason. */
    method SetSpotLights(n: nat)
      requires Valid() && n <= MAX_SPOT_LIGHTS
      modifies this`calls
      ensures calls == old(calls) + SpotUploads(locations, n)
    {
      calls := calls + [Uniform(locations.numSpotLights)];
      var i := 0;
      while i < n
        invariant 0 <= i <= n
        invariant calls == old(calls) + SpotUploads(locations, i)
      {
        var p := locations.spot[i];
        calls := calls + [Uniform(p.color), Uniform(p.ambientIntensity), Uniform(p.diffuseIntensity), Uniform(p.position),
                          Uniform(p.direction), Uniform(p.cutoff), Uniform(p.attenConstant), Uniform(p.attenLinear),
                          Uniform(p.attenExp)];
        i := i + 1;
      }
    }
  }

  /** The location fields after a successful link, as `lookup` answers. */
  function PointLocations(lookup: string -> int): (r: seq<PointSlots>)
    ensures |r| == MAX_POINT_LIGHTS && forall i | 0 <= i < MAX_POINT_LIGHTS :: r[i] == PointSlotsOf(lookup, i)
  {
    seq(MAX_POINT_LIGHTS, i requires 0 <= i => PointSlotsOf(lookup, i))
  }

  function SpotLocations(lookup: string -> int): (r: seq<SpotSlots>)
    ensures |r| == MAX_SPOT_LIGHTS && forall i | 0 <= i < MAX_SPOT_LIGHTS :: r[i] == SpotSlotsOf(lookup, i)
  {
    seq(MAX_SPOT_LIGHTS, i requires 0 <= i => SpotSlotsOf(lookup, i))
  }

  function BoneLocations(lookup: string -> int): (r: seq<int>)
    ensures |r| == MAX_BONES && forall i | 0 <= i < MAX_BONES :: r[i] == lookup(Text(Bone(i)))
  {
    seq(MAX_BONES, i requires 0 <= i => lookup(Text(Bone(i))))
  }

  function LocationsOf(lookup: string -> int): (loc: Locations)
    ensures loc.Sized()
  {
    var at := (k: nat) => lookup(Text(Global(k)));
    Locations(
      at(0), at(1), at(2), at(3), at(4), at(5), at(6), at(7), at(8), at(9), at(10), at(11),
      PointLocations(lookup), SpotLocations(lookup), BoneLocations(lookup))
  }

  /** The fixed-name fields hold what the driver reports for those names. */
  lemma GlobalLocationsMatchNames(lookup: string -> int)
    ensures LocationsOf(lookup).mvp == lookup("uMVP")
    ensures LocationsOf(lookup).colorTexture == lookup("uColorMap")
    ensures LocationsOf(lookup).dirDirection == lookup("uDirectionalLight.Direction")
    ensures LocationsOf(lookup).dirDiffuseIntensity == lookup("uDirectionalLight.Base.DiffuseIntensity")
    ensures LocationsOf(lookup).matSpecularPower == lookup("uSpecularPower")
    ensures LocationsOf(lookup).numSpotLights == lookup("uNumSpotLights")
  {
    var loc := LocationsOf(lookup);
    assert loc.mvp == lookup(Text(Global(0))) && Text(Global(0)) == "uMVP";
    assert loc.colorTexture == lookup(Text(Global(2))) && Text(Global(2)) == "uColorMap";
    assert loc.dirDirection == lookup(Text(Global(6))) && Text(Global(6)) == "uDirectionalLight.Direction";
    assert loc.dirDiffuseIntensity == lookup(Text(Global(7))) && Text(Global(7)) == "uDirectionalLight.Base.DiffuseIntensity";
    assert loc.matSpecularPower == lookup(Text(Global(9))) && Text(Global(9)) == "uSpecularPower";
    assert loc.numSpotLights == lookup(Text(Global(11))) && Text(Global(11)) == "uNumSpotLights";
  }

  /** Point light i's fields hold what the driver reports for `uPointLights[i].<member>`. */
  lemma PointLocationsMatchNames(lookup: string -> int, i: nat)
    requires i < MAX_POINT_LIGHTS
    ensures LocationsOf(lookup).point[i].position == lookup("uPointLights[" + NatToString(i) + "]." + "Position")
    ensures LocationsOf(lookup).point[i].diffuseIntensity == lookup("uPointLights[" + NatToString(i) + "]." + "Base.DiffuseIntensity")
    ensures LocationsOf(lookup).point[i].attenExp == lookup("uPointLights[" + NatToString(i) + "]." + "Atten.Exp")
  {
    var p := LocationsOf(lookup).point[i];
    assert p == PointSlotsOf(lookup, i);
    assert p.position == lookup(Text(PointLightMember(i, 2))) && PointMembers[2] == "Position";
    assert p.diffuseIntensity == lookup(Text(PointLightMember(i, 3))) && PointMembers[3] == "Base.DiffuseIntensity";
    assert p.attenExp == lookup(Text(PointLightMember(i, 6))) && PointMembers[6] == "Atten.Exp";
  }

  /** Spot light i's fields hold what the driver reports for `uSpotLights[i].<member>`. */
  lemma SpotLocationsMatchNames(lookup: string -> int, i: nat)
    requires i < MAX_SPOT_LIGHTS
    ensures LocationsOf(lookup).spot[i].direction == lookup("uSpotLights[" + NatToString(i) + "]." + "Direction")
    ensures LocationsOf(lookup).spot[i].cutoff == lookup("uSpotLights[" + NatToString(i) + "]." + "Cutoff")
    ensures LocationsOf(lookup).spot[i].diffuseIntensity == lookup("uSpotLights[" + NatToString(i) + "]." + "Base.Base.DiffuseIntensity")
  {
    var p := LocationsOf(lookup).spot[i];
    assert p == SpotSlotsOf(lookup, i);
    assert p.direction == lookup(Text(SpotLightMember(i, 3))) && SpotMembers[3] == "Direction";
    assert p.cutoff == lookup(Text(SpotLightMember(i, 4))) && SpotMembers[4] == "Cutoff";
    assert p.diffuseIntensity == lookup(Text(SpotLightMember(i, 5))) && SpotMembers[5] == "Base.Base.DiffuseIntensity";
  }

  /** Bone i's field holds what the driver reports for `uBones[i]`. */
  lemma BoneLocationsMatchNames(lookup: string -> int, i: nat)
    requires i < MAX_BONES
    ensures LocationsOf(lookup).bones[i] == lookup("uBones[" + NatToString(i) + "]")
  {
    assert LocationsOf(lookup).bones[i] == lookup(Text(Bone(i)));
  }

  /**
   * Once linked, a program issues no GL call on later frames until its
   * shader list changes.
   */
  method LinkOnce(p: ShaderProgram, created: nat, again: nat, log: string, lookup: string -> int)
    requires p.Valid() && CanLink(p.shaders)
    requires p.status != GL_TRUE
    modifies p
    ensures p.LinkStatus() && p.infoLog == "" && p.handle == created
    ensures p.locations == LocationsOf(lookup)
    ensures |p.calls| >= |old(p.calls)|
    ensures p.calls[|old(p.calls)|..] == RelinkCalls(old(p.handle), created, HandlesOf(p.shaders)) + ValidateCalls(created, true)
  {
    ghost var start := p.calls;
    ghost var linkCalls := RelinkCalls(p.handle, created, HandlesOf(p.shaders)) + ValidateCalls(created, true);
    p.OnUpdate(created, GL_TRUE, GL_TRUE, log, lookup);
    assert p.calls == start + linkCalls;
    p.OnUpdate(again, GL_FALSE, GL_FALSE, log, lookup);
    assert p.calls == start + linkCalls;
    assert p.calls[|start|..] == linkCalls;
  }
}
