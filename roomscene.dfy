// RoomScene: the built-in demo room. A Model owns fixed arrays of vertices
// and 16-bit indices that box builders append to; a RoomScene holds up to
// ten models, renders them in insertion order and deletes them newest
// first. The procedural grid textures are filled pixel by pixel. The same
// Model and container are duplicated, with only the vector types changed,
// in the renderer that predates Device.
module RoomScenes {
  import opened Common

  /** Vertices[2000] and Indices[2000]: the fixed maxima, never checked. */
  const MaxVertices: nat := 2000
  const MaxIndices: nat := 2000
  /** Models[10]. */
  const MaxModels: nat := 10

  /** A DWORD colour, 0xAARRGGBB as the literals are written. */
  type Dword = x: int | 0 <= x < 0x1_0000_0000

  /** The `GLushort(...)` conversion: the value modulo 2^16. */
  function ToUshort(x: int): (r: int)
    ensures 0 <= r < 0x1_0000
    ensures 0 <= x < 0x1_0000 ==> r == x
  {
    x % 0x1_0000
  }

  datatype TexCoord = TexCoord(s: real, t: real)

  /** One entry of the Vert table: a corner and its texture coordinate. */
  datatype Corner = Corner(pos: Vec3, uv: TexCoord)

  datatype Vertex = Vertex(pos: Vec3, color: Dword, uv: TexCoord)

  // ---------------------------------------------------------------------
  // The box builder's tables.

  /**
   * The CubeIndices table read as six rows of six: face f's two
   * triangles.
   */
  function Face(f: nat): (r: seq<int>)
    requires f < 6
    ensures |r| == 6
  {
    if f == 0 then [0, 1, 3, 3, 1, 2]
    else if f == 1 then [5, 4, 6, 6, 4, 7]
    else if f == 2 then [8, 9, 11, 11, 9, 10]
    else if f == 3 then [13, 12, 14, 14, 12, 15]
    else if f == 4 then [16, 17, 19, 19, 17, 18]
    else [21, 20, 22, 22, 20, 23]
  }

  /** Entry k of CubeIndices. */
  function CubeIndex(k: nat): int
    requires k < 36
  {
    Face(k / 6)[k % 6]
  }

  /** Face f's triangles use exactly the quad 4f .. 4f+3. */
  lemma FaceQuad(f: nat)
    requires f < 6
    ensures forall j :: 0 <= j < 6 ==> 4 * f <= Face(f)[j] < 4 * f + 4
    ensures forall v :: 4 * f <= v < 4 * f + 4 ==> v in Face(f)
  {
  }

  /**
   * Every triangle of face f uses only the face's own quad, vertices
   * 4f .. 4f+3, each face references all four of them, and so every
   * entry names one of the 24 box vertices.
   */
  lemma CubeIndicesStayOnTheirFace()
    ensures forall f, j :: 0 <= f < 6 && 0 <= j < 6 ==> 4 * f <= Face(f)[j] < 4 * f + 4
    ensures forall f, v :: 0 <= f < 6 && 4 * f <= v < 4 * f + 4 ==> v in Face(f)
    ensures forall k :: 0 <= k < 36 ==> 4 * (k / 6) <= CubeIndex(k) < 4 * (k / 6) + 4 && 0 <= CubeIndex(k) < 24
  {
    forall f | 0 <= f < 6
      ensures forall j :: 0 <= j < 6 ==> 4 * f <= Face(f)[j] < 4 * f + 4
      ensures forall v :: 4 * f <= v < 4 * f + 4 ==> v in Face(f)
    {
      FaceQuad(f);
    }
  }

  /** The Vert table for the box with corners (x1, y1, z1) and (x2, y2, z2). */
  function BoxCorners(x1: real, y1: real, z1: real, x2: real, y2: real, z2: real): (r: seq<Corner>)
    ensures |r| == 24
  {
    [Corner(Vec3(x1, y2, z1), TexCoord(z1, x1)), Corner(Vec3(x2, y2, z1), TexCoord(z1, x2)),
     Corner(Vec3(x2, y2, z2), TexCoord(z2, x2)), Corner(Vec3(x1, y2, z2), TexCoord(z2, x1)),
     Corner(Vec3(x1, y1, z1), TexCoord(z1, x1)), Corner(Vec3(x2, y1, z1), TexCoord(z1, x2)),
     Corner(Vec3(x2, y1, z2), TexCoord(z2, x2)), Corner(Vec3(x1, y1, z2), TexCoord(z2, x1)),
     Corner(Vec3(x1, y1, z2), TexCoord(z2, y1)), Corner(Vec3(x1, y1, z1), TexCoord(z1, y1)),
     Corner(Vec3(x1, y2, z1), TexCoord(z1, y2)), Corner(Vec3(x1, y2, z2), TexCoord(z2, y2)),
     Corner(Vec3(x2, y1, z2), TexCoord(z2, y1)), Corner(Vec3(x2, y1, z1), TexCoord(z1, y1)),
     Corner(Vec3(x2, y2, z1), TexCoord(z1, y2)), Corner(Vec3(x2, y2, z2), TexCoord(z2, y2)),
     Corner(Vec3(x1, y1, z1), TexCoord(x1, y1)), Corner(Vec3(x2, y1, z1), TexCoord(x2, y1)),
     Corner(Vec3(x2, y2, z1), TexCoord(x2, y2)), Corner(Vec3(x1, y2, z1), TexCoord(x1, y2)),
     Corner(Vec3(x1, y1, z2), TexCoord(x1, y1)), Corner(Vec3(x2, y1, z2), TexCoord(x2, y1)),
     Corner(Vec3(x2, y2, z2), TexCoord(x2, y2)), Corner(Vec3(x1, y2, z2), TexCoord(x1, y2))]
  }

  /** The plane face f lies in: top, bottom, left, right, back, front. */
  predicate OnFace(f: nat, x1: real, y1: real, z1: real, x2: real, y2: real, z2: real, p: Vec3)
  {
    match f
    case 0 => p.y == y2
    case 1 => p.y == y1
    case 2 => p.x == x1
    case 3 => p.x == x2
    case 4 => p.z == z1
    case _ => p.z == z2
  }

  /**
   * The quad of face f lies in the face's plane, and each corner's
   * texture coordinate is its position projected onto that plane: (z, x)
   * on the horizontal faces, (z, y) on the x faces, (x, y) on the z faces.
   */
  lemma BoxCornersFormFaces(x1: real, y1: real, z1: real, x2: real, y2: real, z2: real)
    ensures forall v :: 0 <= v < 24 ==> OnFace(v / 4, x1, y1, z1, x2, y2, z2, BoxCorners(x1, y1, z1, x2, y2, z2)[v].pos)
    ensures forall v :: 0 <= v < 8 ==> BoxCorners(x1, y1, z1, x2, y2, z2)[v].uv == TexCoord(BoxCorners(x1, y1, z1, x2, y2, z2)[v].pos.z, BoxCorners(x1, y1, z1, x2, y2, z2)[v].pos.x)
    ensures forall v :: 8 <= v < 16 ==> BoxCorners(x1, y1, z1, x2, y2, z2)[v].uv == TexCoord(BoxCorners(x1, y1, z1, x2, y2, z2)[v].pos.z, BoxCorners(x1, y1, z1, x2, y2, z2)[v].pos.y)
    ensures forall v :: 16 <= v < 24 ==> BoxCorners(x1, y1, z1, x2, y2, z2)[v].uv == TexCoord(BoxCorners(x1, y1, z1, x2, y2, z2)[v].pos.x, BoxCorners(x1, y1, z1, x2, y2, z2)[v].pos.y)
  {
  }

  // ---------------------------------------------------------------------
  // Token lighting.

  /** `X > 255 ? 255 : DWORD(X)` for the channel value X = byte * factor. */
  function Channel(byte: int, factor: real): (r: int)
    requires 0 <= byte < 256 && factor >= 0.0
    ensures 0 <= r <= 255
    ensures r as real <= byte as real * factor
    ensures byte as real * factor < 256.0 ==> byte as real * factor < r as real + 1.0
  {
    var v := byte as real * factor;
    if v > 255.0 then 255 else v.Floor
  }

  /** A colour from its four bytes, alpha highest. */
  function Pack(a: int, r: int, g: int, b: int): (c: Dword)
    requires 0 <= a < 256 && 0 <= r < 256 && 0 <= g < 256 && 0 <= b < 256
  {
    a * 0x100_0000 + r * 0x1_0000 + g * 0x100 + b
  }

  /** The four bytes of a colour, alpha highest. */
  function AlphaByte(c: Dword): int { c / 0x100_0000 }
  function RedByte(c: Dword): int { c / 0x1_0000 % 0x100 }
  function GreenByte(c: Dword): int { c / 0x100 % 0x100 }
  function BlueByte(c: Dword): int { c % 0x100 }

  /** Pack and the byte selectors are inverse to each other. */
  lemma PackBytes(a: int, r: int, g: int, b: int)
    requires 0 <= a < 256 && 0 <= r < 256 && 0 <= g < 256 && 0 <= b < 256
    ensures AlphaByte(Pack(a, r, g, b)) == a && RedByte(Pack(a, r, g, b)) == r
    ensures GreenByte(Pack(a, r, g, b)) == g && BlueByte(Pack(a, r, g, b)) == b
  {
    var c := Pack(a, r, g, b);
    assert c == (a * 0x100 + r) * 0x1_0000 + (g * 0x100 + b);
    assert c / 0x1_0000 == a * 0x100 + r;
    assert c == (a * 0x1_0000 + r * 0x100 + g) * 0x100 + b;
    assert c / 0x100 == a * 0x1_0000 + r * 0x100 + g;
  }

  lemma UnpackBytes(c: Dword)
    ensures 0 <= AlphaByte(c) < 256 && 0 <= RedByte(c) < 256 && 0 <= GreenByte(c) < 256 && 0 <= BlueByte(c) < 256
    ensures Pack(AlphaByte(c), RedByte(c), GreenByte(c), BlueByte(c)) == c
  {
    var h := c / 0x1_0000;
    var l := c % 0x1_0000;
    assert c == h * 0x1_0000 + l;
    assert h == AlphaByte(c) * 0x100 + RedByte(c);
    assert l == GreenByte(c) * 0x100 + BlueByte(c);
  }

  /**
   * A vertex colour: c's alpha bits (c & 0xff000000) are kept; the byte at
   * bits 16-23 is scaled into the low byte and the low byte into bits
   * 16-23, green staying in the middle; each scaled byte is clamped.
   * `factor` is the per-vertex brightness (bri + 192 * (0.65 + 8/d1 + 1/d2
   * + 4/d3)) / 255, which needs rand() and float distances.
   */
  function Shade(c: Dword, factor: real): Dword
    requires factor >= 0.0
  {
    UnpackBytes(c);
    Pack(AlphaByte(c), Channel(BlueByte(c), factor), Channel(GreenByte(c), factor), Channel(RedByte(c), factor))
  }

  /**
   * The shaded colour keeps c's alpha byte and holds three clamped bytes;
   * at factor 1 it is exactly c with its red and blue bytes exchanged.
   */
  lemma ShadeBytes(c: Dword, factor: real)
    requires factor >= 0.0
    ensures AlphaByte(Shade(c, factor)) == AlphaByte(c)
    ensures RedByte(Shade(c, factor)) == Channel(BlueByte(c), factor) <= 255
    ensures GreenByte(Shade(c, factor)) == Channel(GreenByte(c), factor) <= 255
    ensures BlueByte(Shade(c, factor)) == Channel(RedByte(c), factor) <= 255
    ensures factor == 1.0 ==> Shade(c, factor) == Pack(AlphaByte(c), BlueByte(c), GreenByte(c), RedByte(c))
  {
    UnpackBytes(c);
    PackBytes(AlphaByte(c), Channel(BlueByte(c), factor), Channel(GreenByte(c), factor), Channel(RedByte(c), factor));
  }

  /** The 24 vertices AddSolidColorBox appends, given each vertex's brightness. */
  function BoxVertices(x1: real, y1: real, z1: real, x2: real, y2: real, z2: real, c: Dword, shade: seq<real>): (r: seq<Vertex>)
    requires |shade| == 24 && forall v :: 0 <= v < 24 ==> shade[v] >= 0.0
    ensures |r| == 24
  {
    var corners := BoxCorners(x1, y1, z1, x2, y2, z2);
    seq(24, v requires 0 <= v < 24 => Vertex(corners[v].pos, Shade(c, shade[v]), corners[v].uv))
  }

  /** The 36 indices AddSolidColorBox appends to a model holding `base` vertices. */
  function BoxIndices(base: int): (r: seq<int>)
    ensures |r| == 36
  {
    seq(36, k requires 0 <= k < 36 => ToUshort(CubeIndex(k) + ToUshort(base)))
  }

  /**
   * Within the 2000-vertex capacity no index wraps: index k is
   * CubeIndex(k) offset by the old vertex count, it names one of the
   * 24 new vertices, and each group of six stays on its face's quad.
   */
  lemma BoxIndicesAreOffset(base: int)
    requires 0 <= base && base + 24 <= MaxVertices
    ensures forall k :: 0 <= k < 36 ==> BoxIndices(base)[k] == CubeIndex(k) + base
    ensures forall k :: 0 <= k < 36 ==> base <= BoxIndices(base)[k] < base + 24
    ensures forall k :: 0 <= k < 36 ==> base + 4 * (k / 6) <= BoxIndices(base)[k] < base + 4 * (k / 6) + 4
  {
    CubeIndicesStayOnTheirFace();
    assert ToUshort(base) == base;
    forall k | 0 <= k < 36
      ensures BoxIndices(base)[k] == CubeIndex(k) + base
    {
      assert 0 <= CubeIndex(k) + base < 0x1_0000;
    }
  }

  // ---------------------------------------------------------------------
  // Model.

  class Model {
    const vertices: array<Vertex>
    const indices: array<int>
    var numVertices: int
    var numIndices: int
    /** Pos: the model's translation; the moving box's is animated. */
    var position: Vec3
    /** Fill->program, the program the model is drawn with. */
    const program: nat

    ghost predicate Valid()
      reads this
    {
      vertices.Length == MaxVertices && indices.Length == MaxIndices && vertices != indices as object
    }

    ghost function Vertices(): seq<Vertex>
      reads this, vertices
      requires 0 <= numVertices <= vertices.Length
    {
      vertices[..numVertices]
    }

    ghost function Indices(): seq<int>
      reads this, indices
      requires 0 <= numIndices <= indices.Length
    {
      indices[..numIndices]
    }

    constructor (pos: Vec3, fill: nat)
      ensures Valid() && fresh(vertices) && fresh(indices)
      ensures numVertices == 0 && numIndices == 0 && position == pos && program == fill
    {
      vertices := new Vertex[MaxVertices](_ => Vertex(Zero3, 0, TexCoord(0.0, 0.0)));
      indices := new int[MaxIndices];
      numVertices := 0;
      numIndices := 0;
      position := pos;
      program := fill;
    }

    /** Vertices[numVertices++] = v, with no bounds check. */
    method AddVertex(v: Vertex)
      requires Valid() && 0 <= numVertices < vertices.Length
      modifies this`numVertices, vertices
      ensures numVertices == old(numVertices) + 1
      ensures vertices[..] == old(vertices[..])[old(numVertices) := v]
      ensures vertices[..numVertices] == old(vertices[..numVertices]) + [v]
    {
      vertices[numVertices] := v;
      numVertices := numVertices + 1;
    }

    /** Indices[numIndices++] = a, with no bounds check. */
    method AddIndex(a: int)
      requires Valid() && 0 <= numIndices < indices.Length
      modifies this`numIndices, indices
      ensures numIndices == old(numIndices) + 1
      ensures indices[..] == old(indices[..])[old(numIndices) := ToUshort(a)]
      ensures indices[..numIndices] == old(indices[..numIndices]) + [ToUshort(a)]
    {
      indices[numIndices] := ToUshort(a);
      numIndices := numIndices + 1;
    }

    /**
     * Appends the box's 36 offset indices, then its 24 shaded vertices;
     * nothing already stored changes.
     */
    method AddSolidColorBox(x1: real, y1: real, z1: real, x2: real, y2: real, z2: real, c: Dword, shade: seq<real>)
      requires Valid()
      requires 0 <= numVertices && numVertices + 24 <= MaxVertices
      requires 0 <= numIndices && numIndices + 36 <= MaxIndices
      requires |shade| == 24 && forall v :: 0 <= v < 24 ==> shade[v] >= 0.0
      modifies this`numVertices, this`numIndices, vertices, indices
      ensures numVertices == old(numVertices) + 24 && numIndices == old(numIndices) + 36
      ensures Indices() == old(Indices()) + BoxIndices(old(numVertices))
      ensures Vertices() == old(Vertices()) + BoxVertices(x1, y1, z1, x2, y2, z2, c, shade)
    {
      AddBoxIndices();
      AddBoxVertices(x1, y1, z1, x2, y2, z2, c, shade);
    }

    /** The index loop of AddSolidColorBox. */
    method AddBoxIndices()
      requires Valid() && 0 <= numIndices && numIndices + 36 <= MaxIndices
      modifies this`numIndices, indices
      ensures numIndices == old(numIndices) + 36
      ensures Indices() == old(Indices()) + BoxIndices(numVertices)
    {
      ghost var before := Indices();
      ghost var box := BoxIndices(numVertices);
      for i := 0 to 36
        invariant numIndices == old(numIndices) + i
        invariant indices[..numIndices] == before + box[..i]
      {
        var entry := CubeIndex(i) + ToUshort(numVertices);
        assert ToUshort(entry) == box[i];
        AddIndex(entry);
        assert box[..i + 1] == box[..i] + [box[i]];
      }
    }

    /** The vertex loop of AddSolidColorBox. */
    method AddBoxVertices(x1: real, y1: real, z1: real, x2: real, y2: real, z2: real, c: Dword, shade: seq<real>)
      requires Valid() && 0 <= numVertices && numVertices + 24 <= MaxVertices
      requires |shade| == 24 && forall v :: 0 <= v < 24 ==> shade[v] >= 0.0
      modifies this`numVertices, vertices
      ensures numVertices == old(numVertices) + 24
      ensures Vertices() == old(Vertices()) + BoxVertices(x1, y1, z1, x2, y2, z2, c, shade)
    {
      ghost var before := Vertices();
      ghost var box := BoxVertices(x1, y1, z1, x2, y2, z2, c, shade);
      var corners := BoxCorners(x1, y1, z1, x2, y2, z2);
      for v := 0 to 24
        invariant numVertices == old(numVertices) + v
        invariant vertices[..numVertices] == before + box[..v]
      {
        AddVertex(Vertex(corners[v].pos, Shade(c, shade[v]), corners[v].uv));
        assert box[..v + 1] == box[..v] + [box[v]];
      }
    }
  }

  /**
   * After a box is added the model still indexes only vertices it holds:
   * if every old index was below the old vertex count, every index is
   * below the new one.
   */
  lemma BoxKeepsIndicesInRange(oldIndices: seq<int>, oldCount: int)
    requires 0 <= oldCount && oldCount + 24 <= MaxVertices
    requires forall k :: 0 <= k < |oldIndices| ==> oldIndices[k] < oldCount
    ensures forall k :: 0 <= k < |oldIndices| + 36 ==> (oldIndices + BoxIndices(oldCount))[k] < oldCount + 24
  {
    BoxIndicesAreOffset(oldCount);
  }

  // ---------------------------------------------------------------------
  // Procedural textures (the k loop of Init, one 256 x 256 image each).

  datatype Pattern = Floor | Wall | Ceiling | Blank

  /** The four materials, in the order grid_material[0..3] are made. */
  function PatternOf(k: nat): Pattern
    requires k < 4
  {
    [Floor, Wall, Ceiling, Blank][k]
  }

  /** a ^ b on the values 0 and 1. */
  function XorBit(a: nat, b: nat): (r: nat)
    requires a < 2 && b < 2
    ensures r < 2 && (r == 1 <==> a != b)
  {
    if a == b then 0 else 1
  }

  /** A C comparison used as an integer. */
  function BoolToInt(b: bool): nat { if b then 1 else 0 }

  /**
   * The pixel tex_pixels[j * 256 + i] receives, written as the code does;
   * on these non-negative operands x >> n is x / 2^n and x & (2^n - 1) is
   * x % 2^n.
   */
  function PatternPixel(p: Pattern, i: nat, j: nat): Dword
    requires i < 256 && j < 256
  {
    match p
    case Floor => if XorBit(i / 128, j / 128) % 2 != 0 then 0xffb4b4b4 else 0xff505050
    case Wall =>
      if (j / 4) % 16 == 0
        || ((i / 4) % 16 == 0 && XorBit(BoolToInt((i / 4) % 32 == 0), (j / 4 / 16) % 2) == 0)
      then 0xff3c3c3c else 0xffb4b4b4
    case Ceiling => if i / 4 == 0 || j / 4 == 0 then 0xff505050 else 0xffb4b4b4
    case Blank => 0xffffffff
  }

  // The pictures the patterns draw, for pixels of the 256 x 256 image.

  /** The floor is a checkerboard of four 128-pixel squares. */
  lemma FloorPicture(i: nat, j: nat)
    requires i < 256 && j < 256
    ensures PatternPixel(Floor, i, j) == if (i < 128) != (j < 128) then 0xffb4b4b4 else 0xff505050
  {
    assert i / 128 == if i < 128 then 0 else 1;
    assert j / 128 == if j < 128 then 0 else 1;
  }

  /** The ceiling is light with dark 4-pixel borders along its first rows and columns; blank is opaque white. */
  lemma CeilingPicture(i: nat, j: nat)
    requires i < 256 && j < 256
    ensures PatternPixel(Ceiling, i, j) == if i < 4 || j < 4 then 0xff505050 else 0xffb4b4b4
    ensures PatternPixel(Blank, i, j) == 0xffffffff
  {
  }

  /**
   * The wall is bricks: 4-pixel mortar rows every 64 pixels, and 4-pixel
   * vertical joints every 64 pixels that shift by 64 from one brick row
   * to the next.
   */
  lemma WallPicture(i: nat, j: nat)
    requires i < 256 && j < 256
    ensures PatternPixel(Wall, i, j) ==
      if j % 64 < 4 || (i % 64 < 4 && ((i % 128 < 4) <==> (j / 64 % 2 == 1))) then 0xff3c3c3c else 0xffb4b4b4
  {
    QuarterMod16(i);
    QuarterMod16(j);
    QuarterMod32(i);
    assert j / 4 / 16 == j / 64;
  }

  lemma QuarterMod16(x: nat)
    requires x < 256
    ensures (x / 4) % 16 == 0 <==> x % 64 < 4
  {
    assert x / 4 == 16 * (x / 64) + (x % 64) / 4;
  }

  lemma QuarterMod32(x: nat)
    requires x < 256
    ensures (x / 4) % 32 == 0 <==> x % 128 < 4
  {
    assert x / 4 == 32 * (x / 128) + (x % 128) / 4;
  }

  /** The 256 x 256 image of a material, row j at offsets j * 256 .. j * 256 + 255. */
  ghost function PatternImage(p: Pattern): (r: seq<Dword>)
    ensures |r| == 256 * 256
  {
    seq(256 * 256, q requires 0 <= q < 256 * 256 => PatternPixel(p, q % 256, q / 256))
  }

  /** The j and i loops filling tex_pixels for material k. */
  method FillPattern(k: nat, pixels: array<Dword>)
    requires k < 4 && pixels.Length == 256 * 256
    modifies pixels
    ensures pixels[..] == PatternImage(PatternOf(k))
  {
    for j := 0 to 256
      invariant forall q :: 0 <= q < j * 256 ==> pixels[q] == PatternPixel(PatternOf(k), q % 256, q / 256)
    {
      for i := 0 to 256
        invariant forall q :: 0 <= q < j * 256 + i ==> pixels[q] == PatternPixel(PatternOf(k), q % 256, q / 256)
      {
        assert (j * 256 + i) % 256 == i && (j * 256 + i) / 256 == j;
        if k == 0 { pixels[j * 256 + i] := PatternPixel(Floor, i, j); }
        if k == 1 { pixels[j * 256 + i] := PatternPixel(Wall, i, j); }
        if k == 2 { pixels[j * 256 + i] := PatternPixel(Ceiling, i, j); }
        if k == 3 { pixels[j * 256 + i] := PatternPixel(Blank, i, j); }
      }
    }
  }

  /**
   * The k loop of Init: the one static pixel buffer is refilled for each
   * material and its contents uploaded as that material's texture.
   */
  method MakeMaterials(pixels: array<Dword>) returns (textures: seq<seq<Dword>>)
    requires pixels.Length == 256 * 256
    modifies pixels
    ensures |textures| == 4
    ensures forall k :: 0 <= k < 4 ==> textures[k] == PatternImage(PatternOf(k))
  {
    textures := [];
    for k := 0 to 4
      invariant |textures| == k
      invariant forall m :: 0 <= m < k ==> textures[m] == PatternImage(PatternOf(m))
    {
      FillPattern(k, pixels);
      textures := textures + [pixels[..]];
    }
  }

  // ---------------------------------------------------------------------
  // RoomScene.

  /** The GL calls CreateShader makes, with the compile status it reads. */
  datatype ShaderCall =
    | CreateShaderCall(stage: int, handle: nat)
    | ShaderSource(shader: nat)
    | CompileShader(shader: nat)
    | GetCompileStatus(shader: nat, compiled: bool)
    | GetShaderInfoLog(shader: nat)

  function Reversed<T>(s: seq<T>): (r: seq<T>)
    ensures |r| == |s|
  {
    if s == [] then [] else Reversed(s[1..]) + [s[0]]
  }

  /** Position k of the reversal is position |s| - 1 - k of the original. */
  lemma {:induction false} ReversedAt<T>(s: seq<T>, k: nat)
    requires k < |s|
    ensures Reversed(s)[k] == s[|s| - 1 - k]
  {
    if k < |s| - 1 {
      ReversedAt(s[1..], k);
    }
  }

  class RoomScene {
    const models: array<Model?>
    var numModels: int
    /** The models whose Render was called, oldest first. */
    var rendered: seq<Model?>
    /** The models deleted, in deletion order. */
    var deleted: seq<Model?>
    var shaderCalls: seq<ShaderCall>

    /** RoomScene(): numModels(0); Init (the geometry) is not part of this model. */
    constructor ()
      ensures fresh(models) && models.Length == MaxModels && numModels == 0
      ensures rendered == [] && deleted == [] && shaderCalls == []
    {
      models := new Model?[MaxModels](_ => null);
      numModels := 0;
      rendered := [];
      deleted := [];
      shaderCalls := [];
    }

    /** Models[numModels++] = n, with no bounds check. */
    method Add(n: Model?)
      requires 0 <= numModels < models.Length
      modifies this`numModels, models
      ensures numModels == old(numModels) + 1
      ensures models[..] == old(models[..])[old(numModels) := n]
    {
      models[numModels] := n;
      numModels := numModels + 1;
    }

    /** Renders models 0 .. numModels - 1 in that order. */
    method Render()
      requires numModels <= models.Length
      modifies this`rendered
      ensures rendered == old(rendered) + (if numModels > 0 then models[..numModels] else [])
    {
      for i := 0 to if numModels > 0 then numModels else 0
        invariant rendered == old(rendered) + models[..i]
      {
        rendered := rendered + [models[i]];
        assert models[..i + 1] == models[..i] + [models[i]];
      }
    }

    /**
     * CreateShader: the handle glCreateShader returned if the compile
     * succeeded, 0 otherwise (the failed shader is not deleted).
     */
    method CreateShader(stage: int, handle: nat, compiled: bool) returns (shader: nat)
      modifies this`shaderCalls
      ensures shader == if compiled then handle else 0
      ensures shaderCalls == old(shaderCalls)
        + [CreateShaderCall(stage, handle), ShaderSource(handle), CompileShader(handle), GetCompileStatus(handle, compiled)]
        + (if compiled then [] else [GetShaderInfoLog(handle)])
    {
      shaderCalls := shaderCalls + [CreateShaderCall(stage, handle), ShaderSource(handle), CompileShader(handle), GetCompileStatus(handle, compiled)];
      if !compiled {
        shaderCalls := shaderCalls + [GetShaderInfoLog(handle)];
        return 0;
      }
      return handle;
    }

    /**
     * while (numModels-- > 0) delete Models[numModels]: the models go
     * newest first, and the counter ends one below zero (or one below
     * where it was, if it was not positive), so a second Release deletes
     * nothing.
     */
    method Release()
      requires numModels <= models.Length
      modifies this`numModels, this`deleted
      ensures numModels == (if old(numModels) > 0 then 0 else old(numModels)) - 1
      ensures deleted == old(deleted) + Reversed(if old(numModels) > 0 then models[..old(numModels)] else [])
    {
      ghost var n := if numModels > 0 then numModels else 0;
      var positive := numModels > 0;
      numModels := numModels - 1;
      while positive
        invariant positive ==> 0 <= numModels < n
        invariant !positive ==> numModels == (if old(numModels) > 0 then 0 else old(numModels)) - 1
        invariant deleted == old(deleted) + Reversed(models[if positive then numModels + 1 else 0..n])
        decreases numModels + 1
      {
        assert models[numModels..n][1..] == models[numModels + 1..n];
        deleted := deleted + [models[numModels]];
        positive := numModels > 0;
        numModels := numModels - 1;
      }
      assert models[..n] == models[0..n];
    }
  }
}
