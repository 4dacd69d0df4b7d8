/**
  The CPU-side mesh of the render engine and its conversion to GPU buffers.
  A `CpuMesh` is a position list and a triangle index list with optional
  per-vertex names, colours, normals, texture coordinates and tangents; its
  methods fill some of those in place. `ToGpu` uploads it: every optional
  attribute becomes a storage buffer holding either the whole array or a single
  zero element, so that the bind group never sees an empty buffer.

  The face normal (normalised cross product) and the tangent generator are
  floating-point or foreign code and are parameters here.
 */
module VertexMesh {
  import opened Common
  import opened Gpu
  import Mikktspace

  /** The face normal of triangle (a, b, c): `(b - a).cross(c - a).normalize()`. */
  type FaceNormal = (Vec3, Vec3, Vec3) -> Vec3

  /** Component `c` of a vector, as glam's `v[c]`. */
  function Component(v: Vec3, c: nat): real
    requires c < 3
  {
    if c == 0 then v.x else if c == 1 then v.y else v.z
  }

  /** glam's `v[c] = x`. */
  function SetComponent(v: Vec3, c: nat, x: real): (r: Vec3)
    requires c < 3
    ensures forall d :: 0 <= d < 3 ==> Component(r, d) == if d == c then x else Component(v, d)
  {
    if c == 0 then v.(x := x) else if c == 1 then v.(y := x) else v.(z := x)
  }

  function Abs(x: int): nat {
    if x < 0 then -x else x
  }

  /**
    The triangle `make_axis_polys(axis, alternate)` builds: its middle corner is
    the unit vector along `axis`; for `alternate <= 0` the first corner, and
    otherwise the last, is 0.1 along axis `|alternate| % 3`; all else is zero.
   */
  predicate IsAxisPoly(p: seq<Vec3>, axis: nat, alternate: int)
    requires axis < 3
  {
    |p| == 3 &&
    forall c :: 0 <= c < 3 ==>
      Component(p[0], c) == (if alternate <= 0 && c == Abs(alternate) % 3 then 0.1 else 0.0) &&
      Component(p[1], c) == (if c == axis then 1.0 else 0.0) &&
      Component(p[2], c) == (if alternate > 0 && c == alternate % 3 then 0.1 else 0.0)
  }

  /** One entry of the coordinate-frame table: the triangle's arguments and its colour. */
  datatype AxisEntry = AxisEntry(axis: nat, alternate: int, color: Vec4)

  const Red := Vec4(1.0, 0.0, 0.0, 1.0)
  const Green := Vec4(0.0, 1.0, 0.0, 1.0)
  const Blue := Vec4(0.0, 0.0, 1.0, 1.0)

  /** Two triangles per axis, coloured red, green and blue for x, y and z. */
  const AxisTable: seq<AxisEntry> := [
    AxisEntry(0, 1, Red), AxisEntry(0, -1, Red),
    AxisEntry(1, 2, Green), AxisEntry(1, -2, Green),
    AxisEntry(2, 3, Blue), AxisEntry(2, -3, Blue)
  ]

  /** The name used when a mesh has none: it spells out the two list lengths. */
  function DefaultNamePrefix(positions: nat, indices: nat): string {
    "mesh_position_len_" + (NatToString(positions) + ("_index_len_" + NatToString(indices)))
  }

  /** The number of decimal digits `s` starts with. */
  function LeadingDigits(s: string): (n: nat)
    ensures n <= |s|
  {
    if s == [] || !('0' <= s[0] <= '9') then 0 else 1 + LeadingDigits(s[1..])
  }

  /** A number followed by an underscore: the digits run exactly as far as the number. */
  lemma {:induction false} LeadingDigitsOfNumber(a: string, rest: string)
    requires forall k :: 0 <= k < |a| ==> '0' <= a[k] <= '9'
    requires rest != [] && rest[0] == '_'
    ensures LeadingDigits(a + rest) == |a|
    decreases |a|
  {
    if a == [] {
      assert a + rest == rest;
    } else {
      assert (a + rest)[1..] == a[1..] + rest;
      LeadingDigitsOfNumber(a[1..], rest);
    }
  }

  /** Two concatenations with equally long first parts have equal parts. */
  lemma SplitEqual(x: string, y: string, x2: string, y2: string)
    requires x + y == x2 + y2 && |x| == |x2|
    ensures x == x2 && y == y2
  {
    assert x == (x + y)[..|x|];
    assert x2 == (x2 + y2)[..|x2|];
    assert y == (x + y)[|x|..];
    assert y2 == (x2 + y2)[|x2|..];
  }

  /** Distinct list lengths give distinct default names: the decimal parts can be read back. */
  lemma DefaultNamePrefixInjective(p1: nat, i1: nat, p2: nat, i2: nat)
    requires DefaultNamePrefix(p1, i1) == DefaultNamePrefix(p2, i2)
    ensures p1 == p2 && i1 == i2
  {
    var head := "mesh_position_len_";
    var middle := "_index_len_";
    var a, c := NatToString(p1), NatToString(i1);
    var b, d := NatToString(p2), NatToString(i2);
    SplitEqual(head, a + (middle + c), head, b + (middle + d));
    LeadingDigitsOfNumber(a, middle + c);
    LeadingDigitsOfNumber(b, middle + d);
    SplitEqual(a, middle + c, b, middle + d);
    SplitEqual(middle, c, middle, d);
    NatToStringInjective(p1, p2);
    NatToStringInjective(i1, i2);
  }

  /** The first `k` triangles name only vertices that exist. */
  predicate TrianglesInRange(position: seq<Vec3>, index: seq<u32>, k: nat) {
    3 * k <= |index| && forall j :: 0 <= j < 3 * k ==> index[j] < |position|
  }

  /** Vertex `v` is a corner of triangle `t`. */
  predicate InTriangle(index: seq<u32>, t: nat, v: nat)
    requires 3 * t + 2 < |index|
  {
    index[3 * t] == v || index[3 * t + 1] == v || index[3 * t + 2] == v
  }

  function FaceNormalOf(position: seq<Vec3>, index: seq<u32>, faceNormal: FaceNormal, t: nat): Vec3
    requires TrianglesInRange(position, index, t + 1)
  {
    faceNormal(position[index[3 * t]], position[index[3 * t + 1]], position[index[3 * t + 2]])
  }

  /**
    The normals after the first `k` triangles: one zero normal per vertex, then
    each triangle in turn stores its face normal at its three corners.
   */
  function Normals(position: seq<Vec3>, index: seq<u32>, faceNormal: FaceNormal, k: nat): (r: seq<Vec3>)
    requires TrianglesInRange(position, index, k)
    ensures |r| == |position|
    decreases k
  {
    if k == 0 then seq(|position|, _ => Vec3Zero)
    else
      var n := FaceNormalOf(position, index, faceNormal, k - 1);
      Normals(position, index, faceNormal, k - 1)[index[3 * k - 3] := n][index[3 * k - 2] := n][index[3 * k - 1] := n]
  }

  /** A vertex no triangle refers to keeps the zero normal. */
  lemma {:induction false} NormalsUnreferencedZero(position: seq<Vec3>, index: seq<u32>, faceNormal: FaceNormal, k: nat, v: nat)
    requires TrianglesInRange(position, index, k) && v < |position|
    requires forall t :: 0 <= t < k ==> !InTriangle(index, t, v)
    ensures Normals(position, index, faceNormal, k)[v] == Vec3Zero
    decreases k
  {
    if k > 0 {
      assert !InTriangle(index, k - 1, v);
      NormalsUnreferencedZero(position, index, faceNormal, k - 1, v);
    }
  }

  /** A vertex gets the normal of the last triangle that refers to it. */
  lemma {:induction false} NormalsLastTriangleWins(position: seq<Vec3>, index: seq<u32>, faceNormal: FaceNormal, k: nat, t: nat, v: nat)
    requires TrianglesInRange(position, index, k) && t < k && v < |position|
    requires InTriangle(index, t, v)
    requires forall s :: t < s < k ==> !InTriangle(index, s, v)
    ensures Normals(position, index, faceNormal, k)[v] == FaceNormalOf(position, index, faceNormal, t)
    decreases k
  {
    if t < k - 1 {
      assert !InTriangle(index, k - 1, v);
      NormalsLastTriangleWins(position, index, faceNormal, k - 1, t, v);
    }
  }

  /** One call the tangent generator makes to `set_tangent_encoded`. */
  datatype TangentCall = TangentCall(tangent: Vec4, face: nat, vert: nat)

  /** The stored form of a generated tangent: the handedness `w` is negated. */
  function EncodeTangent(t: Vec4): (r: Vec4)
    ensures r.w == -t.w && r.(w := t.w) == t
  {
    Vec4(t.x, t.y, t.z, -t.w)
  }

  /**
    The tangent list after the generator's calls, or `None` when one of the
    calls would index out of range and panic.
   */
  function TangentsAfter(tangents: seq<Vec4>, index: seq<u32>, calls: seq<TangentCall>): (r: Option<seq<Vec4>>)
    ensures r.Some? ==> |r.value| == |tangents|
    decreases |calls|
  {
    if calls == [] then Some(tangents)
    else
      var call := calls[|calls| - 1];
      match TangentsAfter(tangents, index, calls[..|calls| - 1])
      case None => None
      case Some(before) =>
        var i := Mikktspace.FaceVertToIndex(call.face, call.vert);
        if i < |index| && index[i] < |before| then Some(before[index[i] := EncodeTangent(call.tangent)])
        else None
  }

  /** Without panics, the generator writes only at vertices its calls name. */
  lemma {:induction false} TangentsAfterWritesOnlyNamedVertices(tangents: seq<Vec4>, index: seq<u32>, calls: seq<TangentCall>, v: nat)
    requires TangentsAfter(tangents, index, calls).Some? && v < |tangents|
    requires forall k :: 0 <= k < |calls| ==>
      var i := Mikktspace.FaceVertToIndex(calls[k].face, calls[k].vert);
      i < |index| ==> index[i] != v
    ensures TangentsAfter(tangents, index, calls).value[v] == tangents[v]
    decreases |calls|
  {
    if calls != [] {
      var prefix := calls[..|calls| - 1];
      assert forall k :: 0 <= k < |prefix| ==> prefix[k] == calls[k];
      TangentsAfterWritesOnlyNamedVertices(tangents, index, prefix, v);
    }
  }

  /** The fixed-size placeholders that stand in for an absent attribute. */
  const Vec3ASize: nat := 16
  const Vec2Size: nat := 8
  const Vec4Size: nat := 16
  /** `size_of::<Vec3>()`, the vertex stride. */
  const Vec3Size: nat := 12

  /**
    A storage buffer for an optional attribute: the whole array when present,
    one zero element otherwise.
   */
  function AttributeBuffer<T>(name: string, data: Option<seq<T>>, zero: T, stride: nat): (b: Buffer<T>)
    requires stride > 0
    ensures b.FromContents? && b.usage == {StorageUsage} && b.stride == stride && b.name == name
    ensures b.Size() == 0 <==> data == Some([])
    ensures data.Some? ==> b.contents == data.value
    ensures data.None? ==> b.contents == [zero] && b.Size() == stride
  {
    var b := FromContents(name, {StorageUsage}, if data.Some? then data.value else [zero], stride);
    assert b.Size() == |b.contents| * stride;
    b
  }

  const MeshBindingNormal: nat := 0
  const MeshBindingColor: nat := 1
  const MeshBindingUv: nat := 2
  const MeshBindingTangent: nat := 3

  function StorageEntry(binding: nat): LayoutEntry {
    LayoutEntry(binding, VertexFragment, StorageBuffer(true), None)
  }

  /** `GpuMesh::MESH_LAYOUT`: three read-only storage buffers, normal, colour and uv. */
  const MeshLayout := BindGroupLayout(Some("mesh_layout"), [
    StorageEntry(MeshBindingNormal), StorageEntry(MeshBindingColor), StorageEntry(MeshBindingUv)
  ])

  datatype VertexFormat = Float32x3
  datatype VertexAttribute = VertexAttribute(location: nat, format: VertexFormat, offset: nat)
  datatype VertexBufferLayout = VertexBufferLayout(arrayStride: nat, attributes: seq<VertexAttribute>)

  /** Positions only: one `Float32x3` at shader location 0, one `Vec3` per vertex. */
  const VertexLayout := VertexBufferLayout(Vec3Size, [VertexAttribute(0, Float32x3, 0)])

  lemma VertexLayoutCoversOnePosition()
    ensures |VertexLayout.attributes| == 1
    ensures VertexLayout.attributes[0].location == 0
    ensures VertexLayout.arrayStride == Vec3Size == 3 * 4
  {
  }

  /** The mesh as it lives on the GPU; independent of the `CpuMesh` it came from. */
  datatype GpuMesh = GpuMesh(
    name: string,
    bindGroup: BindGroup,
    vertexBuffer: Buffer<Vec3>,
    indexBuffer: Buffer<u32>,
    indexLength: u32,
    normalBuffer: Buffer<Vec3>,
    normalPresent: bool,
    colorBuffer: Buffer<Vec4>,
    colorPresent: bool,
    uvBuffer: Buffer<Vec2>,
    uvPresent: bool,
    tangentBuffer: Buffer<Vec4>,
    tangentPresent: bool)

  /** A mesh on the CPU. Nothing relates the lengths of its lists; no method checks them. */
  class CpuMesh {
    var position: seq<Vec3>
    var index: seq<u32>
    var name: Option<string>
    var color: Option<seq<Vec4>>
    var normal: Option<seq<Vec3>>
    var uv: Option<seq<Vec2>>
    var tangents: Option<seq<Vec4>>

    /** `CpuMesh::new`: positions and indices as given, every optional part absent. */
    constructor New(position: seq<Vec3>, index: seq<u32>)
      ensures this.position == position && this.index == index
      ensures name.None? && color.None? && normal.None? && uv.None? && tangents.None?
    {
      this.position := position;
      this.index := index;
      name := None;
      color := None;
      normal := None;
      uv := None;
      tangents := None;
    }

    /** `with_name`: sets the name and nothing else. */
    method WithName(n: string)
      modifies this
      ensures name == Some(n)
      ensures position == old(position) && index == old(index) && color == old(color)
      ensures normal == old(normal) && uv == old(uv) && tangents == old(tangents)
    {
      name := Some(n);
    }

    /** The prefix of every GPU label of this mesh. */
    function GetNamePrefix(): (r: string)
      reads this
      ensures name.Some? ==> r == name.value
      ensures name.None? ==> r == DefaultNamePrefix(|position|, |index|)
    {
      match name
      case Some(n) => n
      case None => DefaultNamePrefix(|position|, |index|)
    }

    /**
      `calculate_normals`: replaces the normals with one per position, computed
      triangle by triangle over the index list. An incomplete last triangle or
      an index past the positions panics, and then nothing has changed.
     */
    method CalculateNormals(faceNormal: FaceNormal) returns (r: Outcome<()>)
      modifies this
      ensures position == old(position) && index == old(index) && name == old(name)
      ensures color == old(color) && uv == old(uv) && tangents == old(tangents)
      ensures r.Ok? <==> |index| % 3 == 0 && TrianglesInRange(position, index, |index| / 3)
      ensures r.Ok? ==> normal == Some(Normals(position, index, faceNormal, |index| / 3))
      ensures !r.Ok? ==> r.Panic? && normal == old(normal)
    {
      var normals := ComputeNormals(position, index, faceNormal);
      if normals.Ok? {
        normal := Some(normals.value);
        return Ok(());
      }
      return Panic(normals.reason);
    }

    /**
      `calculate_tangents`: without texture coordinates or normals it reports
      false and changes nothing; otherwise it resets the tangents to one zero
      per position and lets the generator, whose calls are `calls` and whose
      verdict is `generated`, write them through `SetTangentEncoded`.
     */
    method CalculateTangents(calls: seq<TangentCall>, generated: bool) returns (r: Outcome<bool>)
      modifies this
      ensures position == old(position) && index == old(index) && name == old(name)
      ensures color == old(color) && normal == old(normal) && uv == old(uv)
      ensures old(uv).None? || old(normal).None? ==> r == Ok(false) && tangents == old(tangents)
      ensures old(uv).Some? && old(normal).Some? ==>
        var after := TangentsAfter(seq(|position|, _ => Vec4Zero), index, calls);
        (r.Ok? <==> after.Some?) &&
        (r.Ok? ==> r.value == generated && tangents == after) &&
        (!r.Ok? ==> r.Panic?)
    {
      if uv.None? || normal.None? {
        return Ok(false);
      }
      tangents := Some(seq(|position|, _ => Vec4Zero));
      ghost var zeros := tangents.value;
      var k := 0;
      while k < |calls|
        invariant 0 <= k <= |calls|
        invariant position == old(position) && index == old(index) && name == old(name)
        invariant color == old(color) && normal == old(normal) && uv == old(uv)
        invariant TangentsAfter(zeros, index, calls[..k]).Some?
        invariant tangents == TangentsAfter(zeros, index, calls[..k])
      {
        assert calls[..k + 1][..k] == calls[..k];
        var o := SetTangentEncoded(calls[k].tangent, calls[k].face, calls[k].vert);
        if !o.Ok? {
          assert TangentsAfter(zeros, index, calls[..k + 1]).None?;
          TangentsAfterStaysNone(zeros, index, calls, k + 1);
          return Panic(o.reason);
        }
        k := k + 1;
      }
      assert calls[..k] == calls;
      return Ok(generated);
    }

    /** The number of whole triangles, as the generator sees them. */
    function NumFaces(): (n: nat)
      reads this
      ensures 3 * n <= |index| < 3 * n + 3
    {
      Mikktspace.NumFaces(|index|)
    }

    /** Every face is a triangle. */
    function NumVerticesOfFace(face: nat): (n: nat)
      ensures n == Mikktspace.VerticesPerFace
    {
      3
    }

    /** The vertex at corner `vert` of face `face`; reading past the index list panics. */
    function VertexOf(face: nat, vert: nat): (r: Outcome<nat>)
      reads this
      ensures r.Ok? <==> Mikktspace.FaceVertToIndex(face, vert) < |index|
      ensures r.Ok? ==> r.value == index[Mikktspace.FaceVertToIndex(face, vert)]
      ensures !r.Ok? ==> r.Panic?
    {
      var i := Mikktspace.FaceVertToIndex(face, vert);
      if i < |index| then Ok(index[i]) else Panic("index out of bounds")
    }

    /** `Geometry::position`. */
    function Position(face: nat, vert: nat): (r: Outcome<Vec3>)
      reads this
      ensures r.Ok? <==> VertexOf(face, vert).Ok? && VertexOf(face, vert).value < |position|
      ensures r.Ok? ==> r.value == position[VertexOf(face, vert).value]
      ensures !r.Ok? ==> r.Panic?
    {
      match VertexOf(face, vert)
      case Ok(v) => if v < |position| then Ok(position[v]) else Panic("index out of bounds")
      case _ => Panic("index out of bounds")
    }

    /** `Geometry::normal`: panics when the mesh has no normals. */
    function Normal(face: nat, vert: nat): (r: Outcome<Vec3>)
      reads this
      ensures r.Ok? <==> VertexOf(face, vert).Ok? && normal.Some? && VertexOf(face, vert).value < |normal.value|
      ensures r.Ok? ==> r.value == normal.value[VertexOf(face, vert).value]
      ensures !r.Ok? ==> r.Panic?
    {
      match VertexOf(face, vert)
      case Ok(v) =>
        if normal.None? then Panic("called `Option::unwrap()` on a `None` value")
        else if v < |normal.value| then Ok(normal.value[v])
        else Panic("index out of bounds")
      case _ => Panic("index out of bounds")
    }

    /** `Geometry::tex_coord`: panics when the mesh has no texture coordinates. */
    function TexCoord(face: nat, vert: nat): (r: Outcome<Vec2>)
      reads this
      ensures r.Ok? <==> VertexOf(face, vert).Ok? && uv.Some? && VertexOf(face, vert).value < |uv.value|
      ensures r.Ok? ==> r.value == uv.value[VertexOf(face, vert).value]
      ensures !r.Ok? ==> r.Panic?
    {
      match VertexOf(face, vert)
      case Ok(v) =>
        if uv.None? then Panic("called `Option::unwrap()` on a `None` value")
        else if v < |uv.value| then Ok(uv.value[v])
        else Panic("index out of bounds")
      case _ => Panic("index out of bounds")
    }

    /**
      `Geometry::set_tangent_encoded`: stores the encoded tangent at the vertex
      of corner (face, vert) and nowhere else; panics, changing nothing, when
      there is no tangent list or an index is out of range.
     */
    method SetTangentEncoded(tangent: Vec4, face: nat, vert: nat) returns (r: Outcome<()>)
      modifies this
      ensures position == old(position) && index == old(index) && name == old(name)
      ensures color == old(color) && normal == old(normal) && uv == old(uv)
      ensures r.Ok? <==> VertexOf(face, vert).Ok? && old(tangents).Some? && VertexOf(face, vert).value < |old(tangents).value|
      ensures r.Ok? ==> tangents == Some(old(tangents).value[VertexOf(face, vert).value := EncodeTangent(tangent)])
      ensures !r.Ok? ==> r.Panic? && tangents == old(tangents)
    {
      var i := Mikktspace.FaceVertToIndex(face, vert);
      if i >= |index| {
        return Panic("index out of bounds");
      }
      var v := index[i];
      if tangents.None? {
        return Panic("called `Option::unwrap()` on a `None` value");
      }
      if v >= |tangents.value| {
        return Panic("index out of bounds");
      }
      tangents := Some(tangents.value[v := EncodeTangent(tangent)]);
      return Ok(());
    }

    /**
      `to_gpu`: the positions as a vertex buffer, the indices as an index and
      storage buffer, and one storage buffer per optional attribute, never
      empty: the whole array when present, a single zero element otherwise
      (16 bytes for normal and colour, 8 for uv, 16 for tangent). The bind group
      follows `MeshLayout`; the tangent buffer is made but not bound.
     */
    function ToGpu(): (g: GpuMesh)
      reads this
      ensures g.name == GetNamePrefix()
      ensures g.vertexBuffer == FromContents(g.name + "_vertex", {VertexUsage}, position, Vec3Size)
      ensures g.indexBuffer == FromContents(g.name + "_index", {IndexUsage, StorageUsage}, index, 4)
      ensures g.indexLength == |index| % 0x1_0000_0000
      ensures |index| < 0x1_0000_0000 ==> g.indexLength == |index|
      ensures g.normalPresent == normal.Some? && g.colorPresent == color.Some?
      ensures g.uvPresent == uv.Some? && g.tangentPresent == tangents.Some?
      ensures g.normalBuffer.FromContents? && g.colorBuffer.FromContents?
      ensures g.uvBuffer.FromContents? && g.tangentBuffer.FromContents?
      ensures g.normalBuffer.Size() == 0 <==> normal == Some([])
      ensures g.colorBuffer.Size() == 0 <==> color == Some([])
      ensures g.uvBuffer.Size() == 0 <==> uv == Some([])
      ensures g.tangentBuffer.Size() == 0 <==> tangents == Some([])
      ensures g.normalPresent ==> g.normalBuffer.contents == normal.value
      ensures g.colorPresent ==> g.colorBuffer.contents == color.value
      ensures g.uvPresent ==> g.uvBuffer.contents == uv.value
      ensures g.tangentPresent ==> g.tangentBuffer.contents == tangents.value
      ensures !g.normalPresent ==> g.normalBuffer.contents == [Vec3Zero] && g.normalBuffer.Size() == 16
      ensures !g.colorPresent ==> g.colorBuffer.contents == [Vec4Zero] && g.colorBuffer.Size() == 16
      ensures !g.uvPresent ==> g.uvBuffer.contents == [Vec2Zero] && g.uvBuffer.Size() == 8
      ensures !g.tangentPresent ==> g.tangentBuffer.contents == [Vec4Zero] && g.tangentBuffer.Size() == 16
      ensures g.bindGroup.layout == MeshLayout
      ensures GroupBindings(g.bindGroup) == LayoutBindings(MeshLayout)
      ensures g.bindGroup.entries[0].resource == WholeBuffer(g.normalBuffer.Ref())
      ensures g.bindGroup.entries[1].resource == WholeBuffer(g.colorBuffer.Ref())
      ensures g.bindGroup.entries[2].resource == WholeBuffer(g.uvBuffer.Ref())
      ensures forall e :: e in g.bindGroup.entries ==> e.resource != WholeBuffer(g.tangentBuffer.Ref())
    {
      GpuMeshFrom(GetNamePrefix(), position, index, color, normal, uv, tangents)
    }
  }

  /** The GPU mesh `to_gpu` builds from a mesh's lists, every label starting with `prefix`. */
  function GpuMeshFrom(prefix: string, position: seq<Vec3>, index: seq<u32>, color: Option<seq<Vec4>>,
    normal: Option<seq<Vec3>>, uv: Option<seq<Vec2>>, tangents: Option<seq<Vec4>>): GpuMesh
  {
    var normalBuffer := AttributeBuffer(prefix + "_normal", normal, Vec3Zero, Vec3ASize);
    var colorBuffer := AttributeBuffer(prefix + "_color", color, Vec4Zero, Vec3ASize);
    var uvBuffer := AttributeBuffer(prefix + "_uv", uv, Vec2Zero, Vec2Size);
    var tangentBuffer := AttributeBuffer(prefix + "_tangent", tangents, Vec4Zero, Vec4Size);
    var bindGroup := BindGroup(Some(prefix + "_bind_group"), MeshLayout, [
      BindGroupEntry(MeshBindingNormal, WholeBuffer(normalBuffer.Ref())),
      BindGroupEntry(MeshBindingColor, WholeBuffer(colorBuffer.Ref())),
      BindGroupEntry(MeshBindingUv, WholeBuffer(uvBuffer.Ref()))
    ]);
    GpuMesh(
      prefix, bindGroup,
      FromContents(prefix + "_vertex", {VertexUsage}, position, Vec3Size),
      FromContents(prefix + "_index", {IndexUsage, StorageUsage}, index, 4),
      TruncateU32(|index|),
      normalBuffer, normal.Some?,
      colorBuffer, color.Some?,
      uvBuffer, uv.Some?,
      tangentBuffer, tangents.Some?)
  }

  /** A triangle with a corner past the positions rules out every longer in-range prefix. */
  lemma NotInRangePastTriangle(position: seq<Vec3>, index: seq<u32>, k: nat)
    requires 3 * k + 2 < |index|
    requires index[3 * k] >= |position| || index[3 * k + 1] >= |position| || index[3 * k + 2] >= |position|
    ensures !(|index| % 3 == 0 && TrianglesInRange(position, index, |index| / 3))
  {
    if |index| % 3 == 0 {
      assert 3 * k + 2 < 3 * (|index| / 3);
    }
  }

  /** One more triangle: its face normal overwrites its three corners. */
  lemma NormalsStep(position: seq<Vec3>, index: seq<u32>, faceNormal: FaceNormal, k: nat)
    requires TrianglesInRange(position, index, k + 1)
    ensures Normals(position, index, faceNormal, k + 1) ==
      Normals(position, index, faceNormal, k)[index[3 * k] := FaceNormalOf(position, index, faceNormal, k)]
        [index[3 * k + 1] := FaceNormalOf(position, index, faceNormal, k)][index[3 * k + 2] := FaceNormalOf(position, index, faceNormal, k)]
  {
  }

  /**
    The loop of `calculate_normals`: a local list of zero normals, then for
    each chunk of three indices the face normal written at its three corners.
   */
  method ComputeNormals(position: seq<Vec3>, index: seq<u32>, faceNormal: FaceNormal) returns (r: Outcome<seq<Vec3>>)
    ensures r.Ok? <==> |index| % 3 == 0 && TrianglesInRange(position, index, |index| / 3)
    ensures r.Ok? ==> r.value == Normals(position, index, faceNormal, |index| / 3)
    ensures !r.Ok? ==> r.Panic?
  {
    var normals := new Vec3[|position|](_ => Vec3Zero);
    assert normals[..] == Normals(position, index, faceNormal, 0);
    var start := 0;
    ghost var k := 0;
    while start < |index|
      invariant start == 3 * k && start <= |index|
      invariant TrianglesInRange(position, index, k)
      invariant normals[..] == Normals(position, index, faceNormal, k)
      decreases |index| - start
    {
      if start + 2 >= |index| {
        assert |index| % 3 != 0;
        return Panic("index out of bounds: incomplete triangle");
      }
      var a, b, c := index[start], index[start + 1], index[start + 2];
      if a >= |position| || b >= |position| || c >= |position| {
        NotInRangePastTriangle(position, index, k);
        return Panic("index out of bounds: vertex index past the positions");
      }
      var n := faceNormal(position[a], position[b], position[c]);
      ghost var before := normals[..];
      normals[a] := n;
      normals[b] := n;
      normals[c] := n;
      assert normals[..] == before[a := n][b := n][c := n];
      assert TrianglesInRange(position, index, k + 1);
      NormalsStep(position, index, faceNormal, k);
      start := start + 3;
      k := k + 1;
    }
    assert |index| / 3 == k;
    return Ok(normals[..]);
  }

  /** Once a generator call panics, so does every longer run of calls. */
  lemma {:induction false} TangentsAfterStaysNone(tangents: seq<Vec4>, index: seq<u32>, calls: seq<TangentCall>, k: nat)
    requires k <= |calls|
    requires TangentsAfter(tangents, index, calls[..k]).None?
    ensures TangentsAfter(tangents, index, calls).None?
    decreases |calls| - k
  {
    if k < |calls| {
      assert calls[..k + 1][..k] == calls[..k];
      TangentsAfterStaysNone(tangents, index, calls, k + 1);
    } else {
      assert calls[..k] == calls;
    }
  }

  /**
    `make_axis_polys`: a triangle in a local array of three zero vectors, with
    the axis component of the middle corner set to 1 and one component of the
    first or last corner set to 0.1.
   */
  method MakeAxisPolys(axis: nat, alternate: int) returns (polys: seq<Vec3>)
    requires axis < 3
    ensures IsAxisPoly(polys, axis, alternate)
  {
    var r := new Vec3[3](_ => Vec3Zero);
    r[1] := SetComponent(r[1], axis, 1.0);
    if alternate <= 0 {
      r[0] := SetComponent(r[0], Abs(alternate) % 3, 0.1);
    } else {
      r[2] := SetComponent(r[2], alternate % 3, 0.1);
    }
    polys := r[..];
  }

  /** Concatenation of triangles, as `.flatten()` over `[Vec3; 3]` arrays. */
  function Flatten(ps: seq<seq<Vec3>>): (r: seq<Vec3>)
    requires forall t :: 0 <= t < |ps| ==> |ps[t]| == 3
    ensures |r| == 3 * |ps|
    ensures forall t :: 0 <= t < |ps| ==> r[3 * t..3 * t + 3] == ps[t]
  {
    if ps == [] then [] else ps[0] + Flatten(ps[1..])
  }

  /** The frame's 18 positions: the six triangles of the table, one after the other. */
  method AxisPositions() returns (position: seq<Vec3>)
    ensures |position| == 18
    ensures forall t :: 0 <= t < 6 ==> IsAxisPoly(position[3 * t..3 * t + 3], AxisTable[t].axis, AxisTable[t].alternate)
  {
    var p0 := MakeAxisPolys(0, 1);
    var p1 := MakeAxisPolys(0, -1);
    var p2 := MakeAxisPolys(1, 2);
    var p3 := MakeAxisPolys(1, -2);
    var p4 := MakeAxisPolys(2, 3);
    var p5 := MakeAxisPolys(2, -3);
    var polys := [p0, p1, p2, p3, p4, p5];
    assert forall t :: 0 <= t < 6 ==> IsAxisPoly(polys[t], AxisTable[t].axis, AxisTable[t].alternate);
    position := Flatten(polys);
  }

  /**
    `CpuMesh::axis_frame`: six triangles (two per axis) with 18 distinct
    vertices indexed 0..18 in order, each triangle in its axis colour, named
    "coordinate_frame", with computed normals and no uv or tangents.
   */
  method AxisFrame(faceNormal: FaceNormal) returns (m: CpuMesh)
    ensures fresh(m)
    ensures |m.position| == 18 && |m.index| == 18
    ensures forall k :: 0 <= k < 18 ==> m.index[k] == k
    ensures forall t :: 0 <= t < 6 ==> IsAxisPoly(m.position[3 * t..3 * t + 3], AxisTable[t].axis, AxisTable[t].alternate)
    ensures m.color.Some? && |m.color.value| == 18
    ensures forall k :: 0 <= k < 18 ==> m.color.value[k] == AxisTable[k / 3].color
    ensures m.name == Some("coordinate_frame") && m.uv.None? && m.tangents.None?
    ensures TrianglesInRange(m.position, m.index, 6)
    ensures m.normal == Some(Normals(m.position, m.index, faceNormal, 6))
  {
    var position := AxisPositions();
    var colors := seq(18, k requires 0 <= k < 18 => AxisTable[k / 3].color);
    var index := seq(18, k requires 0 <= k < 18 => k as u32);
    assert TrianglesInRange(position, index, 6);
    m := new CpuMesh.New(position, index);
    m.color := Some(colors);
    m.name := Some("coordinate_frame");
    var o := m.CalculateNormals(faceNormal);
  }
}
