/**
  The earlier CPU mesh and its upload. It has no tangents, binds only normals
  and colours, uses a bind-group layout supplied by the caller, and uploads an
  absent attribute as an empty buffer instead of a one-element placeholder.
 */
module LegacyMesh {
  import opened Common
  import opened Gpu
  import VertexMesh

  datatype CpuMesh = CpuMesh(
    position: seq<Vec3>,
    index: seq<u32>,
    name: Option<string>,
    color: Option<seq<Vec4>>,
    normal: Option<seq<Vec3>>,
    uv: Option<seq<Vec2>>)

  datatype GpuMesh = GpuMesh(
    bindGroup: BindGroup,
    vertexBuffer: Buffer<Vec3>,
    indexBuffer: Buffer<u32>,
    indexLength: u32,
    normalBuffer: Buffer<Vec3>,
    colorBuffer: Buffer<Vec4>)

  const MeshBindingNormal: nat := 0
  const MeshBindingColor: nat := 1

  /** `GpuMesh::MESH_LAYOUT`: normals and colours only. */
  const LegacyMeshLayout := BindGroupLayout(Some("mesh_layout"), [
    VertexMesh.StorageEntry(MeshBindingNormal), VertexMesh.StorageEntry(MeshBindingColor)
  ])

  /** `CpuMesh::new`: nothing validated, every optional part absent. */
  function New(position: seq<Vec3>, index: seq<u32>): (m: CpuMesh)
    ensures m.position == position && m.index == index
    ensures m.name.None? && m.color.None? && m.normal.None? && m.uv.None?
  {
    CpuMesh(position, index, None, None, None, None)
  }

  /** `with_name`: the same mesh with the name set. */
  function WithName(m: CpuMesh, name: string): (r: CpuMesh)
    ensures r.name == Some(name)
    ensures r.(name := m.name) == m
  {
    m.(name := Some(name))
  }

  /** `get_name_prefix`: the name, or the same length-based default as the current mesh. */
  function GetNamePrefix(m: CpuMesh): (r: string)
    ensures m.name.Some? ==> r == m.name.value
    ensures m.name.None? ==> r == VertexMesh.DefaultNamePrefix(|m.position|, |m.index|)
  {
    if m.name.Some? then m.name.value else VertexMesh.DefaultNamePrefix(|m.position|, |m.index|)
  }

  /** A storage buffer with the attribute's elements, or no bytes at all when it is absent. */
  function OptionalBuffer<T>(name: string, data: Option<seq<T>>, stride: nat): (b: Buffer<T>)
    ensures b.FromContents? && b.name == name && b.usage == {StorageUsage} && b.stride == stride
    ensures b.contents == if data.Some? then data.value else []
    ensures data.None? ==> b.Size() == 0
  {
    FromContents(name, {StorageUsage}, if data.Some? then data.value else [], stride)
  }

  /**
    `to_gpu`: the positions as a vertex buffer, indices as an index and storage
    buffer, normals and colours as storage buffers that are empty when the
    attribute is absent, bound at 0 and 1 under the caller's layout. No uv
    buffer is made.
   */
  function ToGpu(m: CpuMesh, layout: BindGroupLayout): (g: GpuMesh)
    ensures g.vertexBuffer == FromContents(GetNamePrefix(m) + "_vertex", {VertexUsage}, m.position, VertexMesh.Vec3Size)
    ensures g.indexBuffer == FromContents(GetNamePrefix(m) + "_index", {IndexUsage, StorageUsage}, m.index, 4)
    ensures g.indexLength == |m.index| % 0x1_0000_0000
    ensures |m.index| < 0x1_0000_0000 ==> g.indexLength == |m.index|
    ensures g.normalBuffer.FromContents? && g.colorBuffer.FromContents?
    ensures m.normal.Some? ==> g.normalBuffer.contents == m.normal.value
    ensures m.color.Some? ==> g.colorBuffer.contents == m.color.value
    ensures m.normal.None? ==> g.normalBuffer.Size() == 0
    ensures m.color.None? ==> g.colorBuffer.Size() == 0
    ensures g.bindGroup.layout == layout && g.bindGroup.name == Some(GetNamePrefix(m) + "_bind_group")
    ensures GroupBindings(g.bindGroup) == LayoutBindings(LegacyMeshLayout) == [0, 1]
    ensures g.bindGroup.entries[0].resource == WholeBuffer(g.normalBuffer.Ref())
    ensures g.bindGroup.entries[1].resource == WholeBuffer(g.colorBuffer.Ref())
  {
    var prefix := GetNamePrefix(m);
    var normalBuffer := OptionalBuffer(prefix + "_normal", m.normal, VertexMesh.Vec3ASize);
    var colorBuffer := OptionalBuffer(prefix + "_color", m.color, VertexMesh.Vec4Size);
    GpuMesh(
      BindGroup(Some(prefix + "_bind_group"), layout, [
        BindGroupEntry(MeshBindingNormal, WholeBuffer(normalBuffer.Ref())),
        BindGroupEntry(MeshBindingColor, WholeBuffer(colorBuffer.Ref()))
      ]),
      FromContents(prefix + "_vertex", {VertexUsage}, m.position, VertexMesh.Vec3Size),
      FromContents(prefix + "_index", {IndexUsage, StorageUsage}, m.index, 4),
      TruncateU32(|m.index|),
      normalBuffer,
      colorBuffer)
  }

  /**
    The two generations differ exactly on absent attributes: for the same
    lists, the earlier upload leaves the normal buffer empty where the current
    one holds a single 16-byte zero normal.
   */
  lemma AbsentNormalsEmptyHereButPlaceholderNow(m: CpuMesh, layout: BindGroupLayout, c: VertexMesh.CpuMesh)
    requires m.normal.None? && c.normal.None?
    ensures ToGpu(m, layout).normalBuffer.Size() == 0
    ensures c.ToGpu().normalBuffer.Size() == 16
  {
  }

  /** The vertex layout is unchanged from the earlier generation: one `Float32x3` at location 0, stride 12. */
  const LegacyVertexLayout := VertexMesh.VertexLayout
}
