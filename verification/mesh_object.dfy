/**
  A mesh object: a GPU mesh drawn once per instance transform. The CPU list of
  instances and the GPU buffer holding them are separate; the `Set*` methods
  change only the list, and `ReplaceGpuData` is the one place the buffer and the
  bind group that references it are rebuilt from the list.
 */
module MeshObjects {
  import opened Common
  import opened Gpu
  import opened VertexMesh
  import ReprC

  /** `size_of::<Mat4>()`: sixteen floats. */
  const Mat4Size: nat := 4 * 4 * 4

  /** `MeshObjectMetaUniform`: which optional attributes the mesh has, as 0 or 1. */
  datatype MetaUniform = MetaUniform(colorPresent: u32, normalPresent: u32, uvPresent: u32)

  /** `b as u32`. */
  function BoolToU32(b: bool): (r: u32)
    ensures r == 0 || r == 1
    ensures r == 1 <==> b
  {
    if b then 1 else 0
  }

  function MetaUniformOf(g: GpuMesh): (m: MetaUniform)
    ensures m.colorPresent == 1 <==> g.colorPresent
    ensures m.normalPresent == 1 <==> g.normalPresent
    ensures m.uvPresent == 1 <==> g.uvPresent
    ensures m.colorPresent <= 1 && m.normalPresent <= 1 && m.uvPresent <= 1
  {
    MetaUniform(BoolToU32(g.colorPresent), BoolToU32(g.normalPresent), BoolToU32(g.uvPresent))
  }

  /** The C layout of `MeshObjectMetaUniform`: three `u32` fields. */
  const MetaUniformFields := [ReprC.U32Field, ReprC.U32Field, ReprC.U32Field]

  /** The layout the shader expects: fields at offsets 0, 4 and 8 ... */
  lemma MetaUniformOffsets()
    ensures ReprC.WellAligned(MetaUniformFields)
    ensures ReprC.Offsets(MetaUniformFields) == [0, 4, 8]
  {
    var f := ReprC.U32Field;
    assert MetaUniformFields[1..] == [f, f] && MetaUniformFields[2..] == [f];
    assert ReprC.OffsetsFrom(8, [f]) == [8];
    assert ReprC.OffsetsFrom(4, [f, f]) == [4, 8];
  }

  /** ... and 12 bytes in all. */
  lemma MetaUniformSize()
    ensures ReprC.WellAligned(MetaUniformFields)
    ensures ReprC.StructSize(MetaUniformFields) == 12
  {
    MetaUniformOffsets();
    assert ReprC.MaxAlign(MetaUniformFields) == 4;
  }

  const MeshObjectSet: nat := 2
  const MeshObjectUniformBinding: nat := 0
  const MeshObjectInstancesBinding: nat := 1
  const MeshBindingNormal: nat := 2
  const MeshBindingColor: nat := 3
  const MeshBindingUv: nat := 4

  function VertexStorageEntry(binding: nat): LayoutEntry {
    LayoutEntry(binding, {VertexStage}, StorageBuffer(true), None)
  }

  /** `MeshObject::MESH_LAYOUT`: five read-only storage buffers for the vertex stage. */
  const MeshObjectLayout := BindGroupLayout(Some("mesh_object_layout"), [
    VertexStorageEntry(MeshObjectUniformBinding),
    VertexStorageEntry(MeshObjectInstancesBinding),
    VertexStorageEntry(MeshBindingNormal),
    VertexStorageEntry(MeshBindingColor),
    VertexStorageEntry(MeshBindingUv)
  ])

  /**
    The bind group `new` and `replace_gpu_data` both build: the uniform, the
    instances, and the mesh's normal, colour and uv buffers, at the bindings the
    layout declares, which are pairwise distinct.
   */
  function MeshObjectBindGroup(g: GpuMesh, uniform: BufferRef, instances: BufferRef): (b: BindGroup)
    ensures b.layout == MeshObjectLayout && b.name == Some(g.name + "_bind_group")
    ensures GroupBindings(b) == LayoutBindings(MeshObjectLayout) == [0, 1, 2, 3, 4]
    ensures Distinct(GroupBindings(b))
    ensures b.entries[0].resource == WholeBuffer(uniform)
    ensures b.entries[1].resource == WholeBuffer(instances)
    ensures b.entries[2].resource == WholeBuffer(g.normalBuffer.Ref())
    ensures b.entries[3].resource == WholeBuffer(g.colorBuffer.Ref())
    ensures b.entries[4].resource == WholeBuffer(g.uvBuffer.Ref())
  {
    BindGroup(Some(g.name + "_bind_group"), MeshObjectLayout, [
      BindGroupEntry(MeshObjectUniformBinding, WholeBuffer(uniform)),
      BindGroupEntry(MeshObjectInstancesBinding, WholeBuffer(instances)),
      BindGroupEntry(MeshBindingNormal, WholeBuffer(g.normalBuffer.Ref())),
      BindGroupEntry(MeshBindingColor, WholeBuffer(g.colorBuffer.Ref())),
      BindGroupEntry(MeshBindingUv, WholeBuffer(g.uvBuffer.Ref()))
    ])
  }

  /** `Vec::resize(n, value)`: truncate, or pad with `value`. */
  function Resize<T>(s: seq<T>, n: nat, value: T): (r: seq<T>)
    ensures |r| == n
    ensures forall k :: 0 <= k < n ==> r[k] == if k < |s| then s[k] else value
  {
    if n <= |s| then s[..n] else s + seq(n - |s|, _ => value)
  }

  class MeshObject {
    /** The CPU instance transforms. */
    var instances: seq<Mat4>
    /** The GPU copy of the instances, as of the last sync. */
    var instancesBuffer: Buffer<Mat4>
    const meshObjectUniform: Buffer<MetaUniform>
    const gpuMesh: GpuMesh
    var bindGroup: BindGroup

    /** The GPU buffer and bind group reflect the current instance list. */
    predicate Synced()
      reads this
    {
      instancesBuffer == FromContents(gpuMesh.name, {StorageUsage}, instances, Mat4Size) &&
      bindGroup == MeshObjectBindGroup(gpuMesh, meshObjectUniform.Ref(), instancesBuffer.Ref())
    }

    /**
      `MeshObject::new`: no instances yet, and a zeroed storage buffer with
      room for exactly one transform as a placeholder; the uniform records
      which optional attributes the mesh has.
     */
    constructor New(gpuMesh: GpuMesh)
      ensures this.gpuMesh == gpuMesh && instances == []
      ensures instancesBuffer == Zeroed(gpuMesh.name, {StorageUsage}, Mat4Size)
      ensures meshObjectUniform == FromContents(gpuMesh.name + "_mesh_object_uniform", {StorageUsage}, [MetaUniformOf(gpuMesh)], 12)
      ensures bindGroup == MeshObjectBindGroup(gpuMesh, meshObjectUniform.Ref(), instancesBuffer.Ref())
    {
      this.gpuMesh := gpuMesh;
      instances := [];
      instancesBuffer := Zeroed(gpuMesh.name, {StorageUsage}, Mat4Size);
      meshObjectUniform := FromContents(gpuMesh.name + "_mesh_object_uniform", {StorageUsage}, [MetaUniformOf(gpuMesh)], 12);
      new;
      bindGroup := MeshObjectBindGroup(gpuMesh, meshObjectUniform.Ref(), instancesBuffer.Ref());
    }

    /** `set_single_transform`: exactly one instance, whatever was there; the GPU side is untouched. */
    method SetSingleTransform(transform: Mat4)
      modifies this
      ensures instances == [transform]
      ensures instancesBuffer == old(instancesBuffer) && bindGroup == old(bindGroup)
    {
      instances := Resize(instances, 1, Identity);
      instances := instances[0 := transform];
    }

    /** `set_transforms`: the instances become a copy of `transforms`, in order; the GPU side is untouched. */
    method SetTransforms(transforms: seq<Mat4>)
      modifies this
      ensures instances == transforms
      ensures instancesBuffer == old(instancesBuffer) && bindGroup == old(bindGroup)
    {
      instances := transforms;
    }

    /**
      `replace_gpu_data`: a fresh buffer holding the instances, and a bind group
      rebuilt around it with the same uniform and mesh buffers. The instance
      list itself is unchanged.
     */
    method ReplaceGpuData()
      modifies this
      ensures instances == old(instances)
      ensures Synced()
    {
      instancesBuffer := FromContents(gpuMesh.name, {StorageUsage}, instances, Mat4Size);
      bindGroup := MeshObjectBindGroup(gpuMesh, meshObjectUniform.Ref(), instancesBuffer.Ref());
    }

    /** What `add_commands` records: bind, set buffers, draw every CPU instance, inside a debug group. */
    function DrawCommands(): (cmds: seq<Command>)
      reads this
      ensures |cmds| == 6 && Balanced(cmds)
      ensures cmds[0] == PushDebugGroup(gpuMesh.name) && cmds[5] == PopDebugGroup
      ensures cmds[1] == SetBindGroup(MeshObjectSet, bindGroup)
      ensures cmds[2] == SetVertexBuffer(0, gpuMesh.vertexBuffer.Ref())
      ensures cmds[3] == SetIndexBuffer(gpuMesh.indexBuffer.Ref(), Uint32)
      ensures cmds[4] == DrawIndexed(0, gpuMesh.indexLength, 0, 0, |instances| % 0x1_0000_0000)
      ensures |instances| < 0x1_0000_0000 ==> cmds[4] == DrawIndexed(0, gpuMesh.indexLength, 0, 0, |instances|)
    {
      var cmds := [
        PushDebugGroup(gpuMesh.name),
        SetBindGroup(MeshObjectSet, bindGroup),
        SetVertexBuffer(0, gpuMesh.vertexBuffer.Ref()),
        SetIndexBuffer(gpuMesh.indexBuffer.Ref(), Uint32),
        DrawIndexed(0, gpuMesh.indexLength, 0, 0, TruncateU32(|instances|)),
        PopDebugGroup
      ];
      assert DebugDepthFrom(1, cmds[5..]) == Some(0);
      assert DebugDepthFrom(1, cmds[4..]) == Some(0);
      assert DebugDepthFrom(1, cmds[3..]) == Some(0);
      assert DebugDepthFrom(1, cmds[2..]) == Some(0);
      assert DebugDepthFrom(1, cmds[1..]) == Some(0);
      cmds
    }

    /** `add_commands`: records `DrawCommands()` on the render pass and nothing else. */
    method AddCommands(pass: RenderPass)
      modifies pass
      ensures pass.commands == old(pass.commands) + DrawCommands()
    {
      pass.Record(PushDebugGroup(gpuMesh.name));
      pass.Record(SetBindGroup(MeshObjectSet, bindGroup));
      pass.Record(SetVertexBuffer(0, gpuMesh.vertexBuffer.Ref()));
      pass.Record(SetIndexBuffer(gpuMesh.indexBuffer.Ref(), Uint32));
      pass.Record(DrawIndexed(0, gpuMesh.indexLength, 0, 0, TruncateU32(|instances|)));
      pass.Record(PopDebugGroup);
    }
  }

  /**
    After a sync the draw reads exactly the instances the GPU buffer holds:
    the instance count times the size of a transform is the buffer size.
   */
  lemma SyncedDrawCoversBuffer(m: MeshObject)
    requires m.Synced() && |m.instances| < 0x1_0000_0000
    ensures m.DrawCommands()[4].instanceEnd * Mat4Size == m.instancesBuffer.Size()
    ensures m.bindGroup.entries[1].resource.buffer.size == m.instancesBuffer.Size()
  {
  }
}
