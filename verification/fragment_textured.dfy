/**
  A mesh object together with its texture set. Re-syncing updates the mesh
  object's instance buffer first and then rebuilds the texture bind group;
  drawing binds the textures before the mesh object's own commands.
 */
module FragmentTextured {
  import opened Common
  import opened Gpu
  import opened MeshObjects
  import opened Textures

  /** The sampler `new_simple` gives every texture: clamp to edge, linear filtering. */
  const SimpleSampler := Sampler(SamplerDescriptor(ClampToEdge, ClampToEdge, ClampToEdge, Linear, Linear, Linear))

  /** `new_simple`'s list: each texture, in order, with `SimpleSampler` and the base-colour role. */
  function SimpleSampledTextures(textures: seq<Texture>): (r: seq<SampledTexture>)
    ensures |r| == |textures|
    ensures forall k :: 0 <= k < |r| ==> r[k] == SampledTexture(SimpleSampler, textures[k], BaseColor)
  {
    seq(|textures|, k requires 0 <= k < |textures| => SampledTexture(SimpleSampler, textures[k], BaseColor))
  }

  class MeshObjectTextured {
    const meshObject: MeshObject
    const cpuTextures: CpuTextureInfo
    var gpuTextures: GpuTextureInfo

    /** Both halves reflect their CPU state. */
    predicate Synced()
      reads this, meshObject
    {
      meshObject.Synced() && gpuTextures == ToGpu(cpuTextures)
    }

    /**
      `MeshObjectTextured::new`: the texture set is named after the mesh and
      keeps the textures in the given order; it ends with `ReplaceGpuData`, so
      the mesh object's instance buffer matches its instance list.
     */
    constructor New(meshObject: MeshObject, sampledTextures: seq<SampledTexture>)
      modifies meshObject
      ensures this.meshObject == meshObject
      ensures cpuTextures == NewCpuTextureInfo(meshObject.gpuMesh.name, sampledTextures)
      ensures meshObject.instances == old(meshObject.instances)
      ensures Synced()
    {
      this.meshObject := meshObject;
      cpuTextures := NewCpuTextureInfo(meshObject.gpuMesh.name, sampledTextures);
      gpuTextures := ToGpu(NewCpuTextureInfo(meshObject.gpuMesh.name, sampledTextures));
      new;
      ReplaceGpuData();
    }

    /** `new_simple`: `New` over `SimpleSampledTextures(textures)`. */
    constructor NewSimple(meshObject: MeshObject, textures: seq<Texture>)
      modifies meshObject
      ensures this.meshObject == meshObject
      ensures cpuTextures == NewCpuTextureInfo(meshObject.gpuMesh.name, SimpleSampledTextures(textures))
      ensures meshObject.instances == old(meshObject.instances)
      ensures Synced()
    {
      this.meshObject := meshObject;
      var sampled := SimpleSampledTextures(textures);
      cpuTextures := NewCpuTextureInfo(meshObject.gpuMesh.name, sampled);
      gpuTextures := ToGpu(NewCpuTextureInfo(meshObject.gpuMesh.name, sampled));
      new;
      ReplaceGpuData();
    }

    /** `replace_gpu_data`: syncs the mesh object, then rebuilds the texture group. */
    method ReplaceGpuData()
      modifies this, meshObject
      ensures meshObject.instances == old(meshObject.instances)
      ensures Synced()
    {
      meshObject.ReplaceGpuData();
      gpuTextures := ToGpu(cpuTextures);
    }

    /** What `add_commands` records: the texture group at set 3, then the mesh object's commands. */
    function DrawCommands(): (cmds: seq<Command>)
      reads this, meshObject
      ensures |cmds| == 7 && Balanced(cmds)
      ensures cmds[0] == SetBindGroup(TextureSet, gpuTextures.bindGroup)
      ensures cmds[1..] == meshObject.DrawCommands()
    {
      var cmds := [SetBindGroup(TextureSet, gpuTextures.bindGroup)] + meshObject.DrawCommands();
      assert DebugDepthFrom(0, [SetBindGroup(TextureSet, gpuTextures.bindGroup)]) == Some(0);
      BalancedConcat([SetBindGroup(TextureSet, gpuTextures.bindGroup)], meshObject.DrawCommands());
      cmds
    }

    /** `add_commands`. */
    method AddCommands(pass: RenderPass)
      modifies pass
      ensures pass.commands == old(pass.commands) + DrawCommands()
    {
      Textures.AddCommands(gpuTextures, pass);
      meshObject.AddCommands(pass);
    }
  }
}
