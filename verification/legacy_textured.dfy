/**
  The earlier textured mesh object: it owns its sampled textures directly (no
  role tags) and a single texture bind group, whose layout declares arrays of
  one element.
 */
module LegacyTextured {
  import opened Common
  import opened Gpu
  import opened MeshObjects

  datatype SampledTexture = SampledTexture(sampler: Sampler, texture: Texture)

  const MeshObjectTextureSet: nat := 3
  const MeshObjectTextureBindingTexture: nat := 0
  const MeshObjectTextureBindingSampler: nat := 1
  const LegacyArrayCount: nat := 1

  const LegacyTextureLayout := BindGroupLayout(Some("mesh_object_textured_layout"), [
    LayoutEntry(MeshObjectTextureBindingTexture, {FragmentStage}, Texture2d(true), Some(LegacyArrayCount)),
    LayoutEntry(MeshObjectTextureBindingSampler, {FragmentStage}, FilteringSampler, Some(LegacyArrayCount))
  ])

  /** The placeholder `new` installs first: an empty layout and an empty, unlabelled group. */
  const PlaceholderGroup := BindGroup(None, BindGroupLayout(None, []), [])

  /** The sampler each texture gets: clamp to edge, linear filtering. */
  const LegacySampler := Sampler(SamplerDescriptor(ClampToEdge, ClampToEdge, ClampToEdge, Linear, Linear, Linear))

  function Wrap(textures: seq<Texture>): (r: seq<SampledTexture>)
    ensures |r| == |textures|
    ensures forall k :: 0 <= k < |r| ==> r[k] == SampledTexture(LegacySampler, textures[k])
  {
    seq(|textures|, k requires 0 <= k < |textures| => SampledTexture(LegacySampler, textures[k]))
  }

  /**
    The group `replace_gpu_data` builds: a view array and a sampler array as
    long as the texture list, at bindings 0 and 1, labelled after the mesh.
   */
  function TextureBindGroup(meshName: string, ts: seq<SampledTexture>): (g: BindGroup)
    ensures g.layout == LegacyTextureLayout && g.name == Some(meshName + "_bind_group")
    ensures GroupBindings(g) == LayoutBindings(LegacyTextureLayout) == [0, 1]
    ensures g.entries[0].resource.TextureViewArray? && g.entries[1].resource.SamplerArray?
    ensures |g.entries[0].resource.views| == |g.entries[1].resource.samplers| == |ts|
    ensures forall k :: 0 <= k < |ts| ==>
      g.entries[0].resource.views[k] == TextureView(ts[k].texture) &&
      g.entries[1].resource.samplers[k] == ts[k].sampler
  {
    var textures := seq(|ts|, k requires 0 <= k < |ts| => ts[k].texture);
    var samplers := seq(|ts|, k requires 0 <= k < |ts| => ts[k].sampler);
    BindGroup(Some(meshName + "_bind_group"), LegacyTextureLayout, [
      BindGroupEntry(MeshObjectTextureBindingTexture, TextureViewArray(ViewsOf(textures))),
      BindGroupEntry(MeshObjectTextureBindingSampler, SamplerArray(samplers))
    ])
  }

  /** With arrays declared one long, the group fits its layout only for at most one texture. */
  lemma TextureBindGroupFitsIff(meshName: string, ts: seq<SampledTexture>)
    ensures ArraysFitLayout(TextureBindGroup(meshName, ts)) <==> |ts| <= LegacyArrayCount
  {
    var g := TextureBindGroup(meshName, ts);
    if |ts| > LegacyArrayCount {
      assert g.entries[0] in g.entries && g.layout.entries[0] in g.layout.entries;
    } else {
      forall e, l | e in g.entries && l in g.layout.entries && e.binding == l.binding && l.count.Some?
        ensures ResourceLength(e.resource) <= l.count.value
      {
      }
    }
  }

  class MeshObjectTextured {
    const meshObject: MeshObject
    const textures: seq<SampledTexture>
    var textureBindGroup: BindGroup

    /**
      `new`: wraps each texture with its own sampler, in order, installs the
      placeholder group and then replaces it. The mesh object is not touched.
     */
    constructor New(meshObject: MeshObject, textures: seq<Texture>)
      ensures this.meshObject == meshObject && this.textures == Wrap(textures)
      ensures textureBindGroup == TextureBindGroup(meshObject.gpuMesh.name, Wrap(textures))
    {
      this.meshObject := meshObject;
      this.textures := Wrap(textures);
      textureBindGroup := PlaceholderGroup;
      new;
      ReplaceGpuData();
    }

    /** `replace_gpu_data`: rebuilds the texture group only. */
    method ReplaceGpuData()
      modifies this
      ensures textureBindGroup == TextureBindGroup(meshObject.gpuMesh.name, textures)
    {
      textureBindGroup := TextureBindGroup(meshObject.gpuMesh.name, textures);
    }

    /** `add_commands`: the texture group at set 3, then the mesh object's commands. */
    method AddCommands(pass: RenderPass)
      modifies pass
      ensures pass.commands == old(pass.commands) + [SetBindGroup(MeshObjectTextureSet, textureBindGroup)] + meshObject.DrawCommands()
    {
      pass.Record(SetBindGroup(MeshObjectTextureSet, textureBindGroup));
      meshObject.AddCommands(pass);
    }
  }
}
