/**
  The texture set of a textured mesh: a list of sampled textures, each a texture
  with the sampler to read it through and a tag saying which material role it
  plays, uploaded as one bind group holding a texture-view array and a sampler
  array of equal length, in list order.
 */
module Textures {
  import opened Common
  import opened Gpu

  /** `TextureType`: the material role of a texture; `NoRole` is the source's `TextureType::None`. */
  datatype TextureType = NoRole | BaseColor | Emissive | MetallicRoughness | Normal | Occlusion

  datatype SampledTexture = SampledTexture(sampler: Sampler, texture: Texture, textureType: TextureType)

  /** `CpuTextureInfo`: a name and the textures, kept as given. */
  datatype CpuTextureInfo = CpuTextureInfo(name: string, textures: seq<SampledTexture>)

  /** `GpuTextureInfo`: the bind group built from a `CpuTextureInfo`. */
  datatype GpuTextureInfo = GpuTextureInfo(bindGroup: BindGroup)

  const TextureSet: nat := 3
  const TextureBindingTexture: nat := 0
  const TextureBindingSampler: nat := 1
  /** The fixed array length both layout entries declare. */
  const TextureArrayCount: nat := 512

  /** `GpuTextureInfo::bind_group_layout`: a filterable texture array and a filtering sampler array, both of 512. */
  const TextureLayout := BindGroupLayout(Some("mesh_object_textured_layout"), [
    LayoutEntry(TextureBindingTexture, {FragmentStage}, Texture2d(true), Some(TextureArrayCount)),
    LayoutEntry(TextureBindingSampler, {FragmentStage}, FilteringSampler, Some(TextureArrayCount))
  ])

  function TexturesOf(ts: seq<SampledTexture>): (r: seq<Texture>)
    ensures |r| == |ts| && forall k :: 0 <= k < |r| ==> r[k] == ts[k].texture
  {
    seq(|ts|, k requires 0 <= k < |ts| => ts[k].texture)
  }

  function SamplersOf(ts: seq<SampledTexture>): (r: seq<Sampler>)
    ensures |r| == |ts| && forall k :: 0 <= k < |r| ==> r[k] == ts[k].sampler
  {
    seq(|ts|, k requires 0 <= k < |ts| => ts[k].sampler)
  }

  /** `CpuTextureInfo::new`: stores the name and a copy of the list. */
  function NewCpuTextureInfo(name: string, textures: seq<SampledTexture>): (c: CpuTextureInfo)
    ensures c.name == name && c.textures == textures
  {
    CpuTextureInfo(name, textures)
  }

  /**
    `CpuTextureInfo::to_gpu`: one view and one sampler per texture, in list
    order, bound at 0 and 1 and labelled with the name. Nothing is inserted:
    an empty list gives empty arrays.
   */
  function ToGpu(c: CpuTextureInfo): (g: GpuTextureInfo)
    ensures g.bindGroup.layout == TextureLayout && g.bindGroup.name == Some(c.name)
    ensures GroupBindings(g.bindGroup) == LayoutBindings(TextureLayout) == [0, 1]
    ensures g.bindGroup.entries[0].resource.TextureViewArray?
    ensures g.bindGroup.entries[1].resource.SamplerArray?
    ensures |g.bindGroup.entries[0].resource.views| == |g.bindGroup.entries[1].resource.samplers| == |c.textures|
    ensures forall k :: 0 <= k < |c.textures| ==>
      g.bindGroup.entries[0].resource.views[k] == TextureView(c.textures[k].texture) &&
      g.bindGroup.entries[1].resource.samplers[k] == c.textures[k].sampler
  {
    GpuTextureInfo(BindGroup(Some(c.name), TextureLayout, [
      BindGroupEntry(TextureBindingTexture, TextureViewArray(ViewsOf(TexturesOf(c.textures)))),
      BindGroupEntry(TextureBindingSampler, SamplerArray(SamplersOf(c.textures)))
    ]))
  }

  /** The role tags never reach the GPU: lists that differ only in roles upload the same group. */
  lemma ToGpuIgnoresRoles(c: CpuTextureInfo, d: CpuTextureInfo)
    requires c.name == d.name && |c.textures| == |d.textures|
    requires forall k :: 0 <= k < |c.textures| ==>
      c.textures[k].texture == d.textures[k].texture && c.textures[k].sampler == d.textures[k].sampler
    ensures ToGpu(c) == ToGpu(d)
  {
    assert TexturesOf(c.textures) == TexturesOf(d.textures);
    assert SamplersOf(c.textures) == SamplersOf(d.textures);
  }

  /** `to_gpu` checks no count: the group fits the layout exactly when there are at most 512 textures. */
  lemma ToGpuFitsLayoutIff(c: CpuTextureInfo)
    ensures ArraysFitLayout(ToGpu(c).bindGroup) <==> |c.textures| <= TextureArrayCount
  {
    var g := ToGpu(c).bindGroup;
    if |c.textures| > TextureArrayCount {
      assert g.entries[0] in g.entries && g.layout.entries[0] in g.layout.entries;
    } else {
      forall e, l | e in g.entries && l in g.layout.entries && e.binding == l.binding && l.count.Some?
        ensures ResourceLength(e.resource) <= l.count.value
      {
      }
    }
  }

  /** `GpuTextureInfo::add_commands`: binds the group at set 3. */
  method AddCommands(g: GpuTextureInfo, pass: RenderPass)
    modifies pass
    ensures pass.commands == old(pass.commands) + [SetBindGroup(TextureSet, g.bindGroup)]
  {
    pass.Record(SetBindGroup(TextureSet, g.bindGroup));
  }
}
