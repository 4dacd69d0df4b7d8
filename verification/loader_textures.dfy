/**
  The texture pre-pass of the scene loader: every texture of the document,
  in order, becomes a sampled texture with no role yet, and a material picks
  from that list the textures of its five slots, each tagged with its role.
 */
module LoaderTextures {
  import opened Common
  import opened GltfDocument
  import Gpu
  import Textures
  import LoaderFormats

  /** One texture of the document: its image read and uploaded, and its sampler made. */
  function SampledTextureOf(t: GltfTexture): (r: Outcome<Textures.SampledTexture>)
    ensures r.Ok? <==> t.image.Ok? && LoaderFormats.LoadGltfTexture(t.image.value).Ok?
    ensures !t.image.Ok? ==> r == t.image.PropagateFailure()
    ensures t.image.Ok? && !r.Ok? ==> r.Panic?
    ensures r.Ok? ==> r.value.texture == LoaderFormats.LoadGltfTexture(t.image.value).value
    ensures r.Ok? ==> r.value.sampler == Gpu.Sampler(LoaderFormats.SamplerDescriptorOf(t.sampler))
    ensures r.Ok? ==> r.value.textureType == Textures.NoRole
  {
    var image :- t.image;
    var texture :- LoaderFormats.LoadGltfTexture(image);
    Ok(Textures.SampledTexture(Gpu.Sampler(LoaderFormats.SamplerDescriptorOf(t.sampler)), texture, Textures.NoRole))
  }

  /** The textures of `ts`, in order, or the first failure. */
  function SampledTextures(ts: seq<GltfTexture>): (r: Outcome<seq<Textures.SampledTexture>>)
  {
    if ts == [] then Ok([])
    else
      var earlier :- SampledTextures(ts[..|ts| - 1]);
      var last :- SampledTextureOf(ts[|ts| - 1]);
      Ok(earlier + [last])
  }

  /**
    The pre-pass succeeds exactly when every texture does, and then yields one
    entry per texture, in document order.
   */
  lemma {:induction false} SampledTexturesOkIff(ts: seq<GltfTexture>)
    ensures SampledTextures(ts).Ok? <==> forall k :: 0 <= k < |ts| ==> SampledTextureOf(ts[k]).Ok?
    ensures SampledTextures(ts).Ok? ==> |SampledTextures(ts).value| == |ts|
    ensures SampledTextures(ts).Ok? ==>
      forall k :: 0 <= k < |ts| ==> SampledTextures(ts).value[k] == SampledTextureOf(ts[k]).value
    decreases |ts|
  {
    if ts != [] {
      var init := ts[..|ts| - 1];
      SampledTexturesOkIff(init);
      assert forall k :: 0 <= k < |init| ==> init[k] == ts[k];
    }
  }

  /** Once the textures before abort, the pre-pass of more textures keeps that abort. */
  lemma {:induction false} SampledTexturesAbortPersists(a: seq<GltfTexture>, b: seq<GltfTexture>)
    requires !SampledTextures(a).Ok?
    ensures SampledTextures(a + b) == SampledTextures(a)
    decreases |b|
  {
    if b == [] {
      assert a + b == a;
    } else {
      assert (a + b)[..|a + b| - 1] == a + b[..|b| - 1];
      SampledTexturesAbortPersists(a, b[..|b| - 1]);
    }
  }

  /** The loop over `document.textures()` that fills `textured_samplers`. */
  method LoadTextures(d: Document) returns (r: Outcome<seq<Textures.SampledTexture>>)
    ensures r == SampledTextures(d.textures)
  {
    var acc: seq<Textures.SampledTexture> := [];
    var i := 0;
    while i < |d.textures|
      invariant 0 <= i <= |d.textures|
      invariant SampledTextures(d.textures[..i]) == Ok(acc)
    {
      assert d.textures[..i + 1][..i] == d.textures[..i];
      var t := d.textures[i];
      if !t.image.Ok? {
        SampledTexturesAbortPersists(d.textures[..i + 1], d.textures[i + 1..]);
        assert d.textures[..i + 1] + d.textures[i + 1..] == d.textures;
        return t.image.PropagateFailure();
      }
      var texture := LoaderFormats.LoadGltfTexture(t.image.value);
      if !texture.Ok? {
        SampledTexturesAbortPersists(d.textures[..i + 1], d.textures[i + 1..]);
        assert d.textures[..i + 1] + d.textures[i + 1..] == d.textures;
        return texture.PropagateFailure();
      }
      var sampler := Gpu.Sampler(LoaderFormats.SamplerDescriptorOf(t.sampler));
      acc := acc + [Textures.SampledTexture(sampler, texture.value, Textures.NoRole)];
      i := i + 1;
    }
    assert d.textures[..i] == d.textures;
    return Ok(acc);
  }

  /**
    A material's texture slots with their roles, in the order the loader
    visits them: emissive, base colour, metallic-roughness, normal, occlusion.
   */
  function RoleSlots(m: Material): (r: seq<(Textures.TextureType, Option<nat>)>)
    ensures |r| == 5
    ensures forall k :: 0 <= k < 5 ==> r[k].0 != Textures.NoRole
  {
    [(Textures.Emissive, m.emissiveTexture), (Textures.BaseColor, m.baseColorTexture),
     (Textures.MetallicRoughness, m.metallicRoughnessTexture), (Textures.Normal, m.normalTexture),
     (Textures.Occlusion, m.occlusionTexture)]
  }

  predicate SlotsInRange(slots: seq<(Textures.TextureType, Option<nat>)>, count: nat) {
    forall k :: 0 <= k < |slots| && slots[k].1.Some? ==> slots[k].1.value < count
  }

  /** `t` is the texture some filled slot names, tagged with that slot's role. */
  predicate FromSlot(t: Textures.SampledTexture, slots: seq<(Textures.TextureType, Option<nat>)>, samplers: seq<Textures.SampledTexture>)
    requires SlotsInRange(slots, |samplers|)
  {
    exists k :: 0 <= k < |slots| && slots[k].1.Some? && t == samplers[slots[k].1.value].(textureType := slots[k].0)
  }

  /** The filled slots of `slots`, in order, each a copy of its texture tagged with the slot's role. */
  function PickSlots(slots: seq<(Textures.TextureType, Option<nat>)>, samplers: seq<Textures.SampledTexture>): (r: seq<Textures.SampledTexture>)
    requires SlotsInRange(slots, |samplers|)
    ensures |r| <= |slots|
    ensures forall t :: t in r ==> FromSlot(t, slots, samplers)
    decreases |slots|
  {
    if slots == [] then []
    else
      var rest := PickSlots(slots[1..], samplers);
      assert forall t :: t in rest ==> FromSlot(t, slots, samplers) by {
        forall t | t in rest
          ensures FromSlot(t, slots, samplers)
        {
          var j :| 0 <= j < |slots[1..]| && slots[1..][j].1.Some? &&
            t == samplers[slots[1..][j].1.value].(textureType := slots[1..][j].0);
          assert slots[j + 1] == slots[1..][j];
        }
      }
      match slots[0].1
      case None => rest
      case Some(i) => [samplers[i].(textureType := slots[0].0)] + rest
  }

  /**
    The textures a material contributes: its filled slots, in slot order,
    each the pre-pass texture the slot names with the slot's role.
   */
  function MaterialTextures(m: Material, samplers: seq<Textures.SampledTexture>): (r: seq<Textures.SampledTexture>)
    requires SlotsInRange(RoleSlots(m), |samplers|)
  {
    PickSlots(RoleSlots(m), samplers)
  }

  /** The position of a role in the loader's slot order. */
  function SlotRank(t: Textures.TextureType): nat {
    match t
    case Emissive => 0
    case BaseColor => 1
    case MetallicRoughness => 2
    case Normal => 3
    case Occlusion => 4
    case NoRole => 5
  }

  predicate RolesIncreasing(slots: seq<(Textures.TextureType, Option<nat>)>) {
    forall i, j :: 0 <= i < j < |slots| ==> SlotRank(slots[i].0) < SlotRank(slots[j].0)
  }

  /** The roles of `ts` strictly follow the slot order, so none occurs twice. */
  predicate InSlotOrder(ts: seq<Textures.SampledTexture>) {
    forall i, j :: 0 <= i < j < |ts| ==> SlotRank(ts[i].textureType) < SlotRank(ts[j].textureType)
  }

  /** Picking keeps the slot order, so the picked roles come in the same strictly increasing order. */
  lemma {:induction false} PickSlotsIncreasing(slots: seq<(Textures.TextureType, Option<nat>)>, samplers: seq<Textures.SampledTexture>)
    requires SlotsInRange(slots, |samplers|) && RolesIncreasing(slots)
    ensures InSlotOrder(PickSlots(slots, samplers))
    decreases |slots|
  {
    if slots != [] {
      var rest := PickSlots(slots[1..], samplers);
      PickSlotsIncreasing(slots[1..], samplers);
      PickSlotsAfterFirst(slots, samplers);
      if slots[0].1.Some? {
        var r := PickSlots(slots, samplers);
        assert r == [samplers[slots[0].1.value].(textureType := slots[0].0)] + rest;
        forall i, j | 0 <= i < j < |r|
          ensures SlotRank(r[i].textureType) < SlotRank(r[j].textureType)
        {
          assert r[j] == rest[j - 1] && rest[j - 1] in rest;
          if i > 0 {
            assert r[i] == rest[i - 1];
            assert SlotRank(rest[i - 1].textureType) < SlotRank(rest[j - 1].textureType);
          } else {
            assert r[i].textureType == slots[0].0;
            assert SlotRank(slots[0].0) < SlotRank(rest[j - 1].textureType);
          }
        }
      }
    }
  }
  /** Every texture picked after the first slot has a later role than the first slot's. */
  lemma PickSlotsAfterFirst(slots: seq<(Textures.TextureType, Option<nat>)>, samplers: seq<Textures.SampledTexture>)
    requires SlotsInRange(slots, |samplers|) && RolesIncreasing(slots) && slots != []
    ensures forall t :: t in PickSlots(slots[1..], samplers) ==> SlotRank(slots[0].0) < SlotRank(t.textureType)
  {
    var rest := PickSlots(slots[1..], samplers);
    forall t | t in rest
      ensures SlotRank(slots[0].0) < SlotRank(t.textureType)
    {
      var k :| 0 <= k < |slots[1..]| && slots[1..][k].1.Some? &&
        t == samplers[slots[1..][k].1.value].(textureType := slots[1..][k].0);
      assert slots[1..][k] == slots[k + 1];
    }
  }


  /** A filled slot always contributes its texture, tagged with its role. */
  lemma {:induction false} PickSlotsComplete(slots: seq<(Textures.TextureType, Option<nat>)>, samplers: seq<Textures.SampledTexture>, k: nat)
    requires SlotsInRange(slots, |samplers|) && k < |slots| && slots[k].1.Some?
    ensures samplers[slots[k].1.value].(textureType := slots[k].0) in PickSlots(slots, samplers)
    decreases k
  {
    if k > 0 {
      assert slots[1..][k - 1] == slots[k];
      PickSlotsComplete(slots[1..], samplers, k - 1);
    }
  }

  /**
    A role is carried by a material texture exactly when the material fills
    that slot, and then by the texture the slot names; no role is carried
    twice, and the textures come in slot order.
   */
  lemma MaterialTexturesByRole(m: Material, samplers: seq<Textures.SampledTexture>, k: nat)
    requires SlotsInRange(RoleSlots(m), |samplers|) && k < 5
    ensures var slot := RoleSlots(m)[k];
      slot.1.None? ==> forall t :: t in MaterialTextures(m, samplers) ==> t.textureType != slot.0
    ensures var slot := RoleSlots(m)[k];
      slot.1.Some? ==> samplers[slot.1.value].(textureType := slot.0) in MaterialTextures(m, samplers)
    ensures InSlotOrder(MaterialTextures(m, samplers))
  {
    var slots := RoleSlots(m);
    assert RolesIncreasing(slots);
    PickSlotsIncreasing(slots, samplers);
    if slots[k].1.Some? {
      PickSlotsComplete(slots, samplers, k);
    } else {
      forall t | t in MaterialTextures(m, samplers)
        ensures t.textureType != slots[k].0
      {
        var a :| 0 <= a < |slots| && slots[a].1.Some? && t == samplers[slots[a].1.value].(textureType := slots[a].0);
        assert a != k;
      }
    }
  }
}
