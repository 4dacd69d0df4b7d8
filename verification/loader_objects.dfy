/**
  `load_gltf_objects`: decode the root meshes, build the texture list, then
  walk the nodes from node 0 and emit, for every node with a mesh, a textured
  mesh object holding one instance at the node's accumulated transform and
  the textures of its primitive's material. Reading the file (`gltf::import`)
  is outside the model: the imported document is the input.
 */
module LoaderObjects {
  import opened Common
  import opened GltfDocument
  import Textures
  import VertexMesh
  import MeshObjects
  import FragmentTextured
  import LoaderMeshes
  import LoaderFormats
  import LoaderTextures
  import LoaderTraversal

  /** The mesh indices the decoded meshes are tagged with, in order. */
  function MeshIndices(decoded: seq<LoaderMeshes.DecodedMesh>): (r: seq<nat>)
    ensures |r| == |decoded|
    ensures forall k :: 0 <= k < |r| ==> r[k] == decoded[k].meshIndex
  {
    seq(|decoded|, k requires 0 <= k < |decoded| => decoded[k].meshIndex)
  }

  /** `iter().find(..)` on the tags: the first position holding `x`. */
  function FindTag(tags: seq<nat>, x: nat): (r: Option<nat>)
    ensures r.Some? ==> r.value < |tags| && tags[r.value] == x
    ensures r.Some? ==> forall j :: 0 <= j < r.value ==> tags[j] != x
    ensures r.None? <==> x !in tags
  {
    if tags == [] then None
    else if tags[0] == x then Some(0)
    else match FindTag(tags[1..], x)
      case None => None
      case Some(i) => Some(i + 1)
  }

  /** What one popped node emits: the decoded geometry, the instance transform and the textures. */
  datatype Emitted = Emitted(geometry: LoaderMeshes.DecodedMesh, transform: Mat4, textures: seq<Textures.SampledTexture>)

  /**
    The textures of a primitive: none without a material; with one, an abort
    unless it is opaque, else its slots in the loader's order.
   */
  function PrimitiveTextures(d: Document, samplers: seq<Textures.SampledTexture>, p: Primitive): (r: Outcome<seq<Textures.SampledTexture>>)
    requires WellFormed(d) && PrimitiveValid(d, p) && |samplers| == |d.textures|
    ensures p.material.None? ==> r == Ok([])
    ensures p.material.Some? ==> (r.Ok? <==> d.materials[p.material.value].alphaMode == Opaque)
    ensures p.material.Some? && r.Ok? ==>
      LoaderTextures.SlotsInRange(LoaderTextures.RoleSlots(d.materials[p.material.value]), |samplers|) &&
      r.value == LoaderTextures.MaterialTextures(d.materials[p.material.value], samplers)
    ensures !r.Ok? ==> r.Panic?
  {
    match p.material
    case None => Ok([])
    case Some(i) =>
      var m := d.materials[i];
      assert MaterialValid(d, m);
      if m.alphaMode != Opaque then Panic("not yet implemented")
      else Ok(LoaderTextures.MaterialTextures(m, samplers))
  }

  /**
    The body of the walk for one popped entry. A node without a mesh emits
    nothing. A mesh missing from the decoded list is the error "could not find
    mesh"; then a mesh of several primitives aborts, one of none emits
    nothing, and otherwise the first decoded mesh with that index is emitted
    at the entry's accumulated transform with its primitive's textures.
   */
  function VisitOutcome(d: Document, decoded: seq<LoaderMeshes.DecodedMesh>, samplers: seq<Textures.SampledTexture>,
    p: LoaderTraversal.Pending): (r: Outcome<Option<Emitted>>)
    requires WellFormed(d) && p.index < |d.nodes| && |samplers| == |d.textures|
  {
    match d.nodes[p.index].mesh
    case None => Ok(None)
    case Some(mi) =>
      var found := FindTag(MeshIndices(decoded), mi);
      if found.None? then Err("could not find mesh")
      else
        var mesh := d.meshes[mi];
        if |mesh.primitives| > 1 then Panic("we don't handle meshes with multiple primitives")
        else if |mesh.primitives| == 0 then Ok(None)
        else
          var textures :- PrimitiveTextures(d, samplers, mesh.primitives[0]);
          Ok(Some(Emitted(decoded[found.value], LoaderTraversal.ThisTransform(d, p), textures)))
  }

  /**
    What a visit yields: nothing for a node without a mesh, the lookup error
    for a mesh that was not decoded, and otherwise the decoded mesh of one
    primitive at the accumulated transform with that primitive's textures.
   */
  lemma VisitOutcomeMeaning(d: Document, decoded: seq<LoaderMeshes.DecodedMesh>, samplers: seq<Textures.SampledTexture>,
    p: LoaderTraversal.Pending)
    requires WellFormed(d) && p.index < |d.nodes| && |samplers| == |d.textures|
    ensures d.nodes[p.index].mesh.None? ==> VisitOutcome(d, decoded, samplers, p) == Ok(None)
    ensures d.nodes[p.index].mesh.Some? && d.nodes[p.index].mesh.value !in MeshIndices(decoded) ==>
      VisitOutcome(d, decoded, samplers, p) == Err("could not find mesh")
    ensures VisitOutcome(d, decoded, samplers, p).Err? ==> VisitOutcome(d, decoded, samplers, p) == Err("could not find mesh")
    ensures VisitOutcome(d, decoded, samplers, p).Ok? && VisitOutcome(d, decoded, samplers, p).value.Some? ==> d.nodes[p.index].mesh.Some?
    ensures VisitOutcome(d, decoded, samplers, p).Ok? && VisitOutcome(d, decoded, samplers, p).value.Some? ==>
      var mi := d.nodes[p.index].mesh.value;
      var found := FindTag(MeshIndices(decoded), mi);
      found.Some? && VisitOutcome(d, decoded, samplers, p).value.value.geometry == decoded[found.value] &&
      VisitOutcome(d, decoded, samplers, p).value.value.transform == LoaderTraversal.ThisTransform(d, p) &&
      |d.meshes[mi].primitives| == 1 &&
      PrimitiveTextures(d, samplers, d.meshes[mi].primitives[0]) == Ok(VisitOutcome(d, decoded, samplers, p).value.value.textures)
  {
  }

  /** What the popped entries `visits` emit, in order, or the first failure. */
  function Emissions(d: Document, decoded: seq<LoaderMeshes.DecodedMesh>, samplers: seq<Textures.SampledTexture>,
    visits: seq<LoaderTraversal.Pending>): (r: Outcome<seq<Emitted>>)
    requires WellFormed(d) && LoaderTraversal.QueueInRange(d, visits) && |samplers| == |d.textures|
    ensures r.Ok? ==> |r.value| <= |visits|
  {
    if visits == [] then Ok([])
    else
      var earlier :- Emissions(d, decoded, samplers, visits[..|visits| - 1]);
      var last :- VisitOutcome(d, decoded, samplers, visits[|visits| - 1]);
      Ok(earlier + if last.Some? then [last.value] else [])
  }

  /**
    `load_gltf_objects` as a value: the decoding aborts, then the texture
    pre-pass fails, then an empty node list aborts on indexing node 0, and
    otherwise the walk from node 0 emits.
   */
  function ObjectsSpec(d: Document, rank: seq<nat>): (r: Outcome<seq<Emitted>>)
    requires WellFormed(d) && RankedBy(d, rank)
  {
    var decoded :- LoaderMeshes.DecodedMeshes(d);
    var samplers :- LoaderTextures.SampledTextures(d.textures);
    LoaderTextures.SampledTexturesOkIff(d.textures);
    if |d.nodes| == 0 then Panic("index out of bounds: the len is 0 but the index is 0")
    else Emissions(d, decoded, samplers, LoaderTraversal.Walk(d, rank))
  }

  /** Emitting one more entry appends what it emits; a failure there is the result. */
  lemma EmissionsSnoc(d: Document, decoded: seq<LoaderMeshes.DecodedMesh>, samplers: seq<Textures.SampledTexture>,
    visits: seq<LoaderTraversal.Pending>, p: LoaderTraversal.Pending)
    requires WellFormed(d) && LoaderTraversal.QueueInRange(d, visits) && p.index < |d.nodes| && |samplers| == |d.textures|
    ensures LoaderTraversal.QueueInRange(d, visits + [p])
    ensures Emissions(d, decoded, samplers, visits).Ok? && VisitOutcome(d, decoded, samplers, p).Ok? ==>
      Emissions(d, decoded, samplers, visits + [p]) == Ok(Emissions(d, decoded, samplers, visits).value +
        if VisitOutcome(d, decoded, samplers, p).value.Some? then [VisitOutcome(d, decoded, samplers, p).value.value] else [])
    ensures Emissions(d, decoded, samplers, visits).Ok? && !VisitOutcome(d, decoded, samplers, p).Ok? ==>
      Emissions(d, decoded, samplers, visits + [p]) == VisitOutcome(d, decoded, samplers, p).PropagateFailure()
  {
    assert (visits + [p])[..|visits + [p]| - 1] == visits;
  }

  /** Once an entry fails, emitting more entries keeps that failure. */
  lemma {:induction false} EmissionsAbortPersists(d: Document, decoded: seq<LoaderMeshes.DecodedMesh>,
    samplers: seq<Textures.SampledTexture>, a: seq<LoaderTraversal.Pending>, b: seq<LoaderTraversal.Pending>)
    requires WellFormed(d) && |samplers| == |d.textures|
    requires LoaderTraversal.QueueInRange(d, a) && LoaderTraversal.QueueInRange(d, b)
    requires !Emissions(d, decoded, samplers, a).Ok?
    ensures LoaderTraversal.QueueInRange(d, a + b)
    ensures Emissions(d, decoded, samplers, a + b) == Emissions(d, decoded, samplers, a)
    decreases |b|
  {
    if b == [] {
      assert a + b == a;
    } else {
      assert (a + b)[..|a + b| - 1] == a + b[..|b| - 1];
      EmissionsAbortPersists(d, decoded, samplers, a, b[..|b| - 1]);
    }
  }

  /** The walk's emission succeeds exactly when no popped entry fails. */
  lemma EmissionsOkIff(d: Document, decoded: seq<LoaderMeshes.DecodedMesh>,
    samplers: seq<Textures.SampledTexture>, visits: seq<LoaderTraversal.Pending>)
    requires WellFormed(d) && LoaderTraversal.QueueInRange(d, visits) && |samplers| == |d.textures|
    ensures Emissions(d, decoded, samplers, visits).Ok? <==>
      forall k :: 0 <= k < |visits| ==> VisitOutcome(d, decoded, samplers, visits[k]).Ok?
  {
    if Emissions(d, decoded, samplers, visits).Ok? {
      EmissionsOkAll(d, decoded, samplers, visits);
    } else {
      EmissionsFailSome(d, decoded, samplers, visits);
    }
  }

  lemma {:induction false} EmissionsOkAll(d: Document, decoded: seq<LoaderMeshes.DecodedMesh>,
    samplers: seq<Textures.SampledTexture>, visits: seq<LoaderTraversal.Pending>)
    requires WellFormed(d) && LoaderTraversal.QueueInRange(d, visits) && |samplers| == |d.textures|
    requires Emissions(d, decoded, samplers, visits).Ok?
    ensures forall k :: 0 <= k < |visits| ==> VisitOutcome(d, decoded, samplers, visits[k]).Ok?
    decreases |visits|
  {
    if visits != [] {
      var init := visits[..|visits| - 1];
      EmissionsOkStep(d, decoded, samplers, visits);
      EmissionsOkAll(d, decoded, samplers, init);
      forall k | 0 <= k < |visits|
        ensures VisitOutcome(d, decoded, samplers, visits[k]).Ok?
      {
        if k < |init| {
          assert init[k] == visits[k];
        }
      }
    }
  }

  lemma {:induction false} EmissionsFailSome(d: Document, decoded: seq<LoaderMeshes.DecodedMesh>,
    samplers: seq<Textures.SampledTexture>, visits: seq<LoaderTraversal.Pending>)
    requires WellFormed(d) && LoaderTraversal.QueueInRange(d, visits) && |samplers| == |d.textures|
    requires !Emissions(d, decoded, samplers, visits).Ok?
    ensures exists k :: 0 <= k < |visits| && !VisitOutcome(d, decoded, samplers, visits[k]).Ok?
    decreases |visits|
  {
    var init := visits[..|visits| - 1];
    EmissionsOkStep(d, decoded, samplers, visits);
    if Emissions(d, decoded, samplers, init).Ok? {
      assert !VisitOutcome(d, decoded, samplers, visits[|visits| - 1]).Ok?;
    } else {
      EmissionsFailSome(d, decoded, samplers, init);
      var k :| 0 <= k < |init| && !VisitOutcome(d, decoded, samplers, init[k]).Ok?;
      assert init[k] == visits[k];
    }
  }

  lemma EmissionsOkStep(d: Document, decoded: seq<LoaderMeshes.DecodedMesh>,
    samplers: seq<Textures.SampledTexture>, visits: seq<LoaderTraversal.Pending>)
    requires WellFormed(d) && LoaderTraversal.QueueInRange(d, visits) && |samplers| == |d.textures| && visits != []
    ensures LoaderTraversal.QueueInRange(d, visits[..|visits| - 1])
    ensures Emissions(d, decoded, samplers, visits).Ok? <==>
      Emissions(d, decoded, samplers, visits[..|visits| - 1]).Ok? && VisitOutcome(d, decoded, samplers, visits[|visits| - 1]).Ok?
  {
  }

  /**
    Every mesh in the decoded list has exactly one primitive, so the walk's
    abort on several primitives, and its skip of a mesh with none, can never
    be reached after a successful decoding.
   */
  lemma DecodedMeshHasOnePrimitive(d: Document, mi: nat)
    requires WellFormed(d) && LoaderMeshes.DecodedMeshes(d).Ok?
    requires mi in MeshIndices(LoaderMeshes.DecodedMeshes(d).value)
    ensures mi < |d.meshes| && |d.meshes[mi].primitives| == 1
  {
    var decoded := LoaderMeshes.DecodedMeshes(d).value;
    var roots := LoaderMeshes.RootNodes(d.scenes);
    LoaderMeshes.RootNodesInRange(d, |d.scenes|);
    assert d.scenes[..|d.scenes|] == d.scenes;
    LoaderMeshes.DecodeNodesMembers(d, roots);
    var k :| 0 <= k < |decoded| && decoded[k].meshIndex == mi;
    assert decoded[k] in LoaderMeshes.DecodeNodes(d, roots).value;
    var j :| 0 <= j < |roots| && LoaderMeshes.DecodeNode(d, roots[j]) == Ok(Some(decoded[k]));
  }

  /**
    After a successful decoding a node's visit ends in one of three ways
    only: the mesh is missing, its material is not opaque, or the node emits.
   */
  lemma VisitOutcomeCases(d: Document, samplers: seq<Textures.SampledTexture>, p: LoaderTraversal.Pending)
    requires WellFormed(d) && LoaderMeshes.DecodedMeshes(d).Ok? && p.index < |d.nodes| && |samplers| == |d.textures|
    requires d.nodes[p.index].mesh.Some?
    ensures var r := VisitOutcome(d, LoaderMeshes.DecodedMeshes(d).value, samplers, p);
      var mi := d.nodes[p.index].mesh.value;
      r == Err("could not find mesh") || (r.Ok? && r.value.Some?) ||
      (r.Panic? && d.meshes[mi].primitives[0].material.Some? &&
       d.materials[d.meshes[mi].primitives[0].material.value].alphaMode != Opaque)
  {
    var mi := d.nodes[p.index].mesh.value;
    if mi in MeshIndices(LoaderMeshes.DecodedMeshes(d).value) {
      DecodedMeshHasOnePrimitive(d, mi);
      assert PrimitiveValid(d, d.meshes[mi].primitives[0]);
    }
  }

  /**
    A mesh that no root node of any scene references is absent from the
    decoded list, so a node reaching it in the walk gets "could not find mesh".
   */
  lemma NonRootMeshNotFound(d: Document, samplers: seq<Textures.SampledTexture>, p: LoaderTraversal.Pending)
    requires WellFormed(d) && LoaderMeshes.DecodedMeshes(d).Ok? && p.index < |d.nodes| && |samplers| == |d.textures|
    requires d.nodes[p.index].mesh.Some?
    requires forall n :: n in LoaderMeshes.RootNodes(d.scenes) && n < |d.nodes| ==> d.nodes[n].mesh != d.nodes[p.index].mesh
    ensures VisitOutcome(d, LoaderMeshes.DecodedMeshes(d).value, samplers, p) == Err("could not find mesh")
  {
    var decoded := LoaderMeshes.DecodedMeshes(d).value;
    var roots := LoaderMeshes.RootNodes(d.scenes);
    LoaderMeshes.RootNodesInRange(d, |d.scenes|);
    assert d.scenes[..|d.scenes|] == d.scenes;
    LoaderMeshes.DecodeNodesMembers(d, roots);
    var mi := d.nodes[p.index].mesh.value;
    forall k | 0 <= k < |decoded|
      ensures decoded[k].meshIndex != mi
    {
      assert decoded[k] in LoaderMeshes.DecodeNodes(d, roots).value;
      var j :| 0 <= j < |roots| && LoaderMeshes.DecodeNode(d, roots[j]) == Ok(Some(decoded[k]));
      assert roots[j] in roots;
    }
  }

  /** The GPU mesh `to_gpu` makes of a loader-built `CpuMesh` holding `v`. */
  function GpuMeshOf(v: LoaderMeshes.DecodedMesh): VertexMesh.GpuMesh {
    var prefix := if v.name.Some? then v.name.value else VertexMesh.DefaultNamePrefix(|v.position|, |v.index|);
    VertexMesh.GpuMeshFrom(prefix, v.position, v.index, v.color, v.normal, v.uv, None)
  }

  /**
    `o` is the object emitted for `e`: the uploaded geometry, exactly one
    instance at the node's transform with the GPU copy in sync, and the
    textures named after the mesh.
   */
  predicate Emits(o: FragmentTextured.MeshObjectTextured, e: Emitted)
    reads o, o.meshObject
  {
    o.meshObject.gpuMesh == GpuMeshOf(e.geometry) &&
    o.meshObject.instances == [e.transform] &&
    o.cpuTextures == Textures.NewCpuTextureInfo(o.meshObject.gpuMesh.name, e.textures) &&
    o.Synced()
  }

  predicate AllEmit(os: seq<FragmentTextured.MeshObjectTextured>, es: seq<Emitted>)
    reads set o | o in os, set o | o in os :: o.meshObject
  {
    |os| == |es| && forall k :: 0 <= k < |os| ==> Emits(os[k], es[k])
  }

  lemma AllEmitSnoc(os: seq<FragmentTextured.MeshObjectTextured>, es: seq<Emitted>, o: FragmentTextured.MeshObjectTextured, e: Emitted)
    requires AllEmit(os, es) && Emits(o, e)
    ensures AllEmit(os + [o], es + [e])
  {
    assert forall k :: 0 <= k < |os| ==> (os + [o])[k] == os[k] && (es + [e])[k] == es[k];
  }

  /** The five conditional pushes of a material's textures, in the loader's slot order. */
  method CollectMaterialTextures(m: Material, samplers: seq<Textures.SampledTexture>) returns (r: seq<Textures.SampledTexture>)
    requires LoaderTextures.SlotsInRange(LoaderTextures.RoleSlots(m), |samplers|)
    ensures r == LoaderTextures.MaterialTextures(m, samplers)
  {
    var slots := LoaderTextures.RoleSlots(m);
    assert slots[0].1 == m.emissiveTexture && slots[1].1 == m.baseColorTexture;
    assert slots[2].1 == m.metallicRoughnessTexture && slots[3].1 == m.normalTexture && slots[4].1 == m.occlusionTexture;
    r := [];
    if m.occlusionTexture.Some? {
      r := [samplers[m.occlusionTexture.value].(textureType := Textures.Occlusion)];
    }
    assert r == LoaderTextures.PickSlots(slots[4..], samplers);
    if m.normalTexture.Some? {
      r := [samplers[m.normalTexture.value].(textureType := Textures.Normal)] + r;
    }
    assert r == LoaderTextures.PickSlots(slots[3..], samplers);
    if m.metallicRoughnessTexture.Some? {
      r := [samplers[m.metallicRoughnessTexture.value].(textureType := Textures.MetallicRoughness)] + r;
    }
    assert r == LoaderTextures.PickSlots(slots[2..], samplers);
    if m.baseColorTexture.Some? {
      r := [samplers[m.baseColorTexture.value].(textureType := Textures.BaseColor)] + r;
    }
    assert r == LoaderTextures.PickSlots(slots[1..], samplers);
    if m.emissiveTexture.Some? {
      r := [samplers[m.emissiveTexture.value].(textureType := Textures.Emissive)] + r;
    }
  }

  /** The loop that enqueues a node's children, in order, each carrying `t`. */
  method PushChildren(stack: seq<LoaderTraversal.Pending>, t: Mat4, children: seq<nat>) returns (r: seq<LoaderTraversal.Pending>)
    ensures r == stack + LoaderTraversal.ChildEntries(t, children)
  {
    r := stack;
    var i := 0;
    while i < |children|
      invariant 0 <= i <= |children|
      invariant r == stack + LoaderTraversal.ChildEntries(t, children[..i])
    {
      assert LoaderTraversal.ChildEntries(t, children[..i + 1]) ==
        LoaderTraversal.ChildEntries(t, children[..i]) + [LoaderTraversal.Pending(t, children[i])];
      r := r + [LoaderTraversal.Pending(t, children[i])];
      i := i + 1;
    }
    assert children[..i] == children;
  }

  /**
    The body of the walk for one popped entry: look the mesh up among the
    decoded meshes, collect the material's textures, upload the geometry,
    and build the mesh object with its one synced instance and its textures.
   */
  method Visit(d: Document, meshes: seq<(nat, VertexMesh.CpuMesh)>, ghost decoded: seq<LoaderMeshes.DecodedMesh>,
    samplers: seq<Textures.SampledTexture>, top: LoaderTraversal.Pending)
    returns (r: Outcome<Option<FragmentTextured.MeshObjectTextured>>)
    requires WellFormed(d) && top.index < |d.nodes| && |samplers| == |d.textures|
    requires LoaderMeshes.Tagged(meshes, decoded)
    ensures r.Ok? == VisitOutcome(d, decoded, samplers, top).Ok?
    ensures !r.Ok? ==> r == VisitOutcome(d, decoded, samplers, top).PropagateFailure()
    ensures r.Ok? ==> r.value.Some? == VisitOutcome(d, decoded, samplers, top).value.Some?
    ensures r.Ok? && r.value.Some? ==> fresh(r.value.value) && fresh(r.value.value.meshObject)
    ensures r.Ok? && r.value.Some? ==> Emits(r.value.value, VisitOutcome(d, decoded, samplers, top).value.value)
  {
    var node := d.nodes[top.index];
    var thisTransform := Mul(LoaderFormats.ToGlam(node.transform), top.transform);
    if node.mesh.None? {
      return Ok(None);
    }
    var mi := node.mesh.value;
    var tags := seq(|meshes|, k requires 0 <= k < |meshes| => meshes[k].0);
    assert tags == MeshIndices(decoded);
    var found := FindTag(tags, mi);
    if found.None? {
      return Err("could not find mesh");
    }
    var mesh := d.meshes[mi];
    if |mesh.primitives| > 1 {
      return Panic("we don't handle meshes with multiple primitives");
    }
    if |mesh.primitives| == 0 {
      return Ok(None);
    }
    var primitive := mesh.primitives[0];
    assert PrimitiveValid(d, primitive);
    var textures := ReadPrimitiveTextures(d, samplers, primitive);
    if !textures.Ok? {
      return textures.PropagateFailure();
    }
    var geometry := meshes[found.value].1;
    var gpuMesh := geometry.ToGpu();
    assert gpuMesh == GpuMeshOf(decoded[found.value]);
    var textured := NewTexturedObject(gpuMesh, thisTransform, textures.value);
    return Ok(Some(textured));
  }

  /** The material part of a visit: no textures without a material, and only opaque materials are handled. */
  method ReadPrimitiveTextures(d: Document, samplers: seq<Textures.SampledTexture>, primitive: Primitive)
    returns (r: Outcome<seq<Textures.SampledTexture>>)
    requires WellFormed(d) && PrimitiveValid(d, primitive) && |samplers| == |d.textures|
    ensures r == PrimitiveTextures(d, samplers, primitive)
  {
    var textures: seq<Textures.SampledTexture> := [];
    if primitive.material.Some? {
      var material := d.materials[primitive.material.value];
      if material.alphaMode != Opaque {
        return Panic("not yet implemented");
      }
      assert MaterialValid(d, material);
      textures := CollectMaterialTextures(material, samplers);
    }
    return Ok(textures);
  }

  /** The object of one visit: a mesh object at one transform, synced, wrapped with its textures. */
  method NewTexturedObject(gpuMesh: VertexMesh.GpuMesh, transform: Mat4, textures: seq<Textures.SampledTexture>)
    returns (o: FragmentTextured.MeshObjectTextured)
    ensures fresh(o) && fresh(o.meshObject)
    ensures o.meshObject.gpuMesh == gpuMesh && o.meshObject.instances == [transform]
    ensures o.cpuTextures == Textures.NewCpuTextureInfo(gpuMesh.name, textures) && o.Synced()
  {
    var meshObject := new MeshObjects.MeshObject.New(gpuMesh);
    meshObject.SetSingleTransform(transform);
    meshObject.ReplaceGpuData();
    o := new FragmentTextured.MeshObjectTextured.New(meshObject, textures);
  }

  /**
    One pass of the worklist loop after the pop: visit the entry and append
    the object it emits, if any, to the output so far.
   */
  method VisitAndAppend(d: Document, meshes: seq<(nat, VertexMesh.CpuMesh)>, ghost decoded: seq<LoaderMeshes.DecodedMesh>,
    samplers: seq<Textures.SampledTexture>, ghost visited: seq<LoaderTraversal.Pending>, top: LoaderTraversal.Pending,
    output: seq<FragmentTextured.MeshObjectTextured>, ghost emitted: seq<Emitted>)
    returns (r: Outcome<seq<FragmentTextured.MeshObjectTextured>>, ghost emitted': seq<Emitted>)
    requires WellFormed(d) && top.index < |d.nodes| && |samplers| == |d.textures|
    requires LoaderMeshes.Tagged(meshes, decoded) && LoaderTraversal.QueueInRange(d, visited)
    requires Emissions(d, decoded, samplers, visited) == Ok(emitted) && AllEmit(output, emitted)
    ensures LoaderTraversal.QueueInRange(d, visited + [top])
    ensures r.Ok? == Emissions(d, decoded, samplers, visited + [top]).Ok?
    ensures !r.Ok? ==> r == Emissions(d, decoded, samplers, visited + [top]).PropagateFailure()
    ensures r.Ok? ==> Emissions(d, decoded, samplers, visited + [top]) == Ok(emitted') && AllEmit(r.value, emitted')
  {
    var one := Visit(d, meshes, decoded, samplers, top);
    EmissionsSnoc(d, decoded, samplers, visited, top);
    if !one.Ok? {
      return one.PropagateFailure(), emitted;
    }
    assert AllEmit(output, emitted);
    if one.value.Some? {
      var e := VisitOutcome(d, decoded, samplers, top).value.value;
      AllEmitSnoc(output, emitted, one.value.value, e);
      return Ok(output + [one.value.value]), emitted + [e];
    }
    assert emitted + [] == emitted;
    return Ok(output), emitted;
  }

  /** Popping the front entry moves it to the visited entries and leaves one unit less of work. */
  lemma PopInWalk(d: Document, rank: seq<nat>, visited: seq<LoaderTraversal.Pending>, stack: seq<LoaderTraversal.Pending>)
    requires RankedBy(d, rank) && |d.nodes| > 0 && stack != []
    requires LoaderTraversal.QueueInRange(d, stack) && LoaderTraversal.QueueInRange(d, visited)
    requires visited + LoaderTraversal.Visits(d, rank, stack) == LoaderTraversal.Walk(d, rank)
    ensures LoaderTraversal.QueueInRange(d, LoaderTraversal.Step(d, stack))
    ensures LoaderTraversal.QueueWork(d, rank, LoaderTraversal.Step(d, stack)) < LoaderTraversal.QueueWork(d, rank, stack)
    ensures (visited + [stack[0]]) + LoaderTraversal.Visits(d, rank, LoaderTraversal.Step(d, stack)) == LoaderTraversal.Walk(d, rank)
  {
    LoaderTraversal.StepWork(d, rank, stack);
    assert LoaderTraversal.Visits(d, rank, stack) == [stack[0]] + LoaderTraversal.Visits(d, rank, LoaderTraversal.Step(d, stack));
  }

  /** A failure at the popped entry is the failure of the whole walk. */
  lemma AbortInWalk(d: Document, rank: seq<nat>, decoded: seq<LoaderMeshes.DecodedMesh>, samplers: seq<Textures.SampledTexture>,
    visited: seq<LoaderTraversal.Pending>, stack: seq<LoaderTraversal.Pending>)
    requires WellFormed(d) && RankedBy(d, rank) && |d.nodes| > 0 && stack != [] && |samplers| == |d.textures|
    requires LoaderTraversal.QueueInRange(d, stack) && LoaderTraversal.QueueInRange(d, visited + [stack[0]])
    requires visited + LoaderTraversal.Visits(d, rank, stack) == LoaderTraversal.Walk(d, rank)
    requires !Emissions(d, decoded, samplers, visited + [stack[0]]).Ok?
    ensures Emissions(d, decoded, samplers, LoaderTraversal.Walk(d, rank)) == Emissions(d, decoded, samplers, visited + [stack[0]])
  {
    PopInWalk(d, rank, visited, stack);
    var rest := LoaderTraversal.Visits(d, rank, LoaderTraversal.Step(d, stack));
    EmissionsAbortPersists(d, decoded, samplers, visited + [stack[0]], rest);
  }

  /**
    The end of one pass of the worklist loop: the popped entry's children are
    enqueued behind the rest of the worklist, at the popped entry's
    accumulated transform.
   */
  method PopAndPush(d: Document, ghost rank: seq<nat>, ghost visited: seq<LoaderTraversal.Pending>, stack: seq<LoaderTraversal.Pending>)
    returns (next: seq<LoaderTraversal.Pending>)
    requires RankedBy(d, rank) && |d.nodes| > 0 && stack != []
    requires LoaderTraversal.QueueInRange(d, stack) && LoaderTraversal.QueueInRange(d, visited)
    requires visited + LoaderTraversal.Visits(d, rank, stack) == LoaderTraversal.Walk(d, rank)
    ensures next == LoaderTraversal.Step(d, stack) && LoaderTraversal.QueueInRange(d, next)
    ensures LoaderTraversal.QueueWork(d, rank, next) < LoaderTraversal.QueueWork(d, rank, stack)
    ensures (visited + [stack[0]]) + LoaderTraversal.Visits(d, rank, next) == LoaderTraversal.Walk(d, rank)
  {
    PopInWalk(d, rank, visited, stack);
    var top := stack[0];
    var node := d.nodes[top.index];
    var thisTransform := Mul(LoaderFormats.ToGlam(node.transform), top.transform);
    assert thisTransform == LoaderTraversal.ThisTransform(d, top);
    next := PushChildren(stack[1..], thisTransform, node.children);
  }

  /**
    The worklist loop: pop the front entry, visit it, enqueue its node's
    children. The objects come out in the order the walk pops their nodes.
   */
  method Traverse(d: Document, ghost rank: seq<nat>, meshes: seq<(nat, VertexMesh.CpuMesh)>,
    ghost decoded: seq<LoaderMeshes.DecodedMesh>, samplers: seq<Textures.SampledTexture>)
    returns (r: Outcome<seq<FragmentTextured.MeshObjectTextured>>)
    requires WellFormed(d) && RankedBy(d, rank) && |d.nodes| > 0 && |samplers| == |d.textures|
    requires LoaderMeshes.Tagged(meshes, decoded)
    ensures r.Ok? == Emissions(d, decoded, samplers, LoaderTraversal.Walk(d, rank)).Ok?
    ensures !r.Ok? ==> r == Emissions(d, decoded, samplers, LoaderTraversal.Walk(d, rank)).PropagateFailure()
    ensures r.Ok? ==> AllEmit(r.value, Emissions(d, decoded, samplers, LoaderTraversal.Walk(d, rank)).value)
  {
    var stack := [LoaderTraversal.Pending(Identity, 0)];
    var output: seq<FragmentTextured.MeshObjectTextured> := [];
    ghost var visited: seq<LoaderTraversal.Pending> := [];
    ghost var emitted: seq<Emitted> := [];
    while stack != []
      invariant LoaderTraversal.QueueInRange(d, stack) && LoaderTraversal.QueueInRange(d, visited)
      invariant visited + LoaderTraversal.Visits(d, rank, stack) == LoaderTraversal.Walk(d, rank)
      invariant Emissions(d, decoded, samplers, visited) == Ok(emitted)
      invariant AllEmit(output, emitted)
      decreases LoaderTraversal.QueueWork(d, rank, stack)
    {
      var top := stack[0];
      var next;
      next, emitted := VisitAndAppend(d, meshes, decoded, samplers, visited, top, output, emitted);
      if !next.Ok? {
        AbortInWalk(d, rank, decoded, samplers, visited, stack);
        return next.PropagateFailure();
      }
      output := next.value;
      stack := PopAndPush(d, rank, visited, stack);
      visited := visited + [top];
    }
    assert visited == LoaderTraversal.Walk(d, rank);
    return Ok(output);
  }

  /**
    `load_gltf_objects` on an imported document: the objects of
    `ObjectsSpec`, one per emitted entry and in the same order, or its failure.
   */
  method LoadGltfObjects(d: Document, ghost rank: seq<nat>) returns (r: Outcome<seq<FragmentTextured.MeshObjectTextured>>)
    requires WellFormed(d) && RankedBy(d, rank)
    ensures r.Ok? == ObjectsSpec(d, rank).Ok?
    ensures !r.Ok? ==> r == ObjectsSpec(d, rank).PropagateFailure()
    ensures r.Ok? ==> AllEmit(r.value, ObjectsSpec(d, rank).value)
  {
    var meshes := LoaderMeshes.LoadGltfMeshes(d);
    if !meshes.Ok? {
      return meshes.PropagateFailure();
    }
    ghost var decoded := LoaderMeshes.DecodedMeshes(d).value;
    var samplers := LoaderTextures.LoadTextures(d);
    if !samplers.Ok? {
      return samplers.PropagateFailure();
    }
    LoaderTextures.SampledTexturesOkIff(d.textures);
    if |d.nodes| == 0 {
      return Panic("index out of bounds: the len is 0 but the index is 0");
    }
    r := Traverse(d, rank, meshes.value, decoded, samplers.value);
  }

  /**
    `load_gltf`: a copy of the decoded mesh at `desiredIndex`, aborting when
    the decoding aborts or the index is past the decoded meshes.
   */
  method LoadGltf(d: Document, desiredIndex: nat) returns (r: Outcome<VertexMesh.CpuMesh>)
    requires WellFormed(d)
    ensures r.Ok? <==> LoaderMeshes.DecodedMeshes(d).Ok? && desiredIndex < |LoaderMeshes.DecodedMeshes(d).value|
    ensures !r.Ok? ==> r.Panic?
    ensures r.Ok? ==> fresh(r.value) && LoaderMeshes.Holds(r.value, LoaderMeshes.DecodedMeshes(d).value[desiredIndex])
  {
    var meshes := LoaderMeshes.LoadGltfMeshes(d);
    if !meshes.Ok? {
      return meshes.PropagateFailure();
    }
    if desiredIndex >= |meshes.value| {
      return Panic("index out of bounds");
    }
    var source := meshes.value[desiredIndex].1;
    var copy := new VertexMesh.CpuMesh.New(source.position, source.index);
    copy.name := source.name;
    copy.color := source.color;
    copy.normal := source.normal;
    copy.uv := source.uv;
    copy.tangents := source.tangents;
    return Ok(copy);
  }
}
