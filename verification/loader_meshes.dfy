/**
  The first half of the scene loader: decoding the meshes of the root nodes
  of a glTF document into `CpuMesh`es tagged with their mesh index.
 */
module LoaderMeshes {
  import opened Common
  import opened GltfDocument
  import Gpu
  import VertexMesh

  /** Index streams are widened to `u32`, value for value and in stream order. */
  function WidenIndices(s: IndexStream): (r: seq<u32>)
    ensures s.U8Indices? ==> |r| == |s.u8s| && forall k :: 0 <= k < |r| ==> r[k] == s.u8s[k]
    ensures s.U16Indices? ==> |r| == |s.u16s| && forall k :: 0 <= k < |r| ==> r[k] == s.u16s[k]
    ensures s.U32Indices? ==> r == s.u32s
  {
    match s
    case U8Indices(v) => seq(|v|, k requires 0 <= k < |v| => v[k] as u32)
    case U16Indices(v) => seq(|v|, k requires 0 <= k < |v| => v[k] as u32)
    case U32Indices(v) => v
  }

  /**
    Colours become RGBA: float RGB gains an alpha of 1, float RGBA is copied,
    and every integer encoding aborts as not implemented.
   */
  function ExpandColors(c: ColorStream): (r: Outcome<seq<Vec4>>)
    ensures r.Ok? <==> c.RgbF32? || c.RgbaF32?
    ensures !r.Ok? ==> r.Panic?
    ensures c.RgbF32? ==> r.Ok? && |r.value| == |c.rgb|
    ensures c.RgbF32? ==> forall k :: 0 <= k < |c.rgb| ==>
      r.value[k].w == 1.0 && Vec3(r.value[k].x, r.value[k].y, r.value[k].z) == c.rgb[k]
    ensures c.RgbaF32? ==> r == Ok(c.rgba)
  {
    match c
    case RgbF32(v) => Ok(seq(|v|, k requires 0 <= k < |v| => Vec4(v[k].x, v[k].y, v[k].z, 1.0)))
    case RgbaF32(v) => Ok(v)
    case _ => Panic("not yet implemented")
  }

  /** A decoded mesh: the source mesh's index and the lists its `CpuMesh` is built from. */
  datatype DecodedMesh = DecodedMesh(
    meshIndex: nat,
    position: seq<Vec3>,
    index: seq<u32>,
    name: Option<string>,
    color: Option<seq<Vec4>>,
    normal: Option<seq<Vec3>>,
    uv: Option<seq<Vec2>>)

  /**
    The lists of one primitive: a missing position or index stream gives an
    empty list, a present colour, normal or texture-coordinate stream gives a
    present attribute (even when it is empty), and an absent one stays absent.
   */
  function DecodePrimitive(meshIndex: nat, name: Option<string>, p: Primitive): (r: Outcome<DecodedMesh>)
    ensures r.Ok? <==> p.colors.None? || ExpandColors(p.colors.value).Ok?
    ensures !r.Ok? ==> r.Panic?
    ensures r.Ok? ==> r.value.meshIndex == meshIndex && r.value.name == name
    ensures r.Ok? ==> r.value.position == (if p.positions.Some? then p.positions.value else [])
    ensures r.Ok? ==> r.value.index == (if p.indices.Some? then WidenIndices(p.indices.value) else [])
    ensures r.Ok? ==> r.value.color.Some? == p.colors.Some?
    ensures r.Ok? && p.colors.Some? ==> r.value.color.value == ExpandColors(p.colors.value).value
    ensures r.Ok? ==> r.value.normal == p.normals && r.value.uv == p.texCoords
  {
    var color :- if p.colors.Some? then
        var c :- ExpandColors(p.colors.value); Ok(Some(c))
      else Ok(None);
    Ok(DecodedMesh(
      meshIndex,
      if p.positions.Some? then p.positions.value else [],
      if p.indices.Some? then WidenIndices(p.indices.value) else [],
      name, color, p.normals, p.texCoords))
  }

  /**
    What one root node contributes: nothing without a mesh or with a mesh of
    no primitives, an abort for a mesh of several, else its one primitive.
   */
  function DecodeNode(d: Document, n: nat): (r: Outcome<Option<DecodedMesh>>)
    requires WellFormed(d) && n < |d.nodes|
    ensures !r.Ok? ==> r.Panic?
    ensures r == Ok(None) <==> d.nodes[n].mesh.None? || |d.meshes[d.nodes[n].mesh.value].primitives| == 0
    ensures r.Ok? && r.value.Some? ==>
      var m := d.meshes[d.nodes[n].mesh.value];
      |m.primitives| == 1 && r.value.value.meshIndex == d.nodes[n].mesh.value && r.value.value.name == m.name
    ensures d.nodes[n].mesh.Some? && |d.meshes[d.nodes[n].mesh.value].primitives| > 1 ==> r.Panic?
  {
    match d.nodes[n].mesh
    case None => Ok(None)
    case Some(mi) =>
      var mesh := d.meshes[mi];
      if |mesh.primitives| > 1 then Panic("not yet implemented")
      else if |mesh.primitives| == 0 then Ok(None)
      else
        var decoded :- DecodePrimitive(mi, mesh.name, mesh.primitives[0]);
        Ok(Some(decoded))
  }

  /** The root nodes of the scenes, scene after scene. */
  function RootNodes(scenes: seq<Scene>): seq<nat> {
    if scenes == [] then [] else RootNodes(scenes[..|scenes| - 1]) + scenes[|scenes| - 1].nodes
  }

  predicate NodesInRange(d: Document, ns: seq<nat>) {
    forall k :: 0 <= k < |ns| ==> ns[k] < |d.nodes|
  }

  lemma RootNodesInRange(d: Document, s: nat)
    requires WellFormed(d) && s <= |d.scenes|
    ensures NodesInRange(d, RootNodes(d.scenes[..s]))
  {
    RootsOfInRange(d, d.scenes[..s]);
  }

  /** Scenes whose roots are all nodes of `d` list only nodes of `d`. */
  lemma {:induction false} RootsOfInRange(d: Document, scenes: seq<Scene>)
    requires forall s, k :: 0 <= s < |scenes| && 0 <= k < |scenes[s].nodes| ==> scenes[s].nodes[k] < |d.nodes|
    ensures NodesInRange(d, RootNodes(scenes))
    decreases |scenes|
  {
    if scenes != [] {
      RootsOfInRange(d, scenes[..|scenes| - 1]);
    }
  }

  /** The meshes `nodes` decode to, in order, or the first abort. */
  function DecodeNodes(d: Document, nodes: seq<nat>): (r: Outcome<seq<DecodedMesh>>)
    requires WellFormed(d) && NodesInRange(d, nodes)
    ensures !r.Ok? ==> r.Panic?
    ensures r.Ok? ==> |r.value| <= |nodes|
  {
    if nodes == [] then Ok([])
    else
      var earlier :- DecodeNodes(d, nodes[..|nodes| - 1]);
      var last :- DecodeNode(d, nodes[|nodes| - 1]);
      Ok(earlier + if last.Some? then [last.value] else [])
  }

  /** `load_gltf_meshes` as a value: the meshes of the root nodes of all scenes. */
  function DecodedMeshes(d: Document): (r: Outcome<seq<DecodedMesh>>)
    requires WellFormed(d)
  {
    RootNodesInRange(d, |d.scenes|);
    assert d.scenes[..|d.scenes|] == d.scenes;
    DecodeNodes(d, RootNodes(d.scenes))
  }

  /** Once a prefix aborts, decoding more nodes keeps that abort. */
  lemma {:induction false} DecodeNodesAbortPersists(d: Document, a: seq<nat>, b: seq<nat>)
    requires WellFormed(d) && NodesInRange(d, a) && NodesInRange(d, b)
    requires !DecodeNodes(d, a).Ok?
    ensures NodesInRange(d, a + b) && DecodeNodes(d, a + b) == DecodeNodes(d, a)
    decreases |b|
  {
    if b != [] {
      var b' := b[..|b| - 1];
      assert (a + b)[..|a + b| - 1] == a + b';
      DecodeNodesAbortPersists(d, a, b');
    } else {
      assert a + b == a;
    }
  }

  /** Decoding one more node appends what it contributes. */
  lemma DecodeNodesSnoc(d: Document, nodes: seq<nat>, n: nat)
    requires WellFormed(d) && NodesInRange(d, nodes) && n < |d.nodes|
    ensures NodesInRange(d, nodes + [n])
    ensures DecodeNodes(d, nodes).Ok? && DecodeNode(d, n).Ok? ==>
      DecodeNodes(d, nodes + [n]) ==
        Ok(DecodeNodes(d, nodes).value + if DecodeNode(d, n).value.Some? then [DecodeNode(d, n).value.value] else [])
    ensures DecodeNodes(d, nodes).Ok? && !DecodeNode(d, n).Ok? ==>
      DecodeNodes(d, nodes + [n]) == Panic(DecodeNode(d, n).reason)
  {
    assert (nodes + [n])[..|nodes + [n]| - 1] == nodes;
  }

  /** Decoding succeeds exactly when no node aborts. */
  lemma {:induction false} DecodeNodesOkIff(d: Document, nodes: seq<nat>)
    requires WellFormed(d) && NodesInRange(d, nodes)
    ensures DecodeNodes(d, nodes).Ok? <==> forall k :: 0 <= k < |nodes| ==> DecodeNode(d, nodes[k]).Ok?
    decreases |nodes|
  {
    if nodes != [] {
      var init := nodes[..|nodes| - 1];
      DecodeNodesOkIff(d, init);
      assert forall k :: 0 <= k < |init| ==> init[k] == nodes[k];
    }
  }

  /**
    After a successful decoding, every node with a mesh of exactly one
    primitive contributes that mesh, and only such nodes contribute.
   */
  lemma {:induction false} DecodeNodesMembers(d: Document, nodes: seq<nat>)
    requires WellFormed(d) && NodesInRange(d, nodes) && DecodeNodes(d, nodes).Ok?
    ensures forall k :: 0 <= k < |nodes| && DecodeNode(d, nodes[k]).Ok? && DecodeNode(d, nodes[k]).value.Some? ==>
      DecodeNode(d, nodes[k]).value.value in DecodeNodes(d, nodes).value
    ensures forall m :: m in DecodeNodes(d, nodes).value ==>
      exists k :: 0 <= k < |nodes| && DecodeNode(d, nodes[k]) == Ok(Some(m))
    decreases |nodes|
  {
    if nodes != [] {
      var init, n := nodes[..|nodes| - 1], nodes[|nodes| - 1];
      assert nodes == init + [n];
      DecodeNodesSnoc(d, init, n);
      DecodeNodesMembers(d, init);
      var e := DecodeNodes(d, init).value;
      var last := DecodeNode(d, n).value;
      assert DecodeNodes(d, nodes).value == e + if last.Some? then [last.value] else [];
      forall m | m in DecodeNodes(d, nodes).value
        ensures exists k :: 0 <= k < |nodes| && DecodeNode(d, nodes[k]) == Ok(Some(m))
      {
        if m in e {
          var k :| 0 <= k < |init| && DecodeNode(d, init[k]) == Ok(Some(m));
          assert nodes[k] == init[k];
        } else {
          assert DecodeNode(d, nodes[|nodes| - 1]) == Ok(Some(m));
        }
      }
      forall k | 0 <= k < |nodes| && DecodeNode(d, nodes[k]).Ok? && DecodeNode(d, nodes[k]).value.Some?
        ensures DecodeNode(d, nodes[k]).value.value in DecodeNodes(d, nodes).value
      {
        if k < |init| {
          assert nodes[k] == init[k];
        }
      }
    }
  }

  /** What a `CpuMesh` built by the loader holds: the decoded lists, no tangents. */
  predicate Holds(m: VertexMesh.CpuMesh, v: DecodedMesh)
    reads m
  {
    m.position == v.position && m.index == v.index && m.name == v.name &&
    m.color == v.color && m.normal == v.normal && m.uv == v.uv && m.tangents.None?
  }

  /** Each built mesh is tagged with, and holds, its decoded counterpart. */
  predicate Tagged(result: seq<(nat, VertexMesh.CpuMesh)>, vals: seq<DecodedMesh>)
    reads set k | 0 <= k < |result| :: result[k].1
  {
    |result| == |vals| &&
    forall k :: 0 <= k < |result| ==> result[k].0 == vals[k].meshIndex && Holds(result[k].1, vals[k])
  }

  /**
    `load_gltf_meshes`: for every root node of every scene, in order, its mesh
    decoded into a new `CpuMesh` tagged with the mesh's index. Non-root nodes
    are not looked at.
   */
  method LoadGltfMeshes(d: Document) returns (r: Outcome<seq<(nat, VertexMesh.CpuMesh)>>)
    requires WellFormed(d)
    ensures r.Ok? == DecodedMeshes(d).Ok?
    ensures !r.Ok? ==> r.Panic? && r == Panic(DecodedMeshes(d).reason)
    ensures r.Ok? ==> Tagged(r.value, DecodedMeshes(d).value)
  {
    var result: seq<(nat, VertexMesh.CpuMesh)> := [];
    ghost var vals: seq<DecodedMesh> := [];
    var s := 0;
    RootNodesInRange(d, 0);
    while s < |d.scenes|
      invariant 0 <= s <= |d.scenes|
      invariant NodesInRange(d, RootNodes(d.scenes[..s]))
      invariant DecodeNodes(d, RootNodes(d.scenes[..s])) == Ok(vals)
      invariant Tagged(result, vals)
    {
      assert RootNodes(d.scenes[..s + 1]) == RootNodes(d.scenes[..s]) + d.scenes[s].nodes by {
        assert d.scenes[..s + 1][..s] == d.scenes[..s];
      }
      var next;
      next, vals := LoadRoots(d, RootNodes(d.scenes[..s]), d.scenes[s].nodes, result, vals);
      if !next.Ok? {
        AbortReachesEnd(d, s + 1);
        return Panic(next.reason);
      }
      result := next.value;
      s := s + 1;
    }
    assert d.scenes[..s] == d.scenes;
    return Ok(result);
  }

  /** The loop over the roots of one scene, continuing the decoding of the nodes `before`. */
  method LoadRoots(d: Document, ghost before: seq<nat>, roots: seq<nat>, result: seq<(nat, VertexMesh.CpuMesh)>, ghost vals: seq<DecodedMesh>)
    returns (r: Outcome<seq<(nat, VertexMesh.CpuMesh)>>, ghost vals': seq<DecodedMesh>)
    requires WellFormed(d) && NodesInRange(d, before) && NodesInRange(d, roots)
    requires DecodeNodes(d, before) == Ok(vals) && Tagged(result, vals)
    ensures NodesInRange(d, before + roots)
    ensures !r.Ok? ==> r.Panic? && DecodeNodes(d, before + roots) == Panic(r.reason)
    ensures r.Ok? ==> DecodeNodes(d, before + roots) == Ok(vals') && Tagged(r.value, vals')
  {
    var acc := result;
    vals' := vals;
    ghost var done := before;
    var i := 0;
    while i < |roots|
      invariant 0 <= i <= |roots|
      invariant done == before + roots[..i]
      invariant NodesInRange(d, done)
      invariant DecodeNodes(d, done) == Ok(vals')
      invariant Tagged(acc, vals')
    {
      var n := roots[i];
      DecodeNodesSnoc(d, done, n);
      var built := LoadRoot(d, n);
      if !built.Ok? {
        AbortInScene(d, before, roots, i);
        return Panic(built.reason), vals';
      }
      if built.value.Some? {
        acc := acc + [built.value.value];
        vals' := vals' + [DecodeNode(d, n).value.value];
      } else {
        assert vals' + [] == vals';
      }
      done := done + [n];
      i := i + 1;
      assert done == before + roots[..i] by {
        assert roots[..i] == roots[..i - 1] + [n];
      }
    }
    assert roots[..i] == roots;
    return Ok(acc), vals';
  }

  /** An abort at root `i` of a scene is the abort of decoding the whole scene. */
  lemma AbortInScene(d: Document, before: seq<nat>, roots: seq<nat>, i: nat)
    requires WellFormed(d) && NodesInRange(d, before) && NodesInRange(d, roots) && i < |roots|
    requires NodesInRange(d, before + roots[..i]) && DecodeNodes(d, before + roots[..i]).Ok?
    requires !DecodeNode(d, roots[i]).Ok?
    ensures NodesInRange(d, before + roots)
    ensures DecodeNodes(d, before + roots) == Panic(DecodeNode(d, roots[i]).reason)
  {
    var pre := before + roots[..i];
    var upto := pre + [roots[i]];
    var tail := roots[i + 1..];
    DecodeNodesSnoc(d, pre, roots[i]);
    assert NodesInRange(d, tail);
    assert before + roots == upto + tail by {
      assert roots == roots[..i] + [roots[i]] + tail;
    }
    DecodeNodesAbortPersists(d, upto, tail);
  }

  /**
    The body of the loop over root nodes: the node's mesh decoded and built
    into a new `CpuMesh`, nothing, or the abort.
   */
  method LoadRoot(d: Document, n: nat) returns (r: Outcome<Option<(nat, VertexMesh.CpuMesh)>>)
    requires WellFormed(d) && n < |d.nodes|
    ensures r.Ok? == DecodeNode(d, n).Ok? && (!r.Ok? ==> r.Panic? && r.reason == DecodeNode(d, n).reason)
    ensures r.Ok? ==> r.value.Some? == DecodeNode(d, n).value.Some?
    ensures r.Ok? && r.value.Some? ==>
      r.value.value.0 == DecodeNode(d, n).value.value.meshIndex &&
      Holds(r.value.value.1, DecodeNode(d, n).value.value) && fresh(r.value.value.1)
  {
    var node := DecodeNode(d, n);
    if !node.Ok? {
      return Panic(node.reason);
    }
    if node.value.None? {
      return Ok(None);
    }
    var v := node.value.value;
    var m := new VertexMesh.CpuMesh.New(v.position, v.index);
    m.color := v.color;
    m.normal := v.normal;
    m.uv := v.uv;
    m.name := v.name;
    return Ok(Some((v.meshIndex, m)));
  }

  /** An abort within the roots of the first `s` scenes is the abort of the whole decoding. */
  lemma AbortReachesEnd(d: Document, s: nat)
    requires WellFormed(d) && s <= |d.scenes|
    requires NodesInRange(d, RootNodes(d.scenes[..s]))
    requires !DecodeNodes(d, RootNodes(d.scenes[..s])).Ok?
    ensures DecodedMeshes(d) == DecodeNodes(d, RootNodes(d.scenes[..s]))
  {
    RootNodesConcat(d.scenes[..s], d.scenes[s..]);
    assert d.scenes[..s] + d.scenes[s..] == d.scenes;
    RootsOfInRange(d, d.scenes[s..]);
    DecodeNodesAbortPersists(d, RootNodes(d.scenes[..s]), RootNodes(d.scenes[s..]));
  }

  lemma {:induction false} RootNodesConcat(a: seq<Scene>, b: seq<Scene>)
    ensures RootNodes(a + b) == RootNodes(a) + RootNodes(b)
    decreases |b|
  {
    if b == [] {
      assert a + b == a;
    } else {
      var b' := b[..|b| - 1];
      assert (a + b)[..|a + b| - 1] == a + b';
      RootNodesConcat(a, b');
    }
  }
}
