/**
  The first 3D demo: its own small glTF loader, which gathers the primitives of
  one chosen root node per scene into a single vertex list and a single index
  list, and the guard and draw of its `render`. The loader does not rebase
  anything: a primitive's normals are written from the start of the combined
  vertex list, and its indices are appended as they are.
 */
module First3d {
  import opened Common
  import opened Gpu
  import opened GltfDocument
  import LoaderMeshes

  /** `Vertex`: position, normal and colour, three `Vec3`s, 36 bytes. */
  datatype Vertex = Vertex(position: Vec3, normal: Vec3, color: Vec3)

  const VertexSize: nat := 36

  /** The loader's result: `(vertex_buffer, index_buffer)`. */
  datatype Geometry = Geometry(vertices: seq<Vertex>, indices: seq<u32>)

  const EmptyGeometry := Geometry([], [])

  /**
    The nodes read from the scenes at and after `s`: in each scene, only the
    root node at position `desired`, if the scene has that many.
   */
  function SelectedNodes(d: Document, s: nat, desired: nat): (r: seq<nat>)
    requires WellFormed(d)
    ensures LoaderMeshes.NodesInRange(d, r)
    ensures s <= |d.scenes| ==> |r| <= |d.scenes| - s
    decreases |d.scenes| - s
  {
    if s >= |d.scenes| then []
    else
      var scene := d.scenes[s];
      (if desired < |scene.nodes| then [scene.nodes[desired]] else []) + SelectedNodes(d, s + 1, desired)
  }

  /** Only a scene's root node at position `desired` is selected. */
  lemma {:induction false} SelectedNodesSound(d: Document, s: nat, desired: nat, n: nat)
    requires WellFormed(d) && n in SelectedNodes(d, s, desired)
    ensures exists t :: s <= t < |d.scenes| && desired < |d.scenes[t].nodes| && n == d.scenes[t].nodes[desired]
    decreases |d.scenes| - s
  {
    if s < |d.scenes| && !(desired < |d.scenes[s].nodes| && n == d.scenes[s].nodes[desired]) {
      SelectedNodesSound(d, s + 1, desired, n);
    }
  }

  /** Every scene that has a root node at position `desired` contributes that node. */
  lemma {:induction false} SelectedNodesComplete(d: Document, s: nat, desired: nat, t: nat)
    requires WellFormed(d) && s <= t < |d.scenes| && desired < |d.scenes[t].nodes|
    ensures d.scenes[t].nodes[desired] in SelectedNodes(d, s, desired)
    decreases t - s
  {
    if s < t {
      SelectedNodesComplete(d, s + 1, desired, t);
    }
  }

  /** The primitives of a node's mesh; none without a mesh. */
  function NodePrimitives(d: Document, n: nat): seq<Primitive>
    requires WellFormed(d) && n < |d.nodes|
  {
    if d.nodes[n].mesh.Some? then d.meshes[d.nodes[n].mesh.value].primitives else []
  }

  /** The primitives of `nodes`, node after node. */
  function PrimitivesOf(d: Document, nodes: seq<nat>): seq<Primitive>
    requires WellFormed(d) && LoaderMeshes.NodesInRange(d, nodes)
  {
    if nodes == [] then [] else NodePrimitives(d, nodes[0]) + PrimitivesOf(d, nodes[1..])
  }

  /** One vertex per position, coloured by its position, with a zero normal. */
  function NewVertices(positions: seq<Vec3>): (vs: seq<Vertex>)
    ensures |vs| == |positions|
    ensures forall k :: 0 <= k < |vs| ==> vs[k] == Vertex(positions[k], Vec3Zero, positions[k])
  {
    seq(|positions|, k requires 0 <= k < |positions| => Vertex(positions[k], Vec3Zero, positions[k]))
  }

  /**
    `vertex_buffer[ni].normal = n` for each normal in order: the first normal
    past the end of the list aborts; the others replace the normals of the
    first vertices of the whole list.
   */
  function SetNormals(vs: seq<Vertex>, normals: seq<Vec3>): (r: Outcome<seq<Vertex>>)
    ensures r.Ok? <==> |normals| <= |vs|
    ensures !r.Ok? ==> r == Panic("index out of bounds: the len is " + NatToString(|vs|) + " but the index is " + NatToString(|vs|))
    ensures r.Ok? ==> |r.value| == |vs|
    ensures r.Ok? ==> forall k :: 0 <= k < |vs| ==>
      r.value[k] == if k < |normals| then vs[k].(normal := normals[k]) else vs[k]
  {
    if |normals| > |vs| then
      Panic("index out of bounds: the len is " + NatToString(|vs|) + " but the index is " + NatToString(|vs|))
    else
      Ok(seq(|vs|, k requires 0 <= k < |vs| => if k < |normals| then vs[k].(normal := normals[k]) else vs[k]))
  }

  function PositionsOf(p: Primitive): seq<Vec3> {
    if p.positions.Some? then p.positions.value else []
  }

  function IndicesOf(p: Primitive): seq<u32> {
    if p.indices.Some? then LoaderMeshes.WidenIndices(p.indices.value) else []
  }

  /**
    What one primitive adds: a vertex per position at the end of the list,
    its normals written from index 0 of the list, and its indices, widened,
    appended unchanged.
   */
  function AddPrimitive(g: Geometry, p: Primitive): (r: Outcome<Geometry>)
    ensures r.Ok? <==> p.normals.None? || |p.normals.value| <= |g.vertices| + |PositionsOf(p)|
    ensures !r.Ok? ==> r.Panic?
    ensures r.Ok? ==> |r.value.vertices| == |g.vertices| + |PositionsOf(p)|
    ensures r.Ok? ==> r.value.indices == g.indices + IndicesOf(p)
    ensures r.Ok? ==> forall k :: 0 <= k < |r.value.vertices| ==>
      r.value.vertices[k].position == (g.vertices + NewVertices(PositionsOf(p)))[k].position &&
      r.value.vertices[k].color == (g.vertices + NewVertices(PositionsOf(p)))[k].color
    ensures r.Ok? && p.normals.Some? ==> forall k :: 0 <= k < |p.normals.value| ==>
      r.value.vertices[k].normal == p.normals.value[k]
    ensures r.Ok? ==> forall k :: 0 <= k < |r.value.vertices| && (p.normals.None? || |p.normals.value| <= k) ==>
      r.value.vertices[k].normal == (if k < |g.vertices| then g.vertices[k].normal else Vec3Zero)
  {
    var appended := g.vertices + NewVertices(PositionsOf(p));
    var vertices :- if p.normals.Some? then SetNormals(appended, p.normals.value) else Ok(appended);
    Ok(Geometry(vertices, g.indices + IndicesOf(p)))
  }

  /** The primitives added in order to `g`, stopping at the first abort. */
  function AssembleFrom(g: Geometry, prims: seq<Primitive>): (r: Outcome<Geometry>)
    ensures !r.Ok? ==> r.Panic?
    decreases |prims|
  {
    if prims == [] then Ok(g)
    else
      var next :- AddPrimitive(g, prims[0]);
      AssembleFrom(next, prims[1..])
  }

  /** `load_gltf(document, buffers, desired_index)` as a value. */
  function LoadGltfSpec(d: Document, desired: nat): Outcome<Geometry>
    requires WellFormed(d)
  {
    AssembleFrom(EmptyGeometry, PrimitivesOf(d, SelectedNodes(d, 0, desired)))
  }

  /** All the primitives' indices, widened, one list after the other. */
  function AllIndices(prims: seq<Primitive>): seq<u32> {
    if prims == [] then [] else IndicesOf(prims[0]) + AllIndices(prims[1..])
  }

  /** The total number of positions of the primitives. */
  function PositionCount(prims: seq<Primitive>): nat {
    if prims == [] then 0 else |PositionsOf(prims[0])| + PositionCount(prims[1..])
  }

  /**
    The index list is the primitives' index lists concatenated with no offset:
    a later primitive's index 0 still names the first vertex of the whole list.
   */
  lemma {:induction false} IndicesNotRebased(g: Geometry, prims: seq<Primitive>)
    requires AssembleFrom(g, prims).Ok?
    ensures AssembleFrom(g, prims).value.indices == g.indices + AllIndices(prims)
    decreases |prims|
  {
    if prims != [] {
      var next := AddPrimitive(g, prims[0]).value;
      IndicesNotRebased(next, prims[1..]);
      assert g.indices + IndicesOf(prims[0]) + AllIndices(prims[1..]) == g.indices + AllIndices(prims);
    }
  }

  /** One vertex per position of every primitive, in primitive order. */
  lemma {:induction false} VertexCount(g: Geometry, prims: seq<Primitive>)
    requires AssembleFrom(g, prims).Ok?
    ensures |AssembleFrom(g, prims).value.vertices| == |g.vertices| + PositionCount(prims)
    decreases |prims|
  {
    if prims != [] {
      VertexCount(AddPrimitive(g, prims[0]).value, prims[1..]);
    }
  }

  predicate ColoredByPosition(vs: seq<Vertex>) {
    forall k :: 0 <= k < |vs| ==> vs[k].color == vs[k].position
  }

  /** Every vertex's colour is its position, whatever normals are written. */
  lemma {:induction false} ColorIsPosition(g: Geometry, prims: seq<Primitive>)
    requires ColoredByPosition(g.vertices)
    requires AssembleFrom(g, prims).Ok?
    ensures ColoredByPosition(AssembleFrom(g, prims).value.vertices)
    decreases |prims|
  {
    if prims != [] {
      var next := AddPrimitive(g, prims[0]).value;
      var appended := g.vertices + NewVertices(PositionsOf(prims[0]));
      assert ColoredByPosition(appended);
      assert ColoredByPosition(next.vertices);
      ColorIsPosition(next, prims[1..]);
    }
  }

  /**
    A second primitive's normals land on the first primitive's vertices: two
    one-vertex primitives, each with its own normal, leave the first vertex
    with the second normal and the second vertex with a zero normal.
   */
  lemma NormalsNotRebased(a: Vec3, b: Vec3, na: Vec3, nb: Vec3)
    requires nb != Vec3Zero
    ensures var pa := Primitive(Some([a]), None, None, Some([na]), None, None);
      var pb := Primitive(Some([b]), None, None, Some([nb]), None, None);
      AssembleFrom(EmptyGeometry, [pa, pb]) == Ok(Geometry([Vertex(a, nb, a), Vertex(b, Vec3Zero, b)], []))
  {
    var pa := Primitive(Some([a]), None, None, Some([na]), None, None);
    var pb := Primitive(Some([b]), None, None, Some([nb]), None, None);
    var g1 := Geometry([Vertex(a, na, a)], []);
    var g2 := Geometry([Vertex(a, nb, a), Vertex(b, Vec3Zero, b)], []);
    assert NewVertices([a]) == [Vertex(a, Vec3Zero, a)];
    assert NewVertices([b]) == [Vertex(b, Vec3Zero, b)];
    var n1 := SetNormals([Vertex(a, Vec3Zero, a)], [na]);
    assert n1.Ok? && n1.value == [Vertex(a, na, a)];
    assert EmptyGeometry.vertices + NewVertices(PositionsOf(pa)) == [Vertex(a, Vec3Zero, a)];
    assert EmptyGeometry.indices + IndicesOf(pa) == [];
    assert AddPrimitive(EmptyGeometry, pa) == Ok(g1);
    var n2 := SetNormals([Vertex(a, na, a), Vertex(b, Vec3Zero, b)], [nb]);
    assert n2.Ok? && n2.value == g2.vertices;
    assert g1.vertices + NewVertices(PositionsOf(pb)) == [Vertex(a, na, a), Vertex(b, Vec3Zero, b)];
    assert g1.indices + IndicesOf(pb) == [];
    assert AddPrimitive(g1, pb) == Ok(g2);
    assert [pa, pb][1..] == [pb];
    assert AssembleFrom(g1, [pb]) == AssembleFrom(g2, []);
  }

  /** A primitive with more normals than the whole list has vertices aborts the load. */
  lemma TooManyNormalsAbort(g: Geometry, p: Primitive)
    requires p.normals.Some? && |p.normals.value| > |g.vertices| + |PositionsOf(p)|
    ensures AssembleFrom(g, [p]).Panic?
  {
  }

  /**
    The loops of `load_gltf`, one primitive: push a vertex per position, then
    write each normal at its own index of the whole list, then extend the
    index list. Texture coordinates are read and dropped.
   */
  method ReadPrimitive(g: Geometry, p: Primitive) returns (r: Outcome<Geometry>)
    ensures r == AddPrimitive(g, p)
  {
    var vertexBuffer := g.vertices;
    if p.positions.Some? {
      var positions := p.positions.value;
      var k := 0;
      while k < |positions|
        invariant 0 <= k <= |positions|
        invariant vertexBuffer == g.vertices + NewVertices(positions[..k])
      {
        vertexBuffer := vertexBuffer + [Vertex(positions[k], Vec3Zero, positions[k])];
        assert NewVertices(positions[..k + 1]) == NewVertices(positions[..k]) + [Vertex(positions[k], Vec3Zero, positions[k])];
        k := k + 1;
      }
      assert positions[..k] == positions;
    } else {
      assert NewVertices([]) == [];
      assert vertexBuffer == g.vertices + NewVertices([]);
    }
    var appended := vertexBuffer;
    assert appended == g.vertices + NewVertices(PositionsOf(p));
    if p.normals.Some? {
      var normals := p.normals.value;
      var ni := 0;
      while ni < |normals|
        invariant 0 <= ni <= |normals|
        invariant ni <= |appended|
        invariant |vertexBuffer| == |appended|
        invariant forall k :: 0 <= k < |appended| ==>
          vertexBuffer[k] == if k < ni then appended[k].(normal := normals[k]) else appended[k]
      {
        if ni >= |vertexBuffer| {
          return Panic("index out of bounds: the len is " + NatToString(|vertexBuffer|) + " but the index is " + NatToString(ni));
        }
        vertexBuffer := vertexBuffer[ni := vertexBuffer[ni].(normal := normals[ni])];
        ni := ni + 1;
      }
      var expected := SetNormals(appended, normals);
      assert expected.Ok? && expected.value == vertexBuffer;
    }
    var indexBuffer := g.indices + IndicesOf(p);
    return Ok(Geometry(vertexBuffer, indexBuffer));
  }

  /**
    `load_gltf`: every scene, only its root node at position `desired`, every
    primitive of that node's mesh, in order.
   */
  method LoadGltf(d: Document, desired: nat) returns (r: Outcome<Geometry>)
    requires WellFormed(d)
    ensures r == LoadGltfSpec(d, desired)
  {
    var g := EmptyGeometry;
    ghost var rest := PrimitivesOf(d, SelectedNodes(d, 0, desired));
    var s := 0;
    while s < |d.scenes|
      invariant s <= |d.scenes|
      invariant rest == PrimitivesOf(d, SelectedNodes(d, s, desired))
      invariant LoadGltfSpec(d, desired) == AssembleFrom(g, rest)
    {
      var scene := d.scenes[s];
      ghost var later := SelectedNodes(d, s + 1, desired);
      ghost var chosen := if desired < |scene.nodes| then [scene.nodes[desired]] else [];
      SelectedNodesStep(d, s, desired);
      var nodeIndex := 0;
      while nodeIndex < |scene.nodes|
        invariant nodeIndex <= |scene.nodes|
        invariant rest == PrimitivesOf(d, (if nodeIndex <= desired then chosen else []) + later)
        invariant LoadGltfSpec(d, desired) == AssembleFrom(g, rest)
      {
        if nodeIndex != desired {
          nodeIndex := nodeIndex + 1;
          continue;
        }
        PrimitivesOfCons(d, scene.nodes[nodeIndex], later);
        AssembleConcat(g, NodePrimitives(d, scene.nodes[nodeIndex]), PrimitivesOf(d, later));
        var next := ReadNode(d, scene.nodes[nodeIndex], g);
        if next.Panic? {
          return next;
        }
        g := next.value;
        rest := PrimitivesOf(d, later);
        assert [] + later == later;
        nodeIndex := nodeIndex + 1;
      }
      assert [] + later == later;
      s := s + 1;
    }
    return Ok(g);
  }

  /** Adding `a + b` is adding `a`, then, unless that aborts, adding `b`. */
  lemma {:induction false} AssembleConcat(g: Geometry, a: seq<Primitive>, b: seq<Primitive>)
    ensures AssembleFrom(g, a + b) ==
      if AssembleFrom(g, a).Ok? then AssembleFrom(AssembleFrom(g, a).value, b) else AssembleFrom(g, a)
    decreases |a|
  {
    if a == [] {
      assert a + b == b;
    } else {
      assert (a + b)[0] == a[0] && (a + b)[1..] == a[1..] + b;
      if AddPrimitive(g, a[0]).Ok? {
        AssembleConcat(AddPrimitive(g, a[0]).value, a[1..], b);
      }
    }
  }

  /** The body for the chosen node: its mesh's primitives, if it has a mesh. */
  method ReadNode(d: Document, n: nat, g: Geometry) returns (r: Outcome<Geometry>)
    requires WellFormed(d) && n < |d.nodes|
    ensures r == AssembleFrom(g, NodePrimitives(d, n))
  {
    var node := d.nodes[n];
    if node.mesh.Some? {
      var mesh := d.meshes[node.mesh.value];
      r := ReadMesh(g, mesh.primitives);
    } else {
      r := Ok(g);
    }
  }

  /** The loop over one mesh's primitives. */
  method ReadMesh(g0: Geometry, prims: seq<Primitive>) returns (r: Outcome<Geometry>)
    ensures r == AssembleFrom(g0, prims)
  {
    var g := g0;
    var m := 0;
    while m < |prims|
      invariant m <= |prims|
      invariant AssembleFrom(g0, prims) == AssembleFrom(g, prims[m..])
    {
      assert prims[m..][0] == prims[m] && prims[m..][1..] == prims[m + 1..];
      var next := ReadPrimitive(g, prims[m]);
      if next.Panic? {
        return next;
      }
      g := next.value;
      m := m + 1;
    }
    return Ok(g);
  }

  lemma SelectedNodesStep(d: Document, s: nat, desired: nat)
    requires WellFormed(d) && s < |d.scenes|
    ensures SelectedNodes(d, s, desired) ==
      (if desired < |d.scenes[s].nodes| then [d.scenes[s].nodes[desired]] else []) + SelectedNodes(d, s + 1, desired)
  {
  }

  lemma PrimitivesOfCons(d: Document, n: nat, later: seq<nat>)
    requires WellFormed(d) && n < |d.nodes| && LoaderMeshes.NodesInRange(d, later)
    ensures LoaderMeshes.NodesInRange(d, [n] + later)
    ensures PrimitivesOf(d, [n] + later) == NodePrimitives(d, n) + PrimitivesOf(d, later)
  {
    assert ([n] + later)[1..] == later;
  }

  /** The GPU side `initialise` keeps: the two buffers and the index count. */
  datatype PersistentState = PersistentState(vertexBuffer: Buffer<Vertex>, indexBuffer: Buffer<u32>, indexLength: u32)

  /**
    `initialise`, after the import: the geometry of root node 0, uploaded as a
    vertex buffer and an index buffer, and its index count as `u32`.
   */
  function Initialise(d: Document): (r: Outcome<PersistentState>)
    requires WellFormed(d)
    ensures r.Ok? <==> LoadGltfSpec(d, 0).Ok?
    ensures r.Ok? ==> r.value.vertexBuffer == FromContents("Vertex Buffer", {VertexUsage}, LoadGltfSpec(d, 0).value.vertices, VertexSize)
    ensures r.Ok? ==> r.value.indexBuffer == FromContents("Index Buffer", {IndexUsage}, LoadGltfSpec(d, 0).value.indices, 4)
    ensures r.Ok? ==> r.value.indexLength == |LoadGltfSpec(d, 0).value.indices| % 0x1_0000_0000
    ensures r.Ok? && |LoadGltfSpec(d, 0).value.indices| < 0x1_0000_0000 ==> r.value.indexLength == |LoadGltfSpec(d, 0).value.indices|
  {
    var geometry :- LoadGltfSpec(d, 0);
    Ok(PersistentState(
      FromContents("Vertex Buffer", {VertexUsage}, geometry.vertices, VertexSize),
      FromContents("Index Buffer", {IndexUsage}, geometry.indices, 4),
      TruncateU32(|geometry.indices|)))
  }

  /** `wgpu::SurfaceError::Lost`, as `render` returns it. */
  const SurfaceLost := "Lost"

  /**
    `render`: nothing at all without a configured surface; the persistent
    state must exist; acquiring the surface texture may fail; then the pass
    draws the whole index buffer once.
   */
  function Render(isSurfaceConfigured: bool, persistent: Option<PersistentState>, acquired: Outcome<()>): (r: Outcome<seq<Command>>)
    ensures r.Ok? <==> isSurfaceConfigured && persistent.Some? && acquired.Ok?
    ensures !isSurfaceConfigured ==> r == Err(SurfaceLost)
    ensures isSurfaceConfigured && persistent.None? ==> r.Panic?
    ensures isSurfaceConfigured && persistent.Some? && !acquired.Ok? ==> r == acquired.PropagateFailure()
    ensures r.Ok? ==> persistent.Some? && |r.value| == 3
    ensures r.Ok? ==> r.value[0] == SetVertexBuffer(0, persistent.value.vertexBuffer.Ref())
    ensures r.Ok? ==> r.value[2] == DrawIndexed(0, persistent.value.indexLength, 0, 0, 1)
    ensures r.Ok? ==> r.value[1] == SetIndexBuffer(persistent.value.indexBuffer.Ref(), Uint32)
  {
    if !isSurfaceConfigured then Err(SurfaceLost)
    else if persistent.None? then Panic("called `Option::unwrap()` on a `None` value")
    else
      var _ :- acquired;
      var p := persistent.value;
      Ok([SetVertexBuffer(0, p.vertexBuffer.Ref()), SetIndexBuffer(p.indexBuffer.Ref(), Uint32), DrawIndexed(0, p.indexLength, 0, 0, 1)])
  }

  /** The draw reads exactly the indices uploaded: the count times four bytes is the index buffer's size. */
  lemma DrawCoversIndexBuffer(d: Document)
    requires WellFormed(d) && Initialise(d).Ok?
    requires |LoadGltfSpec(d, 0).value.indices| < 0x1_0000_0000
    ensures Initialise(d).value.indexLength * 4 == Initialise(d).value.indexBuffer.Size()
  {
  }
}
