/**
  The parts of a glTF 2.0 document the scene loader reads, as the `gltf` crate
  presents them after import: scenes listing their root nodes, nodes with a
  transform, an optional mesh and children, meshes made of primitives whose
  attribute streams are already decoded from their accessors, materials,
  samplers, and textures with their image data. Every cross-reference is an
  index into the document's own lists.
 */
module GltfDocument {
  import opened Common

  /** `ReadIndices`: an index accessor of one of the three unsigned component types. */
  datatype IndexStream =
    | U8Indices(u8s: seq<u8>)
    | U16Indices(u16s: seq<u16>)
    | U32Indices(u32s: seq<u32>)

  /**
    `ReadColors` for `COLOR_0`. Only the float streams carry their values
    here; the loader aborts on the four integer encodings whatever they hold.
   */
  datatype ColorStream =
    | RgbU8
    | RgbU16
    | RgbF32(rgb: seq<Vec3>)
    | RgbaU8
    | RgbaU16
    | RgbaF32(rgba: seq<Vec4>)

  datatype Primitive = Primitive(
    positions: Option<seq<Vec3>>,
    indices: Option<IndexStream>,
    colors: Option<ColorStream>,
    normals: Option<seq<Vec3>>,
    texCoords: Option<seq<Vec2>>,
    material: Option<nat>)

  datatype Mesh = Mesh(name: Option<string>, primitives: seq<Primitive>)

  /** A node's local transform: a column-major matrix, or translation, rotation and scale. */
  datatype Transform =
    | Matrix(columns: seq<real>)
    | Decomposed(translation: seq<real>, rotation: seq<real>, scale: seq<real>)

  datatype Node = Node(transform: Transform, mesh: Option<nat>, children: seq<nat>)

  /** A scene: its root nodes, in order. */
  datatype Scene = Scene(nodes: seq<nat>)

  datatype WrappingMode = ClampToEdge | MirroredRepeat | Repeat
  datatype MagFilter = MagNearest | MagLinear
  datatype MinFilter =
    | MinNearest
    | MinLinear
    | NearestMipmapNearest
    | LinearMipmapNearest
    | NearestMipmapLinear
    | LinearMipmapLinear

  /** A texture's sampler; a missing filter is `None`. */
  datatype GltfSampler = GltfSampler(wrapS: WrappingMode, wrapT: WrappingMode, magFilter: Option<MagFilter>, minFilter: Option<MinFilter>)

  datatype ImageFormat =
    | R8 | R8G8 | R8G8B8 | R8G8B8A8
    | R16 | R16G16 | R16G16B16 | R16G16B16A16
    | R32G32B32Float | R32G32B32A32Float

  /** `gltf::image::Data`: decoded pixels, row by row, in the given format. */
  datatype ImageData = ImageData(format: ImageFormat, width: nat, height: nat, pixels: seq<u8>)

  /**
    A texture: its sampler and the outcome of reading its image source, which
    is file or buffer I/O and an input here.
   */
  datatype GltfTexture = GltfTexture(sampler: GltfSampler, image: Outcome<ImageData>)

  datatype AlphaMode = Opaque | Mask | Blend

  /** A material's texture slots, each the index of a document texture. */
  datatype Material = Material(
    alphaMode: AlphaMode,
    emissiveTexture: Option<nat>,
    baseColorTexture: Option<nat>,
    metallicRoughnessTexture: Option<nat>,
    normalTexture: Option<nat>,
    occlusionTexture: Option<nat>)

  datatype Document = Document(
    scenes: seq<Scene>,
    nodes: seq<Node>,
    meshes: seq<Mesh>,
    materials: seq<Material>,
    textures: seq<GltfTexture>)

  predicate TextureSlotValid(d: Document, slot: Option<nat>) {
    slot.Some? ==> slot.value < |d.textures|
  }

  predicate MaterialValid(d: Document, m: Material) {
    TextureSlotValid(d, m.emissiveTexture) && TextureSlotValid(d, m.baseColorTexture) &&
    TextureSlotValid(d, m.metallicRoughnessTexture) && TextureSlotValid(d, m.normalTexture) &&
    TextureSlotValid(d, m.occlusionTexture)
  }

  predicate PrimitiveValid(d: Document, p: Primitive) {
    p.material.Some? ==> p.material.value < |d.materials|
  }

  /**
    Every index in the document names an element of the list it refers to:
    what the `gltf` crate's validation establishes before a document is
    handed out.
   */
  predicate WellFormed(d: Document) {
    (forall s, k :: 0 <= s < |d.scenes| && 0 <= k < |d.scenes[s].nodes| ==> d.scenes[s].nodes[k] < |d.nodes|) &&
    (forall n :: 0 <= n < |d.nodes| && d.nodes[n].mesh.Some? ==> d.nodes[n].mesh.value < |d.meshes|) &&
    (forall n, k :: 0 <= n < |d.nodes| && 0 <= k < |d.nodes[n].children| ==> d.nodes[n].children[k] < |d.nodes|) &&
    (forall m, k :: 0 <= m < |d.meshes| && 0 <= k < |d.meshes[m].primitives| ==> PrimitiveValid(d, d.meshes[m].primitives[k])) &&
    (forall m :: 0 <= m < |d.materials| ==> MaterialValid(d, d.materials[m]))
  }

  /**
    `rank` strictly decreases from every node to each of its children, so the
    node graph has no cycle. Section 3.5.1 of the glTF 2.0 specification
    requires the node hierarchy to be a set of disjoint strict trees; such a
    graph has a rank (the height of each node).
   */
  predicate RankedBy(d: Document, rank: seq<nat>) {
    |rank| == |d.nodes| &&
    forall n, k :: 0 <= n < |d.nodes| && 0 <= k < |d.nodes[n].children| ==>
      d.nodes[n].children[k] < |d.nodes| && rank[d.nodes[n].children[k]] < rank[n]
  }
}
