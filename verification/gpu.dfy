/**
  The part of the wgpu API this core touches, as values: buffers with their
  contents, textures, samplers, bind-group layouts and bind groups, and a render
  pass that records the commands issued on it in order. Creating a resource
  cannot fail here (device loss is not modelled).
 */
module Gpu {
  import opened Common

  datatype BufferUsage = VertexUsage | IndexUsage | StorageUsage | UniformUsage | CopySrcUsage | CopyDstUsage | MapReadUsage

  /**
    A device buffer. `FromContents` is what `create_buffer_init` makes from a typed
    slice (each element `stride` bytes); `Zeroed` is what `create_buffer` makes
    (`size` zero bytes).
   */
  datatype Buffer<T> =
    | FromContents(name: string, usage: set<BufferUsage>, contents: seq<T>, stride: nat)
    | Zeroed(name: string, usage: set<BufferUsage>, size: nat)
  {
    /** The buffer's length in bytes. */
    function Size(): nat {
      if FromContents? then |contents| * stride else size
    }

    /** What a bind group or a render command sees of the buffer. */
    function Ref(): BufferRef {
      BufferRef(name, usage, Size())
    }
  }

  datatype BufferRef = BufferRef(name: string, usage: set<BufferUsage>, size: nat)

  datatype TextureFormat = Rgba8Unorm | Rgba8UnormSrgb | Depth32Float | SurfaceFormat(id: nat)
  datatype TextureUsage = TextureBindingUsage | CopyDstTextureUsage | CopySrcTextureUsage | RenderAttachmentUsage
  datatype Extent3d = Extent3d(width: nat, height: nat, depthOrArrayLayers: nat)

  /** A device texture and the bytes written into it (none for a render target). */
  datatype Texture = Texture(
    name: Option<string>,
    size: Extent3d,
    format: TextureFormat,
    usage: set<TextureUsage>,
    mipLevelCount: nat,
    contents: seq<u8>)

  /** `texture.create_view(&Default::default())`: a view of the whole texture. */
  datatype TextureView = TextureView(texture: Texture)

  datatype AddressMode = ClampToEdge | Repeat | MirrorRepeat | ClampToBorder
  datatype FilterMode = Nearest | Linear

  datatype SamplerDescriptor = SamplerDescriptor(
    addressModeU: AddressMode,
    addressModeV: AddressMode,
    addressModeW: AddressMode,
    magFilter: FilterMode,
    minFilter: FilterMode,
    mipmapFilter: FilterMode)

  /** A device sampler, known by the descriptor it was made from. */
  datatype Sampler = Sampler(descriptor: SamplerDescriptor)

  datatype ShaderStage = VertexStage | FragmentStage

  const VertexFragment: set<ShaderStage> := {VertexStage, FragmentStage}

  datatype BindingType =
    | StorageBuffer(readOnly: bool)
    | UniformBuffer
    | Texture2d(filterable: bool)
    | FilteringSampler

  /** `wgpu::BindGroupLayoutEntry`; `count` is `Some(n)` for an array binding of n elements. */
  datatype LayoutEntry = LayoutEntry(binding: nat, visibility: set<ShaderStage>, ty: BindingType, count: Option<nat>)

  datatype BindGroupLayout = BindGroupLayout(name: Option<string>, entries: seq<LayoutEntry>)

  datatype BindingResource =
    | WholeBuffer(buffer: BufferRef)
    | TextureViewArray(views: seq<TextureView>)
    | SamplerArray(samplers: seq<Sampler>)

  datatype BindGroupEntry = BindGroupEntry(binding: nat, resource: BindingResource)

  datatype BindGroup = BindGroup(name: Option<string>, layout: BindGroupLayout, entries: seq<BindGroupEntry>)

  /** The binding numbers a layout declares, in order. */
  function LayoutBindings(l: BindGroupLayout): (r: seq<nat>)
    ensures |r| == |l.entries|
    ensures forall k :: 0 <= k < |r| ==> r[k] == l.entries[k].binding
  {
    seq(|l.entries|, k requires 0 <= k < |l.entries| => l.entries[k].binding)
  }

  /**
    The binding numbers a bind group fills, in order: the counterpart of
    `LayoutBindings` over the group's own entries, so that a group can be
    compared with the layout it claims to fill.
   */
  function GroupBindings(g: BindGroup): (r: seq<nat>)
    ensures |r| == |g.entries|
    ensures forall k :: 0 <= k < |r| ==> r[k] == g.entries[k].binding
  {
    seq(|g.entries|, k requires 0 <= k < |g.entries| => g.entries[k].binding)
  }

  predicate Distinct(s: seq<nat>) {
    forall i, j :: 0 <= i < j < |s| ==> s[i] != s[j]
  }

  /** `texture.create_view(..)` for each texture, in order. */
  function ViewsOf(textures: seq<Texture>): (views: seq<TextureView>)
    ensures |views| == |textures|
    ensures forall k :: 0 <= k < |views| ==> views[k].texture == textures[k]
  {
    seq(|textures|, k requires 0 <= k < |textures| => TextureView(textures[k]))
  }

  /** The number of elements a binding resource provides. */
  function ResourceLength(r: BindingResource): nat {
    match r
    case WholeBuffer(_) => 1
    case TextureViewArray(views) => |views|
    case SamplerArray(samplers) => |samplers|
  }

  /** Every array the group binds is no longer than the count its layout declares for that binding. */
  predicate ArraysFitLayout(g: BindGroup) {
    forall e, l :: e in g.entries && l in g.layout.entries && e.binding == l.binding && l.count.Some? ==>
      ResourceLength(e.resource) <= l.count.value
  }

  datatype IndexFormat = Uint16 | Uint32

  /** The commands a render pass records. */
  datatype Command =
    | PushDebugGroup(name: string)
    | PopDebugGroup
    | SetBindGroup(index: nat, group: BindGroup)
    | SetVertexBuffer(slot: nat, buffer: BufferRef)
    | SetIndexBuffer(buffer: BufferRef, format: IndexFormat)
    | DrawIndexed(indexStart: nat, indexEnd: nat, baseVertex: int, instanceStart: nat, instanceEnd: nat)

  /**
    The debug-group nesting depth after `cmds`, starting at `depth`, or `None`
    once a pop finds no open group.
   */
  function DebugDepthFrom(depth: nat, cmds: seq<Command>): Option<nat>
    decreases |cmds|
  {
    if cmds == [] then Some(depth)
    else match cmds[0]
      case PushDebugGroup(_) => DebugDepthFrom(depth + 1, cmds[1..])
      case PopDebugGroup => if depth == 0 then None else DebugDepthFrom(depth - 1, cmds[1..])
      case _ => DebugDepthFrom(depth, cmds[1..])
  }

  /** Every debug group `cmds` opens it also closes, and it closes none it did not open. */
  predicate Balanced(cmds: seq<Command>) {
    DebugDepthFrom(0, cmds) == Some(0)
  }

  /** Running two command lists one after the other nests their debug groups in sequence. */
  lemma {:induction false} DebugDepthConcat(depth: nat, a: seq<Command>, b: seq<Command>)
    ensures DebugDepthFrom(depth, a + b) ==
      match DebugDepthFrom(depth, a)
      case None => None
      case Some(d) => DebugDepthFrom(d, b)
    decreases |a|
  {
    if a == [] {
      assert a + b == b;
    } else {
      assert (a + b)[0] == a[0];
      assert (a + b)[1..] == a[1..] + b;
      match a[0]
      case PushDebugGroup(_) => DebugDepthConcat(depth + 1, a[1..], b);
      case PopDebugGroup => if depth > 0 { DebugDepthConcat(depth - 1, a[1..], b); }
      case _ => DebugDepthConcat(depth, a[1..], b);
    }
  }

  /** Appending one balanced command list to another keeps the debug groups balanced. */
  lemma BalancedConcat(a: seq<Command>, b: seq<Command>)
    requires Balanced(a) && Balanced(b)
    ensures Balanced(a + b)
  {
    DebugDepthConcat(0, a, b);
  }

  /** `wgpu::RenderPass`: every call appends its command to `commands`. */
  class RenderPass {
    var commands: seq<Command>

    constructor ()
      ensures commands == []
    {
      commands := [];
    }

    method Record(c: Command)
      modifies this
      ensures commands == old(commands) + [c]
    {
      commands := commands + [c];
    }
  }
}
