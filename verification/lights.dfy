/**
  Scene lights: a C-layout light record shared with the shaders, builders that
  each set one field of a default light, and an append-only CPU list uploaded
  as one storage buffer.
 */
module Lights {
  import opened Common
  import opened Gpu
  import ReprC

  /** `LightType`, a `u32` enum whose default is `Off`. */
  datatype LightType = Off | Directional | Omni | Ambient

  /** The `u32` each light type is stored as. */
  function Discriminant(t: LightType): (d: u32)
    ensures d < 4
    ensures t == Off <==> d == 0
    ensures t == Directional <==> d == 1
    ensures t == Omni <==> d == 2
    ensures t == Ambient <==> d == 3
  {
    match t
    case Off => 0
    case Directional => 1
    case Omni => 2
    case Ambient => 3
  }

  /** Distinct types are stored distinctly. */
  lemma DiscriminantInjective(s: LightType, t: LightType)
    requires Discriminant(s) == Discriminant(t)
    ensures s == t
  {
  }

  /**
    `Light`: position and direction as 16-byte `Vec3A`, colour as a 12-byte
    `Vec3`, intensity, type; the trailing 12 padding bytes are always zero and
    are not represented.
   */
  datatype Light = Light(position: Vec3, direction: Vec3, color: Vec3, intensity: real, lightType: LightType)

  /** `Light::default()`: all zero, type `Off`. */
  const DefaultLight := Light(Vec3Zero, Vec3Zero, Vec3Zero, 0.0, Off)

  /** `Light::omni()`: the default light, typed omni. */
  function OmniLight(): (l: Light)
    ensures l.lightType == Omni && l.(lightType := Off) == DefaultLight
  {
    DefaultLight.(lightType := Omni)
  }

  /** `Light::directional()`: the default light, typed directional. */
  function DirectionalLight(): (l: Light)
    ensures l.lightType == Directional && l.(lightType := Off) == DefaultLight
  {
    DefaultLight.(lightType := Directional)
  }

  function WithPosition(l: Light, p: Vec3): (r: Light)
    ensures r.position == p && r.(position := l.position) == l
  {
    l.(position := p)
  }

  function WithDirection(l: Light, d: Vec3): (r: Light)
    ensures r.direction == d && r.(direction := l.direction) == l
  {
    l.(direction := d)
  }

  function WithColor(l: Light, c: Vec3): (r: Light)
    ensures r.color == c && r.(color := l.color) == l
  {
    l.(color := c)
  }

  function WithIntensity(l: Light, i: real): (r: Light)
    ensures r.intensity == i && r.(intensity := l.intensity) == l
  {
    l.(intensity := i)
  }

  /** Builders on different fields commute, so the order of a builder chain does not matter. */
  lemma BuildersCommute(l: Light, p: Vec3, d: Vec3, c: Vec3, i: real)
    ensures WithPosition(WithDirection(l, d), p) == WithDirection(WithPosition(l, p), d)
    ensures WithColor(WithIntensity(l, i), c) == WithIntensity(WithColor(l, c), i)
    ensures WithPosition(WithColor(l, c), p) == WithColor(WithPosition(l, p), c)
  {
  }

  /** The C layout of `Light`. */
  const LightFields := [ReprC.Vec3AField, ReprC.Vec3AField, ReprC.Vec3Field, ReprC.F32Field, ReprC.U32Field, ReprC.PadField(12)]

  /** The tail of `Light` from the intensity on, laid out field by field. */
  lemma PadOffset()
    ensures ReprC.OffsetsFrom(52, LightFields[5..]) == [52]
  {
    assert LightFields[5..] == [ReprC.PadField(12)];
  }

  lemma TypeOffset()
    ensures ReprC.OffsetsFrom(48, LightFields[4..]) == [48, 52]
  {
    PadOffset();
    assert LightFields[4..][1..] == LightFields[5..];
  }

  lemma IntensityOffset()
    ensures ReprC.OffsetsFrom(44, LightFields[3..]) == [44, 48, 52]
  {
    TypeOffset();
    assert LightFields[3..][1..] == LightFields[4..];
  }

  lemma LightTailOffsets()
    ensures ReprC.OffsetsFrom(32, LightFields[2..]) == [32, 44, 48, 52]
  {
    IntensityOffset();
    assert LightFields[2..][1..] == LightFields[3..];
  }

  /** Offsets 0, 16, 32, 44 and 48 for the five fields the shader reads, padding at 52 ... */
  lemma LightOffsets()
    ensures ReprC.WellAligned(LightFields)
    ensures ReprC.Offsets(LightFields) == [0, 16, 32, 44, 48, 52]
  {
    SecondFieldOffsets();
    assert ReprC.AlignUp(0, 16) == 0;
    assert ReprC.OffsetsFrom(0, LightFields) == [0] + ReprC.OffsetsFrom(16, LightFields[1..]);
  }

  lemma SecondFieldOffsets()
    ensures ReprC.OffsetsFrom(16, LightFields[1..]) == [16, 32, 44, 48, 52]
  {
    LightTailOffsets();
    assert LightFields[1..][1..] == LightFields[2..];
  }

  /** ... and 64 bytes in all, 16-byte aligned. */
  lemma LightSize()
    ensures ReprC.WellAligned(LightFields)
    ensures ReprC.MaxAlign(LightFields) == 16
    ensures ReprC.StructSize(LightFields) == LightStride
  {
    LightOffsets();
    var f := LightFields;
    assert ReprC.MaxAlign(f[5..]) == 1;
    assert ReprC.MaxAlign(f[4..]) == 4;
    assert ReprC.MaxAlign(f[3..]) == 4;
    assert ReprC.MaxAlign(f[2..]) == 4;
    assert ReprC.MaxAlign(f[1..]) == 16;
  }

  /** `size_of::<Light>()`. */
  const LightStride: nat := 64

  const LightSet: nat := 1
  const LightUniformBinding: nat := 0

  const LightLayout := BindGroupLayout(Some("light_bind_group_layout"), [
    LayoutEntry(LightUniformBinding, VertexFragment, StorageBuffer(true), None)
  ])

  datatype GpuLights = GpuLights(lightBuffer: Buffer<Light>, lightBindGroupLayout: BindGroupLayout, lightBindGroup: BindGroup)

  /** `CpuLights`: the scene's lights, only ever appended to. */
  class CpuLights {
    var lights: seq<Light>

    constructor New()
      ensures lights == []
    {
      lights := [];
    }

    /** `add_lights`: appends in order, keeping the lights already there. */
    method AddLights(more: seq<Light>)
      modifies this
      ensures lights == old(lights) + more
    {
      lights := lights + more;
    }

    /** `with_lights`: the same append, returning the list itself. */
    method WithLights(more: seq<Light>) returns (r: CpuLights)
      modifies this
      ensures r == this && lights == old(lights) + more
    {
      lights := lights + more;
      r := this;
    }

    /** `to_gpu`: every light, in order, in one storage buffer bound at 0 for set 1. */
    function ToGpu(): (g: GpuLights)
      reads this
      ensures g.lightBuffer == FromContents("Light buffer", {StorageUsage}, lights, LightStride)
      ensures g.lightBuffer.Size() == LightStride * |lights|
      ensures g.lightBindGroupLayout == LightLayout && g.lightBindGroup.layout == LightLayout
      ensures g.lightBindGroup.name == Some("light_bind_group")
      ensures GroupBindings(g.lightBindGroup) == LayoutBindings(LightLayout) == [LightUniformBinding]
      ensures g.lightBindGroup.entries[0].resource == WholeBuffer(g.lightBuffer.Ref())
    {
      var buffer := FromContents("Light buffer", {StorageUsage}, lights, LightStride);
      GpuLights(buffer, LightLayout, BindGroup(Some("light_bind_group"), LightLayout, [
        BindGroupEntry(LightUniformBinding, WholeBuffer(buffer.Ref()))
      ]))
    }
  }
}
