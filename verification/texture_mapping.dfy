/**
  The texture-mapping demo's integer parts: the quad it draws (four vertices,
  two triangles), the rotation applied to the vertex positions, the 256x256
  RGBA checkerboard it generates byte by byte, and the layout it uploads the
  bytes with.
 */
module TextureMapping {
  import opened Common
  import opened Gpu
  import RenderTarget

  /** `Vertex`: position, normal and colour, three floats each. */
  datatype Vertex = Vertex(position: Vec3, normal: Vec3, color: Vec3)

  const BaseNormal := Vec3(0.0, -1.0, 0.0)
  const White := Vec3(1.0, 1.0, 1.0)

  /** `VERTICES`: the corners of a square at height -0.3, all facing down and white. */
  const Vertices: seq<Vertex> := [
    Vertex(Vec3(-0.5, -0.5, -0.3), BaseNormal, White),
    Vertex(Vec3(0.5, -0.5, -0.3), BaseNormal, White),
    Vertex(Vec3(0.5, 0.5, -0.3), BaseNormal, White),
    Vertex(Vec3(-0.5, 0.5, -0.3), BaseNormal, White)
  ]

  /** `INDICES`: the square as two triangles sharing the diagonal 0-2. */
  const Indices: seq<u16> := [0, 1, 2, 0, 2, 3]

  /** The index list is whole triangles, every index names a vertex, and every vertex is used. */
  lemma QuadIndicesValid()
    ensures |Indices| == 6 && |Indices| % 3 == 0 && |Vertices| == 4
    ensures forall k :: 0 <= k < |Indices| ==> Indices[k] < |Vertices|
    ensures forall v :: 0 <= v < |Vertices| ==> v in Indices
  {
    assert Indices[1] == 1 && Indices[5] == 3;
  }

  /**
    The rotation loop of `draw`: every vertex position is replaced by its
    image under `rotate` (`Mat4::from_rotation_z(angle).transform_point3`,
    whose arithmetic is not modelled); normals and colours are kept.
   */
  method RotatePositions(vs: array<Vertex>, rotate: Vec3 -> Vec3)
    modifies vs
    ensures forall k :: 0 <= k < vs.Length ==>
      vs[k] == old(vs[k]).(position := rotate(old(vs[k]).position))
  {
    var k := 0;
    while k < vs.Length
      invariant 0 <= k <= vs.Length
      invariant forall m :: 0 <= m < k ==> vs[m] == old(vs[m]).(position := rotate(old(vs[m]).position))
      invariant forall m :: k <= m < vs.Length ==> vs[m] == old(vs[m])
    {
      vs[k] := vs[k].(position := rotate(vs[k].position));
      k := k + 1;
    }
  }

  /** The texture is 256 by 256 texels of four bytes each. */
  const TextureWidth: nat := 256
  const TextureHeight: nat := 256
  const TextureBytes: nat := 4 * 256 * 256

  /** `i.wrapping_sub(j)` on `u32`. */
  function WrappingSub(i: u32, j: u32): (r: u32)
    ensures i >= j ==> r == i - j
    ensures i < j ==> r == 0x1_0000_0000 - (j - i)
  {
    (i - j) % 0x1_0000_0000
  }

  /** Red: on where the 16-texel column band and row band have the same parity. */
  function Red(i: u32, j: u32): u8 {
    if (i / 16) % 2 == (j / 16) % 2 then 255 else 0
  }

  /** Green: on along diagonal bands, computed on the wrapped `u32` difference. */
  function Green(i: u32, j: u32): u8 {
    if (WrappingSub(i, j) / 16) % 2 == 0 then 255 else 0
  }

  /** Blue: on along anti-diagonal bands of `i + j`. */
  function Blue(i: u32, j: u32): u8 {
    if ((i + j) / 16) % 2 == 0 then 255 else 0
  }

  /** Byte `c` of texel (`i`, `j`): red, green, blue, then an opaque alpha. */
  function TexelByte(i: u32, j: u32, c: nat): u8
    requires c < 4
  {
    if c == 0 then Red(i, j) else if c == 1 then Green(i, j) else if c == 2 then Blue(i, j) else 255
  }

  /** Byte `k` of the generated image: texel (column, row) lies at `4 * (row * 256 + column)`. */
  function CheckerboardByte(k: nat): u8
    requires k < TextureBytes
  {
    TexelByte((k / 4) % TextureWidth, (k / 4) / TextureWidth, k % 4)
  }

  /** The texel offsets: byte `c` of texel (`i`, `j`) is byte `4 * (j * 256 + i) + c` and nowhere else. */
  lemma TexelOffset(i: nat, j: nat, c: nat)
    requires i < TextureWidth && j < TextureHeight && c < 4
    ensures 4 * (j * TextureWidth + i) + c < TextureBytes
    ensures (4 * (j * TextureWidth + i) + c) / 4 == j * TextureWidth + i
    ensures (4 * (j * TextureWidth + i) + c) % 4 == c
    ensures (j * TextureWidth + i) % TextureWidth == i && (j * TextureWidth + i) / TextureWidth == j
  {
  }

  /** Below the diagonal the green bands follow the distance to it, shifted by the wrap-around. */
  lemma GreenBelowDiagonal(i: u32, j: u32)
    requires i < j
    ensures Green(i, j) == 255 <==> ((j - i + 15) / 16) % 2 == 0
  {
    var d := j - i;
    assert WrappingSub(i, j) == 0x1_0000_0000 - d;
    assert (0x1_0000_0000 - d) / 16 == 0x1000_0000 - (d + 15) / 16;
  }

  /**
    Green is not symmetric across the diagonal: texel (1, 0) is lit and (0, 1)
    is not, where a signed difference truncated toward zero would light both.
   */
  lemma GreenAsymmetric()
    ensures Green(0, 0) == 255 && Green(0, 1) == 0 && Green(1, 0) == 255
  {
    GreenBelowDiagonal(0, 1);
  }

  /** Red and blue are symmetric in the two coordinates; every texel's alpha is opaque. */
  lemma CheckerboardSymmetry(i: u32, j: u32)
    ensures Red(i, j) == Red(j, i) && Blue(i, j) == Blue(j, i)
    ensures TexelByte(i, j, 3) == 255
  {
  }

  /**
    The generation loop of `draw`: a zeroed buffer of 4 * 256 * 256 bytes,
    filled column by column; every byte of every texel is written once, with
    the checkerboard's value.
   */
  method Checkerboard() returns (rgba: array<u8>)
    ensures fresh(rgba)
    ensures rgba.Length == TextureBytes
    ensures forall k :: 0 <= k < rgba.Length ==> rgba[k] == CheckerboardByte(k)
  {
    rgba := new u8[TextureWidth * TextureHeight * 4](_ => 0);
    var i := 0;
    while i < TextureWidth
      invariant 0 <= i <= TextureWidth
      invariant rgba.Length == TextureBytes
      invariant forall k :: 0 <= k < rgba.Length ==>
        rgba[k] == if (k / 4) % TextureWidth < i then CheckerboardByte(k) else 0
    {
      var j := 0;
      while j < TextureHeight
        invariant 0 <= j <= TextureHeight
        invariant rgba.Length == TextureBytes
        invariant forall k :: 0 <= k < rgba.Length ==>
          rgba[k] == if Written(k, i, j) then CheckerboardByte(k) else 0
      {
        WriteTexel(rgba, i, j);
        WrittenStep(i, j);
        j := j + 1;
      }
      WrittenColumn(i);
      i := i + 1;
    }
  }

  /** The body of the inner loop: the four bytes of texel (`i`, `j`) get the checkerboard's values. */
  method WriteTexel(rgba: array<u8>, i: nat, j: nat)
    requires rgba.Length == TextureBytes && i < TextureWidth && j < TextureHeight
    modifies rgba
    ensures forall k :: 0 <= k < rgba.Length ==>
      rgba[k] == if 4 * (j * TextureWidth + i) <= k < 4 * (j * TextureWidth + i) + 4 then CheckerboardByte(k) else old(rgba[k])
  {
    var offset := 4 * (j * TextureWidth + i);
    TexelOffset(i, j, 0);
    TexelOffset(i, j, 1);
    TexelOffset(i, j, 2);
    TexelOffset(i, j, 3);
    rgba[offset + 0] := Red(i, j);
    rgba[offset + 1] := Green(i, j);
    rgba[offset + 2] := Blue(i, j);
    rgba[offset + 3] := 255;
  }

  /** Byte `k` has been written once the inner loop of column `i` has reached row `j`. */
  predicate Written(k: nat, i: nat, j: nat) {
    (k / 4) % TextureWidth < i || ((k / 4) % TextureWidth == i && (k / 4) / TextureWidth < j)
  }

  /** One more row of column `i` written: exactly the four bytes of texel (`i`, `j`) become written. */
  lemma WrittenStep(i: nat, j: nat)
    requires i < TextureWidth && j < TextureHeight
    ensures forall k: nat :: Written(k, i, j + 1) <==>
      Written(k, i, j) || (4 * (j * TextureWidth + i) <= k < 4 * (j * TextureWidth + i) + 4)
  {
    forall k: nat
      ensures Written(k, i, j + 1) <==>
        Written(k, i, j) || (4 * (j * TextureWidth + i) <= k < 4 * (j * TextureWidth + i) + 4)
    {
      var p := k / 4;
      assert 4 * (j * TextureWidth + i) <= k < 4 * (j * TextureWidth + i) + 4 <==> p == j * TextureWidth + i;
      assert p == (p / TextureWidth) * TextureWidth + p % TextureWidth;
    }
  }

  /** A finished column: written after all its rows means written before the next column. */
  lemma WrittenColumn(i: nat)
    requires i < TextureWidth
    ensures forall k: nat :: k < TextureBytes ==> (Written(k, i, TextureHeight) <==> (k / 4) % TextureWidth < i + 1)
  {
  }

  /**
    `TexelCopyBufferLayout` of the upload: rows of `4 * width` bytes,
    images of `height` rows, for a copy of the whole texture.
   */
  function UploadLayout(bytes: nat): (p: RenderTarget.CopyPlan)
    ensures p.bufferSize == bytes
    ensures p.bytesPerRow == 4 * TextureWidth && p.rowsPerImage == TextureHeight
    ensures p.extent == Extent3d(TextureWidth, TextureHeight, 1)
  {
    RenderTarget.CopyPlan(bytes, 4 * TextureWidth, TextureHeight, Extent3d(TextureWidth, TextureHeight, 1))
  }

  /** The generated buffer is exactly as large as the upload layout reads: the copy fits. */
  lemma UploadFits()
    ensures RenderTarget.CopyFits(UploadLayout(TextureBytes))
    ensures UploadLayout(TextureBytes).bytesPerRow * UploadLayout(TextureBytes).rowsPerImage == TextureBytes
  {
  }
}
