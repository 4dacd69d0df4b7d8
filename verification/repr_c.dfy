/**
  The C layout rule Rust applies to `#[repr(C)]` structs, which the uniform
  structs shared with the shaders rely on: fields in declaration order, each at
  the next offset that is a multiple of its alignment, and the whole struct
  padded to a multiple of its largest alignment.
 */
module ReprC {

  datatype FieldType = FieldType(size: nat, align: nat)

  const U32Field := FieldType(4, 4)
  const F32Field := FieldType(4, 4)
  /** glam `Vec3`: three floats, 4-byte aligned. */
  const Vec3Field := FieldType(12, 4)
  /** glam `Vec3A`: three floats padded to 16 bytes, 16-byte aligned. */
  const Vec3AField := FieldType(16, 16)

  function PadField(n: nat): FieldType {
    FieldType(n, 1)
  }

  predicate WellAligned(fields: seq<FieldType>) {
    forall k :: 0 <= k < |fields| ==> fields[k].align > 0
  }

  /** The least multiple of `a` that is at least `x`. */
  function AlignUp(x: nat, a: nat): (r: nat)
    requires a > 0
    ensures r % a == 0 && x <= r < x + a
  {
    var q := x / a;
    ModOfMultiple(a, q + 1);
    if x % a == 0 then x else a * (q + 1)
  }

  /** A multiple of `a` leaves no remainder. */
  lemma {:induction false} ModOfMultiple(a: nat, q: nat)
    requires a > 0
    ensures (a * q) % a == 0
  {
    var n := a * q;
    var q', r := n / a, n % a;
    assert n == a * q' + r && 0 <= r < a;
    if q' < q {
      MulAtLeast(a, q - q');
      assert false;
    } else if q' > q {
      MulAtLeast(a, q' - q);
      assert false;
    }
  }

  lemma {:induction false} MulAtLeast(a: nat, d: nat)
    requires d >= 1
    ensures a * d >= a
    decreases d
  {
    if d > 1 {
      MulAtLeast(a, d - 1);
      assert a * d == a * (d - 1) + a;
    }
  }

  /** The offsets of `fields` laid out from byte `start`, each field aligned up after the previous one. */
  function OffsetsFrom(start: nat, fields: seq<FieldType>): (r: seq<nat>)
    requires WellAligned(fields)
    ensures |r| == |fields|
    decreases |fields|
  {
    if fields == [] then []
    else
      var here := AlignUp(start, fields[0].align);
      [here] + OffsetsFrom(here + fields[0].size, fields[1..])
  }

  /**
    The layout rule: every field starts at a multiple of its alignment, after
    the end of the previous one, and before it no more than the padding its
    alignment demands.
   */
  lemma {:induction false} OffsetsFromLayout(start: nat, fields: seq<FieldType>)
    requires WellAligned(fields)
    ensures var r := OffsetsFrom(start, fields);
      forall k :: 0 <= k < |r| ==> r[k] % fields[k].align == 0
    ensures |fields| > 0 ==> start <= OffsetsFrom(start, fields)[0] < start + fields[0].align
    ensures var r := OffsetsFrom(start, fields);
      forall k :: 0 <= k < |r| - 1 ==> r[k] + fields[k].size <= r[k + 1] < r[k] + fields[k].size + fields[k + 1].align
    decreases |fields|
  {
    if fields != [] {
      var here := AlignUp(start, fields[0].align);
      OffsetsFromLayout(here + fields[0].size, fields[1..]);
      var r := OffsetsFrom(start, fields);
      var rest := OffsetsFrom(here + fields[0].size, fields[1..]);
      assert r == [here] + rest;
      forall k | 0 <= k < |r|
        ensures r[k] % fields[k].align == 0
      {
        if k > 0 {
          assert r[k] == rest[k - 1] && fields[k] == fields[1..][k - 1];
        }
      }
      forall k | 0 <= k < |r| - 1
        ensures r[k] + fields[k].size <= r[k + 1] < r[k] + fields[k].size + fields[k + 1].align
      {
        if k > 0 {
          assert r[k] == rest[k - 1] && r[k + 1] == rest[k] && fields[k] == fields[1..][k - 1] && fields[k + 1] == fields[1..][k];
        }
      }
    }
  }

  function MaxAlign(fields: seq<FieldType>): (a: nat)
    ensures forall k :: 0 <= k < |fields| ==> fields[k].align <= a
    ensures fields == [] ==> a == 1
    ensures fields != [] ==> exists k :: 0 <= k < |fields| && fields[k].align == a
  {
    if fields == [] then 1
    else
      var rest := MaxAlign(fields[1..]);
      if fields[1..] == [] || fields[0].align >= rest then fields[0].align else rest
  }

  function Offsets(fields: seq<FieldType>): seq<nat>
    requires WellAligned(fields)
  {
    OffsetsFrom(0, fields)
  }

  /** `size_of` of the struct: the end of the last field, rounded up to the struct's alignment. */
  function StructSize(fields: seq<FieldType>): (n: nat)
    requires WellAligned(fields)
    ensures n % MaxAlign(fields) == 0
    ensures fields != [] ==> Offsets(fields)[|fields| - 1] + fields[|fields| - 1].size <= n
  {
    var end := if fields == [] then 0 else Offsets(fields)[|fields| - 1] + fields[|fields| - 1].size;
    AlignUp(end, MaxAlign(fields))
  }
}
