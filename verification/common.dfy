/**
  Values shared by every part of the model: optional values, the three ways a
  Rust call can end (a value, a returned error, an abort), the fixed-width
  unsigned integers, the glam vectors and the glam 4x4 matrix.
 */
module Common {

  /** Rust's `Option`. */
  datatype Option<T> = None | Some(value: T)

  /**
    How a Rust call ends: `Ok` with a value, `Err` with the message of a returned
    `anyhow`/`Result` error (the caller may recover), or `Panic` for `todo!()`,
    `unwrap()` on nothing, or an index out of range (the process aborts).
   */
  datatype Outcome<T> = Ok(value: T) | Err(message: string) | Panic(reason: string)
  {
    predicate IsFailure() { !Ok? }

    function PropagateFailure<U>(): (r: Outcome<U>)
      requires !Ok?
      ensures r.Err? == Err? && r.Panic? == Panic?
      ensures Err? ==> r == Err(message)
      ensures Panic? ==> r == Panic(reason)
    {
      if Err? then Err(message) else Panic(reason)
    }

    function Extract(): T
      requires Ok?
    {
      value
    }
  }

  type u8 = x: int | 0 <= x < 0x100
  type u16 = x: int | 0 <= x < 0x1_0000
  type u32 = x: int | 0 <= x < 0x1_0000_0000
  type u64 = x: int | 0 <= x < 0x1_0000_0000_0000_0000

  /** `x as u32` for a length: Rust keeps the low 32 bits. */
  function TruncateU32(x: nat): (r: u32)
    ensures x < 0x1_0000_0000 ==> r == x
  {
    x % 0x1_0000_0000
  }

  /** glam `Vec2`. */
  datatype Vec2 = Vec2(x: real, y: real)
  /** glam `Vec3` (12 bytes) and, where a buffer says so, `Vec3A` (16 bytes). */
  datatype Vec3 = Vec3(x: real, y: real, z: real)
  /** glam `Vec4`. */
  datatype Vec4 = Vec4(x: real, y: real, z: real, w: real)

  const Vec2Zero := Vec2(0.0, 0.0)
  const Vec3Zero := Vec3(0.0, 0.0, 0.0)
  const Vec4Zero := Vec4(0.0, 0.0, 0.0, 0.0)

  /**
    The elementary matrices a glam `Mat4` is built from in this core; their
    floating-point entries are never combined by the model.
   */
  datatype Elementary =
    | FromColumns(columns: seq<real>)
    | RotationTranslation(rotation: seq<real>, translation: seq<real>)
    | Scale(scale: seq<real>)
    | Given(id: nat)

  /**
    glam `Mat4`, kept symbolic: a matrix is the product of its factors, left to
    right. Products concatenate the factors, so `Mul` is associative with unit
    `Identity` and nothing else is assumed about matrices: every equation proved
    here holds for real 4x4 matrices too.
   */
  datatype Mat4 = Mat4(factors: seq<Elementary>)

  const Identity := Mat4([])

  /** glam `Mat4 * Mat4`. */
  function Mul(a: Mat4, b: Mat4): (r: Mat4)
    ensures |r.factors| == |a.factors| + |b.factors|
  {
    Mat4(a.factors + b.factors)
  }

  lemma MulAssociative(a: Mat4, b: Mat4, c: Mat4)
    ensures Mul(Mul(a, b), c) == Mul(a, Mul(b, c))
  {
    assert (a.factors + b.factors) + c.factors == a.factors + (b.factors + c.factors);
  }

  lemma MulIdentity(a: Mat4)
    ensures Mul(Identity, a) == a && Mul(a, Identity) == a
  {
    assert [] + a.factors == a.factors;
    assert a.factors + [] == a.factors;
  }

  /** Decimal rendering of a `usize`, as Rust's `{}` formats it. */
  function NatToString(n: nat): (s: string)
    ensures |s| > 0
    ensures forall k :: 0 <= k < |s| ==> '0' <= s[k] <= '9'
    decreases n
  {
    if n < 10 then [Digit(n)] else NatToString(n / 10) + [Digit(n % 10)]
  }

  function Digit(d: nat): (c: char)
    requires d < 10
    ensures '0' <= c <= '9' && c as int - '0' as int == d
  {
    (d + '0' as int) as char
  }

  /** Reads a string of decimal digits back as a number. */
  function DigitsValue(s: string): nat
    requires forall k :: 0 <= k < |s| ==> '0' <= s[k] <= '9'
  {
    if s == [] then 0 else 10 * DigitsValue(s[..|s| - 1]) + (s[|s| - 1] as int - '0' as int)
  }

  /** The decimal rendering loses nothing: reading it back gives the number. */
  lemma {:induction false} NatToStringRoundTrip(n: nat)
    ensures DigitsValue(NatToString(n)) == n
    decreases n
  {
    if n >= 10 {
      NatToStringRoundTrip(n / 10);
      var s := NatToString(n);
      assert s[..|s| - 1] == NatToString(n / 10);
    }
  }

  /** Hence two numbers with the same rendering are equal. */
  lemma NatToStringInjective(m: nat, n: nat)
    requires NatToString(m) == NatToString(n)
    ensures m == n
  {
    NatToStringRoundTrip(m);
    NatToStringRoundTrip(n);
  }
}
