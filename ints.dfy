/** Fixed-width integers of the native ABI and Rust's `as` casts between them,
    on a 64-bit target (usize is 64 bits wide). */
module Ints {

  const TWO_31: int := 0x8000_0000
  const TWO_32: int := 0x1_0000_0000
  const TWO_63: int := 0x8000_0000_0000_0000
  const TWO_64: int := 0x1_0000_0000_0000_0000

  type u8 = x: int | 0 <= x < 0x100
  type i32 = x: int | -0x8000_0000 <= x < 0x8000_0000
  type u32 = x: int | 0 <= x < 0x1_0000_0000
  type i64 = x: int | -0x8000_0000_0000_0000 <= x < 0x8000_0000_0000_0000
  type u64 = x: int | 0 <= x < 0x1_0000_0000_0000_0000
  type usize = u64

  predicate FitsI32(x: int) {
    -TWO_31 <= x < TWO_31
  }

  /** `x as i32`: keep the low 32 bits, read them as two's complement. */
  function AsI32(x: int): (r: i32)
    ensures (r - x) % TWO_32 == 0
    ensures FitsI32(x) ==> r == x
  {
    var m := x % TWO_32;
    if m < TWO_31 then m else m - TWO_32
  }

  /** `x as i64`: keep the low 64 bits, read them as two's complement. */
  function AsI64(x: int): (r: i64)
    ensures (r - x) % TWO_64 == 0
    ensures -TWO_63 <= x < TWO_63 ==> r == x
  {
    var m := x % TWO_64;
    if m < TWO_63 then m else m - TWO_64
  }

  /** `x as u32`: keep the low 32 bits, read them as unsigned. */
  function AsU32(x: int): (r: u32)
    ensures (r - x) % TWO_32 == 0
    ensures 0 <= x < TWO_32 ==> r == x
  {
    x % TWO_32
  }

  /** `x as usize` for a signed source: sign-extend, then read the 64 bits as unsigned. */
  function AsUsize(x: int): (r: usize)
    ensures (r - x) % TWO_64 == 0
    ensures 0 <= x < TWO_64 ==> r == x
    ensures -TWO_64 <= x < 0 ==> r == x + TWO_64
  {
    x % TWO_64
  }

  /** The usize values that an i32 field can hold: those below 2^31, and those within
      2^31 of the top of the range (the images of negative i32 values). */
  predicate SurvivesI32(v: usize) {
    v < TWO_31 || v >= TWO_64 - TWO_31
  }

  /** A usize stored in an i32 field and read back as usize survives exactly when
      SurvivesI32 holds. */
  lemma UsizeThroughI32(v: usize)
    ensures AsUsize(AsI32(v)) == v <==> SurvivesI32(v)
  {
    var m := v % TWO_32;
    if v >= TWO_31 && v < TWO_64 - TWO_31 {
      if m < TWO_31 {
        assert AsI32(v) == m;
        assert m != v;
      } else {
        assert AsI32(v) == m - TWO_32;
        assert AsUsize(m - TWO_32) == m - TWO_32 + TWO_64;
        assert m - TWO_32 + TWO_64 > v;
      }
    }
  }

  /** Reading an i32 field as usize and storing it back as i32 is the identity. */
  lemma I32ThroughUsize(x: i32)
    ensures AsI32(AsUsize(x)) == x
  {
    if x < 0 {
      assert AsUsize(x) == x + TWO_64;
      assert (x + TWO_64) % TWO_32 == x + TWO_32;
    }
  }

  /** A usize stored in an i64 field and read back as usize always survives. */
  lemma UsizeThroughI64(v: usize)
    ensures AsUsize(AsI64(v)) == v
  {
    if v >= TWO_63 {
      assert AsI64(v) == v - TWO_64;
    }
  }

  /** A usize stored in an i64 field reads back as a non-negative i64 exactly when it
      lies below 2^63. */
  lemma UsizeAsI64Sign(v: usize)
    ensures AsI64(v) >= 0 <==> v < TWO_63
    ensures v < TWO_63 ==> AsI64(v) == v
  {
  }

  /** A u32 stored in an i32 field and read back as u32 always survives. */
  lemma U32ThroughI32(v: u32)
    ensures AsU32(AsI32(v)) == v
  {
    if v >= TWO_31 {
      assert AsI32(v) == v - TWO_32;
    }
  }
}
