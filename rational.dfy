/** The bridge between arbitrary-precision rationals and the native 32-bit
    `AVRational` (src/lib.rs, lines 38-73). */
module RationalBridge {
  import opened Ints
  import opened Gcds
  import opened Errors

  /** An arbitrary-precision rational as a numerator/denominator pair. */
  datatype Rational = Rational(num: int, den: int)

  /** The native rational: two 32-bit fields. */
  datatype AVRational = AVRational(num: i32, den: i32)

  /** The canonical form every BigRational is kept in: positive denominator, no
      common factor. */
  predicate IsNormalized(r: Rational) {
    r.den > 0 && Gcd(Abs(r.num), r.den) == 1
  }

  /** A `num::BigRational` value: always held in canonical form. */
  type BigRational = r: Rational | IsNormalized(r) witness Rational(0, 1)

  predicate FitsBoth(r: Rational) {
    FitsI32(r.num) && FitsI32(r.den)
  }

  /** `BigRational::new(n, d)` / `BigRational::from((n, d))`: divide out the gcd and
      move the sign to the numerator. A zero denominator panics; callers must rule
      it out. */
  function Normalize(n: int, d: int): (r: Rational)
    requires d != 0
    ensures IsNormalized(r)
    ensures r.num * d == n * r.den
    ensures Abs(r.num) <= Abs(n) && r.den <= Abs(d)
    ensures d > 0 && Gcd(Abs(n), d) == 1 ==> r == Rational(n, d)
  {
    var g := Gcd(Abs(n), Abs(d));
    DivideByGcdBounds(Abs(n), Abs(d));
    var a, b := Abs(n) / g, Abs(d) / g;
    NormalizeParts(n, d, g, a, b);
    WithSign(n, d, a, b)
  }

  /** Puts the sign of n / d on the reduced magnitudes a / b. */
  function WithSign(n: int, d: int, a: nat, b: nat): (r: Rational)
    requires d != 0 && a <= Abs(n) && 1 <= b <= Abs(d) && Gcd(a, b) == 1
    requires a * Abs(d) == Abs(n) * b
    ensures IsNormalized(r)
    ensures r.num * d == n * r.den
    ensures Abs(r.num) <= Abs(n) && r.den <= Abs(d)
    ensures r.den == b && ((n < 0) == (d < 0) ==> r.num == a)
  {
    SignedCross(n, d, a, b);
    if (n < 0) == (d < 0) then Rational(a, b) else Rational(-(a as int), b)
  }

  /** The facts about a = |n| / g and b = |d| / g that Normalize states. */
  lemma NormalizeParts(n: int, d: int, g: nat, a: int, b: int)
    requires d != 0 && g == Gcd(Abs(n), Abs(d)) && g > 0
    requires a == Abs(n) / g && b == Abs(d) / g
    ensures 0 <= a <= Abs(n) && 1 <= b <= Abs(d)
    ensures Gcd(a, b) == 1
    ensures a * Abs(d) == Abs(n) * b
    ensures g == 1 ==> a == Abs(n) && b == Abs(d)
  {
    DivideByGcdBounds(Abs(n), Abs(d));
    DivideByGcdCoprime(Abs(n), Abs(d));
  }

  /** The cross-multiplication of magnitudes carries over to signed values. */
  lemma SignedCross(n: int, d: int, a: int, b: int)
    requires a * Abs(d) == Abs(n) * b
    ensures (n < 0) == (d < 0) ==> a * d == n * b
    ensures (n < 0) != (d < 0) ==> (-a) * d == n * b
  {
    if d < 0 {
      assert a * d == -(a * Abs(d));
    }
    if n < 0 {
      assert n * b == -(Abs(n) * b);
    }
  }

  /** Rust's `BigInt / 10`: division truncating toward zero. */
  function TruncDiv10(x: int): (q: int)
    ensures Abs(q) == Abs(x) / 10
    ensures x != 0 ==> Abs(q) < Abs(x)
  {
    if x >= 0 then x / 10 else -((-x) / 10)
  }

  /** The outcome of the reduction loop: a value that fits, or the panic raised when a
      step's denominator reaches 0. */
  datatype Reduction = Reduced(value: Rational) | DenominatorZeroPanic

  /** What `reduce_bigrational_to_i32` computes: while a part does not fit in i32,
      truncate both parts by 10 and renormalise. |num| + |den| strictly falls at each
      step because the part that does not fit is non-zero. */
  function ReductionOf(r: Rational): (out: Reduction)
    ensures out.Reduced? ==> FitsBoth(out.value)
    ensures out.Reduced? && IsNormalized(r) ==> IsNormalized(out.value)
    decreases Abs(r.num) + Abs(r.den)
  {
    if FitsBoth(r) then Reduced(r)
    else
      var n, d := TruncDiv10(r.num), TruncDiv10(r.den);
      if d == 0 then DenominatorZeroPanic
      else ReductionOf(Normalize(n, d))
  }

  /** `reduce_bigrational_to_i32` (src/lib.rs:64-73): the loop itself. */
  method ReduceBigRationalToI32(value: Rational) returns (out: Reduction)
    ensures out == ReductionOf(value)
  {
    var result := value;
    while !FitsBoth(result)
      invariant ReductionOf(result) == ReductionOf(value)
      decreases Abs(result.num) + Abs(result.den)
    {
      var n, d := TruncDiv10(result.num), TruncDiv10(result.den);
      if d == 0 {
        return DenominatorZeroPanic;
      }
      result := Normalize(n, d);
    }
    return Reduced(result);
  }

  /** A rational that already fits is returned as it is: the loop body never runs. */
  lemma ReductionKeepsFitting(r: Rational)
    requires FitsBoth(r)
    ensures ReductionOf(r) == Reduced(r)
  {
  }

  /** A step whose truncated denominator is 0 panics instead of reporting an error:
      3000000001/3 is in canonical form and its first step divides 3 down to 0. */
  lemma ReductionPanicExample()
    ensures IsNormalized(Rational(3000000001, 3))
    ensures ReductionOf(Rational(3000000001, 3)) == DenominatorZeroPanic
  {
    assert 3000000001 % 3 == 1;
    assert Gcd(3000000001, 3) == Gcd(3, 1) == Gcd(1, 0);
  }

  /** A rational whose numerator fits in i32 never panics: only an oversized
      denominator can drive the loop, and it stays at least 2^31 / 10 after the
      step. This covers time bases such as 1/90000 extended to large denominators. */
  lemma {:induction false} FittingNumeratorNeverPanics(r: Rational)
    requires FitsI32(r.num) && r.den > 0
    ensures ReductionOf(r).Reduced?
    decreases Abs(r.num) + Abs(r.den)
  {
    if !FitsBoth(r) {
      var n, d := TruncDiv10(r.num), TruncDiv10(r.den);
      assert d > 0;
      var next := Normalize(n, d);
      assert Abs(next.num) <= Abs(n) <= Abs(r.num);
      FittingNumeratorNeverPanics(next);
    }
  }

  /** `BigInt::to_i32`. */
  function ToI32(x: int): (r: Option32)
    ensures r.Some32? <==> FitsI32(x)
    ensures r.Some32? ==> r.value == x
  {
    if FitsI32(x) then Some32(x) else None32
  }

  datatype Option32 = None32 | Some32(value: i32)

  /** `avrational_from_bigrational` (src/lib.rs:38-51). Its InvalidData branch is
      unreachable: the reduction only returns values that fit. A value whose
      reduction panics is excluded, as the panic aborts the caller. */
  function AvRationalFromBigRational(value: Rational): (r: Result<AVRational>)
    requires ReductionOf(value).Reduced?
    ensures r.Ok?
    ensures r.value.num == ReductionOf(value).value.num
    ensures r.value.den == ReductionOf(value).value.den
  {
    var reduced := ReductionOf(value).value;
    var numer, denom := ToI32(reduced.num), ToI32(reduced.den);
    if numer.None32? || denom.None32? then Err(InvalidData)
    else Ok(AVRational(numer.value, denom.value))
  }

  /** `bigrational_from_avrational` (src/lib.rs:53-62): always succeeds and yields the
      canonical form of num/den. A zero denominator panics in `BigRational::new`, so
      it is excluded. */
  function BigRationalFromAvRational(value: AVRational): (r: Result<Rational>)
    requires value.den != 0
    ensures r.Ok? && IsNormalized(r.value)
    ensures r.value.num * value.den == value.num * r.value.den
  {
    Ok(Normalize(value.num, value.den))
  }

  /** Round trip: a canonical rational that fits comes back unchanged. */
  lemma RoundTrip(r: Rational)
    requires IsNormalized(r) && FitsBoth(r)
    ensures BigRationalFromAvRational(AvRationalFromBigRational(r).value) == Ok(r)
  {
  }

  /** Storing any canonical rational and reading it back yields its reduced form. */
  lemma StoredReadsBackReduced(r: Rational)
    requires IsNormalized(r) && ReductionOf(r).Reduced?
    ensures AvRationalFromBigRational(r).value.den != 0
    ensures BigRationalFromAvRational(AvRationalFromBigRational(r).value) == Ok(ReductionOf(r).value)
  {
  }

  /** The other direction: a native rational with a positive, coprime pair survives
      reading it as a BigRational and storing it back. */
  lemma NativeRoundTrip(a: AVRational)
    requires a.den > 0 && Gcd(Abs(a.num), a.den) == 1
    ensures BigRationalFromAvRational(a).value == Rational(a.num, a.den)
    ensures AvRationalFromBigRational(BigRationalFromAvRational(a).value) == Ok(a)
  {
    ReductionKeepsFitting(Rational(a.num, a.den));
  }
}
