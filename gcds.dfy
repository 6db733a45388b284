/** Euclid's greatest common divisor and the facts about it that normalising a
    rational needs. */
module Gcds {

  function Abs(x: int): nat {
    if x < 0 then -x else x
  }

  function Gcd(a: nat, b: nat): nat
    decreases b
  {
    if b == 0 then a else Gcd(b, a % b)
  }

  /** Multiplying by a positive g keeps the sign and does not shrink the magnitude. */
  lemma MulSign(t: int, g: int)
    requires g > 0
    ensures t >= 1 ==> t * g >= g && t * g >= t
    ensures t <= -1 ==> t * g <= -g
    ensures t == 0 ==> t * g == 0
  {
  }

  /** A multiple of g is divisible by g. */
  lemma MultipleDivisible(k: int, g: int)
    requires g > 0
    ensures (k * g) % g == 0
  {
    var q, r := (k * g) / g, (k * g) % g;
    assert (k - q) * g == r;
    MulSign(k - q, g);
  }

  /** If g divides b and a % b, it divides a. */
  lemma DividesFromRemainder(a: nat, b: nat, g: nat)
    requires g > 0 && b > 0 && b % g == 0 && (a % b) % g == 0
    ensures a % g == 0
  {
    var q, r := a / b, a % b;
    var kb, kr := b / g, r / g;
    assert b == kb * g;
    assert r == kr * g;
    assert a == q * b + r;
    assert a == (q * kb + kr) * g;
    MultipleDivisible(q * kb + kr, g);
  }

  /** If c divides a and b, it divides a % b. */
  lemma DividesRemainder(a: nat, b: nat, c: nat)
    requires c > 0 && b > 0 && a % c == 0 && b % c == 0
    ensures (a % b) % c == 0
  {
    var q, r := a / b, a % b;
    var ka, kb := a / c, b / c;
    assert a == ka * c;
    assert b == kb * c;
    assert r == a - q * b;
    assert r == (ka - q * kb) * c;
    MultipleDivisible(ka - q * kb, c);
  }

  /** Gcd(a, b) is a positive common divisor of a and b. */
  lemma {:induction false} GcdDivides(a: nat, b: nat)
    requires a > 0 || b > 0
    ensures Gcd(a, b) > 0 && a % Gcd(a, b) == 0 && b % Gcd(a, b) == 0
    decreases b
  {
    if b != 0 {
      if a % b == 0 {
        assert Gcd(a, b) == Gcd(b, 0) == b;
      } else {
        GcdDivides(b, a % b);
        DividesFromRemainder(a, b, Gcd(b, a % b));
      }
    }
  }

  /** Every common divisor of a and b divides Gcd(a, b). */
  lemma {:induction false} GcdGreatest(a: nat, b: nat, c: nat)
    requires c > 0 && a % c == 0 && b % c == 0
    ensures Gcd(a, b) % c == 0
    decreases b
  {
    if b != 0 {
      DividesRemainder(a, b, c);
      GcdGreatest(b, a % b, c);
    }
  }

  /** A positive number divisible by m is at least m. */
  lemma DivisibleAtLeast(x: nat, m: nat)
    requires m > 0 && x > 0 && x % m == 0
    ensures x >= m
  {
    var k := x / m;
    assert x == k * m;
    MulSign(k, m);
  }

  /** Dividing x and y > 0 by their gcd shrinks neither above itself and keeps the ratio. */
  lemma DivideByGcdBounds(x: nat, y: nat)
    requires y > 0
    ensures Gcd(x, y) > 0
    ensures 0 <= x / Gcd(x, y) <= x
    ensures 1 <= y / Gcd(x, y) <= y
    ensures (x / Gcd(x, y)) * y == x * (y / Gcd(x, y))
  {
    var g := Gcd(x, y);
    GcdDivides(x, y);
    ExactQuotient(x, g);
    ExactQuotient(y, g);
    FactorBounds(x, y, x / g, y / g, g);
  }

  /** For x = a * g and y = b * g with g > 0 and y > 0: a <= x, 1 <= b <= y, and
      a / b is the ratio x / y. */
  lemma FactorBounds(x: nat, y: nat, a: int, b: int, g: nat)
    requires g > 0 && y > 0 && x == a * g && y == b * g
    ensures 0 <= a <= x && 1 <= b <= y
    ensures a * y == x * b
  {
    MulSign(a, g);
    MulSign(b, g);
    assert a * (b * g) == (a * g) * b;
  }

  /** If x = k * (h * g) then x is divisible by h * g. */
  lemma ScaledMultiple(x: nat, k: nat, h: nat, g: nat)
    requires h > 0 && g > 0 && x == (k * h) * g
    ensures h * g > 0 && x % (h * g) == 0
  {
    assert (k * h) * g == k * (h * g);
    MulSign(h, g);
    MultipleDivisible(k, h * g);
  }

  /** The gcd g of x and y admits no common divisor h * g with h > 1. */
  lemma NoLargerCommonDivisor(x: nat, y: nat, g: nat, h: nat)
    requires y > 0 && h > 0 && g == Gcd(x, y) && h * g > 0
    requires x % (h * g) == 0 && y % (h * g) == 0
    ensures h == 1
  {
    GcdDivides(x, y);
    GcdGreatest(x, y, h * g);
    DivisibleAtLeast(g, h * g);
    MulSign(h - 1, g);
    assert h * g == (h - 1) * g + g;
  }

  /** Exact division: x is (x / g) copies of g. */
  lemma ExactQuotient(x: nat, g: nat)
    requires g > 0 && x % g == 0
    ensures x == (x / g) * g
  {
  }

  /** Dividing x and y > 0 by their gcd leaves coprime parts. */
  lemma DivideByGcdCoprime(x: nat, y: nat)
    requires y > 0
    ensures Gcd(x, y) > 0
    ensures Gcd(x / Gcd(x, y), y / Gcd(x, y)) == 1
  {
    var g := Gcd(x, y);
    DivideByGcdBounds(x, y);
    GcdDivides(x, y);
    var a, b := x / g, y / g;
    ExactQuotient(x, g);
    ExactQuotient(y, g);
    var h := Gcd(a, b);
    GcdDivides(a, b);
    ExactQuotient(a, h);
    ExactQuotient(b, h);
    ScaledMultiple(x, a / h, h, g);
    ScaledMultiple(y, b / h, h, g);
    NoLargerCommonDivisor(x, y, g, h);
  }
}
