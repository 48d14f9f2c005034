/** The optional value used for C's nullable pointers. */
module Wrappers {
  datatype Option<+T> = None | Some(value: T)
}

/**
 * C integer types of the Arduino targets, as bounded mathematical integers,
 * and the two C arithmetic rules the screens rely on: division rounds toward
 * zero, and storing into an unsigned 16-bit field keeps the value modulo 2^16.
 */
module CInts {
  type u8 = x: int | 0 <= x < 0x100
  type u16 = x: int | 0 <= x < 0x1_0000
  type u32 = x: int | 0 <= x < 0x1_0000_0000
  type i16 = x: int | -0x8000 <= x < 0x8000

  function Abs(x: int): nat {
    if x < 0 then -x else x
  }

  function Min(a: int, b: int): int {
    if a < b then a else b
  }

  function Max(a: int, b: int): int {
    if a < b then b else a
  }

  /** C's `/` on int: the quotient is rounded toward zero, so the remainder
      is smaller than the divisor and carries the sign of the dividend. */
  function TruncDiv(a: int, b: int): (q: int)
    requires b != 0
    ensures Abs(a - q * b) < Abs(b)
    ensures a >= 0 ==> a - q * b >= 0
    ensures a <= 0 ==> a - q * b <= 0
  {
    var n, d := Abs(a), Abs(b);
    var m := n / d;
    EuclidRemainder(n, d);
    if (a >= 0) == (b > 0) then
      assert m * b == (if a >= 0 then m * d else -(m * d)) by { NegMul(m, d); }
      m
    else
      assert -m * b == (if a >= 0 then m * d else -(m * d)) by { NegMul(m, d); }
      -m
  }

  lemma EuclidRemainder(n: nat, d: nat)
    requires d > 0
    ensures 0 <= n - (n / d) * d < d
  {
  }

  lemma NegMul(m: int, d: int)
    ensures -m * -d == m * d && -m * d == -(m * d) && m * -d == -(m * d)
  {
  }

  lemma SmallProductFactor(x: nat, y: nat)
    requires y > 0 && x * y < y
    ensures x == 0
  {
  }

  /** Dividing an exact multiple leaves no remainder to round. */
  lemma TruncDivExact(k: int, d: int)
    requires d != 0
    ensures TruncDiv(k * d, d) == k
  {
    var q := TruncDiv(k * d, d);
    var e := k - q;
    assert Abs(e) * Abs(d) < Abs(d) by {
      assert k * d - q * d == e * d;
      assert Abs(e * d) == Abs(e) * Abs(d) by { NegMul(e, d); }
    }
    SmallProductFactor(Abs(e), Abs(d));
  }

  /** The value an int keeps when the C code stores it into a uint16_t field. */
  function WrapU16(x: int): (r: u16)
    ensures (x - r) % 0x1_0000 == 0
    ensures 0 <= x < 0x1_0000 ==> r == x
  {
    x % 0x1_0000
  }
}
