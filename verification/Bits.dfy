/** A byte as its eight bits, most significant first, and its value as a number. */
module Bits {

  type Octet = bits: seq<bool> | |bits| == 8 witness seq(8, _ => false)

  datatype Byte = Byte(bits: Octet)

  const ZERO := Byte([false, false, false, false, false, false, false, false])
  const ONE := Byte([false, false, false, false, false, false, false, true])

  /** `x & (0x80 >> k) != 0` */
  predicate Bit(x: Byte, k: nat)
    requires k < 8
  {
    x.bits[k]
  }

  /** `x ^ y` */
  function Xor(x: Byte, y: Byte): Byte {
    Byte(seq(8, k requires 0 <= k < 8 => x.bits[k] != y.bits[k]))
  }

  /** `(x << 1) & 0xff` */
  function ShiftLeft(x: Byte): Byte {
    Byte(x.bits[1..] + [false])
  }

  /** The shift loop: it counts the leading bits that are clear. */
  method LeadingZeros(y: Byte) returns (n: nat)
    requires y != ZERO
    ensures n < 8 && Bit(y, n)
    ensures forall k: nat :: k < n ==> !Bit(y, k)
  {
    var x := y;
    n := 0;
    while !x.bits[0]
      invariant n < 8
      invariant x.bits[..8 - n] == y.bits[n..]
      invariant forall k: nat :: k < n ==> !Bit(y, k)
      decreases 8 - n
    {
      assert x.bits[..8 - n][0] == y.bits[n];
      if n == 7 {
        assert forall k: nat :: k < 8 ==> !Bit(y, k);
        AllClear(y);
      }
      assert ShiftLeft(x).bits[..8 - (n + 1)] == x.bits[..8 - n][1..];
      x := ShiftLeft(x);
      n := n + 1;
    }
    assert x.bits[..8 - n][0] == y.bits[n];
  }

  lemma AllClear(y: Byte)
    requires forall k: nat :: k < 8 ==> !Bit(y, k)
    ensures y == ZERO
  {
    assert forall k: nat :: k < 8 ==> y.bits[k] == Bit(y, k);
    assert y.bits == ZERO.bits;
  }

  function Pow2(k: nat): nat {
    if k == 0 then 1 else 2 * Pow2(k - 1)
  }

  function Value(bits: seq<bool>): (n: nat)
    ensures n < Pow2(|bits|)
  {
    if bits == [] then 0
    else 2 * Value(bits[..|bits| - 1]) + if bits[|bits| - 1] then 1 else 0
  }

  function Digits(n: nat, width: nat): (bits: seq<bool>)
    ensures |bits| == width
  {
    if width == 0 then [] else Digits(n / 2, width - 1) + [n % 2 == 1]
  }

  lemma {:induction false} ValueDigits(n: nat, width: nat)
    requires n < Pow2(width)
    ensures Value(Digits(n, width)) == n
  {
    if width > 0 {
      ValueDigits(n / 2, width - 1);
      assert Digits(n, width)[..width - 1] == Digits(n / 2, width - 1);
    }
  }

  lemma {:induction false} DigitsValue(bits: seq<bool>)
    ensures Digits(Value(bits), |bits|) == bits
  {
    if bits != [] {
      DigitsValue(bits[..|bits| - 1]);
      assert bits == bits[..|bits| - 1] + [bits[|bits| - 1]];
    }
  }

  lemma ByteRange()
    ensures Pow2(8) == 256
  {
    assert Pow2(4) == 16;
  }

  function ValueOf(x: Byte): (n: nat)
    ensures n < 256
  {
    ByteRange();
    Value(x.bits)
  }

  function ByteOf(n: nat): Byte
    requires n < 256
  {
    Byte(Digits(n, 8))
  }

  lemma ByteValue(n: nat)
    requires n < 256
    ensures ValueOf(ByteOf(n)) == n
  {
    ByteRange();
    ValueDigits(n, 8);
  }

  lemma CountRange()
    ensures Pow2(16) == 0x1_0000
  {
    ByteRange();
    assert Pow2(12) == 16 * Pow2(8);
  }

  /** A little-endian pair of bytes, `lo | (hi << 8)`. */
  function CountOf(lo: Byte, hi: Byte): (n: nat)
    ensures n < 0x1_0000
  {
    CountRange();
    Value(hi.bits + lo.bits)
  }

  function CountBytes(n: nat): (b: seq<Byte>)
    requires n < 0x1_0000
    ensures |b| == 2
  {
    var bits := Digits(n, 16);
    [Byte(bits[8..]), Byte(bits[..8])]
  }

  lemma CountSplits(n: nat)
    requires n < 0x1_0000
    ensures CountOf(CountBytes(n)[0], CountBytes(n)[1]) == n
  {
    CountRange();
    ValueDigits(n, 16);
    var bits := Digits(n, 16);
    assert bits[..8] + bits[8..] == bits;
  }

  lemma CountJoins(lo: Byte, hi: Byte)
    ensures CountBytes(CountOf(lo, hi)) == [lo, hi]
  {
    DigitsValue(hi.bits + lo.bits);
    assert (hi.bits + lo.bits)[..8] == hi.bits && (hi.bits + lo.bits)[8..] == lo.bits;
  }
}
