/** Bytes, their XOR, and slices with clamped bounds. */
module Bytes {

  type byte = x: int | 0 <= x < 256

  type Buffer = seq<byte>

  function XorBits(a: nat, b: nat, bits: nat): nat {
    if bits == 0 then 0 else (a + b) % 2 + 2 * XorBits(a / 2, b / 2, bits - 1)
  }

  function Power2(n: nat): nat {
    if n == 0 then 1 else 2 * Power2(n - 1)
  }

  lemma {:induction false} XorBound(a: nat, b: nat, bits: nat)
    ensures XorBits(a, b, bits) < Power2(bits)
  {
    if bits == 0 {
    } else {
      XorBound(a / 2, b / 2, bits - 1);
    }
  }

  function Xor(a: byte, b: byte): byte {
    XorBound(a, b, 8);
    assert Power2(8) == 2 * (2 * (2 * (2 * Power2(4)))) == 256;
    XorBits(a, b, 8)
  }

  lemma Halves(x: nat, y: nat, b: nat)
    requires x < 2
    ensures (x + 2 * y) / 2 == y && (x + 2 * y + b) % 2 == (x + b) % 2
  {
    assert x + 2 * y + b == (x + b) + 2 * y;
  }

  lemma Parity(a: nat, b: nat)
    ensures ((a + b) % 2 + b) % 2 == a % 2
  {
  }

  lemma {:induction false} XorTwiceBits(a: nat, b: nat, bits: nat)
    requires a < Power2(bits)
    ensures XorBits(XorBits(a, b, bits), b, bits) == a
  {
    if bits == 0 {
    } else {
      XorTwiceBits(a / 2, b / 2, bits - 1);
      Halves((a + b) % 2, XorBits(a / 2, b / 2, bits - 1), b);
      Parity(a, b);
    }
  }

  lemma {:induction false} XorSwapBits(a: nat, b: nat, bits: nat)
    ensures XorBits(a, b, bits) == XorBits(b, a, bits)
  {
    if bits == 0 {
    } else {
      XorSwapBits(a / 2, b / 2, bits - 1);
    }
  }

  /** Bit `k` of a number. */
  function Bit(a: nat, k: nat): nat {
    if k == 0 then a % 2 else Bit(a / 2, k - 1)
  }

  lemma {:induction false} XorBit(a: nat, b: nat, bits: nat, k: nat)
    requires k < bits
    ensures Bit(XorBits(a, b, bits), k) == (if Bit(a, k) == Bit(b, k) then 0 else 1)
  {
    Halves((a + b) % 2, XorBits(a / 2, b / 2, bits - 1), 0);
    if k == 0 {
    } else {
      XorBit(a / 2, b / 2, bits - 1, k - 1);
    }
  }

  /** Each bit of the XOR is set exactly where the two bytes' bits differ. */
  lemma XorBitwise(a: byte, b: byte, k: nat)
    requires k < 8
    ensures Bit(Xor(a, b), k) == if Bit(a, k) == Bit(b, k) then 0 else 1
  {
    XorBit(a, b, 8, k);
  }

  /** XOR with the same byte twice gives the byte back; so it never merges two bytes, on either side. */
  lemma XorTwice(a: byte, b: byte)
    ensures Xor(Xor(a, b), b) == a
    ensures Xor(a, b) == Xor(b, a)
  {
    assert Power2(8) == 2 * (2 * (2 * (2 * Power2(4)))) == 256;
    XorTwiceBits(a, b, 8);
    XorSwapBits(a, b, 8);
  }

  /** s[from:to] of a byte string, as Python slices it. */
  function Slice(s: Buffer, from: nat, to: nat): Buffer {
    if from >= |s| || to <= from then [] else if to >= |s| then s[from..] else s[from..to]
  }
}
