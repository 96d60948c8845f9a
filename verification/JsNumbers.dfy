/** The 32 bit integer operators the browser plugin decodes lengths with.

    `<<` and `|` convert to signed 32 bit integers, so a length of 2^31 or more
    is negative until the final `>>> 0`. */
module JsNumbers {
  import opened Framing

  const TWO31 := 0x8000_0000

  function ToUint32(x: int): (r: nat) ensures r < U32 { x % U32 }

  function ToInt32(x: int): (r: int)
    ensures -TWO31 <= r < TWO31 && r % U32 == x % U32
  {
    var u := x % U32;
    if u >= TWO31 then u - U32 else u
  }

  function Pow2(n: nat): (r: nat) ensures r >= 1 { if n == 0 then 1 else 2 * Pow2(n - 1) }

  /** Bitwise or, bit by bit from the lowest. */
  function OrBits(a: nat, b: nat): (r: nat) {
    if a == 0 then b
    else if b == 0 then a
    else (if a % 2 == 1 || b % 2 == 1 then 1 else 0) + 2 * OrBits(a / 2, b / 2)
  }

  function ShiftLeft(x: int, n: nat): (r: int) { ToInt32(ToInt32(x) * Pow2(n)) }

  function Or(x: int, y: int): (r: int) { ToInt32(OrBits(ToUint32(x), ToUint32(y))) }

  function ShiftRightUnsigned(x: int, n: nat): (r: int) { ToUint32(x) / Pow2(n) }

  /** The length expression of `Parse`. */
  function FrameLength(b0: byte, b1: byte, b2: byte, b3: byte): (r: int) {
    ShiftRightUnsigned(Or(Or(Or(ShiftLeft(b0, 24), ShiftLeft(b1, 16)), ShiftLeft(b2, 8)), b3), 0)
  }

  /** The four length bytes `MirrorWT_Send` writes. */
  function LengthBytes(n: nat): (r: seq<byte>) {
    [ShiftRightUnsigned(n, 24) % 256, ShiftRightUnsigned(n, 16) % 256, ShiftRightUnsigned(n, 8) % 256, n % 256]
  }

  lemma OrBitsBelow(a: nat, b: nat, n: nat)
    requires a < Pow2(n) && b < Pow2(n)
    ensures OrBits(a, b) < Pow2(n)
  {
    if a != 0 && b != 0 { OrBitsBelow(a / 2, b / 2, n - 1); }
  }

  /** Or of bit fields that do not overlap is addition. */
  lemma {:induction false} OrBitsDisjoint(high: nat, low: nat, k: nat)
    requires low < Pow2(k)
    ensures OrBits(high * Pow2(k), low) == high * Pow2(k) + low
  {
    if k > 0 {
      assert high * Pow2(k) == 2 * (high * Pow2(k - 1));
      OrBitsDisjoint(high, low / 2, k - 1);
    }
  }

  lemma PowersOfTwo()
    ensures Pow2(0) == 1 && Pow2(8) == 0x100 && Pow2(16) == 0x1_0000 && Pow2(24) == 0x100_0000 && Pow2(32) == U32
  {
    assert Pow2(4) == 16;
    assert Pow2(8) == 256;
    assert Pow2(12) == 0x1000;
    assert Pow2(16) == 0x1_0000;
    assert Pow2(20) == 0x10_0000;
    assert Pow2(24) == 0x100_0000;
    assert Pow2(28) == 0x1000_0000;
  }

  lemma OrOfDisjoint(acc: int, a: nat, low: nat)
    requires a == ToUint32(acc) && low < U32 && OrBits(a, low) == a + low
    ensures ToUint32(Or(acc, low)) == a + low
  {
    PowersOfTwo();
    OrBitsBelow(a, low, 32);
    assert ToUint32(low) == low;
  }

  /** One `|` of `Parse`: the accumulated high bytes (possibly negative by now)
      gain the byte field below them. */
  lemma OrField(acc: int, a: nat, high: nat, low: nat, k: nat)
    requires low < Pow2(k) && a == high * Pow2(k) && low < U32
    requires ToUint32(acc) == a
    ensures ToUint32(Or(acc, low)) == a + low
  {
    OrBitsDisjoint(high, low, k);
    OrOfDisjoint(acc, a, low);
  }

  lemma ShiftedField(b: byte, n: nat)
    requires n in {8, 16, 24}
    ensures ToUint32(ShiftLeft(b, n)) == b * Pow2(n)
    ensures n < 24 ==> ShiftLeft(b, n) == b * Pow2(n) < TWO31
  {
    PowersOfTwo();
  }

  /** The signed shifts and the final `>>> 0` compute the big endian length. */
  lemma FrameLengthIsBigEndian(b0: byte, b1: byte, b2: byte, b3: byte)
    ensures FrameLength(b0, b1, b2, b3) == FromBigEndian(b0, b1, b2, b3)
  {
    PowersOfTwo();
    var f0, f1, f2 := ShiftLeft(b0, 24), ShiftLeft(b1, 16), ShiftLeft(b2, 8);
    ShiftedField(b0, 24);
    ShiftedField(b1, 16);
    ShiftedField(b2, 8);
    var a1 := b0 * 0x100_0000;
    var a2 := a1 + b1 * 0x1_0000;
    OrField(f0, a1, b0, f1, 24);
    OrField(Or(f0, f1), a2, b0 * 0x100 + b1, f2, 16);
    OrField(Or(Or(f0, f1), f2), a2 + b2 * 0x100, b0 * 0x1_0000 + b1 * 0x100 + b2, b3, 8);
  }

  /** Both sides write the same length bytes. */
  lemma LengthBytesAreBigEndian(n: nat)
    requires n < U32
    ensures LengthBytes(n) == BigEndian(n)
  {
    PowersOfTwo();
  }
}
