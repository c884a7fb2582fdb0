/** Fixed-width unsigned integers and their little-endian byte encoding. */
module Binary {

  newtype byte = x: int | 0 <= x < 0x100
  newtype uint16 = x: int | 0 <= x < 0x1_0000
  newtype uint32 = x: int | 0 <= x < 0x1_0000_0000

  /** 256 to the power n: the number of values n bytes can hold. */
  function Pow256(n: nat): (p: nat)
    ensures p >= 1
  {
    if n == 0 then 1 else 256 * Pow256(n - 1)
  }

  /** The n low-order bytes of v, least significant first. */
  function LittleEndian(v: nat, n: nat): (bs: seq<byte>)
    ensures |bs| == n
  {
    if n == 0 then [] else [(v % 256) as byte] + LittleEndian(v / 256, n - 1)
  }

  /** The number a little-endian byte string denotes. */
  function FromLittleEndian(bs: seq<byte>): (v: nat)
    ensures v < Pow256(|bs|)
  {
    if |bs| == 0 then 0
    else
      var rest := FromLittleEndian(bs[1..]);
      assert bs[0] as nat + 256 * rest <= 255 + 256 * (Pow256(|bs| - 1) - 1);
      bs[0] as nat + 256 * rest
  }

  /** Encoding a value that fits in n bytes and decoding it gives the value back. */
  lemma {:induction false} LittleEndianRoundTrip(v: nat, n: nat)
    requires v < Pow256(n)
    ensures FromLittleEndian(LittleEndian(v, n)) == v
  {
    if n > 0 {
      var q := v / 256;
      assert v == v % 256 + 256 * q;
      assert q < Pow256(n - 1);
      LittleEndianRoundTrip(q, n - 1);
      assert LittleEndian(v, n)[1..] == LittleEndian(q, n - 1);
    }
  }

  /** A plain scalar field, as laid out in a binary structure. */
  datatype Scalar = U8(b: byte) | U16(h: uint16) | U32(w: uint32)

  /** The number of bytes the field occupies. */
  function Width(s: Scalar): nat
  {
    match s
    case U8(_) => 1
    case U16(_) => 2
    case U32(_) => 4
  }

  /** The unsigned number the field holds. */
  function Value(s: Scalar): nat
  {
    match s
    case U8(b) => b as nat
    case U16(h) => h as nat
    case U32(w) => w as nat
  }

  /** The field written little-endian: exactly Width bytes that decode to its value. */
  function EncodeLE(s: Scalar): (bs: seq<byte>)
    ensures |bs| == Width(s)
    ensures FromLittleEndian(bs) == Value(s)
  {
    assert Pow256(1) == 256 && Pow256(2) == 0x1_0000 && Pow256(4) == 0x1_0000_0000;
    LittleEndianRoundTrip(Value(s), Width(s));
    LittleEndian(Value(s), Width(s))
  }
}
