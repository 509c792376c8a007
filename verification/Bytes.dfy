/** Little-endian encoding of unsigned integers into bytes. */
module Bytes {
  type Byte = x: nat | x < 256

  function Pow256(width: nat): nat {
    if width == 0 then 1 else 256 * Pow256(width - 1)
  }

  function LE(width: nat, value: nat): (bytes: seq<Byte>)
    ensures |bytes| == width
  {
    if width == 0 then [] else [value % 256] + LE(width - 1, value / 256)
  }

  function FromLE(bytes: seq<Byte>): (value: nat)
    ensures value < Pow256(|bytes|)
  {
    if bytes == [] then 0 else bytes[0] + 256 * FromLE(bytes[1..])
  }

  /** Decoding inverts encoding for every value that fits the width. */
  lemma {:induction false} LERoundTrip(width: nat, value: nat)
    requires value < Pow256(width)
    ensures FromLE(LE(width, value)) == value
  {
    if width > 0 {
      LERoundTrip(width - 1, value / 256);
      var bytes := LE(width, value);
      assert bytes[1..] == LE(width - 1, value / 256);
    }
  }

  /** Encoding inverts decoding: a width has one encoding of each value. */
  lemma {:induction false} LEUnique(bytes: seq<Byte>)
    ensures LE(|bytes|, FromLE(bytes)) == bytes
  {
    if bytes != [] {
      LEUnique(bytes[1..]);
      var value := FromLE(bytes);
      assert value % 256 == bytes[0] && value / 256 == FromLE(bytes[1..]);
    }
  }

  lemma Widths()
    ensures Pow256(2) == 0x1_0000 && Pow256(4) == 0x1_0000_0000 && Pow256(8) == 0x1_0000_0000_0000_0000
  {
    assert Pow256(4) == 256 * 256 * Pow256(2);
    assert Pow256(8) == 256 * 256 * 256 * 256 * Pow256(4);
  }
}
