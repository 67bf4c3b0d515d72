/**
 * Bytes and fixed-width integers as the Rust code writes them with the
 * `byteorder` crate: little-endian (`write_u32::<LittleEndian>`, ...) and
 * big-endian (`write_u32::<NetworkEndian>`).
 */
module Bytes {

  type Byte = x: int | 0 <= x < 256

  /** 256 to the power `width`: the number of values a `width`-byte integer holds. */
  function Pow256(width: nat): (p: nat)
    ensures p >= 1
  {
    if width == 0 then 1 else 256 * Pow256(width - 1)
  }

  lemma Pow256Values()
    ensures Pow256(2) == 0x1_0000
    ensures Pow256(4) == 0x1_0000_0000
    ensures Pow256(8) == 0x1_0000_0000_0000_0000
  {
    assert Pow256(2) == 0x1_0000;
    assert Pow256(4) == 0x1_0000_0000;
  }

  /** The `width` bytes of `n`, least significant first. */
  function LE(n: nat, width: nat): (r: seq<Byte>)
    requires n < Pow256(width)
    ensures |r| == width
  {
    if width == 0 then [] else [n % 256] + LE(n / 256, width - 1)
  }

  /** The number whose little-endian bytes are `bs`. */
  function FromLE(bs: seq<Byte>): (n: nat)
    ensures n < Pow256(|bs|)
  {
    if |bs| == 0 then 0 else bs[0] + 256 * FromLE(bs[1..])
  }

  /** Reading back what was written in little-endian order gives the number. */
  lemma {:induction false} LERoundTrip(n: nat, width: nat)
    requires n < Pow256(width)
    ensures FromLE(LE(n, width)) == n
  {
    if width > 0 {
      LERoundTrip(n / 256, width - 1);
      assert LE(n, width)[1..] == LE(n / 256, width - 1);
    }
  }

  /** The `width` bytes of `n`, most significant first. */
  function BE(n: nat, width: nat): (r: seq<Byte>)
    requires n < Pow256(width)
    ensures |r| == width
  {
    if width == 0 then [] else BE(n / 256, width - 1) + [n % 256]
  }

  /** The number whose big-endian bytes are `bs`. */
  function FromBE(bs: seq<Byte>): (n: nat)
    ensures n < Pow256(|bs|)
  {
    if |bs| == 0 then 0 else 256 * FromBE(bs[..|bs| - 1]) + bs[|bs| - 1]
  }

  /** Reading back what was written in big-endian order gives the number. */
  lemma {:induction false} BERoundTrip(n: nat, width: nat)
    requires n < Pow256(width)
    ensures FromBE(BE(n, width)) == n
  {
    if width > 0 {
      BERoundTrip(n / 256, width - 1);
      assert BE(n, width)[..width - 1] == BE(n / 256, width - 1);
    }
  }

  /** Big-endian bytes are the little-endian bytes in reverse. */
  lemma {:induction false} BEIsReversedLE(n: nat, width: nat)
    requires n < Pow256(width)
    ensures forall k :: 0 <= k < width ==> BE(n, width)[k] == LE(n, width)[width - 1 - k]
  {
    if width > 0 {
      BEIsReversedLE(n / 256, width - 1);
      forall k | 0 <= k < width
        ensures BE(n, width)[k] == LE(n, width)[width - 1 - k]
      {
        if k < width - 1 {
          assert BE(n, width)[k] == BE(n / 256, width - 1)[k];
          assert LE(n, width)[width - 1 - k] == LE(n / 256, width - 1)[width - 2 - k];
        }
      }
    }
  }
}
