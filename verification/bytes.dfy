/** Bytes, the JVM's 32- and 16-bit two's-complement integers, and the little-endian
    encoding that `ByteBuffer.order(ByteOrder.LITTLE_ENDIAN)` applies to them. */
module LittleEndian {

  type byte = b: int | 0 <= b < 256

  const Two16: int := 0x1_0000
  const Two31: int := 0x8000_0000
  const Two32: int := 0x1_0000_0000

  /** Kotlin Int. */
  type Int32 = x: int | -Two31 <= x < Two31

  /** Kotlin Short. */
  type Int16 = x: int | -0x8000 <= x < 0x8000

  /** The Int that JVM arithmetic produces for the mathematical value `x`: wrap-around modulo 2^32. */
  function Wrap32(x: int): (r: Int32)
    ensures (r - x) % Two32 == 0
  {
    var u := x % Two32;
    if u < Two31 then u else u - Two32
  }

  lemma Wrap32Identity(x: int)
    requires -Two31 <= x < Two31
    ensures Wrap32(x) == x
  {
  }

  /** 256^n */
  function Pow256(n: nat): (p: nat)
    ensures p >= 1
  {
    if n == 0 then 1 else 256 * Pow256(n - 1)
  }

  /** The `n` low-order bytes of `u`, least significant first. */
  function ToLE(u: nat, n: nat): (bs: seq<byte>)
    ensures |bs| == n
  {
    if n == 0 then [] else [u % 256] + ToLE(u / 256, n - 1)
  }

  /** The unsigned value of a little-endian byte string. */
  function FromLE(bs: seq<byte>): nat {
    if |bs| == 0 then 0 else bs[0] + 256 * FromLE(bs[1..])
  }

  lemma {:induction false} FromToLE(u: nat, n: nat)
    requires u < Pow256(n)
    ensures FromLE(ToLE(u, n)) == u
  {
    if n > 0 {
      var bs := ToLE(u, n);
      assert bs[1..] == ToLE(u / 256, n - 1);
      FromToLE(u / 256, n - 1);
    }
  }

  lemma {:induction false} FromLEBound(bs: seq<byte>)
    ensures FromLE(bs) < Pow256(|bs|)
  {
    if |bs| > 0 {
      FromLEBound(bs[1..]);
    }
  }

  /** ByteBuffer.putInt in little-endian order: the two's-complement bytes of `v`. */
  function PutInt(v: Int32): (bs: seq<byte>)
    ensures |bs| == 4
  {
    ToLE(v % Two32, 4)
  }

  /** ByteBuffer.putShort in little-endian order. */
  function PutShort(v: Int16): (bs: seq<byte>)
    ensures |bs| == 2
  {
    ToLE(v % Two16, 2)
  }

  /** A reader of the format sees the unsigned value of a 32-bit field: `v` modulo 2^32. */
  lemma PutIntUnsigned(v: Int32)
    ensures FromLE(PutInt(v)) == v % Two32
    ensures 0 <= v ==> FromLE(PutInt(v)) == v
  {
    assert Pow256(4) == Two32;
    FromToLE(v % Two32, 4);
  }

  lemma PutShortUnsigned(v: Int16)
    ensures FromLE(PutShort(v)) == v % Two16
    ensures 0 <= v ==> FromLE(PutShort(v)) == v
  {
    assert Pow256(2) == Two16;
    FromToLE(v % Two16, 2);
  }

  /** Reading the field back as a signed Int (ByteBuffer.getInt) recovers exactly the value written. */
  function GetInt(bs: seq<byte>): Int32
    requires |bs| == 4
  {
    FromLEBound(bs);
    assert Pow256(4) == Two32;
    var u := FromLE(bs);
    if u < Two31 then u else u - Two32
  }

  lemma PutGetInt(v: Int32)
    ensures GetInt(PutInt(v)) == v
  {
    PutIntUnsigned(v);
  }
}
