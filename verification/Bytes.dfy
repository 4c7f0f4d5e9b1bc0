// Little-endian integers as the library's streams store them: the in-memory bytes of a POD
// value, written and read back unchanged.
module Bytes {

  type Byte = x: int | 0 <= x < 256

  const TWO16: int := 0x1_0000
  const TWO31: int := 0x8000_0000
  const TWO32: int := 0x1_0000_0000
  const TWO63: int := 0x8000_0000_0000_0000
  const TWO64: int := 0x1_0000_0000_0000_0000

  predicate IsInt(i: int) {
    -TWO31 <= i < TWO31
  }

  /** The conversion of a size to the signed 32-bit type that the streams store. */
  function CastToInt(n: int): (i: int)
    ensures IsInt(i)
    ensures IsInt(n) ==> i == n
  {
    (n + TWO31) % TWO32 - TWO31
  }

  /** The low 32 bits, read as a signed number. */
  lemma CastMeans(n: nat)
    ensures var low := n % 0x1_0000_0000;
            CastToInt(n) == if low < 0x8000_0000 then low else low - 0x1_0000_0000
  {
    var q, low := n / TWO32, n % TWO32;
    assert n + TWO31 == q * TWO32 + (low + TWO31);
  }

  /** The conversion of a signed 32-bit header to a 64-bit size. */
  function CastToSize(i: int): (n: nat)
    requires IsInt(i)
  {
    if i < 0 then i + TWO64 else i
  }

  function U16(n: int): (b: seq<Byte>)
    requires 0 <= n < TWO16
    ensures |b| == 2
  {
    [n % 256, n / 256]
  }

  function FromU16(b: seq<Byte>): (n: nat)
    requires |b| == 2
    ensures n < TWO16
  {
    b[0] as int + 256 * (b[1] as int)
  }

  lemma U16RoundTrip(n: int)
    requires 0 <= n < TWO16
    ensures FromU16(U16(n)) == n
  {
  }

  function U32(n: int): (b: seq<Byte>)
    requires 0 <= n < TWO32
    ensures |b| == 4
  {
    U16(n % TWO16) + U16(n / TWO16)
  }

  function FromU32(b: seq<Byte>): (n: nat)
    requires |b| == 4
    ensures n < TWO32
  {
    FromU16(b[..2]) + TWO16 * FromU16(b[2..])
  }

  lemma U32RoundTrip(n: int)
    requires 0 <= n < TWO32
    ensures FromU32(U32(n)) == n
  {
    assert U32(n)[..2] == U16(n % TWO16) && U32(n)[2..] == U16(n / TWO16);
    U16RoundTrip(n % TWO16);
    U16RoundTrip(n / TWO16);
  }

  function U64(n: int): (b: seq<Byte>)
    requires 0 <= n < TWO64
    ensures |b| == 8
  {
    U32(n % TWO32) + U32(n / TWO32)
  }

  function FromU64(b: seq<Byte>): (n: nat)
    requires |b| == 8
    ensures n < TWO64
  {
    FromU32(b[..4]) + TWO32 * FromU32(b[4..])
  }

  lemma U64RoundTrip(n: int)
    requires 0 <= n < TWO64
    ensures FromU64(U64(n)) == n
  {
    assert U64(n)[..4] == U32(n % TWO32) && U64(n)[4..] == U32(n / TWO32);
    U32RoundTrip(n % TWO32);
    U32RoundTrip(n / TWO32);
  }

  function Int(i: int): (b: seq<Byte>)
    requires IsInt(i)
    ensures |b| == 4
  {
    U32(if i < 0 then i + TWO32 else i)
  }

  function FromInt(b: seq<Byte>): (i: int)
    requires |b| == 4
    ensures IsInt(i)
  {
    var n := FromU32(b);
    if n >= TWO31 then n - TWO32 else n
  }

  lemma IntRoundTrip(i: int)
    requires IsInt(i)
    ensures FromInt(Int(i)) == i
  {
    U32RoundTrip(if i < 0 then i + TWO32 else i);
  }

  lemma SmallInts()
    ensures forall i :: 0 <= i < 0x1_0000 ==> Int(i) == [i % 256, i / 256, 0, 0]
    ensures Int(-1) == [255, 255, 255, 255]
  {
  }
}
