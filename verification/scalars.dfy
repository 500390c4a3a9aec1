/** Little-endian 32-bit scalars, as memcpy and struct.pack write them. */
module Scalars {
  import opened Bytes

  const U32_RANGE: int := 0x1_0000_0000
  const I32_MAX: int := 0x7fff_ffff

  predicate IsU32(n: int)
  {
    0 <= n < U32_RANGE
  }

  predicate IsI32(n: int)
  {
    -I32_MAX - 1 <= n <= I32_MAX
  }

  /** The four bytes of a number reduced modulo 2^32; negative numbers in two's complement. */
  function U32(n: int): (s: Text)
    ensures |s| == 4
  {
    var m := n % U32_RANGE;
    [(m % 256) as byte, (m / 256 % 256) as byte, (m / 65536 % 256) as byte, (m / 16777216) as byte]
  }

  function ReadU32(s: Text, off: nat): (n: int)
    requires off + 4 <= |s|
    ensures IsU32(n)
  {
    s[off] as int + 256 * (s[off + 1] as int) + 65536 * (s[off + 2] as int) + 16777216 * (s[off + 3] as int)
  }

  function ReadI32(s: Text, off: nat): (n: int)
    requires off + 4 <= |s|
    ensures IsI32(n)
  {
    var u := ReadU32(s, off);
    if u <= I32_MAX then u else u - U32_RANGE
  }

  lemma DigitsOf(m: int)
    requires IsU32(m)
    ensures m % 256 + 256 * (m / 256 % 256) + 65536 * (m / 65536 % 256) + 16777216 * (m / 16777216) == m
    ensures m / 16777216 < 256
  {
    assert m / 256 / 256 == m / 65536;
    assert m / 65536 / 256 == m / 16777216;
  }

  lemma ReadU32At(a: Text, n: int, b: Text)
    ensures ReadU32(a + U32(n) + b, |a|) == n % U32_RANGE
  {
    var s, u := a + U32(n) + b, U32(n);
    assert s[|a|] == u[0] && s[|a| + 1] == u[1] && s[|a| + 2] == u[2] && s[|a| + 3] == u[3];
    DigitsOf(n % U32_RANGE);
  }

  /** A field written after prefix a and before suffix b reads back as itself. */
  lemma ReadU32Back(a: Text, n: int, b: Text)
    requires IsU32(n)
    ensures ReadU32(a + U32(n) + b, |a|) == n
  {
    ReadU32At(a, n, b);
  }

  lemma ReadI32Back(a: Text, n: int, b: Text)
    requires IsI32(n)
    ensures ReadI32(a + U32(n) + b, |a|) == n
  {
    ReadU32At(a, n, b);
    if n < 0 {
      assert n % U32_RANGE == n + U32_RANGE;
    }
  }

}
