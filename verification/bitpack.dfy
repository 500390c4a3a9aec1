/** The fixed-size bit sets of the index and their MSB-first packing into bytes. */
module BitPack {
  import opened Bytes

  /** The set of the indices whose bit is one. */
  type Bitmap = set<int>

  predicate Within(bits: Bitmap, n: nat)
  {
    forall k :: k in bits ==> 0 <= k < n
  }

  /** 1 << (7 - j) */
  function Weight(j: nat): (w: nat)
    requires j < 8
    ensures w > 0
  {
    [128, 64, 32, 16, 8, 4, 2, 1][j]
  }

  /** (b >> (7 - j)) & 1 */
  predicate BitSet(b: byte, j: nat)
    requires j < 8
  {
    (b as int / Weight(j)) % 2 == 1
  }

  function Bit(bits: Bitmap, k: int): (p: int)
    ensures 0 <= p <= 1
  {
    if k in bits then 1 else 0
  }

  /** The value of the first j of the eight bits, with the j-th as its lowest binary digit. */
  function Prefix(bits: Bitmap, base: int, j: nat): (v: nat)
    requires j <= 8
  {
    if j == 0 then 0 else 2 * Prefix(bits, base, j - 1) + Bit(bits, base + j - 1)
  }

  /** The bits of positions base .. base + upto - 1, each shifted to its place. */
  function PartialByte(bits: Bitmap, base: int, upto: nat): int
    requires upto <= 8
  {
    if upto == 0 then 0
    else PartialByte(bits, base, upto - 1) + Bit(bits, base + upto - 1) * Weight(upto - 1)
  }

  function Pow2(k: nat): (p: nat)
    ensures p > 0
  {
    if k == 0 then 1 else 2 * Pow2(k - 1)
  }

  lemma {:induction false} WeightIsPow2(j: nat)
    requires j < 8
    ensures Weight(j) == Pow2(7 - j)
  {
    assert Pow2(0) == 1 && Pow2(1) == 2 && Pow2(2) == 4 && Pow2(3) == 8;
    assert Pow2(4) == 16 && Pow2(5) == 32 && Pow2(6) == 64 && Pow2(7) == 128;
  }

  lemma {:induction false} PartialIsPrefix(bits: Bitmap, base: int, j: nat)
    requires j <= 8
    ensures PartialByte(bits, base, j) == Prefix(bits, base, j) * Pow2(8 - j)
  {
    if j > 0 {
      PartialIsPrefix(bits, base, j - 1);
      WeightIsPow2(j - 1);
      ShiftIn(Prefix(bits, base, j - 1), Bit(bits, base + j - 1), Pow2(8 - j));
    }
  }

  lemma ShiftIn(v: int, b: int, p: int)
    ensures v * (2 * p) + b * p == (2 * v + b) * p
  {
  }

  lemma {:induction false} PrefixDrop(bits: Bitmap, base: int, j: nat)
    requires j <= 8
    ensures Prefix(bits, base, 8) / Pow2(8 - j) == Prefix(bits, base, j)
    ensures Prefix(bits, base, j) < Pow2(j)
    decreases 8 - j
  {
    PrefixBound(bits, base, j);
    if j < 8 {
      PrefixDrop(bits, base, j + 1);
      DivTwice(Prefix(bits, base, 8), Pow2(8 - (j + 1)));
    }
  }

  lemma {:induction false} PrefixBound(bits: Bitmap, base: int, j: nat)
    requires j <= 8
    ensures Prefix(bits, base, j) < Pow2(j)
  {
    if j > 0 {
      PrefixBound(bits, base, j - 1);
    }
  }

  lemma DivTwice(v: nat, d: nat)
    requires d > 0
    ensures v / (2 * d) == (v / d) / 2
  {
    var q, b, r := (v / d) / 2, (v / d) % 2, v % d;
    assert v == d * (2 * q + b) + r;
    assert d * (2 * q + b) == (2 * d) * q + d * b;
    DivIs(v, 2 * d, q, d * b + r);
  }

  lemma DivIs(v: nat, d: nat, q: nat, r: nat)
    requires d > 0 && r < d && v == d * q + r
    ensures v / d == q
  {
    var e := q - v / d;
    assert d * e == v % d - r;
    assert -(d as int) < d * e < d;
  }

  lemma PartialByteBits(bits: Bitmap, base: int)
    ensures 0 <= PartialByte(bits, base, 8) < 256
    ensures forall j :: 0 <= j < 8 ==> ((PartialByte(bits, base, 8) / Weight(j)) % 2 == 1 <==> base + j in bits)
  {
    PartialIsPrefix(bits, base, 8);
    PrefixBound(bits, base, 8);
    assert Pow2(0) == 1 && Pow2(8) == 256;
    forall j | 0 <= j < 8
      ensures (PartialByte(bits, base, 8) / Weight(j)) % 2 == 1 <==> base + j in bits
    {
      WeightIsPow2(j);
      PrefixDrop(bits, base, j + 1);
    }
  }

  /** The byte that holds bits base .. base + 7. */
  function PackedByte(bits: Bitmap, base: int): byte
  {
    PartialByteBits(bits, base);
    PartialByte(bits, base, 8) as byte
  }

  function Pack(bits: Bitmap, n: nat): (a: Text)
    ensures |a| == n / 8
  {
    seq(n / 8, i requires 0 <= i < n / 8 => PackedByte(bits, i * 8))
  }

  function Unpack(a: Text): (bits: Bitmap)
    ensures Within(bits, 8 * |a|)
  {
    set k | 0 <= k < 8 * |a| && BitSet(a[k / 8], k % 8)
  }

  /** Packing loses nothing when the size is a whole number of bytes. */
  lemma UnpackPack(bits: Bitmap, n: nat)
    requires n % 8 == 0 && Within(bits, n)
    ensures Unpack(Pack(bits, n)) == bits
  {
    forall k | 0 <= k < n
      ensures k in Unpack(Pack(bits, n)) <==> k in bits
    {
      PartialByteBits(bits, (k / 8) * 8);
      assert (k / 8) * 8 + k % 8 == k;
      assert Pack(bits, n)[k / 8] == PackedByte(bits, (k / 8) * 8);
    }
  }

  /** uint8ArrayToBitset */
  method Uint8ArrayToBitset(a: Text, n: nat) returns (bits: Bitmap)
    requires |a| == n / 8
    ensures bits == Unpack(a)
  {
    bits := {};
    for i := 0 to n / 8
      invariant bits == set k | 0 <= k < 8 * i && BitSet(a[k / 8], k % 8)
    {
      for j := 0 to 8
        invariant bits == set k | 0 <= k < 8 * i + j && BitSet(a[k / 8], k % 8)
      {
        assert (i * 8 + j) / 8 == i && (i * 8 + j) % 8 == j;
        if (a[i] as int / Weight(j)) % 2 == 1 {
          bits := bits + {i * 8 + j};
        }
      }
    }
  }

  /** bitsetToUint8Array */
  method BitsetToUint8Array(bits: Bitmap, n: nat) returns (a: Text)
    ensures a == Pack(bits, n)
  {
    a := [];
    for i := 0 to n / 8
      invariant |a| == i
      invariant forall m :: 0 <= m < i ==> a[m] == PackedByte(bits, m * 8)
    {
      var v: int := 0;
      for j := 0 to 8
        invariant v == PartialByte(bits, i * 8, j)
      {
        v := v + Bit(bits, i * 8 + j) * Weight(j);
      }
      PartialByteBits(bits, i * 8);
      a := a + [v as byte];
    }
  }
}
