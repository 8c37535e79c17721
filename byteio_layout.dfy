/**
 * The arithmetic behind the byte codec of the byteio package: how a
 * fixed-width unsigned integer is laid out as big-endian or little-endian
 * bytes, how bytes are assembled back into a value, and the two's-complement
 * reinterpretation used by the signed wrappers.
 */
module ByteLayout {

  /** Go's `byte`. */
  type Byte = b: int | 0 <= b < 0x100

  /** Go's `uint16`, `uint32` and `uint64`. */
  type Uint16 = n: int | 0 <= n < 0x1_0000
  type Uint32 = n: int | 0 <= n < 0x1_0000_0000
  type Uint64 = n: int | 0 <= n < 0x1_0000_0000_0000_0000

  /** Go's `int16`, `int32` and `int64`. */
  type Int16 = i: int | -0x8000 <= i < 0x8000
  type Int32 = i: int | -0x8000_0000 <= i < 0x8000_0000
  type Int64 = i: int | -0x8000_0000_0000_0000 <= i < 0x8000_0000_0000_0000

  datatype Order = BigEndian | LittleEndian

  /** 256 to the power k: the number of distinct k-byte values. */
  function Pow256(k: nat): (p: nat)
    ensures p >= 1
    ensures k > 0 ==> p >= 256
  {
    if k == 0 then 1 else 256 * Pow256(k - 1)
  }

  /** Go's conversion `byte(x)`: keeps the low eight bits. */
  function Truncate(x: int): Byte
  {
    x % 0x100
  }

  /** 2 to the power k. */
  function Pow2(k: nat): (p: nat)
    ensures p >= 1
  {
    if k == 0 then 1 else 2 * Pow2(k - 1)
  }

  /** Go's `n >> bits` on an unsigned value: bits halvings, each dropping the low bit. */
  function Shr(n: nat, bits: nat): nat
  {
    if bits == 0 then n else Shr(n / 2, bits - 1)
  }

  /** The k bytes of n (modulo 256^k), most significant first. */
  function EncodeBE(k: nat, n: nat): (bs: seq<Byte>)
    ensures |bs| == k
  {
    if k == 0 then [] else EncodeBE(k - 1, n / 0x100) + [Truncate(n)]
  }

  /** The k bytes of n (modulo 256^k), least significant first. */
  function EncodeLE(k: nat, n: nat): (bs: seq<Byte>)
    ensures |bs| == k
  {
    if k == 0 then [] else [Truncate(n)] + EncodeLE(k - 1, n / 0x100)
  }

  /** The value of bytes read most significant first. */
  function DecodeBE(bs: seq<Byte>): nat
  {
    if bs == [] then 0 else DecodeBE(bs[..|bs| - 1]) * 0x100 + bs[|bs| - 1]
  }

  /** The value of bytes read least significant first. */
  function DecodeLE(bs: seq<Byte>): nat
  {
    if bs == [] then 0 else bs[0] + 0x100 * DecodeLE(bs[1..])
  }

  function Encode(order: Order, k: nat, n: nat): (bs: seq<Byte>)
    ensures |bs| == k
  {
    match order
    case BigEndian => EncodeBE(k, n)
    case LittleEndian => EncodeLE(k, n)
  }

  function Decode(order: Order, bs: seq<Byte>): nat
  {
    match order
    case BigEndian => DecodeBE(bs)
    case LittleEndian => DecodeLE(bs)
  }

  function Reverse<T>(s: seq<T>): (r: seq<T>)
    ensures |r| == |s|
  {
    if s == [] then [] else Reverse(s[1..]) + [s[0]]
  }

  /** Half of the k-byte range: the first value whose sign bit is set. */
  function Half(k: nat): int
    requires k > 0
  {
    Pow256(k) / 2
  }

  /**
   * Go's conversion from a k-byte unsigned value to the signed type of the
   * same width: the one signed value congruent to n modulo 256^k.
   */
  function ToSigned(k: nat, n: nat): (i: int)
    requires k > 0 && n < Pow256(k)
    ensures -Half(k) <= i < Half(k)
    ensures (n - i) % Pow256(k) == 0
  {
    HalfOfPow(k);
    if n < Half(k) then n else n - Pow256(k)
  }

  /**
   * Go's conversion from a k-byte signed value to the unsigned type of the
   * same width: the one unsigned value congruent to i modulo 256^k.
   */
  function ToUnsigned(k: nat, i: int): (n: nat)
    requires k > 0 && -Half(k) <= i < Half(k)
    ensures n < Pow256(k)
    ensures (n - i) % Pow256(k) == 0
  {
    HalfOfPow(k);
    if i < 0 then i + Pow256(k) else i
  }

  /** Half(k) is exactly half of 256^k, and 256^k divides both 0 and itself. */
  lemma HalfOfPow(k: nat)
    requires k > 0
    ensures Half(k) >= 1 && 2 * Half(k) == Pow256(k)
    ensures 0 % Pow256(k) == 0 && Pow256(k) % Pow256(k) == 0
  {
    assert Pow256(k) == 0x100 * Pow256(k - 1);
  }

  // ---------------------------------------------------------------------
  // Properties of the layout
  // ---------------------------------------------------------------------

  /** Decoded bytes always fit the width they were read from. */
  lemma {:induction false} DecodeBEBound(bs: seq<Byte>)
    ensures DecodeBE(bs) < Pow256(|bs|)
  {
    if bs != [] {
      DecodeBEBound(bs[..|bs| - 1]);
    }
  }

  lemma {:induction false} DecodeLEBound(bs: seq<Byte>)
    ensures DecodeLE(bs) < Pow256(|bs|)
  {
    if bs != [] {
      DecodeLEBound(bs[1..]);
    }
  }

  lemma DecodeBound(order: Order, bs: seq<Byte>)
    ensures Decode(order, bs) < Pow256(|bs|)
  {
    DecodeBEBound(bs);
    DecodeLEBound(bs);
  }

  /** Reading back big-endian bytes gives the value that was written. */
  lemma {:induction false} DecodeEncodeBE(k: nat, n: nat)
    requires n < Pow256(k)
    ensures DecodeBE(EncodeBE(k, n)) == n
  {
    if k > 0 {
      var bs := EncodeBE(k, n);
      assert bs[..k - 1] == EncodeBE(k - 1, n / 0x100);
      DecodeEncodeBE(k - 1, n / 0x100);
    }
  }

  /** Reading back little-endian bytes gives the value that was written. */
  lemma {:induction false} DecodeEncodeLE(k: nat, n: nat)
    requires n < Pow256(k)
    ensures DecodeLE(EncodeLE(k, n)) == n
  {
    if k > 0 {
      var bs := EncodeLE(k, n);
      assert bs[1..] == EncodeLE(k - 1, n / 0x100);
      DecodeEncodeLE(k - 1, n / 0x100);
    }
  }

  lemma DecodeEncode(order: Order, k: nat, n: nat)
    requires n < Pow256(k)
    ensures Decode(order, Encode(order, k, n)) == n
  {
    DecodeEncodeBE(k, n);
    DecodeEncodeLE(k, n);
  }

  /** Every byte sequence is the big-endian encoding of its value. */
  lemma {:induction false} EncodeDecodeBE(bs: seq<Byte>)
    ensures EncodeBE(|bs|, DecodeBE(bs)) == bs
  {
    if bs != [] {
      var k := |bs|;
      var rest := DecodeBE(bs[..k - 1]);
      assert (rest * 0x100 + bs[k - 1]) / 0x100 == rest;
      EncodeDecodeBE(bs[..k - 1]);
      assert bs == bs[..k - 1] + [bs[k - 1]];
    }
  }

  /** Every byte sequence is the little-endian encoding of its value. */
  lemma {:induction false} EncodeDecodeLE(bs: seq<Byte>)
    ensures EncodeLE(|bs|, DecodeLE(bs)) == bs
  {
    if bs != [] {
      var rest := DecodeLE(bs[1..]);
      assert (bs[0] + 0x100 * rest) / 0x100 == rest;
      EncodeDecodeLE(bs[1..]);
      assert bs == [bs[0]] + bs[1..];
    }
  }

  /** The little-endian layout is the big-endian layout reversed. */
  lemma {:induction false} EncodeLEIsReversedBE(k: nat, n: nat)
    ensures EncodeLE(k, n) == Reverse(EncodeBE(k, n))
  {
    if k > 0 {
      EncodeLEIsReversedBE(k - 1, n / 0x100);
      ReverseSnoc(EncodeBE(k - 1, n / 0x100), Truncate(n));
    }
  }

  /** Reading bytes least significant first is reading them reversed most significant first. */
  lemma {:induction false} DecodeLEIsReversedBE(bs: seq<Byte>)
    ensures DecodeLE(bs) == DecodeBE(Reverse(bs))
  {
    if bs != [] {
      DecodeLEIsReversedBE(bs[1..]);
      var r := Reverse(bs);
      assert r == Reverse(bs[1..]) + [bs[0]];
      assert r[..|r| - 1] == Reverse(bs[1..]);
    }
  }

  lemma {:induction false} ReverseSnoc<T>(s: seq<T>, x: T)
    ensures Reverse(s + [x]) == [x] + Reverse(s)
  {
    if s != [] {
      assert (s + [x])[1..] == s[1..] + [x];
      ReverseSnoc(s[1..], x);
    }
  }

  /** Dividing by a and then by b is dividing by a * b. */
  lemma DivDiv(n: nat, a: nat, b: nat)
    requires a > 0 && b > 0
    ensures n / a / b == n / (a * b)
  {
    var q, r := n / a, n % a;
    var q2, r2 := q / b, q % b;
    assert n == a * q + r;
    assert q == b * q2 + r2;
    Distrib(a, b * q2, r2);
    Assoc(a, b, q2);
    Distrib(a, r2, 1);
    MulMonotone(a, r2 + 1, b);
    DivUnique(n, a * b, q2, a * r2 + r);
  }

  lemma Distrib(a: nat, x: nat, y: nat)
    ensures a * (x + y) == a * x + a * y
  {
  }

  lemma Assoc(a: nat, b: nat, c: nat)
    ensures a * (b * c) == (a * b) * c
  {
  }

  lemma DivDiv256(n: nat, j: nat)
    ensures n / 0x100 / Pow256(j) == n / Pow256(j + 1)
  {
    DivDiv(n, 0x100, Pow256(j));
  }

  /** Shifting right by bits divides by 2^bits. */
  lemma {:induction false} ShrIsDiv(n: nat, bits: nat)
    ensures Shr(n, bits) == n / Pow2(bits)
  {
    if bits > 0 {
      ShrIsDiv(n / 2, bits - 1);
      DivDiv(n, 2, Pow2(bits - 1));
    }
  }

  /** A shift by 8 * j bits divides by 256^j. */
  lemma {:induction false} Pow2Bytes(j: nat)
    ensures Pow2(8 * j) == Pow256(j)
  {
    if j > 0 {
      Pow2Bytes(j - 1);
      var a := 8 * (j - 1);
      assert Pow2(a + 8) == 2 * Pow2(a + 7) == 4 * Pow2(a + 6) == 8 * Pow2(a + 5)
        == 16 * Pow2(a + 4) == 32 * Pow2(a + 3) == 64 * Pow2(a + 2)
        == 128 * Pow2(a + 1) == 256 * Pow2(a);
    }
  }

  lemma DivUnique(n: nat, d: nat, q: nat, r: nat)
    requires d > 0 && r < d && n == d * q + r
    ensures n / d == q
  {
    var q', r' := n / d, n % d;
    if q' < q {
      assert d * (q' + 1) == d * q' + d;
      MulMonotone(d, q' + 1, q);
    } else if q' > q {
      MulMonotone(d, q + 1, q');
    }
  }

  lemma MulMonotone(d: nat, a: nat, b: nat)
    requires a <= b
    ensures d * a <= d * b
  {
    assert d * b == d * a + d * (b - a);
  }

  /** The i-th big-endian byte of n is `byte(n >> 8*(k-1-i))`. */
  lemma {:induction false} EncodeBEAt(k: nat, n: nat, i: nat)
    requires i < k
    ensures EncodeBE(k, n)[i] == Truncate(Shr(n, 8 * (k - 1 - i)))
  {
    EncodeBEDiv(k, n, i);
    ShrIsDiv(n, 8 * (k - 1 - i));
    Pow2Bytes(k - 1 - i);
  }

  lemma {:induction false} EncodeBEDiv(k: nat, n: nat, i: nat)
    requires i < k
    ensures EncodeBE(k, n)[i] == Truncate(n / Pow256(k - 1 - i))
  {
    if i < k - 1 {
      EncodeBEDiv(k - 1, n / 0x100, i);
      DivDiv256(n, k - 2 - i);
    }
  }

  /** The i-th little-endian byte of n is `byte(n >> 8*i)`. */
  lemma {:induction false} EncodeLEAt(k: nat, n: nat, i: nat)
    requires i < k
    ensures EncodeLE(k, n)[i] == Truncate(Shr(n, 8 * i))
  {
    EncodeLEDiv(k, n, i);
    ShrIsDiv(n, 8 * i);
    Pow2Bytes(i);
  }

  lemma {:induction false} EncodeLEDiv(k: nat, n: nat, i: nat)
    requires i < k
    ensures EncodeLE(k, n)[i] == Truncate(n / Pow256(i))
  {
    if i > 0 {
      EncodeLEDiv(k - 1, n / 0x100, i - 1);
      DivDiv256(n, i - 1);
    }
  }

  /** The signed and unsigned conversions undo each other. */
  lemma SignedUnsigned(k: nat, i: int)
    requires k > 0 && -Half(k) <= i < Half(k)
    ensures ToSigned(k, ToUnsigned(k, i)) == i
  {
  }

  lemma UnsignedSigned(k: nat, n: nat)
    requires k > 0 && n < Pow256(k)
    ensures ToUnsigned(k, ToSigned(k, n)) == n
  {
  }
}
