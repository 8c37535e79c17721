/**
 * The readers of the byteio package: each consumes a fixed number of bytes
 * from a byte source, one `ReadByte` at a time, and assembles them into an
 * integer, distinguishing a clean end of stream (before the first byte) from
 * an end inside the value.
 */
module ByteRead {
  import opened Wrappers
  import opened ByteLayout
  import opened ByteStream

  /** What a k-byte read yields: the value, the error, and how many bytes it consumed. */
  datatype Outcome = Outcome(value: nat, err: Option<Error>, consumed: nat)

  /**
   * The result of reading a k-byte integer in the given order from a source
   * holding `rest` and then reporting `last`. A source that ends before the
   * first byte gives its own error (`EOF` for a clean end); one that ends
   * inside the value gives `UnexpectedEOF` instead of `EOF`, and any other
   * error unchanged. Bytes read before an error stay consumed.
   */
  function ReadSpec(order: Order, k: nat, rest: seq<Byte>, last: Error): (o: Outcome)
    requires k > 0
    ensures o.consumed == if |rest| < k then |rest| else k
    ensures o.err == None <==> k <= |rest|
    ensures o.err == None ==> o.value < Pow256(k) && Encode(order, k, o.value) == rest[..k]
    ensures o.err != None ==> o.value == 0
    ensures o.err == Some(EOF) ==> rest == [] && last == EOF
    ensures rest == [] ==> o.err == Some(last)
    ensures |rest| < k && last != EOF ==> o.err == Some(last)
    ensures 0 < |rest| < k && last == EOF ==> o.err == Some(UnexpectedEOF)
  {
    if |rest| == 0 then Outcome(0, Some(last), 0)
    else if |rest| < k then Outcome(0, Some(if last == EOF then UnexpectedEOF else last), |rest|)
    else
      var bs := rest[..k];
      DecodeBound(order, bs);
      EncodeDecodeBE(bs);
      EncodeDecodeLE(bs);
      Outcome(Decode(order, bs), None, k)
  }

  /** Reading back what a writer emitted, in the same width and order, gives the value and consumes exactly its bytes. */
  lemma ReadAfterWrite(order: Order, k: nat, n: nat, tail: seq<Byte>, last: Error)
    requires k > 0 && n < Pow256(k)
    ensures ReadSpec(order, k, Encode(order, k, n) + tail, last) == Outcome(n, None, k)
  {
    var bs := Encode(order, k, n);
    assert (bs + tail)[..k] == bs;
    DecodeEncode(order, k, n);
  }

  /** A little-endian read is a big-endian read of the same bytes reversed. */
  lemma ReadLEIsReversedBE(k: nat, rest: seq<Byte>, last: Error)
    requires 0 < k <= |rest|
    ensures ReadSpec(LittleEndian, k, rest, last).value == ReadSpec(BigEndian, k, Reverse(rest[..k]), last).value
  {
    DecodeLEIsReversedBE(rest[..k]);
    assert Reverse(rest[..k])[..k] == Reverse(rest[..k]);
  }

  /** `ReadUint16BE`: an unsigned 16-bit integer in big-endian (network) byte order. */
  method ReadUint16BE(bin: Reader) returns (n: Uint16, err: Option<Error>)
    requires bin.Valid()
    modifies bin`pos
    ensures bin.Valid()
    ensures var o := ReadSpec(BigEndian, 2, old(bin.Rest()), bin.last);
      n == o.value && err == o.err && bin.pos == old(bin.pos) + o.consumed
  {
    ghost var rest := bin.Rest();
    var b0, b1: Byte;
    b0, err := bin.ReadByte();
    if err.Some? {
      // the stream's own error, io.EOF included, passes through before the first byte
      return 0, err;
    }
    ghost var got := [b0];
    assert got == rest[..1];
    b1, err := bin.ReadByte();
    if err.Some? {
      if err == Some(EOF) {
        return 0, Some(UnexpectedEOF);
      }
      return 0, err;
    }
    assert rest[..2] == rest[..1] + [b1];
    got := got + [b1];
    n := b0 * 0x100 + b1;
    assert n == Decode(BigEndian, rest[..2]) by {
      assert got == [b0, b1];
      Assemble2BE(b0, b1);
    }
  }

  /** `ReadUint32BE`: an unsigned 32-bit integer in big-endian (network) byte order. */
  method ReadUint32BE(bin: Reader) returns (n: Uint32, err: Option<Error>)
    requires bin.Valid()
    modifies bin`pos
    ensures bin.Valid()
    ensures var o := ReadSpec(BigEndian, 4, old(bin.Rest()), bin.last);
      n == o.value && err == o.err && bin.pos == old(bin.pos) + o.consumed
  {
    ghost var rest := bin.Rest();
    var b0, b1, b2, b3: Byte;
    b0, err := bin.ReadByte();
    if err.Some? {
      // the stream's own error, io.EOF included, passes through before the first byte
      return 0, err;
    }
    ghost var got := [b0];
    assert got == rest[..1];
    b1, err := bin.ReadByte();
    if err.Some? {
      if err == Some(EOF) {
        return 0, Some(UnexpectedEOF);
      }
      return 0, err;
    }
    assert rest[..2] == rest[..1] + [b1];
    got := got + [b1];
    b2, err := bin.ReadByte();
    if err.Some? {
      if err == Some(EOF) {
        return 0, Some(UnexpectedEOF);
      }
      return 0, err;
    }
    assert rest[..3] == rest[..2] + [b2];
    got := got + [b2];
    b3, err := bin.ReadByte();
    if err.Some? {
      if err == Some(EOF) {
        return 0, Some(UnexpectedEOF);
      }
      return 0, err;
    }
    assert rest[..4] == rest[..3] + [b3];
    got := got + [b3];
    n := b0 * 0x100_0000 + b1 * 0x1_0000 + b2 * 0x100 + b3;
    assert n == Decode(BigEndian, rest[..4]) by {
      assert got == [b0, b1, b2, b3];
      Assemble4BE(b0, b1, b2, b3);
    }
  }

  /** `ReadUint64BE`: an unsigned 64-bit integer in big-endian (network) byte order. */
  method ReadUint64BE(bin: Reader) returns (n: Uint64, err: Option<Error>)
    requires bin.Valid()
    modifies bin`pos
    ensures bin.Valid()
    ensures var o := ReadSpec(BigEndian, 8, old(bin.Rest()), bin.last);
      n == o.value && err == o.err && bin.pos == old(bin.pos) + o.consumed
  {
    ghost var rest := bin.Rest();
    var b0, b1, b2, b3, b4, b5, b6, b7: Byte;
    b0, err := bin.ReadByte();
    if err.Some? {
      // the stream's own error, io.EOF included, passes through before the first byte
      return 0, err;
    }
    ghost var got := [b0];
    assert got == rest[..1];
    b1, err := bin.ReadByte();
    if err.Some? {
      if err == Some(EOF) {
        return 0, Some(UnexpectedEOF);
      }
      return 0, err;
    }
    assert rest[..2] == rest[..1] + [b1];
    got := got + [b1];
    b2, err := bin.ReadByte();
    if err.Some? {
      if err == Some(EOF) {
        return 0, Some(UnexpectedEOF);
      }
      return 0, err;
    }
    assert rest[..3] == rest[..2] + [b2];
    got := got + [b2];
    b3, err := bin.ReadByte();
    if err.Some? {
      if err == Some(EOF) {
        return 0, Some(UnexpectedEOF);
      }
      return 0, err;
    }
    assert rest[..4] == rest[..3] + [b3];
    got := got + [b3];
    b4, err := bin.ReadByte();
    if err.Some? {
      if err == Some(EOF) {
        return 0, Some(UnexpectedEOF);
      }
      return 0, err;
    }
    assert rest[..5] == rest[..4] + [b4];
    got := got + [b4];
    b5, err := bin.ReadByte();
    if err.Some? {
      if err == Some(EOF) {
        return 0, Some(UnexpectedEOF);
      }
      return 0, err;
    }
    assert rest[..6] == rest[..5] + [b5];
    got := got + [b5];
    b6, err := bin.ReadByte();
    if err.Some? {
      if err == Some(EOF) {
        return 0, Some(UnexpectedEOF);
      }
      return 0, err;
    }
    assert rest[..7] == rest[..6] + [b6];
    got := got + [b6];
    b7, err := bin.ReadByte();
    if err.Some? {
      if err == Some(EOF) {
        return 0, Some(UnexpectedEOF);
      }
      return 0, err;
    }
    assert rest[..8] == rest[..7] + [b7];
    got := got + [b7];
    n := b0 * 0x100_0000_0000_0000 + b1 * 0x1_0000_0000_0000 +
         b2 * 0x100_0000_0000 + b3 * 0x1_0000_0000 +
         b4 * 0x100_0000 + b5 * 0x1_0000 + b6 * 0x100 + b7;
    assert n == Decode(BigEndian, rest[..8]) by {
      assert got == [b0, b1, b2, b3, b4, b5, b6, b7];
      Assemble8BE(b0, b1, b2, b3, b4, b5, b6, b7);
    }
  }

  /** `ReadUint16LE`: an unsigned 16-bit integer in little-endian byte order. */
  method ReadUint16LE(bin: Reader) returns (n: Uint16, err: Option<Error>)
    requires bin.Valid()
    modifies bin`pos
    ensures bin.Valid()
    ensures var o := ReadSpec(LittleEndian, 2, old(bin.Rest()), bin.last);
      n == o.value && err == o.err && bin.pos == old(bin.pos) + o.consumed
  {
    ghost var rest := bin.Rest();
    var b0, b1: Byte;
    b1, err := bin.ReadByte();
    if err.Some? {
      // the stream's own error, io.EOF included, passes through before the first byte
      return 0, err;
    }
    ghost var got := [b1];
    assert got == rest[..1];
    b0, err := bin.ReadByte();
    if err.Some? {
      if err == Some(EOF) {
        return 0, Some(UnexpectedEOF);
      }
      return 0, err;
    }
    assert rest[..2] == rest[..1] + [b0];
    got := got + [b0];
    n := b0 * 0x100 + b1;
    assert n == Decode(LittleEndian, rest[..2]) by {
      assert got == [b1, b0];
      Assemble2LE(b0, b1);
    }
  }

  /** `ReadUint32LE`: an unsigned 32-bit integer in little-endian byte order. */
  method ReadUint32LE(bin: Reader) returns (n: Uint32, err: Option<Error>)
    requires bin.Valid()
    modifies bin`pos
    ensures bin.Valid()
    ensures var o := ReadSpec(LittleEndian, 4, old(bin.Rest()), bin.last);
      n == o.value && err == o.err && bin.pos == old(bin.pos) + o.consumed
  {
    ghost var rest := bin.Rest();
    var b0, b1, b2, b3: Byte;
    b3, err := bin.ReadByte();
    if err.Some? {
      // the stream's own error, io.EOF included, passes through before the first byte
      return 0, err;
    }
    ghost var got := [b3];
    assert got == rest[..1];
    b2, err := bin.ReadByte();
    if err.Some? {
      if err == Some(EOF) {
        return 0, Some(UnexpectedEOF);
      }
      return 0, err;
    }
    assert rest[..2] == rest[..1] + [b2];
    got := got + [b2];
    b1, err := bin.ReadByte();
    if err.Some? {
      if err == Some(EOF) {
        return 0, Some(UnexpectedEOF);
      }
      return 0, err;
    }
    assert rest[..3] == rest[..2] + [b1];
    got := got + [b1];
    b0, err := bin.ReadByte();
    if err.Some? {
      if err == Some(EOF) {
        return 0, Some(UnexpectedEOF);
      }
      return 0, err;
    }
    assert rest[..4] == rest[..3] + [b0];
    got := got + [b0];
    n := b0 * 0x100_0000 + b1 * 0x1_0000 + b2 * 0x100 + b3;
    assert n == Decode(LittleEndian, rest[..4]) by {
      assert got == [b3, b2, b1, b0];
      Assemble4LE(b0, b1, b2, b3);
    }
  }

  /** `ReadUint64LE`: an unsigned 64-bit integer in little-endian byte order. */
  method ReadUint64LE(bin: Reader) returns (n: Uint64, err: Option<Error>)
    requires bin.Valid()
    modifies bin`pos
    ensures bin.Valid()
    ensures var o := ReadSpec(LittleEndian, 8, old(bin.Rest()), bin.last);
      n == o.value && err == o.err && bin.pos == old(bin.pos) + o.consumed
  {
    ghost var rest := bin.Rest();
    var b0, b1, b2, b3, b4, b5, b6, b7: Byte;
    b7, err := bin.ReadByte();
    if err.Some? {
      // the stream's own error, io.EOF included, passes through before the first byte
      return 0, err;
    }
    ghost var got := [b7];
    assert got == rest[..1];
    b6, err := bin.ReadByte();
    if err.Some? {
      if err == Some(EOF) {
        return 0, Some(UnexpectedEOF);
      }
      return 0, err;
    }
    assert rest[..2] == rest[..1] + [b6];
    got := got + [b6];
    b5, err := bin.ReadByte();
    if err.Some? {
      if err == Some(EOF) {
        return 0, Some(UnexpectedEOF);
      }
      return 0, err;
    }
    assert rest[..3] == rest[..2] + [b5];
    got := got + [b5];
    b4, err := bin.ReadByte();
    if err.Some? {
      if err == Some(EOF) {
        return 0, Some(UnexpectedEOF);
      }
      return 0, err;
    }
    assert rest[..4] == rest[..3] + [b4];
    got := got + [b4];
    b3, err := bin.ReadByte();
    if err.Some? {
      if err == Some(EOF) {
        return 0, Some(UnexpectedEOF);
      }
      return 0, err;
    }
    assert rest[..5] == rest[..4] + [b3];
    got := got + [b3];
    b2, err := bin.ReadByte();
    if err.Some? {
      if err == Some(EOF) {
        return 0, Some(UnexpectedEOF);
      }
      return 0, err;
    }
    assert rest[..6] == rest[..5] + [b2];
    got := got + [b2];
    b1, err := bin.ReadByte();
    if err.Some? {
      if err == Some(EOF) {
        return 0, Some(UnexpectedEOF);
      }
      return 0, err;
    }
    assert rest[..7] == rest[..6] + [b1];
    got := got + [b1];
    b0, err := bin.ReadByte();
    if err.Some? {
      if err == Some(EOF) {
        return 0, Some(UnexpectedEOF);
      }
      return 0, err;
    }
    assert rest[..8] == rest[..7] + [b0];
    got := got + [b0];
    n := b0 * 0x100_0000_0000_0000 + b1 * 0x1_0000_0000_0000 +
         b2 * 0x100_0000_0000 + b3 * 0x1_0000_0000 +
         b4 * 0x100_0000 + b5 * 0x1_0000 + b6 * 0x100 + b7;
    assert n == Decode(LittleEndian, rest[..8]) by {
      assert got == [b7, b6, b5, b4, b3, b2, b1, b0];
      Assemble8LE(b0, b1, b2, b3, b4, b5, b6, b7);
    }
  }


  /** `ReadInt16BE`: the two's-complement reading of `ReadUint16BE`, with its error. */
  method ReadInt16BE(bin: Reader) returns (i: Int16, err: Option<Error>)
    requires bin.Valid()
    modifies bin`pos
    ensures bin.Valid()
    ensures var o := ReadSpec(BigEndian, 2, old(bin.Rest()), bin.last);
      i == ToSigned(2, o.value) && err == o.err && bin.pos == old(bin.pos) + o.consumed
  {
    var n;
    n, err := ReadUint16BE(bin);
    i := ToSigned(2, n);
  }

  /** `ReadInt32BE`: the two's-complement reading of `ReadUint32BE`, with its error. */
  method ReadInt32BE(bin: Reader) returns (i: Int32, err: Option<Error>)
    requires bin.Valid()
    modifies bin`pos
    ensures bin.Valid()
    ensures var o := ReadSpec(BigEndian, 4, old(bin.Rest()), bin.last);
      i == ToSigned(4, o.value) && err == o.err && bin.pos == old(bin.pos) + o.consumed
  {
    var n;
    n, err := ReadUint32BE(bin);
    i := ToSigned(4, n);
  }

  /** `ReadInt64BE`: the two's-complement reading of `ReadUint64BE`, with its error. */
  method ReadInt64BE(bin: Reader) returns (i: Int64, err: Option<Error>)
    requires bin.Valid()
    modifies bin`pos
    ensures bin.Valid()
    ensures var o := ReadSpec(BigEndian, 8, old(bin.Rest()), bin.last);
      i == ToSigned(8, o.value) && err == o.err && bin.pos == old(bin.pos) + o.consumed
  {
    var n;
    n, err := ReadUint64BE(bin);
    i := ToSigned(8, n);
  }

  /** `ReadInt16LE`: the two's-complement reading of `ReadUint16LE`, with its error. */
  method ReadInt16LE(bin: Reader) returns (i: Int16, err: Option<Error>)
    requires bin.Valid()
    modifies bin`pos
    ensures bin.Valid()
    ensures var o := ReadSpec(LittleEndian, 2, old(bin.Rest()), bin.last);
      i == ToSigned(2, o.value) && err == o.err && bin.pos == old(bin.pos) + o.consumed
  {
    var n;
    n, err := ReadUint16LE(bin);
    i := ToSigned(2, n);
  }

  /** `ReadInt32LE`: the two's-complement reading of `ReadUint32LE`, with its error. */
  method ReadInt32LE(bin: Reader) returns (i: Int32, err: Option<Error>)
    requires bin.Valid()
    modifies bin`pos
    ensures bin.Valid()
    ensures var o := ReadSpec(LittleEndian, 4, old(bin.Rest()), bin.last);
      i == ToSigned(4, o.value) && err == o.err && bin.pos == old(bin.pos) + o.consumed
  {
    var n;
    n, err := ReadUint32LE(bin);
    i := ToSigned(4, n);
  }

  /** `ReadInt64LE`: the two's-complement reading of `ReadUint64LE`, with its error. */
  method ReadInt64LE(bin: Reader) returns (i: Int64, err: Option<Error>)
    requires bin.Valid()
    modifies bin`pos
    ensures bin.Valid()
    ensures var o := ReadSpec(LittleEndian, 8, old(bin.Rest()), bin.last);
      i == ToSigned(8, o.value) && err == o.err && bin.pos == old(bin.pos) + o.consumed
  {
    var n;
    n, err := ReadUint64LE(bin);
    i := ToSigned(8, n);
  }

  // Assembling the bytes as the readers do (`uint64(b0)<<56 | ...`: the shifted
  // bytes do not overlap, so the OR is a sum) gives the decoded value.

  lemma Assemble2BE(b0: Byte, b1: Byte)
    ensures DecodeBE([b0, b1]) == b0 * 0x100 + b1
  {
    assert DecodeBE([b0]) == b0 by { assert [b0][..0] == []; }
    assert DecodeBE([b0, b1]) == DecodeBE([b0]) * 0x100 + b1 by { assert [b0, b1][..1] == [b0]; }
  }

  lemma Assemble4BE(b0: Byte, b1: Byte, b2: Byte, b3: Byte)
    ensures DecodeBE([b0, b1, b2, b3]) == b0 * 0x100_0000 + b1 * 0x1_0000 + b2 * 0x100 + b3
  {
    assert DecodeBE([b0]) == b0 by { assert [b0][..0] == []; }
    assert DecodeBE([b0, b1]) == DecodeBE([b0]) * 0x100 + b1 by { assert [b0, b1][..1] == [b0]; }
    assert DecodeBE([b0, b1, b2]) == DecodeBE([b0, b1]) * 0x100 + b2 by { assert [b0, b1, b2][..2] == [b0, b1]; }
    assert DecodeBE([b0, b1, b2, b3]) == DecodeBE([b0, b1, b2]) * 0x100 + b3 by { assert [b0, b1, b2, b3][..3] == [b0, b1, b2]; }
  }

  lemma Assemble8BE(b0: Byte, b1: Byte, b2: Byte, b3: Byte, b4: Byte, b5: Byte, b6: Byte, b7: Byte)
    ensures DecodeBE([b0, b1, b2, b3, b4, b5, b6, b7]) ==
      b0 * 0x100_0000_0000_0000 + b1 * 0x1_0000_0000_0000 + b2 * 0x100_0000_0000 + b3 * 0x1_0000_0000 +
      b4 * 0x100_0000 + b5 * 0x1_0000 + b6 * 0x100 + b7
  {
    assert DecodeBE([b0]) == b0 by { assert [b0][..0] == []; }
    assert DecodeBE([b0, b1]) == DecodeBE([b0]) * 0x100 + b1 by { assert [b0, b1][..1] == [b0]; }
    assert DecodeBE([b0, b1, b2]) == DecodeBE([b0, b1]) * 0x100 + b2 by { assert [b0, b1, b2][..2] == [b0, b1]; }
    assert DecodeBE([b0, b1, b2, b3]) == DecodeBE([b0, b1, b2]) * 0x100 + b3 by { assert [b0, b1, b2, b3][..3] == [b0, b1, b2]; }
    assert DecodeBE([b0, b1, b2, b3, b4]) == DecodeBE([b0, b1, b2, b3]) * 0x100 + b4 by { assert [b0, b1, b2, b3, b4][..4] == [b0, b1, b2, b3]; }
    assert DecodeBE([b0, b1, b2, b3, b4, b5]) == DecodeBE([b0, b1, b2, b3, b4]) * 0x100 + b5 by { assert [b0, b1, b2, b3, b4, b5][..5] == [b0, b1, b2, b3, b4]; }
    assert DecodeBE([b0, b1, b2, b3, b4, b5, b6]) == DecodeBE([b0, b1, b2, b3, b4, b5]) * 0x100 + b6 by { assert [b0, b1, b2, b3, b4, b5, b6][..6] == [b0, b1, b2, b3, b4, b5]; }
    assert DecodeBE([b0, b1, b2, b3, b4, b5, b6, b7]) == DecodeBE([b0, b1, b2, b3, b4, b5, b6]) * 0x100 + b7 by { assert [b0, b1, b2, b3, b4, b5, b6, b7][..7] == [b0, b1, b2, b3, b4, b5, b6]; }
  }

  lemma Assemble2LE(b0: Byte, b1: Byte)
    ensures DecodeLE([b1, b0]) == b0 * 0x100 + b1
  {
    assert DecodeLE([b0]) == b0 by { assert [b0][1..] == []; }
    assert DecodeLE([b1, b0]) == b1 + 0x100 * DecodeLE([b0]) by { assert [b1, b0][1..] == [b0]; }
  }

  lemma Assemble4LE(b0: Byte, b1: Byte, b2: Byte, b3: Byte)
    ensures DecodeLE([b3, b2, b1, b0]) == b0 * 0x100_0000 + b1 * 0x1_0000 + b2 * 0x100 + b3
  {
    assert DecodeLE([b0]) == b0 by { assert [b0][1..] == []; }
    assert DecodeLE([b1, b0]) == b1 + 0x100 * DecodeLE([b0]) by { assert [b1, b0][1..] == [b0]; }
    assert DecodeLE([b2, b1, b0]) == b2 + 0x100 * DecodeLE([b1, b0]) by { assert [b2, b1, b0][1..] == [b1, b0]; }
    assert DecodeLE([b3, b2, b1, b0]) == b3 + 0x100 * DecodeLE([b2, b1, b0]) by { assert [b3, b2, b1, b0][1..] == [b2, b1, b0]; }
  }

  lemma Assemble8LE(b0: Byte, b1: Byte, b2: Byte, b3: Byte, b4: Byte, b5: Byte, b6: Byte, b7: Byte)
    ensures DecodeLE([b7, b6, b5, b4, b3, b2, b1, b0]) ==
      b0 * 0x100_0000_0000_0000 + b1 * 0x1_0000_0000_0000 + b2 * 0x100_0000_0000 + b3 * 0x1_0000_0000 +
      b4 * 0x100_0000 + b5 * 0x1_0000 + b6 * 0x100 + b7
  {
    assert DecodeLE([b0]) == b0 by { assert [b0][1..] == []; }
    assert DecodeLE([b1, b0]) == b1 + 0x100 * DecodeLE([b0]) by { assert [b1, b0][1..] == [b0]; }
    assert DecodeLE([b2, b1, b0]) == b2 + 0x100 * DecodeLE([b1, b0]) by { assert [b2, b1, b0][1..] == [b1, b0]; }
    assert DecodeLE([b3, b2, b1, b0]) == b3 + 0x100 * DecodeLE([b2, b1, b0]) by { assert [b3, b2, b1, b0][1..] == [b2, b1, b0]; }
    assert DecodeLE([b4, b3, b2, b1, b0]) == b4 + 0x100 * DecodeLE([b3, b2, b1, b0]) by { assert [b4, b3, b2, b1, b0][1..] == [b3, b2, b1, b0]; }
    assert DecodeLE([b5, b4, b3, b2, b1, b0]) == b5 + 0x100 * DecodeLE([b4, b3, b2, b1, b0]) by { assert [b5, b4, b3, b2, b1, b0][1..] == [b4, b3, b2, b1, b0]; }
    assert DecodeLE([b6, b5, b4, b3, b2, b1, b0]) == b6 + 0x100 * DecodeLE([b5, b4, b3, b2, b1, b0]) by { assert [b6, b5, b4, b3, b2, b1, b0][1..] == [b5, b4, b3, b2, b1, b0]; }
    assert DecodeLE([b7, b6, b5, b4, b3, b2, b1, b0]) == b7 + 0x100 * DecodeLE([b6, b5, b4, b3, b2, b1, b0]) by { assert [b7, b6, b5, b4, b3, b2, b1, b0][1..] == [b6, b5, b4, b3, b2, b1, b0]; }
  }
}
