/**
 * The writers of the byteio package: each emits a fixed-width integer as
 * bytes, one `WriteByte` at a time, and returns the first error it meets
 * without attempting the bytes after it.
 */
module ByteWrite {
  import opened Wrappers
  import opened ByteLayout
  import opened ByteStream

  /** `WriteUint16BE`: n as 2 bytes in big-endian (network) byte order, stopping at the first failed write. */
  method WriteUint16BE(bout: Writer, n: Uint16) returns (err: Option<Error>)
    modifies bout
    ensures (bout.State(), err) == PutBytes(old(bout.State()), Encode(BigEndian, 2, n))
  {
    ghost var bs := EncodeBE(2, n);
    ghost var before := bout.State();
    assert bs[0..] == bs;
    var b0 := Truncate(Shr(n, 8));
    assert b0 == bs[0] by { EncodeBEAt(2, n, 0); }
    err := bout.WriteByte(b0);
    PutStep(before, bs, 0, bout.State(), err);
    if err.Some? {
      return;
    }
    before := bout.State();
    var b1 := Truncate(n);
    assert b1 == bs[1] by { EncodeBEAt(2, n, 1); }
    err := bout.WriteByte(b1);
    PutStep(before, bs, 1, bout.State(), err);
  }

  /** `WriteUint32BE`: n as 4 bytes in big-endian (network) byte order, stopping at the first failed write. */
  method WriteUint32BE(bout: Writer, n: Uint32) returns (err: Option<Error>)
    modifies bout
    ensures (bout.State(), err) == PutBytes(old(bout.State()), Encode(BigEndian, 4, n))
  {
    ghost var bs := EncodeBE(4, n);
    ghost var before := bout.State();
    assert bs[0..] == bs;
    var b0 := Truncate(Shr(n, 24));
    assert b0 == bs[0] by { EncodeBEAt(4, n, 0); }
    err := bout.WriteByte(b0);
    PutStep(before, bs, 0, bout.State(), err);
    if err.Some? {
      return;
    }
    before := bout.State();
    var b1 := Truncate(Shr(n, 16));
    assert b1 == bs[1] by { EncodeBEAt(4, n, 1); }
    err := bout.WriteByte(b1);
    PutStep(before, bs, 1, bout.State(), err);
    if err.Some? {
      return;
    }
    before := bout.State();
    var b2 := Truncate(Shr(n, 8));
    assert b2 == bs[2] by { EncodeBEAt(4, n, 2); }
    err := bout.WriteByte(b2);
    PutStep(before, bs, 2, bout.State(), err);
    if err.Some? {
      return;
    }
    before := bout.State();
    var b3 := Truncate(n);
    assert b3 == bs[3] by { EncodeBEAt(4, n, 3); }
    err := bout.WriteByte(b3);
    PutStep(before, bs, 3, bout.State(), err);
  }

  /** `WriteUint64BE`: n as 8 bytes in big-endian (network) byte order, stopping at the first failed write. */
  method WriteUint64BE(bout: Writer, n: Uint64) returns (err: Option<Error>)
    modifies bout
    ensures (bout.State(), err) == PutBytes(old(bout.State()), Encode(BigEndian, 8, n))
  {
    ghost var bs := EncodeBE(8, n);
    ghost var before := bout.State();
    assert bs[0..] == bs;
    var b0 := Truncate(Shr(n, 56));
    assert b0 == bs[0] by { EncodeBEAt(8, n, 0); }
    err := bout.WriteByte(b0);
    PutStep(before, bs, 0, bout.State(), err);
    if err.Some? {
      return;
    }
    before := bout.State();
    var b1 := Truncate(Shr(n, 48));
    assert b1 == bs[1] by { EncodeBEAt(8, n, 1); }
    err := bout.WriteByte(b1);
    PutStep(before, bs, 1, bout.State(), err);
    if err.Some? {
      return;
    }
    before := bout.State();
    var b2 := Truncate(Shr(n, 40));
    assert b2 == bs[2] by { EncodeBEAt(8, n, 2); }
    err := bout.WriteByte(b2);
    PutStep(before, bs, 2, bout.State(), err);
    if err.Some? {
      return;
    }
    before := bout.State();
    var b3 := Truncate(Shr(n, 32));
    assert b3 == bs[3] by { EncodeBEAt(8, n, 3); }
    err := bout.WriteByte(b3);
    PutStep(before, bs, 3, bout.State(), err);
    if err.Some? {
      return;
    }
    before := bout.State();
    var b4 := Truncate(Shr(n, 24));
    assert b4 == bs[4] by { EncodeBEAt(8, n, 4); }
    err := bout.WriteByte(b4);
    PutStep(before, bs, 4, bout.State(), err);
    if err.Some? {
      return;
    }
    before := bout.State();
    var b5 := Truncate(Shr(n, 16));
    assert b5 == bs[5] by { EncodeBEAt(8, n, 5); }
    err := bout.WriteByte(b5);
    PutStep(before, bs, 5, bout.State(), err);
    if err.Some? {
      return;
    }
    before := bout.State();
    var b6 := Truncate(Shr(n, 8));
    assert b6 == bs[6] by { EncodeBEAt(8, n, 6); }
    err := bout.WriteByte(b6);
    PutStep(before, bs, 6, bout.State(), err);
    if err.Some? {
      return;
    }
    before := bout.State();
    var b7 := Truncate(n);
    assert b7 == bs[7] by { EncodeBEAt(8, n, 7); }
    err := bout.WriteByte(b7);
    PutStep(before, bs, 7, bout.State(), err);
  }

  /** `WriteUint16LE`: n as 2 bytes in little-endian byte order, stopping at the first failed write. */
  method WriteUint16LE(bout: Writer, n: Uint16) returns (err: Option<Error>)
    modifies bout
    ensures (bout.State(), err) == PutBytes(old(bout.State()), Encode(LittleEndian, 2, n))
  {
    ghost var bs := EncodeLE(2, n);
    ghost var before := bout.State();
    assert bs[0..] == bs;
    var b0 := Truncate(n);
    assert b0 == bs[0] by { EncodeLEAt(2, n, 0); }
    err := bout.WriteByte(b0);
    PutStep(before, bs, 0, bout.State(), err);
    if err.Some? {
      return;
    }
    before := bout.State();
    var b1 := Truncate(Shr(n, 8));
    assert b1 == bs[1] by { EncodeLEAt(2, n, 1); }
    err := bout.WriteByte(b1);
    PutStep(before, bs, 1, bout.State(), err);
  }

  /** `WriteUint32LE`: n as 4 bytes in little-endian byte order, stopping at the first failed write. */
  method WriteUint32LE(bout: Writer, n: Uint32) returns (err: Option<Error>)
    modifies bout
    ensures (bout.State(), err) == PutBytes(old(bout.State()), Encode(LittleEndian, 4, n))
  {
    ghost var bs := EncodeLE(4, n);
    ghost var before := bout.State();
    assert bs[0..] == bs;
    var b0 := Truncate(n);
    assert b0 == bs[0] by { EncodeLEAt(4, n, 0); }
    err := bout.WriteByte(b0);
    PutStep(before, bs, 0, bout.State(), err);
    if err.Some? {
      return;
    }
    before := bout.State();
    var b1 := Truncate(Shr(n, 8));
    assert b1 == bs[1] by { EncodeLEAt(4, n, 1); }
    err := bout.WriteByte(b1);
    PutStep(before, bs, 1, bout.State(), err);
    if err.Some? {
      return;
    }
    before := bout.State();
    var b2 := Truncate(Shr(n, 16));
    assert b2 == bs[2] by { EncodeLEAt(4, n, 2); }
    err := bout.WriteByte(b2);
    PutStep(before, bs, 2, bout.State(), err);
    if err.Some? {
      return;
    }
    before := bout.State();
    var b3 := Truncate(Shr(n, 24));
    assert b3 == bs[3] by { EncodeLEAt(4, n, 3); }
    err := bout.WriteByte(b3);
    PutStep(before, bs, 3, bout.State(), err);
  }

  /** `WriteUint64LE`: n as 8 bytes in little-endian byte order, stopping at the first failed write. */
  method WriteUint64LE(bout: Writer, n: Uint64) returns (err: Option<Error>)
    modifies bout
    ensures (bout.State(), err) == PutBytes(old(bout.State()), Encode(LittleEndian, 8, n))
  {
    ghost var bs := EncodeLE(8, n);
    ghost var before := bout.State();
    assert bs[0..] == bs;
    var b0 := Truncate(n);
    assert b0 == bs[0] by { EncodeLEAt(8, n, 0); }
    err := bout.WriteByte(b0);
    PutStep(before, bs, 0, bout.State(), err);
    if err.Some? {
      return;
    }
    before := bout.State();
    var b1 := Truncate(Shr(n, 8));
    assert b1 == bs[1] by { EncodeLEAt(8, n, 1); }
    err := bout.WriteByte(b1);
    PutStep(before, bs, 1, bout.State(), err);
    if err.Some? {
      return;
    }
    before := bout.State();
    var b2 := Truncate(Shr(n, 16));
    assert b2 == bs[2] by { EncodeLEAt(8, n, 2); }
    err := bout.WriteByte(b2);
    PutStep(before, bs, 2, bout.State(), err);
    if err.Some? {
      return;
    }
    before := bout.State();
    var b3 := Truncate(Shr(n, 24));
    assert b3 == bs[3] by { EncodeLEAt(8, n, 3); }
    err := bout.WriteByte(b3);
    PutStep(before, bs, 3, bout.State(), err);
    if err.Some? {
      return;
    }
    before := bout.State();
    var b4 := Truncate(Shr(n, 32));
    assert b4 == bs[4] by { EncodeLEAt(8, n, 4); }
    err := bout.WriteByte(b4);
    PutStep(before, bs, 4, bout.State(), err);
    if err.Some? {
      return;
    }
    before := bout.State();
    var b5 := Truncate(Shr(n, 40));
    assert b5 == bs[5] by { EncodeLEAt(8, n, 5); }
    err := bout.WriteByte(b5);
    PutStep(before, bs, 5, bout.State(), err);
    if err.Some? {
      return;
    }
    before := bout.State();
    var b6 := Truncate(Shr(n, 48));
    assert b6 == bs[6] by { EncodeLEAt(8, n, 6); }
    err := bout.WriteByte(b6);
    PutStep(before, bs, 6, bout.State(), err);
    if err.Some? {
      return;
    }
    before := bout.State();
    var b7 := Truncate(Shr(n, 56));
    assert b7 == bs[7] by { EncodeLEAt(8, n, 7); }
    err := bout.WriteByte(b7);
    PutStep(before, bs, 7, bout.State(), err);
  }

  /** `WriteInt16BE`: the bytes `WriteUint16BE` emits for the two's-complement reinterpretation of i. */
  method WriteInt16BE(bout: Writer, i: Int16) returns (err: Option<Error>)
    modifies bout
    ensures (bout.State(), err) == PutBytes(old(bout.State()), Encode(BigEndian, 2, ToUnsigned(2, i)))
  {
    err := WriteUint16BE(bout, ToUnsigned(2, i));
  }

  /** `WriteInt32BE`: the bytes `WriteUint32BE` emits for the two's-complement reinterpretation of i. */
  method WriteInt32BE(bout: Writer, i: Int32) returns (err: Option<Error>)
    modifies bout
    ensures (bout.State(), err) == PutBytes(old(bout.State()), Encode(BigEndian, 4, ToUnsigned(4, i)))
  {
    err := WriteUint32BE(bout, ToUnsigned(4, i));
  }

  /** `WriteInt64BE`: the bytes `WriteUint64BE` emits for the two's-complement reinterpretation of i. */
  method WriteInt64BE(bout: Writer, i: Int64) returns (err: Option<Error>)
    modifies bout
    ensures (bout.State(), err) == PutBytes(old(bout.State()), Encode(BigEndian, 8, ToUnsigned(8, i)))
  {
    err := WriteUint64BE(bout, ToUnsigned(8, i));
  }

  /** `WriteInt16LE`: the bytes `WriteUint16LE` emits for the two's-complement reinterpretation of i. */
  method WriteInt16LE(bout: Writer, i: Int16) returns (err: Option<Error>)
    modifies bout
    ensures (bout.State(), err) == PutBytes(old(bout.State()), Encode(LittleEndian, 2, ToUnsigned(2, i)))
  {
    err := WriteUint16LE(bout, ToUnsigned(2, i));
  }

  /** `WriteInt32LE`: the bytes `WriteUint32LE` emits for the two's-complement reinterpretation of i. */
  method WriteInt32LE(bout: Writer, i: Int32) returns (err: Option<Error>)
    modifies bout
    ensures (bout.State(), err) == PutBytes(old(bout.State()), Encode(LittleEndian, 4, ToUnsigned(4, i)))
  {
    err := WriteUint32LE(bout, ToUnsigned(4, i));
  }

  /** `WriteInt64LE`: the bytes `WriteUint64LE` emits for the two's-complement reinterpretation of i. */
  method WriteInt64LE(bout: Writer, i: Int64) returns (err: Option<Error>)
    modifies bout
    ensures (bout.State(), err) == PutBytes(old(bout.State()), Encode(LittleEndian, 8, ToUnsigned(8, i)))
  {
    err := WriteUint64LE(bout, ToUnsigned(8, i));
  }

  /** `WriteUint16BE` emits `byte(n >> 8), byte(n)`. */
  lemma Layout16BE(n: nat)
    ensures EncodeBE(2, n) == [Truncate(Shr(n, 8)), Truncate(n)]
  {
    forall i | 0 <= i < 2 {
      EncodeBEAt(2, n, i);
    }
  }

  /** `WriteUint32BE` emits `byte(n >> 24), byte(n >> 16), byte(n >> 8), byte(n)`. */
  lemma Layout32BE(n: nat)
    ensures EncodeBE(4, n) == [Truncate(Shr(n, 24)), Truncate(Shr(n, 16)), Truncate(Shr(n, 8)), Truncate(n)]
  {
    forall i | 0 <= i < 4 {
      EncodeBEAt(4, n, i);
    }
  }

  /** `WriteUint64BE` emits `byte(n >> 56), byte(n >> 48), byte(n >> 40), byte(n >> 32), byte(n >> 24), byte(n >> 16), byte(n >> 8), byte(n)`. */
  lemma Layout64BE(n: nat)
    ensures EncodeBE(8, n) == [Truncate(Shr(n, 56)), Truncate(Shr(n, 48)), Truncate(Shr(n, 40)), Truncate(Shr(n, 32)), Truncate(Shr(n, 24)), Truncate(Shr(n, 16)), Truncate(Shr(n, 8)), Truncate(n)]
  {
    forall i | 0 <= i < 8 {
      EncodeBEAt(8, n, i);
    }
  }

  /** `WriteUint16LE` emits `byte(n), byte(n >> 8)`. */
  lemma Layout16LE(n: nat)
    ensures EncodeLE(2, n) == [Truncate(n), Truncate(Shr(n, 8))]
  {
    forall i | 0 <= i < 2 {
      EncodeLEAt(2, n, i);
    }
  }

  /** `WriteUint32LE` emits `byte(n), byte(n >> 8), byte(n >> 16), byte(n >> 24)`. */
  lemma Layout32LE(n: nat)
    ensures EncodeLE(4, n) == [Truncate(n), Truncate(Shr(n, 8)), Truncate(Shr(n, 16)), Truncate(Shr(n, 24))]
  {
    forall i | 0 <= i < 4 {
      EncodeLEAt(4, n, i);
    }
  }

  /** `WriteUint64LE` emits `byte(n), byte(n >> 8), byte(n >> 16), byte(n >> 24), byte(n >> 32), byte(n >> 40), byte(n >> 48), byte(n >> 56)`. */
  lemma Layout64LE(n: nat)
    ensures EncodeLE(8, n) == [Truncate(n), Truncate(Shr(n, 8)), Truncate(Shr(n, 16)), Truncate(Shr(n, 24)), Truncate(Shr(n, 32)), Truncate(Shr(n, 40)), Truncate(Shr(n, 48)), Truncate(Shr(n, 56))]
  {
    forall i | 0 <= i < 8 {
      EncodeLEAt(8, n, i);
    }
  }
}
