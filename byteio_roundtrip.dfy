/**
 * Writers and readers used together: what one width and order writes into
 * an in-memory buffer, the reader of the same width and order gives back,
 * narrowed to that width the way Go's conversions `uint16(v)` and
 * `uint32(v)` narrow a 64-bit value.
 */
module ByteRoundTrip {
  import opened Wrappers
  import opened ByteLayout
  import opened ByteStream
  import opened ByteRead
  import opened ByteWrite

  /** An in-memory buffer accepts every byte: writing bs appends it and reports no error. */
  lemma PutBytesBuffer(s: Sink, bs: seq<Byte>)
    requires s.budget == None
    ensures PutBytes(s, bs) == (Sink(s.written + bs, None, s.failure, s.attempts + |bs|), None)
  {
    PutBytesAccepts(s, bs);
    assert bs[..|bs|] == bs;
  }

  /**
   * A value written big-endian into an empty buffer reads back unchanged with
   * no error, and a further read finds a clean end of stream.
   */
  method RoundTrip64BE(v: Uint64) returns (n: Uint64, werr: Option<Error>, rerr: Option<Error>, tailErr: Option<Error>)
    ensures n == v && werr == None && rerr == None && tailErr == Some(EOF)
  {
    var w := new Writer(None, Failure(0));
    werr := WriteUint64BE(w, v);
    PutBytesBuffer(Sink([], None, Failure(0), 0), Encode(BigEndian, 8, v));
    var r := new Reader(w.written, EOF);
    ReadAfterWrite(BigEndian, 8, v, [], EOF);
    assert r.Rest() == Encode(BigEndian, 8, v) + [];
    n, rerr := ReadUint64BE(r);
    var extra;
    extra, tailErr := ReadUint64BE(r);
  }

  /**
   * A negative or positive 64-bit value written little-endian as two's
   * complement reads back as the same signed value.
   */
  method RoundTripInt64LE(i: Int64) returns (j: Int64, werr: Option<Error>, rerr: Option<Error>)
    ensures j == i && werr == None && rerr == None
  {
    var w := new Writer(None, Failure(0));
    werr := WriteInt64LE(w, i);
    var u := ToUnsigned(8, i);
    PutBytesBuffer(Sink([], None, Failure(0), 0), Encode(LittleEndian, 8, u));
    var r := new Reader(w.written, EOF);
    ReadAfterWrite(LittleEndian, 8, u, [], EOF);
    assert r.Rest() == Encode(LittleEndian, 8, u) + [];
    j, rerr := ReadInt64LE(r);
    SignedUnsigned(8, i);
  }

  /**
   * A sink that fails after `when` bytes: a 64-bit write reports the sink's
   * error exactly when `when` is short of eight bytes, has by then emitted
   * the leading `when` bytes of the encoding and attempted no byte after the
   * failed one.
   */
  method AbortedWrite64BE(when: nat, v: Uint64) returns (err: Option<Error>, written: seq<Byte>, attempts: nat)
    ensures err == (if when < 8 then Some(Failure(1)) else None)
    ensures written == Encode(BigEndian, 8, v)[..if when < 8 then when else 8]
    ensures attempts == if when < 8 then when + 1 else 8
  {
    var w := new Writer(Some(when), Failure(1));
    err := WriteUint64BE(w, v);
    PutBytesAccepts(Sink([], Some(when), Failure(1), 0), Encode(BigEndian, 8, v));
    written, attempts := w.written, w.attempts;
  }

  /**
   * Reading a 64-bit value from a source holding fewer than eight bytes: an
   * empty buffer gives a clean `EOF`, a short buffer `UnexpectedEOF`, and a
   * source that fails part-way its own error, never a value.
   */
  method ShortRead64LE(data: seq<Byte>, last: Error) returns (n: Uint64, err: Option<Error>)
    requires |data| < 8
    ensures n == 0
    ensures data == [] ==> err == Some(last)
    ensures data != [] && last == EOF ==> err == Some(UnexpectedEOF)
    ensures last != EOF ==> err == Some(last)
  {
    var r := new Reader(data, last);
    assert r.Rest() == data;
    n, err := ReadUint64LE(r);
  }

  /** `WriteUint32LE(0xDEADBEEF)` into an empty buffer emits `ef be ad de`. */
  method DeadBeefLE() returns (written: seq<Byte>, err: Option<Error>)
    ensures written == [0xEF, 0xBE, 0xAD, 0xDE] && err == None
  {
    assert Encode(LittleEndian, 4, 0xDEADBEEF) == [0xEF, 0xBE, 0xAD, 0xDE] by {
      assert EncodeLE(4, 0xDEADBEEF) == [0xEF] + EncodeLE(3, 0xDEADBE);
      assert EncodeLE(3, 0xDEADBE) == [0xBE] + EncodeLE(2, 0xDEAD);
    }
    var w := new Writer(None, Failure(0));
    err := WriteUint32LE(w, 0xDEADBEEF);
    PutBytesBuffer(Sink([], None, Failure(0), 0), [0xEF, 0xBE, 0xAD, 0xDE]);
    written := w.written;
  }
}
