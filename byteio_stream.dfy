/**
 * The byte streams the byteio codec runs over: the single-byte halves of
 * Go's `io.ByteReader` and `io.ByteWriter`, as an in-memory buffer or a
 * source or sink that fails after a given number of bytes.
 */
module ByteStream {
  import opened Wrappers
  import opened ByteLayout

  /** The error values the codec distinguishes. */
  datatype Error =
    | EOF                  // io.EOF: the stream ended cleanly
    | UnexpectedEOF        // io.ErrUnexpectedEOF: the stream ended inside a value
    | Failure(code: nat)   // any other error of the underlying stream

  /**
   * A byte source. It delivers `data[pos..]` one byte at a time and then
   * reports `last` on every further read: `EOF` for an in-memory buffer, any
   * other error for a source that breaks after delivering `data`.
   */
  class Reader {
    const data: seq<Byte>
    var pos: nat
    const last: Error

    ghost predicate Valid()
      reads this
    {
      pos <= |data|
    }

    /** The bytes not read yet. */
    function Rest(): seq<Byte>
      reads this
      requires Valid()
    {
      data[pos..]
    }

    constructor (data: seq<Byte>, last: Error)
      ensures Valid()
      ensures this.data == data && pos == 0 && this.last == last
    {
      this.data := data;
      this.pos := 0;
      this.last := last;
    }

    /** `ReadByte`: the next byte, or the stream's final error once data is exhausted. */
    method ReadByte() returns (b: Byte, err: Option<Error>)
      requires Valid()
      modifies this`pos
      ensures Valid()
      ensures old(pos) == |data| ==> b == 0 && err == Some(last) && pos == old(pos)
      ensures old(pos) < |data| ==> b == data[old(pos)] && err == None && pos == old(pos) + 1
    {
      if pos == |data| {
        b, err := 0, Some(last);
      } else {
        b, err := data[pos], None;
        pos := pos + 1;
      }
    }
  }

  /**
   * The observable state of a byte sink: the bytes it has accepted, how many
   * more it accepts (`None` for an in-memory buffer, which always accepts),
   * the error it reports once that budget is spent, and how many writes were
   * attempted.
   */
  datatype Sink = Sink(written: seq<Byte>, budget: Option<nat>, failure: Error, attempts: nat)

  /** One `WriteByte` on a sink: accept b, or fail without effect once the budget is spent. */
  function PutByte(s: Sink, b: Byte): (Sink, Option<Error>)
  {
    if s.budget == Some(0) then (s.(attempts := s.attempts + 1), Some(s.failure))
    else
      var budget := if s.budget.Some? then Some(s.budget.value - 1) else None;
      (s.(written := s.written + [b], budget := budget, attempts := s.attempts + 1), None)
  }

  /** Writing bs byte by byte, stopping at the first failure. */
  function PutBytes(s: Sink, bs: seq<Byte>): (Sink, Option<Error>)
    decreases |bs|
  {
    if bs == [] then (s, None)
    else
      var (s', err) := PutByte(s, bs[0]);
      if err.Some? then (s', err) else PutBytes(s', bs[1..])
  }

  /**
   * Writing bs from its j-th byte on is one `WriteByte` of bs[j], taking
   * before to after with result err, followed, if that succeeded, by the
   * rest.
   */
  lemma PutStep(before: Sink, bs: seq<Byte>, j: nat, after: Sink, err: Option<Error>)
    requires j < |bs|
    requires (after, err) == PutByte(before, bs[j])
    ensures PutBytes(before, bs[j..]) == if err.Some? then (after, err) else PutBytes(after, bs[j + 1..])
  {
    assert bs[j..][1..] == bs[j + 1..];
  }

  /** How many of k bytes a sink with this budget accepts. */
  function Accepted(budget: Option<nat>, k: nat): nat
  {
    if budget.Some? && budget.value < k then budget.value else k
  }

  /** The budget left after accepting m bytes. */
  function Spend(budget: Option<nat>, m: nat): Option<nat>
  {
    if budget.Some? && budget.value >= m then Some(budget.value - m)
    else if budget.Some? then Some(0)
    else None
  }

  /**
   * Writing bs stops exactly when the budget runs out: the sink accepts the
   * first m bytes, reports its failure if that is not all of them, and sees
   * no attempt after the failed one.
   */
  lemma {:induction false} PutBytesAccepts(s: Sink, bs: seq<Byte>)
    ensures var m := Accepted(s.budget, |bs|);
      PutBytes(s, bs) ==
        (Sink(s.written + bs[..m], Spend(s.budget, m), s.failure,
              s.attempts + (if m < |bs| then m + 1 else m)),
         if m < |bs| then Some(s.failure) else None)
    decreases |bs|
  {
    if bs != [] && s.budget != Some(0) {
      var s' := PutByte(s, bs[0]).0;
      PutBytesAccepts(s', bs[1..]);
      var m := Accepted(s.budget, |bs|);
      assert 1 <= m <= |bs|;
      assert Accepted(s'.budget, |bs| - 1) == m - 1;
      assert Spend(s'.budget, m - 1) == Spend(s.budget, m);
      assert s'.written + bs[1..][..m - 1] == s.written + bs[..m] by {
        assert bs[..m] == [bs[0]] + bs[1..][..m - 1] by {
          assert bs[..m][1..] == bs[1..][..m - 1];
        }
      }
    } else {
      assert s.written + bs[..0] == s.written;
    }
  }

  /**
   * A byte sink (`io.ByteWriter`): an in-memory buffer, or a writer that
   * fails once it has accepted a given number of bytes.
   */
  class Writer {
    var written: seq<Byte>
    var budget: Option<nat>
    var failure: Error
    var attempts: nat

    function State(): Sink
      reads this
    {
      Sink(written, budget, failure, attempts)
    }

    constructor (budget: Option<nat>, failure: Error)
      ensures State() == Sink([], budget, failure, 0)
    {
      written := [];
      this.budget := budget;
      this.failure := failure;
      attempts := 0;
    }

    /** `WriteByte`. */
    method WriteByte(b: Byte) returns (err: Option<Error>)
      modifies this
      ensures (State(), err) == PutByte(old(State()), b)
    {
      attempts := attempts + 1;
      if budget == Some(0) {
        err := Some(failure);
      } else {
        written := written + [b];
        if budget.Some? {
          budget := Some(budget.value - 1);
        }
        err := None;
      }
    }
  }
}
