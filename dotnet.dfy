/**
 * The pieces of the .NET base library that the adapter relies on, modelled
 * as far as the adapter's behaviour depends on them: bytes, tick-based time,
 * the unchecked `long` to `int` conversion, `ReadOnlySequence<byte>` with its
 * `Length` and `CopyTo`, and a caller-supplied `IBufferWriter<byte>`.
 */
module DotNet {
  import opened Wrappers

  newtype byte = b: int | 0 <= b < 256

  const Int32Min: int := -0x8000_0000
  const Int32Max: int := 0x7FFF_FFFF
  const Int64Min: int := -0x8000_0000_0000_0000
  const Int64Max: int := 0x7FFF_FFFF_FFFF_FFFF

  /** `Array.MaxLength`: the largest element count of a byte array. */
  const MaxArrayLength: int := 0x7FFF_FFC7

  /** Ticks of `DateTimeOffset.MaxValue` (100-nanosecond units since 0001-01-01). */
  const MaxInstantTicks: int := 3_155_378_975_999_999_999

  /** A `DateTimeOffset`, as its UTC tick count. */
  type Instant = t: int | 0 <= t <= MaxInstantTicks

  /** A `TimeSpan`, as a signed 64-bit tick count. */
  type Duration = d: int | Int64Min <= d <= Int64Max

  /** `DateTimeOffset - DateTimeOffset`: the span from `earlier` to `later`. It
      never overflows, since both instants lie in the `DateTimeOffset` range. */
  function Between(later: Instant, earlier: Instant): (d: Duration)
    ensures earlier + d == later
  {
    later - earlier
  }

  /** C#'s unchecked conversion `(int)n` of a `long`: keeps the low 32 bits and
      reads them as a two's-complement number. */
  function ToInt32(n: int): (r: int)
    requires Int64Min <= n <= Int64Max
    ensures Int32Min <= r <= Int32Max
    ensures (n - r) % 0x1_0000_0000 == 0
    ensures r == n <==> Int32Min <= n <= Int32Max
  {
    var low := n % 0x1_0000_0000;
    if low <= Int32Max then low else low - 0x1_0000_0000
  }

  /** A `ReadOnlySequence<byte>`: a chain of memory segments read front to back. */
  type ReadOnlySequence = seq<seq<byte>>

  /** `ReadOnlySequence.Length`: the number of bytes over all segments, so
      no single segment is longer than the whole sequence. */
  function SequenceLength(value: ReadOnlySequence): (n: nat)
    ensures forall i | 0 <= i < |value| :: |value[i]| <= n
  {
    if value == [] then 0 else SequenceLength(value[..|value| - 1]) + |value[|value| - 1]|
  }

  /** The bytes of a sequence in reading order, segment after segment. */
  function Flatten(value: ReadOnlySequence): (bytes: seq<byte>)
    ensures |bytes| == SequenceLength(value)
  {
    if value == [] then [] else Flatten(value[..|value| - 1]) + value[|value| - 1]
  }

  /** A prefix of a sequence never holds more bytes than the whole. */
  lemma {:induction false} PrefixLength(value: ReadOnlySequence, i: nat)
    requires i <= |value|
    ensures SequenceLength(value[..i]) <= SequenceLength(value)
  {
    if i < |value| {
      var front := value[..|value| - 1];
      PrefixLength(front, i);
      assert front[..i] == value[..i];
    } else {
      assert value[..i] == value;
    }
  }

  datatype BufferError =
    | NegativeSize          // allocating memory of a negative size (ArgumentOutOfRangeException)
    | TooLarge              // allocating more than `Array.MaxLength` bytes (OutOfMemoryException)
    | DestinationTooShort   // `CopyTo` into a span shorter than the sequence (ArgumentException)

  /** `ReadOnlySequence<byte>.CopyTo(Span<byte>)`: refuses a destination shorter
      than the sequence; otherwise overwrites its first `Length` bytes with the
      sequence's bytes in order and leaves the rest alone. */
  method CopyTo(value: ReadOnlySequence, destination: array<byte>) returns (r: Outcome<BufferError>)
    modifies destination
    ensures r.Pass? <==> SequenceLength(value) <= destination.Length
    ensures r.Fail? ==> r.error == DestinationTooShort && destination[..] == old(destination[..])
    ensures r.Pass? ==> destination[..SequenceLength(value)] == Flatten(value)
    ensures r.Pass? ==> destination[SequenceLength(value)..] == old(destination[SequenceLength(value)..])
  {
    if SequenceLength(value) > destination.Length {
      return Fail(DestinationTooShort);
    }
    var pos := 0;
    var i := 0;
    while i < |value|
      invariant i <= |value|
      invariant pos == SequenceLength(value[..i]) <= destination.Length
      invariant destination[..pos] == Flatten(value[..i])
      invariant destination[pos..] == old(destination[pos..])
    {
      var segment := value[i];
      assert value[..i + 1][..i] == value[..i];
      PrefixLength(value, i + 1);
      var j := 0;
      while j < |segment|
        invariant j <= |segment|
        invariant destination[..pos] == Flatten(value[..i])
        invariant destination[pos..pos + j] == segment[..j]
        invariant destination[pos + j..] == old(destination[pos + j..])
      {
        destination[pos + j] := segment[j];
        j := j + 1;
      }
      assert destination[..pos + j] == destination[..pos] + destination[pos..pos + j];
      pos := pos + |segment|;
      i := i + 1;
    }
    assert value[..i] == value;
    return Pass;
  }

  /** A caller-supplied `IBufferWriter<byte>`, seen as the bytes written to it so far. */
  class BufferWriter {
    var written: seq<byte>

    constructor ()
      ensures written == []
    {
      written := [];
    }

    /** The `Write(ReadOnlySpan<byte>)` extension: appends the span. */
    method Write(span: seq<byte>)
      modifies this
      ensures written == old(written) + span
    {
      written := written + span;
    }
  }
}
