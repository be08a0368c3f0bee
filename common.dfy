/** Shared vocabulary of the transcoder model: optional values, the exceptions the
    Kotlin code can throw (as error values), JVM integer arithmetic, media formats,
    codec buffer metadata and the codec flag bits. */
module Common {

  datatype Option<+T> = None | Some(value: T)

  /** The exceptions raised by the core, one constructor per distinct cause. */
  datatype Error =
    | SampleRateConversionUnsupported
    | InputChannelCountUnsupported(inputCount: int)
    | OutputChannelCountUnsupported(outputCount: int)
    | BufferBeforeFormat
    | VideoFormatChangedTwice
    | NoActualOutputFormat
    | NullPointer
    | MissingFormatKey(key: FormatKey)
    | BufferOverflow
    | IllegalArgument
    | DivisionByZero
    | IllegalTrackIndex(index: int)

  datatype Result<+T> = Ok(value: T) | Err(error: Error)

  /** A JVM `short`. */
  newtype short = x: int | -0x8000 <= x < 0x8000

  /** A JVM `byte`. */
  newtype byte = x: int | -0x80 <= x < 0x80

  const INT_MIN: int := -0x8000_0000
  const INT_MAX: int := 0x7FFF_FFFF
  const LONG_MIN: int := -0x8000_0000_0000_0000
  const LONG_MAX: int := 0x7FFF_FFFF_FFFF_FFFF

  /** A Kotlin `Int`. */
  type int32 = x: int | INT_MIN <= x <= INT_MAX

  /** Kotlin `toShort()`: two's-complement wrap-around to 16 bits. */
  function Wrap16(x: int): (r: short)
    ensures (r as int - x) % 0x1_0000 == 0
    ensures -0x8000 <= x < 0x8000 ==> r as int == x
  {
    ((x + 0x8000) % 0x1_0000 - 0x8000) as short
  }

  /** Kotlin `Int` arithmetic: two's-complement wrap-around to 32 bits. */
  function Wrap32(x: int): (r: int)
    ensures INT_MIN <= r <= INT_MAX
    ensures (r - x) % 0x1_0000_0000 == 0
    ensures INT_MIN <= x <= INT_MAX ==> r == x
  {
    (x + 0x8000_0000) % 0x1_0000_0000 - 0x8000_0000
  }

  /** Kotlin `Long` arithmetic: two's-complement wrap-around to 64 bits. */
  function Wrap64(x: int): (r: int)
    ensures LONG_MIN <= r <= LONG_MAX
    ensures (r - x) % 0x1_0000_0000_0000_0000 == 0
    ensures LONG_MIN <= x <= LONG_MAX ==> r == x
  {
    (x + 0x8000_0000_0000_0000) % 0x1_0000_0000_0000_0000 - 0x8000_0000_0000_0000
  }

  lemma MulNonneg(x: int, y: int)
    requires x >= 0 && y >= 0
    ensures x * y >= 0
  {
  }

  lemma AppendAssociative<T>(a: seq<T>, b: seq<T>, c: seq<T>)
    ensures a + b + c == a + (b + c)
  {
  }

  /** Multiplying by a non-negative factor preserves order. */
  lemma MulMono(a: int, c: int, b: int)
    requires a <= c && b >= 0
    ensures a * b <= c * b
  {
    MulNonneg(c - a, b);
    assert c * b - a * b == (c - a) * b;
  }

  /** JVM integer division, which truncates toward zero (Dafny's `/` is Euclidean). */
  function TruncDiv(x: int, y: int): (r: int)
    requires y != 0
    ensures y > 0 && x >= 0 ==> r == x / y
    ensures y > 0 && x < 0 ==> r == -((-x) / y)
    ensures y < 0 && x >= 0 ==> r == -(x / (-y))
    ensures y < 0 && x < 0 ==> r == (-x) / (-y)
  {
    if (x >= 0) == (y > 0) then (if x >= 0 then x / y else (-x) / (-y))
    else -((if x >= 0 then x else -x) / (if y > 0 then y else -y))
  }

  /** A value stored under a key of an Android `MediaFormat`. */
  datatype FormatValue = IntValue(i: int32) | StringValue(s: string)

  /** An Android `MediaFormat`: a map from key names to values. */
  type MediaFormat = map<FormatKey, FormatValue>

  /** The `MediaFormat` keys the core uses (`KEY_MIME`, `KEY_WIDTH`, ...). */
  datatype FormatKey =
    | KeyMime | KeyWidth | KeyHeight | KeyBitRate | KeyFrameRate | KeyIFrameInterval
    | KeyColorFormat | KeySampleRate | KeyChannelCount | KeyAacProfile | KeyMaxInputSize

  /** `MediaFormat.getInteger`: unboxing a missing (or non-integer) entry throws. */
  function GetInteger(f: MediaFormat, key: FormatKey): (r: Result<int32>)
    ensures r.Ok? <==> key in f && f[key].IntValue?
    ensures r.Ok? ==> f[key] == IntValue(r.value)
    ensures r.Err? ==> r.error == MissingFormatKey(key)
  {
    if key in f && f[key].IntValue? then Ok(f[key].i) else Err(MissingFormatKey(key))
  }

  /** `MediaFormat.getString`: a missing entry reads as null. */
  function GetString(f: MediaFormat, key: FormatKey): (r: Option<string>)
    ensures r.Some? <==> key in f && f[key].StringValue?
    ensures r.Some? ==> f[key] == StringValue(r.value)
  {
    if key in f && f[key].StringValue? then Some(f[key].s) else None
  }

  /** `MediaCodec` buffer flags (a bit set). */
  type Flags = bv32
  const BUFFER_FLAG_SYNC_FRAME: Flags := 1
  const BUFFER_FLAG_CODEC_CONFIG: Flags := 2
  const BUFFER_FLAG_END_OF_STREAM: Flags := 4
  /** `MediaExtractor.SAMPLE_FLAG_SYNC`. */
  const SAMPLE_FLAG_SYNC: Flags := 1

  /** `MediaCodec.BufferInfo`: a mutable record that callers share by reference. */
  class BufferInfo {
    var offset: int32
    var size: int32
    var presentationTimeUs: int
    var flags: Flags

    constructor ()
      ensures offset == 0 && size == 0 && presentationTimeUs == 0 && flags == 0
    {
      offset, size, presentationTimeUs, flags := 0, 0, 0, 0;
    }

    /** `BufferInfo.set`. */
    method Set(newOffset: int32, newSize: int32, newPresentationTimeUs: int, newFlags: Flags)
      modifies this
      ensures offset == newOffset && size == newSize
      ensures presentationTimeUs == newPresentationTimeUs && flags == newFlags
    {
      offset, size, presentationTimeUs, flags := newOffset, newSize, newPresentationTimeUs, newFlags;
    }
  }

  /** A `java.nio.ByteBuffer`: backing array (its length is the capacity), position and limit. */
  class ByteBuffer {
    const data: array<byte>
    var position: nat
    var limit: nat

    ghost predicate Valid()
      reads this
    {
      position <= limit <= data.Length
    }

    /** `allocate(capacity)` / `allocateDirect(capacity)`: zero-filled, position 0, limit = capacity. */
    constructor Allocate(capacity: nat)
      ensures Valid() && fresh(data)
      ensures data.Length == capacity && position == 0 && limit == capacity
    {
      data := new byte[capacity](_ => 0);
      position, limit := 0, capacity;
    }

    /** A buffer over a copy of `contents`, position 0 and limit at the end. */
    constructor Wrap(contents: seq<byte>)
      ensures Valid() && fresh(data)
      ensures data[..] == contents && position == 0 && limit == |contents|
    {
      data := new byte[|contents|](i requires 0 <= i < |contents| => contents[i]);
      position, limit := 0, |contents|;
    }

    /** `clear()`: position 0, limit = capacity; contents untouched. */
    method Clear()
      modifies this
      ensures Valid()
      ensures position == 0 && limit == data.Length
    {
      position, limit := 0, data.Length;
    }

    /** `flip()`: the limit becomes the position and the position 0. */
    method Flip()
      requires Valid()
      modifies this
      ensures Valid()
      ensures limit == old(position) && position == 0
    {
      position, limit := 0, position;
    }

    /** `limit(newLimit)`, for a limit within the capacity (otherwise it throws). */
    method SetLimit(newLimit: nat)
      requires Valid() && newLimit <= data.Length
      modifies this
      ensures Valid() && limit == newLimit
      ensures position == if old(position) > newLimit then newLimit else old(position)
    {
      limit := newLimit;
      if position > newLimit {
        position := newLimit;
      }
    }

    /** `position(newPosition)`, for a position within the limit (otherwise it throws). */
    method SetPosition(newPosition: nat)
      requires Valid() && newPosition <= limit
      modifies this
      ensures Valid() && limit == old(limit) && position == newPosition
    {
      position := newPosition;
    }

    /** Bulk `put(src)`: appends `src`'s remaining bytes at the position, leaving the bytes
        after them as they were, or throws `BufferOverflowException` (ok == false) before
        copying anything. */
    method Put(src: ByteBuffer) returns (ok: bool)
      requires Valid() && src.Valid() && src.data != data
      modifies this, data, src
      ensures Valid() && src.Valid()
      ensures src.data[..] == old(src.data[..])
      ensures limit == old(limit) && src.limit == old(src.limit)
      ensures ok == (old(src.limit - src.position) <= old(limit - position))
      ensures ok ==> position == old(position + (src.limit - src.position)) && src.position == src.limit
      ensures ok ==> data[..position] == old(data[..position]) + old(src.data[src.position..src.limit])
      ensures ok ==> data[position..] == old(data[..])[position..]
      ensures !ok ==> position == old(position) && src.position == old(src.position) && data[..] == old(data[..])
    {
      var n := src.limit - src.position;
      if n > limit - position {
        return false;
      }
      forall k | 0 <= k < n {
        data[position + k] := src.data[src.position + k];
      }
      position := position + n;
      src.position := src.limit;
      ok := true;
    }
  }
}
