/** `AudioChannel`: turns decoded audio chunks into encoder input chunks through the selected
    remixer, with a FIFO of filled chunks, a pool of recycled `AudioBuffer` objects and an
    overflow buffer. The decoder and encoder are scripted: the buffers they hand out are passed
    in, and the calls made on them are appended to a log. */
module AudioChannel {
  import opened Common
  import opened AudioRemixer

  const BUFFER_INDEX_END_OF_STREAM: int := -1
  const BYTES_PER_SHORT: int := 2
  const MICROSECS_PER_SEC: int := 1000000

  /** `sampleCountToDurationUs`: `sampleCount / (sampleRate * 1_000_000L) / channelCount` in
      `Long` arithmetic (truncating; a zero divisor throws `ArithmeticException`). Both
      quotients fit a `Long`, so nothing wraps. */
  function SampleCountToDurationUs(sampleCount: int, sampleRate: int, channelCount: int): (r: Result<int>)
    ensures r.Err? <==> sampleRate == 0 || channelCount == 0
    ensures r.Err? ==> r.error == DivisionByZero
  {
    if sampleRate == 0 || channelCount == 0 then Err(DivisionByZero)
    else
      var perChannel := TruncDiv(sampleCount, sampleRate * MICROSECS_PER_SEC);
      Ok(TruncDiv(perChannel, channelCount))
  }

  lemma DivBelowDivisor(x: int, y: int)
    requires 0 <= x < y
    ensures x / y == 0
  {
  }

  lemma ZeroDiv(y: int)
    requires y != 0
    ensures TruncDiv(0, y) == 0
  {
  }

  /** The duration is 0 whenever 0 <= sampleCount < sampleRate * 1_000_000, and so for every
      `Int` sample count once the rate is at least 2148 Hz. */
  lemma DurationAlmostAlwaysZero(sampleCount: int, sampleRate: int, channelCount: int)
    requires 0 <= sampleCount && 0 < sampleRate && channelCount != 0
    ensures sampleCount < sampleRate * MICROSECS_PER_SEC ==>
      SampleCountToDurationUs(sampleCount, sampleRate, channelCount) == Ok(0)
    ensures sampleCount <= INT_MAX && sampleRate >= 2148 ==>
      SampleCountToDurationUs(sampleCount, sampleRate, channelCount) == Ok(0)
  {
    var divisor := sampleRate * MICROSECS_PER_SEC;
    if sampleRate >= 2148 {
      MulMono(2148, sampleRate, MICROSECS_PER_SEC);
    }
    if sampleCount < divisor {
      DivBelowDivisor(sampleCount, divisor);
      assert TruncDiv(sampleCount, divisor) == 0;
      ZeroDiv(channelCount);
    }
  }

  /** The validation and remixer choice of `setActualDecodedFormat`, in the order the source
      reads the keys and raises its exceptions. */
  function DecodedFormatCheck(decoded: MediaFormat, encode: MediaFormat): (r: Result<Remixer>)
  {
    match GetInteger(decoded, KeySampleRate)
    case Err(e) => Err(e)
    case Ok(inRate) =>
      match GetInteger(encode, KeySampleRate)
      case Err(e) => Err(e)
      case Ok(outRate) =>
        if inRate != outRate then Err(SampleRateConversionUnsupported)
        else
          match GetInteger(decoded, KeyChannelCount)
          case Err(e) => Err(e)
          case Ok(inCount) =>
            match GetInteger(encode, KeyChannelCount)
            case Err(e) => Err(e)
            case Ok(outCount) =>
              if inCount != 1 && inCount != 2 then Err(InputChannelCountUnsupported(inCount))
              else if outCount != 1 && outCount != 2 then Err(OutputChannelCountUnsupported(outCount))
              else if inCount > outCount then Ok(Downmix)
              else if inCount < outCount then Ok(Upmix)
              else Ok(Passthrough)
  }

  /** A decoded format is accepted iff all four keys are present, the sample rates agree and
      both channel counts are 1 or 2; the remixer then follows the channel counts. */
  lemma DecodedFormatAccepted(decoded: MediaFormat, encode: MediaFormat)
    ensures DecodedFormatCheck(decoded, encode).Ok? <==>
      && GetInteger(decoded, KeySampleRate).Ok? && GetInteger(encode, KeySampleRate).Ok?
      && GetInteger(decoded, KeySampleRate).value == GetInteger(encode, KeySampleRate).value
      && GetInteger(decoded, KeyChannelCount).Ok? && GetInteger(encode, KeyChannelCount).Ok?
      && GetInteger(decoded, KeyChannelCount).value in {1, 2}
      && GetInteger(encode, KeyChannelCount).value in {1, 2}
    ensures DecodedFormatCheck(decoded, encode).Ok? ==>
      var inCount, outCount := decoded[KeyChannelCount].i, encode[KeyChannelCount].i;
      && (DecodedFormatCheck(decoded, encode).value == Downmix <==> inCount > outCount)
      && (DecodedFormatCheck(decoded, encode).value == Upmix <==> inCount < outCount)
      && (DecodedFormatCheck(decoded, encode).value == Passthrough <==> inCount == outCount)
  {
  }

  /** The errors, by cause: a sample-rate mismatch is reported before any channel count is
      looked at, and an unsupported input count before an unsupported output count. */
  lemma DecodedFormatRejected(decoded: MediaFormat, encode: MediaFormat)
    ensures (GetInteger(decoded, KeySampleRate).Ok? && GetInteger(encode, KeySampleRate).Ok?
      && GetInteger(decoded, KeySampleRate).value != GetInteger(encode, KeySampleRate).value) ==>
      DecodedFormatCheck(decoded, encode) == Err(SampleRateConversionUnsupported)
    ensures DecodedFormatCheck(decoded, encode) == Err(SampleRateConversionUnsupported) ==>
      decoded[KeySampleRate] != encode[KeySampleRate]
    ensures DecodedFormatCheck(decoded, encode).Err? && DecodedFormatCheck(decoded, encode).error.OutputChannelCountUnsupported? ==>
      decoded[KeyChannelCount].i in {1, 2} && encode[KeyChannelCount].i !in {1, 2}
      && DecodedFormatCheck(decoded, encode).error.outputCount == encode[KeyChannelCount].i
    ensures DecodedFormatCheck(decoded, encode).Err? && DecodedFormatCheck(decoded, encode).error.InputChannelCountUnsupported? ==>
      decoded[KeySampleRate] == encode[KeySampleRate] && decoded[KeyChannelCount].i !in {1, 2}
      && DecodedFormatCheck(decoded, encode).error.inputCount == decoded[KeyChannelCount].i
  {
  }

  /** One `AudioBuffer` in the filled FIFO. `slot` names the pooled object the chunk occupies;
      `data` is the decoder buffer's short view, null for the end-of-stream marker. */
  datatype AudioBuffer = AudioBuffer(slot: nat, bufferIndex: int, presentationTimeUs: int, data: Option<seq<short>>)

  /** The calls `AudioChannel` makes on its codecs. */
  datatype CodecCall =
    | QueueEncoderInput(index: int, offset: int, size: int, presentationTimeUs: int, flags: Flags, samples: seq<short>)
    | ReleaseDecoderOutput(index: int, render: bool)

  /** How many input shorts are offered to an encoder buffer of `capacity` shorts: the whole
      chunk if it fits, otherwise (limit set to the capacity) its first `capacity` shorts. */
  function AdmittedCount(chunkLength: nat, capacity: nat): (n: nat)
    ensures n <= chunkLength && n <= capacity
    ensures n == chunkLength || n == capacity
  {
    if chunkLength > capacity then capacity else chunkLength
  }

  /** The input shorts the remixer consumes from one chunk into the encoder buffer. */
  function EncoderConsumed(r: Remixer, chunkLength: nat, capacity: nat): nat {
    ConsumedCount(r, AdmittedCount(chunkLength, capacity), capacity)
  }

  /** The shorts one data chunk contributes to an encoder buffer of `capacity` shorts. */
  function EncoderChunk(r: Remixer, chunk: seq<short>, capacity: nat): seq<short> {
    var consumed := EncoderConsumed(r, |chunk|, capacity);
    if consumed <= |chunk| then RemixOutput(r, chunk[..consumed]) else []
  }

  /** What an encoder buffer receives: DOWNMIX the mix of the admitted pairs, UPMIX each of
      min(|chunk|, capacity / 2) samples twice, PASSTHROUGH a chunk that fits verbatim; never
      more than the capacity. */
  lemma EncoderChunkContents(r: Remixer, chunk: seq<short>, capacity: nat)
    ensures r == Downmix ==>
      EncoderChunk(r, chunk, capacity) == Downmixed(chunk[..2 * (AdmittedCount(|chunk|, capacity) / 2)])
    ensures r == Upmix ==>
      EncoderChunk(r, chunk, capacity) == Upmixed(chunk[..UpmixCount(|chunk|, capacity)])
    ensures r == Passthrough && |chunk| <= capacity ==> EncoderChunk(r, chunk, capacity) == chunk
    ensures |EncoderChunk(r, chunk, capacity)| <= capacity
  {
    var admitted := AdmittedCount(|chunk|, capacity);
    var consumed := EncoderConsumed(r, |chunk|, capacity);
    assert consumed <= admitted <= |chunk|;
    if r == Passthrough {
      assert consumed == admitted;
    } else {
      RemixFits(r, admitted, capacity, chunk[..consumed]);
    }
  }

  /** A chunk larger than the encoder buffer loses its tail under DOWNMIX and UPMIX: fewer
      input shorts reach the encoder than were decoded, and none reach the overflow buffer. */
  lemma ExcessInputDropped(r: Remixer, chunkLength: nat, capacity: nat)
    requires r != Passthrough && chunkLength > capacity
    ensures EncoderConsumed(r, chunkLength, capacity) < chunkLength
    ensures ConsumedCount(r, chunkLength - EncoderConsumed(r, chunkLength, capacity), 0) == 0
  {
  }

  /** What `remixAndMaybeFillOverflow` leaves behind for a chunk that does not fail: the shorts
      written into the encoder buffer and the overflow presentation time. */
  datatype EncoderFill = EncoderFill(samples: seq<short>, overflowPresentationTimeUs: int)

  /** `remixAndMaybeFillOverflow` on values, in the order the source fails: null chunk data,
      no remixer (no format accepted yet), a zero divisor in the consumed duration, then
      PASSTHROUGH's bulk put into the empty overflow buffer. A chunk that does not fit the
      encoder buffer moves the overflow presentation time to its own time plus the duration
      of the shorts consumed. */
  function RemixChunk(remixer: Option<Remixer>, input: AudioBuffer, capacity: nat,
                      sampleRate: int, channelCount: int, overflowPresentationTimeUs: int): Result<EncoderFill>
  {
    if input.data.None? || remixer.None? then Err(NullPointer)
    else
      var chunk, mix := input.data.value, remixer.value;
      if |chunk| <= capacity then Ok(EncoderFill(EncoderChunk(mix, chunk, capacity), overflowPresentationTimeUs))
      else
        match SampleCountToDurationUs(EncoderConsumed(mix, |chunk|, capacity), sampleRate, channelCount)
        case Err(e) => Err(e)
        case Ok(consumedDurationUs) =>
          if mix == Passthrough then Err(BufferOverflow)
          else Ok(EncoderFill(EncoderChunk(mix, chunk, capacity), Wrap64(input.presentationTimeUs + consumedDurationUs)))
  }

  /** PASSTHROUGH of a chunk that does not fit the encoder buffer always throws; DOWNMIX and
      UPMIX never throw once a remixer is chosen from a format with non-zero rate and channel
      count, and a chunk that fits never throws. Whatever succeeds writes the chunk's
      `EncoderChunk` and, at any real sample rate, leaves the overflow time at the chunk's time. */
  lemma RemixChunkOutcome(remixer: Option<Remixer>, input: AudioBuffer, capacity: nat,
                          sampleRate: int, channelCount: int, overflowPresentationTimeUs: int)
    ensures var out := RemixChunk(remixer, input, capacity, sampleRate, channelCount, overflowPresentationTimeUs);
      && (input.data.None? || remixer.None? ==> out == Err(NullPointer))
      && (remixer == Some(Passthrough) && input.data.Some? && |input.data.value| > capacity ==> out.Err?)
      && (remixer.Some? && remixer.value != Passthrough && input.data.Some? && sampleRate != 0 && channelCount != 0 ==> out.Ok?)
      && (remixer.Some? && input.data.Some? && |input.data.value| <= capacity ==>
            out == Ok(EncoderFill(EncoderChunk(remixer.value, input.data.value, capacity), overflowPresentationTimeUs)))
      && (out.Ok? ==> out.value.samples == EncoderChunk(remixer.value, input.data.value, capacity))
      && (out.Ok? && |input.data.value| > capacity && 0 < sampleRate && channelCount != 0 &&
          EncoderConsumed(remixer.value, |input.data.value|, capacity) < sampleRate * MICROSECS_PER_SEC &&
          LONG_MIN <= input.presentationTimeUs <= LONG_MAX ==>
            out.value.overflowPresentationTimeUs == input.presentationTimeUs)
  {
    if input.data.Some? && remixer.Some? && |input.data.value| > capacity && 0 < sampleRate && channelCount != 0 {
      DurationAlmostAlwaysZero(EncoderConsumed(remixer.value, |input.data.value|, capacity), sampleRate, channelCount);
    }
  }

  /** `after` agrees with `produced` on its first |produced| elements when `produced` was
      written at index 0. */
  lemma PrefixWritten(after: seq<short>, before: seq<short>, produced: seq<short>)
    requires WrittenAt(after, before, 0, produced)
    ensures after[..|produced|] == produced
  {
    assert forall k :: 0 <= k < |produced| ==> after[..|produced|][k] == after[0 + k];
  }

  /** The first half of `remixAndMaybeFillOverflow`: both buffers cleared, the input limited
      to the encoder buffer's capacity when it does not fit, remixed into the encoder buffer,
      then the input's limit restored. Never throws: what is offered always fits. */
  method RemixIntoEncoder(mix: Remixer, chunk: seq<short>, outBuf: ShortBuffer) returns (inBuf: ShortBuffer)
    requires outBuf.Valid()
    modifies outBuf, outBuf.data
    ensures fresh(inBuf) && fresh(inBuf.data) && inBuf.Valid()
    ensures inBuf.data[..] == chunk && inBuf.limit == |chunk|
    ensures inBuf.position == EncoderConsumed(mix, |chunk|, outBuf.data.Length)
    ensures outBuf.Valid() && outBuf.data == old(outBuf.data)
    ensures outBuf.data[..outBuf.position] == EncoderChunk(mix, chunk, outBuf.data.Length)
  {
    outBuf.Clear();
    inBuf := new ShortBuffer.Wrap(chunk);
    ghost var capacity := outBuf.data.Length;
    ghost var before := outBuf.data[..];
    var overflows := inBuf.Remaining() > outBuf.Remaining();
    if overflows {
      inBuf.SetLimit(outBuf.data.Length);
    }
    ghost var offered := inBuf.Remaining();
    assert offered == AdmittedCount(|chunk|, capacity) && outBuf.Remaining() == capacity;
    var fitted := Remix(mix, inBuf, outBuf);
    assert fitted;
    assert inBuf.position == ConsumedCount(mix, offered, capacity);
    PrefixWritten(outBuf.data[..], before, RemixOutput(mix, inBuf.data[0..inBuf.position]));
    assert inBuf.data[0..inBuf.position] == chunk[..inBuf.position];
    if overflows {
      inBuf.SetLimit(inBuf.data.Length);
    }
  }

  /** Remixing into the overflow buffer, which has no room: DOWNMIX and UPMIX take nothing,
      PASSTHROUGH with input left throws, and `flip()` keeps the limit at 0. */
  method RemixIntoOverflow(mix: Remixer, inBuf: ShortBuffer, overflow: ShortBuffer) returns (ok: bool)
    requires inBuf.Valid() && overflow.Valid() && overflow.position == 0 && overflow.limit == 0
    requires inBuf.data != overflow.data
    modifies inBuf, overflow, overflow.data
    ensures overflow.Valid() && overflow.position == 0 && overflow.limit == 0 && overflow.data == old(overflow.data)
    ensures ok <==> !(mix == Passthrough && old(inBuf.Remaining()) > 0)
  {
    ok := Remix(mix, inBuf, overflow);
    if ok {
      overflow.Flip();
    }
  }

  /** One drain of the overflow buffer: the index range [from, to) of the overflow's backing
      array that is copied to the encoder buffer, and the overflow's position and limit after. */
  datatype Drain = Drain(from: nat, to: nat, position: nat, limit: nat)

  /** `drainOverflow` as written, on the overflow's position, limit and capacity and the encoder
      buffer's capacity: `limit(outCapacity)` is absolute, so it can reach past the old limit
      (stale shorts are copied) or cut a longer backlog (which the reset then discards), and
      it throws `IllegalArgumentException` when the encoder buffer is larger than the overflow. */
  function DrainAsWritten(position: nat, limit: nat, capacity: nat, outCapacity: nat): Result<Drain>
    requires position <= limit <= capacity
  {
    if outCapacity > capacity then Err(IllegalArgument)
    else
      var from := if position > outCapacity then outCapacity else position;
      if limit - position >= outCapacity then Ok(Drain(from, outCapacity, 0, 0))
      else Ok(Drain(from, outCapacity, if outCapacity > limit then limit else outCapacity, limit))
  }

  /** The drain the comments in `drainOverflow` describe: copy min(remaining, outCapacity) shorts
      from the position; reset once everything is consumed, otherwise keep the rest. */
  function CorrectedDrain(position: nat, limit: nat, outCapacity: nat): Drain
    requires position <= limit
  {
    var remaining := limit - position;
    if remaining <= outCapacity then Drain(position, limit, 0, 0)
    else Drain(position, position + outCapacity, position + outCapacity, limit)
  }

  /** As written: with 2 shorts pending in an 8-short overflow and a 4-short encoder buffer,
      4 shorts are copied (2 from beyond the limit); with 6 pending, 4 are copied and the
      other 2 are discarded by the reset. */
  lemma DrainAsWrittenMisbehaves()
    ensures DrainAsWritten(0, 2, 8, 4) == Ok(Drain(0, 4, 2, 2))
    ensures DrainAsWritten(0, 2, 8, 4).value.to > 2
    ensures DrainAsWritten(0, 6, 8, 4) == Ok(Drain(0, 4, 0, 0))
    ensures DrainAsWritten(0, 6, 8, 4).value.limit - DrainAsWritten(0, 6, 8, 4).value.position == 0
  {
  }

  /** The corrected drain copies exactly min(remaining, outCapacity) shorts, all from within
      [position, limit), and whatever is not copied stays pending. */
  lemma CorrectedDrainKeepsBacklog(position: nat, limit: nat, outCapacity: nat)
    requires position <= limit
    ensures var d := CorrectedDrain(position, limit, outCapacity);
      && d.from == position && position <= d.to <= limit
      && d.to - d.from == (if limit - position <= outCapacity then limit - position else outCapacity)
      && d.position <= d.limit
      && (d.limit - d.position) + (d.to - d.from) == limit - position
      && (d.limit - d.position > 0 ==> d.position == d.to && d.limit == limit)
  {
  }

  /** `drainOverflow` on an overflow buffer in any state (it is never called with data in
      it, see `AudioChannel.OverflowEmpty`): the start time is computed from the overflow
      position with the output channel count, then the encoder buffer is cleared and filled
      as `DrainAsWritten` says. */
  method DrainOverflow(overflow: ShortBuffer, overflowPresentationTimeUs: int, inputSampleRate: int,
                       outputChannelCount: int, outBuf: ShortBuffer) returns (r: Result<int>)
    requires overflow.Valid() && outBuf.Valid() && overflow.data != outBuf.data
    modifies overflow, outBuf, outBuf.data
    ensures overflow.Valid() && outBuf.Valid() && overflow.data == old(overflow.data) && outBuf.data == old(outBuf.data)
    ensures var begin := SampleCountToDurationUs(old(overflow.position), inputSampleRate, outputChannelCount);
      var drain := DrainAsWritten(old(overflow.position), old(overflow.limit), overflow.data.Length, outBuf.data.Length);
      && (begin.Err? ==> r == Err(DivisionByZero) && overflow.position == old(overflow.position)
                         && overflow.limit == old(overflow.limit) && outBuf.position == old(outBuf.position))
      && (begin.Ok? && drain.Err? ==> r == Err(IllegalArgument) && overflow.position == old(overflow.position)
                                      && overflow.limit == old(overflow.limit))
      && (begin.Ok? && drain.Ok? ==>
            && r == Ok(Wrap64(overflowPresentationTimeUs + begin.value))
            && overflow.position == drain.value.position && overflow.limit == drain.value.limit
            && outBuf.position == drain.value.to - drain.value.from
            && outBuf.data[..outBuf.position] == old(overflow.data[drain.value.from..drain.value.to]))
    ensures outBuf.data[..] == old(outBuf.data[..]) || r.Ok?
  {
    var overflowLimit := overflow.limit;
    var overflowSize := overflow.Remaining();
    var consumed := SampleCountToDurationUs(overflow.position, inputSampleRate, outputChannelCount);
    if consumed.Err? {
      return Err(consumed.error);
    }
    var beginPresentationTimeUs := Wrap64(overflowPresentationTimeUs + consumed.value);
    outBuf.Clear();
    if outBuf.data.Length > overflow.data.Length {
      return Err(IllegalArgument);
    }
    ghost var before := outBuf.data[..];
    overflow.SetLimit(outBuf.data.Length);
    ghost var copied := overflow.data[overflow.position..overflow.limit];
    var ok := outBuf.Put(overflow);
    assert ok;
    PrefixWritten(outBuf.data[..], before, copied);
    if overflowSize >= outBuf.data.Length {
      overflow.Clear();
      overflow.SetLimit(0);
    } else {
      overflow.SetLimit(overflowLimit);
    }
    r := Ok(beginPresentationTimeUs);
  }

  /** No `AudioBuffer` object is in two places at once, and each of them was allocated. */
  ghost predicate SlotsDistinct(empty: seq<nat>, filled: seq<AudioBuffer>, slotCount: nat) {
    && (forall i, j :: 0 <= i < j < |empty| ==> empty[i] != empty[j])
    && (forall i, j :: 0 <= i < j < |filled| ==> filled[i].slot != filled[j].slot)
    && (forall i, j :: 0 <= i < |empty| && 0 <= j < |filled| ==> empty[i] != filled[j].slot)
    && (forall i :: 0 <= i < |empty| ==> empty[i] < slotCount)
    && (forall j :: 0 <= j < |filled| ==> filled[j].slot < slotCount)
  }

  /** The `AudioBuffer` that `drainDecoderBufferAndQueue` fills: the head of the pool, or a new one. */
  function PolledSlot(empty: seq<nat>, slotCount: nat): nat {
    if empty == [] then slotCount else empty[0]
  }

  /** Queuing a decoded chunk keeps every `AudioBuffer` in one place: the polled (or new) object
      leaves the pool and joins the FIFO. */
  lemma QueueKeepsSlotsDistinct(empty: seq<nat>, filled: seq<AudioBuffer>, slotCount: nat,
                                bufferIndex: int, presentationTimeUs: int, data: Option<seq<short>>)
    requires SlotsDistinct(empty, filled, slotCount)
    ensures var rest, count := if empty == [] then [] else empty[1..], slotCount + (if empty == [] then 1 else 0);
      && SlotsDistinct(rest, filled + [AudioBuffer(PolledSlot(empty, slotCount), bufferIndex, presentationTimeUs, data)], count)
      && SlotsDistinct(rest, filled, count)
  {
    var slot := PolledSlot(empty, slotCount);
    var filled' := filled + [AudioBuffer(slot, bufferIndex, presentationTimeUs, data)];
    if empty != [] {
      assert forall i :: 0 <= i < |empty| - 1 ==> empty[1..][i] == empty[i + 1];
      assert forall i :: 0 <= i < |empty| - 1 ==> empty[1..][i] != slot;
    }
    assert forall j :: 0 <= j < |filled| ==> filled'[j] == filled[j];
    assert forall j :: 0 <= j < |filled| ==> filled[j].slot != slot;
  }

  /** Feeding the encoder from the FIFO's head keeps every `AudioBuffer` in one place, whether
      the chunk goes back to the pool (a data chunk) or is dropped (end of stream). */
  lemma FeedKeepsSlotsDistinct(empty: seq<nat>, filled: seq<AudioBuffer>, slotCount: nat)
    requires filled != [] && SlotsDistinct(empty, filled, slotCount)
    ensures SlotsDistinct(empty + [filled[0].slot], filled[1..], slotCount)
    ensures SlotsDistinct(empty, filled[1..], slotCount)
  {
    var empty' := empty + [filled[0].slot];
    assert forall j :: 0 <= j < |filled| - 1 ==> filled[1..][j] == filled[j + 1];
    assert forall i :: 0 <= i < |empty| ==> empty'[i] == empty[i];
  }

  class AudioChannel {
    const encodeFormat: MediaFormat
    /** The recycled `AudioBuffer` objects, by slot. */
    var emptyBuffers: seq<nat>
    var filledBuffers: seq<AudioBuffer>
    /** How many `AudioBuffer` objects have been created. */
    var allocatedSlots: nat
    var inputSampleRate: int
    var inputChannelCount: int
    var outputChannelCount: int
    var remixer: Option<Remixer>
    var overflow: ShortBuffer?
    var overflowPresentationTimeUs: int
    var actualDecodedFormat: Option<MediaFormat>
    var codecCalls: seq<CodecCall>
    ghost var Repr: set<object>

    /** The overflow buffer is allocated with limit 0 (`clear().flip()`) and keeps limit 0:
        it never holds a short. */
    ghost predicate OverflowEmpty()
      reads this, overflow
    {
      overflow != null ==> overflow.Valid() && overflow.position == 0 && overflow.limit == 0
    }

    ghost predicate Valid()
      reads this, Repr
    {
      && this in Repr
      && (overflow != null ==> overflow in Repr && overflow.data in Repr && Repr == {this, overflow, overflow.data})
      && (overflow == null ==> Repr == {this})
      && OverflowEmpty()
      && (filledBuffers != [] ==> overflow != null)
    }

    constructor (encodeFormat: MediaFormat)
      ensures Valid() && fresh(Repr)
      ensures this.encodeFormat == encodeFormat
      ensures emptyBuffers == [] && filledBuffers == [] && allocatedSlots == 0
      ensures inputSampleRate == 0 && inputChannelCount == 0 && outputChannelCount == 0
      ensures remixer == None && overflow == null && overflowPresentationTimeUs == 0
      ensures actualDecodedFormat == None && codecCalls == []
      ensures SlotsDistinct(emptyBuffers, filledBuffers, allocatedSlots)
    {
      this.encodeFormat := encodeFormat;
      emptyBuffers, filledBuffers, allocatedSlots := [], [], 0;
      inputSampleRate, inputChannelCount, outputChannelCount := 0, 0, 0;
      remixer, overflow, overflowPresentationTimeUs := None, null, 0;
      actualDecodedFormat, codecCalls := None, [];
      Repr := {this};
    }

    /** `setActualDecodedFormat`: records the format first, then reads and checks the keys in
        order, storing each value as it is read, and selects the remixer; throws on the first
        failed check, leaving the remixer and the overflow timestamp as they were. */
    method SetActualDecodedFormat(decoded: MediaFormat) returns (r: Result<()>)
      requires Valid()
      modifies this`actualDecodedFormat, this`inputSampleRate, this`inputChannelCount, this`outputChannelCount,
               this`remixer, this`overflowPresentationTimeUs
      ensures Valid()
      ensures actualDecodedFormat == Some(decoded)
      ensures r.Ok? <==> DecodedFormatCheck(decoded, encodeFormat).Ok?
      ensures r.Err? ==> r.error == DecodedFormatCheck(decoded, encodeFormat).error
      ensures r.Ok? ==> (remixer == Some(DecodedFormatCheck(decoded, encodeFormat).value) && overflowPresentationTimeUs == 0)
      ensures r.Err? ==> (remixer == old(remixer) && overflowPresentationTimeUs == old(overflowPresentationTimeUs))
      ensures inputSampleRate == (if GetInteger(decoded, KeySampleRate).Ok? then decoded[KeySampleRate].i
                                  else old(inputSampleRate))
      ensures var ratesAgree := GetInteger(decoded, KeySampleRate).Ok? && GetInteger(encodeFormat, KeySampleRate).Ok?
                && GetInteger(decoded, KeySampleRate) == GetInteger(encodeFormat, KeySampleRate);
        && inputChannelCount == (if ratesAgree && GetInteger(decoded, KeyChannelCount).Ok?
                                 then decoded[KeyChannelCount].i else old(inputChannelCount))
        && outputChannelCount == (if ratesAgree && GetInteger(decoded, KeyChannelCount).Ok? && GetInteger(encodeFormat, KeyChannelCount).Ok?
                                  then encodeFormat[KeyChannelCount].i else old(outputChannelCount))
    {
      actualDecodedFormat := Some(decoded);
      var inRate := GetInteger(decoded, KeySampleRate);
      if inRate.Err? {
        return Err(inRate.error);
      }
      inputSampleRate := inRate.value;
      var outRate := GetInteger(encodeFormat, KeySampleRate);
      if outRate.Err? {
        return Err(outRate.error);
      }
      if inputSampleRate != outRate.value {
        return Err(SampleRateConversionUnsupported);
      }
      var inCount := GetInteger(decoded, KeyChannelCount);
      if inCount.Err? {
        return Err(inCount.error);
      }
      inputChannelCount := inCount.value;
      var outCount := GetInteger(encodeFormat, KeyChannelCount);
      if outCount.Err? {
        return Err(outCount.error);
      }
      outputChannelCount := outCount.value;
      if inputChannelCount != 1 && inputChannelCount != 2 {
        return Err(InputChannelCountUnsupported(inputChannelCount));
      }
      if outputChannelCount != 1 && outputChannelCount != 2 {
        return Err(OutputChannelCountUnsupported(outputChannelCount));
      }
      if inputChannelCount > outputChannelCount {
        remixer := Some(Downmix);
      } else if inputChannelCount < outputChannelCount {
        remixer := Some(Upmix);
      } else {
        remixer := Some(Passthrough);
      }
      overflowPresentationTimeUs := 0;
      r := Ok(());
    }

    /** `drainDecoderBufferAndQueue`: `decoderOutput` is what the decoder returns for
        `bufferIndex` (it is not asked for the end-of-stream index -1). Takes an `AudioBuffer`
        from the pool (or a new one), allocates the overflow buffer on the first chunk, and
        appends the chunk to the FIFO. */
    method DrainDecoderBufferAndQueue(bufferIndex: int, presentationTimeUs: int, decoderOutput: Option<seq<short>>)
      returns (r: Result<()>)
      requires Valid()
      modifies this`emptyBuffers, this`filledBuffers, this`allocatedSlots, this`overflow, this`Repr
      ensures Valid() && fresh(Repr - old(Repr))
      ensures old(actualDecodedFormat).None? ==>
        r == Err(BufferBeforeFormat) && emptyBuffers == old(emptyBuffers) && allocatedSlots == old(allocatedSlots)
        && overflow == old(overflow)
      ensures var data := if bufferIndex == BUFFER_INDEX_END_OF_STREAM then None else decoderOutput;
        old(actualDecodedFormat).Some? ==>
        && emptyBuffers == (if old(emptyBuffers) == [] then [] else old(emptyBuffers)[1..])
        && allocatedSlots == old(allocatedSlots) + (if old(emptyBuffers) == [] then 1 else 0)
        && (r.Err? <==> old(overflow) == null && data.None?)
        && (r.Err? ==> r.error == NullPointer)
        && (old(overflow) != null ==> overflow == old(overflow))
        && (old(overflow) == null && r.Ok? ==> fresh(overflow) && overflow.data.Length == |data.value|)
        && (r.Ok? ==> filledBuffers == old(filledBuffers) + [AudioBuffer(
              if old(emptyBuffers) == [] then old(allocatedSlots) else old(emptyBuffers)[0],
              bufferIndex, presentationTimeUs, data)])
      ensures r.Err? ==> filledBuffers == old(filledBuffers)
      ensures old(SlotsDistinct(emptyBuffers, filledBuffers, allocatedSlots)) ==> SlotsDistinct(emptyBuffers, filledBuffers, allocatedSlots)
    {
      if actualDecodedFormat.None? {
        return Err(BufferBeforeFormat);
      }
      var data := if bufferIndex == BUFFER_INDEX_END_OF_STREAM then None else decoderOutput;
      if SlotsDistinct(emptyBuffers, filledBuffers, allocatedSlots) {
        QueueKeepsSlotsDistinct(emptyBuffers, filledBuffers, allocatedSlots, bufferIndex, presentationTimeUs, data);
      }
      var slot: nat;
      if emptyBuffers != [] {
        slot := emptyBuffers[0];
        emptyBuffers := emptyBuffers[1..];
      } else {
        slot := allocatedSlots;
        allocatedSlots := allocatedSlots + 1;
      }
      if overflow == null {
        if data.None? {
          return Err(NullPointer);
        }
        AllocateOverflow(|data.value|);
      }
      filledBuffers := filledBuffers + [AudioBuffer(slot, bufferIndex, presentationTimeUs, data)];
      r := Ok(());
    }

    /** The first chunk allocates the overflow buffer, cleared and flipped, so empty. The source
        allocates `capacity()` bytes of the decoder's whole output buffer, `capacity()/2` shorts;
        the model has only the chunk, and takes its length in shorts as that capacity. */
    method AllocateOverflow(capacity: nat)
      requires Valid() && overflow == null
      modifies this`overflow, this`Repr
      ensures Valid() && fresh(overflow) && overflow.data.Length == capacity && fresh(Repr - old(Repr))
    {
      var buffer := new ShortBuffer.Allocate(capacity);
      buffer.Clear();
      buffer.Flip();
      overflow := buffer;
      Repr := {this, buffer, buffer.data};
    }

    /** `remixAndMaybeFillOverflow` for a data chunk and the encoder's input buffer: remixes what
        fits into `outBuf`; a chunk that does not fit has its consumed duration computed and the
        rest remixed into the overflow buffer, which, being empty, takes nothing (PASSTHROUGH
        throws). Returns the chunk's presentation time. */
    method RemixAndMaybeFillOverflow(input: AudioBuffer, outBuf: ShortBuffer) returns (r: Result<int>)
      requires Valid() && overflow != null && outBuf.Valid() && outBuf !in Repr && outBuf.data !in Repr
      modifies Repr, outBuf, outBuf.data
      ensures Valid() && Repr == old(Repr) && overflow == old(overflow)
      ensures outBuf.Valid() && outBuf.data == old(outBuf.data)
      ensures var out := RemixChunk(remixer, input, outBuf.data.Length, inputSampleRate, inputChannelCount,
                                    old(overflowPresentationTimeUs));
        && (r.Err? <==> out.Err?)
        && (r.Err? ==> r.error == out.error && overflowPresentationTimeUs == old(overflowPresentationTimeUs))
        && (r.Ok? ==> r.value == input.presentationTimeUs && outBuf.data[..outBuf.position] == out.value.samples
                      && overflowPresentationTimeUs == out.value.overflowPresentationTimeUs)
      ensures emptyBuffers == old(emptyBuffers) && filledBuffers == old(filledBuffers) && allocatedSlots == old(allocatedSlots)
      ensures remixer == old(remixer) && codecCalls == old(codecCalls) && actualDecodedFormat == old(actualDecodedFormat)
      ensures inputSampleRate == old(inputSampleRate) && inputChannelCount == old(inputChannelCount)
      ensures outputChannelCount == old(outputChannelCount)
    {
      if input.data.None? {
        outBuf.Clear();
        return Err(NullPointer);
      }
      if remixer.None? {
        outBuf.Clear();
        return Err(NullPointer);
      }
      var inBuf := RemixIntoEncoder(remixer.value, input.data.value, outBuf);
      if |input.data.value| > outBuf.data.Length {
        var consumedDurationUs := SampleCountToDurationUs(inBuf.position, inputSampleRate, inputChannelCount);
        if consumedDurationUs.Err? {
          return Err(consumedDurationUs.error);
        }
        var intoOverflow := RemixIntoOverflow(remixer.value, inBuf, overflow);
        if !intoOverflow {
          return Err(BufferOverflow);
        }
        overflowPresentationTimeUs := Wrap64(input.presentationTimeUs + consumedDurationUs.value);
      }
      r := Ok(input.presentationTimeUs);
    }

    /** `feedEncoder`, given the encoder's answer to `dequeueInputBuffer` and the short view of
        that input buffer (None when the codec returns null). Returns false when there is
        nothing to feed, the encoder is full, or the end-of-stream marker was queued. */
    method FeedEncoder(encoderInputIndex: int, encoderInput: Option<seq<short>>) returns (r: Result<bool>)
      requires Valid()
      modifies Repr
      ensures Valid() && Repr == old(Repr) && overflow == old(overflow)
      ensures old(filledBuffers) == [] || encoderInputIndex < 0 ==>
        r == Ok(false) && filledBuffers == old(filledBuffers) && emptyBuffers == old(emptyBuffers)
        && codecCalls == old(codecCalls) && overflowPresentationTimeUs == old(overflowPresentationTimeUs)
      ensures old(filledBuffers) != [] && encoderInputIndex >= 0 ==>
        var chunk := old(filledBuffers)[0];
        && filledBuffers == old(filledBuffers)[1..]
        && (chunk.bufferIndex == BUFFER_INDEX_END_OF_STREAM ==>
              r == Ok(false) && emptyBuffers == old(emptyBuffers)
              && codecCalls == old(codecCalls) + [QueueEncoderInput(encoderInputIndex, 0, 0, 0, BUFFER_FLAG_END_OF_STREAM, [])]
              && overflowPresentationTimeUs == old(overflowPresentationTimeUs))
        && (chunk.bufferIndex != BUFFER_INDEX_END_OF_STREAM && encoderInput.None? ==>
              r == Ok(true) && emptyBuffers == old(emptyBuffers) && codecCalls == old(codecCalls)
              && overflowPresentationTimeUs == old(overflowPresentationTimeUs))
        && (chunk.bufferIndex != BUFFER_INDEX_END_OF_STREAM && encoderInput.Some? ==>
              var out := RemixChunk(remixer, chunk, |encoderInput.value|, inputSampleRate, inputChannelCount,
                                    old(overflowPresentationTimeUs));
              && (r.Err? <==> out.Err?)
              && (r.Err? ==> r.error == out.error && emptyBuffers == old(emptyBuffers) && codecCalls == old(codecCalls)
                             && overflowPresentationTimeUs == old(overflowPresentationTimeUs))
              && (r.Ok? ==>
                    && r == Ok(true)
                    && overflowPresentationTimeUs == out.value.overflowPresentationTimeUs
                    && emptyBuffers == old(emptyBuffers) + [chunk.slot]
                    && codecCalls == old(codecCalls) + [
                         QueueEncoderInput(encoderInputIndex, 0, BYTES_PER_SHORT * |out.value.samples|,
                                           chunk.presentationTimeUs, 0, out.value.samples),
                         ReleaseDecoderOutput(chunk.bufferIndex, false)]))
      ensures old(SlotsDistinct(emptyBuffers, filledBuffers, allocatedSlots)) ==> SlotsDistinct(emptyBuffers, filledBuffers, allocatedSlots)
      ensures allocatedSlots == old(allocatedSlots) && remixer == old(remixer) && actualDecodedFormat == old(actualDecodedFormat)
      ensures inputSampleRate == old(inputSampleRate) && inputChannelCount == old(inputChannelCount)
      ensures outputChannelCount == old(outputChannelCount)
    {
      var hasOverflow := overflow != null && overflow.Remaining() > 0;
      // The overflow buffer never holds a short, so the drain-overflow path is never taken.
      assert !hasOverflow;
      if filledBuffers == [] && !hasOverflow {
        return Ok(false);
      }
      if encoderInputIndex < 0 {
        return Ok(false);
      }
      var input := filledBuffers[0];
      if SlotsDistinct(emptyBuffers, filledBuffers, allocatedSlots) {
        FeedKeepsSlotsDistinct(emptyBuffers, filledBuffers, allocatedSlots);
      }
      filledBuffers := filledBuffers[1..];
      if input.bufferIndex == BUFFER_INDEX_END_OF_STREAM {
        codecCalls := codecCalls + [QueueEncoderInput(encoderInputIndex, 0, 0, 0, BUFFER_FLAG_END_OF_STREAM, [])];
        return Ok(false);
      }
      if encoderInput.Some? {
        var outBuf := new ShortBuffer.Wrap(encoderInput.value);
        var presentationTimeUs := RemixAndMaybeFillOverflow(input, outBuf);
        if presentationTimeUs.Err? {
          return Err(presentationTimeUs.error);
        }
        var queued := outBuf.data[..outBuf.position];
        codecCalls := codecCalls + [
          QueueEncoderInput(encoderInputIndex, 0, outBuf.position * BYTES_PER_SHORT, presentationTimeUs.value, 0, queued),
          ReleaseDecoderOutput(input.bufferIndex, false)];
        emptyBuffers := emptyBuffers + [input.slot];
      }
      r := Ok(true);
    }
  }
}
