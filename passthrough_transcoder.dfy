/** `PassThroughTrackTranscoder`: copies one track's samples from the extractor to the queued
    muxer unchanged, reusing one byte buffer and one `BufferInfo` for every sample. */
module PassThrough {
  import opened Common
  import opened Extractor
  import opened Muxer

  class PassThroughTrackTranscoder {
    const extractor: MediaExtractor
    const trackIndex: int
    const muxer: QueuedMuxer
    const sampleType: SampleType
    /** `mWrittenPresentationTimeUs`. */
    var writtenPresentationTimeUs: int
    const bufferSize: int32
    const format: MediaFormat
    /** `mBuffer`, allocated once at `bufferSize` bytes and reused by every step. */
    const buffer: ByteBuffer
    var isEOS: bool
    /** `mBufferInfo`, reused by every step and handed to the muxer by reference. */
    const bufferInfo: BufferInfo

    /** The collaborators are well formed and the transcoder's own buffer is not the muxer's. */
    ghost predicate Valid()
      reads this, extractor, muxer, muxer.byteBuffer, buffer
    {
      && extractor.Valid() && muxer.Valid() && buffer.Valid()
      && buffer.data.Length == bufferSize as int
      && buffer != muxer.byteBuffer && buffer.data != muxer.byteBuffer.data
    }

    /** The fields once `init` has fetched the format and allocated the buffer. */
    constructor (extractor: MediaExtractor, trackIndex: int, muxer: QueuedMuxer, sampleType: SampleType,
                 format: MediaFormat, bufferSize: int32)
      requires extractor.Valid() && muxer.Valid() && bufferSize >= 0
      ensures Valid() && fresh(buffer) && fresh(buffer.data) && fresh(bufferInfo)
      ensures this.extractor == extractor && this.trackIndex == trackIndex && this.muxer == muxer
      ensures this.sampleType == sampleType && this.format == format && this.bufferSize == bufferSize
      ensures writtenPresentationTimeUs == 0 && !isEOS
      ensures buffer.position == 0 && buffer.limit == bufferSize as int
    {
      this.extractor := extractor;
      this.trackIndex := trackIndex;
      this.muxer := muxer;
      this.sampleType := sampleType;
      this.format := format;
      this.bufferSize := bufferSize;
      writtenPresentationTimeUs := 0;
      isEOS := false;
      buffer := new ByteBuffer.Allocate(bufferSize as nat);
      bufferInfo := new BufferInfo();
    }

    /** `isFinished`: the end-of-stream flag. */
    predicate IsFinished()
      reads this
    {
      isEOS
    }

    /** `getWrittenPresentationTimeUS`. */
    function WrittenPresentationTimeUs(): int
      reads this
    {
      writtenPresentationTimeUs
    }

    /** `stepPipeline`. After end of stream it does nothing and answers false. When the
        extractor is exhausted it writes an empty END_OF_STREAM sample, sets the flag and
        answers true. A pending sample of another track is left alone (false). An own-track
        sample is read into the buffer and forwarded with its size, time and sync flag; the
        written time follows it and the extractor advances (true). */
    method StepPipeline() returns (r: Result<bool>)
      requires Valid()
      modifies this, extractor, muxer, muxer.byteBuffer, muxer.byteBuffer.data, buffer, buffer.data, bufferInfo
      ensures Valid()
      ensures old(isEOS) ==>
        && r == Ok(false) && isEOS && writtenPresentationTimeUs == old(writtenPresentationTimeUs)
        && extractor.cursor == old(extractor.cursor) && muxer.View() == old(muxer.View())
      ensures !old(isEOS) && old(extractor.cursor) == |extractor.script| ==>
        && r == Ok(true) && isEOS && writtenPresentationTimeUs == old(writtenPresentationTimeUs)
        && extractor.cursor == old(extractor.cursor)
        && bufferInfo.offset == 0 && bufferInfo.size == 0 && bufferInfo.presentationTimeUs == 0
        && bufferInfo.flags == BUFFER_FLAG_END_OF_STREAM
        && Accepted(old(muxer.View()), muxer.View(), sampleType, buffer.data[..], 0, 0, 0, BUFFER_FLAG_END_OF_STREAM, bufferInfo)
      ensures !old(isEOS) && old(extractor.cursor) < |extractor.script|
              && old(extractor.script[extractor.cursor].trackIndex) != trackIndex ==>
        && r == Ok(false) && !isEOS && writtenPresentationTimeUs == old(writtenPresentationTimeUs)
        && extractor.cursor == old(extractor.cursor) && muxer.View() == old(muxer.View())
      ensures !old(isEOS) && old(extractor.cursor) < |extractor.script|
              && old(extractor.script[extractor.cursor].trackIndex) == trackIndex ==>
        ForwardedSample(old(extractor.script[extractor.cursor]), old(extractor.cursor), old(writtenPresentationTimeUs),
                        old(muxer.View()), old(SizeSum(muxer.sampleInfoList)), r)
    {
      if isEOS {
        return Ok(false);
      }
      var sampleTrackIndex := extractor.SampleTrackIndex();
      if sampleTrackIndex < 0 {
        WriteEndOfStream();
        return Ok(true);
      }
      if sampleTrackIndex != trackIndex {
        return Ok(false);
      }
      r := ForwardSample();
    }

    /** The outcome of forwarding `sample`, read at `cursor`, from a muxer observed as `before`
        holding `heldBytes` bytes: a sample larger than the buffer makes `readSampleData` throw,
        one that overflows the staging buffer makes the muxer throw; otherwise the sample is
        in the buffer, stamped with its size, time and sync flag, accepted by the muxer, the
        written time follows it and the extractor has advanced. */
    ghost predicate ForwardedSample(sample: ExtractedSample, cursor: nat, writtenBefore: int, before: MuxerView,
                                    heldBytes: int, r: Result<bool>)
      reads this, extractor, muxer, muxer.byteBuffer, muxer.byteBuffer.data, buffer, buffer.data, bufferInfo
      requires Valid()
    {
      var n := |sample.contents|;
      && !isEOS
      && (r == Err(IllegalArgument) <==> n > bufferSize as int)
      && (n <= bufferSize as int ==>
            (r.Err? <==> !before.started && heldBytes + n > STAGING_CAPACITY))
      && (n <= bufferSize as int && r.Err? ==> r.error == BufferOverflow)
      && (r.Ok? ==>
            && r.value && extractor.cursor == cursor + 1
            && writtenPresentationTimeUs == sample.sampleTime
            && buffer.data[..n] == sample.contents
            && bufferInfo.offset == 0 && bufferInfo.size as int == n
            && bufferInfo.presentationTimeUs == sample.sampleTime
            && bufferInfo.flags == KeyFrameFlags(sample.sampleFlags)
            && Accepted(before, muxer.View(), sampleType, buffer.data[..], 0, n as int32, sample.sampleTime,
                        KeyFrameFlags(sample.sampleFlags), bufferInfo))
      && (r.Err? ==> writtenPresentationTimeUs == writtenBefore && extractor.cursor == cursor
                      && muxer.View() == before)
    }

    /** The exhausted-extractor branch of `stepPipeline`; the empty sample always fits. */
    method WriteEndOfStream()
      requires Valid() && !isEOS && extractor.cursor == |extractor.script|
      modifies this, muxer, muxer.byteBuffer, muxer.byteBuffer.data, buffer, bufferInfo
      ensures Valid()
      ensures isEOS && writtenPresentationTimeUs == old(writtenPresentationTimeUs)
      ensures bufferInfo.offset == 0 && bufferInfo.size == 0 && bufferInfo.presentationTimeUs == 0
      ensures bufferInfo.flags == BUFFER_FLAG_END_OF_STREAM
      ensures Accepted(old(muxer.View()), muxer.View(), sampleType, buffer.data[..], 0, 0, 0, BUFFER_FLAG_END_OF_STREAM, bufferInfo)
    {
      buffer.Clear();
      bufferInfo.Set(0, 0, 0, BUFFER_FLAG_END_OF_STREAM);
      assert SizeSum(muxer.sampleInfoList) <= STAGING_CAPACITY;
      var written := muxer.WriteSampleData(sampleType, buffer, bufferInfo);
      isEOS := true;
    }

    /** The own-track branch of `stepPipeline`: read, stamp, forward, advance. */
    method ForwardSample() returns (r: Result<bool>)
      requires Valid() && !isEOS && extractor.cursor < |extractor.script|
      requires extractor.script[extractor.cursor].trackIndex == trackIndex
      modifies this, extractor, muxer, muxer.byteBuffer, muxer.byteBuffer.data, buffer, buffer.data, bufferInfo
      ensures Valid()
      ensures ForwardedSample(old(extractor.script[extractor.cursor]), old(extractor.cursor), old(writtenPresentationTimeUs),
                              old(muxer.View()), old(SizeSum(muxer.sampleInfoList)), r)
    {
      var read := ReadAndStamp();
      if read.Err? {
        return Err(read.error);
      }
      var written := muxer.WriteSampleData(sampleType, buffer, bufferInfo);
      if written.Err? {
        return Err(written.error);
      }
      writtenPresentationTimeUs := bufferInfo.presentationTimeUs;
      extractor.Advance();
      r := Ok(true);
    }

    /** `clear`, `readSampleData(mBuffer, 0)` and `mBufferInfo.set(0, size, sampleTime, flags)`. */
    method ReadAndStamp() returns (r: Result<int32>)
      requires Valid() && extractor.cursor < |extractor.script|
      modifies buffer, buffer.data, bufferInfo
      ensures Valid()
      ensures var sample := extractor.script[extractor.cursor];
        var n := |sample.contents|;
        && (r.Err? <==> n > bufferSize as int)
        && (r.Err? ==> r.error == IllegalArgument)
        && (r.Ok? ==>
              && r.value as int == n && buffer.data[..n] == sample.contents
              && buffer.position == 0 && buffer.limit == n
              && bufferInfo.offset == 0 && bufferInfo.size as int == n
              && bufferInfo.presentationTimeUs == sample.sampleTime
              && bufferInfo.flags == KeyFrameFlags(sample.sampleFlags))
    {
      buffer.Clear();
      var read := extractor.ReadSampleData(buffer, 0);
      if read.Err? {
        return Err(read.error);
      }
      var sampleSize := read.value;
      assert sampleSize <= bufferSize as int;
      var flags := KeyFrameFlags(extractor.SampleFlags());
      bufferInfo.Set(0, sampleSize as int32, extractor.SampleTime(), flags);
      r := Ok(sampleSize as int32);
    }
  }

  /** Whether constructing a `PassThroughTrackTranscoder` over `trackFormats` succeeds, and with
      which buffer size: an index outside the tracks makes `getTrackFormat` throw, a format
      without an integer `KEY_MAX_INPUT_SIZE` makes the read throw, and a negative size makes
      `allocateDirect` throw. */
  function PassThroughBufferSize(trackFormats: seq<MediaFormat>, trackIndex: int): (r: Result<int32>)
    ensures !(0 <= trackIndex < |trackFormats|) ==> r == Err(IllegalArgument)
    ensures 0 <= trackIndex < |trackFormats| && KeyMaxInputSize !in trackFormats[trackIndex] ==>
      r == Err(MissingFormatKey(KeyMaxInputSize))
    ensures r.Ok? ==>
      && 0 <= trackIndex < |trackFormats| && r.value >= 0
      && KeyMaxInputSize in trackFormats[trackIndex]
      && trackFormats[trackIndex][KeyMaxInputSize] == IntValue(r.value)
  {
    if !(0 <= trackIndex < |trackFormats|) then Err(IllegalArgument)
    else
      match GetInteger(trackFormats[trackIndex], KeyMaxInputSize)
      case Err(e) => Err(e)
      case Ok(n) => if n < 0 then Err(IllegalArgument) else Ok(n)
  }

  /** `init` of `PassThroughTrackTranscoder`: fetches the track's format (an index outside the
      tracks throws), registers it unchanged with the muxer under the transcoder's type (the
      writer would assign `newTrackIndex`), reads `KEY_MAX_INPUT_SIZE` (missing: throws) and
      allocates a buffer of that size (negative: throws). */
  method NewPassThroughTrackTranscoder(extractor: MediaExtractor, trackIndex: int, muxer: QueuedMuxer,
                                       sampleType: SampleType, newTrackIndex: int)
      returns (r: Result<PassThroughTrackTranscoder>)
    requires extractor.Valid() && muxer.Valid()
    modifies muxer, muxer.byteBuffer
    ensures muxer.Valid()
    ensures r.Err? <==> PassThroughBufferSize(extractor.trackFormats, trackIndex).Err?
    ensures r.Err? ==> r.error == PassThroughBufferSize(extractor.trackFormats, trackIndex).error
    ensures r.Ok? ==> r.value.bufferSize == PassThroughBufferSize(extractor.trackFormats, trackIndex).value
    ensures !(0 <= trackIndex < |extractor.trackFormats|) ==>
      r == Err(IllegalArgument) && muxer.writerCalls == old(muxer.writerCalls)
      && muxer.videoFormat == old(muxer.videoFormat) && muxer.audioFormat == old(muxer.audioFormat)
    ensures 0 <= trackIndex < |extractor.trackFormats| ==>
      var format := extractor.trackFormats[trackIndex];
      && muxer.OutputFormatSet(sampleType, format, newTrackIndex)
      && (GetInteger(format, KeyMaxInputSize).Err? ==> r == Err(MissingFormatKey(KeyMaxInputSize)))
      && (GetInteger(format, KeyMaxInputSize).Ok? ==>
            var bufferSize := GetInteger(format, KeyMaxInputSize).value;
            && (r.Err? <==> bufferSize < 0)
            && (r.Err? ==> r.error == IllegalArgument)
            && (r.Ok? ==>
                  var t := r.value;
                  && fresh(t) && fresh(t.buffer) && fresh(t.buffer.data) && fresh(t.bufferInfo) && t.Valid()
                  && t.extractor == extractor && t.muxer == muxer && t.trackIndex == trackIndex
                  && t.sampleType == sampleType && t.format == format && t.bufferSize == bufferSize
                  && t.buffer.data.Length == bufferSize as int
                  && t.writtenPresentationTimeUs == 0 && !t.isEOS))
  {
    var fetched := extractor.GetTrackFormat(trackIndex);
    if fetched.Err? {
      return Err(fetched.error);
    }
    var format := fetched.value;
    muxer.SetOutputFormat(sampleType, format, newTrackIndex);
    var maxInputSize := GetInteger(format, KeyMaxInputSize);
    if maxInputSize.Err? {
      return Err(maxInputSize.error);
    }
    var bufferSize := maxInputSize.value;
    if bufferSize < 0 {
      return Err(IllegalArgument);
    }
    var t := new PassThroughTrackTranscoder(extractor, trackIndex, muxer, sampleType, format, bufferSize);
    r := Ok(t);
  }
}
