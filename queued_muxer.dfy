/** `QueuedMuxer`: holds encoded samples in a staging buffer until both track formats are
    known, then adds the track, starts the writer and replays the held samples in order. */
module Muxer {
  import opened Common

  datatype SampleType = Video | Audio

  /** `SampleInfo`: the sample type and size are copied, the caller's `BufferInfo` is kept
      by reference. */
  datatype SampleInfo = SampleInfo(sampleType: SampleType, size: int32, bufferInfo: BufferInfo)

  /** The calls the queued muxer makes on the underlying `MediaMuxer`, in order. A written
      sample records the contents of the buffer passed (the whole backing array for a direct
      write, the staging buffer up to its limit for a replayed one) and the `BufferInfo`
      values at the moment of the call. */
  datatype WriterCall =
    | AddTrack(format: MediaFormat)
    | Start
    | WriteSample(trackIndex: int, contents: seq<byte>, offset: int, size: int, presentationTimeUs: int, flags: Flags)

  /** Capacity of the staging buffer allocated by the first early write. */
  const STAGING_CAPACITY: nat := 64 * 1024

  /** The sum of the sizes of `samples`: the staging offset of the sample after them. */
  function SizeSum(samples: seq<SampleInfo>): int {
    if samples == [] then 0 else SizeSum(samples[..|samples| - 1]) + samples[|samples| - 1].size as int
  }

  predicate SizesNonNegative(samples: seq<SampleInfo>) {
    forall i :: 0 <= i < |samples| ==> samples[i].size >= 0
  }

  /** With no negative size, every prefix of `samples` sums to at most the whole. */
  lemma {:induction false} SizeSumPrefix(samples: seq<SampleInfo>, n: nat)
    requires SizesNonNegative(samples) && n <= |samples|
    ensures 0 <= SizeSum(samples[..n]) <= SizeSum(samples)
    decreases |samples|
  {
    if n == |samples| {
      assert samples[..n] == samples;
      if n > 0 {
        SizeSumPrefix(samples[..n - 1], n - 1);
        assert samples[..n - 1][..n - 1] == samples[..n - 1];
      }
    } else {
      var earlier := samples[..|samples| - 1];
      assert SizesNonNegative(earlier);
      SizeSumPrefix(earlier, n);
      assert earlier[..n] == samples[..n];
      SizeSumPrefix(earlier, |earlier|);
      assert earlier[..|earlier|] == earlier;
    }
  }

  /** `getTrackIndexForSampleType` on the two recorded indices. */
  function TrackFor(sampleType: SampleType, videoTrackIndex: Option<int>, audioTrackIndex: Option<int>): Option<int> {
    match sampleType
    case Video => videoTrackIndex
    case Audio => audioTrackIndex
  }

  /** What a caller of the muxer can observe: whether it started, the track indices, the
      writer calls so far, the held samples and the staged bytes. */
  datatype MuxerView = MuxerView(started: bool, videoTrackIndex: Option<int>, audioTrackIndex: Option<int>,
                             writerCalls: seq<WriterCall>, held: seq<SampleInfo>, staged: seq<byte>)

  /** One accepted `writeSampleData` of `size` bytes at `offset` in a buffer holding
      `contents`, with `info` describing it: once started it reaches the writer under its
      type's index (or is dropped without one); before, it is held by reference to `info`
      and its bytes are staged. */
  ghost predicate Accepted(before: MuxerView, after: MuxerView, sampleType: SampleType, contents: seq<byte>,
                           offset: int32, size: int32, presentationTimeUs: int, flags: Flags, info: BufferInfo)
  {
    && after.started == before.started
    && after.videoTrackIndex == before.videoTrackIndex && after.audioTrackIndex == before.audioTrackIndex
    && (before.started ==>
          && after.held == before.held
          && after.writerCalls == before.writerCalls +
               match TrackFor(sampleType, before.videoTrackIndex, before.audioTrackIndex)
               case None => []
               case Some(track) => [WriteSample(track, contents, offset as int, size as int, presentationTimeUs, flags)])
    && (!before.started ==>
          && 0 <= offset as int <= offset as int + size as int <= |contents|
          && after.writerCalls == before.writerCalls
          && after.held == before.held + [SampleInfo(sampleType, size, info)]
          && after.staged == before.staged + contents[offset..offset as int + size as int])
  }

  /** The pts and flags a sample's `BufferInfo` holds at some moment. */
  datatype Stamp = Stamp(presentationTimeUs: int, flags: Flags)

  /** The `BufferInfo` values of `samples`, read now: the callers may have changed them since
      the samples were held. */
  ghost function Stamps(samples: seq<SampleInfo>): seq<Stamp>
    reads set s | s in samples :: s.bufferInfo
  {
    seq(|samples|, i requires 0 <= i < |samples| reads if 0 <= i < |samples| then {samples[i].bufferInfo} else {} =>
      Stamp(samples[i].bufferInfo.presentationTimeUs, samples[i].bufferInfo.flags))
  }

  /** The writer calls made by replaying `samples` over the staged bytes `staged`, when their
      `BufferInfo`s hold `stamps`: each sample is written at the running offset with its own
      size and its stamp; a sample whose track has no index is skipped. */
  function Replay(samples: seq<SampleInfo>, stamps: seq<Stamp>, staged: seq<byte>,
                  videoTrackIndex: Option<int>, audioTrackIndex: Option<int>): seq<WriterCall>
    requires |stamps| == |samples|
  {
    if samples == [] then []
    else
      var n := |samples| - 1;
      Replay(samples[..n], stamps[..n], staged, videoTrackIndex, audioTrackIndex) +
      match TrackFor(samples[n].sampleType, videoTrackIndex, audioTrackIndex)
      case None => []
      case Some(track) =>
        [WriteSample(track, staged, SizeSum(samples[..n]), samples[n].size as int, stamps[n].presentationTimeUs, stamps[n].flags)]
  }

  /** Replaying one more sample appends at most its own write. */
  lemma ReplayStep(samples: seq<SampleInfo>, stamps: seq<Stamp>, i: nat, staged: seq<byte>,
                   videoTrackIndex: Option<int>, audioTrackIndex: Option<int>)
    requires |stamps| == |samples| && i < |samples|
    ensures Replay(samples[..i + 1], stamps[..i + 1], staged, videoTrackIndex, audioTrackIndex) ==
      Replay(samples[..i], stamps[..i], staged, videoTrackIndex, audioTrackIndex) +
      match TrackFor(samples[i].sampleType, videoTrackIndex, audioTrackIndex)
      case None => []
      case Some(track) =>
        [WriteSample(track, staged, SizeSum(samples[..i]), samples[i].size as int, stamps[i].presentationTimeUs, stamps[i].flags)]
  {
    assert samples[..i + 1][..i] == samples[..i];
    assert stamps[..i + 1][..i] == stamps[..i];
  }

  /** The number of `samples` whose type has a track index. */
  function IndexedCount(samples: seq<SampleInfo>, videoTrackIndex: Option<int>, audioTrackIndex: Option<int>): nat {
    if samples == [] then 0
    else
      IndexedCount(samples[..|samples| - 1], videoTrackIndex, audioTrackIndex) +
      (if TrackFor(samples[|samples| - 1].sampleType, videoTrackIndex, audioTrackIndex).Some? then 1 else 0)
  }

  /** With both track indices known, the replay writes every held sample, in insertion order,
      at the offset given by the sizes before it, with its own size and its stamp. */
  lemma {:induction false} ReplayWritesAll(samples: seq<SampleInfo>, stamps: seq<Stamp>, staged: seq<byte>, videoTrack: int, audioTrack: int)
    requires |stamps| == |samples|
    ensures var calls := Replay(samples, stamps, staged, Some(videoTrack), Some(audioTrack));
      && |calls| == |samples|
      && forall j :: 0 <= j < |samples| ==>
           calls[j] == WriteSample(if samples[j].sampleType == Video then videoTrack else audioTrack, staged,
                                   SizeSum(samples[..j]), samples[j].size as int,
                                   stamps[j].presentationTimeUs, stamps[j].flags)
  {
    if samples != [] {
      var n := |samples| - 1;
      var earlier := Replay(samples[..n], stamps[..n], staged, Some(videoTrack), Some(audioTrack));
      var calls := Replay(samples, stamps, staged, Some(videoTrack), Some(audioTrack));
      ReplayWritesAll(samples[..n], stamps[..n], staged, videoTrack, audioTrack);
      assert calls == earlier + [WriteSample(if samples[n].sampleType == Video then videoTrack else audioTrack, staged,
                                             SizeSum(samples[..n]), samples[n].size as int,
                                             stamps[n].presentationTimeUs, stamps[n].flags)];
      forall j | 0 <= j < |samples|
        ensures calls[j] == WriteSample(if samples[j].sampleType == Video then videoTrack else audioTrack, staged,
                                        SizeSum(samples[..j]), samples[j].size as int,
                                        stamps[j].presentationTimeUs, stamps[j].flags)
      {
        if j < n {
          assert calls[j] == earlier[j];
          assert samples[..n][j] == samples[j] && stamps[..n][j] == stamps[j];
          assert samples[..n][..j] == samples[..j];
        }
      }
    }
  }

  /** The replay writes exactly the held samples whose type has a track index, and only
      under a recorded index: with one index missing, that type's samples are lost. */
  lemma {:induction false} ReplaySkipsUnindexed(samples: seq<SampleInfo>, stamps: seq<Stamp>, staged: seq<byte>,
                                                videoTrackIndex: Option<int>, audioTrackIndex: Option<int>)
    requires |stamps| == |samples|
    ensures var calls := Replay(samples, stamps, staged, videoTrackIndex, audioTrackIndex);
      && |calls| == IndexedCount(samples, videoTrackIndex, audioTrackIndex)
      && forall k :: 0 <= k < |calls| ==>
           calls[k].WriteSample? && (Some(calls[k].trackIndex) == videoTrackIndex || Some(calls[k].trackIndex) == audioTrackIndex)
  {
    if samples != [] {
      var n := |samples| - 1;
      ReplaySkipsUnindexed(samples[..n], stamps[..n], staged, videoTrackIndex, audioTrackIndex);
    }
  }

  /** Held samples that share one `BufferInfo` object (as a transcoder reusing its
      `BufferInfo` produces) are all replayed with that object's current pts and flags,
      whatever pts each had when it was held. */
  lemma ReplaySharedBufferInfo(samples: seq<SampleInfo>, shared: BufferInfo, staged: seq<byte>, videoTrack: int, audioTrack: int)
    requires forall i :: 0 <= i < |samples| ==> samples[i].bufferInfo == shared
    ensures var calls := Replay(samples, Stamps(samples), staged, Some(videoTrack), Some(audioTrack));
      && |calls| == |samples|
      && forall k :: 0 <= k < |calls| ==>
           calls[k].WriteSample? && calls[k].presentationTimeUs == shared.presentationTimeUs && calls[k].flags == shared.flags
  {
    ReplayWritesAll(samples, Stamps(samples), staged, videoTrack, audioTrack);
  }

  /** Every replayed write lies within the staged bytes when the held sizes add up to at most them. */
  lemma {:induction false} ReplayWithinStaged(samples: seq<SampleInfo>, stamps: seq<Stamp>, staged: seq<byte>,
                                                    videoTrackIndex: Option<int>, audioTrackIndex: Option<int>)
    requires |stamps| == |samples| && SizesNonNegative(samples) && SizeSum(samples) <= |staged|
    ensures forall call <- Replay(samples, stamps, staged, videoTrackIndex, audioTrackIndex) ::
      && call.WriteSample? && call.contents == staged && 0 <= call.offset && 0 <= call.size
      && call.offset + call.size <= |staged|
  {
    if samples != [] {
      var n := |samples| - 1;
      SizeSumPrefix(samples, n);
      assert SizesNonNegative(samples[..n]);
      ReplayWithinStaged(samples[..n], stamps[..n], staged, videoTrackIndex, audioTrackIndex);
      assert samples[n].size >= 0;
    }
  }

  /** `buffer.limit(offset + size)` then `buffer.position(offset)`, the sum taken in `Int`;
      false where either call throws `IllegalArgumentException`. */
  method Narrow(buffer: ByteBuffer, offset: int32, size: int32) returns (ok: bool)
    requires buffer.Valid() && buffer.data.Length <= INT_MAX
    modifies buffer
    ensures buffer.Valid()
    ensures ok <==> 0 <= offset as int <= offset as int + size as int <= buffer.data.Length
    ensures ok ==> buffer.position == offset as int && buffer.limit == offset as int + size as int
  {
    var end := Wrap32(offset as int + size as int);
    if end < 0 || end > buffer.data.Length {
      return false;
    }
    buffer.SetLimit(end);
    if offset < 0 || offset as int > end {
      return false;
    }
    buffer.SetPosition(offset as int);
    ok := true;
  }

  /** `SampleInfo.writeToBufferInfo`. */
  method WriteToBufferInfo(sample: SampleInfo, target: BufferInfo, offset: int32)
    modifies target
    ensures target.offset == offset && target.size == sample.size
    ensures target.presentationTimeUs == old(sample.bufferInfo.presentationTimeUs)
    ensures target.flags == old(sample.bufferInfo.flags)
  {
    target.Set(offset, sample.size, sample.bufferInfo.presentationTimeUs, sample.bufferInfo.flags);
  }

  /** The replay loop of `setOutputFormat`: one reused `BufferInfo` is set from each held
      sample at the running offset and the staging buffer is written under the sample's track,
      if that track has an index. */
  method ReplayHeld(samples: seq<SampleInfo>, buff: ByteBuffer, videoTrackIndex: Option<int>, audioTrackIndex: Option<int>)
    returns (calls: seq<WriterCall>)
    requires buff.Valid() && SizesNonNegative(samples) && SizeSum(samples) <= STAGING_CAPACITY
    ensures calls == Replay(samples, Stamps(samples), buff.data[..buff.limit], videoTrackIndex, audioTrackIndex)
  {
    calls := [];
    ghost var stamps, staged := Stamps(samples), buff.data[..buff.limit];
    var bufferInfo := new BufferInfo();
    var offset: int32 := 0;
    for i := 0 to |samples|
      invariant offset as int == SizeSum(samples[..i])
      invariant calls == Replay(samples[..i], stamps[..i], staged, videoTrackIndex, audioTrackIndex)
    {
      ReplayStep(samples, stamps, i, staged, videoTrackIndex, audioTrackIndex);
      var sample := samples[i];
      WriteToBufferInfo(sample, bufferInfo, offset);
      var track := TrackFor(sample.sampleType, videoTrackIndex, audioTrackIndex);
      if track.Some? {
        calls := calls + [WriteSample(track.value, buff.data[..buff.limit], bufferInfo.offset as int,
                                      bufferInfo.size as int, bufferInfo.presentationTimeUs, bufferInfo.flags)];
      }
      assert samples[..i + 1][..i] == samples[..i];
      SizeSumPrefix(samples, i + 1);
      offset := Wrap32(offset as int + sample.size as int);
    }
    assert samples[..|samples|] == samples && stamps[..|stamps|] == stamps;
  }

  /** The staging part of `setOutputFormat`: flip the staging buffer, replay the held samples
      over it, then clear it. */
  method FlipAndReplay(samples: seq<SampleInfo>, buff: ByteBuffer, videoTrackIndex: Option<int>, audioTrackIndex: Option<int>)
    returns (calls: seq<WriterCall>)
    requires buff.Valid() && SizesNonNegative(samples) && SizeSum(samples) <= STAGING_CAPACITY
    modifies buff
    ensures buff.Valid()
    ensures buff.position == 0 && buff.limit == buff.data.Length
    ensures calls == Replay(samples, old(Stamps(samples)), old(buff.data[..buff.position]), videoTrackIndex, audioTrackIndex)
  {
    ghost var stamps := Stamps(samples);
    buff.Flip();
    assert Stamps(samples) == stamps;
    calls := ReplayHeld(samples, buff, videoTrackIndex, audioTrackIndex);
    buff.Clear();
  }

  class QueuedMuxer {
    /** The staging buffer. The object exists from construction; `byteBufferAllocated`
        records whether `mByteBuffer` would be non-null. */
    const byteBuffer: ByteBuffer
    var byteBufferAllocated: bool
    var audioTrackIndex: Option<int>
    var videoTrackIndex: Option<int>
    /** `muxerStarted`: `null` and `false` behave alike, and only `true` is ever assigned. */
    var muxerStarted: bool
    var sampleInfoList: seq<SampleInfo>
    var videoFormat: Option<MediaFormat>
    var audioFormat: Option<MediaFormat>
    /** The calls made on the underlying `MediaMuxer` so far. */
    var writerCalls: seq<WriterCall>

    /** Before the start, the held samples' sizes add up to the staging position, the
        staging limit is at its 64 KiB capacity and nothing is held until the buffer is
        allocated; after the start nothing is held. */
    ghost predicate Valid()
      reads this, byteBuffer
    {
      && byteBuffer.Valid() && byteBuffer.data.Length == STAGING_CAPACITY
      && SizesNonNegative(sampleInfoList)
      && (muxerStarted ==> sampleInfoList == [] && byteBufferAllocated)
      && (!muxerStarted ==>
            && (!byteBufferAllocated ==> sampleInfoList == [])
            && byteBuffer.limit == STAGING_CAPACITY
            && byteBuffer.position == SizeSum(sampleInfoList))
    }

    /** The bytes held in the staging buffer. */
    ghost function Staged(): seq<byte>
      reads this, byteBuffer, byteBuffer.data
      requires Valid()
    {
      byteBuffer.data[..byteBuffer.position]
    }

    ghost function View(): MuxerView
      reads this, byteBuffer, byteBuffer.data
      requires Valid()
    {
      MuxerView(muxerStarted, videoTrackIndex, audioTrackIndex, writerCalls, sampleInfoList, Staged())
    }

    constructor ()
      ensures Valid() && fresh(byteBuffer) && fresh(byteBuffer.data)
      ensures !byteBufferAllocated && audioTrackIndex == None && videoTrackIndex == None
      ensures !muxerStarted && sampleInfoList == [] && videoFormat == None && audioFormat == None
      ensures writerCalls == []
    {
      byteBuffer := new ByteBuffer.Allocate(STAGING_CAPACITY);
      byteBufferAllocated := false;
      audioTrackIndex, videoTrackIndex := None, None;
      muxerStarted := false;
      sampleInfoList := [];
      videoFormat, audioFormat := None, None;
      writerCalls := [];
    }

    /** What `setOutputFormat(sampleType, mediaFormat)` leaves behind: the format recorded for
        its type; while the other type's format is still missing nothing else changes;
        otherwise a track is added for THIS type only (the writer assigns `newTrackIndex`), the
        writer is started, the held samples are replayed with the stamps their `BufferInfo`s
        held before, and the list and the staging buffer are emptied. */
    twostate predicate OutputFormatSet(sampleType: SampleType, mediaFormat: MediaFormat, newTrackIndex: int)
      requires old(Valid()) && Valid()
      reads this, byteBuffer, byteBuffer.data
    {
      && (sampleType == Video ==> videoFormat == Some(mediaFormat) && audioFormat == old(audioFormat))
      && (sampleType == Audio ==> audioFormat == Some(mediaFormat) && videoFormat == old(videoFormat))
      && ((sampleType == Video && old(audioFormat).None?) || (sampleType == Audio && old(videoFormat).None?) ==>
            && writerCalls == old(writerCalls) && muxerStarted == old(muxerStarted)
            && videoTrackIndex == old(videoTrackIndex) && audioTrackIndex == old(audioTrackIndex)
            && sampleInfoList == old(sampleInfoList) && byteBufferAllocated == old(byteBufferAllocated)
            && Staged() == old(Staged()))
      && ((sampleType == Video && old(audioFormat).Some?) || (sampleType == Audio && old(videoFormat).Some?) ==>
            && (sampleType == Video ==> videoTrackIndex == Some(newTrackIndex) && audioTrackIndex == old(audioTrackIndex))
            && (sampleType == Audio ==> audioTrackIndex == Some(newTrackIndex) && videoTrackIndex == old(videoTrackIndex))
            && muxerStarted && sampleInfoList == [] && byteBufferAllocated
            && byteBuffer.position == 0 && byteBuffer.limit == byteBuffer.data.Length
            && writerCalls == old(writerCalls) + [AddTrack(mediaFormat), Start] +
                              Replay(old(sampleInfoList), old(Stamps(sampleInfoList)), old(Staged()), videoTrackIndex, audioTrackIndex))
    }

    /** `setOutputFormat`: see `OutputFormatSet`. */
    method SetOutputFormat(sampleType: SampleType, mediaFormat: MediaFormat, newTrackIndex: int)
      requires Valid()
      modifies this, byteBuffer
      ensures Valid()
      ensures OutputFormatSet(sampleType, mediaFormat, newTrackIndex)
    {
      if sampleType == Video {
        videoFormat := Some(mediaFormat);
      } else {
        audioFormat := Some(mediaFormat);
      }
      if videoFormat.None? || audioFormat.None? {
        return;
      }
      if sampleType == Audio {
        audioTrackIndex := Some(newTrackIndex);
      } else {
        videoTrackIndex := Some(newTrackIndex);
      }
      StartAndReplay(mediaFormat);
    }

    /** The second half of `setOutputFormat`, once the new track index is recorded. A staging
        buffer never allocated (`allocate(0)` in the source) holds nothing to replay. */
    method StartAndReplay(mediaFormat: MediaFormat)
      requires Valid()
      modifies this, byteBuffer
      ensures Valid()
      ensures videoFormat == old(videoFormat) && audioFormat == old(audioFormat)
      ensures videoTrackIndex == old(videoTrackIndex) && audioTrackIndex == old(audioTrackIndex)
      ensures muxerStarted && sampleInfoList == [] && byteBufferAllocated
      ensures byteBuffer.position == 0 && byteBuffer.limit == byteBuffer.data.Length
      ensures writerCalls == old(writerCalls) + [AddTrack(mediaFormat), Start] +
                             Replay(old(sampleInfoList), old(Stamps(sampleInfoList)), old(Staged()), videoTrackIndex, audioTrackIndex)
    {
      writerCalls := writerCalls + [AddTrack(mediaFormat), Start];
      muxerStarted := true;
      byteBufferAllocated := true;
      var replayed := FlipAndReplay(sampleInfoList, byteBuffer, videoTrackIndex, audioTrackIndex);
      writerCalls := writerCalls + replayed;
      sampleInfoList := [];
    }

    /** `writeSampleData`. Once started, the sample goes straight to the writer under its type's
        track index, or is dropped when that index is null. Before the start it is held (see
        `Hold`) and nothing reaches the writer. */
    method WriteSampleData(sampleType: SampleType, buffer: ByteBuffer, bufferInfo: BufferInfo) returns (r: Result<()>)
      requires Valid() && buffer.Valid() && buffer.data.Length <= INT_MAX && buffer != byteBuffer && buffer.data != byteBuffer.data
      modifies this, byteBuffer, byteBuffer.data, buffer
      ensures Valid()
      ensures videoFormat == old(videoFormat) && audioFormat == old(audioFormat)
      ensures buffer.Valid() && buffer.data[..] == old(buffer.data[..])
      ensures var offset, end := old(bufferInfo.offset) as int, old(bufferInfo.offset) as int + old(bufferInfo.size) as int;
        && (r.Err? <==> !old(muxerStarted) &&
                        (!(0 <= offset <= end <= buffer.data.Length) || SizeSum(old(sampleInfoList)) + old(bufferInfo.size) as int > STAGING_CAPACITY))
        && (r.Err? ==> (r.error == IllegalArgument <==> !(0 <= offset <= end <= buffer.data.Length)))
        && (r.Err? ==> (r.error == IllegalArgument || r.error == BufferOverflow) && View() == old(View()))
        && (r.Ok? ==> Accepted(old(View()), View(), sampleType, buffer.data[..], old(bufferInfo.offset), old(bufferInfo.size),
                               old(bufferInfo.presentationTimeUs), old(bufferInfo.flags), bufferInfo))
        && (old(muxerStarted) ==> buffer.position == old(buffer.position) && buffer.limit == old(buffer.limit))
        && (!old(muxerStarted) && r.Ok? ==> buffer.position == end && buffer.limit == end)
    {
      if muxerStarted {
        var track := TrackIndexForSampleType(sampleType);
        if track.Some? {
          writerCalls := writerCalls + [WriteSample(track.value, buffer.data[..], bufferInfo.offset as int, bufferInfo.size as int,
                                                    bufferInfo.presentationTimeUs, bufferInfo.flags)];
        }
        return Ok(());
      }
      r := Hold(sampleType, buffer, bufferInfo);
    }

    /** The early half of `writeSampleData`: the caller's buffer is narrowed to
        [offset, offset + size) with `Int` arithmetic (the JVM throws for a range outside the
        buffer), then its bytes are staged. */
    method Hold(sampleType: SampleType, buffer: ByteBuffer, bufferInfo: BufferInfo) returns (r: Result<()>)
      requires Valid() && !muxerStarted
      requires buffer.Valid() && buffer.data.Length <= INT_MAX && buffer != byteBuffer && buffer.data != byteBuffer.data
      modifies this, byteBuffer, byteBuffer.data, buffer
      ensures Valid()
      ensures videoFormat == old(videoFormat) && audioFormat == old(audioFormat) && !muxerStarted
      ensures videoTrackIndex == old(videoTrackIndex) && audioTrackIndex == old(audioTrackIndex)
      ensures writerCalls == old(writerCalls)
      ensures buffer.Valid() && buffer.data[..] == old(buffer.data[..])
      ensures var offset, end := old(bufferInfo.offset) as int, old(bufferInfo.offset) as int + old(bufferInfo.size) as int;
        && (r == Err(IllegalArgument) <==> !(0 <= offset <= end <= buffer.data.Length))
        && (r == Err(BufferOverflow) <==>
              0 <= offset <= end <= buffer.data.Length && SizeSum(old(sampleInfoList)) + old(bufferInfo.size) as int > STAGING_CAPACITY)
        && (r.Err? ==> (r.error == IllegalArgument || r.error == BufferOverflow) && sampleInfoList == old(sampleInfoList) && Staged() == old(Staged()))
        && (r.Ok? ==>
              && sampleInfoList == old(sampleInfoList) + [SampleInfo(sampleType, old(bufferInfo.size), bufferInfo)]
              && Staged() == old(Staged()) + buffer.data[offset..end]
              && buffer.position == end && buffer.limit == end)
    {
      var offset, size := bufferInfo.offset, bufferInfo.size;
      var inRange := Narrow(buffer, offset, size);
      if !inRange {
        return Err(IllegalArgument);
      }
      r := Stage(sampleType, buffer, bufferInfo, size);
    }

    /** Appends `buffer`'s remaining bytes to the staging buffer (allocating it at 64 KiB on
        first use), then holds the sample; `BufferOverflowException` when they do not fit. */
    method Stage(sampleType: SampleType, buffer: ByteBuffer, bufferInfo: BufferInfo, size: int32) returns (r: Result<()>)
      requires Valid() && !muxerStarted
      requires buffer.Valid() && buffer != byteBuffer && buffer.data != byteBuffer.data
      requires buffer.limit - buffer.position == size as int
      modifies this, byteBuffer, byteBuffer.data, buffer
      ensures Valid()
      ensures videoFormat == old(videoFormat) && audioFormat == old(audioFormat) && !muxerStarted
      ensures videoTrackIndex == old(videoTrackIndex) && audioTrackIndex == old(audioTrackIndex)
      ensures writerCalls == old(writerCalls)
      ensures buffer.Valid() && buffer.data[..] == old(buffer.data[..]) && buffer.limit == old(buffer.limit)
      ensures r.Err? <==> SizeSum(old(sampleInfoList)) + size as int > STAGING_CAPACITY
      ensures r.Err? ==> r.error == BufferOverflow && sampleInfoList == old(sampleInfoList) && Staged() == old(Staged())
      ensures r.Ok? ==>
        && sampleInfoList == old(sampleInfoList) + [SampleInfo(sampleType, size, bufferInfo)]
        && Staged() == old(Staged()) + old(buffer.data[buffer.position..buffer.limit])
        && buffer.position == buffer.limit
    {
      byteBufferAllocated := true;
      var ok := byteBuffer.Put(buffer);
      if !ok {
        return Err(BufferOverflow);
      }
      var held := SampleInfo(sampleType, size, bufferInfo);
      assert (sampleInfoList + [held])[..|sampleInfoList|] == sampleInfoList;
      sampleInfoList := sampleInfoList + [held];
      r := Ok(());
    }

    /** `getTrackIndexForSampleType`. */
    function TrackIndexForSampleType(sampleType: SampleType): Option<int>
      reads this
    {
      TrackFor(sampleType, videoTrackIndex, audioTrackIndex)
    }
  }
}
