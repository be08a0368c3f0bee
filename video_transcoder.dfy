/** The drain logic of `VideoTrackTranscoder` once `setup` has created and started both
    codecs: extractor samples go to the decoder, decoded frames are rendered to the encoder's
    input surface (not modelled), and encoded buffers go to the queued muxer as VIDEO. One
    `BufferInfo` is shared by both codecs and handed to the muxer by reference. */
module VideoTranscoder {
  import opened Common
  import opened Extractor
  import opened Muxer
  import opened Codec

  /** `DRAIN_STATE_NONE`, `DRAIN_STATE_SHOULD_RETRY_IMMEDIATELY`, `DRAIN_STATE_CONSUMED`. */
  datatype DrainState = DrainNone | DrainRetry | DrainConsumed

  /** The next index `dequeueInputBuffer` gives, or -1 once the script is used up. */
  function NextInput(indices: seq<int>, cursor: nat): int {
    if cursor < |indices| then indices[cursor] else -1
  }

  /** The calls one `stepPipeline` makes: the encoder drained until NONE, the decoder drained
      again only after SHOULD_RETRY_IMMEDIATELY, the extractor drained until NONE. */
  ghost predicate PipelineShape(encoderStates: seq<DrainState>, decoderStates: seq<DrainState>,
                                extractorStates: seq<DrainState>)
  {
    && |encoderStates| >= 1 && encoderStates[|encoderStates| - 1] == DrainNone
    && (forall k :: 0 <= k < |encoderStates| - 1 ==> encoderStates[k] != DrainNone)
    && |decoderStates| >= 1 && decoderStates[|decoderStates| - 1] != DrainRetry
    && (forall k :: 0 <= k < |decoderStates| - 1 ==> decoderStates[k] == DrainRetry)
    && |extractorStates| >= 1 && extractorStates[|extractorStates| - 1] == DrainNone
    && (forall k :: 0 <= k < |extractorStates| - 1 ==> extractorStates[k] != DrainNone)
  }

  /** Within one `stepPipeline`, some drain call answered other than NONE exactly when a stage
      repeated or the decoder's single answer was not NONE. */
  lemma BusyIffProgress(encoderStates: seq<DrainState>, decoderStates: seq<DrainState>, extractorStates: seq<DrainState>)
    requires PipelineShape(encoderStates, decoderStates, extractorStates)
    ensures (exists s :: s in encoderStates + decoderStates + extractorStates && s != DrainNone) <==>
      (|encoderStates| > 1 || |decoderStates| > 1 || decoderStates[|decoderStates| - 1] != DrainNone || |extractorStates| > 1)
  {
    var all := encoderStates + decoderStates + extractorStates;
    if |encoderStates| > 1 {
      assert encoderStates[0] in all;
    } else if |decoderStates| > 1 || decoderStates[|decoderStates| - 1] != DrainNone {
      assert decoderStates[0] in all && decoderStates[|decoderStates| - 1] in all;
    } else if |extractorStates| > 1 {
      assert extractorStates[0] in all;
    } else {
      assert all == encoderStates + decoderStates + extractorStates;
      forall s | s in all
        ensures s == DrainNone
      {
      }
    }
  }

  /** One drain call that does not throw: its answer, the cursor of the script it reads and the
      end-of-stream flag after it, and the calls it makes on the codec it drains or feeds. */
  datatype Step = Step(answer: DrainState, cursor: nat, eos: bool, calls: seq<CodecCall>)

  /** A drain loop that does not throw: the answers in order, the cursor and flag after it,
      and the calls it made. */
  datatype Drained = Drained(states: seq<DrainState>, cursor: nat, eos: bool, calls: seq<CodecCall>)

  /** `rest` preceded by answers already given and calls already made. */
  function Extend(states: seq<DrainState>, calls: seq<CodecCall>, rest: Drained): Drained {
    Drained(states + rest.states, rest.cursor, rest.eos, calls + rest.calls)
  }

  /** A dequeued buffer flagged END_OF_STREAM. */
  predicate EndsStream(out: CodecOutput) {
    out.OutputBuffer? && out.flags & BUFFER_FLAG_END_OF_STREAM != 0
  }

  /** `drainEncoder(0)` on the encoder's script at `cursor`: NONE after the end of stream or on
      TRY_AGAIN_LATER, SHOULD_RETRY_IMMEDIATELY on a format or buffers change and for a
      CODEC_CONFIG buffer, CONSUMED for any other buffer; every buffer is released. */
  function EncoderStep(outputs: seq<CodecOutput>, cursor: nat, eos: bool): (s: Step)
    requires cursor <= |outputs|
    ensures s.cursor <= |outputs|
    ensures s.answer != DrainNone ==> s.cursor == cursor + 1
  {
    if eos || cursor == |outputs| then Step(DrainNone, cursor, eos, [])
    else Step(EncoderAnswer(outputs[cursor]), cursor + 1, EndsStream(outputs[cursor]), EncoderReleases(outputs[cursor]))
  }

  function EncoderAnswer(out: CodecOutput): DrainState {
    match out
    case TryAgainLater => DrainNone
    case OutputFormatChanged => DrainRetry
    case OutputBuffersChanged => DrainRetry
    case OutputBuffer(_, flags, _, _, _) => if flags & BUFFER_FLAG_CODEC_CONFIG != 0 then DrainRetry else DrainConsumed
  }

  function EncoderReleases(out: CodecOutput): seq<CodecCall> {
    if out.OutputBuffer? then [ReleaseOutput(out.index, false)] else []
  }

  /** `while (drainEncoder(0) != DRAIN_STATE_NONE)` on the encoder's script. */
  function EncoderDrain(outputs: seq<CodecOutput>, cursor: nat, eos: bool): Drained
    requires cursor <= |outputs|
    decreases |outputs| - cursor
  {
    var s := EncoderStep(outputs, cursor, eos);
    if s.answer == DrainNone then Drained([DrainNone], s.cursor, s.eos, s.calls)
    else Extend([s.answer], s.calls, EncoderDrain(outputs, s.cursor, s.eos))
  }

  /** `drainDecoder(0)` on the decoder's script at `cursor`: NONE after the end of stream or on
      TRY_AGAIN_LATER, SHOULD_RETRY_IMMEDIATELY on a format or buffers change, CONSUMED for a
      buffer, which is released and rendered exactly when it is not the end of stream and
      not empty. */
  function DecoderStep(outputs: seq<CodecOutput>, cursor: nat, eos: bool): (s: Step)
    requires cursor <= |outputs|
    ensures s.cursor <= |outputs|
    ensures s.answer != DrainNone ==> s.cursor == cursor + 1
  {
    if eos || cursor == |outputs| then Step(DrainNone, cursor, eos, [])
    else
      match outputs[cursor]
      case TryAgainLater => Step(DrainNone, cursor + 1, false, [])
      case OutputFormatChanged => Step(DrainRetry, cursor + 1, false, [])
      case OutputBuffersChanged => Step(DrainRetry, cursor + 1, false, [])
      case OutputBuffer(index, flags, size, _, _) =>
        var ends := flags & BUFFER_FLAG_END_OF_STREAM != 0;
        Step(DrainConsumed, cursor + 1, ends, [ReleaseOutput(index, !ends && size > 0)])
  }

  /** `do { ... } while (status == DRAIN_STATE_SHOULD_RETRY_IMMEDIATELY)` on the decoder's script. */
  function DecoderDrain(outputs: seq<CodecOutput>, cursor: nat, eos: bool): Drained
    requires cursor <= |outputs|
    decreases |outputs| - cursor
  {
    var s := DecoderStep(outputs, cursor, eos);
    if s.answer == DrainRetry then Extend([DrainRetry], s.calls, DecoderDrain(outputs, s.cursor, s.eos))
    else Drained([s.answer], s.cursor, s.eos, s.calls)
  }

  /** One `drainExtractor(0)` that does not throw, with the extractor's and the decoder's
      input cursors after it and the inputs queued on the decoder. */
  datatype FeedStep = FeedStep(answer: DrainState, sampleCursor: nat, inputCursor: nat, eos: bool, calls: seq<CodecCall>)

  datatype Fed = Fed(states: seq<DrainState>, sampleCursor: nat, inputCursor: nat, eos: bool, calls: seq<CodecCall>)

  /** `rest` preceded by answers already given and inputs already queued. */
  function ExtendFed(states: seq<DrainState>, calls: seq<CodecCall>, rest: Fed): Fed {
    Fed(states + rest.states, rest.sampleCursor, rest.inputCursor, rest.eos, calls + rest.calls)
  }

  /** Some answer among `states` is not NONE: the `busy` a drain loop reports. */
  ghost predicate AnyBusy(states: seq<DrainState>) {
    exists s :: s in states && s != DrainNone
  }

  lemma AnyBusyPush(states: seq<DrainState>, answer: DrainState)
    ensures AnyBusy(states + [answer]) <==> AnyBusy(states) || answer != DrainNone
  {
    AnyBusyAppend(states, [answer]);
    assert answer in [answer];
  }

  lemma AnyBusyAppend(states: seq<DrainState>, answers: seq<DrainState>)
    ensures AnyBusy(states + answers) <==> AnyBusy(states) || AnyBusy(answers)
  {
    if AnyBusy(states + answers) {
      var s :| s in states + answers && s != DrainNone;
      assert s in states || s in answers;
    }
    if AnyBusy(states) {
      var s :| s in states && s != DrainNone;
      assert s in states + answers;
    }
    if AnyBusy(answers) {
      var s :| s in answers && s != DrainNone;
      assert s in states + answers;
    }
  }

  /** `drainExtractor(0)` on the extractor's samples at `sample` and the decoder's input
      indices at `input`: NONE after the end of stream, for another track's sample and when
      no input is free; an exhausted extractor queues an empty END_OF_STREAM input (NONE); an
      own sample is queued with its time and sync flag (CONSUMED). */
  function ExtractorStep(script: seq<ExtractedSample>, track: int, indices: seq<int>,
                         sample: nat, input: nat, eos: bool): (s: FeedStep)
    requires sample <= |script| && input <= |indices|
    ensures s.sampleCursor <= |script| && s.inputCursor <= |indices|
    ensures s.answer != DrainNone ==> s.inputCursor == input + 1
  {
    if eos || (sample < |script| && script[sample].trackIndex != track) || input == |indices| then
      FeedStep(DrainNone, sample, input, eos, [])
    else if indices[input] < 0 then FeedStep(DrainNone, sample, input + 1, eos, [])
    else if sample == |script| then
      FeedStep(DrainNone, sample, input + 1, true, [QueueInput(indices[input], 0, 0, BUFFER_FLAG_END_OF_STREAM, [])])
    else
      var x := script[sample];
      FeedStep(DrainConsumed, sample + 1, input + 1, false,
               [QueueInput(indices[input], |x.contents|, x.sampleTime, KeyFrameFlags(x.sampleFlags), x.contents)])
  }

  /** `while (drainExtractor(0) != DRAIN_STATE_NONE)` on the extractor's samples. */
  function ExtractorDrain(script: seq<ExtractedSample>, track: int, indices: seq<int>,
                          sample: nat, input: nat, eos: bool): Fed
    requires sample <= |script| && input <= |indices|
    decreases |indices| - input
  {
    var s := ExtractorStep(script, track, indices, sample, input, eos);
    if s.answer == DrainNone then Fed([DrainNone], s.sampleCursor, s.inputCursor, s.eos, s.calls)
    else
      ExtendFed([s.answer], s.calls, ExtractorDrain(script, track, indices, s.sampleCursor, s.inputCursor, s.eos))
  }

  /** One more encoder drain call, seen from a drain loop that has already answered `states`
      and made `calls`. */
  lemma EncoderDrainAdvance(outputs: seq<CodecOutput>, cursor: nat, eos: bool,
                            states: seq<DrainState>, calls: seq<CodecCall>)
    requires cursor <= |outputs|
    ensures var s := EncoderStep(outputs, cursor, eos);
      Extend(states, calls, EncoderDrain(outputs, cursor, eos))
      == if s.answer == DrainNone then Drained(states + [DrainNone], s.cursor, s.eos, calls + s.calls)
         else Extend(states + [s.answer], calls + s.calls, EncoderDrain(outputs, s.cursor, s.eos))
  {
    var s := EncoderStep(outputs, cursor, eos);
    if s.answer != DrainNone {
      var rest := EncoderDrain(outputs, s.cursor, s.eos);
      assert states + ([s.answer] + rest.states) == states + [s.answer] + rest.states;
      assert calls + (s.calls + rest.calls) == calls + s.calls + rest.calls;
    }
  }

  /** One more decoder drain call after SHOULD_RETRY_IMMEDIATELY answers `states`. */
  lemma DecoderDrainAdvance(outputs: seq<CodecOutput>, cursor: nat, eos: bool,
                            states: seq<DrainState>, calls: seq<CodecCall>)
    requires cursor <= |outputs|
    ensures var s := DecoderStep(outputs, cursor, eos);
      Extend(states, calls, DecoderDrain(outputs, cursor, eos))
      == if s.answer != DrainRetry then Drained(states + [s.answer], s.cursor, s.eos, calls + s.calls)
         else Extend(states + [DrainRetry], calls + s.calls, DecoderDrain(outputs, s.cursor, s.eos))
  {
    var s := DecoderStep(outputs, cursor, eos);
    if s.answer == DrainRetry {
      var rest := DecoderDrain(outputs, s.cursor, s.eos);
      assert states + ([DrainRetry] + rest.states) == states + [DrainRetry] + rest.states;
      assert calls + (s.calls + rest.calls) == calls + s.calls + rest.calls;
    }
  }

  /** One more extractor drain call, seen from a drain loop that has already answered
      `states` and queued `calls`. */
  lemma ExtractorDrainAdvance(script: seq<ExtractedSample>, track: int, indices: seq<int>,
                              sample: nat, input: nat, eos: bool,
                              states: seq<DrainState>, calls: seq<CodecCall>)
    requires sample <= |script| && input <= |indices|
    ensures var s := ExtractorStep(script, track, indices, sample, input, eos);
      ExtendFed(states, calls, ExtractorDrain(script, track, indices, sample, input, eos))
      == if s.answer == DrainNone then Fed(states + [DrainNone], s.sampleCursor, s.inputCursor, s.eos, calls + s.calls)
         else ExtendFed(states + [s.answer], calls + s.calls,
                        ExtractorDrain(script, track, indices, s.sampleCursor, s.inputCursor, s.eos))
  {
    var s := ExtractorStep(script, track, indices, sample, input, eos);
    if s.answer != DrainNone {
      var rest := ExtractorDrain(script, track, indices, s.sampleCursor, s.inputCursor, s.eos);
      assert states + ([s.answer] + rest.states) == states + [s.answer] + rest.states;
      assert calls + (s.calls + rest.calls) == calls + s.calls + rest.calls;
    }
  }

  /** The encoder drain ends with its first NONE. */
  lemma {:induction false} EncoderDrainShape(outputs: seq<CodecOutput>, cursor: nat, eos: bool)
    requires cursor <= |outputs|
    ensures var d := EncoderDrain(outputs, cursor, eos);
      && |d.states| >= 1 && d.states[|d.states| - 1] == DrainNone
      && forall k :: 0 <= k < |d.states| - 1 ==> d.states[k] != DrainNone
    decreases |outputs| - cursor
  {
    var s := EncoderStep(outputs, cursor, eos);
    if s.answer != DrainNone {
      EncoderDrainShape(outputs, s.cursor, s.eos);
    }
  }

  /** The first output at or after `cursor` after which the encoder answers NONE: a
      TRY_AGAIN_LATER or a buffer flagged END_OF_STREAM. */
  predicate EncoderStops(out: CodecOutput) {
    out.TryAgainLater? || EndsStream(out)
  }

  /** The release calls for the buffers among `outputs[lo..hi]`, in order. */
  function Released(outputs: seq<CodecOutput>, lo: nat, hi: nat): seq<CodecCall>
    requires lo <= hi <= |outputs|
    decreases hi - lo
  {
    if lo == hi then []
    else (if outputs[lo].OutputBuffer? then [ReleaseOutput(outputs[lo].index, false)] else []) + Released(outputs, lo + 1, hi)
  }

  /** Draining the encoder consumes its script up to and including the first TRY_AGAIN_LATER
      or END_OF_STREAM buffer (or all of it), and ends at the end of stream exactly when it
      consumed such a buffer. */
  lemma {:induction false} EncoderDrainConsumes(outputs: seq<CodecOutput>, cursor: nat)
    requires cursor <= |outputs|
    ensures var d := EncoderDrain(outputs, cursor, false);
      && cursor <= d.cursor <= |outputs|
      && (forall j :: cursor <= j < d.cursor - 1 ==> !EncoderStops(outputs[j]))
      && (d.cursor < |outputs| ==> d.cursor > cursor && EncoderStops(outputs[d.cursor - 1]))
      && (d.eos <==> d.cursor > cursor && EndsStream(outputs[d.cursor - 1]))
    decreases |outputs| - cursor
  {
    if cursor < |outputs| {
      var s := EncoderStep(outputs, cursor, false);
      EncoderStepStops(outputs, cursor);
      if s.answer != DrainNone && !s.eos {
        EncoderDrainConsumes(outputs, cursor + 1);
      }
    }
  }

  /** Draining the encoder releases exactly the buffers among the outputs it consumed, in
      order. */
  lemma {:induction false} EncoderDrainReleases(outputs: seq<CodecOutput>, cursor: nat)
    requires cursor <= |outputs|
    ensures var d := EncoderDrain(outputs, cursor, false);
      cursor <= d.cursor <= |outputs| && d.calls == Released(outputs, cursor, d.cursor)
    decreases |outputs| - cursor
  {
    if cursor < |outputs| {
      var s := EncoderStep(outputs, cursor, false);
      EncoderStepStops(outputs, cursor);
      if s.answer != DrainNone && !s.eos {
        EncoderDrainReleases(outputs, cursor + 1);
      }
    }
  }

  /** One encoder drain call from a script position before the end of stream. */
  lemma EncoderStepStops(outputs: seq<CodecOutput>, cursor: nat)
    requires cursor < |outputs|
    ensures var s := EncoderStep(outputs, cursor, false);
      && s.cursor == cursor + 1
      && (s.answer == DrainNone || s.eos <==> EncoderStops(outputs[cursor]))
      && (s.eos <==> EndsStream(outputs[cursor]))
      && s.calls == if outputs[cursor].OutputBuffer? then [ReleaseOutput(outputs[cursor].index, false)] else []
  {
  }

  /** The decoder drain's answers are SHOULD_RETRY_IMMEDIATELY up to its last. */
  lemma {:induction false} DecoderDrainShape(outputs: seq<CodecOutput>, cursor: nat, eos: bool)
    requires cursor <= |outputs|
    ensures var d := DecoderDrain(outputs, cursor, eos);
      && |d.states| >= 1 && d.states[|d.states| - 1] != DrainRetry
      && forall k :: 0 <= k < |d.states| - 1 ==> d.states[k] == DrainRetry
    decreases |outputs| - cursor
  {
    var s := DecoderStep(outputs, cursor, eos);
    if s.answer == DrainRetry {
      DecoderDrainShape(outputs, s.cursor, s.eos);
    }
  }

  /** The extractor drain ends with its first NONE, and every CONSUMED answer queued exactly
      one own-track sample on the decoder, in extractor order. */
  lemma {:induction false} ExtractorDrainShape(script: seq<ExtractedSample>, track: int, indices: seq<int>,
                                               sample: nat, input: nat, eos: bool)
    requires sample <= |script| && input <= |indices|
    ensures var d := ExtractorDrain(script, track, indices, sample, input, eos);
      && |d.states| >= 1 && d.states[|d.states| - 1] == DrainNone
      && (forall k :: 0 <= k < |d.states| - 1 ==> d.states[k] == DrainConsumed)
      && sample + |d.states| - 1 == d.sampleCursor <= |script|
      && (forall k :: sample <= k < d.sampleCursor ==> script[k].trackIndex == track)
      && (d.eos ==> eos || d.sampleCursor == |script|)
    decreases |indices| - input
  {
    var s := ExtractorStep(script, track, indices, sample, input, eos);
    if s.answer != DrainNone {
      ExtractorDrainShape(script, track, indices, s.sampleCursor, s.inputCursor, s.eos);
    }
  }

  /** The answers of the three drains of one `stepPipeline`, which `StepPipeline` ties to
      these functions, have the shape `PipelineShape` describes, whatever the scripts. */
  lemma StepPipelineShape(encoderOutputs: seq<CodecOutput>, encoderCursor: nat, encoderEos: bool,
                          decoderOutputs: seq<CodecOutput>, decoderCursor: nat, decoderEos: bool,
                          script: seq<ExtractedSample>, track: int, indices: seq<int>,
                          sample: nat, input: nat, extractorEos: bool)
    requires encoderCursor <= |encoderOutputs| && decoderCursor <= |decoderOutputs|
    requires sample <= |script| && input <= |indices|
    ensures PipelineShape(EncoderDrain(encoderOutputs, encoderCursor, encoderEos).states,
                          DecoderDrain(decoderOutputs, decoderCursor, decoderEos).states,
                          ExtractorDrain(script, track, indices, sample, input, extractorEos).states)
  {
    EncoderDrainShape(encoderOutputs, encoderCursor, encoderEos);
    DecoderDrainShape(decoderOutputs, decoderCursor, decoderEos);
    ExtractorDrainShape(script, track, indices, sample, input, extractorEos);
  }

  class VideoTrackTranscoder {
    const extractor: MediaExtractor
    const videoTrackIndex: int
    const muxer: QueuedMuxer
    const decoder: MediaCodec
    const encoder: MediaCodec
    /** The index the writer's `addTrack` gives the video track. */
    const writerTrackIndex: int
    /** `mBufferInfo`, shared by both codecs' `dequeueOutputBuffer` and the muxer. */
    const bufferInfo: BufferInfo
    var actualOutputFormat: Option<MediaFormat>
    var isExtractorEOS: bool
    var isDecoderEOS: bool
    var isEncoderEOS: bool
    var decoderStarted: bool
    var encoderStarted: bool
    var writtenPresentationTimeUs: int

    /** The collaborators are well formed, the two codecs are distinct and the decoder's input
        buffer is not the muxer's staging buffer. */
    ghost predicate Valid()
      reads this, extractor, muxer, muxer.byteBuffer, decoder, encoder, decoder.inputBuffer
    {
      && extractor.Valid() && muxer.Valid() && decoder.Valid() && encoder.Valid() && decoder.inputBuffer.Valid()
      && decoder != encoder
      && decoder.inputBuffer != muxer.byteBuffer && decoder.inputBuffer.data != muxer.byteBuffer.data
    }

    /** The state `setup` leaves: both codecs started, no end of stream seen, no format yet. */
    constructor (extractor: MediaExtractor, videoTrackIndex: int, muxer: QueuedMuxer,
                 decoder: MediaCodec, encoder: MediaCodec, writerTrackIndex: int)
      requires extractor.Valid() && muxer.Valid() && decoder.Valid() && encoder.Valid() && decoder.inputBuffer.Valid()
      requires decoder != encoder
      requires decoder.inputBuffer != muxer.byteBuffer && decoder.inputBuffer.data != muxer.byteBuffer.data
      ensures Valid() && fresh(bufferInfo)
      ensures this.extractor == extractor && this.videoTrackIndex == videoTrackIndex && this.muxer == muxer
      ensures this.decoder == decoder && this.encoder == encoder && this.writerTrackIndex == writerTrackIndex
      ensures actualOutputFormat == None && !isExtractorEOS && !isDecoderEOS && !isEncoderEOS
      ensures decoderStarted && encoderStarted && writtenPresentationTimeUs == 0
    {
      this.extractor := extractor;
      this.videoTrackIndex := videoTrackIndex;
      this.muxer := muxer;
      this.decoder := decoder;
      this.encoder := encoder;
      this.writerTrackIndex := writerTrackIndex;
      bufferInfo := new BufferInfo();
      actualOutputFormat := None;
      isExtractorEOS, isDecoderEOS, isEncoderEOS := false, false, false;
      decoderStarted, encoderStarted := true, true;
      writtenPresentationTimeUs := 0;
    }

    /** `isFinished`: the encoder has produced its end of stream. */
    predicate IsFinished()
      reads this
    {
      isEncoderEOS
    }

    /** `getWrittenPresentationTimeUS`. */
    function WrittenPresentationTimeUs(): int
      reads this
    {
      writtenPresentationTimeUs
    }

    /** `drainExtractor(0)`. NONE after extractor end of stream, for another track's sample and
        when the decoder has no free input. Otherwise an exhausted extractor becomes an empty
        END_OF_STREAM input (and NONE), and an own-track sample is copied into the decoder's
        input with its time and sync flag and the extractor advances (CONSUMED). A sample too
        large for the input buffer throws. */
    method DrainExtractor() returns (r: Result<DrainState>)
      requires Valid()
      modifies this`isExtractorEOS, extractor, decoder`inputCursor, decoder`calls, decoder.inputBuffer, decoder.inputBuffer.data
      ensures Valid()
      ensures r.Ok? ==>
        var s := ExtractorStep(extractor.script, videoTrackIndex, decoder.inputIndices,
                               old(extractor.cursor), old(decoder.inputCursor), old(isExtractorEOS));
        && r.value == s.answer && extractor.cursor == s.sampleCursor && decoder.inputCursor == s.inputCursor
        && isExtractorEOS == s.eos && decoder.calls == old(decoder.calls) + s.calls
      ensures r.Ok? && r.value != DrainNone ==> decoder.inputCursor == old(decoder.inputCursor) + 1
      ensures isExtractorEOS == (old(isExtractorEOS) || (old(extractor.cursor) == |extractor.script|
                                                         && NextInput(decoder.inputIndices, old(decoder.inputCursor)) >= 0))
      ensures old(isExtractorEOS) || (old(extractor.cursor) < |extractor.script|
                                      && old(extractor.script[extractor.cursor].trackIndex) != videoTrackIndex) ==>
        && r == Ok(DrainNone) && extractor.cursor == old(extractor.cursor)
        && decoder.inputCursor == old(decoder.inputCursor) && decoder.calls == old(decoder.calls)
      ensures !old(isExtractorEOS) && (old(extractor.cursor) == |extractor.script|
                                       || old(extractor.script[extractor.cursor].trackIndex) == videoTrackIndex) ==>
        var slot := NextInput(decoder.inputIndices, old(decoder.inputCursor));
        && decoder.inputCursor == (if old(decoder.inputCursor) < |decoder.inputIndices| then old(decoder.inputCursor) + 1 else old(decoder.inputCursor))
        && (slot < 0 ==> r == Ok(DrainNone) && extractor.cursor == old(extractor.cursor) && decoder.calls == old(decoder.calls))
        && (slot >= 0 && old(extractor.cursor) == |extractor.script| ==>
              && r == Ok(DrainNone) && extractor.cursor == old(extractor.cursor)
              && decoder.calls == old(decoder.calls) + [QueueInput(slot, 0, 0, BUFFER_FLAG_END_OF_STREAM, [])])
        && (slot >= 0 && old(extractor.cursor) < |extractor.script| ==>
              var sample := old(extractor.script[extractor.cursor]);
              && (r.Err? <==> |sample.contents| > decoder.inputBuffer.data.Length)
              && (r.Err? ==> r.error == IllegalArgument)
              && (r.Ok? ==>
                    && r.value == DrainConsumed && extractor.cursor == old(extractor.cursor) + 1
                    && decoder.calls == old(decoder.calls) +
                         [QueueInput(slot, |sample.contents|, sample.sampleTime, KeyFrameFlags(sample.sampleFlags), sample.contents)]))
    {
      if isExtractorEOS {
        return Ok(DrainNone);
      }
      var trackIndex := extractor.SampleTrackIndex();
      if trackIndex >= 0 && trackIndex != videoTrackIndex {
        return Ok(DrainNone);
      }
      var result := decoder.DequeueInputBuffer();
      if result < 0 {
        return Ok(DrainNone);
      }
      if trackIndex < 0 {
        isExtractorEOS := true;
        decoder.QueueInputBuffer(result, 0, 0, BUFFER_FLAG_END_OF_STREAM);
        return Ok(DrainNone);
      }
      r := QueueSample(result);
    }

    /** The own-track tail of `drainExtractor`: read, queue, advance. */
    method QueueSample(slot: int) returns (r: Result<DrainState>)
      requires Valid() && extractor.cursor < |extractor.script|
      modifies extractor, decoder`calls, decoder.inputBuffer, decoder.inputBuffer.data
      ensures Valid()
      ensures var sample := old(extractor.script[extractor.cursor]);
        && (r.Err? <==> |sample.contents| > decoder.inputBuffer.data.Length)
        && (r.Err? ==> r.error == IllegalArgument && decoder.calls == old(decoder.calls))
        && (r.Ok? ==>
              && r.value == DrainConsumed && extractor.cursor == old(extractor.cursor) + 1
              && decoder.calls == old(decoder.calls) +
                   [QueueInput(slot, |sample.contents|, sample.sampleTime, KeyFrameFlags(sample.sampleFlags), sample.contents)])
    {
      var read := extractor.ReadSampleData(decoder.inputBuffer, 0);
      if read.Err? {
        return Err(read.error);
      }
      var sampleSize := read.value;
      decoder.QueueInputBuffer(slot, sampleSize, extractor.SampleTime(), KeyFrameFlags(extractor.SampleFlags()));
      extractor.Advance();
      r := Ok(DrainConsumed);
    }

    /** `drainDecoder(0)`. NONE after decoder end of stream or on TRY_AGAIN_LATER;
        SHOULD_RETRY_IMMEDIATELY on a format or buffers change. A buffer flagged END_OF_STREAM
        signals the encoder's end of input, sets the flag and forces the size to 0; the buffer
        is released, rendered exactly when its size is positive (CONSUMED). */
    method DrainDecoder() returns (r: DrainState)
      requires Valid()
      modifies this`isDecoderEOS, decoder`outputCursor, decoder`calls, encoder`calls, bufferInfo
      ensures Valid()
      ensures var s := DecoderStep(decoder.outputs, old(decoder.outputCursor), old(isDecoderEOS));
        && r == s.answer && decoder.outputCursor == s.cursor && isDecoderEOS == s.eos
        && decoder.calls == old(decoder.calls) + s.calls
        && encoder.calls == old(encoder.calls) + (if s.eos && !old(isDecoderEOS) then [SignalEndOfInputStream] else [])
      ensures r == DrainRetry ==> decoder.outputCursor == old(decoder.outputCursor) + 1
      ensures old(isDecoderEOS) ==>
        && r == DrainNone && isDecoderEOS && decoder.outputCursor == old(decoder.outputCursor)
        && decoder.calls == old(decoder.calls) && encoder.calls == old(encoder.calls)
      ensures !old(isDecoderEOS) ==>
        var out := NextOutput(decoder.outputs, old(decoder.outputCursor));
        && decoder.outputCursor == (if old(decoder.outputCursor) < |decoder.outputs| then old(decoder.outputCursor) + 1 else old(decoder.outputCursor))
        && (out.TryAgainLater? ==> r == DrainNone)
        && (out.OutputFormatChanged? || out.OutputBuffersChanged? ==> r == DrainRetry)
        && (!out.OutputBuffer? ==>
              && !isDecoderEOS && decoder.calls == old(decoder.calls) && encoder.calls == old(encoder.calls))
        && (out.OutputBuffer? ==>
              var eos := out.flags & BUFFER_FLAG_END_OF_STREAM != 0;
              && r == DrainConsumed && isDecoderEOS == eos
              && encoder.calls == old(encoder.calls) + (if eos then [SignalEndOfInputStream] else [])
              && bufferInfo.size == (if eos then 0 else out.size)
              && bufferInfo.presentationTimeUs == out.presentationTimeUs && bufferInfo.flags == out.flags
              && decoder.calls == old(decoder.calls) + [ReleaseOutput(out.index, !eos && out.size > 0)])
    {
      if isDecoderEOS {
        return DrainNone;
      }
      var out := decoder.DequeueOutputBuffer(bufferInfo);
      match out
      case TryAgainLater =>
        return DrainNone;
      case OutputFormatChanged =>
        return DrainRetry;
      case OutputBuffersChanged =>
        return DrainRetry;
      case OutputBuffer(index, _, _, _, _) =>
        if bufferInfo.flags & BUFFER_FLAG_END_OF_STREAM != 0 {
          encoder.Log(SignalEndOfInputStream);
          isDecoderEOS := true;
          bufferInfo.size := 0;
        }
        var doRender := bufferInfo.size > 0;
        decoder.Log(ReleaseOutput(index, doRender));
        r := DrainConsumed;
    }

    /** `drainEncoder(0)`. NONE after encoder end of stream or on TRY_AGAIN_LATER. The first
        format change records the encoder's output format and registers it with the muxer as
        VIDEO, a second one throws; both a format and a buffers change answer
        SHOULD_RETRY_IMMEDIATELY. A buffer before any format throws. A buffer flagged
        END_OF_STREAM sets the flag and zeroes offset, size and time; a CODEC_CONFIG buffer is
        released unwritten (SHOULD_RETRY_IMMEDIATELY); any other buffer is written to the muxer
        as VIDEO, the written time becomes its time, and it is released (CONSUMED). */
    method DrainEncoder() returns (r: Result<DrainState>)
      requires Valid()
      modifies this`isEncoderEOS, this`actualOutputFormat, this`writtenPresentationTimeUs, encoder`outputCursor, encoder`calls,
               muxer, muxer.byteBuffer, muxer.byteBuffer.data, bufferInfo
      ensures Valid()
      ensures r.Ok? ==>
        var s := EncoderStep(encoder.outputs, old(encoder.outputCursor), old(isEncoderEOS));
        && r.value == s.answer && encoder.outputCursor == s.cursor && isEncoderEOS == s.eos
        && encoder.calls == old(encoder.calls) + s.calls
      ensures r.Ok? && r.value != DrainNone ==> encoder.outputCursor == old(encoder.outputCursor) + 1
      ensures old(isEncoderEOS) ==>
        && r == Ok(DrainNone) && isEncoderEOS && encoder.outputCursor == old(encoder.outputCursor)
        && encoder.calls == old(encoder.calls) && muxer.View() == old(muxer.View())
        && writtenPresentationTimeUs == old(writtenPresentationTimeUs)
      ensures !old(isEncoderEOS) ==>
        var out := NextOutput(encoder.outputs, old(encoder.outputCursor));
        && encoder.outputCursor == (if old(encoder.outputCursor) < |encoder.outputs| then old(encoder.outputCursor) + 1 else old(encoder.outputCursor))
        && (!out.OutputFormatChanged? ==> actualOutputFormat == old(actualOutputFormat))
        && (out.TryAgainLater? ==> r == Ok(DrainNone))
        && (out.OutputBuffersChanged? ==> r == Ok(DrainRetry))
        && (!out.OutputBuffer? ==> !isEncoderEOS && encoder.calls == old(encoder.calls))
        && (!out.OutputBuffer? && !out.OutputFormatChanged? ==> muxer.View() == old(muxer.View()))
        && (out.OutputFormatChanged? && old(actualOutputFormat).Some? ==>
              r == Err(VideoFormatChangedTwice) && muxer.View() == old(muxer.View()))
        && (out.OutputFormatChanged? && old(actualOutputFormat).None? ==>
              && r == Ok(DrainRetry) && actualOutputFormat == Some(encoder.outputFormat)
              && muxer.OutputFormatSet(Video, encoder.outputFormat, writerTrackIndex))
        && (out.OutputBuffer? && old(actualOutputFormat).None? ==>
              r == Err(NoActualOutputFormat) && muxer.View() == old(muxer.View()) && encoder.calls == old(encoder.calls))
        && (out.OutputBuffer? && old(actualOutputFormat).Some? ==> EncodedBufferHandled(out, r))
    {
      if isEncoderEOS {
        return Ok(DrainNone);
      }
      var out := encoder.DequeueOutputBuffer(bufferInfo);
      match out
      case TryAgainLater =>
        return Ok(DrainNone);
      case OutputFormatChanged =>
        if actualOutputFormat.Some? {
          return Err(VideoFormatChangedTwice);
        }
        // The dequeue left `bufferInfo`, which held samples may share, as it was.
        assert Stamps(muxer.sampleInfoList) == old(Stamps(muxer.sampleInfoList));
        actualOutputFormat := Some(encoder.outputFormat);
        muxer.SetOutputFormat(Video, encoder.outputFormat, writerTrackIndex);
        return Ok(DrainRetry);
      case OutputBuffersChanged =>
        return Ok(DrainRetry);
      case OutputBuffer(_, _, _, _, _) =>
        if actualOutputFormat.None? {
          return Err(NoActualOutputFormat);
        }
        r := HandleEncodedBuffer(out);
    }

    /** What happens to an encoded buffer `out` once the output format is known (the
        state before is that of the enclosing call; `bufferInfo` was set from `out`). */
    twostate predicate EncodedBufferHandled(out: CodecOutput, new r: Result<DrainState>)
      requires out.OutputBuffer?
      requires old(muxer.Valid()) && muxer.Valid()
      reads this, encoder, muxer, muxer.byteBuffer, muxer.byteBuffer.data, bufferInfo
    {
      var eos := out.flags & BUFFER_FLAG_END_OF_STREAM != 0;
      var size: int32 := if eos then 0 else out.size;
      var time := if eos then 0 else out.presentationTimeUs;
      && isEncoderEOS == eos
      && bufferInfo.offset == 0 && bufferInfo.size == size
      && bufferInfo.presentationTimeUs == time && bufferInfo.flags == out.flags
      && (out.flags & BUFFER_FLAG_CODEC_CONFIG != 0 ==>
            && r == Ok(DrainRetry) && encoder.calls == old(encoder.calls) + [ReleaseOutput(out.index, false)]
            && muxer.View() == old(muxer.View()) && writtenPresentationTimeUs == old(writtenPresentationTimeUs))
      && (out.flags & BUFFER_FLAG_CODEC_CONFIG == 0 ==>
            && (r.Err? <==> (!old(muxer.muxerStarted) &&
                  (!(0 <= size as int <= |out.contents|) || SizeSum(old(muxer.sampleInfoList)) + size as int > STAGING_CAPACITY)))
            && (r.Err? ==> (r.error == IllegalArgument || r.error == BufferOverflow) && encoder.calls == old(encoder.calls)
                           && muxer.writerCalls == old(muxer.writerCalls) && muxer.sampleInfoList == old(muxer.sampleInfoList))
            && (r.Ok? ==>
                  && r.value == DrainConsumed && writtenPresentationTimeUs == time
                  && encoder.calls == old(encoder.calls) + [ReleaseOutput(out.index, false)]
                  && Accepted(old(muxer.View()), muxer.View(), Video, out.contents, 0, size, time, out.flags, bufferInfo)))
    }

    /** The tail of `drainEncoder` for a buffer, with the output format known. */
    method HandleEncodedBuffer(out: CodecOutput) returns (r: Result<DrainState>)
      requires Valid() && !isEncoderEOS && out.OutputBuffer? && |out.contents| <= INT_MAX
      requires bufferInfo.offset == 0 && bufferInfo.size == out.size
      requires bufferInfo.presentationTimeUs == out.presentationTimeUs && bufferInfo.flags == out.flags
      modifies this`isEncoderEOS, this`writtenPresentationTimeUs, encoder`calls, muxer, muxer.byteBuffer, muxer.byteBuffer.data, bufferInfo
      ensures Valid()
      ensures EncodedBufferHandled(out, r)
    {
      if bufferInfo.flags & BUFFER_FLAG_END_OF_STREAM != 0 {
        isEncoderEOS := true;
        bufferInfo.Set(0, 0, 0, bufferInfo.flags);
      }
      if bufferInfo.flags & BUFFER_FLAG_CODEC_CONFIG != 0 {
        encoder.Log(ReleaseOutput(out.index, false));
        return Ok(DrainRetry);
      }
      r := WriteEncoded(out);
    }

    /** Writes the encoded buffer to the muxer as VIDEO, then records its time and releases it. */
    method WriteEncoded(out: CodecOutput) returns (r: Result<DrainState>)
      requires Valid() && out.OutputBuffer? && |out.contents| <= INT_MAX && bufferInfo.offset == 0
      modifies this`writtenPresentationTimeUs, encoder`calls, muxer, muxer.byteBuffer, muxer.byteBuffer.data
      ensures Valid()
      ensures var size, time, flags := old(bufferInfo.size), old(bufferInfo.presentationTimeUs), old(bufferInfo.flags);
        && (r.Err? <==> (!old(muxer.muxerStarted) &&
              (!(0 <= size as int <= |out.contents|) || SizeSum(old(muxer.sampleInfoList)) + size as int > STAGING_CAPACITY)))
        && (r.Err? ==> (r.error == IllegalArgument || r.error == BufferOverflow) && encoder.calls == old(encoder.calls)
                       && muxer.writerCalls == old(muxer.writerCalls) && muxer.sampleInfoList == old(muxer.sampleInfoList))
        && (r.Ok? ==>
              && r.value == DrainConsumed && writtenPresentationTimeUs == time
              && encoder.calls == old(encoder.calls) + [ReleaseOutput(out.index, false)]
              && Accepted(old(muxer.View()), muxer.View(), Video, out.contents, 0, size, time, flags, bufferInfo))
    {
      var encoded := new ByteBuffer.Wrap(out.contents);
      var written := muxer.WriteSampleData(Video, encoded, bufferInfo);
      if written.Err? {
        return Err(written.error);
      }
      writtenPresentationTimeUs := bufferInfo.presentationTimeUs;
      encoder.Log(ReleaseOutput(out.index, false));
      r := Ok(DrainConsumed);
    }

    /** One pass of the encoder drain loop: a `drainEncoder(0)` call, placed in the drain
        `EncoderDrain` predicts from the loop's start (`target`, after `states` and `made`). */
    method EncoderDrainPass(ghost target: Drained, ghost states: seq<DrainState>, ghost made: seq<CodecCall>)
      returns (state: Result<DrainState>, ghost statesNext: seq<DrainState>, ghost madeNext: seq<CodecCall>,
               ghost stepCalls: seq<CodecCall>)
      requires Valid()
      requires target == Extend(states, made, EncoderDrain(encoder.outputs, encoder.outputCursor, isEncoderEOS))
      modifies this`isEncoderEOS, this`actualOutputFormat, this`writtenPresentationTimeUs, encoder`outputCursor, encoder`calls,
               muxer, muxer.byteBuffer, muxer.byteBuffer.data, bufferInfo
      ensures Valid() && (old(isEncoderEOS) ==> isEncoderEOS)
      ensures state.Ok? ==>
        && statesNext == states + [state.value] && madeNext == made + stepCalls
        && encoder.calls == old(encoder.calls) + stepCalls
        && (state.value == DrainNone ==> target == Drained(statesNext, encoder.outputCursor, isEncoderEOS, madeNext))
        && (state.value != DrainNone ==>
              && encoder.outputCursor == old(encoder.outputCursor) + 1
              && target == Extend(statesNext, madeNext, EncoderDrain(encoder.outputs, encoder.outputCursor, isEncoderEOS)))
    {
      ghost var step := EncoderStep(encoder.outputs, encoder.outputCursor, isEncoderEOS);
      EncoderDrainAdvance(encoder.outputs, encoder.outputCursor, isEncoderEOS, states, made);
      state := DrainEncoder();
      statesNext, madeNext, stepCalls := states + [step.answer], made + step.calls, step.calls;
    }

    /** `while (drainEncoder(0) != DRAIN_STATE_NONE) busy = true`: when no call throws, the
        encoder is drained as `EncoderDrain` says, and `busy` is whether any call answered
        other than NONE. */
    method DrainEncoderUntilNone() returns (r: Result<bool>)
      requires Valid()
      modifies this`isEncoderEOS, this`actualOutputFormat, this`writtenPresentationTimeUs, encoder`outputCursor, encoder`calls,
               muxer, muxer.byteBuffer, muxer.byteBuffer.data, bufferInfo
      ensures Valid() && (old(isEncoderEOS) ==> isEncoderEOS)
      ensures r.Ok? ==>
        var d := EncoderDrain(encoder.outputs, old(encoder.outputCursor), old(isEncoderEOS));
        && encoder.outputCursor == d.cursor && isEncoderEOS == d.eos && encoder.calls == old(encoder.calls) + d.calls
        && (r.value <==> AnyBusy(d.states))
    {
      var busy := false;
      ghost var states: seq<DrainState>, made: seq<CodecCall> := [], [];
      ghost var target := EncoderDrain(encoder.outputs, encoder.outputCursor, isEncoderEOS);
      while true
        invariant Valid() && (old(isEncoderEOS) ==> isEncoderEOS)
        invariant encoder.calls == old(encoder.calls) + made
        invariant target == Extend(states, made, EncoderDrain(encoder.outputs, encoder.outputCursor, isEncoderEOS))
        invariant busy <==> AnyBusy(states)
        decreases |encoder.outputs| - encoder.outputCursor
      {
        ghost var states0, made0, stepCalls := states, made, [];
        var state;
        state, states, made, stepCalls := EncoderDrainPass(target, states, made);
        if state.Err? {
          return Err(state.error);
        }
        AnyBusyPush(states0, state.value);
        AppendAssociative(old(encoder.calls), made0, stepCalls);
        if state.value == DrainNone {
          return Ok(busy);
        }
        busy := true;
      }
    }

    /** One pass of the decoder drain loop: a `drainDecoder(0)` call, placed in the drain
        `DecoderDrain` predicts from the loop's start (`target`, after `states` and `made`). */
    method DecoderDrainPass(ghost target: Drained, ghost states: seq<DrainState>, ghost made: seq<CodecCall>)
      returns (status: DrainState, ghost statesNext: seq<DrainState>, ghost madeNext: seq<CodecCall>,
               ghost stepCalls: seq<CodecCall>)
      requires Valid()
      requires target == Extend(states, made, DecoderDrain(decoder.outputs, decoder.outputCursor, isDecoderEOS))
      modifies this`isDecoderEOS, decoder`outputCursor, decoder`calls, encoder`calls, bufferInfo
      ensures Valid() && (old(isDecoderEOS) ==> isDecoderEOS)
      ensures statesNext == states + [status] && madeNext == made + stepCalls
      ensures decoder.calls == old(decoder.calls) + stepCalls
      ensures encoder.calls == old(encoder.calls) + (if isDecoderEOS && !old(isDecoderEOS) then [SignalEndOfInputStream] else [])
      ensures status != DrainRetry ==> target == Drained(statesNext, decoder.outputCursor, isDecoderEOS, madeNext)
      ensures status == DrainRetry ==>
        && !isDecoderEOS && decoder.outputCursor == old(decoder.outputCursor) + 1
        && target == Extend(statesNext, madeNext, DecoderDrain(decoder.outputs, decoder.outputCursor, isDecoderEOS))
    {
      ghost var step := DecoderStep(decoder.outputs, decoder.outputCursor, isDecoderEOS);
      DecoderDrainAdvance(decoder.outputs, decoder.outputCursor, isDecoderEOS, states, made);
      status := DrainDecoder();
      statesNext, madeNext, stepCalls := states + [step.answer], made + step.calls, step.calls;
    }

    /** The `do { ... } while (status == DRAIN_STATE_SHOULD_RETRY_IMMEDIATELY)` loop over
        `drainDecoder(0)`: the decoder is drained as `DecoderDrain` says, the encoder is told
        the end of its input once, when the decoder's end of stream is reached, and `busy` is
        whether any call answered other than NONE. */
    method DrainDecoderUntilSettled() returns (busy: bool)
      requires Valid()
      modifies this`isDecoderEOS, decoder`outputCursor, decoder`calls, encoder`calls, bufferInfo
      ensures Valid() && (old(isDecoderEOS) ==> isDecoderEOS)
      ensures var d := DecoderDrain(decoder.outputs, old(decoder.outputCursor), old(isDecoderEOS));
        && decoder.outputCursor == d.cursor && isDecoderEOS == d.eos && decoder.calls == old(decoder.calls) + d.calls
        && encoder.calls == old(encoder.calls) + (if d.eos && !old(isDecoderEOS) then [SignalEndOfInputStream] else [])
        && (busy <==> AnyBusy(d.states))
    {
      ghost var target := DecoderDrain(decoder.outputs, decoder.outputCursor, isDecoderEOS);
      ghost var states: seq<DrainState>, made: seq<CodecCall> := [], [];
      busy := false;
      while true
        invariant Valid() && isDecoderEOS == old(isDecoderEOS) && encoder.calls == old(encoder.calls)
        invariant decoder.calls == old(decoder.calls) + made
        invariant target == Extend(states, made, DecoderDrain(decoder.outputs, decoder.outputCursor, isDecoderEOS))
        invariant busy <==> AnyBusy(states)
        decreases |decoder.outputs| - decoder.outputCursor
      {
        ghost var states0, made0, stepCalls := states, made, [];
        var status;
        status, states, made, stepCalls := DecoderDrainPass(target, states, made);
        AnyBusyPush(states0, status);
        AppendAssociative(old(decoder.calls), made0, stepCalls);
        if status != DrainNone {
          busy := true;
        }
        if status != DrainRetry {
          break;
        }
      }
    }

    /** One pass of the extractor drain loop: a `drainExtractor(0)` call, placed in the feed
        `ExtractorDrain` predicts from the loop's start (`target`, after `states` and `made`). */
    method ExtractorDrainPass(ghost target: Fed, ghost states: seq<DrainState>, ghost made: seq<CodecCall>)
      returns (state: Result<DrainState>, ghost statesNext: seq<DrainState>, ghost madeNext: seq<CodecCall>,
               ghost stepCalls: seq<CodecCall>)
      requires Valid()
      requires target == ExtendFed(states, made, ExtractorDrain(extractor.script, videoTrackIndex, decoder.inputIndices,
                                                                extractor.cursor, decoder.inputCursor, isExtractorEOS))
      modifies this`isExtractorEOS, extractor, decoder`inputCursor, decoder`calls, decoder.inputBuffer, decoder.inputBuffer.data
      ensures Valid() && (old(isExtractorEOS) ==> isExtractorEOS)
      ensures state.Ok? ==>
        && statesNext == states + [state.value] && madeNext == made + stepCalls
        && decoder.calls == old(decoder.calls) + stepCalls
        && (state.value == DrainNone ==>
              target == Fed(statesNext, extractor.cursor, decoder.inputCursor, isExtractorEOS, madeNext))
        && (state.value != DrainNone ==>
              && decoder.inputCursor == old(decoder.inputCursor) + 1
              && target == ExtendFed(statesNext, madeNext,
                                     ExtractorDrain(extractor.script, videoTrackIndex, decoder.inputIndices,
                                                    extractor.cursor, decoder.inputCursor, isExtractorEOS)))
    {
      ghost var step := ExtractorStep(extractor.script, videoTrackIndex, decoder.inputIndices,
                                      extractor.cursor, decoder.inputCursor, isExtractorEOS);
      ExtractorDrainAdvance(extractor.script, videoTrackIndex, decoder.inputIndices,
                            extractor.cursor, decoder.inputCursor, isExtractorEOS, states, made);
      state := DrainExtractor();
      statesNext, madeNext, stepCalls := states + [step.answer], made + step.calls, step.calls;
    }

    /** `while (drainExtractor(0) != DRAIN_STATE_NONE) busy = true`: when no call throws, the
        extractor feeds the decoder as `ExtractorDrain` says, and `busy` is whether any call
        answered other than NONE. */
    method DrainExtractorUntilNone() returns (r: Result<bool>)
      requires Valid()
      modifies this`isExtractorEOS, extractor, decoder`inputCursor, decoder`calls, decoder.inputBuffer, decoder.inputBuffer.data
      ensures Valid() && (old(isExtractorEOS) ==> isExtractorEOS)
      ensures r.Ok? ==>
        var d := ExtractorDrain(extractor.script, videoTrackIndex, decoder.inputIndices,
                                old(extractor.cursor), old(decoder.inputCursor), old(isExtractorEOS));
        && extractor.cursor == d.sampleCursor && decoder.inputCursor == d.inputCursor && isExtractorEOS == d.eos
        && decoder.calls == old(decoder.calls) + d.calls
        && (r.value <==> AnyBusy(d.states))
    {
      var busy := false;
      ghost var states: seq<DrainState>, made: seq<CodecCall> := [], [];
      ghost var target := ExtractorDrain(extractor.script, videoTrackIndex, decoder.inputIndices,
                                         extractor.cursor, decoder.inputCursor, isExtractorEOS);
      while true
        invariant Valid() && (old(isExtractorEOS) ==> isExtractorEOS)
        invariant decoder.calls == old(decoder.calls) + made
        invariant target == ExtendFed(states, made, ExtractorDrain(extractor.script, videoTrackIndex, decoder.inputIndices,
                                                                   extractor.cursor, decoder.inputCursor, isExtractorEOS))
        invariant busy <==> AnyBusy(states)
        decreases |decoder.inputIndices| - decoder.inputCursor
      {
        ghost var states0, made0, stepCalls := states, made, [];
        var state;
        state, states, made, stepCalls := ExtractorDrainPass(target, states, made);
        if state.Err? {
          return Err(state.error);
        }
        AnyBusyPush(states0, state.value);
        AppendAssociative(old(decoder.calls), made0, stepCalls);
        if state.value == DrainNone {
          return Ok(busy);
        }
        busy := true;
      }
    }

    /** `stepPipeline`: drains the encoder until NONE, the decoder until it answers anything
        but SHOULD_RETRY_IMMEDIATELY, then the extractor until NONE, each stage from the state
        the previous one left, and answers whether any of these calls answered something
        other than NONE. The end-of-stream flags never go back. */
    method StepPipeline() returns (r: Result<bool>)
      requires Valid()
      modifies this, extractor, muxer, muxer.byteBuffer, muxer.byteBuffer.data, decoder, encoder,
               decoder.inputBuffer, decoder.inputBuffer.data, bufferInfo
      ensures Valid()
      ensures (old(isEncoderEOS) ==> isEncoderEOS) && (old(isDecoderEOS) ==> isDecoderEOS)
      ensures old(isExtractorEOS) ==> isExtractorEOS
      ensures r.Ok? ==>
        var e := EncoderDrain(encoder.outputs, old(encoder.outputCursor), old(isEncoderEOS));
        var d := DecoderDrain(decoder.outputs, old(decoder.outputCursor), old(isDecoderEOS));
        var x := ExtractorDrain(extractor.script, videoTrackIndex, decoder.inputIndices,
                                old(extractor.cursor), old(decoder.inputCursor), old(isExtractorEOS));
        && encoder.outputCursor == e.cursor && isEncoderEOS == e.eos
        && decoder.outputCursor == d.cursor && isDecoderEOS == d.eos
        && extractor.cursor == x.sampleCursor && decoder.inputCursor == x.inputCursor && isExtractorEOS == x.eos
        && encoder.calls == old(encoder.calls) + e.calls + (if d.eos && !old(isDecoderEOS) then [SignalEndOfInputStream] else [])
        && decoder.calls == old(decoder.calls) + d.calls + x.calls
        && (r.value <==> AnyBusy(e.states + d.states + x.states))
    {
      ghost var e := EncoderDrain(encoder.outputs, encoder.outputCursor, isEncoderEOS);
      ghost var d := DecoderDrain(decoder.outputs, decoder.outputCursor, isDecoderEOS);
      ghost var x := ExtractorDrain(extractor.script, videoTrackIndex, decoder.inputIndices,
                                    extractor.cursor, decoder.inputCursor, isExtractorEOS);
      ghost var encoderCalls, decoderCalls := encoder.calls, decoder.calls;
      var encoderBusy := DrainEncoderUntilNone();
      if encoderBusy.Err? {
        return Err(encoderBusy.error);
      }
      assert encoder.calls == encoderCalls + e.calls && decoder.calls == decoderCalls;
      ghost var encoderCursor, encoderEos := encoder.outputCursor, isEncoderEOS;
      assert encoderCursor == e.cursor && encoderEos == e.eos;
      var decoderBusy := DrainDecoderUntilSettled();
      assert decoder.calls == decoderCalls + d.calls;
      ghost var decoderCursor, decoderEos, signalled := decoder.outputCursor, isDecoderEOS, encoder.calls;
      assert decoderCursor == d.cursor && decoderEos == d.eos;
      assert signalled == encoderCalls + e.calls + (if d.eos && !old(isDecoderEOS) then [SignalEndOfInputStream] else []);
      var extractorBusy := DrainExtractorUntilNone();
      if extractorBusy.Err? {
        return Err(extractorBusy.error);
      }
      assert encoder.outputCursor == encoderCursor && isEncoderEOS == encoderEos && encoder.calls == signalled;
      assert decoder.outputCursor == decoderCursor && isDecoderEOS == decoderEos;
      AnyBusyAppend(e.states, d.states);
      AnyBusyAppend(e.states + d.states, x.states);
      r := Ok(encoderBusy.value || decoderBusy || extractorBusy.value);
    }

    /** `release`: each codec is stopped when it was started, then released (the surfaces'
        release is not modelled). */
    method Release()
      requires Valid()
      modifies decoder`calls, encoder`calls
      ensures Valid()
      ensures decoder.calls == old(decoder.calls) + (if decoderStarted then [StopCodec] else []) + [ReleaseCodec]
      ensures encoder.calls == old(encoder.calls) + (if encoderStarted then [StopCodec] else []) + [ReleaseCodec]
    {
      if decoderStarted {
        decoder.Log(StopCodec);
      }
      decoder.Log(ReleaseCodec);
      if encoderStarted {
        encoder.Log(StopCodec);
      }
      encoder.Log(ReleaseCodec);
    }
  }
}
