/** The Android `MediaCodec` as a scripted collaborator: the results its
    `dequeueOutputBuffer` and `dequeueInputBuffer` will give, and a log of the calls made
    on it. */
module Codec {
  import opened Common

  /** One result of `dequeueOutputBuffer`: the three `INFO_*` codes or a filled buffer. */
  datatype CodecOutput =
    | TryAgainLater
    | OutputFormatChanged
    | OutputBuffersChanged
    | OutputBuffer(index: nat, flags: Flags, size: int32, presentationTimeUs: int, contents: seq<byte>)

  /** A call made on the codec that changes it. */
  datatype CodecCall =
    | QueueInput(index: int, size: int, presentationTimeUs: int, flags: Flags, contents: seq<byte>)
    | ReleaseOutput(index: int, render: bool)
    | SignalEndOfInputStream
    | StopCodec
    | ReleaseCodec

  /** The next output, or `INFO_TRY_AGAIN_LATER` once the script is used up. */
  function NextOutput(outputs: seq<CodecOutput>, cursor: nat): CodecOutput {
    if cursor < |outputs| then outputs[cursor] else TryAgainLater
  }

  class MediaCodec {
    const outputs: seq<CodecOutput>
    var outputCursor: nat
    /** The indices `dequeueInputBuffer` hands out; -1 once used up. */
    const inputIndices: seq<int>
    var inputCursor: nat
    /** `getOutputFormat()`. */
    const outputFormat: MediaFormat
    /** The buffer behind every input index (`getInputBuffer`). */
    const inputBuffer: ByteBuffer
    var calls: seq<CodecCall>

    /** The cursors stay within their scripts, and every output buffer fits a JVM array. */
    ghost predicate Valid()
      reads this
    {
      && outputCursor <= |outputs| && inputCursor <= |inputIndices|
      && forall i :: 0 <= i < |outputs| && outputs[i].OutputBuffer? ==> |outputs[i].contents| <= INT_MAX
    }

    constructor (outputs: seq<CodecOutput>, inputIndices: seq<int>, outputFormat: MediaFormat, inputCapacity: nat)
      requires forall i :: 0 <= i < |outputs| && outputs[i].OutputBuffer? ==> |outputs[i].contents| <= INT_MAX
      ensures Valid() && inputBuffer.Valid() && fresh(inputBuffer) && fresh(inputBuffer.data)
      ensures this.outputs == outputs && this.inputIndices == inputIndices && this.outputFormat == outputFormat
      ensures outputCursor == 0 && inputCursor == 0 && calls == [] && inputBuffer.data.Length == inputCapacity
    {
      this.outputs := outputs;
      this.inputIndices := inputIndices;
      this.outputFormat := outputFormat;
      outputCursor, inputCursor := 0, 0;
      calls := [];
      inputBuffer := new ByteBuffer.Allocate(inputCapacity);
    }

    /** `dequeueOutputBuffer(info, 0)`: a filled buffer also sets `info` to offset 0 and the
        buffer's size, time and flags. */
    method DequeueOutputBuffer(info: BufferInfo) returns (out: CodecOutput)
      requires Valid()
      modifies this`outputCursor, info
      ensures Valid() && out == NextOutput(outputs, old(outputCursor))
      ensures out.OutputBuffer? ==> |out.contents| <= INT_MAX
      ensures outputCursor == if old(outputCursor) < |outputs| then old(outputCursor) + 1 else old(outputCursor)
      ensures out.OutputBuffer? ==>
        info.offset == 0 && info.size == out.size && info.presentationTimeUs == out.presentationTimeUs && info.flags == out.flags
      ensures !out.OutputBuffer? ==>
        info.offset == old(info.offset) && info.size == old(info.size)
        && info.presentationTimeUs == old(info.presentationTimeUs) && info.flags == old(info.flags)
    {
      out := NextOutput(outputs, outputCursor);
      if outputCursor < |outputs| {
        outputCursor := outputCursor + 1;
      }
      if out.OutputBuffer? {
        info.Set(0, out.size, out.presentationTimeUs, out.flags);
      }
    }

    /** `dequeueInputBuffer(0)`. */
    method DequeueInputBuffer() returns (index: int)
      requires Valid()
      modifies this`inputCursor
      ensures Valid()
      ensures old(inputCursor) < |inputIndices| ==> index == inputIndices[old(inputCursor)] && inputCursor == old(inputCursor) + 1
      ensures old(inputCursor) == |inputIndices| ==> index == -1 && inputCursor == old(inputCursor)
    {
      if inputCursor < |inputIndices| {
        index := inputIndices[inputCursor];
        inputCursor := inputCursor + 1;
      } else {
        index := -1;
      }
    }

    /** `queueInputBuffer(index, 0, size, presentationTimeUs, flags)`: the first `size` bytes
        of the input buffer go to the codec. */
    method QueueInputBuffer(index: int, size: nat, presentationTimeUs: int, flags: Flags)
      requires Valid() && size <= inputBuffer.data.Length
      modifies this`calls
      ensures Valid()
      ensures calls == old(calls) + [QueueInput(index, size, presentationTimeUs, flags, inputBuffer.data[..size])]
    {
      calls := calls + [QueueInput(index, size, presentationTimeUs, flags, inputBuffer.data[..size])];
    }

    /** A call that only appears in the log (`releaseOutputBuffer`, `signalEndOfInputStream`,
        `stop`, `release`). */
    method Log(call: CodecCall)
      requires Valid()
      modifies this`calls
      ensures Valid() && calls == old(calls) + [call]
    {
      calls := calls + [call];
    }
  }
}
