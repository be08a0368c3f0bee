# KTVideoCompressor transcoding core in Dafny

KTVideoCompressor compresses an Android video. It re-encodes the video track to H.264 at
8 Mbit/s through a `MediaExtractor` → decoder → encoder → `MediaMuxer` pipeline. The audio
track is re-encoded when the output format strategy gives an audio format, and copied sample
by sample when it gives none. The no-op strategy always gives one, so under it both tracks
are re-encoded. This project models the Kotlin transcoding core and proves what each
part promises.

The project is split into modules that follow the repository's files:

- `Common` (`common.dfy`): the platform values the core touches.
  - `MediaFormat` is a key→value map.
  - `BufferInfo` and `ByteBuffer` are classes updated in place.
  - JVM `Int`/`Long` wrap-around (`Wrap16`/`Wrap32`/`Wrap64`) and truncating division are written out.
  - A `Result` type carries the exceptions the source throws.
- `AudioRemixer` (`audio_remixer.dfy`) covers the DOWNMIX, UPMIX and PASSTHROUGH remixers.
  - `ShortBuffer` is a class.
  - The DOWNMIX and UPMIX loops are `for` loops, as in the source, each proved against a function of the buffers' contents.
  - The 16-bit mixing formula is modelled with its 32-bit intermediate arithmetic.
- `AudioChannel` (`audio_channel.dfy`) covers the audio channel of the audio track transcoder:
  - the decoded-format check and remixer choice;
  - the buffer pool and FIFO;
  - remixing into the encoder's input buffer and the overflow buffer;
  - `drainOverflow`;
  - `sampleCountToDurationUs`.
- `Codec` (`codec.dfy`) and `Extractor` (`extractor.dfy`) model `MediaCodec` and `MediaExtractor` as scripted collaborator classes.
  - Each answers from a script given at construction.
  - Each records the calls made on it in a log, so a contract can say which calls were made and in what order.
- `Muxer` (`queued_muxer.dfy`) covers `QueuedMuxer`:
  - samples written before both output formats are known are staged in a 64 KiB buffer and held as `SampleInfo`s;
  - they are replayed in order to the platform writer when it starts;
  - later samples are written through.
- `PassThrough` (`passthrough_transcoder.dfy`) covers `PassThroughTrackTranscoder`: one step copies one sample of its track from the extractor to the muxer.
- `VideoTranscoder` (`video_transcoder.dfy`) covers `VideoTrackTranscoder`: the three drain stages (extractor → decoder → encoder → muxer) and the step that runs them.
  - Each drain call is also a function of the script it reads (`EncoderStep`, `DecoderStep`, `ExtractorStep`), and each drain loop a function that repeats it (`EncoderDrain`, `DecoderDrain`, `ExtractorDrain`).
  - Each loop and `StepPipeline` are proved to end in the state these functions compute, with the calls they list.
- `TrackSelection` (`track_selection.dfy`) covers `getFirstVideoAndAudioTrack`.
- `Iso6709` (`iso6709.dfy`) covers the location parser: the regular expression's leftmost match, written out.
- `NoOpStrategy` (`noop_strategy.dfy`) covers the no-op output format strategy.
- `Engine` (`engine.dfy`) covers `MediaTranscoderEngine`:
  - the metadata setup (rotation, location, duration);
  - the choice between transcoding and passing through, and the throws of building a pass-through transcoder (an input without a video track makes setup throw);
  - `toSafeInt`/`toLong`;
  - the stepping loop with its `Int` loop counter and progress reports.

The track transcoders the loop drives are stood in for by scripts: for each step count, the
finished flag and the written time. Both record their `stepPipeline` calls in one shared
`StepLog`, so the order of the calls across the two transcoders is part of the state.

Where the source's own code throws, the model returns an error value, and the contracts state
when that happens. Exceptions raised inside the platform's `MediaMuxer` setters are not
modelled (see "## Left out").

One mismatch between the code and its description: `TrackTranscoder.stepPipeline` takes a
`BufferInfo`, but `VideoTrackTranscoder` overrides it with no parameter and uses its own
`BufferInfo`. The model follows the code.

## Model

| member | source | states |
|---|---|---|
| Common.Wrap16 | ktvideocompressor/src/main/java/com/googlyandroid/ktvideocompressor/engine/AudioRemixer.kt:39 | `toShort()` keeps a value already in 16-bit range and is otherwise congruent to it modulo 2^16 |
| Common.Wrap32 | ktvideocompressor/src/main/java/com/googlyandroid/ktvideocompressor/engine/AudioRemixer.kt:32-35 | Kotlin `Int` arithmetic: the result is an `Int`, congruent modulo 2^32 to the exact value, and equal to it when that fits |
| Common.Wrap64 | ktvideocompressor/src/main/java/com/googlyandroid/ktvideocompressor/MediaTranscoderEngine.kt:185 | Kotlin `Long` arithmetic: the result is a `Long`, congruent modulo 2^64, and exact when the value fits |
| Common.TruncDiv | ktvideocompressor/src/main/java/com/googlyandroid/ktvideocompressor/engine/AudioRemixer.kt:32 | JVM `/` truncates toward zero: it agrees with Euclidean division for a non-negative dividend and is the negated quotient of the magnitudes when exactly one operand is negative, the quotient of the magnitudes when both are |
| Common.GetInteger | ktvideocompressor/src/main/java/com/googlyandroid/ktvideocompressor/mediaStrategy/NoOpMediaFormatStrategy.kt:16-17 | `getInteger` succeeds exactly for a key holding an integer, returns that integer, and otherwise fails with the missing key |
| Common.GetString | ktvideocompressor/src/main/java/com/googlyandroid/ktvideocompressor/utils/MediaExtractorUtils.kt:24 | `getString` is non-null exactly for a key holding a string, and returns that string |
| Common.BufferInfo.constructor | ktvideocompressor/src/main/java/com/googlyandroid/ktvideocompressor/muxer/QueuedMuxer.kt:53 | a fresh `BufferInfo` is all zero |
| Common.BufferInfo.Set | ktvideocompressor/src/main/java/com/googlyandroid/ktvideocompressor/muxer/QueuedMuxer.kt:114 | `set` stores the four given values |
| Common.ByteBuffer.Allocate | ktvideocompressor/src/main/java/com/googlyandroid/ktvideocompressor/muxer/QueuedMuxer.kt:93 | `allocateDirect(64 * 1024)`: capacity as asked, position 0, limit at capacity |
| Common.ByteBuffer.Wrap | ktvideocompressor/src/main/java/com/googlyandroid/ktvideocompressor/transcoders/PassThroughTrackTranscoder.kt:26 | a buffer whose contents, position and limit are as given |
| Common.ByteBuffer.Clear | ktvideocompressor/src/main/java/com/googlyandroid/ktvideocompressor/muxer/QueuedMuxer.kt:66 | `clear()`: position 0, limit at capacity |
| Common.ByteBuffer.Flip | ktvideocompressor/src/main/java/com/googlyandroid/ktvideocompressor/muxer/QueuedMuxer.kt:51 | `flip()`: the limit becomes the old position, the position 0 |
| Common.ByteBuffer.SetLimit | ktvideocompressor/src/main/java/com/googlyandroid/ktvideocompressor/muxer/QueuedMuxer.kt:89 | `limit(n)` sets the limit and pulls a larger position back to it |
| Common.ByteBuffer.SetPosition | ktvideocompressor/src/main/java/com/googlyandroid/ktvideocompressor/muxer/QueuedMuxer.kt:90 | `position(n)` sets the position within the limit |
| Common.ByteBuffer.Put | ktvideocompressor/src/main/java/com/googlyandroid/ktvideocompressor/muxer/QueuedMuxer.kt:96 | bulk `put` succeeds exactly when the source's remaining bytes fit; it then appends exactly them at the position, leaves every byte after the new position as it was, and consumes the source; on overflow nothing changes |
| AudioRemixer.ShortBuffer.Remaining | ktvideocompressor/src/main/java/com/googlyandroid/ktvideocompressor/engine/AudioRemixer.kt:19-20 | `remaining()` is the distance from position to limit |
| AudioRemixer.ShortBuffer.Wrap | ktvideocompressor/src/main/java/com/googlyandroid/ktvideocompressor/engine/AudioChannel.kt:94 | a short view holding exactly the given samples, position 0, limit at the end |
| AudioRemixer.ShortBuffer.Allocate | ktvideocompressor/src/main/java/com/googlyandroid/ktvideocompressor/engine/AudioChannel.kt:97-100 | `allocateDirect(...).asShortBuffer()`: zero-filled, full capacity |
| AudioRemixer.ShortBuffer.Clear | ktvideocompressor/src/main/java/com/googlyandroid/ktvideocompressor/engine/AudioChannel.kt:180 | `clear()`: position 0, limit at capacity, same backing array |
| AudioRemixer.ShortBuffer.Flip | ktvideocompressor/src/main/java/com/googlyandroid/ktvideocompressor/engine/AudioChannel.kt:201 | `flip()`: limit becomes the old position, position 0 |
| AudioRemixer.ShortBuffer.SetLimit | ktvideocompressor/src/main/java/com/googlyandroid/ktvideocompressor/engine/AudioChannel.kt:188 | `limit(n)` sets the limit and pulls a larger position back to it |
| AudioRemixer.ShortBuffer.Put | ktvideocompressor/src/main/java/com/googlyandroid/ktvideocompressor/engine/AudioRemixer.kt:49 | PASSTHROUGH's bulk `put`: all remaining input shorts are copied to the output position and nothing else is written, or a `BufferOverflowException` leaves both buffers untouched |
| AudioRemixer.DownmixBranches | ktvideocompressor/src/main/java/com/googlyandroid/ktvideocompressor/engine/AudioRemixer.kt:25-36 | the unsigned values lie in [0, 65535]; the quiet formula `a*b/32768` is used when either is below 32768, the loud one `2(a+b) - a*b/32768 - 65535` otherwise, exact while `a*b` fits an `Int` |
| AudioRemixer.QuietBranchInRange | ktvideocompressor/src/main/java/com/googlyandroid/ktvideocompressor/engine/AudioRemixer.kt:29-32 | when either input is negative, m is in [0, 65533] and the output is m - 32768 with no wrap |
| AudioRemixer.LoudProductOverflows | ktvideocompressor/src/main/java/com/googlyandroid/ktvideocompressor/engine/AudioRemixer.kt:35 | once both unsigned values reach 46341 the 32-bit product `a * b` overflows and is negative |
| AudioRemixer.DownmixConversion | ktvideocompressor/src/main/java/com/googlyandroid/ktvideocompressor/engine/AudioRemixer.kt:38-39 | only m == 65536 is clamped (to 32767 out); every other m is converted by the 16-bit wrap, exactly when m is in range |
| AudioRemixer.DownmixCount | ktvideocompressor/src/main/java/com/googlyandroid/ktvideocompressor/engine/AudioRemixer.kt:19-22 | DOWNMIX handles `min(in/2, out)` pairs: it never reads past the input or writes past the output, and stops only when the output is full or fewer than two input shorts remain |
| AudioRemixer.UpmixCount | ktvideocompressor/src/main/java/com/googlyandroid/ktvideocompressor/engine/AudioRemixer.kt:59-62 | UPMIX handles `min(in, out/2)` samples, with the same two bounds and the same stopping condition |
| AudioRemixer.Downmixed | ktvideocompressor/src/main/java/com/googlyandroid/ktvideocompressor/engine/AudioRemixer.kt:23 | one mono sample per whole stereo pair |
| AudioRemixer.Upmixed | ktvideocompressor/src/main/java/com/googlyandroid/ktvideocompressor/engine/AudioRemixer.kt:63 | two output shorts per mono sample |
| AudioRemixer.DownmixedConcat | ktvideocompressor/src/main/java/com/googlyandroid/ktvideocompressor/engine/AudioRemixer.kt:23-40 | downmixing a stream chunk by chunk, each chunk whole stereo pairs, gives the same samples as downmixing it at once |
| AudioRemixer.UpmixedConcat | ktvideocompressor/src/main/java/com/googlyandroid/ktvideocompressor/engine/AudioRemixer.kt:63-67 | upmixing a stream chunk by chunk gives the same samples as upmixing it at once |
| AudioRemixer.DownmixLoop | ktvideocompressor/src/main/java/com/googlyandroid/ktvideocompressor/engine/AudioRemixer.kt:23-40 | the loop writes the downmix of the n pairs read at the output position and leaves every other output short as it was |
| AudioRemixer.DownmixRemix | ktvideocompressor/src/main/java/com/googlyandroid/ktvideocompressor/engine/AudioRemixer.kt:14-41 | DOWNMIX advances the input by 2n and the output by n for n = `min(in/2, out)`, and writes the downmix of exactly the shorts it consumed |
| AudioRemixer.UpmixLoop | ktvideocompressor/src/main/java/com/googlyandroid/ktvideocompressor/engine/AudioRemixer.kt:63-67 | the loop writes each of the n input samples twice, in order, and nothing else |
| AudioRemixer.UpmixRemix | ktvideocompressor/src/main/java/com/googlyandroid/ktvideocompressor/engine/AudioRemixer.kt:57-68 | UPMIX advances the input by n and the output by 2n for n = `min(in, out/2)`, and writes the upmix of exactly what it consumed |
| AudioRemixer.Remix | ktvideocompressor/src/main/java/com/googlyandroid/ktvideocompressor/engine/AudioRemixer.kt:5-7 | `remix` on the selected remixer: only PASSTHROUGH throws, when the output has less room than the input holds, and then nothing moves; otherwise both buffers advance by the remixer's counts and the output holds the remix of exactly the consumed shorts |
| AudioRemixer.RemixLengths | ktvideocompressor/src/main/java/com/googlyandroid/ktvideocompressor/engine/AudioRemixer.kt:19-22 | output length is half the consumed length (odd short ignored) for DOWNMIX, double for UPMIX, and the input itself for PASSTHROUGH |
| AudioRemixer.RemixFits | ktvideocompressor/src/main/java/com/googlyandroid/ktvideocompressor/engine/AudioRemixer.kt:59-62 | a remixer that does not throw consumes no more than the input holds and writes no more than the output has room for, and nothing at all into a full output unless it is PASSTHROUGH |
| AudioRemixer.FullScaleDownmixWraps | ktvideocompressor/src/main/java/com/googlyandroid/ktvideocompressor/engine/AudioRemixer.kt:35-39 | as written, two full-scale samples 32767/32767 give m = 196608 and the output short -32768 |
| AudioRemixer.CorrectedDownmixInRange | ktvideocompressor/src/main/java/com/googlyandroid/ktvideocompressor/engine/AudioRemixer.kt:29-39 | the corrected downmix maps full-scale input to 32767, never falls below either non-negative input, and equals the as-written DOWNMIX wherever that neither overflows nor leaves [0, 65535] |
| AudioRemixer.CorrectedLoudAtLeastInputs | ktvideocompressor/src/main/java/com/googlyandroid/ktvideocompressor/engine/AudioRemixer.kt:33-35 | in the corrected loud branch the output is at least each of two non-negative inputs |
| AudioRemixer.CorrectedAgrees | ktvideocompressor/src/main/java/com/googlyandroid/ktvideocompressor/engine/AudioRemixer.kt:29-36 | the corrected formula agrees with the as-written one where the product fits an `Int` and m is in [0, 65535] |
| AudioChannel.SampleCountToDurationUs | ktvideocompressor/src/main/java/com/googlyandroid/ktvideocompressor/engine/AudioChannel.kt:218-222 | `sampleCountToDurationUs` throws `ArithmeticException` exactly when the rate or the channel count is zero |
| AudioChannel.DurationAlmostAlwaysZero | ktvideocompressor/src/main/java/com/googlyandroid/ktvideocompressor/engine/AudioChannel.kt:221 | the duration is 0 for any sample count below `sampleRate * 1_000_000`, so for every `Int` count at rates of 2148 Hz and up |
| AudioChannel.DecodedFormatAccepted | ktvideocompressor/src/main/java/com/googlyandroid/ktvideocompressor/engine/AudioChannel.kt:45-73 | a decoded format is accepted iff all four keys are present, the rates agree and both channel counts are 1 or 2; DOWNMIX iff in > out, UPMIX iff in < out, PASSTHROUGH iff equal |
| AudioChannel.DecodedFormatRejected | ktvideocompressor/src/main/java/com/googlyandroid/ktvideocompressor/engine/AudioChannel.kt:48-64 | a rate mismatch gives "sample rate conversion not supported" before any channel count is read; an unsupported input count is reported before the output count, each with the offending value |
| AudioChannel.AdmittedCount | ktvideocompressor/src/main/java/com/googlyandroid/ktvideocompressor/engine/AudioChannel.kt:185-188 | the input offered to the encoder buffer is the whole chunk if it fits, otherwise exactly the capacity |
| AudioChannel.EncoderChunkContents | ktvideocompressor/src/main/java/com/googlyandroid/ktvideocompressor/engine/AudioChannel.kt:185-206 | the encoder buffer receives the downmix of the admitted whole pairs, the upmix of `min(chunk, capacity/2)` samples, or a fitting chunk verbatim, never more than its capacity |
| AudioChannel.ExcessInputDropped | ktvideocompressor/src/main/java/com/googlyandroid/ktvideocompressor/engine/AudioChannel.kt:194-198 | a chunk larger than the encoder buffer loses its tail under DOWNMIX and UPMIX: not all is consumed and the empty overflow buffer takes nothing |
| AudioChannel.RemixChunkOutcome | ktvideocompressor/src/main/java/com/googlyandroid/ktvideocompressor/engine/AudioChannel.kt:175-209 | null data or no remixer throws; PASSTHROUGH of an oversized chunk throws; DOWNMIX and UPMIX with a non-zero rate and count never throw; a fitting chunk keeps the overflow time; the overflow time of an oversized chunk is its own time at real rates |
| AudioChannel.RemixIntoEncoder | ktvideocompressor/src/main/java/com/googlyandroid/ktvideocompressor/engine/AudioChannel.kt:180-192 | after clearing, limiting, remixing and restoring the limit, the input has its own contents and limit, its position is what was consumed, and the encoder buffer holds exactly the chunk's encoder samples |
| AudioChannel.RemixIntoOverflow | ktvideocompressor/src/main/java/com/googlyandroid/ktvideocompressor/engine/AudioChannel.kt:198-201 | remixing into the empty overflow buffer succeeds except for PASSTHROUGH with input left, and the overflow keeps position and limit 0 |
| AudioChannel.DrainAsWrittenMisbehaves | ktvideocompressor/src/main/java/com/googlyandroid/ktvideocompressor/engine/AudioChannel.kt:160-170 | as written, drainOverflow copies stale shorts from beyond the limit (2 pending, 4 copied) and discards a backlog longer than the encoder buffer (6 pending, 4 copied, none kept) |
| AudioChannel.CorrectedDrainKeepsBacklog | ktvideocompressor/src/main/java/com/googlyandroid/ktvideocompressor/engine/AudioChannel.kt:158-170 | the corrected drain copies exactly `min(remaining, capacity)` shorts from within [position, limit), and whatever it does not copy stays pending |
| AudioChannel.DrainOverflow | ktvideocompressor/src/main/java/com/googlyandroid/ktvideocompressor/engine/AudioChannel.kt:150-173 | the begin time is the overflow time plus the duration of the overflow position; a zero divisor or an encoder buffer larger than the overflow throws; otherwise the encoder buffer holds the overflow's index range `DrainAsWritten` names and the overflow takes its new position and limit |
| AudioChannel.QueueKeepsSlotsDistinct | ktvideocompressor/src/main/java/com/googlyandroid/ktvideocompressor/engine/AudioChannel.kt:87-104 | queuing a chunk moves the polled (or new) `AudioBuffer` from the pool to the FIFO, and no object is in two places |
| AudioChannel.FeedKeepsSlotsDistinct | ktvideocompressor/src/main/java/com/googlyandroid/ktvideocompressor/engine/AudioChannel.kt:132-144 | taking the FIFO's head and returning it to the pool (or dropping it) keeps every object in one place |
| AudioChannel.AudioChannel.constructor | ktvideocompressor/src/main/java/com/googlyandroid/ktvideocompressor/engine/AudioChannel.kt:19-36 | a new channel: no pooled or queued buffers, zero rates and counts, no remixer, no overflow buffer, no decoded format; every `AudioBuffer` object is in one place |
| AudioChannel.AudioChannel.SetActualDecodedFormat | ktvideocompressor/src/main/java/com/googlyandroid/ktvideocompressor/engine/AudioChannel.kt:45-75 | the format is recorded first; success iff the format check passes, then the remixer it selects and overflow time 0; on failure the same error and remixer and overflow time unchanged; each key value stored as it is read |
| AudioChannel.AudioChannel.DrainDecoderBufferAndQueue | ktvideocompressor/src/main/java/com/googlyandroid/ktvideocompressor/engine/AudioChannel.kt:77-105 | a buffer before a format throws; otherwise the pool's head (or a new object) is taken; the first chunk allocates an overflow buffer of its size, and an end-of-stream marker first throws on `data!!`; the chunk is appended to the FIFO; an object in one place stays in one place |
| AudioChannel.AudioChannel.AllocateOverflow | ktvideocompressor/src/main/java/com/googlyandroid/ktvideocompressor/engine/AudioChannel.kt:96-102 | the overflow buffer is allocated fresh, with a capacity the model takes as the chunk's length in shorts (the source uses the decoder buffer's byte capacity halved), and after `clear().flip()` it is empty |
| AudioChannel.AudioChannel.RemixAndMaybeFillOverflow | ktvideocompressor/src/main/java/com/googlyandroid/ktvideocompressor/engine/AudioChannel.kt:175-209 | fails exactly as `RemixChunk` does; on success it returns the chunk's time, the encoder buffer holds the chunk's encoder samples and the overflow time is updated |
| AudioChannel.AudioChannel.FeedEncoder | ktvideocompressor/src/main/java/com/googlyandroid/ktvideocompressor/engine/AudioChannel.kt:107-148 | nothing to feed or a full encoder gives false; the end-of-stream chunk queues an empty EOS input and gives false; a data chunk is remixed, queued with size `2 * samples` and its time, its decoder buffer released and its object returned to the pool; an object in one place stays in one place |
| Codec.MediaCodec.constructor | ktvideocompressor/src/main/java/com/googlyandroid/ktvideocompressor/transcoders/VideoTrackTranscoder.kt:57-62 | a codec with its scripted outputs and input indices and nothing called yet |
| Codec.MediaCodec.DequeueOutputBuffer | ktvideocompressor/src/main/java/com/googlyandroid/ktvideocompressor/transcoders/VideoTrackTranscoder.kt:157 | `dequeueOutputBuffer` gives the next scripted result; a filled buffer also sets `BufferInfo` to offset 0 with its size, time and flags |
| Codec.MediaCodec.DequeueInputBuffer | ktvideocompressor/src/main/java/com/googlyandroid/ktvideocompressor/transcoders/VideoTrackTranscoder.kt:132 | `dequeueInputBuffer` gives the next scripted index, -1 once used up |
| Codec.MediaCodec.QueueInputBuffer | ktvideocompressor/src/main/java/com/googlyandroid/ktvideocompressor/transcoders/VideoTrackTranscoder.kt:144-145 | `queueInputBuffer` hands the codec the first `size` bytes of its input buffer with the time and flags |
| Codec.MediaCodec.Log | ktvideocompressor/src/main/java/com/googlyandroid/ktvideocompressor/transcoders/VideoTrackTranscoder.kt:170 | release, end-of-input, stop and release calls are recorded in order |
| Extractor.KeyFrameFlags | ktvideocompressor/src/main/java/com/googlyandroid/ktvideocompressor/transcoders/PassThroughTrackTranscoder.kt:52-53 | the codec flags are `BUFFER_FLAG_SYNC_FRAME` exactly when the extractor's sync bit is set, else 0 |
| Extractor.MediaExtractor.constructor | ktvideocompressor/src/main/java/com/googlyandroid/ktvideocompressor/MediaTranscoderEngine.kt:47-48 | an extractor over the given tracks and samples, positioned at the first sample |
| Extractor.MediaExtractor.GetTrackFormat | ktvideocompressor/src/main/java/com/googlyandroid/ktvideocompressor/utils/MediaExtractorUtils.kt:23 | `getTrackFormat(i)` gives track i's format and throws outside the tracks |
| Extractor.MediaExtractor.SampleTrackIndex | ktvideocompressor/src/main/java/com/googlyandroid/ktvideocompressor/transcoders/PassThroughTrackTranscoder.kt:39 | `getSampleTrackIndex` is -1 exactly when no sample is left, else the current sample's track |
| Extractor.MediaExtractor.ReadSampleData | ktvideocompressor/src/main/java/com/googlyandroid/ktvideocompressor/transcoders/PassThroughTrackTranscoder.kt:50 | `readSampleData` gives -1 with no sample left, throws when the sample does not fit, else copies exactly the sample at the offset and sets position and limit around it |
| Extractor.MediaExtractor.Advance | ktvideocompressor/src/main/java/com/googlyandroid/ktvideocompressor/transcoders/PassThroughTrackTranscoder.kt:58 | `advance` moves to the next sample, if any |
| Muxer.SizeSumPrefix | ktvideocompressor/src/main/java/com/googlyandroid/ktvideocompressor/muxer/QueuedMuxer.kt:54-63 | with no negative size, the running replay offset never exceeds the total of the held sizes |
| Muxer.ReplayStep | ktvideocompressor/src/main/java/com/googlyandroid/ktvideocompressor/muxer/QueuedMuxer.kt:55-63 | replaying one more held sample appends at most its own write, at the running offset |
| Muxer.ReplayWritesAll | ktvideocompressor/src/main/java/com/googlyandroid/ktvideocompressor/muxer/QueuedMuxer.kt:53-63 | with both track indices known, the replay writes every held sample in insertion order, under its type's track, at the sum of the sizes before it, with its own size and its stamp |
| Muxer.ReplaySkipsUnindexed | ktvideocompressor/src/main/java/com/googlyandroid/ktvideocompressor/muxer/QueuedMuxer.kt:57-60 | the replay writes exactly the held samples whose type has a track index, each under a recorded index |
| Muxer.ReplaySharedBufferInfo | ktvideocompressor/src/main/java/com/googlyandroid/ktvideocompressor/muxer/QueuedMuxer.kt:97-99 | samples held with the same `BufferInfo` object are all replayed with that object's current time and flags, not those they had when held |
| Muxer.ReplayWithinStaged | ktvideocompressor/src/main/java/com/googlyandroid/ktvideocompressor/muxer/QueuedMuxer.kt:54-63 | every replayed write lies within the staged bytes when the held sizes add up to at most them |
| Muxer.Narrow | ktvideocompressor/src/main/java/com/googlyandroid/ktvideocompressor/muxer/QueuedMuxer.kt:89-90 | `limit(offset + size)` then `position(offset)` succeed exactly when 0 <= offset <= offset + size <= capacity, and then frame exactly that range |
| Muxer.WriteToBufferInfo | ktvideocompressor/src/main/java/com/googlyandroid/ktvideocompressor/muxer/QueuedMuxer.kt:113-115 | `writeToBufferInfo` sets the given offset, the sample's size, and the time and flags of its `BufferInfo` |
| Muxer.ReplayHeld | ktvideocompressor/src/main/java/com/googlyandroid/ktvideocompressor/muxer/QueuedMuxer.kt:53-63 | the replay loop produces exactly `Replay` of the held samples over the staged bytes |
| Muxer.FlipAndReplay | ktvideocompressor/src/main/java/com/googlyandroid/ktvideocompressor/muxer/QueuedMuxer.kt:51-66 | flip, replay and clear: the writer calls are `Replay` of the held samples over the bytes staged before the flip, and the buffer ends cleared |
| Muxer.QueuedMuxer.constructor | ktvideocompressor/src/main/java/com/googlyandroid/ktvideocompressor/muxer/QueuedMuxer.kt:11-19 | a new muxer: nothing started, no formats, no track indices, no held samples, no writer calls |
| Muxer.QueuedMuxer.SetOutputFormat | ktvideocompressor/src/main/java/com/googlyandroid/ktvideocompressor/muxer/QueuedMuxer.kt:22-67 | the whole new state, as `OutputFormatSet` states it: the format of the given type is recorded; while the other is missing nothing else changes; otherwise this type's track is added, the writer is started and the held samples are replayed in order |
| Muxer.QueuedMuxer.StartAndReplay | ktvideocompressor/src/main/java/com/googlyandroid/ktvideocompressor/muxer/QueuedMuxer.kt:45-66 | after start the writer has received the track, the start and the replay of everything held, and nothing is held any more |
| Muxer.QueuedMuxer.WriteSampleData | ktvideocompressor/src/main/java/com/googlyandroid/ktvideocompressor/muxer/QueuedMuxer.kt:80-100 | once started, a sample goes directly to its type's track (or nowhere without an index); before that it is held and its bytes staged; it fails only before the start, with `IllegalArgumentException` for a bad range and `BufferOverflowException` when the staging buffer is full, changing nothing |
| Muxer.QueuedMuxer.Hold | ktvideocompressor/src/main/java/com/googlyandroid/ktvideocompressor/muxer/QueuedMuxer.kt:89-99 | before the start a sample either fails (range or overflow) with nothing changed, or is appended to the held list with its bytes staged after the earlier ones |
| Muxer.QueuedMuxer.Stage | ktvideocompressor/src/main/java/com/googlyandroid/ktvideocompressor/muxer/QueuedMuxer.kt:92-99 | the staging buffer is allocated on first use; the sample's remaining bytes are appended and its info held, or `BufferOverflowException` leaves both unchanged |
| PassThrough.PassThroughTrackTranscoder.constructor | ktvideocompressor/src/main/java/com/googlyandroid/ktvideocompressor/transcoders/PassThroughTrackTranscoder.kt:16-27 | the state after `init`: the format, a buffer of `KEY_MAX_INPUT_SIZE` bytes, written time 0 and no end of stream; it fails exactly when `PassThroughBufferSize` does, with the same error, and otherwise has that buffer size |
| PassThrough.PassThroughTrackTranscoder.StepPipeline | ktvideocompressor/src/main/java/com/googlyandroid/ktvideocompressor/transcoders/PassThroughTrackTranscoder.kt:37-60 | after EOS nothing happens (false); an exhausted extractor writes one empty EOS sample (true); another track's sample is left alone (false); an own sample is forwarded with its size, time and sync flag, the written time follows it and the extractor advances (true) |
| PassThrough.PassThroughTrackTranscoder.WriteEndOfStream | ktvideocompressor/src/main/java/com/googlyandroid/ktvideocompressor/transcoders/PassThroughTrackTranscoder.kt:40-46 | the end-of-stream sample has offset, size and time 0 and the EOS flag, is accepted by the muxer, and sets the flag |
| PassThrough.PassThroughTrackTranscoder.ForwardSample | ktvideocompressor/src/main/java/com/googlyandroid/ktvideocompressor/transcoders/PassThroughTrackTranscoder.kt:49-59 | an own-track sample is read, stamped and accepted by the muxer, or the read or the muxer throws and nothing advances: cursor, written time and the muxer's state are unchanged |
| PassThrough.PassThroughTrackTranscoder.ReadAndStamp | ktvideocompressor/src/main/java/com/googlyandroid/ktvideocompressor/transcoders/PassThroughTrackTranscoder.kt:49-54 | the sample is read into the cleared buffer and `BufferInfo` holds offset 0, its size, time and sync flag; a sample larger than the buffer throws |
| PassThrough.NewPassThroughTrackTranscoder | ktvideocompressor/src/main/java/com/googlyandroid/ktvideocompressor/transcoders/PassThroughTrackTranscoder.kt:12-27 | a bad track index throws before anything; otherwise the format is registered with the muxer under the type, with the muxer's whole new state as `OutputFormatSet` gives it; a missing `KEY_MAX_INPUT_SIZE` or a negative one throws, else a fresh transcoder with a buffer of that size, written time 0 and no end of stream |
| TrackSelection.Mimes | ktvideocompressor/src/main/java/com/googlyandroid/ktvideocompressor/utils/MediaExtractorUtils.kt:23-24 | one mime (or null) per track, in track order |
| TrackSelection.FirstWithPrefix | ktvideocompressor/src/main/java/com/googlyandroid/ktvideocompressor/utils/MediaExtractorUtils.kt:25-33 | the lowest index whose mime starts with the prefix, -1 when none does |
| TrackSelection.ScanEnd | ktvideocompressor/src/main/java/com/googlyandroid/ktvideocompressor/utils/MediaExtractorUtils.kt:34 | the scan reaches the later of the two first tracks when both exist, otherwise every track |
| TrackSelection.PrefixesExclusive | ktvideocompressor/src/main/java/com/googlyandroid/ktvideocompressor/utils/MediaExtractorUtils.kt:25-29 | no mime starts with both "video/" and "audio/" |
| TrackSelection.FirstWithPrefixStep | ktvideocompressor/src/main/java/com/googlyandroid/ktvideocompressor/utils/MediaExtractorUtils.kt:22-33 | adding a track extends the first-match search by exactly that track |
| TrackSelection.TrackResult.constructor | ktvideocompressor/src/main/java/com/googlyandroid/ktvideocompressor/utils/MediaExtractorUtils.kt:8-15 | a fresh `TrackResult` holds index 0 and null mime and format for both tracks |
| TrackSelection.SelectionIsFirstTracks | ktvideocompressor/src/main/java/com/googlyandroid/ktvideocompressor/utils/MediaExtractorUtils.kt:17-37 | the scan succeeds iff every track it reaches has a mime (null throws), and then finds the first video and the first audio track, which differ |
| TrackSelection.ScanFromIsFirstTracks | ktvideocompressor/src/main/java/com/googlyandroid/ktvideocompressor/utils/MediaExtractorUtils.kt:22-35 | from any point with the first matches of the prefix so far, the scan ends with the first matches of the whole list |
| TrackSelection.ScanReachesNull | ktvideocompressor/src/main/java/com/googlyandroid/ktvideocompressor/utils/MediaExtractorUtils.kt:24-29 | a null mime met by the scan throws, and lies inside the scanned range |
| TrackSelection.ScanCompletesAt | ktvideocompressor/src/main/java/com/googlyandroid/ktvideocompressor/utils/MediaExtractorUtils.kt:34 | when a track supplies the second of the two, the scan stops there |
| TrackSelection.ScanContinues | ktvideocompressor/src/main/java/com/googlyandroid/ktvideocompressor/utils/MediaExtractorUtils.kt:22-35 | while one of the two is missing the scan continues with the next track |
| TrackSelection.GetFirstVideoAndAudioTrack | ktvideocompressor/src/main/java/com/googlyandroid/ktvideocompressor/utils/MediaExtractorUtils.kt:17-37 | the result records the first video and first audio track, each with its own mime and format, or -1 and nulls; a null mime reached throws |
| TrackSelection.FirstWithPrefixStable | ktvideocompressor/src/main/java/com/googlyandroid/ktvideocompressor/utils/MediaExtractorUtils.kt:25-33 | a first match found in a prefix of the tracks is the first match of all of them |
| TrackSelection.FirstPrefixReached | ktvideocompressor/src/main/java/com/googlyandroid/ktvideocompressor/utils/MediaExtractorUtils.kt:34 | while one of the two is still missing, the next track is inside the scan |
| VideoTranscoder.BusyIffProgress | ktvideocompressor/src/main/java/com/googlyandroid/ktvideocompressor/transcoders/VideoTrackTranscoder.kt:87-100 | `busy` is true exactly when some drain call answered other than NONE: a stage repeated or the decoder's one answer was not NONE |
| VideoTranscoder.EncoderStep | ktvideocompressor/src/main/java/com/googlyandroid/ktvideocompressor/transcoders/VideoTrackTranscoder.kt:180-217 | one `drainEncoder(0)` call on the encoder's script: a non-NONE answer consumes exactly one output, and the cursor never passes the script |
| VideoTranscoder.DecoderStep | ktvideocompressor/src/main/java/com/googlyandroid/ktvideocompressor/transcoders/VideoTrackTranscoder.kt:155-178 | one `drainDecoder(0)` call on the decoder's script: a non-NONE answer consumes exactly one output, and the cursor never passes the script |
| VideoTranscoder.ExtractorStep | ktvideocompressor/src/main/java/com/googlyandroid/ktvideocompressor/transcoders/VideoTrackTranscoder.kt:124-153 | one `drainExtractor(0)` call on the samples and the decoder's free inputs: a non-NONE answer takes exactly one input, and no cursor passes its script |
| VideoTranscoder.EncoderDrainShape | ktvideocompressor/src/main/java/com/googlyandroid/ktvideocompressor/transcoders/VideoTrackTranscoder.kt:91 | the encoder drain loop ends with its first NONE |
| VideoTranscoder.EncoderDrainConsumes | ktvideocompressor/src/main/java/com/googlyandroid/ktvideocompressor/transcoders/VideoTrackTranscoder.kt:181-203 | draining the encoder consumes its outputs up to and including the first TRY_AGAIN_LATER or END_OF_STREAM buffer, or all of them, and ends at end of stream exactly when it consumed an END_OF_STREAM buffer |
| VideoTranscoder.EncoderDrainReleases | ktvideocompressor/src/main/java/com/googlyandroid/ktvideocompressor/transcoders/VideoTrackTranscoder.kt:204-215 | draining the encoder releases exactly the buffers among the outputs it consumed, each unrendered, in order |
| VideoTranscoder.EncoderStepStops | ktvideocompressor/src/main/java/com/googlyandroid/ktvideocompressor/transcoders/VideoTrackTranscoder.kt:181-215 | from a position before the end of stream one encoder call consumes one output, stops the loop exactly on TRY_AGAIN_LATER or an END_OF_STREAM buffer and releases it when it is a buffer |
| VideoTranscoder.DecoderDrainShape | ktvideocompressor/src/main/java/com/googlyandroid/ktvideocompressor/transcoders/VideoTrackTranscoder.kt:92-96 | the decoder's answers are SHOULD_RETRY_IMMEDIATELY up to its last, which is not |
| VideoTranscoder.ExtractorDrainShape | ktvideocompressor/src/main/java/com/googlyandroid/ktvideocompressor/transcoders/VideoTrackTranscoder.kt:97 | the extractor drain ends with its first NONE; every earlier answer is CONSUMED and queued one own-track sample, the samples in extractor order; it reaches end of stream only with the samples used up |
| VideoTranscoder.StepPipelineShape | ktvideocompressor/src/main/java/com/googlyandroid/ktvideocompressor/transcoders/VideoTrackTranscoder.kt:87-100 | for any scripts the three drains of one step have the shape described by `PipelineShape`: encoder until NONE, decoder while SHOULD_RETRY_IMMEDIATELY, extractor until NONE |
| VideoTranscoder.VideoTrackTranscoder.constructor | ktvideocompressor/src/main/java/com/googlyandroid/ktvideocompressor/transcoders/VideoTrackTranscoder.kt:35-83 | the state `setup` leaves: both codecs started, no end of stream, no output format, written time 0 |
| VideoTranscoder.VideoTrackTranscoder.DrainExtractor | ktvideocompressor/src/main/java/com/googlyandroid/ktvideocompressor/transcoders/VideoTrackTranscoder.kt:124-153 | NONE after extractor EOS, for another track's sample or with no free decoder input; an exhausted extractor queues an empty EOS input; an own sample is queued with its time and sync flag and the extractor advances (CONSUMED); an oversized sample throws |
| VideoTranscoder.VideoTrackTranscoder.QueueSample | ktvideocompressor/src/main/java/com/googlyandroid/ktvideocompressor/transcoders/VideoTrackTranscoder.kt:140-149 | the own-track sample is copied to the decoder's input, queued with its size, time and flags, and the extractor advances |
| VideoTranscoder.VideoTrackTranscoder.DrainDecoder | ktvideocompressor/src/main/java/com/googlyandroid/ktvideocompressor/transcoders/VideoTrackTranscoder.kt:155-178 | NONE after decoder EOS or on try-again; RETRY on a format or buffers change; an EOS buffer signals end of input to the encoder and forces size 0; the buffer is released and rendered exactly when its size is positive (CONSUMED) |
| VideoTranscoder.VideoTrackTranscoder.DrainEncoder | ktvideocompressor/src/main/java/com/googlyandroid/ktvideocompressor/transcoders/VideoTrackTranscoder.kt:180-217 | NONE after encoder EOS or on try-again; a second format change throws; the first registers the format with the muxer (RETRY); a buffer before any format throws; an EOS buffer zeroes offset, size and time; a config buffer is released unwritten (RETRY); any other is written as VIDEO, the written time follows it and it is released (CONSUMED); when nothing throws, answer, cursor, flag and calls are those of `EncoderStep`; the muxer's new state is `OutputFormatSet` on a format change |
| VideoTranscoder.VideoTrackTranscoder.HandleEncodedBuffer | ktvideocompressor/src/main/java/com/googlyandroid/ktvideocompressor/transcoders/VideoTrackTranscoder.kt:200-216 | EOS handling, config skipping and writing of one encoded buffer, as in `DrainEncoder` |
| VideoTranscoder.VideoTrackTranscoder.WriteEncoded | ktvideocompressor/src/main/java/com/googlyandroid/ktvideocompressor/transcoders/VideoTrackTranscoder.kt:209-216 | the buffer is accepted by the muxer as VIDEO, the written time becomes its time and it is released |
| VideoTranscoder.VideoTrackTranscoder.EncoderDrainPass | ktvideocompressor/src/main/java/com/googlyandroid/ktvideocompressor/transcoders/VideoTrackTranscoder.kt:91 | one pass of the encoder drain loop keeps the encoder's remaining drain equal to what `EncoderDrain` predicted at the loop's start |
| VideoTranscoder.VideoTrackTranscoder.DecoderDrainPass | ktvideocompressor/src/main/java/com/googlyandroid/ktvideocompressor/transcoders/VideoTrackTranscoder.kt:92-96 | one pass of the decoder drain loop keeps the decoder's remaining drain equal to what `DecoderDrain` predicted, and signals end of input to the encoder only on reaching the decoder's end of stream |
| VideoTranscoder.VideoTrackTranscoder.ExtractorDrainPass | ktvideocompressor/src/main/java/com/googlyandroid/ktvideocompressor/transcoders/VideoTrackTranscoder.kt:97 | one pass of the extractor drain loop keeps the remaining feed equal to what `ExtractorDrain` predicted |
| VideoTranscoder.VideoTrackTranscoder.DrainEncoderUntilNone | ktvideocompressor/src/main/java/com/googlyandroid/ktvideocompressor/transcoders/VideoTrackTranscoder.kt:91 | when no call throws, the encoder's cursor, end-of-stream flag and calls are exactly those `EncoderDrain` computes from the script, and `busy` is whether any of its answers was not NONE |
| VideoTranscoder.VideoTrackTranscoder.DrainDecoderUntilSettled | ktvideocompressor/src/main/java/com/googlyandroid/ktvideocompressor/transcoders/VideoTrackTranscoder.kt:92-96 | the decoder's cursor, flag and calls are exactly those `DecoderDrain` computes; the encoder is told the end of its input once, exactly when the decoder reaches its end of stream; `busy` is whether any answer was not NONE |
| VideoTranscoder.VideoTrackTranscoder.DrainExtractorUntilNone | ktvideocompressor/src/main/java/com/googlyandroid/ktvideocompressor/transcoders/VideoTrackTranscoder.kt:97 | when no call throws, the extractor's cursor, the decoder's input cursor, the flag and the inputs queued are exactly those `ExtractorDrain` computes; `busy` is whether any answer was not NONE |
| VideoTranscoder.VideoTrackTranscoder.StepPipeline | ktvideocompressor/src/main/java/com/googlyandroid/ktvideocompressor/transcoders/VideoTrackTranscoder.kt:87-100 | when nothing throws, the three stages end in the cursors, flags and codec calls that `EncoderDrain`, `DecoderDrain` and `ExtractorDrain` compute in turn, and the answer is true exactly when one of their answers was not NONE; end-of-stream flags never go back |
| VideoTranscoder.VideoTrackTranscoder.Release | ktvideocompressor/src/main/java/com/googlyandroid/ktvideocompressor/transcoders/VideoTrackTranscoder.kt:106-122 | each codec is stopped if it was started, then released, decoder first |
| Iso6709.RunLength | ktvideocompressor/src/main/java/com/googlyandroid/ktvideocompressor/utils/ISO6709LocationParser.kt:6 | greedy `[0-9.]*`: the run stays inside the string, holds only digits and points, and is maximal |
| Iso6709.MatchAtSound | ktvideocompressor/src/main/java/com/googlyandroid/ktvideocompressor/utils/ISO6709LocationParser.kt:6 | a match at i consists of two groups `[+-][0-9.]+` back to back at i, and the second cannot be extended |
| Iso6709.MatchAtGroups | ktvideocompressor/src/main/java/com/googlyandroid/ktvideocompressor/utils/ISO6709LocationParser.kt:6 | two groups back to back at i, the second followed by a non-member, are exactly the match at i |
| Iso6709.MatchAtComplete | ktvideocompressor/src/main/java/com/googlyandroid/ktvideocompressor/utils/ISO6709LocationParser.kt:6 | wherever two groups appear back to back, the pattern matches there with the same latitude group |
| Iso6709.RunFromGroup | ktvideocompressor/src/main/java/com/googlyandroid/ktvideocompressor/utils/ISO6709LocationParser.kt:6 | a run of `[0-9.]` ending at a non-member is exactly the greedy run |
| Iso6709.FindFrom | ktvideocompressor/src/main/java/com/googlyandroid/ktvideocompressor/utils/ISO6709LocationParser.kt:19-20 | `find()` returns the leftmost position at or after i where the pattern matches, with its groups, and none when there is no match |
| Iso6709.LeftmostUnique | ktvideocompressor/src/main/java/com/googlyandroid/ktvideocompressor/utils/ISO6709LocationParser.kt:20 | the leftmost match position is unique |
| Iso6709.ParseResult | ktvideocompressor/src/main/java/com/googlyandroid/ktvideocompressor/utils/ISO6709LocationParser.kt:17-36 | a null location gives null; otherwise the result is non-null iff the pattern matches and both groups of the leftmost match are numbers, and then it is exactly those two groups, latitude first |
| Iso6709.ParseFromStart | ktvideocompressor/src/main/java/com/googlyandroid/ktvideocompressor/utils/ISO6709LocationParser.kt:19-30 | a match at the very start decides the result |
| Iso6709.ParseTwoGroups | ktvideocompressor/src/main/java/com/googlyandroid/ktvideocompressor/utils/ISO6709LocationParser.kt:17-36 | two groups at the start followed by anything that cannot extend the second give those groups exactly when both are numbers |
| Iso6709.ParseWithAltitude | ktvideocompressor/src/main/java/com/googlyandroid/ktvideocompressor/utils/ISO6709LocationParser.kt:17-36 | "+1.5-2+9/" gives latitude "+1.5" and longitude "-2": the altitude is ignored |
| Iso6709.LeftmostMatchOnly | ktvideocompressor/src/main/java/com/googlyandroid/ktvideocompressor/utils/ISO6709LocationParser.kt:20-35 | a leftmost match whose latitude "+1.." is not a number gives null, although a later match would parse |
| NoOpStrategy.VideoOutputFormat | ktvideocompressor/src/main/java/com/googlyandroid/ktvideocompressor/mediaStrategy/NoOpMediaFormatStrategy.kt:15-26 | built exactly when width and height are integers (else the missing key's error); never null; same width and height; "video/avc", 8 Mbit/s, 30 fps, I-frame interval 3, surface color format; no audio keys |
| NoOpStrategy.AudioOutputFormat | ktvideocompressor/src/main/java/com/googlyandroid/ktvideocompressor/mediaStrategy/NoOpMediaFormatStrategy.kt:28-35 | built exactly when the sample rate is an integer; never null; same sample rate; "audio/mp4a-latm", AAC-LC, channel count and bit rate -1 |
| NoOpStrategy.AudioOutputRejectedByChannel | ktvideocompressor/src/main/java/com/googlyandroid/ktvideocompressor/mediaStrategy/NoOpMediaFormatStrategy.kt:30-31 | the audio channel rejects every decoded format against this output, with output channel count -1 once the rates match and the input count is supported |
| Engine.SplitSign | ktvideocompressor/src/main/java/com/googlyandroid/ktvideocompressor/MediaTranscoderEngine.kt:192-198 | the digit part is never longer than the string |
| Engine.ParseDecimal | ktvideocompressor/src/main/java/com/googlyandroid/ktvideocompressor/MediaTranscoderEngine.kt:192-198 | a parsed value always lies within the integer type's bounds |
| Engine.ParseInt | ktvideocompressor/src/main/java/com/googlyandroid/ktvideocompressor/MediaTranscoderEngine.kt:194 | `toInt()` is the decimal parse with `Int` bounds |
| Engine.ParseLong | ktvideocompressor/src/main/java/com/googlyandroid/ktvideocompressor/MediaTranscoderEngine.kt:185 | `toLong()` gives a value within `Long` bounds |
| Engine.DigitChar | ktvideocompressor/src/main/java/com/googlyandroid/ktvideocompressor/MediaTranscoderEngine.kt:194 | the reference digit character has the given value |
| Engine.NatDigits | ktvideocompressor/src/main/java/com/googlyandroid/ktvideocompressor/MediaTranscoderEngine.kt:194 | the reference decimal form is a non-empty string of digits |
| Engine.NatDigitsValue | ktvideocompressor/src/main/java/com/googlyandroid/ktvideocompressor/MediaTranscoderEngine.kt:194 | the digits of n read back as n |
| Engine.ParseFormatRoundTrip | ktvideocompressor/src/main/java/com/googlyandroid/ktvideocompressor/MediaTranscoderEngine.kt:192-198 | parsing the decimal form of n gives n exactly when n is within the bounds, and fails otherwise |
| Engine.ParseIntOutOfRange | ktvideocompressor/src/main/java/com/googlyandroid/ktvideocompressor/MediaTranscoderEngine.kt:192-198 | a value beyond `Int` is not an `Int` string |
| Engine.ToSafeInt | ktvideocompressor/src/main/java/com/googlyandroid/ktvideocompressor/MediaTranscoderEngine.kt:192-198 | a null receiver throws `NullPointerException`, anything else is the parse |
| Engine.ToSafeIntRoundTrip | ktvideocompressor/src/main/java/com/googlyandroid/ktvideocompressor/MediaTranscoderEngine.kt:192-198 | `toSafeInt` of an `Int`'s decimal form is that `Int` |
| Engine.ParseSignsAndZeros | ktvideocompressor/src/main/java/com/googlyandroid/ktvideocompressor/MediaTranscoderEngine.kt:192-198 | a leading '+' or '0' does not change what a digit string parses to, and a leading '-' gives the negated value when it is within the bounds and fails otherwise |
| Engine.DigitsValueLeadingZero | ktvideocompressor/src/main/java/com/googlyandroid/ktvideocompressor/MediaTranscoderEngine.kt:194 | a leading zero keeps a digit string a digit string with the same value |
| Engine.DurationUs | ktvideocompressor/src/main/java/com/googlyandroid/ktvideocompressor/MediaTranscoderEngine.kt:183-188 | the duration is a `Long` |
| Engine.DurationRule | ktvideocompressor/src/main/java/com/googlyandroid/ktvideocompressor/MediaTranscoderEngine.kt:183-188 | -1 exactly when the string is not a `Long` (never otherwise, the value being even); exact `ms * 1000` within `Long.MAX_VALUE / 1000`; positive for a positive such duration |
| Engine.RotationRule | ktvideocompressor/src/main/java/com/googlyandroid/ktvideocompressor/MediaTranscoderEngine.kt:168-170 | a null rotation throws; otherwise the orientation hint is set, first, exactly when the rotation is an `Int`, with that value |
| Engine.LocationRule | ktvideocompressor/src/main/java/com/googlyandroid/ktvideocompressor/MediaTranscoderEngine.kt:172-181 | the location is set, last and once, exactly when the platform allows it and the location parses, with latitude then longitude; the duration is independent of both |
| Engine.SetupChoice | ktvideocompressor/src/main/java/com/googlyandroid/ktvideocompressor/MediaTranscoderEngine.kt:113-162 | the plan (before any transcoder is built) fails exactly when a strategy call throws, video first; each track is planned for transcoding iff its format was found and the strategy gave non-null, to that format, else for pass-through; audio gets a plan iff its index is not -1 |
| Engine.SetupBuildsPlan | ktvideocompressor/src/main/java/com/googlyandroid/ktvideocompressor/MediaTranscoderEngine.kt:113-162 | setup fails exactly when the plan fails or building a planned pass-through transcoder throws (as `PassThroughBufferSize` says), video before audio; otherwise the transcoders built are the plan |
| Engine.SetupWithoutVideoTrackThrows | ktvideocompressor/src/main/java/com/googlyandroid/ktvideocompressor/MediaTranscoderEngine.kt:129-139 | with no video track (index -1, null format) setup always throws: `IllegalArgumentException` from `getTrackFormat(-1)` in the pass-through constructor, unless the audio strategy threw first |
| Engine.SetupPassThroughNeedsMaxInputSize | ktvideocompressor/src/main/java/com/googlyandroid/ktvideocompressor/MediaTranscoderEngine.kt:129-139 | a found video track passed through whose format lacks `KEY_MAX_INPUT_SIZE` makes setup throw on that missing key |
| PassThrough.PassThroughBufferSize | ktvideocompressor/src/main/java/com/googlyandroid/ktvideocompressor/transcoders/PassThroughTrackTranscoder.kt:18-26 | constructing a pass-through transcoder throws `IllegalArgumentException` outside the tracks, the missing-key error without `KEY_MAX_INPUT_SIZE`, and otherwise gives exactly that non-negative integer as the buffer size |
| Engine.NoOpNeverPassesThrough | ktvideocompressor/src/main/java/com/googlyandroid/ktvideocompressor/MediaTranscoderEngine.kt:119-125 | with the no-op strategy a found video track with width and height, and a found audio track with a sample rate, are both transcoded |
| Engine.RemTenZero | ktvideocompressor/src/main/java/com/googlyandroid/ktvideocompressor/MediaTranscoderEngine.kt:111 | Kotlin's `% 10` is zero exactly when the Euclidean one is |
| Engine.Wrap32Succ | ktvideocompressor/src/main/java/com/googlyandroid/ktvideocompressor/MediaTranscoderEngine.kt:95 | incrementing the wrapped counter equals wrapping the incremented count |
| Engine.IsStillProcessingRule | ktvideocompressor/src/main/java/com/googlyandroid/ktvideocompressor/MediaTranscoderEngine.kt:110-111 | progress is due iff the duration is positive and the `Int` loop count is a multiple of 10, negative (wrapped) counts included |
| Engine.Increment | ktvideocompressor/src/main/java/com/googlyandroid/ktvideocompressor/MediaTranscoderEngine.kt:95 | `loopCount++` keeps the counter equal to the wrapped iteration count |
| Engine.TrackProgressRange | ktvideocompressor/src/main/java/com/googlyandroid/ktvideocompressor/MediaTranscoderEngine.kt:98-101 | a track's progress is at most 1, exactly 1 once finished or past the duration, the written fraction before that, and non-negative for a non-negative written time |
| Engine.TrackProgressIsMin | ktvideocompressor/src/main/java/com/googlyandroid/ktvideocompressor/MediaTranscoderEngine.kt:98-101 | a track's progress is the source's formula: 1 once finished, else `min(1.0, written / duration)` |
| Engine.ProgressRange | ktvideocompressor/src/main/java/com/googlyandroid/ktvideocompressor/MediaTranscoderEngine.kt:102 | the mean progress is in [0, 1] for non-negative written times and 1 once both tracks are finished |
| Engine.ScriptedTranscoder.constructor | ktvideocompressor/src/main/java/com/googlyandroid/ktvideocompressor/transcoders/TrackTranscoder.kt:6-13 | a transcoder over a script that ends finished, with no step taken |
| Engine.ScriptedTranscoder.IsFinished | ktvideocompressor/src/main/java/com/googlyandroid/ktvideocompressor/transcoders/TrackTranscoder.kt:11 | `isFinished()` is the script's state after the steps taken |
| Engine.ScriptedTranscoder.WrittenPresentationTimeUs | ktvideocompressor/src/main/java/com/googlyandroid/ktvideocompressor/transcoders/TrackTranscoder.kt:10 | `getWrittenPresentationTimeUS()` is the script's written time after the steps taken |
| Engine.ScriptedTranscoder.StepPipeline | ktvideocompressor/src/main/java/com/googlyandroid/ktvideocompressor/transcoders/TrackTranscoder.kt:9 | `stepPipeline` takes one step and appends this transcoder's kind to the shared log |
| Engine.StepLog.constructor | ktvideocompressor/src/main/java/com/googlyandroid/ktvideocompressor/MediaTranscoderEngine.kt:92-93 | the shared record of `stepPipeline` calls starts empty |
| Engine.FirstStop | ktvideocompressor/src/main/java/com/googlyandroid/ktvideocompressor/MediaTranscoderEngine.kt:90 | the iteration count at which the loop condition first fails; it held at every earlier count |
| Engine.SentAfterStep | ktvideocompressor/src/main/java/com/googlyandroid/ktvideocompressor/MediaTranscoderEngine.kt:95-105 | one more iteration appends the mean progress of the two tracks to the values sent exactly when a report is due at the new counter |
| Engine.ReportIfDue | ktvideocompressor/src/main/java/com/googlyandroid/ktvideocompressor/MediaTranscoderEngine.kt:97-105 | with the counter just incremented, the values sent become those due after one more iteration |
| Engine.Iteration | ktvideocompressor/src/main/java/com/googlyandroid/ktvideocompressor/MediaTranscoderEngine.kt:92-105 | one pass steps video then audio, which appends both calls to the shared log in that order, advances the wrapped counter, and extends the values sent by the mean progress exactly when it is due |
| Engine.SteppingLoop | ktvideocompressor/src/main/java/com/googlyandroid/ktvideocompressor/MediaTranscoderEngine.kt:90-106 | the loop runs exactly `FirstStop` iterations, sends exactly `SentAfter` of them, and the shared log gains exactly `StepOrder` of them: video then audio, once per iteration |
| Engine.RunPipelines | ktvideocompressor/src/main/java/com/googlyandroid/ktvideocompressor/MediaTranscoderEngine.kt:75-108 | the number of iterations, the values sent and the shared log's new calls are `FirstStop`, `Sent` and `StepOrder`; a null transcoder means no iteration |
| Engine.FirstFinished | ktvideocompressor/src/main/java/com/googlyandroid/ktvideocompressor/MediaTranscoderEngine.kt:90 | the first step count after which a script reports finished |
| Engine.StopsAtFirstFinish | ktvideocompressor/src/main/java/com/googlyandroid/ktvideocompressor/MediaTranscoderEngine.kt:90 | without cancellation the loop stops at the first finish of either transcoder, whichever it is |
| Engine.NeverRunsWithoutAudio | ktvideocompressor/src/main/java/com/googlyandroid/ktvideocompressor/MediaTranscoderEngine.kt:90 | without an audio transcoder, or without a job, the loop never runs and only the unknown-progress marker can be sent |
| Engine.EarlyStopLeavesAudioUnfinished | ktvideocompressor/src/main/java/com/googlyandroid/ktvideocompressor/MediaTranscoderEngine.kt:90 | a video finishing after 2 steps and an audio after 4: the loop stops after 2 with the audio unfinished |
| Engine.CorrectedFirstStop | ktvideocompressor/src/main/java/com/googlyandroid/ktvideocompressor/MediaTranscoderEngine.kt:90 | the iteration count under the corrected condition: stop once every present transcoder is finished or the job is gone |
| Engine.CorrectedStopFinishesAll | ktvideocompressor/src/main/java/com/googlyandroid/ktvideocompressor/MediaTranscoderEngine.kt:90 | under the corrected condition, a loop not stopped by the job ends with every present transcoder finished |
| Engine.CorrectedStopRunsAudioToEnd | ktvideocompressor/src/main/java/com/googlyandroid/ktvideocompressor/MediaTranscoderEngine.kt:90 | in the example above the corrected loop runs 4 iterations and both tracks finish |
| Engine.NoReportsForUnknownDuration | ktvideocompressor/src/main/java/com/googlyandroid/ktvideocompressor/MediaTranscoderEngine.kt:82-85 | with a non-positive duration no report is ever due, so no periodic value is sent |
| Engine.ReportCount | ktvideocompressor/src/main/java/com/googlyandroid/ktvideocompressor/MediaTranscoderEngine.kt:97 | with a positive duration, `n / 10` reports are due and sent in the first `n` iterations while the counter has not wrapped |
| Engine.DueWrittenNonNegative | ktvideocompressor/src/main/java/com/googlyandroid/ktvideocompressor/MediaTranscoderEngine.kt:97-101 | every pair of observations a report is computed from comes from the scripts, so its written times are not negative when the scripts' are not |
| Engine.ReportsInRange | ktvideocompressor/src/main/java/com/googlyandroid/ktvideocompressor/MediaTranscoderEngine.kt:97-104 | every report is at most 1, and at least 0 when no written time is negative |
| Engine.UnknownSentIffNoDuration | ktvideocompressor/src/main/java/com/googlyandroid/ktvideocompressor/MediaTranscoderEngine.kt:82-104 | `PROGRESS_UNKNOWN` is sent, once and alone, exactly when the duration is not positive; otherwise each value sent is at most 1 and none is the marker |
| Engine.StepOrderAlternates | ktvideocompressor/src/main/java/com/googlyandroid/ktvideocompressor/MediaTranscoderEngine.kt:92-93 | `StepOrder(n)`, the calls the shared log gains in n iterations, is 2n calls alternating video then audio |

## Left out

- Rendering through GL surfaces (`OutputSurface`, `InputSurface`, `awaitNewImage`, `drawImage`, `swapBuffers`) is not modelled. The video transcoder records whether a decoded frame is rendered and goes no further; pixels are platform code.
- Creating and configuring codecs is not modelled. This covers `VideoTrackTranscoder.setup`, `initDecoder`, `initEncoder` and `handleRotationInputFormat`. The model starts from the state they leave: both codecs started.
- Engine.SetupBuildsPlan: building a transcoding (non-pass-through) plan is taken to succeed, because `VideoTrackTranscoder.setup` and `AudioTrackTranscoder` are not modelled. The muxer registration done by a pass-through constructor during setup is stated by `NewPassThroughTrackTranscoder` only, not composed into `SetupTrackTranscoders`.
- AudioChannel.AudioChannel.AllocateOverflow: the overflow's capacity is the chunk's length in shorts, not the decoder buffer's `capacity()/2`, because the model's decoder output is only the chunk. The overflow always has limit 0, so no contract depends on its capacity.
- `MediaExtractor.selectTrack` and `MediaMuxer` construction are left out. The extractor delivers all tracks' samples, and each transcoder skips other tracks as the source does.
- The platform writer's track index, as `MediaMuxer.addTrack` returns it, is an input of `SetOutputFormat`.
- Codec input buffers: every input index of a scripted codec shares one byte buffer. Buffer identity across indices is not modelled.
- `AudioTrackTranscoder` is not part of this model. Its channel (`AudioChannel`) and remixers are modelled; the engine loop uses scripts for both track transcoders.
- Coroutines are left out. The job's cancellation is `cancelled: nat -> bool` over iterations, and the presence of a job is a flag.
- `progressChannel` is a log of the values sent. `Log.d` output is left out.
- `Float` and `Double` are modelled as `real` (progress). The parsed location's floats are kept as their decimal strings, because no floating-point rounding is modelled.
- `toInt`/`toLong` accept only ASCII digits; other Unicode digits are not modelled.
- `MediaMuxer.setLocation` and `setOrientationHint` are a log of settings.
- The platform exceptions of those two setters are not modelled: `setOrientationHint` throws `IllegalArgumentException` for an angle other than 0, 90, 180 or 270, and `setLocation` throws it for a latitude outside [-90, 90] or a longitude outside [-180, 180]. `ExtractVideoDuration` records such values as plain settings, because the checks are inside `MediaMuxer`, which is not part of this model.
- `Build.VERSION.SDK_INT` is a parameter.
- `MediaMetadataRetriever` is reduced to the three metadata strings it returns.
- A null rotation string throws `NullPointerException` at `toSafeInt`; the model returns that error.
- Muxer.QueuedMuxer.Stage: the staging `ByteBuffer` object exists from construction. Its lazy `allocateDirect` is a flag, so object identity of a late allocation is not modelled.
- Engine.RunPipelines: each transcoder is a finite script whose last entry is finished. A transcoder that never finishes is outside the model.
- The release and stop sequence at the end of `transcodeVideo` (lines 59-69) and `extractInfo` is not modelled. Nor are `PassThroughTrackTranscoder.release` and `getDeterminedFormat` beyond the stored format, since they change nothing.
- VideoTranscoder.VideoTrackTranscoder.StepPipeline: the muxer's state and the written time after a whole step are not stated; only each `DrainEncoder` call states them, and the loops do not compose them.
- VideoTranscoder.VideoTrackTranscoder.DrainEncoderUntilNone: as for `StepPipeline`, the muxer's state and the written time after the loop are not stated.
- AudioChannel.AudioChannel.FeedEncoder: the overflow buffer never holds data, so the drain path in `feedEncoder` cannot be reached. `drainOverflow` is modelled and proved on its own as `DrainOverflow`.

## Findings

| source | as written | input that shows it | evidently intended | confidence | as-written member | corrected member |
|---|---|---|---|---|---|---|
| ktvideocompressor/src/main/java/com/googlyandroid/ktvideocompressor/engine/AudioRemixer.kt:32-39 | the loud DOWNMIX branch computes `a * b` in `Int`; at full scale the product overflows and the clamp at 65536 misses m = 196608 | left = right = 32767 gives output -32768 | a mix of two full-scale samples stays full scale (32767) and never falls below either input | high, not executed | AudioRemixer.FullScaleDownmixWraps | AudioRemixer.CorrectedDownmixInRange |
| ktvideocompressor/src/main/java/com/googlyandroid/ktvideocompressor/engine/AudioChannel.kt:158-170 | `drainOverflow` sets the overflow's limit to the absolute index `outBuff.capacity()` instead of `position + capacity`, then copies from the overflow's position; `feedEncoder` never reaches this path today, because the overflow buffer always has limit 0 | pending 2 of 8 with capacity 4 copies 4 shorts, 2 of them stale; pending 6 with capacity 4 copies 4 and drops 2 | copy `min(remaining, capacity)` shorts from the pending range and keep the rest pending | medium, not executed | AudioChannel.DrainAsWrittenMisbehaves | AudioChannel.CorrectedDrainKeepsBacklog |
| ktvideocompressor/src/main/java/com/googlyandroid/ktvideocompressor/MediaTranscoderEngine.kt:90 | the loop condition `!video.isFinished() && !audio.isFinished()` stops at the first finished track and never runs without an audio transcoder | video done after 2 steps, audio after 4: the loop stops after 2 with audio unfinished | run until every present transcoder is finished | high, not executed | Engine.EarlyStopLeavesAudioUnfinished | Engine.CorrectedStopFinishesAll |
