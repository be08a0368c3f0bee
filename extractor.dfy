/** The Android `MediaExtractor` as a scripted collaborator: the formats of the container's
    tracks and the interleaved samples of the selected tracks, read with a cursor. */
module Extractor {
  import opened Common

  /** One sample as the extractor reports it. */
  datatype ExtractedSample = ExtractedSample(trackIndex: nat, contents: seq<byte>, sampleTime: int, sampleFlags: Flags)

  /** The codec flags of an extracted sample: `BUFFER_FLAG_SYNC_FRAME` exactly when the extractor's `SAMPLE_FLAG_SYNC` bit is set. */
  function KeyFrameFlags(sampleFlags: Flags): (r: Flags)
    ensures r == BUFFER_FLAG_SYNC_FRAME <==> sampleFlags & SAMPLE_FLAG_SYNC != 0
    ensures r != BUFFER_FLAG_SYNC_FRAME ==> r == 0
  {
    if sampleFlags & SAMPLE_FLAG_SYNC != 0 then BUFFER_FLAG_SYNC_FRAME else 0
  }

  class MediaExtractor {
    const trackFormats: seq<MediaFormat>
    const script: seq<ExtractedSample>
    var cursor: nat

    ghost predicate Valid()
      reads this
    {
      cursor <= |script|
    }

    constructor (trackFormats: seq<MediaFormat>, script: seq<ExtractedSample>)
      ensures Valid() && this.trackFormats == trackFormats && this.script == script && cursor == 0
    {
      this.trackFormats := trackFormats;
      this.script := script;
      cursor := 0;
    }

    /** `getTrackFormat(index)`: an index outside the tracks throws `IllegalArgumentException`. */
    function GetTrackFormat(index: int): (r: Result<MediaFormat>)
      ensures r.Ok? <==> 0 <= index < |trackFormats|
      ensures r.Ok? ==> r.value == trackFormats[index]
      ensures r.Err? ==> r.error == IllegalArgument
    {
      if 0 <= index < |trackFormats| then Ok(trackFormats[index]) else Err(IllegalArgument)
    }

    /** `getSampleTrackIndex()`: -1 once every sample has been read. */
    function SampleTrackIndex(): (r: int)
      reads this
      requires Valid()
      ensures r == -1 <==> cursor == |script|
      ensures r >= 0 ==> r == script[cursor].trackIndex
    {
      if cursor < |script| then script[cursor].trackIndex else -1
    }

    /** `getSampleTime()` of the current sample. */
    function SampleTime(): int
      reads this
      requires Valid() && cursor < |script|
    {
      script[cursor].sampleTime
    }

    /** `getSampleFlags()` of the current sample. */
    function SampleFlags(): Flags
      reads this
      requires Valid() && cursor < |script|
    {
      script[cursor].sampleFlags
    }

    /** `readSampleData(buffer, offset)`: the current sample is copied to `buffer` at `offset`,
        which then spans exactly the sample; -1 when no sample is left; a sample that does not
        fit throws `IllegalArgumentException`. The cursor does not move. */
    method ReadSampleData(buffer: ByteBuffer, offset: nat) returns (r: Result<int>)
      requires Valid() && buffer.Valid()
      modifies buffer, buffer.data
      ensures buffer.Valid()
      ensures cursor == |script| ==> r == Ok(-1) && buffer.data[..] == old(buffer.data[..])
      ensures cursor < |script| ==>
        var contents := script[cursor].contents;
        && (r.Err? <==> offset + |contents| > buffer.data.Length)
        && (r.Err? ==> r.error == IllegalArgument && buffer.data[..] == old(buffer.data[..]))
        && (r.Ok? ==>
              && r.value == |contents|
              && buffer.data[offset..offset + |contents|] == contents
              && buffer.data[..offset] == old(buffer.data[..offset])
              && buffer.position == offset && buffer.limit == offset + |contents|)
    {
      if cursor == |script| {
        return Ok(-1);
      }
      var contents := script[cursor].contents;
      if offset + |contents| > buffer.data.Length {
        return Err(IllegalArgument);
      }
      forall k | 0 <= k < |contents| {
        buffer.data[offset + k] := contents[k];
      }
      buffer.position, buffer.limit := offset, offset + |contents|;
      r := Ok(|contents|);
    }

    /** `advance()`: moves to the next sample, if any. */
    method Advance()
      requires Valid()
      modifies this
      ensures Valid()
      ensures cursor == if old(cursor) < |script| then old(cursor) + 1 else old(cursor)
    {
      if cursor < |script| {
        cursor := cursor + 1;
      }
    }
  }
}
