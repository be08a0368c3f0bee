/** `NoOpMediaFormatStrategy`: the output formats that keep the input's picture size and
    sample rate and fix everything else. */
module NoOpStrategy {
  import opened Common
  import AudioChannel

  /** 8 Mbit/s, the bit rate of a 720p camera recording. */
  const DEFAULT_VIDEO_BITRATE: int32 := 8000 * 1000
  const AUDIO_BITRATE_AS_IS: int32 := -1
  const AUDIO_CHANNELS_AS_IS: int32 := -1
  const MIMETYPE_VIDEO_AVC: string := "video/avc"
  const MIMETYPE_AUDIO_AAC: string := "audio/mp4a-latm"
  const VIDEO_FRAME_RATE: int32 := 30
  const VIDEO_I_FRAME_INTERVAL: int32 := 3
  /** `MediaCodecInfo.CodecCapabilities.COLOR_FormatSurface`. */
  const COLOR_FORMAT_SURFACE: int32 := 0x7F00_0789
  /** `MediaCodecInfo.CodecProfileLevel.AACObjectLC`. */
  const AAC_OBJECT_LC: int32 := 2

  /** `createVideoOutputFormat`: reading a missing width or height throws; otherwise an AVC
      format of the same size with the fixed encoder settings. */
  function CreateVideoOutputFormat(input: MediaFormat): (r: Result<Option<MediaFormat>>)
  {
    match GetInteger(input, KeyWidth)
    case Err(e) => Err(e)
    case Ok(width) =>
      match GetInteger(input, KeyHeight)
      case Err(e) => Err(e)
      case Ok(height) =>
        Ok(Some(map[
          KeyMime := StringValue(MIMETYPE_VIDEO_AVC),
          KeyWidth := IntValue(width),
          KeyHeight := IntValue(height),
          KeyBitRate := IntValue(DEFAULT_VIDEO_BITRATE),
          KeyFrameRate := IntValue(VIDEO_FRAME_RATE),
          KeyIFrameInterval := IntValue(VIDEO_I_FRAME_INTERVAL),
          KeyColorFormat := IntValue(COLOR_FORMAT_SURFACE)]))
  }

  /** `createAudioOutputFormat`: reading a missing sample rate throws; otherwise an AAC-LC
      format at the input's sample rate, with the channel count and bit rate left "as is". */
  function CreateAudioOutputFormat(input: MediaFormat): (r: Result<Option<MediaFormat>>)
  {
    match GetInteger(input, KeySampleRate)
    case Err(e) => Err(e)
    case Ok(sampleRate) =>
      Ok(Some(map[
        KeyMime := StringValue(MIMETYPE_AUDIO_AAC),
        KeySampleRate := IntValue(sampleRate),
        KeyChannelCount := IntValue(AUDIO_CHANNELS_AS_IS),
        KeyAacProfile := IntValue(AAC_OBJECT_LC),
        KeyBitRate := IntValue(AUDIO_BITRATE_AS_IS)]))
  }

  /** The video format is built exactly when the input has an integer width and height. It is
      then never null, keeps that width and height, and reads back the fixed mime type, bit
      rate, frame rate, I-frame interval and color format. */
  lemma VideoOutputFormat(input: MediaFormat)
    ensures CreateVideoOutputFormat(input).Ok? <==>
      GetInteger(input, KeyWidth).Ok? && GetInteger(input, KeyHeight).Ok?
    ensures CreateVideoOutputFormat(input).Err? ==>
      CreateVideoOutputFormat(input).error ==
        (if GetInteger(input, KeyWidth).Err? then MissingFormatKey(KeyWidth) else MissingFormatKey(KeyHeight))
    ensures CreateVideoOutputFormat(input).Ok? ==>
      && CreateVideoOutputFormat(input).value.Some?
      && var out := CreateVideoOutputFormat(input).value.value;
      && GetInteger(out, KeyWidth) == GetInteger(input, KeyWidth)
      && GetInteger(out, KeyHeight) == GetInteger(input, KeyHeight)
      && GetString(out, KeyMime) == Some("video/avc")
      && GetInteger(out, KeyBitRate) == Ok(8_000_000)
      && GetInteger(out, KeyFrameRate) == Ok(30)
      && GetInteger(out, KeyIFrameInterval) == Ok(3)
      && GetInteger(out, KeyColorFormat) == Ok(0x7F00_0789)
      && GetInteger(out, KeySampleRate).Err? && GetInteger(out, KeyChannelCount).Err?
  {
  }

  /** The audio format is built exactly when the input has an integer sample rate. It is then
      never null, keeps that sample rate, and reads back the AAC mime type, the AAC-LC profile
      and -1 for both the channel count and the bit rate. */
  lemma AudioOutputFormat(input: MediaFormat)
    ensures CreateAudioOutputFormat(input).Ok? <==> GetInteger(input, KeySampleRate).Ok?
    ensures CreateAudioOutputFormat(input).Err? ==>
      CreateAudioOutputFormat(input).error == MissingFormatKey(KeySampleRate)
    ensures CreateAudioOutputFormat(input).Ok? ==>
      && CreateAudioOutputFormat(input).value.Some?
      && var out := CreateAudioOutputFormat(input).value.value;
      && GetInteger(out, KeySampleRate) == GetInteger(input, KeySampleRate)
      && GetString(out, KeyMime) == Some("audio/mp4a-latm")
      && GetInteger(out, KeyChannelCount) == Ok(-1)
      && GetInteger(out, KeyBitRate) == Ok(-1)
      && GetInteger(out, KeyAacProfile) == Ok(2)
  {
  }

  /** The audio channel rejects every decoded format against this strategy's audio output:
      with matching sample rates and a supported input channel count, the error is the
      unsupported output channel count -1. */
  lemma AudioOutputRejectedByChannel(input: MediaFormat, decoded: MediaFormat)
    requires CreateAudioOutputFormat(input).Ok?
    ensures var encode := CreateAudioOutputFormat(input).value.value;
      && AudioChannel.DecodedFormatCheck(decoded, encode).Err?
      && (GetInteger(decoded, KeySampleRate) == GetInteger(input, KeySampleRate)
          && GetInteger(decoded, KeyChannelCount).Ok? && GetInteger(decoded, KeyChannelCount).value in {1, 2}
          ==> AudioChannel.DecodedFormatCheck(decoded, encode) == Err(OutputChannelCountUnsupported(-1)))
  {
    var encode := CreateAudioOutputFormat(input).value.value;
    AudioOutputFormat(input);
    AudioChannel.DecodedFormatAccepted(decoded, encode);
  }
}
