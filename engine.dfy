/** `MediaTranscoderEngine`: reading the container's metadata (rotation, location, duration),
    choosing a transcoder per track, and the stepping loop with its progress reports. */
module Engine {
  import opened Common
  import Iso6709
  import NoOpStrategy
  import PT = PassThrough

  // ---------------------------------------------------------------------------------------
  // Decimal strings: `String.toInt()` and `String.toLong()`

  predicate IsDigit(c: char) {
    '0' <= c <= '9'
  }

  predicate AllDigits(ds: string) {
    forall k :: 0 <= k < |ds| ==> IsDigit(ds[k])
  }

  /** The value of a string of decimal digits, most significant first. */
  function DigitsValue(ds: string): (v: nat)
    requires AllDigits(ds)
  {
    if ds == [] then 0
    else DigitsValue(ds[..|ds| - 1]) * 10 + (ds[|ds| - 1] as int - '0' as int)
  }

  /** The sign and the digit part of a decimal string: an optional leading '+' or '-'. */
  function SplitSign(s: string): (r: (bool, string))
    ensures |r.1| <= |s|
  {
    if |s| > 0 && (s[0] == '-' || s[0] == '+') then (s[0] == '-', s[1..]) else (false, s)
  }

  /** `parseInt`/`parseLong` with the bounds of the integer type: an optional sign followed
      by at least one digit, whose value lies within `[lo, hi]`; anything else throws
      `NumberFormatException` (None). */
  function ParseDecimal(s: string, lo: int, hi: int): (r: Option<int>)
    ensures r.Some? ==> lo <= r.value <= hi
  {
    var (negative, digits) := SplitSign(s);
    if digits == [] || !AllDigits(digits) then None
    else
      var v: int := if negative then -(DigitsValue(digits) as int) else DigitsValue(digits);
      if lo <= v <= hi then Some(v) else None
  }

  /** `String.toInt()`. */
  function ParseInt(s: string): (r: Option<int32>)
    ensures r.Some? ==> ParseDecimal(s, INT_MIN, INT_MAX) == Some(r.value as int)
    ensures r.None? ==> ParseDecimal(s, INT_MIN, INT_MAX).None?
  {
    match ParseDecimal(s, INT_MIN, INT_MAX)
    case None => None
    case Some(v) => Some(v as int32)
  }

  /** `String.toLong()`. */
  function ParseLong(s: string): (r: Option<int>)
    ensures r.Some? ==> LONG_MIN <= r.value <= LONG_MAX
  {
    ParseDecimal(s, LONG_MIN, LONG_MAX)
  }

  /** The digit character for `d`. */
  function DigitChar(d: nat): (c: char)
    requires d < 10
    ensures IsDigit(c) && c as int - '0' as int == d
  {
    ('0' as int + d) as char
  }

  /** The shortest decimal digits of `n`. */
  function NatDigits(n: nat): (ds: string)
    ensures |ds| > 0 && AllDigits(ds)
  {
    if n < 10 then [DigitChar(n)] else NatDigits(n / 10) + [DigitChar(n % 10)]
  }

  /** `n.toString()`: a '-' for negative values, then the digits of the magnitude. */
  function FormatDecimal(n: int): (s: string)
  {
    if n < 0 then "-" + NatDigits(-n) else NatDigits(n)
  }

  lemma {:induction false} NatDigitsValue(n: nat)
    ensures DigitsValue(NatDigits(n)) == n
  {
    if n >= 10 {
      var ds := NatDigits(n);
      assert ds[..|ds| - 1] == NatDigits(n / 10);
      NatDigitsValue(n / 10);
    }
  }

  /** Parsing the decimal form of an integer gives the integer back exactly when it is within
      the bounds. */
  lemma ParseFormatRoundTrip(n: int, lo: int, hi: int)
    ensures ParseDecimal(FormatDecimal(n), lo, hi) == if lo <= n <= hi then Some(n) else None
  {
    var s := FormatDecimal(n);
    if n < 0 {
      NatDigitsValue(-n);
      assert SplitSign(s) == (true, NatDigits(-n));
    } else {
      NatDigitsValue(n);
      assert SplitSign(s).1 == NatDigits(n);
    }
  }

  lemma {:induction false} DigitsValueLeadingZero(ds: string)
    requires AllDigits(ds)
    ensures AllDigits("0" + ds) && DigitsValue("0" + ds) == DigitsValue(ds)
  {
    if ds != [] {
      var zs := "0" + ds;
      assert zs[..|zs| - 1] == "0" + ds[..|ds| - 1];
      DigitsValueLeadingZero(ds[..|ds| - 1]);
    }
  }

  /** A leading '+' and leading zeros do not change what a digit string parses to, and a
      leading '-' negates its value before the bounds are checked. */
  lemma ParseSignsAndZeros(ds: string, lo: int, hi: int)
    requires ds != [] && AllDigits(ds)
    ensures ParseDecimal("+" + ds, lo, hi) == ParseDecimal(ds, lo, hi)
    ensures ParseDecimal("0" + ds, lo, hi) == ParseDecimal(ds, lo, hi)
    ensures ParseDecimal("-" + ds, lo, hi)
      == if lo <= -(DigitsValue(ds) as int) <= hi then Some(-(DigitsValue(ds) as int)) else None
  {
    assert SplitSign("+" + ds) == (false, ds) by {
      assert ("+" + ds)[1..] == ds;
    }
    assert SplitSign("-" + ds) == (true, ds) by {
      assert ("-" + ds)[1..] == ds;
    }
    assert SplitSign("0" + ds) == (false, "0" + ds);
    assert SplitSign(ds) == (false, ds) by {
      assert IsDigit(ds[0]);
    }
    DigitsValueLeadingZero(ds);
  }

  /** A value that does not fit an `Int` is not an `Int` string: `toSafeInt` gives null for it. */
  lemma ParseIntOutOfRange(n: int)
    requires n < INT_MIN || INT_MAX < n
    ensures ParseInt(FormatDecimal(n)).None?
  {
    ParseFormatRoundTrip(n, INT_MIN, INT_MAX);
  }

  /** `String.toSafeInt()`: the `Int` the string denotes, or null when it is not one. As a
      public extension with a non-null receiver, it throws `NullPointerException` before its
      `try` when handed a null platform string. */
  function ToSafeInt(s: Option<string>): (r: Result<Option<int32>>)
    ensures s.None? <==> r.Err?
    ensures r.Err? ==> r.error == NullPointer
  {
    match s
    case None => Err(NullPointer)
    case Some(str) => Ok(ParseInt(str))
  }

  lemma ToSafeIntRoundTrip(n: int32)
    ensures ToSafeInt(Some(FormatDecimal(n as int))) == Ok(Some(n))
  {
    ParseFormatRoundTrip(n as int, INT_MIN, INT_MAX);
  }

  // ---------------------------------------------------------------------------------------
  // `extractVideoDuration`: metadata that goes to the muxer, and the duration

  /** A setting made on the `MediaMuxer` before it starts. The location keeps the two decimal
      strings `Float.parseFloat` accepted. */
  datatype MuxerSetting =
    | SetOrientationHint(degrees: int32)
    | SetLocation(latitude: string, longitude: string)

  /** `PROGRESS_UNKNOWN`'s companion: the duration when the metadata does not hold a `Long`. */
  const UNKNOWN_DURATION: int := -1

  /** The microseconds of a duration in milliseconds: `toLong().times(1000)` on `Long`s (a
      null string is a `NumberFormatException` too, caught like any other). */
  function DurationUs(durationMs: Option<string>): (r: int)
    ensures LONG_MIN <= r <= LONG_MAX
  {
    match if durationMs.Some? then ParseLong(durationMs.value) else None
    case None => UNKNOWN_DURATION
    case Some(ms) => Wrap64(ms * 1000)
  }

  /** `extractVideoDuration` on the three metadata strings (each null when absent) and the
      platform's `SDK_INT >= KITKAT`: the rotation is read first and a null one throws; the
      orientation hint is set when it is an `Int`, the location when it parses and the
      platform allows it; then the duration in microseconds is returned. */
  function ExtractVideoDuration(rotation: Option<string>, location: Option<string>,
                                durationMs: Option<string>, sdkAtLeastKitKat: bool)
    : (r: Result<(seq<MuxerSetting>, int)>)
  {
    match ToSafeInt(rotation)
    case Err(e) => Err(e)
    case Ok(degrees) =>
      var hint := if degrees.Some? then [SetOrientationHint(degrees.value)] else [];
      var parsed := Iso6709.Parse(location);
      var place := if parsed.Some? && sdkAtLeastKitKat then [SetLocation(parsed.value[0], parsed.value[1])] else [];
      Ok((hint + place, DurationUs(durationMs)))
  }

  /** The duration is -1 exactly when the string is not a `Long`: a parsed duration, even
      wrapped around, is never -1 since it is even. A duration of at most `Long.MAX_VALUE /
      1000` milliseconds is converted exactly, and a positive one stays positive. */
  lemma DurationRule(durationMs: Option<string>)
    ensures DurationUs(durationMs) == -1 <==>
      durationMs.None? || ParseLong(durationMs.value).None?
    ensures durationMs.Some? && ParseLong(durationMs.value).Some? ==>
      var ms := ParseLong(durationMs.value).value;
      && DurationUs(durationMs) % 2 == 0
      && (-(LONG_MAX / 1000) <= ms <= LONG_MAX / 1000 ==> DurationUs(durationMs) == ms * 1000)
      && (0 < ms <= LONG_MAX / 1000 ==> DurationUs(durationMs) > 0)
  {
    if durationMs.Some? && ParseLong(durationMs.value).Some? {
      var ms := ParseLong(durationMs.value).value;
      var r := DurationUs(durationMs);
      assert (r - ms * 1000) % 0x1_0000_0000_0000_0000 == 0;
      var q := (r - ms * 1000) / 0x1_0000_0000_0000_0000;
      assert r == 2 * (500 * ms + 0x8000_0000_0000_0000 * q);
      if -(LONG_MAX / 1000) <= ms <= LONG_MAX / 1000 {
        MulMono(ms, LONG_MAX / 1000, 1000);
        MulMono(-(LONG_MAX / 1000), ms, 1000);
      }
    }
  }

  /** A null rotation throws; otherwise the orientation hint is set exactly when the rotation
      is an `Int`, with that value, before the location. */
  lemma RotationRule(rotation: Option<string>, location: Option<string>, durationMs: Option<string>, sdkAtLeastKitKat: bool)
    ensures ExtractVideoDuration(rotation, location, durationMs, sdkAtLeastKitKat).Err? <==> rotation.None?
    ensures ExtractVideoDuration(rotation, location, durationMs, sdkAtLeastKitKat).Err? ==>
      ExtractVideoDuration(rotation, location, durationMs, sdkAtLeastKitKat).error == NullPointer
    ensures rotation.Some? ==>
      var settings := ExtractVideoDuration(rotation, location, durationMs, sdkAtLeastKitKat).value.0;
      && (ParseInt(rotation.value).Some? <==> |settings| > 0 && settings[0].SetOrientationHint?)
      && (ParseInt(rotation.value).Some? ==> settings[0] == SetOrientationHint(ParseInt(rotation.value).value))
      && (forall d: int32 :: SetOrientationHint(d) in settings ==> ParseInt(rotation.value) == Some(d))
  {
  }

  /** The location is set, once and last, exactly when the platform allows it and the
      location parses; it carries the latitude and longitude strings in that order. The
      duration does not depend on the rotation or the location. */
  lemma LocationRule(rotation: Option<string>, location: Option<string>, durationMs: Option<string>, sdkAtLeastKitKat: bool)
    requires rotation.Some?
    ensures var (settings, duration) := ExtractVideoDuration(rotation, location, durationMs, sdkAtLeastKitKat).value;
      && duration == DurationUs(durationMs)
      && ((exists la, lo :: SetLocation(la, lo) in settings) <==> sdkAtLeastKitKat && Iso6709.Parse(location).Some?)
      && (sdkAtLeastKitKat && Iso6709.Parse(location).Some? ==>
            settings[|settings| - 1] == SetLocation(Iso6709.Parse(location).value[0], Iso6709.Parse(location).value[1]))
  {
    var (settings, duration) := ExtractVideoDuration(rotation, location, durationMs, sdkAtLeastKitKat).value;
    Iso6709.ParseResult(location);
    if sdkAtLeastKitKat && Iso6709.Parse(location).Some? {
      var p := Iso6709.Parse(location).value;
      assert SetLocation(p[0], p[1]) in settings;
    }
  }

  // ---------------------------------------------------------------------------------------
  // `setupTrackTranscoders`: transcode or pass through, per track

  /** What is built for a track: a transcoder to the strategy's output format, or a
      pass-through copy of the track. */
  datatype TrackPlan = Transcode(trackIndex: int, outputFormat: MediaFormat) | PassThrough(trackIndex: int)

  /** `trackFormat?.let { create(it) }`: the strategy is consulted only for a track that was
      found; it may throw, or return null. */
  function OutputFormatFor(trackFormat: Option<MediaFormat>, create: MediaFormat -> Result<Option<MediaFormat>>)
    : Result<Option<MediaFormat>>
  {
    match trackFormat
    case None => Ok(None)
    case Some(f) => create(f)
  }

  function PlanFor(trackIndex: int, outputFormat: Option<MediaFormat>): TrackPlan {
    if outputFormat.Some? then Transcode(trackIndex, outputFormat.value) else PassThrough(trackIndex)
  }

  /** The plan of `setupTrackTranscoders`, chosen from the track selection and the strategy's
      two format functions. Both output formats are computed before anything is built; a
      video plan is always made, an audio one only when an audio track was found. */
  function PlanTrackTranscoders(videoTrackIndex: int, videoTrackFormat: Option<MediaFormat>,
                                 audioTrackIndex: int, audioTrackFormat: Option<MediaFormat>,
                                 createVideo: MediaFormat -> Result<Option<MediaFormat>>,
                                 createAudio: MediaFormat -> Result<Option<MediaFormat>>)
    : (r: Result<(TrackPlan, Option<TrackPlan>)>)
  {
    match OutputFormatFor(videoTrackFormat, createVideo)
    case Err(e) => Err(e)
    case Ok(videoOutput) =>
      match OutputFormatFor(audioTrackFormat, createAudio)
      case Err(e) => Err(e)
      case Ok(audioOutput) =>
        Ok((PlanFor(videoTrackIndex, videoOutput),
            if audioTrackIndex != -1 then Some(PlanFor(audioTrackIndex, audioOutput)) else None))
  }

  /** Building one planned transcoder: a pass-through one throws as `PassThroughBufferSize`
      says; a transcoding one is taken to be built without error. */
  function BuildError(plan: TrackPlan, trackFormats: seq<MediaFormat>): Option<Error> {
    match plan
    case Transcode(_, _) => None
    case PassThrough(trackIndex) =>
      var built := PT.PassThroughBufferSize(trackFormats, trackIndex);
      if built.Err? then Some(built.error) else None
  }

  /** `setupTrackTranscoders` over the extractor's `trackFormats`: the plan, then the video
      transcoder is built, then the audio one if planned; the first throw ends setup. */
  function SetupTrackTranscoders(videoTrackIndex: int, videoTrackFormat: Option<MediaFormat>,
                                 audioTrackIndex: int, audioTrackFormat: Option<MediaFormat>,
                                 createVideo: MediaFormat -> Result<Option<MediaFormat>>,
                                 createAudio: MediaFormat -> Result<Option<MediaFormat>>,
                                 trackFormats: seq<MediaFormat>)
    : Result<(TrackPlan, Option<TrackPlan>)>
  {
    match PlanTrackTranscoders(videoTrackIndex, videoTrackFormat, audioTrackIndex, audioTrackFormat, createVideo, createAudio)
    case Err(e) => Err(e)
    case Ok((video, audio)) =>
      var videoError := BuildError(video, trackFormats);
      if videoError.Some? then Err(videoError.value)
      else if audio.Some? && BuildError(audio.value, trackFormats).Some? then Err(BuildError(audio.value, trackFormats).value)
      else Ok((video, audio))
  }

  /** Setup fails exactly when the plan fails or building a planned pass-through transcoder
      throws, the video one first; otherwise the transcoders built are the plan. */
  lemma SetupBuildsPlan(videoTrackIndex: int, videoTrackFormat: Option<MediaFormat>,
                        audioTrackIndex: int, audioTrackFormat: Option<MediaFormat>,
                        createVideo: MediaFormat -> Result<Option<MediaFormat>>,
                        createAudio: MediaFormat -> Result<Option<MediaFormat>>,
                        trackFormats: seq<MediaFormat>)
    ensures var p := PlanTrackTranscoders(videoTrackIndex, videoTrackFormat, audioTrackIndex, audioTrackFormat, createVideo, createAudio);
      var r := SetupTrackTranscoders(videoTrackIndex, videoTrackFormat, audioTrackIndex, audioTrackFormat, createVideo, createAudio, trackFormats);
      && (p.Err? ==> r == p)
      && (p.Ok? ==>
            var (video, audio) := p.value;
            var videoFails := video.PassThrough? && PT.PassThroughBufferSize(trackFormats, video.trackIndex).Err?;
            var audioFails := audio.Some? && audio.value.PassThrough? && PT.PassThroughBufferSize(trackFormats, audio.value.trackIndex).Err?;
            && (r.Err? <==> videoFails || audioFails)
            && (videoFails ==> r == Err(PT.PassThroughBufferSize(trackFormats, video.trackIndex).error))
            && (!videoFails && audioFails ==> r == Err(PT.PassThroughBufferSize(trackFormats, audio.value.trackIndex).error))
            && (r.Ok? ==> r == p))
  {
  }

  /** With no video track (index -1, no format) setup always throws: the plan passes track
      -1 through, and `getTrackFormat(-1)` throws `IllegalArgumentException` unless the audio
      strategy has thrown first. */
  lemma SetupWithoutVideoTrackThrows(audioTrackIndex: int, audioTrackFormat: Option<MediaFormat>,
                                     createVideo: MediaFormat -> Result<Option<MediaFormat>>,
                                     createAudio: MediaFormat -> Result<Option<MediaFormat>>,
                                     trackFormats: seq<MediaFormat>)
    ensures var r := SetupTrackTranscoders(-1, None, audioTrackIndex, audioTrackFormat, createVideo, createAudio, trackFormats);
      && r.Err?
      && r.error == (if OutputFormatFor(audioTrackFormat, createAudio).Err? then OutputFormatFor(audioTrackFormat, createAudio).error
                     else IllegalArgument)
  {
  }

  /** A found video track that the strategy passes through, but whose format has no
      `KEY_MAX_INPUT_SIZE`, makes setup throw on the missing key. */
  lemma SetupPassThroughNeedsMaxInputSize(videoTrackIndex: int, audioTrackIndex: int, audioTrackFormat: Option<MediaFormat>,
                                          createVideo: MediaFormat -> Result<Option<MediaFormat>>,
                                          createAudio: MediaFormat -> Result<Option<MediaFormat>>,
                                          trackFormats: seq<MediaFormat>)
    requires 0 <= videoTrackIndex < |trackFormats|
    requires createVideo(trackFormats[videoTrackIndex]) == Ok(None)
    requires KeyMaxInputSize !in trackFormats[videoTrackIndex]
    requires OutputFormatFor(audioTrackFormat, createAudio).Ok?
    ensures SetupTrackTranscoders(videoTrackIndex, Some(trackFormats[videoTrackIndex]), audioTrackIndex, audioTrackFormat,
                                  createVideo, createAudio, trackFormats)
            == Err(MissingFormatKey(KeyMaxInputSize))
  {
  }

  /** The plan fails exactly when a strategy call throws, the video one first. Otherwise the
      video track is transcoded iff its format was found and the strategy gave a non-null
      format, which is then the output format, and passed through otherwise; the audio
      track gets a plan iff its index is not -1, chosen by the same rule. */
  lemma SetupChoice(videoTrackIndex: int, videoTrackFormat: Option<MediaFormat>,
                    audioTrackIndex: int, audioTrackFormat: Option<MediaFormat>,
                    createVideo: MediaFormat -> Result<Option<MediaFormat>>,
                    createAudio: MediaFormat -> Result<Option<MediaFormat>>)
    ensures var r := PlanTrackTranscoders(videoTrackIndex, videoTrackFormat, audioTrackIndex, audioTrackFormat, createVideo, createAudio);
      var videoFails := videoTrackFormat.Some? && createVideo(videoTrackFormat.value).Err?;
      var audioFails := audioTrackFormat.Some? && createAudio(audioTrackFormat.value).Err?;
      && (r.Err? <==> videoFails || audioFails)
      && (videoFails ==> r == Err(createVideo(videoTrackFormat.value).error))
      && (!videoFails && audioFails ==> r == Err(createAudio(audioTrackFormat.value).error))
      && (r.Ok? ==>
            var (video, audio) := r.value;
            && video.trackIndex == videoTrackIndex
            && (video.Transcode? <==> videoTrackFormat.Some? && createVideo(videoTrackFormat.value).value.Some?)
            && (video.Transcode? ==> createVideo(videoTrackFormat.value) == Ok(Some(video.outputFormat)))
            && (audio.Some? <==> audioTrackIndex != -1)
            && (audio.Some? ==>
                  && audio.value.trackIndex == audioTrackIndex
                  && (audio.value.Transcode? <==> audioTrackFormat.Some? && createAudio(audioTrackFormat.value).value.Some?)
                  && (audio.value.Transcode? ==> createAudio(audioTrackFormat.value) == Ok(Some(audio.value.outputFormat)))))
  {
  }

  /** With the no-op strategy nothing is passed through: a found video track with a width
      and height, and a found audio track with a sample rate, are both transcoded. */
  lemma NoOpNeverPassesThrough(videoTrackIndex: int, videoTrackFormat: MediaFormat,
                               audioTrackIndex: int, audioTrackFormat: Option<MediaFormat>)
    requires GetInteger(videoTrackFormat, KeyWidth).Ok? && GetInteger(videoTrackFormat, KeyHeight).Ok?
    requires audioTrackFormat.Some? ==> GetInteger(audioTrackFormat.value, KeySampleRate).Ok?
    ensures var r := PlanTrackTranscoders(videoTrackIndex, Some(videoTrackFormat), audioTrackIndex, audioTrackFormat,
                                           NoOpStrategy.CreateVideoOutputFormat, NoOpStrategy.CreateAudioOutputFormat);
      && r.Ok? && r.value.0.Transcode?
      && Ok(Some(r.value.0.outputFormat)) == NoOpStrategy.CreateVideoOutputFormat(videoTrackFormat)
      && (r.value.1.Some? && audioTrackFormat.Some? ==> r.value.1.value.Transcode?)
  {
    NoOpStrategy.VideoOutputFormat(videoTrackFormat);
    if audioTrackFormat.Some? {
      NoOpStrategy.AudioOutputFormat(audioTrackFormat.value);
    }
  }

  // ---------------------------------------------------------------------------------------
  // `runPipelines`: the stepping loop and its progress reports

  const PROGRESS_UNKNOWN: real := -1.0
  const PROGRESS_INTERVAL_STEPS: int := 10

  /** Kotlin's `%`: the remainder of truncating division, which takes the dividend's sign. */
  function Rem(x: int, y: int): int
    requires y != 0
  {
    x - y * TruncDiv(x, y)
  }

  /** A zero remainder by 10 means the same under truncating and Euclidean division. */
  lemma RemTenZero(x: int)
    ensures Rem(x, 10) == 0 <==> x % 10 == 0
  {
    if x < 0 {
      assert Rem(x, 10) == x + 10 * ((-x) / 10);
      assert -x == 10 * ((-x) / 10) + (-x) % 10;
      assert x == 10 * (x / 10) + x % 10;
    }
  }

  /** `loopCount++` on the wrapping counter stays in step with the iteration count. */
  lemma Wrap32Succ(n: int)
    ensures Wrap32(Wrap32(n) + 1) == Wrap32(n + 1)
  {
    var m := 0x1_0000_0000;
    var q, r := (n + 0x8000_0000) / m, (n + 0x8000_0000) % m;
    assert n + 0x8000_0000 == q * m + r;
    assert Wrap32(n) == r - 0x8000_0000;
    if r + 1 < m {
      assert (n + 1 + 0x8000_0000) % m == r + 1;
    } else {
      assert n + 1 + 0x8000_0000 == (q + 1) * m;
      assert (n + 1 + 0x8000_0000) % m == 0;
    }
  }

  /** `isStillProcessing(duration, loopCount)`: a known duration and a loop count whose
      Kotlin remainder by `PROGRESS_INTERVAL_STEPS` is zero. */
  predicate IsStillProcessing(duration: int, loopCount: int32) {
    duration > 0 && Rem(loopCount as int, PROGRESS_INTERVAL_STEPS) == 0
  }

  /** Progress is due exactly for a known duration and a loop count that is a multiple of
      `PROGRESS_INTERVAL_STEPS`, a negative (wrapped) count included. */
  lemma IsStillProcessingRule(duration: int, loopCount: int32)
    ensures IsStillProcessing(duration, loopCount) <==> duration > 0 && loopCount as int % PROGRESS_INTERVAL_STEPS == 0
  {
    RemTenZero(loopCount as int);
  }

  /** `loopCount++` on the `Int` counter of iteration `iterations`. */
  method Increment(loopCount: int32, ghost iterations: nat) returns (next: int32)
    requires loopCount as int == Wrap32(iterations)
    ensures next as int == Wrap32(iterations + 1)
  {
    Wrap32Succ(iterations);
    next := Wrap32(loopCount as int + 1) as int32;
  }

  /** What the loop reads from a transcoder: `isFinished()` and
      `getWrittenPresentationTimeUS()`. */
  datatype Observation = Observation(finished: bool, writtenPresentationTimeUs: int)

  function MinReal(a: real, b: real): real {
    if a <= b then a else b
  }

  /** One track's progress: 1 once finished, else the written fraction of the duration,
      capped at 1 (the cap is taken where the written time reaches the duration;
      `TrackProgressIsMin` shows this is `min(1.0, written / duration)`). */
  function TrackProgress(o: Observation, duration: int): real
    requires duration > 0
  {
    if o.finished || o.writtenPresentationTimeUs >= duration then 1.0
    else o.writtenPresentationTimeUs as real / duration as real
  }

  /** The progress of a track is the source's formula: 1 once finished, else the smaller of 1
      and the written fraction of the duration. */
  lemma TrackProgressIsMin(o: Observation, duration: int)
    requires duration > 0
    ensures TrackProgress(o, duration)
         == if o.finished then 1.0 else MinReal(1.0, o.writtenPresentationTimeUs as real / duration as real)
  {
    var w, d := o.writtenPresentationTimeUs as real, duration as real;
    if !o.finished {
      if o.writtenPresentationTimeUs >= duration {
        assert w / d >= 1.0 by {
          assert w >= d;
        }
      } else {
        assert w / d < 1.0 by {
          assert w < d;
        }
      }
    }
  }

  /** The reported progress: the mean of the two tracks'. */
  function Progress(video: Observation, audio: Observation, duration: int): real
    requires duration > 0
  {
    (TrackProgress(video, duration) + TrackProgress(audio, duration)) / 2.0
  }

  /** A track's progress is at most 1, exactly 1 once it is finished or has written up to the
      duration, and the written fraction before that; it is not negative when the written
      time is not. */
  lemma TrackProgressRange(o: Observation, duration: int)
    requires duration > 0
    ensures TrackProgress(o, duration) <= 1.0
    ensures o.finished || o.writtenPresentationTimeUs >= duration ==> TrackProgress(o, duration) == 1.0
    ensures !o.finished && o.writtenPresentationTimeUs < duration ==>
      TrackProgress(o, duration) == o.writtenPresentationTimeUs as real / duration as real
    ensures o.writtenPresentationTimeUs >= 0 ==> TrackProgress(o, duration) >= 0.0
  {
  }

  /** The reported progress lies in [0, 1] when neither written time is negative, and is 1
      once both tracks are finished. */
  lemma ProgressRange(video: Observation, audio: Observation, duration: int)
    requires duration > 0
    ensures Progress(video, audio, duration) <= 1.0
    ensures video.finished && audio.finished ==> Progress(video, audio, duration) == 1.0
    ensures video.writtenPresentationTimeUs >= 0 && audio.writtenPresentationTimeUs >= 0 ==>
      Progress(video, audio, duration) >= 0.0
  {
    TrackProgressRange(video, duration);
    TrackProgressRange(audio, duration);
  }

  /** The observations of a transcoder after 0, 1, 2, ... steps; once it is finished, further
      steps change nothing, and the script ends finished. */
  predicate Finishes(script: seq<Observation>) {
    |script| > 0 && script[|script| - 1].finished
  }

  /** The observation after `k` steps. */
  function After(script: seq<Observation>, k: nat): Observation
    requires |script| > 0
  {
    script[if k < |script| then k else |script| - 1]
  }

  /** A `stepPipeline` call made by the loop. */
  datatype StepCall = StepVideo | StepAudio

  /** The `stepPipeline` calls the transcoders of one run have received, in order. */
  class StepLog {
    var calls: seq<StepCall>

    constructor ()
      ensures calls == []
    {
      calls := [];
    }
  }

  /** A transcoder (video or audio, any kind) as the loop sees it: a script of observations,
      the number of steps taken, and the log each of its steps is recorded in as `kind`. */
  class ScriptedTranscoder {
    const script: seq<Observation>
    const kind: StepCall
    const log: StepLog
    var steps: nat

    ghost predicate Valid()
      reads this
    {
      Finishes(script)
    }

    constructor (script: seq<Observation>, kind: StepCall, log: StepLog)
      requires Finishes(script)
      ensures Valid() && this.script == script && this.kind == kind && this.log == log && steps == 0
    {
      this.script := script;
      this.kind := kind;
      this.log := log;
      steps := 0;
    }

    function IsFinished(): (b: bool)
      reads this
      requires Valid()
      ensures b == After(script, steps).finished
    {
      After(script, steps).finished
    }

    function WrittenPresentationTimeUs(): (t: int)
      reads this
      requires Valid()
      ensures t == After(script, steps).writtenPresentationTimeUs
    {
      After(script, steps).writtenPresentationTimeUs
    }

    /** `stepPipeline()`: one more step (past the end of the script, the last observation
        stays), recorded in the log. */
    method StepPipeline()
      requires Valid()
      modifies this`steps, log`calls
      ensures Valid() && steps == old(steps) + 1
      ensures log.calls == old(log.calls) + [kind]
    {
      steps := steps + 1;
      log.calls := log.calls + [kind];
    }
  }

  function ScriptOf(t: Option<ScriptedTranscoder>): Option<seq<Observation>> {
    if t.Some? then Some(t.value.script) else None
  }

  predicate Scripted(t: Option<seq<Observation>>) {
    t.Some? ==> Finishes(t.value)
  }

  /** The loop condition before iteration `k + 1`: both transcoders are present and
      unfinished after `k` steps, and there is a job and it is not cancelled (a context
      without a `Job` makes `isCancelled?.not() == true` false). */
  predicate Running(video: Option<seq<Observation>>, audio: Option<seq<Observation>>,
                    hasJob: bool, cancelled: nat -> bool, k: nat)
    requires Scripted(video) && Scripted(audio)
  {
    && video.Some? && !After(video.value, k).finished
    && audio.Some? && !After(audio.value, k).finished
    && hasJob && !cancelled(k)
  }

  /** The number of iterations from `k` on: the first count at which the loop condition
      fails. */
  function FirstStop(video: Option<seq<Observation>>, audio: Option<seq<Observation>>,
                     hasJob: bool, cancelled: nat -> bool, k: nat): (n: nat)
    requires Scripted(video) && Scripted(audio)
    ensures k <= n && !Running(video, audio, hasJob, cancelled, n)
    ensures forall j :: k <= j < n ==> Running(video, audio, hasJob, cancelled, j)
    decreases if video.Some? && k < |video.value| then |video.value| - k else 0
  {
    if Running(video, audio, hasJob, cancelled, k) then FirstStop(video, audio, hasJob, cancelled, k + 1) else k
  }

  /** The observations at which a report is due during the first `n` iterations. */
  function DueObservations(duration: int, video: seq<Observation>, audio: seq<Observation>, n: nat): seq<(Observation, Observation)>
    requires |video| > 0 && |audio| > 0
  {
    if n == 0 then []
    else
      DueObservations(duration, video, audio, n - 1)
      + if IsStillProcessing(duration, Wrap32(n)) then [(After(video, n), After(audio, n))] else []
  }

  /** The progress reported for each due pair of observations. */
  function Reports(duration: int, due: seq<(Observation, Observation)>): seq<real>
    requires duration > 0
  {
    seq(|due|, k requires 0 <= k < |due| => Progress(due[k].0, due[k].1, duration))
  }

  lemma ReportsPush(duration: int, due: seq<(Observation, Observation)>, p: (Observation, Observation))
    requires duration > 0
    ensures Reports(duration, due + [p]) == Reports(duration, due) + [Progress(p.0, p.1, duration)]
  {
  }

  /** The progress values sent during the first `n` iterations. */
  function ProgressLog(duration: int, video: seq<Observation>, audio: seq<Observation>, n: nat): seq<real>
    requires |video| > 0 && |audio| > 0
  {
    if duration > 0 then Reports(duration, DueObservations(duration, video, audio, n)) else []
  }

  /** What has been sent after `n` iterations: `PROGRESS_UNKNOWN` first when the duration is
      not positive, then the periodic reports. */
  function SentAfter(duration: int, video: seq<Observation>, audio: seq<Observation>, n: nat): seq<real>
    requires |video| > 0 && |audio| > 0
  {
    (if duration <= 0 then [PROGRESS_UNKNOWN] else []) + ProgressLog(duration, video, audio, n)
  }

  /** Everything `runPipelines` sends. */
  function Sent(duration: int, video: Option<seq<Observation>>, audio: Option<seq<Observation>>,
                hasJob: bool, cancelled: nat -> bool): seq<real>
    requires Scripted(video) && Scripted(audio)
  {
    if video.Some? && audio.Some? then SentAfter(duration, video.value, audio.value, FirstStop(video, audio, hasJob, cancelled, 0))
    else if duration <= 0 then [PROGRESS_UNKNOWN] else []
  }

  function StepOrder(n: nat): seq<StepCall> {
    if n == 0 then [] else StepOrder(n - 1) + [StepVideo, StepAudio]
  }

  function Transcoders(video: Option<ScriptedTranscoder>, audio: Option<ScriptedTranscoder>): set<object> {
    (if video.Some? then {video.value} else {}) + (if audio.Some? then {audio.value} else {})
  }

  /** One pass of the loop body: step the video transcoder, then the audio one, increment
      the counter, and send the progress when it is due. */
  method Iteration(duration: int, videoTranscoder: ScriptedTranscoder, audioTranscoder: ScriptedTranscoder,
                   loopCount: int32, sent: seq<real>, ghost iterations: nat, ghost logBefore: seq<StepCall>)
    returns (next: int32, sentNext: seq<real>)
    requires videoTranscoder != audioTranscoder
    requires videoTranscoder.Valid() && videoTranscoder.steps == iterations
    requires audioTranscoder.Valid() && audioTranscoder.steps == iterations
    requires loopCount as int == Wrap32(iterations)
    requires videoTranscoder.kind == StepVideo && audioTranscoder.kind == StepAudio
    requires videoTranscoder.log == audioTranscoder.log
    requires sent == SentAfter(duration, videoTranscoder.script, audioTranscoder.script, iterations)
    requires videoTranscoder.log.calls == logBefore + StepOrder(iterations)
    modifies videoTranscoder`steps, audioTranscoder`steps, videoTranscoder.log`calls
    ensures videoTranscoder.log.calls == old(videoTranscoder.log.calls) + [StepVideo, StepAudio]
    ensures videoTranscoder.log.calls == logBefore + StepOrder(iterations + 1)
    ensures videoTranscoder.Valid() && videoTranscoder.steps == iterations + 1
    ensures audioTranscoder.Valid() && audioTranscoder.steps == iterations + 1
    ensures next as int == Wrap32(iterations + 1)
    ensures sentNext == SentAfter(duration, videoTranscoder.script, audioTranscoder.script, iterations + 1)
  {
    AppendAssociative(logBefore, StepOrder(iterations), [StepVideo, StepAudio]);
    videoTranscoder.StepPipeline();
    audioTranscoder.StepPipeline();
    next := Increment(loopCount, iterations);
    sentNext := ReportIfDue(duration, videoTranscoder, audioTranscoder, next, sent, iterations);
  }

  /** The end of the loop body: with the counter just incremented, send the mean progress of
      the two tracks when it is due. */
  method ReportIfDue(duration: int, videoTranscoder: ScriptedTranscoder, audioTranscoder: ScriptedTranscoder,
                     loopCount: int32, sent: seq<real>, ghost done: nat)
    returns (sentNext: seq<real>)
    requires videoTranscoder.Valid() && videoTranscoder.steps == done + 1
    requires audioTranscoder.Valid() && audioTranscoder.steps == done + 1
    requires loopCount as int == Wrap32(done + 1)
    requires sent == SentAfter(duration, videoTranscoder.script, audioTranscoder.script, done)
    ensures sentNext == SentAfter(duration, videoTranscoder.script, audioTranscoder.script, done + 1)
  {
    SentAfterStep(duration, videoTranscoder.script, audioTranscoder.script, done);
    if IsStillProcessing(duration, loopCount) {
      var videoNow := Observation(videoTranscoder.IsFinished(), videoTranscoder.WrittenPresentationTimeUs());
      var audioNow := Observation(audioTranscoder.IsFinished(), audioTranscoder.WrittenPresentationTimeUs());
      sentNext := sent + [Progress(videoNow, audioNow, duration)];
    } else {
      sentNext := sent;
    }
  }

  /** One more iteration appends the report it is due, if any. */
  lemma SentAfterStep(duration: int, video: seq<Observation>, audio: seq<Observation>, n: nat)
    requires |video| > 0 && |audio| > 0
    ensures SentAfter(duration, video, audio, n + 1) == SentAfter(duration, video, audio, n)
      + if IsStillProcessing(duration, Wrap32(n + 1)) then [Progress(After(video, n + 1), After(audio, n + 1), duration)] else []
  {
    if IsStillProcessing(duration, Wrap32(n + 1)) {
      ReportsPush(duration, DueObservations(duration, video, audio, n), (After(video, n + 1), After(audio, n + 1)));
    }
  }

  lemma FirstStopAdvance(video: Option<seq<Observation>>, audio: Option<seq<Observation>>,
                         hasJob: bool, cancelled: nat -> bool, k: nat)
    requires Scripted(video) && Scripted(audio) && Running(video, audio, hasJob, cancelled, k)
    ensures FirstStop(video, audio, hasJob, cancelled, k) == FirstStop(video, audio, hasJob, cancelled, k + 1)
  {
  }

  /** The `while` loop of `runPipelines` once both transcoders are known to be present. */
  method SteppingLoop(duration: int, videoTranscoder: ScriptedTranscoder, audioTranscoder: ScriptedTranscoder,
                      hasJob: bool, cancelled: nat -> bool)
    returns (sent: seq<real>, iterations: nat)
    requires videoTranscoder != audioTranscoder
    requires videoTranscoder.Valid() && videoTranscoder.steps == 0
    requires audioTranscoder.Valid() && audioTranscoder.steps == 0
    requires videoTranscoder.kind == StepVideo && audioTranscoder.kind == StepAudio
    requires videoTranscoder.log == audioTranscoder.log
    modifies videoTranscoder, audioTranscoder, videoTranscoder.log
    ensures iterations == FirstStop(Some(videoTranscoder.script), Some(audioTranscoder.script), hasJob, cancelled, 0)
    ensures sent == SentAfter(duration, videoTranscoder.script, audioTranscoder.script, iterations)
    ensures videoTranscoder.log.calls == old(videoTranscoder.log.calls) + StepOrder(iterations)
    ensures videoTranscoder.Valid() && videoTranscoder.steps == iterations
    ensures audioTranscoder.Valid() && audioTranscoder.steps == iterations
  {
    ghost var videoScript, audioScript := Some(videoTranscoder.script), Some(audioTranscoder.script);
    sent := if duration <= 0 then [PROGRESS_UNKNOWN] else [];
    iterations := 0;
    var loopCount: int32 := 0;
    while !videoTranscoder.IsFinished() && !audioTranscoder.IsFinished() && hasJob && !cancelled(iterations)
      invariant videoTranscoder.Valid() && videoTranscoder.steps == iterations
      invariant audioTranscoder.Valid() && audioTranscoder.steps == iterations
      invariant loopCount as int == Wrap32(iterations)
      invariant FirstStop(videoScript, audioScript, hasJob, cancelled, 0)
             == FirstStop(videoScript, audioScript, hasJob, cancelled, iterations)
      invariant sent == SentAfter(duration, videoTranscoder.script, audioTranscoder.script, iterations)
      invariant videoTranscoder.log.calls == old(videoTranscoder.log.calls) + StepOrder(iterations)
      decreases |videoTranscoder.script| - iterations
    {
      FirstStopAdvance(videoScript, audioScript, hasJob, cancelled, iterations);
      loopCount, sent := Iteration(duration, videoTranscoder, audioTranscoder, loopCount, sent, iterations,
                                   old(videoTranscoder.log.calls));
      iterations := iterations + 1;
    }
  }

  /** `runPipelines`: steps both transcoders in turn until either is finished or the job is
      cancelled, and sends the progress every `PROGRESS_INTERVAL_STEPS` iterations of the
      wrapping `Int` loop counter. `cancelled(k)` is the job's state before iteration `k + 1`. */
  method RunPipelines(duration: int, video: Option<ScriptedTranscoder>, audio: Option<ScriptedTranscoder>,
                      log: StepLog, hasJob: bool, cancelled: nat -> bool)
    returns (sent: seq<real>, iterations: nat)
    requires video.Some? ==> video.value.Valid() && video.value.steps == 0
    requires audio.Some? ==> audio.value.Valid() && audio.value.steps == 0
    requires video.Some? ==> video.value.kind == StepVideo && video.value.log == log
    requires audio.Some? ==> audio.value.kind == StepAudio && audio.value.log == log
    requires video.Some? && audio.Some? ==> video.value != audio.value
    modifies Transcoders(video, audio), log
    ensures Scripted(ScriptOf(video)) && Scripted(ScriptOf(audio))
    ensures iterations == FirstStop(ScriptOf(video), ScriptOf(audio), hasJob, cancelled, 0)
    ensures sent == Sent(duration, ScriptOf(video), ScriptOf(audio), hasJob, cancelled)
    ensures log.calls == old(log.calls) + StepOrder(iterations)
    ensures video.Some? ==> video.value.Valid() && video.value.steps == iterations
    ensures audio.Some? ==> audio.value.Valid() && audio.value.steps == iterations
  {
    if video.None? || audio.None? {
      // `?.isFinished() == false` is false for a null transcoder: the loop does not start.
      sent := if duration <= 0 then [PROGRESS_UNKNOWN] else [];
      iterations := 0;
    } else {
      sent, iterations := SteppingLoop(duration, video.value, audio.value, hasJob, cancelled);
    }
  }

  // ---------------------------------------------------------------------------------------
  // What the loop promises

  /** The number of steps after which a script first reports finished. */
  function FirstFinished(script: seq<Observation>, k: nat): (n: nat)
    requires Finishes(script)
    ensures k <= n && After(script, n).finished
    ensures forall j :: k <= j < n ==> !After(script, j).finished
    decreases |script| - k
  {
    if After(script, k).finished then k else FirstFinished(script, k + 1)
  }

  /** Without cancellation, the loop runs exactly until the first of the two transcoders
      finishes, whichever it is. */
  lemma {:induction false} StopsAtFirstFinish(video: seq<Observation>, audio: seq<Observation>,
                                              cancelled: nat -> bool, k: nat)
    requires Finishes(video) && Finishes(audio)
    requires forall j :: k <= j ==> !cancelled(j)
    requires k <= FirstFinished(video, 0) && k <= FirstFinished(audio, 0)
    ensures FirstStop(Some(video), Some(audio), true, cancelled, k)
      == if FirstFinished(video, 0) <= FirstFinished(audio, 0) then FirstFinished(video, 0) else FirstFinished(audio, 0)
    decreases |video| - k
  {
    var stop := if FirstFinished(video, 0) <= FirstFinished(audio, 0) then FirstFinished(video, 0) else FirstFinished(audio, 0);
    if k < stop {
      assert Running(Some(video), Some(audio), true, cancelled, k);
      StopsAtFirstFinish(video, audio, cancelled, k + 1);
    } else {
      assert !Running(Some(video), Some(audio), true, cancelled, k);
    }
  }

  /** Without an audio transcoder (a file without an audio track), or without a job, the
      loop never runs, so no sample of the video track is processed. */
  lemma NeverRunsWithoutAudio(duration: int, video: Option<seq<Observation>>, audio: Option<seq<Observation>>,
                              hasJob: bool, cancelled: nat -> bool)
    requires Scripted(video) && Scripted(audio)
    requires audio.None? || !hasJob
    ensures FirstStop(video, audio, hasJob, cancelled, 0) == 0
    ensures Sent(duration, video, audio, hasJob, cancelled) == if duration <= 0 then [PROGRESS_UNKNOWN] else []
  {
    if video.Some? && audio.Some? {
      assert SentAfter(duration, video.value, audio.value, 0) == if duration <= 0 then [PROGRESS_UNKNOWN] else [];
    }
  }

  /** A video that needs two steps and an audio track that needs four: the loop stops after
      two iterations, with the audio track unfinished. */
  lemma EarlyStopLeavesAudioUnfinished(cancelled: nat -> bool)
    requires forall j :: !cancelled(j)
    ensures var video := [Observation(false, 0), Observation(false, 10), Observation(true, 20)];
      var audio := [Observation(false, 0), Observation(false, 5), Observation(false, 10), Observation(false, 15), Observation(true, 20)];
      && FirstStop(Some(video), Some(audio), true, cancelled, 0) == 2
      && !After(audio, 2).finished
  {
    var video := [Observation(false, 0), Observation(false, 10), Observation(true, 20)];
    var audio := [Observation(false, 0), Observation(false, 5), Observation(false, 10), Observation(false, 15), Observation(true, 20)];
    assert Running(Some(video), Some(audio), true, cancelled, 0);
    assert Running(Some(video), Some(audio), true, cancelled, 1);
    assert !Running(Some(video), Some(audio), true, cancelled, 2);
  }

  /** The loop condition the stepping evidently means: go on while the job runs and some
      present transcoder is unfinished. */
  predicate CorrectedRunning(video: Option<seq<Observation>>, audio: Option<seq<Observation>>,
                             hasJob: bool, cancelled: nat -> bool, k: nat)
    requires Scripted(video) && Scripted(audio)
  {
    && hasJob && !cancelled(k)
    && ((video.Some? && !After(video.value, k).finished) || (audio.Some? && !After(audio.value, k).finished))
  }

  /** The iteration count under the corrected condition. */
  function CorrectedFirstStop(video: Option<seq<Observation>>, audio: Option<seq<Observation>>,
                              hasJob: bool, cancelled: nat -> bool, k: nat): (n: nat)
    requires Scripted(video) && Scripted(audio)
    ensures k <= n && !CorrectedRunning(video, audio, hasJob, cancelled, n)
    ensures forall j :: k <= j < n ==> CorrectedRunning(video, audio, hasJob, cancelled, j)
    decreases (if video.Some? && k < |video.value| then |video.value| - k else 0)
            + (if audio.Some? && k < |audio.value| then |audio.value| - k else 0)
  {
    if CorrectedRunning(video, audio, hasJob, cancelled, k) then CorrectedFirstStop(video, audio, hasJob, cancelled, k + 1) else k
  }

  /** Under the corrected condition the loop ends only when the job is gone or cancelled, or
      when every present transcoder is finished; in the example above it runs until the
      audio track is done too. */
  lemma CorrectedStopFinishesAll(video: Option<seq<Observation>>, audio: Option<seq<Observation>>,
                                 hasJob: bool, cancelled: nat -> bool)
    requires Scripted(video) && Scripted(audio)
    ensures var n := CorrectedFirstStop(video, audio, hasJob, cancelled, 0);
      hasJob && !cancelled(n) ==>
        && (video.Some? ==> After(video.value, n).finished)
        && (audio.Some? ==> After(audio.value, n).finished)
  {
  }

  lemma CorrectedStopRunsAudioToEnd(cancelled: nat -> bool)
    requires forall j :: !cancelled(j)
    ensures var video := [Observation(false, 0), Observation(false, 10), Observation(true, 20)];
      var audio := [Observation(false, 0), Observation(false, 5), Observation(false, 10), Observation(false, 15), Observation(true, 20)];
      && CorrectedFirstStop(Some(video), Some(audio), true, cancelled, 0) == 4
      && After(audio, 4).finished && After(video, 4).finished
  {
    var video := [Observation(false, 0), Observation(false, 10), Observation(true, 20)];
    var audio := [Observation(false, 0), Observation(false, 5), Observation(false, 10), Observation(false, 15), Observation(true, 20)];
    assert CorrectedRunning(Some(video), Some(audio), true, cancelled, 3);
    assert !CorrectedRunning(Some(video), Some(audio), true, cancelled, 4);
  }

  /** With an unknown duration no report is ever due, so nothing but `PROGRESS_UNKNOWN` is
      ever sent. */
  lemma {:induction false} NoReportsForUnknownDuration(duration: int, video: seq<Observation>, audio: seq<Observation>, n: nat)
    requires |video| > 0 && |audio| > 0 && duration <= 0
    ensures DueObservations(duration, video, audio, n) == []
    ensures ProgressLog(duration, video, audio, n) == []
  {
    if n > 0 {
      NoReportsForUnknownDuration(duration, video, audio, n - 1);
    }
  }

  /** For a known duration, a report is sent every tenth iteration: `n / 10` reports after
      `n` iterations, as long as the `Int` counter has not wrapped around. */
  lemma {:induction false} ReportCount(duration: int, video: seq<Observation>, audio: seq<Observation>, n: nat)
    requires |video| > 0 && |audio| > 0 && duration > 0 && n <= INT_MAX
    ensures |DueObservations(duration, video, audio, n)| == n / PROGRESS_INTERVAL_STEPS
    ensures |ProgressLog(duration, video, audio, n)| == n / PROGRESS_INTERVAL_STEPS
  {
    if n > 0 {
      ReportCount(duration, video, audio, n - 1);
      IsStillProcessingRule(duration, n as int32);
      assert Wrap32(n) == n;
    }
  }

  predicate WrittenNonNegative(script: seq<Observation>) {
    forall k :: 0 <= k < |script| ==> script[k].writtenPresentationTimeUs >= 0
  }

  /** Every due pair holds observations of the two scripts, so their written times are not
      negative when the scripts' are not. */
  lemma {:induction false} DueWrittenNonNegative(duration: int, video: seq<Observation>, audio: seq<Observation>, n: nat)
    requires |video| > 0 && |audio| > 0 && WrittenNonNegative(video) && WrittenNonNegative(audio)
    ensures forall k :: 0 <= k < |DueObservations(duration, video, audio, n)| ==>
      DueObservations(duration, video, audio, n)[k].0.writtenPresentationTimeUs >= 0 &&
      DueObservations(duration, video, audio, n)[k].1.writtenPresentationTimeUs >= 0
  {
    if n > 0 {
      DueWrittenNonNegative(duration, video, audio, n - 1);
      assert After(video, n) in video && After(audio, n) in audio;
    }
  }

  /** Every report is at most 1, and at least 0 when no written time is negative. */
  lemma ReportsInRange(duration: int, video: seq<Observation>, audio: seq<Observation>, n: nat)
    requires |video| > 0 && |audio| > 0
    ensures forall i :: 0 <= i < |ProgressLog(duration, video, audio, n)| ==> ProgressLog(duration, video, audio, n)[i] <= 1.0
    ensures WrittenNonNegative(video) && WrittenNonNegative(audio) ==>
      forall i :: 0 <= i < |ProgressLog(duration, video, audio, n)| ==> ProgressLog(duration, video, audio, n)[i] >= 0.0
  {
    if duration > 0 {
      var due := DueObservations(duration, video, audio, n);
      if WrittenNonNegative(video) && WrittenNonNegative(audio) {
        DueWrittenNonNegative(duration, video, audio, n);
      }
      forall i | 0 <= i < |due|
        ensures Reports(duration, due)[i] <= 1.0
        ensures due[i].0.writtenPresentationTimeUs >= 0 && due[i].1.writtenPresentationTimeUs >= 0 ==> Reports(duration, due)[i] >= 0.0
      {
        ProgressRange(due[i].0, due[i].1, duration);
      }
    }
  }

  /** `PROGRESS_UNKNOWN` is sent, once and alone, exactly when the duration is not positive;
      otherwise every value sent is a report in [0, 1] (for non-negative written times). */
  lemma UnknownSentIffNoDuration(duration: int, video: Option<seq<Observation>>, audio: Option<seq<Observation>>,
                                 hasJob: bool, cancelled: nat -> bool)
    requires Scripted(video) && Scripted(audio)
    ensures duration <= 0 ==> Sent(duration, video, audio, hasJob, cancelled) == [PROGRESS_UNKNOWN]
    ensures duration > 0 ==>
      forall i :: 0 <= i < |Sent(duration, video, audio, hasJob, cancelled)| ==> Sent(duration, video, audio, hasJob, cancelled)[i] <= 1.0
    ensures duration > 0 && (video.Some? ==> WrittenNonNegative(video.value)) && (audio.Some? ==> WrittenNonNegative(audio.value)) ==>
      PROGRESS_UNKNOWN !in Sent(duration, video, audio, hasJob, cancelled)
  {
    if video.Some? && audio.Some? {
      var n := FirstStop(video, audio, hasJob, cancelled, 0);
      if duration <= 0 {
        NoReportsForUnknownDuration(duration, video.value, audio.value, n);
      } else {
        ReportsInRange(duration, video.value, audio.value, n);
        assert Sent(duration, video, audio, hasJob, cancelled) == ProgressLog(duration, video.value, audio.value, n);
      }
    }
  }

  /** The loop steps the video transcoder and then the audio one, once each per iteration. */
  lemma {:induction false} StepOrderAlternates(n: nat)
    ensures |StepOrder(n)| == 2 * n
    ensures forall k :: 0 <= k < n ==> StepOrder(n)[2 * k] == StepVideo && StepOrder(n)[2 * k + 1] == StepAudio
  {
    if n > 0 {
      StepOrderAlternates(n - 1);
    }
  }
}
