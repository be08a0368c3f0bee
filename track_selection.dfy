/** `MediaExtractorUtils.getFirstVideoAndAudioTrack`: the first video and the first audio
    track of a container, found by the prefix of each track's mime type. */
module TrackSelection {
  import opened Common

  /** Kotlin `String.startsWith`. */
  predicate StartsWith(s: string, prefix: string) {
    |prefix| <= |s| && s[..|prefix|] == prefix
  }

  /** The mime type of each track (`getString(KEY_MIME)`, null when absent). */
  function Mimes(formats: seq<MediaFormat>): (r: seq<Option<string>>)
    ensures |r| == |formats|
    ensures forall i :: 0 <= i < |formats| ==> r[i] == GetString(formats[i], KeyMime)
  {
    seq(|formats|, i requires 0 <= i < |formats| => GetString(formats[i], KeyMime))
  }

  predicate HasPrefix(mime: Option<string>, prefix: string) {
    mime.Some? && StartsWith(mime.value, prefix)
  }

  /** The lowest index whose mime starts with `prefix`, or -1. */
  function FirstWithPrefix(mimes: seq<Option<string>>, prefix: string): (r: int)
    ensures -1 <= r < |mimes|
    ensures r >= 0 ==> HasPrefix(mimes[r], prefix) && forall j :: 0 <= j < r ==> !HasPrefix(mimes[j], prefix)
    ensures r == -1 ==> forall j :: 0 <= j < |mimes| ==> !HasPrefix(mimes[j], prefix)
  {
    if mimes == [] then -1
    else
      var n := |mimes| - 1;
      var earlier := FirstWithPrefix(mimes[..n], prefix);
      assert forall j :: 0 <= j < n ==> mimes[..n][j] == mimes[j];
      if earlier >= 0 then earlier
      else if HasPrefix(mimes[n], prefix) then n
      else -1
  }

  const VIDEO_PREFIX: string := "video/"
  const AUDIO_PREFIX: string := "audio/"

  /** How far the scan goes: up to and including the later of the two first tracks when both
      exist, otherwise over every track. */
  function ScanEnd(mimes: seq<Option<string>>): (r: nat)
    ensures r <= |mimes|
  {
    var video, audio := FirstWithPrefix(mimes, VIDEO_PREFIX), FirstWithPrefix(mimes, AUDIO_PREFIX);
    if video >= 0 && audio >= 0 then (if video > audio then video else audio) + 1 else |mimes|
  }

  /** No mime starts with both prefixes. */
  lemma PrefixesExclusive(s: string)
    ensures !(StartsWith(s, VIDEO_PREFIX) && StartsWith(s, AUDIO_PREFIX))
  {
  }

  /** One more track extends the search by that track. */
  lemma FirstWithPrefixStep(mimes: seq<Option<string>>, i: nat, prefix: string)
    requires i < |mimes|
    ensures FirstWithPrefix(mimes[..i + 1], prefix) ==
      var earlier := FirstWithPrefix(mimes[..i], prefix);
      if earlier >= 0 then earlier else if HasPrefix(mimes[i], prefix) then i else -1
  {
    assert mimes[..i + 1][..i] == mimes[..i];
  }

  /** `index`, `mime` and `format` all describe track `index`, or are -1, null and null. */
  ghost predicate Records(index: int, mime: Option<string>, format: Option<MediaFormat>,
                          mimes: seq<Option<string>>, formats: seq<MediaFormat>)
    requires |mimes| == |formats|
  {
    && index < |formats|
    && (index >= 0 ==> mime == mimes[index] && format == Some(formats[index]))
    && (index < 0 ==> mime == None && format == None)
  }

  /** `TrackResult`: the chosen indices (Kotlin's initial 0 is overwritten with -1 at once),
      mimes and formats. */
  class TrackResult {
    var videoTrackIndex: int
    var videoTrackMime: Option<string>
    var videoTrackFormat: Option<MediaFormat>
    var audioTrackIndex: int
    var audioTrackMime: Option<string>
    var audioTrackFormat: Option<MediaFormat>

    constructor ()
      ensures videoTrackIndex == 0 && videoTrackMime == None && videoTrackFormat == None
      ensures audioTrackIndex == 0 && audioTrackMime == None && audioTrackFormat == None
    {
      videoTrackIndex, videoTrackMime, videoTrackFormat := 0, None, None;
      audioTrackIndex, audioTrackMime, audioTrackFormat := 0, None, None;
    }
  }

  /** The scan of `getFirstVideoAndAudioTrack` from track `i` on, with the indices found so
      far: a null mime throws, a track is taken as video when none was found yet and its mime
      starts with "video/", else as audio likewise, and the scan stops once both are found. */
  function ScanFrom(mimes: seq<Option<string>>, i: nat, video: int, audio: int): Result<(int, int)>
    requires i <= |mimes|
    decreases |mimes| - i
  {
    if i == |mimes| then Ok((video, audio))
    else if mimes[i].None? then Err(NullPointer)
    else
      var mime := mimes[i].value;
      var (video', audio') :=
        if video < 0 && StartsWith(mime, VIDEO_PREFIX) then (i, audio)
        else if audio < 0 && StartsWith(mime, AUDIO_PREFIX) then (video, i)
        else (video, audio);
      if video' >= 0 && audio' >= 0 then Ok((video', audio')) else ScanFrom(mimes, i + 1, video', audio')
  }

  /** The scan from the start, both indices at -1. */
  function Selection(mimes: seq<Option<string>>): Result<(int, int)> {
    ScanFrom(mimes, 0, -1, -1)
  }

  /** The scan finds the first video and the first audio track, which are distinct, and
      throws exactly when a track it reaches (up to the later of the two, or all tracks when
      one is missing) has no mime. */
  lemma SelectionIsFirstTracks(mimes: seq<Option<string>>)
    ensures var s := Selection(mimes);
      && (s.Ok? <==> forall j :: 0 <= j < ScanEnd(mimes) ==> mimes[j].Some?)
      && (s.Err? ==> s.error == NullPointer)
      && (s.Ok? ==> s.value == (FirstWithPrefix(mimes, VIDEO_PREFIX), FirstWithPrefix(mimes, AUDIO_PREFIX)))
      && (s.Ok? && s.value.0 >= 0 && s.value.1 >= 0 ==> s.value.0 != s.value.1)
  {
    assert mimes[..0] == [];
    ScanFromIsFirstTracks(mimes, 0, -1, -1);
    var video, audio := FirstWithPrefix(mimes, VIDEO_PREFIX), FirstWithPrefix(mimes, AUDIO_PREFIX);
    if video >= 0 && audio >= 0 {
      PrefixesExclusive(mimes[video].value);
    }
  }

  lemma {:induction false} ScanFromIsFirstTracks(mimes: seq<Option<string>>, i: nat, video: int, audio: int)
    requires i <= |mimes|
    requires forall j :: 0 <= j < i ==> mimes[j].Some?
    requires video == FirstWithPrefix(mimes[..i], VIDEO_PREFIX) && audio == FirstWithPrefix(mimes[..i], AUDIO_PREFIX)
    requires !(video >= 0 && audio >= 0)
    ensures var s := ScanFrom(mimes, i, video, audio);
      && (s.Ok? <==> forall j :: i <= j < ScanEnd(mimes) ==> mimes[j].Some?)
      && (s.Err? ==> s.error == NullPointer)
      && (s.Ok? ==> s.value == (FirstWithPrefix(mimes, VIDEO_PREFIX), FirstWithPrefix(mimes, AUDIO_PREFIX)))
    decreases |mimes| - i
  {
    if i == |mimes| {
      assert mimes[..i] == mimes;
    } else if mimes[i].None? {
      ScanReachesNull(mimes, i, video, audio);
    } else {
      FirstWithPrefixStep(mimes, i, VIDEO_PREFIX);
      FirstWithPrefixStep(mimes, i, AUDIO_PREFIX);
      PrefixesExclusive(mimes[i].value);
      var video', audio' := FirstWithPrefix(mimes[..i + 1], VIDEO_PREFIX), FirstWithPrefix(mimes[..i + 1], AUDIO_PREFIX);
      if video' >= 0 && audio' >= 0 {
        ScanCompletesAt(mimes, i, video, audio);
      } else {
        ScanFromIsFirstTracks(mimes, i + 1, video', audio');
        ScanContinues(mimes, i, video, audio, video', audio');
      }
    }
  }

  /** A null mime reached by the scan throws, and it lies inside the scanned range. */
  lemma ScanReachesNull(mimes: seq<Option<string>>, i: nat, video: int, audio: int)
    requires i < |mimes| && mimes[i].None?
    requires video == FirstWithPrefix(mimes[..i], VIDEO_PREFIX) && audio == FirstWithPrefix(mimes[..i], AUDIO_PREFIX)
    requires !(video >= 0 && audio >= 0)
    ensures ScanFrom(mimes, i, video, audio) == Err(NullPointer)
    ensures !(forall j :: i <= j < ScanEnd(mimes) ==> mimes[j].Some?)
  {
    FirstPrefixReached(mimes, i);
  }

  /** When track `i` supplies the second of the two, the scan ends there with the first tracks. */
  lemma ScanCompletesAt(mimes: seq<Option<string>>, i: nat, video: int, audio: int)
    requires i < |mimes| && mimes[i].Some?
    requires video == FirstWithPrefix(mimes[..i], VIDEO_PREFIX) && audio == FirstWithPrefix(mimes[..i], AUDIO_PREFIX)
    requires !(video >= 0 && audio >= 0)
    requires FirstWithPrefix(mimes[..i + 1], VIDEO_PREFIX) >= 0 && FirstWithPrefix(mimes[..i + 1], AUDIO_PREFIX) >= 0
    ensures ScanFrom(mimes, i, video, audio) == Ok((FirstWithPrefix(mimes, VIDEO_PREFIX), FirstWithPrefix(mimes, AUDIO_PREFIX)))
    ensures ScanEnd(mimes) == i + 1
  {
    FirstWithPrefixStep(mimes, i, VIDEO_PREFIX);
    FirstWithPrefixStep(mimes, i, AUDIO_PREFIX);
    PrefixesExclusive(mimes[i].value);
    FirstWithPrefixStable(mimes, i + 1, VIDEO_PREFIX);
    FirstWithPrefixStable(mimes, i + 1, AUDIO_PREFIX);
  }

  /** When track `i` leaves one of the two missing, the scan goes on from `i + 1`. */
  lemma ScanContinues(mimes: seq<Option<string>>, i: nat, video: int, audio: int, video': int, audio': int)
    requires i < |mimes| && mimes[i].Some?
    requires video == FirstWithPrefix(mimes[..i], VIDEO_PREFIX) && audio == FirstWithPrefix(mimes[..i], AUDIO_PREFIX)
    requires video' == FirstWithPrefix(mimes[..i + 1], VIDEO_PREFIX) && audio' == FirstWithPrefix(mimes[..i + 1], AUDIO_PREFIX)
    requires !(video' >= 0 && audio' >= 0)
    ensures ScanFrom(mimes, i, video, audio) == ScanFrom(mimes, i + 1, video', audio')
    ensures (forall j :: i <= j < ScanEnd(mimes) ==> mimes[j].Some?) <==>
            (forall j :: i + 1 <= j < ScanEnd(mimes) ==> mimes[j].Some?)
  {
    FirstWithPrefixStep(mimes, i, VIDEO_PREFIX);
    FirstWithPrefixStep(mimes, i, AUDIO_PREFIX);
    PrefixesExclusive(mimes[i].value);
  }

  /** `getFirstVideoAndAudioTrack` over the formats the extractor reports (`getTrackCount`,
      `getTrackFormat(i)`): the result records the tracks `Selection` picks, each with its
      own mime and format, or -1 and nulls; a null mime met by the scan throws. */
  method GetFirstVideoAndAudioTrack(formats: seq<MediaFormat>) returns (r: Result<TrackResult>)
    ensures var s := Selection(Mimes(formats));
      && (r.Ok? <==> s.Ok?)
      && (r.Err? ==> r.error == s.error)
      && (r.Ok? ==>
            var t := r.value;
            && fresh(t)
            && (t.videoTrackIndex, t.audioTrackIndex) == s.value
            && Records(t.videoTrackIndex, t.videoTrackMime, t.videoTrackFormat, Mimes(formats), formats)
            && Records(t.audioTrackIndex, t.audioTrackMime, t.audioTrackFormat, Mimes(formats), formats))
  {
    ghost var mimes := Mimes(formats);
    var trackResult := new TrackResult();
    trackResult.videoTrackIndex := -1;
    trackResult.audioTrackIndex := -1;
    var trackCount := |formats|;
    var i := 0;
    while i < trackCount
      invariant 0 <= i <= trackCount
      invariant ScanFrom(mimes, i, trackResult.videoTrackIndex, trackResult.audioTrackIndex) == Selection(mimes)
      invariant Records(trackResult.videoTrackIndex, trackResult.videoTrackMime, trackResult.videoTrackFormat, mimes, formats)
      invariant Records(trackResult.audioTrackIndex, trackResult.audioTrackMime, trackResult.audioTrackFormat, mimes, formats)
      invariant !(trackResult.videoTrackIndex >= 0 && trackResult.audioTrackIndex >= 0)
    {
      var format := formats[i];
      var mime := GetString(format, KeyMime);
      if mime.None? {
        return Err(NullPointer);
      }
      if trackResult.videoTrackIndex < 0 && StartsWith(mime.value, VIDEO_PREFIX) {
        trackResult.videoTrackIndex := i;
        trackResult.videoTrackMime := mime;
        trackResult.videoTrackFormat := Some(format);
      } else if trackResult.audioTrackIndex < 0 && StartsWith(mime.value, AUDIO_PREFIX) {
        trackResult.audioTrackIndex := i;
        trackResult.audioTrackMime := mime;
        trackResult.audioTrackFormat := Some(format);
      }
      if trackResult.videoTrackIndex >= 0 && trackResult.audioTrackIndex >= 0 {
        return Ok(trackResult);
      }
      i := i + 1;
    }
    r := Ok(trackResult);
  }

  /** A first match found in a prefix is the first match of the whole sequence. */
  lemma FirstWithPrefixStable(mimes: seq<Option<string>>, n: nat, prefix: string)
    requires n <= |mimes| && FirstWithPrefix(mimes[..n], prefix) >= 0
    ensures FirstWithPrefix(mimes, prefix) == FirstWithPrefix(mimes[..n], prefix)
  {
    var r := FirstWithPrefix(mimes[..n], prefix);
    assert mimes[..n][r] == mimes[r];
    assert forall j :: 0 <= j < r ==> mimes[..n][j] == mimes[j];
  }

  /** While one of the two is still missing after index `i - 1`, index `i` is inside the scan. */
  lemma FirstPrefixReached(mimes: seq<Option<string>>, i: nat)
    requires i < |mimes| && !HasPrefix(mimes[i], VIDEO_PREFIX) && !HasPrefix(mimes[i], AUDIO_PREFIX)
    requires !(FirstWithPrefix(mimes[..i], VIDEO_PREFIX) >= 0 && FirstWithPrefix(mimes[..i], AUDIO_PREFIX) >= 0)
    ensures i < ScanEnd(mimes)
  {
    var video, audio := FirstWithPrefix(mimes, VIDEO_PREFIX), FirstWithPrefix(mimes, AUDIO_PREFIX);
    if video >= 0 && audio >= 0 {
      if FirstWithPrefix(mimes[..i], VIDEO_PREFIX) < 0 {
        assert forall j :: 0 <= j < i ==> mimes[..i][j] == mimes[j];
        assert video >= i;
      } else {
        assert forall j :: 0 <= j < i ==> mimes[..i][j] == mimes[j];
        assert audio >= i;
      }
    }
  }
}
