// The prober's per-stream records and the field defaults the script applies
// when it reads them (vidChew3.py:384-423, 445-491, 706-753).

module Streams {

  datatype Option<+T> = None | Some(value: T) {
    function GetOr(default: T): T {
      match this
      case Some(v) => v
      case None => default
    }
  }

  /** The "codec_type" of a stream; everything the script never looks for is OtherType. */
  datatype CodecType = Video | Audio | Subtitle | OtherType

  /**
   * One entry of the prober's "streams" array, already decoded from JSON.
   * A key the prober left out is None; `language` is tags.language.
   * bitRate is in bits per second, as the prober reports it.
   */
  datatype RawStream = RawStream(
    codecType: CodecType,
    index: Option<nat>,
    codecName: Option<string>,
    language: Option<string>,
    channels: Option<nat>,
    bitRate: Option<int>,
    profile: Option<string>,
    width: Option<nat>,
    height: Option<nat>,
    displayAspectRatio: Option<string>)

  /** The sentinel the script stores for a missing text field. */
  const Unknown: string := "unknown"

  /** Where the kb/s figure of an audio stream came from. */
  datatype RateSource = Measured | DtsHdMaEstimate | TrueHdCeiling | RateUnknown

  /** An audio stream after the defaults of vidChew3.py:447-491 were applied. */
  datatype AudioInfo = AudioInfo(
    index: Option<nat>,
    language: string,
    codecName: string,
    channels: nat,
    channelsKnown: bool,
    bitRate: int,
    rateSource: RateSource)

  /** A video stream after the defaults of vidChew3.py:386-413. */
  datatype VideoTrack = VideoTrack(
    index: Option<nat>,
    codecName: string,
    width: Option<nat>,
    height: Option<nat>,
    displayAspectRatio: string)

  /** A subtitle stream after the defaults of vidChew3.py:739-753. */
  datatype SubtitleTrack = SubtitleTrack(index: Option<nat>, language: string, codecName: string)

  /**
   * `int(int(x) / 1000)`: division followed by truncation toward zero, so
   * bits per second become whole kb/s. The division here is exact.
   */
  function Kbps(bitsPerSecond: int): (k: int)
    ensures 0 <= bitsPerSecond ==> 0 <= k && k * 1000 <= bitsPerSecond < k * 1000 + 1000
    ensures bitsPerSecond < 0 ==> k <= 0 && bitsPerSecond <= k * 1000 < bitsPerSecond + 1000
  {
    if bitsPerSecond >= 0 then bitsPerSecond / 1000 else -((-bitsPerSecond) / 1000)
  }

  /** The audio field cascade: sentinels for missing fields, then the bitrate estimates. */
  function AudioFields(s: RawStream): (a: AudioInfo)
    ensures a.index == s.index && a.language == s.language.GetOr(Unknown)
    ensures a.channels == s.channels.GetOr(0) && (a.channelsKnown <==> s.channels.Some?)
    ensures a.rateSource == Measured <==> s.bitRate.Some?
    ensures a.rateSource == DtsHdMaEstimate <==>
      s.bitRate.None? && s.codecName == Some("dts") && s.profile == Some("DTS-HD MA")
    ensures a.rateSource == TrueHdCeiling <==> s.bitRate.None? && s.codecName == Some("truehd")
    ensures a.rateSource == RateUnknown ==> a.bitRate == 0
  {
    var codec := s.codecName.GetOr(Unknown);
    var language := s.language.GetOr(Unknown);
    var channels := s.channels.GetOr(0);
    var (codecName, bitRate, source) :=
      if s.bitRate.Some? then (codec, Kbps(s.bitRate.value), Measured)
      else if codec == "dts" then
        if s.profile == Some("DTS-HD MA") then ("dts-hd ma", 1536, DtsHdMaEstimate)
        else (codec, 0, RateUnknown)
      else if codec == "truehd" then (codec, 18000, TrueHdCeiling)
      else (codec, 0, RateUnknown);
    AudioInfo(s.index, language, codecName, channels, s.channels.Some?, bitRate, source)
  }

  /** The video defaults: index and dimensions as given, "unknown" for a missing codec or aspect. */
  function VideoFields(s: RawStream): (v: VideoTrack)
    ensures v.index == s.index && v.width == s.width && v.height == s.height
    ensures s.codecName.Some? ==> v.codecName == s.codecName.value
    ensures s.codecName.None? ==> v.codecName == Unknown
    ensures s.displayAspectRatio.Some? ==> v.displayAspectRatio == s.displayAspectRatio.value
    ensures s.displayAspectRatio.None? ==> v.displayAspectRatio == Unknown
  {
    VideoTrack(s.index, s.codecName.GetOr(Unknown), s.width, s.height,
               s.displayAspectRatio.GetOr(Unknown))
  }

  /** The subtitle defaults: "unknown" for a missing language or codec. */
  function SubtitleFields(s: RawStream): (t: SubtitleTrack)
    ensures t.index == s.index
    ensures s.language.Some? ==> t.language == s.language.value
    ensures s.language.None? ==> t.language == Unknown
    ensures s.codecName.Some? ==> t.codecName == s.codecName.value
    ensures s.codecName.None? ==> t.codecName == Unknown
  {
    SubtitleTrack(s.index, s.language.GetOr(Unknown), s.codecName.GetOr(Unknown))
  }

  /** A measured bitrate is floored to kb/s and leaves the codec name alone. */
  lemma MeasuredBitRate(s: RawStream)
    requires s.bitRate.Some? && s.bitRate.value >= 0
    ensures AudioFields(s).bitRate * 1000 <= s.bitRate.value < AudioFields(s).bitRate * 1000 + 1000
    ensures AudioFields(s).codecName == s.codecName.GetOr(Unknown)
  {
  }

  /**
   * Without a measured bitrate: DTS-HD MA is relabelled and estimated at 1536,
   * TrueHD is given its 18000 ceiling, everything else gets 0.
   */
  lemma EstimatedBitRate(s: RawStream)
    requires s.bitRate.None?
    ensures var a := AudioFields(s);
      && (a.codecName == "dts-hd ma" && a.bitRate == 1536 <==>
            s.codecName == Some("dts") && s.profile == Some("DTS-HD MA"))
      && (s.codecName == Some("truehd") ==> a.codecName == "truehd" && a.bitRate == 18000)
      && (a.bitRate != 0 <==>
            (s.codecName == Some("truehd") ||
             (s.codecName == Some("dts") && s.profile == Some("DTS-HD MA"))))
  {
  }

  /** Only the DTS-HD MA estimate ever changes the codec name the prober gave. */
  lemma CodecNameKept(s: RawStream)
    ensures AudioFields(s).codecName != s.codecName.GetOr(Unknown) <==>
      s.bitRate.None? && s.codecName == Some("dts") && s.profile == Some("DTS-HD MA")
  {
  }

  /** Missing channels count as 0 and missing text fields as "unknown". */
  lemma AudioSentinels(s: RawStream)
    ensures s.channels.None? ==> AudioFields(s).channels == 0 && !AudioFields(s).channelsKnown
    ensures s.language.None? ==> AudioFields(s).language == Unknown
    ensures s.codecName.None? ==> AudioFields(s).codecName == Unknown
  {
  }
}
