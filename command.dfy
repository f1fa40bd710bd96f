// The encoder command line (vidChew3.py:686-691, 765-780, 1065) and the
// pre-encode summary the script reports (vidChew3.py:959-1000).

module EncoderCommand {
  import opened Streams
  import opened Settings
  import opened Text
  import opened TrackSelector
  import opened VideoPlanner
  import opened AudioPlanner
  import opened Naming

  /** Everything decided for one file. */
  datatype FilePlan = FilePlan(
    video: VideoTrack,
    audio: Option<AudioInfo>,
    subtitle: Option<SubtitleTrack>,
    subtitleCopy: bool,
    videoPlan: VideoPlan,
    audioPlan: AudioPlan,
    newName: string)

  /** str() of a stream index, which is "unknown" when the prober gave none. */
  function IndexText(index: Option<nat>): string {
    if index.Some? then NatToString(index.value) else Unknown
  }

  function MapOpt(index: Option<nat>): string {
    "-map 0:" + IndexText(index)
  }

  /** targAudioTrackMap: empty when no audio track was chosen. */
  function AudioMapOpt(sel: Option<AudioInfo>): string {
    if sel.Some? then MapOpt(sel.value.index) else ""
  }

  /** targAudioTrackTag: written only for a chosen track with a known language. */
  function AudioLangTag(sel: Option<AudioInfo>): (tag: string)
    ensures tag != "" <==> sel.Some? && sel.value.language != Unknown
    ensures tag != "" ==> tag == "-metadata:s:1 language=" + sel.value.language
  {
    if sel.Some? && sel.value.language != Unknown then "-metadata:s:1 language=" + sel.value.language else ""
  }

  function SubMapOpt(sub: Option<SubtitleTrack>): string {
    if sub.Some? then MapOpt(sub.value.index) else ""
  }

  function SubLangTag(sub: Option<SubtitleTrack>): string {
    if sub.Some? then "-metadata:s:2 language=" + sub.value.language else ""
  }

  /** subOpt: bitmap subtitles are stream-copied; an empty option lets the encoder convert. */
  function SubOpt(copy: bool): string {
    if copy then "-c:s copy" else ""
  }

  /** The summary's subtitle codec agrees with the subtitle option that goes on the command line. */
  lemma SubtitleSummaryAgreesWithOption(sub: Option<SubtitleTrack>, copy: bool)
    requires copy <==> sub.Some? && IsBitmapSubtitle(sub.value.codecName)
    ensures SubOpt(copy) == "" <==> SubtitleOutputCodec(sub) == "ass"
  {
  }

  const Disposition: string := "-disposition:v:0 1 -disposition:a:0 1 -disposition:s:0 0 -map_metadata -1"

  function Quote(s: string): string {
    "\"" + s + "\""
  }

  /** The twenty pieces of encodeCmd, in order; empty options still leave their separator. */
  function CommandPieces(reportOpt: string, inputAbsPath: string, fp: FilePlan, cfg: Config, finalDest: string): (pieces: seq<string>)
    ensures |pieces| == 20
  {
    [reportOpt, "</dev/null", "ffmpeg -y -v verbose -i", Quote(inputAbsPath),
     MapOpt(fp.video.index), AudioMapOpt(fp.audio), SubMapOpt(fp.subtitle),
     AudioLangTag(fp.audio), SubLangTag(fp.subtitle), ScaleOpt(fp.videoPlan, cfg),
     "-c:v", cfg.videoTargCodec, "-preset", cfg.videoTargCodecPreset, "-crf", cfg.videoTargCrf,
     AudioOptText(fp.audioPlan.op), SubOpt(fp.subtitleCopy), Disposition, Quote(finalDest)]
  }

  function EncodeCommand(reportOpt: string, inputAbsPath: string, fp: FilePlan, cfg: Config, finalDest: string): string {
    Join(CommandPieces(reportOpt, inputAbsPath, fp, cfg, finalDest), " ")
  }

  /** The command reads the input file and maps the chosen video track right after it. */
  lemma CommandReadsInput(reportOpt: string, inputAbsPath: string, fp: FilePlan, cfg: Config, finalDest: string)
    ensures var cmd := EncodeCommand(reportOpt, inputAbsPath, fp, cfg, finalDest);
      && Occurs("ffmpeg -y -v verbose -i " + Quote(inputAbsPath), cmd)
      && Occurs(Quote(inputAbsPath) + " " + MapOpt(fp.video.index), cmd)
  {
    var pieces := CommandPieces(reportOpt, inputAbsPath, fp, cfg, finalDest);
    assert pieces[2] == "ffmpeg -y -v verbose -i" && pieces[3] == Quote(inputAbsPath);
    JoinHasNeighbours(pieces, " ", 2);
    assert pieces[2] + " " + pieces[3] == "ffmpeg -y -v verbose -i " + Quote(inputAbsPath);
    assert pieces[4] == MapOpt(fp.video.index);
    JoinHasNeighbours(pieces, " ", 3);
  }

  /** The command carries the scale filter and the video codec, preset and quality settings. */
  lemma CommandSetsVideo(reportOpt: string, inputAbsPath: string, fp: FilePlan, cfg: Config, finalDest: string)
    ensures var cmd := EncodeCommand(reportOpt, inputAbsPath, fp, cfg, finalDest);
      && Occurs(ScaleOpt(fp.videoPlan, cfg) + " -c:v", cmd)
      && Occurs("-c:v " + cfg.videoTargCodec, cmd)
      && Occurs("-preset " + cfg.videoTargCodecPreset, cmd)
      && Occurs("-crf " + cfg.videoTargCrf, cmd)
  {
    var pieces := CommandPieces(reportOpt, inputAbsPath, fp, cfg, finalDest);
    assert pieces[9] == ScaleOpt(fp.videoPlan, cfg) && pieces[10] == "-c:v" && pieces[11] == cfg.videoTargCodec;
    assert pieces[12] == "-preset" && pieces[13] == cfg.videoTargCodecPreset;
    assert pieces[14] == "-crf" && pieces[15] == cfg.videoTargCrf;
    JoinHasNeighbours(pieces, " ", 9);
    assert pieces[9] + " " + pieces[10] == ScaleOpt(fp.videoPlan, cfg) + " -c:v";
    JoinHasNeighbours(pieces, " ", 10);
    assert pieces[10] + " " + pieces[11] == "-c:v " + cfg.videoTargCodec;
    JoinHasNeighbours(pieces, " ", 12);
    assert pieces[12] + " " + pieces[13] == "-preset " + cfg.videoTargCodecPreset;
    JoinHasNeighbours(pieces, " ", 14);
    assert pieces[14] + " " + pieces[15] == "-crf " + cfg.videoTargCrf;
  }

  /** The audio option is followed by the subtitle option, and the destination is the last argument. */
  lemma CommandSetsAudioAndDestination(reportOpt: string, inputAbsPath: string, fp: FilePlan, cfg: Config, finalDest: string)
    ensures var cmd := EncodeCommand(reportOpt, inputAbsPath, fp, cfg, finalDest);
      && Occurs(AudioOptText(fp.audioPlan.op) + " " + SubOpt(fp.subtitleCopy), cmd)
      && |cmd| >= |Quote(finalDest)| + 1 && cmd[|cmd| - |Quote(finalDest)| - 1..] == " " + Quote(finalDest)
  {
    var pieces := CommandPieces(reportOpt, inputAbsPath, fp, cfg, finalDest);
    assert pieces[16] == AudioOptText(fp.audioPlan.op) && pieces[17] == SubOpt(fp.subtitleCopy);
    JoinHasNeighbours(pieces, " ", 16);
    assert pieces[19] == Quote(finalDest);
    JoinEndsWithLast(pieces, " ");
  }

  // ------------------------------------------------------------- summary

  /**
   * bfAudioBitrateDisplay, as the track-choosing loops set it: the measured
   * kb/s, the DTS-HD MA estimate, the TrueHD ceiling marked " max", or
   * "unknown".
   */
  function BitRateDisplay(a: AudioInfo): (d: string)
    ensures d == Unknown <==> a.rateSource == RateUnknown
    ensures (|d| >= 4 && d[|d| - 4..] == " max") <==> a.rateSource == TrueHdCeiling
  {
    match a.rateSource
    case Measured => IntToString(a.bitRate)
    case DtsHdMaEstimate => "1536"
    case TrueHdCeiling => "18000 max"
    case RateUnknown => Unknown
  }

  /**
   * The display of a probed audio stream: the kb/s the script computed,
   * followed by " max" for the TrueHD ceiling, or "unknown" when it has no
   * rate, neither measured nor estimated.
   */
  lemma BitRateDisplayOfStream(s: RawStream)
    ensures var a := AudioFields(s);
      && (BitRateDisplay(a) == Unknown <==>
            s.bitRate.None? && s.codecName != Some("truehd") &&
            !(s.codecName == Some("dts") && s.profile == Some("DTS-HD MA")))
      && (BitRateDisplay(a) != Unknown ==>
            BitRateDisplay(a) == IntToString(a.bitRate) + (if a.rateSource == TrueHdCeiling then " max" else ""))
  {
    var a := AudioFields(s);
    if a.rateSource == TrueHdCeiling {
      assert NatToString(18000) == "18000" by {
        assert NatToString(1) == "1";
        assert NatToString(18) == "18";
        assert NatToString(180) == "180";
        assert NatToString(1800) == "1800";
      }
    } else if a.rateSource == DtsHdMaEstimate {
      assert NatToString(1536) == "1536" by {
        assert NatToString(1) == "1";
        assert NatToString(15) == "15";
        assert NatToString(153) == "153";
      }
    }
  }

  /** bfAudioChannelsDisplay: the channel count, or "unknown" when the prober gave none. */
  function ChannelsDisplay(a: AudioInfo): (d: string)
    ensures d == Unknown <==> !a.channelsKnown
    ensures a.channelsKnown ==> forall i :: 0 <= i < |d| ==> IsDigit(d[i])
    ensures a.channelsKnown ==> DigitsValue(d) == a.channels
  {
    if a.channelsKnown then NatToStringRoundTrip(a.channels); NatToString(a.channels) else Unknown
  }

  /** outputVidFormat: the codec and encoder tags, or the raw codec name when it has none. */
  function OutputVideoFormat(cfg: Config): (format: string)
    ensures cfg.videoTargCodec == "libx265" ==> format == "HEVC / x265"
    ensures cfg.videoTargCodec == "libx264" ==> format == "AVC / x264"
    ensures cfg.videoTargCodec != "libx265" && cfg.videoTargCodec != "libx264" ==> format == cfg.videoTargCodec
  {
    var (codecTag, encoderTag) := VideoCodecTags(cfg.videoTargCodec);
    if codecTag != "tagCodec" && encoderTag != "tagEncoder" then codecTag + " / " + encoderTag
    else cfg.videoTargCodec
  }

  /** outputVidWidth and outputVidHeight, which the summary derives from doDownscale on its own. */
  function OutputDims(fp: FilePlan, cfg: Config): (dims: (Option<int>, Option<int>))
    ensures fp.videoPlan.downscale ==> dims == (Some(cfg.maxVidWidth), Some(cfg.maxVidHeight))
    ensures !fp.videoPlan.downscale ==> dims == (fp.video.width, fp.video.height)
  {
    if fp.videoPlan.downscale then (Some(cfg.maxVidWidth), Some(cfg.maxVidHeight))
    else (fp.video.width, fp.video.height)
  }

  /** outputVidAr: "16:9" when forced, otherwise the input's display aspect ratio. */
  function OutputAspect(fp: FilePlan): (ar: string)
    ensures ar == "16:9" || ar == fp.video.displayAspectRatio
    ensures ar != fp.video.displayAspectRatio ==> fp.videoPlan.force16
  {
    if fp.videoPlan.force16 then "16:9" else fp.video.displayAspectRatio
  }

  /** The summary's output size and aspect are the ones the video plan targets. */
  lemma SummaryVideoMatchesPlan(fp: FilePlan, cfg: Config)
    requires DimsComparable(fp.video, cfg) && fp.videoPlan == VideoDecision(fp.video, cfg)
    ensures OutputDims(fp, cfg) == (fp.videoPlan.targetWidth, fp.videoPlan.targetHeight)
    ensures OutputAspect(fp) == "16:9" <==>
      fp.video.displayAspectRatio == "16:9" || (fp.videoPlan.downscale && cfg.force16)
  {
  }

  /** outputAudCodec, outputAudBit and outputAudChannels. */
  datatype AudioSummary = AudioSummary(codec: string, bitRate: string, channels: string)

  /**
   * The audio line of the summary, shown only for a chosen track. A copy
   * reports the input; a re-encode reports the surround or stereo settings by
   * the input's channel count; a downmix reports the downmix settings.
   */
  function OutputAudio(sel: Option<AudioInfo>, plan: AudioPlan, cfg: Config): (summary: Option<AudioSummary>)
    requires ModesExclusive(cfg) && plan == AudioDecision(sel, cfg)
    ensures summary.Some? <==> sel.Some?
    ensures summary.Some? && plan.op == CopyAudio ==>
      summary.value == AudioSummary(sel.value.codecName, BitRateDisplay(sel.value), ChannelsDisplay(sel.value))
    ensures summary.Some? && plan.downmixed ==> summary.value.codec == cfg.audioDownmixCodec
    ensures summary.Some? && plan.reencoded ==> summary.value.codec == cfg.audioReencCodec
  {
    if sel.None? then None
    else
      var a := sel.value;
      if AudioOptText(plan.op) == "-c:a copy" then
        Some(AudioSummary(a.codecName, BitRateDisplay(a), ChannelsDisplay(a)))
      else if plan.downmixed then
        Some(AudioSummary(cfg.audioDownmixCodec, IntToString(cfg.audioDownmixBitRate), IntToString(cfg.audioDownmixChannels)))
      else if plan.reencoded then
        if a.channels > 2 then
          Some(AudioSummary(cfg.audioReencCodec, IntToString(cfg.audioReencBitRateSurround), IntToString(cfg.audioReencChannelsSurround)))
        else
          Some(AudioSummary(cfg.audioReencCodec, IntToString(cfg.audioReencBitRateStereo), ChannelsDisplay(a)))
      else
        CopyTextMeansCopy(plan.op);
        assert false;
        None
  }

  /**
   * Apart from a TrueHD track of two channels or fewer, the summary reports
   * what the command does: the input on a copy, and otherwise the codec and
   * bitrate the encoder is given, and its channel count when it is given one.
   */
  lemma SummaryAudioMatchesCommand(sel: Option<AudioInfo>, cfg: Config)
    requires ModesExclusive(cfg) && sel.Some?
    requires !(cfg.audioReenc && sel.value.codecName == "truehd" && sel.value.channels <= 2)
    ensures var plan := AudioDecision(sel, cfg);
      var s := OutputAudio(sel, plan, cfg).value;
      && (plan.op.CopyAudio? ==> s.codec == sel.value.codecName && s.bitRate == BitRateDisplay(sel.value))
      && (plan.op.EncodeAudio? ==>
            && s.codec == plan.op.codec
            && s.bitRate == IntToString(plan.op.kbps)
            && (plan.op.channels.Some? ==> s.channels == IntToString(plan.op.channels.value)))
  {
    CopyTextMeansCopy(AudioDecision(sel, cfg).op);
  }

  /**
   * A TrueHD track of two channels or fewer is encoded with the surround
   * bitrate, but the summary reports the stereo bitrate.
   */
  lemma TrueHdStereoSummaryMisreports(sel: Option<AudioInfo>, cfg: Config)
    requires ModesExclusive(cfg) && cfg.audioReenc
    requires sel.Some? && sel.value.codecName == "truehd" && sel.value.channels <= 2
    ensures var plan := AudioDecision(sel, cfg);
      && plan.op == EncodeAudio(cfg.audioReencCodec, cfg.audioReencBitRateSurround, Some(cfg.audioReencChannelsSurround))
      && OutputAudio(sel, plan, cfg).value.bitRate == IntToString(cfg.audioReencBitRateStereo)
  {
    CopyTextMeansCopy(AudioDecision(sel, cfg).op);
  }
}
