// The audio operation: drop, copy, re-encode or downmix, with the codec and
// channel tags later used in the file name (vidChew3.py:806-902).

module AudioPlanner {
  import opened Streams
  import opened Settings
  import opened Text
  import opened TrackSelector

  /** What the encoder does with the audio: "-an", "-c:a copy" or a codec with its settings. */
  datatype AudioOp =
    | DropAudio
    | CopyAudio
    | EncodeAudio(codec: string, kbps: int, channels: Option<int>)

  /** tagAudio and tagChannels, as the naming step reads them. */
  datatype AudioTags = AudioTags(codec: string, channels: int)

  /**
   * The audio decision. tags is None where the script leaves tagAudio and
   * tagChannels unassigned; reencoded and downmixed are doReencAudio and doDownmix.
   */
  datatype AudioPlan = AudioPlan(op: AudioOp, tags: Option<AudioTags>, reencoded: bool, downmixed: bool)

  /** The option text the op stands for in the encoder command. */
  function AudioOptText(op: AudioOp): (t: string)
    ensures t == "-an" <==> op.DropAudio?
    ensures op.EncodeAudio? ==> |t| > 5 + |op.codec| && t[..5 + |op.codec|] == "-c:a " + op.codec
  {
    match op
    case DropAudio => "-an"
    case CopyAudio => "-c:a copy"
    case EncodeAudio(codec, kbps, channels) =>
      "-c:a " + codec + " -b:a " + IntToString(kbps) + "k" +
      (if channels.Some? then " -ac " + IntToString(channels.value) else "")
  }

  /** The summary's `audioOpt == "-c:a copy"` test is exactly "the op is a copy". */
  lemma CopyTextMeansCopy(op: AudioOp)
    ensures AudioOptText(op) == "-c:a copy" <==> op.CopyAudio?
  {
    if op.EncodeAudio? {
      var t := AudioOptText(op);
      var k := IntToString(op.kbps);
      assert t[..5] + t[5..] == t;
      assert |t| >= |"-c:a " + op.codec + " -b:a " + k + "k"|;
      assert |t| > 9;
    }
  }

  /** bfAudioCodecName, "" before any track was found; bfAudioChannels is TrackSelector.BestChannels. */
  function SelectedCodec(sel: Option<AudioInfo>): string {
    if sel.Some? then sel.value.codecName else ""
  }

  function CopyOf(a: AudioInfo): AudioPlan {
    AudioPlan(CopyAudio, Some(AudioTags(a.codecName, a.channels)), false, false)
  }

  function SurroundEncode(cfg: Config): AudioPlan {
    AudioPlan(EncodeAudio(cfg.audioReencCodec, cfg.audioReencBitRateSurround, Some(cfg.audioReencChannelsSurround)),
              Some(AudioTags(cfg.audioReencCodec, cfg.audioReencChannelsSurround)), true, false)
  }

  function StereoEncode(a: AudioInfo, cfg: Config): AudioPlan {
    AudioPlan(EncodeAudio(cfg.audioReencCodec, cfg.audioReencBitRateStereo, None),
              Some(AudioTags(cfg.audioReencCodec, a.channels)), true, false)
  }

  /** The re-encode decision table, TrueHD first because it overrides every other row. */
  function ReencodeTable(a: AudioInfo, cfg: Config): AudioPlan {
    if a.codecName == "truehd" then SurroundEncode(cfg)
    else if a.bitRate == 0 then CopyOf(a)
    else if a.channels > 2 then
      if cfg.audioReencForce || a.bitRate > cfg.audioReencBitRateSurround then SurroundEncode(cfg) else CopyOf(a)
    else
      if cfg.audioReencForce || a.bitRate > cfg.audioReencBitRateStereo then StereoEncode(a, cfg) else CopyOf(a)
  }

  /** The downmix decision table; it reads the selected channels even when nothing was selected. */
  function DownmixTable(sel: Option<AudioInfo>, cfg: Config): AudioPlan {
    if BestChannels(sel) <= cfg.audioDownmixChannels then
      AudioPlan(CopyAudio, Some(AudioTags(SelectedCodec(sel), BestChannels(sel))), false, false)
    else
      AudioPlan(EncodeAudio(cfg.audioDownmixCodec, cfg.audioDownmixBitRate, Some(cfg.audioDownmixChannels)),
                Some(AudioTags(cfg.audioDownmixCodec, cfg.audioDownmixChannels)), false, true)
  }

  /** The audio decision as one table per mode. */
  function AudioDecision(sel: Option<AudioInfo>, cfg: Config): (p: AudioPlan)
    requires ModesExclusive(cfg)
    ensures p.op == DropAudio <==> sel.None? && !cfg.audioDownmix
    ensures p.reencoded ==> cfg.audioReenc && sel.Some? && p.op.EncodeAudio? && p.op.codec == cfg.audioReencCodec
    ensures p.downmixed ==> cfg.audioDownmix && BestChannels(sel) > cfg.audioDownmixChannels
    ensures !p.reencoded && !p.downmixed && p.op != DropAudio ==>
      p.op == CopyAudio && p.tags == Some(AudioTags(SelectedCodec(sel), BestChannels(sel)))
  {
    if cfg.audioDownmix then DownmixTable(sel, cfg)
    else if sel.None? then AudioPlan(DropAudio, None, false, false)
    else if cfg.audioReenc then ReencodeTable(sel.value, cfg)
    else CopyOf(sel.value)
  }

  /**
   * The script's blocks in order, each overwriting audioOpt, tagAudio and
   * tagChannels: no audio, plain copy, re-encode, the TrueHD override, downmix.
   */
  method PlanAudio(sel: Option<AudioInfo>, cfg: Config) returns (plan: AudioPlan)
    requires ModesExclusive(cfg)
    ensures plan == AudioDecision(sel, cfg)
  {
    var audioFound := sel.Some?;
    var bfAudioCodecName := SelectedCodec(sel);
    var bfAudioChannels := BestChannels(sel);
    var bfAudioBitrate := if sel.Some? then sel.value.bitRate else 0;
    var audioOpt: AudioOp;
    var tags: Option<AudioTags> := None;

    if !audioFound {
      audioOpt := DropAudio;
    }

    if audioFound && !cfg.audioReenc && !cfg.audioDownmix {
      audioOpt := CopyAudio;
      tags := Some(AudioTags(bfAudioCodecName, bfAudioChannels));
    }

    var doReencAudio := false;
    if audioFound && cfg.audioReenc {
      if bfAudioBitrate != 0 {
        if bfAudioChannels > 2 {
          if !cfg.audioReencForce {
            if bfAudioBitrate <= cfg.audioReencBitRateSurround {
              doReencAudio := false;
              audioOpt := CopyAudio;
              tags := Some(AudioTags(bfAudioCodecName, bfAudioChannels));
            } else {
              doReencAudio := true;
              audioOpt := EncodeAudio(cfg.audioReencCodec, cfg.audioReencBitRateSurround, Some(cfg.audioReencChannelsSurround));
              tags := Some(AudioTags(cfg.audioReencCodec, cfg.audioReencChannelsSurround));
            }
          } else {
            doReencAudio := true;
            audioOpt := EncodeAudio(cfg.audioReencCodec, cfg.audioReencBitRateSurround, Some(cfg.audioReencChannelsSurround));
            tags := Some(AudioTags(cfg.audioReencCodec, cfg.audioReencChannelsSurround));
          }
        } else {
          if !cfg.audioReencForce {
            if bfAudioBitrate <= cfg.audioReencBitRateStereo {
              doReencAudio := false;
              audioOpt := CopyAudio;
              tags := Some(AudioTags(bfAudioCodecName, bfAudioChannels));
            } else {
              doReencAudio := true;
              audioOpt := EncodeAudio(cfg.audioReencCodec, cfg.audioReencBitRateStereo, None);
              tags := Some(AudioTags(cfg.audioReencCodec, bfAudioChannels));
            }
          } else {
            doReencAudio := true;
            audioOpt := EncodeAudio(cfg.audioReencCodec, cfg.audioReencBitRateStereo, None);
            tags := Some(AudioTags(cfg.audioReencCodec, bfAudioChannels));
          }
        }
      } else {
        doReencAudio := false;
        audioOpt := CopyAudio;
        tags := Some(AudioTags(bfAudioCodecName, bfAudioChannels));
      }
    }

    if audioFound && cfg.audioReenc && bfAudioCodecName == "truehd" {
      doReencAudio := true;
      audioOpt := EncodeAudio(cfg.audioReencCodec, cfg.audioReencBitRateSurround, Some(cfg.audioReencChannelsSurround));
      tags := Some(AudioTags(cfg.audioReencCodec, cfg.audioReencChannelsSurround));
    }

    var doDownmix := false;
    if cfg.audioDownmix {
      if bfAudioChannels <= cfg.audioDownmixChannels {
        doDownmix := false;
        audioOpt := CopyAudio;
        tags := Some(AudioTags(bfAudioCodecName, bfAudioChannels));
      } else {
        doDownmix := true;
        audioOpt := EncodeAudio(cfg.audioDownmixCodec, cfg.audioDownmixBitRate, Some(cfg.audioDownmixChannels));
        tags := Some(AudioTags(cfg.audioDownmixCodec, cfg.audioDownmixChannels));
      }
    }

    plan := AudioPlan(audioOpt, tags, doReencAudio, doDownmix);
  }

  // ------------------------------------------------------------ properties

  /** Without a track and without downmixing the audio is dropped and no tags exist. */
  lemma NoTrackDropsAudio(cfg: Config)
    requires ModesExclusive(cfg) && !cfg.audioDownmix
    ensures AudioDecision(None, cfg) == AudioPlan(DropAudio, None, false, false)
  {
  }

  /** Downmixing without a track still copies ("0" channels), replacing the "-an". */
  lemma NoTrackDownmixCopies(cfg: Config)
    requires ModesExclusive(cfg) && cfg.audioDownmix && cfg.audioDownmixChannels >= 0
    ensures AudioDecision(None, cfg) == AudioPlan(CopyAudio, Some(AudioTags("", 0)), false, false)
  {
  }

  /** With neither mode on, a found track is copied. */
  lemma NeitherModeCopies(a: AudioInfo, cfg: Config)
    requires !cfg.audioReenc && !cfg.audioDownmix
    ensures AudioDecision(Some(a), cfg).op == CopyAudio
  {
  }

  /** In re-encode mode a track is copied exactly when it is not TrueHD and its rate is unknown or within the target. */
  lemma ReencodeCopiesIff(a: AudioInfo, cfg: Config)
    requires cfg.audioReenc && !cfg.audioDownmix
    ensures AudioDecision(Some(a), cfg).op == CopyAudio <==>
      a.codecName != "truehd" &&
      (a.bitRate == 0 ||
       (!cfg.audioReencForce &&
        a.bitRate <= (if a.channels > 2 then cfg.audioReencBitRateSurround else cfg.audioReencBitRateStereo)))
  {
  }

  /** A re-encode above two channels uses the surround settings; at most two keeps the input channel count. */
  lemma ReencodeSettings(a: AudioInfo, cfg: Config)
    requires cfg.audioReenc && !cfg.audioDownmix
    requires AudioDecision(Some(a), cfg).op != CopyAudio
    ensures var p := AudioDecision(Some(a), cfg);
      p.reencoded && !p.downmixed &&
      if a.channels > 2 || a.codecName == "truehd" then
        p.op == EncodeAudio(cfg.audioReencCodec, cfg.audioReencBitRateSurround, Some(cfg.audioReencChannelsSurround)) &&
        p.tags == Some(AudioTags(cfg.audioReencCodec, cfg.audioReencChannelsSurround))
      else
        p.op == EncodeAudio(cfg.audioReencCodec, cfg.audioReencBitRateStereo, None) &&
        p.tags == Some(AudioTags(cfg.audioReencCodec, a.channels))
  {
  }

  /** TrueHD is always re-encoded with the surround settings, whatever the force flag and rate. */
  lemma TrueHdAlwaysReencoded(a: AudioInfo, cfg: Config)
    requires cfg.audioReenc && !cfg.audioDownmix && a.codecName == "truehd"
    ensures AudioDecision(Some(a), cfg).op ==
      EncodeAudio(cfg.audioReencCodec, cfg.audioReencBitRateSurround, Some(cfg.audioReencChannelsSurround))
  {
  }

  /** A surround track exactly at the surround rate is copied; one kb/s more is re-encoded. */
  lemma SurroundThresholdBoundary(a: AudioInfo, cfg: Config)
    requires cfg.audioReenc && !cfg.audioDownmix && !cfg.audioReencForce
    requires a.codecName != "truehd" && a.channels > 2 && cfg.audioReencBitRateSurround > 0
    ensures a.bitRate == cfg.audioReencBitRateSurround ==> AudioDecision(Some(a), cfg).op == CopyAudio
    ensures a.bitRate == cfg.audioReencBitRateSurround + 1 ==> AudioDecision(Some(a), cfg).op.EncodeAudio?
  {
  }

  /** In downmix mode the audio is copied exactly when it has no more channels than the target. */
  lemma DownmixCopiesIff(sel: Option<AudioInfo>, cfg: Config)
    requires cfg.audioDownmix && !cfg.audioReenc
    ensures AudioDecision(sel, cfg).op == CopyAudio <==> BestChannels(sel) <= cfg.audioDownmixChannels
    ensures AudioDecision(sel, cfg).op != CopyAudio ==>
      AudioDecision(sel, cfg).op == EncodeAudio(cfg.audioDownmixCodec, cfg.audioDownmixBitRate, Some(cfg.audioDownmixChannels))
  {
  }

  /**
   * The tags always describe the audio that is written: a copy carries the
   * selected track's codec and channels, an encode its own codec and channel count.
   */
  lemma TagsDescribeOutput(sel: Option<AudioInfo>, cfg: Config)
    requires ModesExclusive(cfg)
    ensures var p := AudioDecision(sel, cfg);
      && (p.tags.None? <==> p.op == DropAudio)
      && (p.op == CopyAudio ==> p.tags == Some(AudioTags(SelectedCodec(sel), BestChannels(sel))))
      && (p.op.EncodeAudio? ==>
            && p.tags.value.codec == p.op.codec
            && p.tags.value.channels == (if p.op.channels.Some? then p.op.channels.value else BestChannels(sel)))
      && (p.op.EncodeAudio? <==> p.reencoded || p.downmixed)
  {
  }
}
