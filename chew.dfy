// One pass of the folder walk (vidChew3.py:302-306, 310-346, 1065): the
// start-up mode check, then for every file the skip test, the probe, track
// selection, the video and audio plans, the destination and the command.

module Chew {
  import opened Streams
  import opened Settings
  import opened Text
  import opened SkipFilter
  import opened TrackSelector
  import opened VideoPlanner
  import opened AudioPlanner
  import opened Naming
  import opened EncoderCommand

  /**
   * One file of the walk. The folder walk, the absolute path and the prober
   * run outside the model: probe is None when the prober failed. inputFile
   * is the file's name without its folder, and absPath is taken as given:
   * the walk computes it as os.path.abspath(os.path.join(root, filename)).
   * reportOpt is the FFREPORT prefix, empty unless encoder logs are wanted.
   */
  datatype FileInput = FileInput(
    root: string,
    inputFile: string,
    absPath: string,
    reportOpt: string,
    probe: Option<seq<RawStream>>)

  datatype Outcome =
    | SkippedFile
    | ProbeFailed
    | Planned(plan: FilePlan, finalDest: string, command: string)

  datatype RunResult = ModesConflict | Ran(outcomes: seq<Outcome>)

  /**
   * What the script needs of a probe to get through planning: a video track,
   * dimensions it can compare, and an audio track unless it downmixes.
   */
  predicate Plannable(ss: seq<RawStream>, cfg: Config) {
    && FirstVideo(ss).Some?
    && DimsComparable(FirstVideo(ss).value, cfg)
    && (AudioChoice(AudioInfos(ss), cfg.prefAudioFormats, cfg.targLang).Some? || cfg.audioDownmix)
  }

  /** The decisions for a probed file, each from its specification. */
  function StreamPlan(ss: seq<RawStream>, baseName: string, cfg: Config): (fp: FilePlan)
    requires ModesExclusive(cfg) && Plannable(ss, cfg)
    ensures fp.audioPlan.tags.Some?
  {
    var video := FirstVideo(ss).value;
    var audio := AudioChoice(AudioInfos(ss), cfg.prefAudioFormats, cfg.targLang);
    var sub := FirstSubtitle(ss, cfg.targLang);
    var vp := VideoDecision(video, cfg);
    var ap := AudioDecision(audio, cfg);
    var name := NewName(baseName, ResolutionTag(vp, video.height), cfg, ap.tags.value.channels, ap.tags.value.codec);
    FilePlan(video, audio, sub, sub.Some? && IsBitmapSubtitle(sub.value.codecName), vp, ap, name)
  }

  /** A file the run can get through: skipped, not probed, or plannable. */
  ghost predicate Processable(input: FileInput, cfg: Config) {
    !Skipped(input.inputFile, cfg.filenameSkipArray) && input.probe.Some? ==> Plannable(input.probe.value, cfg)
  }

  ghost function FileOutcome(input: FileInput, cfg: Config): Outcome
    requires ModesExclusive(cfg) && Processable(input, cfg)
  {
    if Skipped(input.inputFile, cfg.filenameSkipArray) then SkippedFile
    else if input.probe.None? then ProbeFailed
    else
      var fp := StreamPlan(input.probe.value, BaseName(input.inputFile), cfg);
      var dest := FinalDest(cfg, input.root, fp.newName);
      Planned(fp, dest, EncodeCommand(input.reportOpt, input.absPath, fp, cfg, dest))
  }

  /** The body of the walk for one file. */
  method PlanFile(input: FileInput, cfg: Config) returns (outcome: Outcome)
    requires ModesExclusive(cfg) && Processable(input, cfg)
    ensures outcome == FileOutcome(input, cfg)
  {
    var inputBaseFile := BaseName(input.inputFile);
    var doSkip := ShouldSkip(input.inputFile, cfg.filenameSkipArray);
    if doSkip {
      return SkippedFile;
    }
    if input.probe.None? {
      return ProbeFailed;
    }
    var ss := input.probe.value;
    var video := SelectVideo(ss);
    var audio := SelectAudio(ss, cfg.prefAudioFormats, cfg.targLang);
    var sub, subCopy := SelectSubtitle(ss, cfg.targLang);
    var vp := PlanVideo(video.value, cfg);
    var ap := PlanAudio(audio, cfg);
    var tags := ap.tags.value;
    var name := NewName(inputBaseFile, ResolutionTag(vp, video.value.height), cfg, tags.channels, tags.codec);
    var dest := FinalDest(cfg, input.root, name);
    var fp := FilePlan(video.value, audio, sub, subCopy, vp, ap, name);
    outcome := Planned(fp, dest, EncodeCommand(input.reportOpt, input.absPath, fp, cfg, dest));
  }

  /** The walk: refuse to start when both audio modes are on, else plan every file in order. */
  method Run(files: seq<FileInput>, cfg: Config) returns (result: RunResult)
    requires ModesExclusive(cfg) ==> forall i :: 0 <= i < |files| ==> Processable(files[i], cfg)
    ensures result.ModesConflict? <==> !ModesExclusive(cfg)
    ensures result.Ran? ==>
      && |result.outcomes| == |files|
      && forall i :: 0 <= i < |files| ==> result.outcomes[i] == FileOutcome(files[i], cfg)
  {
    if cfg.audioReenc && cfg.audioDownmix {
      return ModesConflict;
    }
    var outcomes: seq<Outcome> := [];
    for i := 0 to |files|
      invariant |outcomes| == i
      invariant forall j :: 0 <= j < i ==> outcomes[j] == FileOutcome(files[j], cfg)
    {
      var outcome := PlanFile(files[i], cfg);
      OutcomesGrow(outcomes, outcome, files, cfg);
      outcomes := outcomes + [outcome];
    }
    return Ran(outcomes);
  }

  /** One more outcome, the next file's, keeps every earlier outcome in place. */
  lemma OutcomesGrow(outcomes: seq<Outcome>, outcome: Outcome, files: seq<FileInput>, cfg: Config)
    requires ModesExclusive(cfg) && |outcomes| < |files|
    requires forall j :: 0 <= j < |files| ==> Processable(files[j], cfg)
    requires forall j :: 0 <= j < |outcomes| ==> outcomes[j] == FileOutcome(files[j], cfg)
    requires outcome == FileOutcome(files[|outcomes|], cfg)
    ensures forall j :: 0 <= j <= |outcomes| ==> (outcomes + [outcome])[j] == FileOutcome(files[j], cfg)
  {
  }

  /**
   * With a clean file tag in the skip list (as by default), walking the
   * folder again skips every file the first walk planned to write.
   */
  lemma RerunSkipsOutputs(input: FileInput, cfg: Config, output: FileInput)
    requires ModesExclusive(cfg) && Processable(input, cfg)
    requires Clean(cfg.fileTag) && cfg.fileTag in cfg.filenameSkipArray
    requires FileOutcome(input, cfg).Planned? && output.inputFile == FileOutcome(input, cfg).plan.newName
    ensures Processable(output, cfg) && FileOutcome(output, cfg) == SkippedFile
  {
    var ss := input.probe.value;
    var video := FirstVideo(ss).value;
    var vp := VideoDecision(video, cfg);
    var ap := AudioDecision(AudioChoice(AudioInfos(ss), cfg.prefAudioFormats, cfg.targLang), cfg);
    OutputSkippedOnRerun(BaseName(input.inputFile), ResolutionTag(vp, video.height), cfg, ap.tags.value.channels, ap.tags.value.codec);
  }

  /** A feature film: 1920x800 H.264, English DTS-HD MA 5.1 without a bitrate, English SubRip subtitles. */
  const FeatureFilm: seq<RawStream> := [
    RawStream(Video, Some(0), Some("h264"), None, None, None, None, Some(1920), Some(800), Some("12:5")),
    RawStream(Audio, Some(1), Some("dts"), Some("eng"), Some(6), None, Some("DTS-HD MA"), None, None, None),
    RawStream(Subtitle, Some(2), Some("subrip"), Some("eng"), None, None, None, None, None, None)]

  lemma FeatureFilmTracks()
    ensures FirstVideo(FeatureFilm) == Some(VideoTrack(Some(0), "h264", Some(1920), Some(800), "12:5"))
    ensures AudioInfos(FeatureFilm) == [AudioInfo(Some(1), "eng", "dts-hd ma", 6, true, 1536, DtsHdMaEstimate)]
    ensures FirstSubtitle(FeatureFilm, "eng") == Some(SubtitleTrack(Some(2), "eng", "subrip"))
  {
    var ss := FeatureFilm;
    assert ss[..2][..1] == ss[..1] && ss[..2] == ss[..3][..2] && ss[..3] == ss;
    assert AudioInfos(ss[..1]) == [];
    assert AudioInfos(ss[..2]) == [AudioFields(ss[1])];
    assert FirstSubtitle(ss[1..], "eng") == FirstSubtitle(ss[1..][1..], "eng");
  }

  const FeatureFilmName: string := "movie.1080p.HEVC.x265.6ch.AC3-myTag.mkv"

  lemma FeatureFilmRawName()
    ensures RawName("movie", "1080p", DefaultConfig, 6, "ac3") == "movie.1080p.HEVC.x265.6ch.AC3-myTag.mkv"
  {
    RawNameOfParts("movie", "1080p", DefaultConfig, 6, "ac3");
    DefaultCodecTags();
    assert IntToString(6) == "6";
    FeatureFilmNameSpelled();
  }

  lemma FeatureFilmNameSpelled()
    ensures "movie" + "." + "1080p" + "." + "HEVC" + "." + "x265" + "." + "6" + "ch" + "." + "AC3" + "-myTag" + ".mkv" ==
      "movie.1080p.HEVC.x265.6ch.AC3-myTag.mkv"
  {
  }

  lemma FeatureFilmNameIsClean()
    ensures Clean(FeatureFilmName)
  {
  }

  lemma FeatureFilmNewName()
    ensures NewName("movie", "1080p", DefaultConfig, 6, "ac3") == FeatureFilmName
  {
    FeatureFilmRawName();
    FeatureFilmNameIsClean();
    SanitizeKeepsClean(FeatureFilmName);
  }

  /**
   * With the default settings the film keeps its size, its DTS-HD MA track
   * (estimated at 1536 kb/s) is re-encoded to 640 kb/s six-channel AC-3, its
   * subtitles are converted, and it is named after the 1920 width.
   */
  lemma FeatureFilmPlan()
    ensures ModesExclusive(DefaultConfig) && Plannable(FeatureFilm, DefaultConfig)
    ensures var fp := StreamPlan(FeatureFilm, "movie", DefaultConfig);
      && !fp.videoPlan.downscale
      && fp.audio.Some? && fp.audio.value.codecName == "dts-hd ma" && fp.audio.value.bitRate == 1536
      && fp.audioPlan.op == EncodeAudio("ac3", 640, Some(6))
      && fp.subtitle.Some? && !fp.subtitleCopy
      && fp.newName == FeatureFilmName
  {
    var cfg := DefaultConfig;
    FeatureFilmTracks();
    var video := VideoTrack(Some(0), "h264", Some(1920), Some(800), "12:5");
    var dts := AudioInfo(Some(1), "eng", "dts-hd ma", 6, true, 1536, DtsHdMaEstimate);
    assert AudioChoice(AudioInfos(FeatureFilm), cfg.prefAudioFormats, cfg.targLang) == Some(dts);
    var vp := VideoDecision(video, cfg);
    assert !vp.downscale && ResolutionTag(vp, video.height) == "1080p";
    var ap := AudioDecision(Some(dts), cfg);
    assert ap == SurroundEncode(cfg);
    assert ap.tags.value == AudioTags("ac3", 6);
    FeatureFilmNewName();
  }
}
