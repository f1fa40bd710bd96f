// The video downscale and aspect-ratio decision (vidChew3.py:782-804).

module VideoPlanner {
  import opened Streams
  import opened Settings
  import opened Text

  /** doDownscale, doForce16 and the target dimensions targVidWidth and targVidHeight. */
  datatype VideoPlan = VideoPlan(downscale: bool, force16: bool, targetWidth: Option<int>, targetHeight: Option<int>)

  /**
   * The script compares dimensions only when downscaling is on, and its `or`
   * reads the height only when the width is not already too wide; a missing
   * dimension it reads is the text "unknown", which cannot be compared with a
   * number.
   */
  predicate DimsComparable(v: VideoTrack, cfg: Config) {
    !cfg.videoDownscale || (v.width.Some? && (v.width.value <= cfg.maxVidWidth ==> v.height.Some?))
  }

  /** The input exceeds the maximum box in at least one dimension. */
  predicate Oversized(v: VideoTrack, cfg: Config)
    requires v.width.Some? && (v.width.value <= cfg.maxVidWidth ==> v.height.Some?)
  {
    v.width.value > cfg.maxVidWidth || v.height.value > cfg.maxVidHeight
  }

  /**
   * Downscale exactly when enabled and the input is oversized, to exactly the
   * maximum box; force 16:9 only on a downscale, when asked to and when the
   * input is not already 16:9; otherwise keep the input dimensions.
   */
  function VideoDecision(v: VideoTrack, cfg: Config): (p: VideoPlan)
    requires DimsComparable(v, cfg)
    ensures p.downscale <==> cfg.videoDownscale && Oversized(v, cfg)
    ensures p.force16 <==> p.downscale && cfg.force16 && v.displayAspectRatio != "16:9"
    ensures p.downscale ==> p.targetWidth == Some(cfg.maxVidWidth) && p.targetHeight == Some(cfg.maxVidHeight)
    ensures !p.downscale ==> p.targetWidth == v.width && p.targetHeight == v.height
  {
    if cfg.videoDownscale then
      if Oversized(v, cfg) then
        VideoPlan(true, cfg.force16 && v.displayAspectRatio != "16:9", Some(cfg.maxVidWidth), Some(cfg.maxVidHeight))
      else
        VideoPlan(false, false, v.width, v.height)
    else
      VideoPlan(false, false, v.width, v.height)
  }

  /** The script's block: both flags start false and the nested tests raise them. */
  method PlanVideo(v: VideoTrack, cfg: Config) returns (p: VideoPlan)
    requires DimsComparable(v, cfg)
    ensures p == VideoDecision(v, cfg)
  {
    var doDownscale := false;
    var doForce16 := false;
    var targetWidth: Option<int>;
    var targetHeight: Option<int>;
    if cfg.videoDownscale {
      if v.width.value > cfg.maxVidWidth || v.height.value > cfg.maxVidHeight {
        doDownscale := true;
        targetWidth := Some(cfg.maxVidWidth);
        targetHeight := Some(cfg.maxVidHeight);
        if cfg.force16 {
          if v.displayAspectRatio != "16:9" {
            doForce16 := true;
          }
        }
      } else {
        targetWidth := v.width;
        targetHeight := v.height;
      }
    } else {
      targetWidth := v.width;
      targetHeight := v.height;
    }
    p := VideoPlan(doDownscale, doForce16, targetWidth, targetHeight);
  }

  /** scaleOpt: the scale filter to the maximum box, with the aspect override appended. */
  function ScaleOpt(p: VideoPlan, cfg: Config): (opt: string)
    ensures opt == "" <==> !p.downscale
  {
    if p.downscale then
      "-vf scale=" + IntToString(cfg.maxVidWidth) + ":" + IntToString(cfg.maxVidHeight) +
      (if p.force16 then ",setdar=dar=16/9" else "")
    else ""
  }

  /** A video inside the box in both dimensions passes through, whatever force16 says. */
  lemma WithinBoundsPassesThrough(v: VideoTrack, cfg: Config)
    requires v.width.Some? && v.height.Some?
    requires v.width.value <= cfg.maxVidWidth && v.height.value <= cfg.maxVidHeight
    ensures DimsComparable(v, cfg)
    ensures VideoDecision(v, cfg) == VideoPlan(false, false, v.width, v.height)
  {
  }

  /**
   * With downscaling on, the planned output fits the maximum box: a video
   * inside it keeps its size, any other is scaled to the box itself.
   */
  lemma OutputFitsBox(v: VideoTrack, cfg: Config)
    requires cfg.videoDownscale && DimsComparable(v, cfg)
    ensures var p := VideoDecision(v, cfg);
      && p.targetWidth.Some? && p.targetWidth.value <= cfg.maxVidWidth
      && p.targetHeight.Some? && p.targetHeight.value <= cfg.maxVidHeight
  {
  }

  /** Planning the planned output again changes nothing: a second pass never rescales. */
  lemma ReplanIsIdentity(v: VideoTrack, cfg: Config, dar: string)
    requires DimsComparable(v, cfg) && cfg.maxVidWidth >= 0 && cfg.maxVidHeight >= 0
    requires v.width.Some? && v.height.Some?
    ensures var p := VideoDecision(v, cfg);
      var out := VideoTrack(v.index, v.codecName, Some(p.targetWidth.value as nat), Some(p.targetHeight.value as nat), dar);
      DimsComparable(out, cfg) && !VideoDecision(out, cfg).downscale &&
      VideoDecision(out, cfg).targetWidth == p.targetWidth && VideoDecision(out, cfg).targetHeight == p.targetHeight
  {
  }

  /**
   * The scale goes to the box itself rather than preserving the aspect ratio,
   * so a wide, short input is stretched: 2000x800 becomes 1920x1080.
   */
  lemma WideInputIsStretched()
    ensures var cfg := DefaultConfig;
      var v := VideoTrack(Some(0), "h264", Some(2000), Some(800), "5:2");
      var p := VideoDecision(v, cfg);
      p.downscale && p.targetWidth == Some(1920) && p.targetHeight == Some(1080) && p.targetHeight.value > v.height.value
  {
  }

  /** The scale text carries the aspect override, its only comma, exactly when the plan forces 16:9. */
  lemma ScaleOptMentionsAspect(p: VideoPlan, cfg: Config)
    requires p.downscale
    ensures var opt := ScaleOpt(p, cfg);
      opt[..10] == "-vf scale=" && (p.force16 <==> ',' in opt)
  {
    var w := IntToString(cfg.maxVidWidth);
    var h := IntToString(cfg.maxVidHeight);
    var dims := "-vf scale=" + w + ":" + h;
    var opt := ScaleOpt(p, cfg);
    if p.force16 {
      assert opt[|dims|] == ',';
    } else {
      assert opt == dims;
      forall i | 0 <= i < |dims|
        ensures dims[i] != ','
      {
        if 10 <= i < 10 + |w| {
          assert dims[i] == w[i - 10];
        } else if 11 + |w| <= i {
          assert dims[i] == h[i - 11 - |w|];
        }
      }
    }
  }
}
