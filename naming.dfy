// The destination file name and path (vidChew3.py:904-943): resolution,
// codec and audio tags, the character filter and the directory join.

module Naming {
  import opened Streams
  import opened Settings
  import opened Text
  import opened SkipFilter
  import opened VideoPlanner

  /** str() of the input height, which is the text "unknown" when the prober gave none. */
  function HeightText(h: Option<nat>): string {
    if h.Some? then NatToString(h.value) else Unknown
  }

  /**
   * tagRes. It tests the target width against 1920, then the target height
   * against 1280, and otherwise names the INPUT height, scaled or not.
   */
  function ResolutionTag(vp: VideoPlan, inputHeight: Option<nat>): (tag: string)
    ensures |tag| >= 2 && tag[|tag| - 1] == 'p'
    ensures vp.targetWidth == Some(1920) ==> tag == "1080p"
    ensures vp.targetWidth != Some(1920) && vp.targetHeight == Some(1280) ==> tag == "720p"
    ensures vp.targetWidth != Some(1920) && vp.targetHeight != Some(1280) ==> tag == HeightText(inputHeight) + "p"
  {
    if vp.targetWidth == Some(1920) then "1080p"
    else if vp.targetHeight == Some(1280) then "720p"
    else HeightText(inputHeight) + "p"
  }

  /** An unscaled video whose size hits neither test is named by its own height. */
  lemma UnscaledTagNamesHeight(v: VideoTrack, cfg: Config)
    requires DimsComparable(v, cfg) && !VideoDecision(v, cfg).downscale
    requires v.width != Some(1920) && v.height != Some(1280)
    ensures ResolutionTag(VideoDecision(v, cfg), v.height) == HeightText(v.height) + "p"
  {
  }

  /** Scaling to the default 1920x1080 box names the file "1080p". */
  lemma DefaultBoxIsTagged1080p(v: VideoTrack)
    requires DimsComparable(v, DefaultConfig) && VideoDecision(v, DefaultConfig).downscale
    ensures ResolutionTag(VideoDecision(v, DefaultConfig), v.height) == "1080p"
  {
  }

  /**
   * With a 1280x720 box, a 3840x2160 input is scaled to 1280x720 but its name
   * still says "2160p": the fallback reads the input height.
   */
  lemma ScaledTagNamesInputHeight()
    ensures var cfg := DefaultConfig.(maxVidWidth := 1280, maxVidHeight := 720);
      var v := VideoTrack(Some(0), "hevc", Some(3840), Some(2160), "16:9");
      var vp := VideoDecision(v, cfg);
      vp.targetHeight == Some(720) && ResolutionTag(vp, v.height) == "2160p"
  {
    assert NatToString(2160) == "2160" by {
      assert NatToString(2) == "2";
      assert NatToString(21) == "21";
      assert NatToString(216) == "216";
    }
  }

  /**
   * The "720p" test reads the target HEIGHT against 1280: an unscaled
   * 720x1280 portrait video is tagged "720p", while a landscape video scaled
   * to a 1280x720 box falls through to the input height.
   */
  lemma TallInputIsTagged720p()
    ensures var cfg := DefaultConfig.(videoDownscale := false);
      var v := VideoTrack(Some(0), "h264", Some(720), Some(1280), "9:16");
      ResolutionTag(VideoDecision(v, cfg), v.height) == "720p"
    ensures var cfg := DefaultConfig.(maxVidWidth := 1280, maxVidHeight := 720);
      var v := VideoTrack(Some(0), "h264", Some(1920), Some(1080), "16:9");
      var vp := VideoDecision(v, cfg);
      vp.targetWidth == Some(1280) && vp.targetHeight == Some(720) && ResolutionTag(vp, v.height) == "1080p"
  {
    assert NatToString(1080) == "1080" by {
      assert NatToString(1) == "1";
      assert NatToString(10) == "10";
      assert NatToString(108) == "108";
    }
  }

  /** tagCodec and tagEncoder for the target video codec. */
  function VideoCodecTags(codec: string): (tags: (string, string))
    ensures codec == "libx265" ==> tags == ("HEVC", "x265")
    ensures codec == "libx264" ==> tags == ("AVC", "x264")
    ensures codec != "libx265" && codec != "libx264" ==> tags == ("tagCodec", "tagEncoder")
  {
    if codec == "libx265" then ("HEVC", "x265")
    else if codec == "libx264" then ("AVC", "x264")
    else ("tagCodec", "tagEncoder")
  }

  /** The encoder-library names the audio tag replaces by a format name. */
  function AudioSynonym(tag: string): (r: string)
    ensures tag == "libopus" ==> r == "OPUS"
    ensures tag == "libvorbis" || tag == "vorbis" ==> r == "OGG"
    ensures tag == "libfdk_aac" ==> r == "AAC"
    ensures tag == "libmp3lame" ==> r == "MP3"
    ensures tag == "libtwolame" || tag == "mp2" ==> r == "MP2"
    ensures tag == "wmav2" || tag == "wmav1" ==> r == "WMA"
    ensures r != tag <==> tag in {"libopus", "libvorbis", "vorbis", "libfdk_aac", "libmp3lame", "libtwolame", "mp2", "wmav2", "wmav1"}
  {
    if tag == "libopus" then "OPUS"
    else if tag == "libvorbis" || tag == "vorbis" then "OGG"
    else if tag == "libfdk_aac" then "AAC"
    else if tag == "libmp3lame" then "MP3"
    else if tag == "libtwolame" || tag == "mp2" then "MP2"
    else if tag == "wmav2" || tag == "wmav1" then "WMA"
    else tag
  }

  predicate IsLower(c: char) {
    'a' <= c <= 'z'
  }

  function UpperChar(c: char): char {
    if IsLower(c) then (c as int - 'a' as int + 'A' as int) as char else c
  }

  /** str.upper() on ASCII letters; every other character is kept. */
  function Upper(s: string): (u: string)
    ensures |u| == |s|
    ensures forall i :: 0 <= i < |s| ==> u[i] == UpperChar(s[i])
    ensures forall i :: 0 <= i < |u| ==> !IsLower(u[i])
  {
    if s == [] then [] else [UpperChar(s[0])] + Upper(s[1..])
  }

  /** tagAudio as it appears in the name: the synonym, upper-cased. */
  function AudioTag(codec: string): (tag: string)
    ensures |tag| == |AudioSynonym(codec)|
    ensures forall i :: 0 <= i < |tag| ==> tag[i] == UpperChar(AudioSynonym(codec)[i])
    ensures forall i :: 0 <= i < |tag| ==> !IsLower(tag[i])
  {
    Upper(AudioSynonym(codec))
  }

  /** Every synonym key has a lower-case letter, so an upper-case tag is never renamed. */
  lemma NoLowerNoSynonym(tag: string)
    requires forall i :: 0 <= i < |tag| ==> !IsLower(tag[i])
    ensures AudioSynonym(tag) == tag
  {
    if |tag| >= 2 {
      assert !IsLower(tag[1]);
    }
  }

  /** Applying the audio tagging twice is the same as once. */
  lemma AudioTagIdempotent(codec: string)
    ensures AudioTag(AudioTag(codec)) == AudioTag(codec)
  {
    var t := AudioTag(codec);
    NoLowerNoSynonym(t);
    assert Upper(t) == t;
  }

  /** The default re-encode and downmix codecs get the tags "AC3" and "AAC". */
  lemma DefaultCodecTags()
    ensures AudioTag(DefaultConfig.audioReencCodec) == "AC3"
    ensures AudioTag(DefaultConfig.audioDownmixCodec) == "AAC"
  {
    var u := Upper("ac3");
    assert u[0] == 'A' && u[1] == 'C' && u[2] == '3';
    var w := Upper("AAC");
    assert w[0] == 'A' && w[1] == 'A' && w[2] == 'C';
  }

  /** The characters the name filter keeps: ASCII letters, digits, '_', '.' and '-'. */
  predicate Allowed(c: char) {
    ('a' <= c <= 'z') || ('A' <= c <= 'Z') || ('0' <= c <= '9') || c == '_' || c == '.' || c == '-'
  }

  predicate Clean(s: string) {
    forall i :: 0 <= i < |s| ==> Allowed(s[i])
  }

  /** The regular-expression substitution that deletes every other character. */
  function Sanitize(s: string): (r: string)
    ensures Clean(r) && |r| <= |s|
  {
    if s == [] then [] else (if Allowed(s[0]) then [s[0]] else []) + Sanitize(s[1..])
  }

  lemma {:induction false} SanitizeConcat(a: string, b: string)
    ensures Sanitize(a + b) == Sanitize(a) + Sanitize(b)
  {
    if a != [] {
      assert (a + b)[0] == a[0];
      assert (a + b)[1..] == a[1..] + b;
      SanitizeConcat(a[1..], b);
    } else {
      assert a + b == b;
    }
  }

  lemma {:induction false} SanitizeKeepsClean(s: string)
    requires Clean(s)
    ensures Sanitize(s) == s
  {
    if s != [] {
      SanitizeKeepsClean(s[1..]);
    }
  }

  /** The filter keeps exactly the allowed characters of its input. */
  lemma {:induction false} SanitizeKeepsAllowed(s: string, c: char)
    ensures c in Sanitize(s) <==> c in s && Allowed(c)
  {
    if s != [] {
      SanitizeKeepsAllowed(s[1..], c);
      assert s == [s[0]] + s[1..];
    }
  }

  /** r can be had from s by deleting characters. */
  ghost predicate Subsequence(r: string, s: string)
    decreases |s|
  {
    if r == [] then true
    else if s == [] then false
    else (r[0] == s[0] && Subsequence(r[1..], s[1..])) || Subsequence(r, s[1..])
  }

  /** The filter only deletes: what is left keeps the original order. */
  lemma {:induction false} SanitizeIsSubsequence(s: string)
    ensures Subsequence(Sanitize(s), s)
  {
    if s != [] {
      SanitizeIsSubsequence(s[1..]);
      var r := Sanitize(s);
      if Allowed(s[0]) {
        assert r[0] == s[0] && r[1..] == Sanitize(s[1..]);
      } else {
        assert r == Sanitize(s[1..]);
      }
    }
  }

  lemma SanitizeIdempotent(s: string)
    ensures Sanitize(Sanitize(s)) == Sanitize(s)
  {
    SanitizeKeepsClean(Sanitize(s));
  }

  /**
   * os.path.splitext(name)[0] for a name without '/': the name up to its last
   * '.', unless only dots come before that one (a hidden file keeps its name).
   */
  function BaseName(fileName: string): (base: string)
    ensures |base| <= |fileName| && fileName[..|base|] == base
    ensures base != fileName ==>
      && fileName[|base|] == '.'
      && (forall i :: |base| < i < |fileName| ==> fileName[i] != '.')
      && exists i :: 0 <= i < |base| && base[i] != '.'
    ensures base == fileName ==> forall i, j :: 0 <= i < j < |fileName| && fileName[j] == '.' ==> fileName[i] == '.'
  {
    var d := LastDot(fileName);
    if d >= 0 && exists i :: 0 <= i < d && fileName[i] != '.' then fileName[..d] else fileName
  }

  /** Only the last extension goes; a name that is all dots before its last '.' keeps it. */
  lemma BaseNameExamples()
    ensures BaseName("movie.mkv") == "movie"
    ensures BaseName("movie.2019.mkv") == "movie.2019"
    ensures BaseName(".hidden") == ".hidden"
    ensures BaseName("noext") == "noext"
  {
    assert LastDot("movie.mkv") == 5 by {
      assert "movie.mkv"[..8][..7][..6] == "movie.";
    }
    assert "movie.mkv"[0] != '.';
    assert LastDot("movie.2019.mkv") == 10 by {
      assert "movie.2019.mkv"[..13][..12][..11] == "movie.2019.";
    }
    assert "movie.2019.mkv"[0] != '.';
  }

  /** The position of the last '.', or -1 when there is none. */
  function LastDot(s: string): (d: int)
    ensures -1 <= d < |s|
    ensures d >= 0 ==> s[d] == '.'
    ensures forall i :: d < i < |s| ==> s[i] != '.'
    decreases |s|
  {
    if s == [] then -1
    else if s[|s| - 1] == '.' then |s| - 1
    else LastDot(s[..|s| - 1])
  }

  /** newName before the filter: base.res.codec.encoder.<n>ch.<AUDIO><fileTag>.mkv */
  function RawName(baseName: string, resTag: string, cfg: Config, channels: int, audioCodec: string): (raw: string)
    ensures |raw| > |baseName| + |cfg.fileTag| + 4
    ensures raw[..|baseName| + 1] == baseName + "."
    ensures raw[|raw| - |cfg.fileTag| - 4..] == cfg.fileTag + ".mkv"
  {
    var (codecTag, encoderTag) := VideoCodecTags(cfg.videoTargCodec);
    baseName + "." + resTag + "." + codecTag + "." + encoderTag + "." + IntToString(channels) + "ch" +
    "." + AudioTag(audioCodec) + cfg.fileTag + ".mkv"
  }

  /** RawName spelled out piece by piece. */
  lemma RawNameOfParts(baseName: string, resTag: string, cfg: Config, channels: int, audioCodec: string)
    ensures RawName(baseName, resTag, cfg, channels, audioCodec) ==
      baseName + "." + resTag + "." + VideoCodecTags(cfg.videoTargCodec).0 + "." + VideoCodecTags(cfg.videoTargCodec).1 +
      "." + IntToString(channels) + "ch" + "." + AudioTag(audioCodec) + cfg.fileTag + ".mkv"
  {
  }

  function NewName(baseName: string, resTag: string, cfg: Config, channels: int, audioCodec: string): (name: string)
    ensures Clean(name)
  {
    Sanitize(RawName(baseName, resTag, cfg, channels, audioCodec))
  }

  /** A clean fileTag survives the filter, so every output name ends with it and ".mkv". */
  lemma NewNameEndsWithTag(baseName: string, resTag: string, cfg: Config, channels: int, audioCodec: string)
    requires Clean(cfg.fileTag)
    ensures var name := NewName(baseName, resTag, cfg, channels, audioCodec);
      |name| >= |cfg.fileTag| + 4 && name[|name| - |cfg.fileTag| - 4..] == cfg.fileTag + ".mkv"
  {
    var (codecTag, encoderTag) := VideoCodecTags(cfg.videoTargCodec);
    var front := baseName + "." + resTag + "." + codecTag + "." + encoderTag + "." + IntToString(channels) + "ch" +
      "." + AudioTag(audioCodec);
    var tail := cfg.fileTag + ".mkv";
    assert RawName(baseName, resTag, cfg, channels, audioCodec) == front + tail;
    SanitizeConcat(front, tail);
    SanitizeKeepsClean(tail);
  }

  /**
   * The default skip list holds the file tag, so when the tag is clean every
   * output the script writes is skipped when the folder is walked again.
   */
  lemma OutputSkippedOnRerun(baseName: string, resTag: string, cfg: Config, channels: int, audioCodec: string)
    requires Clean(cfg.fileTag) && cfg.fileTag in cfg.filenameSkipArray
    ensures Skipped(NewName(baseName, resTag, cfg, channels, audioCodec), cfg.filenameSkipArray)
  {
    var name := NewName(baseName, resTag, cfg, channels, audioCodec);
    NewNameEndsWithTag(baseName, resTag, cfg, channels, audioCodec);
    var at := |name| - |cfg.fileTag| - 4;
    assert name[at..at + |cfg.fileTag|] == cfg.fileTag;
    assert OccursAt(cfg.fileTag, name, at);
    var k :| 0 <= k < |cfg.filenameSkipArray| && cfg.filenameSkipArray[k] == cfg.fileTag;
  }

  /**
   * os.path.join(dir, name) for a name without '/': the destination directory,
   * or the folder being walked when none is set, then the name.
   */
  function JoinPath(dir: string, name: string): (path: string)
    ensures |path| >= |dir| + |name| && path[..|dir|] == dir && path[|path| - |name|..] == name
    ensures |path| == |dir| + |name| + (if dir == "" || dir[|dir| - 1] == '/' then 0 else 1)
  {
    if dir == "" || dir[|dir| - 1] == '/' then dir + name else dir + "/" + name
  }

  function FinalDest(cfg: Config, root: string, name: string): (dest: string)
    ensures cfg.destDir != "" ==> |dest| >= |cfg.destDir| && dest[..|cfg.destDir|] == cfg.destDir
    ensures cfg.destDir == "" ==> |dest| >= |root| && dest[..|root|] == root
  {
    JoinPath(if cfg.destDir == "" then root else cfg.destDir, name)
  }

  /** The joined path is a directory part ending in '/' (or empty) followed by the name. */
  lemma FinalDestEndsWithName(cfg: Config, root: string, name: string)
    ensures var d := FinalDest(cfg, root, name);
      var dir := if cfg.destDir == "" then root else cfg.destDir;
      |d| >= |name| && d[|d| - |name|..] == name &&
      d[..|d| - |name|] in {dir, dir + "/"} &&
      (|d| > |name| ==> d[|d| - |name| - 1] == '/')
  {
    var dir := if cfg.destDir == "" then root else cfg.destDir;
    var d := FinalDest(cfg, root, name);
    if dir == "" || dir[|dir| - 1] == '/' {
      assert d == dir + name;
      assert d[..|d| - |name|] == dir;
    } else {
      assert d == (dir + "/") + name;
      assert d[..|d| - |name|] == dir + "/";
    }
  }
}
