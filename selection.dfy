// Track selection: the first video stream (vidChew3.py:384-430), the audio
// stream count and choice including the multi-pass deep search
// (vidChew3.py:439-443, 497-693) and the first subtitle stream in the target
// language with its copy-or-convert choice (vidChew3.py:728-780, 997-1000).

module TrackSelector {
  import opened Streams

  // ---------------------------------------------------------------- video

  /** The first stream whose codec_type is video, read with the video defaults. */
  function FirstVideo(ss: seq<RawStream>): Option<VideoTrack> {
    if ss == [] then None
    else if ss[0].codecType == Video then Some(VideoFields(ss[0]))
    else FirstVideo(ss[1..])
  }

  /** FirstVideo finds a video stream exactly when there is one, and no earlier one. */
  lemma {:induction false} FirstVideoIsFirst(ss: seq<RawStream>)
    ensures FirstVideo(ss).None? <==> forall k :: 0 <= k < |ss| ==> ss[k].codecType != Video
    ensures FirstVideo(ss).Some? ==>
      exists k :: 0 <= k < |ss| && ss[k].codecType == Video && FirstVideo(ss) == Some(VideoFields(ss[k])) &&
        forall j :: 0 <= j < k ==> ss[j].codecType != Video
  {
    if ss != [] && ss[0].codecType != Video {
      FirstVideoIsFirst(ss[1..]);
      if FirstVideo(ss).Some? {
        var k :| 0 <= k < |ss[1..]| && ss[1..][k].codecType == Video &&
          FirstVideo(ss[1..]) == Some(VideoFields(ss[1..][k])) &&
          forall j :: 0 <= j < k ==> ss[1..][j].codecType != Video;
        assert ss[k + 1] == ss[1..][k];
        assert forall j :: 0 <= j < k + 1 ==> ss[j].codecType != Video by {
          forall j | 0 < j < k + 1 ensures ss[j].codecType != Video {
            assert ss[j] == ss[1..][j - 1];
          }
        }
      } else {
        forall k | 0 < k < |ss| ensures ss[k].codecType != Video {
          assert ss[k] == ss[1..][k - 1];
        }
      }
    }
  }

  /** The script's loop: stop at the first video stream. */
  method SelectVideo(ss: seq<RawStream>) returns (video: Option<VideoTrack>)
    ensures video == FirstVideo(ss)
  {
    video := None;
    var i := 0;
    while i < |ss|
      invariant 0 <= i <= |ss|
      invariant FirstVideo(ss) == FirstVideo(ss[i..])
    {
      if ss[i].codecType == Video {
        video := Some(VideoFields(ss[i]));
        break;
      }
      assert ss[i..][1..] == ss[i + 1..];
      i := i + 1;
    }
  }

  // ------------------------------------------------------------- subtitle

  /** The first subtitle stream whose language (after defaults) is targLang. */
  function FirstSubtitle(ss: seq<RawStream>, targLang: string): Option<SubtitleTrack> {
    if ss == [] then None
    else if ss[0].codecType == Subtitle && SubtitleFields(ss[0]).language == targLang
    then Some(SubtitleFields(ss[0]))
    else FirstSubtitle(ss[1..], targLang)
  }

  predicate IsTargetSubtitle(s: RawStream, targLang: string) {
    s.codecType == Subtitle && SubtitleFields(s).language == targLang
  }

  /** FirstSubtitle finds a target-language subtitle exactly when there is one, and no earlier one. */
  lemma {:induction false} FirstSubtitleIsFirst(ss: seq<RawStream>, targLang: string)
    ensures FirstSubtitle(ss, targLang).None? <==>
      forall k :: 0 <= k < |ss| ==> !IsTargetSubtitle(ss[k], targLang)
    ensures FirstSubtitle(ss, targLang).Some? ==>
      exists k :: 0 <= k < |ss| && IsTargetSubtitle(ss[k], targLang) &&
        FirstSubtitle(ss, targLang) == Some(SubtitleFields(ss[k])) &&
        forall j :: 0 <= j < k ==> !IsTargetSubtitle(ss[j], targLang)
  {
    if ss != [] && !IsTargetSubtitle(ss[0], targLang) {
      FirstSubtitleIsFirst(ss[1..], targLang);
      if FirstSubtitle(ss, targLang).Some? {
        var k :| 0 <= k < |ss[1..]| && IsTargetSubtitle(ss[1..][k], targLang) &&
          FirstSubtitle(ss[1..], targLang) == Some(SubtitleFields(ss[1..][k])) &&
          forall j :: 0 <= j < k ==> !IsTargetSubtitle(ss[1..][j], targLang);
        assert ss[k + 1] == ss[1..][k];
        assert forall j :: 0 <= j < k + 1 ==> !IsTargetSubtitle(ss[j], targLang) by {
          forall j | 0 < j < k + 1 ensures !IsTargetSubtitle(ss[j], targLang) {
            assert ss[j] == ss[1..][j - 1];
          }
        }
      } else {
        forall k | 0 < k < |ss| ensures !IsTargetSubtitle(ss[k], targLang) {
          assert ss[k] == ss[1..][k - 1];
        }
      }
    }
  }

  /** Bitmap subtitle formats are stream-copied; everything else becomes ASS. */
  predicate IsBitmapSubtitle(codecName: string) {
    codecName == "hdmv_pgs_subtitle" || codecName == "dvd_subtitle"
  }

  /** The subtitle codec the summary reports: the input codec when copied, else "ass". */
  function SubtitleOutputCodec(sub: Option<SubtitleTrack>): (codec: string)
    ensures sub.Some? && IsBitmapSubtitle(sub.value.codecName) ==> codec == sub.value.codecName
    ensures !(sub.Some? && IsBitmapSubtitle(sub.value.codecName)) ==> codec == "ass"
    ensures codec != "ass" ==> IsBitmapSubtitle(codec)
  {
    if sub.Some? && IsBitmapSubtitle(sub.value.codecName) then sub.value.codecName else "ass"
  }

  /** The script's loop: stop at the first target-language subtitle; then pick copy or convert. */
  method SelectSubtitle(ss: seq<RawStream>, targLang: string) returns (sub: Option<SubtitleTrack>, copy: bool)
    ensures sub == FirstSubtitle(ss, targLang)
    ensures copy <==> sub.Some? && IsBitmapSubtitle(sub.value.codecName)
  {
    sub := None;
    var i := 0;
    while i < |ss|
      invariant 0 <= i <= |ss|
      invariant FirstSubtitle(ss, targLang) == FirstSubtitle(ss[i..], targLang)
    {
      if ss[i].codecType == Subtitle {
        var t := SubtitleFields(ss[i]);
        if t.language == targLang {
          sub := Some(t);
          break;
        }
      }
      assert ss[i..][1..] == ss[i + 1..];
      i := i + 1;
    }
    copy := false;
    if sub.Some? {
      if sub.value.codecName == "hdmv_pgs_subtitle" || sub.value.codecName == "dvd_subtitle" {
        copy := true;
      }
    }
  }

  // ---------------------------------------------------------------- audio

  /** The audio streams in probe order, each read with the audio defaults. */
  function AudioInfos(ss: seq<RawStream>): (audio: seq<AudioInfo>)
    ensures |audio| <= |ss|
    decreases |ss|
  {
    if ss == [] then []
    else
      var last := ss[|ss| - 1];
      AudioInfos(ss[..|ss| - 1]) + if last.codecType == Audio then [AudioFields(last)] else []
  }

  lemma {:induction false} AudioInfosAppend(a: seq<RawStream>, b: seq<RawStream>)
    ensures AudioInfos(a + b) == AudioInfos(a) + AudioInfos(b)
    decreases |b|
  {
    if b != [] {
      var init := b[..|b| - 1];
      assert (a + b)[..|a + b| - 1] == a + init;
      AudioInfosAppend(a, init);
    } else {
      assert a + b == a;
    }
  }

  /** The audio list holds exactly the audio streams of the probe, read with the audio defaults. */
  lemma {:induction false} AudioInfosFromProbe(ss: seq<RawStream>, a: AudioInfo)
    ensures a in AudioInfos(ss) <==>
      exists k :: 0 <= k < |ss| && ss[k].codecType == Audio && a == AudioFields(ss[k])
    decreases |ss|
  {
    if ss != [] {
      var init := ss[..|ss| - 1];
      var last := ss[|ss| - 1];
      AudioInfosFromProbe(init, a);
      if exists k :: 0 <= k < |ss| && ss[k].codecType == Audio && a == AudioFields(ss[k]) {
        var k :| 0 <= k < |ss| && ss[k].codecType == Audio && a == AudioFields(ss[k]);
        if k < |ss| - 1 {
          assert init[k] == ss[k];
        }
      }
      if a in AudioInfos(init) {
        var k :| 0 <= k < |init| && init[k].codecType == Audio && a == AudioFields(init[k]);
        assert ss[k] == init[k];
      }
    }
  }

  lemma AudioInfosSnoc(ss: seq<RawStream>, i: nat)
    requires i < |ss|
    ensures AudioInfos(ss[..i + 1]) ==
      AudioInfos(ss[..i]) + if ss[i].codecType == Audio then [AudioFields(ss[i])] else []
  {
    assert ss[..i + 1][..i] == ss[..i];
  }

  lemma {:induction false} NoAudioInfos(ss: seq<RawStream>)
    requires forall k :: 0 <= k < |ss| ==> ss[k].codecType != Audio
    ensures AudioInfos(ss) == []
    decreases |ss|
  {
    if ss != [] {
      NoAudioInfos(ss[..|ss| - 1]);
    }
  }

  /** bfAudioChannels: the channel count of the running best, 0 before any. */
  function BestChannels(best: Option<AudioInfo>): nat {
    if best.Some? then best.value.channels else 0
  }

  /**
   * The test of vidChew3.py:637-674 for pass f. A named format needs the
   * target language, that codec and more channels; the "" pass also takes a
   * stream in any language with more channels.
   */
  predicate Qualifies(f: string, a: AudioInfo, targLang: string, bestChannels: nat)
    ensures Qualifies(f, a, targLang, bestChannels) ==> a.channels > bestChannels
    ensures f != "" && Qualifies(f, a, targLang, bestChannels) ==> a.language == targLang && a.codecName == f
  {
    if f != "" then a.language == targLang && a.codecName == f && a.channels > bestChannels
    else (a.language == targLang && a.channels > bestChannels) || a.channels > bestChannels
  }

  function Step(f: string, a: AudioInfo, targLang: string, best: Option<AudioInfo>): Option<AudioInfo> {
    if Qualifies(f, a, targLang, BestChannels(best)) then Some(a) else best
  }

  /** One pass of the deep search: the inner loop over all audio streams. */
  function ScanPass(f: string, audio: seq<AudioInfo>, targLang: string, best: Option<AudioInfo>): (r: Option<AudioInfo>)
    ensures r == best || (r.Some? && r.value in audio)
    decreases |audio|
  {
    if audio == [] then best
    else Step(f, audio[|audio| - 1], targLang, ScanPass(f, audio[..|audio| - 1], targLang, best))
  }

  /** The whole deep search: one pass per preferred format, the best carried across passes. */
  function DeepSearch(formats: seq<string>, audio: seq<AudioInfo>, targLang: string, best: Option<AudioInfo>): (r: Option<AudioInfo>)
    ensures r == best || (r.Some? && r.value in audio)
    decreases |formats|
  {
    if formats == [] then best
    else ScanPass(formats[|formats| - 1], audio, targLang,
                  DeepSearch(formats[..|formats| - 1], audio, targLang, best))
  }

  /** None for no audio stream, the only one, or the deep search from scratch. */
  function AudioChoice(audio: seq<AudioInfo>, formats: seq<string>, targLang: string): (r: Option<AudioInfo>)
    ensures r.Some? ==> r.value in audio
    ensures |audio| == 1 ==> r == Some(audio[0])
    ensures r.None? <==>
      |audio| == 0 ||
      (|audio| >= 2 && forall f, a :: f in formats && a in audio ==> !Qualifies(f, a, targLang, 0))
  {
    if |audio| == 0 then None
    else if |audio| == 1 then Some(audio[0])
    else DeepSearchNoneIff(formats, audio, targLang); DeepSearch(formats, audio, targLang, None)
  }

  lemma ScanPassSnoc(f: string, audio: seq<AudioInfo>, a: AudioInfo, targLang: string, best: Option<AudioInfo>)
    ensures ScanPass(f, audio + [a], targLang, best) == Step(f, a, targLang, ScanPass(f, audio, targLang, best))
  {
    assert (audio + [a])[..|audio|] == audio;
  }

  /** The script: count the audio streams, then take the only one or deep-search. */
  method SelectAudio(ss: seq<RawStream>, formats: seq<string>, targLang: string) returns (found: Option<AudioInfo>)
    ensures found == AudioChoice(AudioInfos(ss), formats, targLang)
  {
    var audioStreamCount := 0;
    for i := 0 to |ss|
      invariant audioStreamCount == |AudioInfos(ss[..i])|
    {
      AudioInfosSnoc(ss, i);
      if ss[i].codecType == Audio {
        audioStreamCount := audioStreamCount + 1;
      }
    }
    assert ss[..|ss|] == ss;

    found := None;
    if audioStreamCount == 1 {
      var i := 0;
      while i < |ss|
        invariant 0 <= i <= |ss|
        invariant AudioInfos(ss[..i]) == [] && found == None
      {
        AudioInfosSnoc(ss, i);
        if ss[i].codecType == Audio {
          found := Some(AudioFields(ss[i]));
          AudioInfosAppend(ss[..i + 1], ss[i + 1..]);
          assert ss[..i + 1] + ss[i + 1..] == ss;
          break;
        }
        i := i + 1;
      }
    } else if audioStreamCount > 1 {
      var bfAudioChannels: nat := 0;
      for p := 0 to |formats|
        invariant found == DeepSearch(formats[..p], AudioInfos(ss), targLang, None)
        invariant bfAudioChannels == BestChannels(found)
      {
        var f := formats[p];
        ghost var passStart := found;
        for i := 0 to |ss|
          invariant found == ScanPass(f, AudioInfos(ss[..i]), targLang, passStart)
          invariant bfAudioChannels == BestChannels(found)
        {
          AudioInfosSnoc(ss, i);
          if ss[i].codecType != Audio {
            assert AudioInfos(ss[..i + 1]) == AudioInfos(ss[..i]);
          } else {
            var a := AudioFields(ss[i]);
            ScanPassSnoc(f, AudioInfos(ss[..i]), a, targLang, passStart);
            if f != "" {
              if a.language == targLang && a.codecName == f && a.channels > bfAudioChannels {
                found := Some(a);
                bfAudioChannels := a.channels;
              }
            } else {
              if a.language == targLang && a.channels > bfAudioChannels {
                found := Some(a);
                bfAudioChannels := a.channels;
              } else if a.channels > bfAudioChannels {
                found := Some(a);
                bfAudioChannels := a.channels;
              }
            }
          }
        }
        assert formats[..p + 1][..p] == formats[..p];
      }
      assert formats[..|formats|] == formats;
    }
  }

  // ------------------------------------------------- audio: what is chosen

  /** The chosen track is one of the probe's audio streams, read with the audio defaults. */
  lemma ChoiceIsProbedStream(ss: seq<RawStream>, formats: seq<string>, targLang: string)
    requires AudioChoice(AudioInfos(ss), formats, targLang).Some?
    ensures exists k ::
      && 0 <= k < |ss| && ss[k].codecType == Audio
      && AudioChoice(AudioInfos(ss), formats, targLang).value == AudioFields(ss[k])
  {
    AudioInfosFromProbe(ss, AudioChoice(AudioInfos(ss), formats, targLang).value);
  }

  /** With no audio stream nothing is chosen. */
  lemma NoAudioStreamNothingChosen(ss: seq<RawStream>, formats: seq<string>, targLang: string)
    requires forall k :: 0 <= k < |ss| ==> ss[k].codecType != Audio
    ensures AudioChoice(AudioInfos(ss), formats, targLang) == None
  {
    NoAudioInfos(ss);
  }

  /** With exactly one audio stream it is chosen, whatever its codec, language or channels. */
  lemma OnlyAudioStreamChosen(ss: seq<RawStream>, k: nat, formats: seq<string>, targLang: string)
    requires k < |ss| && ss[k].codecType == Audio
    requires forall j :: 0 <= j < |ss| && j != k ==> ss[j].codecType != Audio
    ensures AudioChoice(AudioInfos(ss), formats, targLang) == Some(AudioFields(ss[k]))
  {
    assert ss == ss[..k] + [ss[k]] + ss[k + 1..];
    AudioInfosAppend(ss[..k] + [ss[k]], ss[k + 1..]);
    AudioInfosAppend(ss[..k], [ss[k]]);
    NoAudioInfos(ss[..k]);
    NoAudioInfos(ss[k + 1..]);
    assert AudioInfos([ss[k]]) == [AudioFields(ss[k])] by {
      assert [ss[k]][..0] == [];
    }
  }

  /** In the "" pass language does not matter: only the channel count does. */
  lemma WildcardIgnoresLanguage(a: AudioInfo, targLang: string, bestChannels: nat)
    ensures Qualifies("", a, targLang, bestChannels) <==> a.channels > bestChannels
  {
  }

  /**
   * A pass never lowers the best channel count, and when it changes the best
   * the count strictly rises and the new best is one of the streams.
   */
  lemma {:induction false} ScanPassGrows(f: string, audio: seq<AudioInfo>, targLang: string, best: Option<AudioInfo>)
    ensures var r := ScanPass(f, audio, targLang, best);
      && BestChannels(r) >= BestChannels(best)
      && (r != best ==> r.Some? && r.value in audio && BestChannels(r) > BestChannels(best))
    decreases |audio|
  {
    if audio != [] {
      var init := audio[..|audio| - 1];
      ScanPassGrows(f, init, targLang, best);
      var mid := ScanPass(f, init, targLang, best);
      assert mid != best ==> mid.value in audio by {
        if mid != best {
          assert mid.value in init;
        }
      }
    }
  }

  /** The same across all passes: the best is never reset and only ever strictly improves. */
  lemma {:induction false} DeepSearchGrows(formats: seq<string>, audio: seq<AudioInfo>, targLang: string, best: Option<AudioInfo>)
    ensures var r := DeepSearch(formats, audio, targLang, best);
      && BestChannels(r) >= BestChannels(best)
      && (r != best ==> r.Some? && r.value in audio && BestChannels(r) > BestChannels(best))
    decreases |formats|
  {
    if formats != [] {
      var init := formats[..|formats| - 1];
      DeepSearchGrows(init, audio, targLang, best);
      ScanPassGrows(formats[|formats| - 1], audio, targLang, DeepSearch(init, audio, targLang, best));
    }
  }

  function Max(a: nat, b: nat): nat {
    if a < b then b else a
  }

  /** The largest channel count among the audio streams (0 for none). */
  function MaxChannels(audio: seq<AudioInfo>): (m: nat)
    ensures forall a :: a in audio ==> a.channels <= m
    ensures audio != [] ==> exists a :: a in audio && a.channels == m
    decreases |audio|
  {
    if audio == [] then 0
    else
      var init := audio[..|audio| - 1];
      assert audio == init + [audio[|audio| - 1]];
      Max(MaxChannels(init), audio[|audio| - 1].channels)
  }

  /** The "" pass ends holding the largest channel count seen, before or in the pass. */
  lemma {:induction false} WildcardPassReachesMax(audio: seq<AudioInfo>, targLang: string, best: Option<AudioInfo>)
    ensures BestChannels(ScanPass("", audio, targLang, best)) == Max(BestChannels(best), MaxChannels(audio))
    decreases |audio|
  {
    if audio != [] {
      WildcardPassReachesMax(audio[..|audio| - 1], targLang, best);
    }
  }

  /** Position k holds the first stream with the largest channel count. */
  predicate FirstMaxAt(audio: seq<AudioInfo>, k: int) {
    && 0 <= k < |audio|
    && audio[k].channels == MaxChannels(audio)
    && forall j :: 0 <= j < k ==> audio[j].channels < MaxChannels(audio)
  }

  /**
   * When the "" pass starts below the maximum it ends on the FIRST stream
   * that has the maximum channel count, whatever its language.
   */
  lemma {:induction false} WildcardPassTakesFirstMax(audio: seq<AudioInfo>, targLang: string, best: Option<AudioInfo>)
    requires BestChannels(best) < MaxChannels(audio)
    ensures exists k :: FirstMaxAt(audio, k) && ScanPass("", audio, targLang, best) == Some(audio[k])
    decreases |audio|
  {
    var init := audio[..|audio| - 1];
    var last := audio[|audio| - 1];
    var m := MaxChannels(audio);
    if MaxChannels(init) == m {
      WildcardPassTakesFirstMax(init, targLang, best);
      var k :| FirstMaxAt(init, k) && ScanPass("", init, targLang, best) == Some(init[k]);
      FirstMaxExtends(audio, k);
    } else {
      WildcardPassReachesMax(init, targLang, best);
      FirstMaxIsLast(audio);
    }
  }

  lemma FirstMaxExtends(audio: seq<AudioInfo>, k: int)
    requires |audio| > 0 && FirstMaxAt(audio[..|audio| - 1], k)
    requires MaxChannels(audio[..|audio| - 1]) == MaxChannels(audio)
    ensures FirstMaxAt(audio, k)
  {
    var init := audio[..|audio| - 1];
    forall j | 0 <= j <= k ensures audio[j] == init[j] {
    }
  }

  lemma FirstMaxIsLast(audio: seq<AudioInfo>)
    requires |audio| > 0 && MaxChannels(audio[..|audio| - 1]) != MaxChannels(audio)
    ensures FirstMaxAt(audio, |audio| - 1)
  {
    var init := audio[..|audio| - 1];
    forall j | 0 <= j < |audio| - 1 ensures audio[j].channels < MaxChannels(audio) {
      assert audio[j] == init[j] && init[j] in init;
    }
  }

  /** Once the best holds the maximum channel count, no pass changes it any more. */
  lemma {:induction false} ScanPassAtMaxKeepsBest(f: string, audio: seq<AudioInfo>, targLang: string, best: Option<AudioInfo>)
    requires BestChannels(best) >= MaxChannels(audio)
    ensures ScanPass(f, audio, targLang, best) == best
    decreases |audio|
  {
    if audio != [] {
      ScanPassAtMaxKeepsBest(f, audio[..|audio| - 1], targLang, best);
    }
  }

  /** Running the passes of fs1 and then those of fs2 is running the passes of fs1 + fs2. */
  lemma {:induction false} DeepSearchConcat(fs1: seq<string>, fs2: seq<string>, audio: seq<AudioInfo>, targLang: string, best: Option<AudioInfo>)
    ensures DeepSearch(fs1 + fs2, audio, targLang, best) ==
      DeepSearch(fs2, audio, targLang, DeepSearch(fs1, audio, targLang, best))
    decreases |fs2|
  {
    if fs2 == [] {
      assert fs1 + fs2 == fs1;
    } else {
      var init := fs2[..|fs2| - 1];
      assert (fs1 + fs2)[..|fs1 + fs2| - 1] == fs1 + init;
      DeepSearchConcat(fs1, init, audio, targLang, best);
    }
  }

  /** Once the maximum channel count is held, later passes keep the track that reached it first. */
  lemma {:induction false} DeepSearchAtMaxKeepsBest(formats: seq<string>, audio: seq<AudioInfo>, targLang: string, best: Option<AudioInfo>)
    requires BestChannels(best) >= MaxChannels(audio)
    ensures DeepSearch(formats, audio, targLang, best) == best
    decreases |formats|
  {
    if formats != [] {
      DeepSearchAtMaxKeepsBest(formats[..|formats| - 1], audio, targLang, best);
      ScanPassAtMaxKeepsBest(formats[|formats| - 1], audio, targLang, best);
    }
  }

  /** With "" among the formats the deep search ends on the largest channel count present. */
  lemma {:induction false} DeepSearchWithWildcard(formats: seq<string>, audio: seq<AudioInfo>, targLang: string, best: Option<AudioInfo>)
    requires "" in formats
    ensures BestChannels(DeepSearch(formats, audio, targLang, best)) == Max(BestChannels(best), MaxChannels(audio))
    decreases |formats|
  {
    var init := formats[..|formats| - 1];
    var f := formats[|formats| - 1];
    var prior := DeepSearch(init, audio, targLang, best);
    if f == "" {
      DeepSearchGrows(init, audio, targLang, best);
      WildcardPassReachesMax(audio, targLang, prior);
    } else {
      assert formats == init + [f];
      DeepSearchWithWildcard(init, audio, targLang, best);
      if BestChannels(prior) >= MaxChannels(audio) {
        ScanPassAtMaxKeepsBest(f, audio, targLang, prior);
      } else {
        ScanPassGrows(f, audio, targLang, prior);
      }
    }
  }

  /**
   * With two or more audio streams, "" among the formats and some stream with
   * channels, the choice has the largest channel count of all audio streams.
   */
  lemma DeepSearchPicksMostChannels(audio: seq<AudioInfo>, formats: seq<string>, targLang: string)
    requires |audio| >= 2 && "" in formats && MaxChannels(audio) > 0
    ensures AudioChoice(audio, formats, targLang).Some?
    ensures AudioChoice(audio, formats, targLang).value in audio
    ensures AudioChoice(audio, formats, targLang).value.channels == MaxChannels(audio)
  {
    DeepSearchWithWildcard(formats, audio, targLang, None);
    DeepSearchGrows(formats, audio, targLang, None);
  }

  lemma {:induction false} ScanPassKeepsSome(f: string, audio: seq<AudioInfo>, targLang: string, best: Option<AudioInfo>)
    requires best.Some?
    ensures ScanPass(f, audio, targLang, best).Some?
    decreases |audio|
  {
    if audio != [] {
      ScanPassKeepsSome(f, audio[..|audio| - 1], targLang, best);
    }
  }

  lemma {:induction false} ScanPassFindsQualifier(f: string, audio: seq<AudioInfo>, a: AudioInfo, targLang: string, best: Option<AudioInfo>)
    requires a in audio && Qualifies(f, a, targLang, 0)
    ensures ScanPass(f, audio, targLang, best).Some?
    decreases |audio|
  {
    var init := audio[..|audio| - 1];
    assert audio == init + [audio[|audio| - 1]];
    if a in init {
      ScanPassFindsQualifier(f, init, a, targLang, best);
    } else if ScanPass(f, init, targLang, best).Some? {
    } else {
      assert a == audio[|audio| - 1];
    }
  }

  lemma {:induction false} ScanPassStaysNone(f: string, audio: seq<AudioInfo>, targLang: string)
    requires forall a :: a in audio ==> !Qualifies(f, a, targLang, 0)
    ensures ScanPass(f, audio, targLang, None) == None
    decreases |audio|
  {
    if audio != [] {
      var init := audio[..|audio| - 1];
      assert audio == init + [audio[|audio| - 1]];
      ScanPassStaysNone(f, init, targLang);
    }
  }

  /**
   * The deep search from scratch chooses nothing exactly when no (format,
   * stream) pair qualifies against a best of 0 channels.
   */
  lemma {:induction false} DeepSearchNoneIff(formats: seq<string>, audio: seq<AudioInfo>, targLang: string)
    ensures DeepSearch(formats, audio, targLang, None) == None <==>
      forall f, a :: f in formats && a in audio ==> !Qualifies(f, a, targLang, 0)
    decreases |formats|
  {
    if formats != [] {
      var init := formats[..|formats| - 1];
      var f := formats[|formats| - 1];
      assert formats == init + [f];
      DeepSearchNoneIff(init, audio, targLang);
      var prior := DeepSearch(init, audio, targLang, None);
      if prior.Some? {
        ScanPassKeepsSome(f, audio, targLang, prior);
      } else if exists a :: a in audio && Qualifies(f, a, targLang, 0) {
        var a :| a in audio && Qualifies(f, a, targLang, 0);
        ScanPassFindsQualifier(f, audio, a, targLang, prior);
      } else {
        ScanPassStaysNone(f, audio, targLang);
      }
    }
  }

  /** A relabelled DTS-HD MA stream never wins a "dts" pass. */
  lemma RelabelledDtsNeverMatchesDts(s: RawStream, targLang: string, bestChannels: nat)
    requires s.codecName == Some("dts") && s.profile == Some("DTS-HD MA") && s.bitRate.None?
    ensures !Qualifies("dts", AudioFields(s), targLang, bestChannels)
    ensures Qualifies("dts-hd ma", AudioFields(s), targLang, bestChannels) <==>
      s.language.GetOr(Unknown) == targLang && s.channels.GetOr(0) > bestChannels
  {
  }

  // -------------------------------------------------------- worked examples

  function Track(index: nat, language: string, codecName: string, channels: nat): AudioInfo {
    AudioInfo(Some(index), language, codecName, channels, true, 0, RateUnknown)
  }

  const DefaultFormats: seq<string> := ["ac3", "eac3", "dts", "aac", ""]

  /** Two English 6-channel tracks: the codec earlier in the preference list wins the tie. */
  lemma PreferredCodecWinsTie()
    ensures AudioChoice([Track(1, "eng", "aac", 6), Track(2, "eng", "ac3", 6)], DefaultFormats, "eng")
      == Some(Track(2, "eng", "ac3", 6))
  {
    var aac, ac3 := Track(1, "eng", "aac", 6), Track(2, "eng", "ac3", 6);
    var audio := [aac, ac3];
    assert ["ac3"][..0] == [];
    var afterAc3 := DeepSearch(["ac3"], audio, "eng", None);
    ScanPassSnoc("ac3", [], aac, "eng", None);
    ScanPassSnoc("ac3", [aac], ac3, "eng", None);
    assert [aac] + [ac3] == audio;
    assert afterAc3 == Some(ac3);
    assert MaxChannels(audio) == 6;
    assert DefaultFormats == ["ac3"] + ["eac3", "dts", "aac", ""];
    DeepSearchConcat(["ac3"], ["eac3", "dts", "aac", ""], audio, "eng", None);
    DeepSearchAtMaxKeepsBest(["eac3", "dts", "aac", ""], audio, "eng", afterAc3);
  }

  /**
   * The example of an English AC-3 6-channel, an English AAC 6-channel and a
   * French DTS 8-channel track: the "" pass hands the choice to the French
   * track, because it has more channels.
   */
  lemma ForeignTrackWithMoreChannelsWins()
    ensures AudioChoice([Track(1, "eng", "ac3", 6), Track(2, "eng", "aac", 6), Track(3, "fre", "dts", 8)],
                        DefaultFormats, "eng")
      == Some(Track(3, "fre", "dts", 8))
  {
    var audio := [Track(1, "eng", "ac3", 6), Track(2, "eng", "aac", 6), Track(3, "fre", "dts", 8)];
    assert MaxChannels(audio) == 8 by {
      assert audio[..2][..1] == [audio[0]];
      assert audio[..2] == [audio[0], audio[1]];
    }
    DeepSearchPicksMostChannels(audio, DefaultFormats, "eng");
  }
}
