# vidChew3 per-file decisions in Dafny

vidChew3 walks a folder of videos and re-encodes each one with ffmpeg. For each file it:

- skips names that contain a configured substring;
- reads the ffprobe stream list and picks one video, one audio and one subtitle track;
- decides whether to downscale the video and force 16:9;
- decides whether the audio is copied, re-encoded or downmixed;
- builds a tagged output name;
- prints a summary and assembles the ffmpeg command line.

This project models that decision engine and proves its properties. The probe result and the configuration are given as values. The per-file loop and the script's first-match loops, nested deep-search loops and overwriting assignments are written as methods. Each method is proved equal to a specification function. The properties are lemmas about those functions.

Modules, one per file:

- `Text` (text.dfy): `str()` of integers, the substring test `p in s`, and joining with spaces.
- `Streams` (streams.dfy): probe records and the defaults applied to missing fields. This includes the kb/s truncation and the DTS-HD MA and TrueHD bitrate estimates.
- `Settings` (settings.dfy): the configuration record, its default values, and the rule that the two audio modes exclude each other.
- `SkipFilter` (skip.dfy): the file-name skip loop.
- `TrackSelector` (selection.dfy): the first-video and first-subtitle loops, and audio selection. Audio selection covers none, the only track, or the deep search over `prefAudioFormats` × streams.
- `AudioPlanner` (audio_plan.dfy): the successive audio blocks (drop, copy, re-encode, TrueHD override, downmix) and the tags they leave.
- `VideoPlanner` (video_plan.dfy): downscale, force-16:9 and the scale filter text.
- `Naming` (naming.dfy): resolution, codec and audio tags, the character filter, and the destination join.
- `EncoderCommand` (command.dfy): the twenty pieces of the ffmpeg command and the summary fields.
- `Chew` (chew.dfy): the per-file decision and the walk over the files. The walk refuses to start when both audio modes are on.

The model follows the code where the header comment of vidChew3.py (lines 43-55) says something else:

- **Audio track choice.** The `""` pass of the deep search ignores language, because the `elif` at line 663 takes any stream with more channels. So a foreign track with more channels beats a target-language one. `TrackSelector.ForeignTrackWithMoreChannelsWins` shows this.
- **Downscaling.** The video is scaled to exactly the maximum box, not to an aspect-preserving size. So one dimension can grow: 2000x800 becomes 1920x1080 (`VideoPlanner.WideInputIsStretched`). The header says input is never upscaled.
- **Resolution tag.** The tag tests target height 1280 for "720p", and its fallback reads the input height. So an input scaled to 1280x720 is named after its original height (`Naming.ScaledTagNamesInputHeight`), while an unscaled 720x1280 portrait video is named "720p" (`Naming.TallInputIsTagged720p`).

Where the script would fail with a Python error, the model has a precondition instead:

- it requires a video track (`targVidTrackMap` would be unassigned);
- when downscaling is on, it requires dimensions the comparison can read;
- unless downmixing, it requires a chosen audio track (`tagAudio` and `tagChannels` would be unassigned).

`Chew.Plannable` collects these three conditions.

## Model

| member | source | states |
|---|---|---|
| Text.NatToStringRoundTrip | vidChew3.py:686 | the decimal text `str()` writes for a track index reads back as that index |
| Text.IntToString | vidChew3.py:923 | `str()` of an integer: non-empty, a leading '-' exactly for negatives followed by the digits, ending in a digit, only digits and '-' |
| Text.Contains | vidChew3.py:329 | the executable substring test is true exactly when the pattern occurs as a contiguous block |
| Text.JoinHasNeighbours | vidChew3.py:1065 | any two neighbouring pieces appear in the joined command with the separator between them |
| Text.JoinEndsWithLast | vidChew3.py:1065 | the joined command ends with the separator and the last piece |
| Streams.Kbps | vidChew3.py:469-473 | `int(int(x)/1000)` with exact division truncates toward zero: for x >= 0, k*1000 <= x < k*1000+1000, and symmetrically for negatives |
| Streams.AudioFields | vidChew3.py:447-491 | index as given; missing language "unknown" and missing channels 0 (marked unknown); the rate is measured exactly when bit_rate is present, the DTS-HD MA estimate exactly for dts with that profile and no bit_rate, the TrueHD ceiling exactly for truehd without bit_rate, and 0 otherwise |
| Streams.VideoFields | vidChew3.py:386-413 | index and dimensions as the prober gave them; codec and display aspect ratio as given or "unknown" |
| Streams.SubtitleFields | vidChew3.py:739-753 | index as given; language and codec as given or "unknown" |
| Streams.MeasuredBitRate | vidChew3.py:469-473 | a present bit_rate is floored to kb/s and the codec name is kept |
| Streams.EstimatedBitRate | vidChew3.py:474-491 | without bit_rate, "dts" with profile "DTS-HD MA" becomes "dts-hd ma" at 1536 and TrueHD gets 18000; the rate is non-zero exactly for those two |
| Streams.CodecNameKept | vidChew3.py:458-477 | the codec name differs from the prober's exactly for a DTS-HD MA stream without bit_rate |
| Streams.AudioSentinels | vidChew3.py:451-468 | missing channels become 0 (marked unknown), missing language or codec become "unknown" |
| SkipFilter.ShouldSkip | vidChew3.py:326-332 | the flag loop over the whole skip list sets doSkip exactly when some entry occurs in the file name |
| SkipFilter.EmptyEntrySkipsAll | vidChew3.py:328-331 | an empty entry in the skip list skips every file |
| TrackSelector.FirstVideoIsFirst | vidChew3.py:384-423 | no video is chosen exactly when no stream is video; otherwise the chosen one is a video stream with no video stream before it |
| TrackSelector.SelectVideo | vidChew3.py:384-423 | the loop with `break` returns the first video stream with its defaults |
| TrackSelector.FirstSubtitleIsFirst | vidChew3.py:737-763 | no subtitle is chosen exactly when no subtitle stream is in targLang; otherwise it is the first such stream |
| TrackSelector.SelectSubtitle | vidChew3.py:737-775 | the loop with `break` returns the first targLang subtitle, and it is copied exactly when its codec is hdmv_pgs_subtitle or dvd_subtitle |
| TrackSelector.SubtitleOutputCodec | vidChew3.py:997-1000 | the summary reports the input codec for a copied bitmap subtitle and "ass" otherwise |
| TrackSelector.AudioInfos | vidChew3.py:445-491 | the audio streams, read with the audio defaults, in probe order; never more than the streams |
| TrackSelector.AudioInfosFromProbe | vidChew3.py:445-491 | a record is in the audio list exactly when some probe stream of type audio reads as that record |
| TrackSelector.AudioInfosAppend | vidChew3.py:438-446 | the audio list of concatenated stream lists is the concatenation of their audio lists |
| TrackSelector.NoAudioInfos | vidChew3.py:438-443 | a probe without an audio stream has an empty audio list |
| TrackSelector.SelectAudio | vidChew3.py:497-679 | the count loop, the single-track loop and the nested deep-search loops compute AudioChoice of the audio list |
| TrackSelector.Qualifies | vidChew3.py:637-674 | a qualifying stream has more channels than the best; for a named format it also has that codec and the target language |
| TrackSelector.ScanPass | vidChew3.py:650-674 | one pass ends on the best it started from or on one of the streams |
| TrackSelector.DeepSearch | vidChew3.py:579-674 | the passes end on the best they started from or on one of the streams |
| TrackSelector.AudioChoice | vidChew3.py:497-679 | the choice is one of the audio streams; a single stream is chosen; nothing is chosen exactly when there is no stream, or two or more and no (format, stream) pair qualifies against 0 channels |
| TrackSelector.ChoiceIsProbedStream | vidChew3.py:497-679 | a chosen track is some audio stream of the probe read with the audio defaults |
| TrackSelector.NoAudioStreamNothingChosen | vidChew3.py:676-679 | with no audio stream nothing is chosen |
| TrackSelector.OnlyAudioStreamChosen | vidChew3.py:509-575 | a single audio stream is chosen whatever its codec, language or channels |
| TrackSelector.WildcardIgnoresLanguage | vidChew3.py:650-674 | in the "" pass a stream qualifies exactly when it has more channels than the best, in any language |
| TrackSelector.ScanPassGrows | vidChew3.py:580-674 | one pass never lowers the best channel count; if it changes the best, the count strictly rises and the new best is one of the streams |
| TrackSelector.DeepSearchGrows | vidChew3.py:579-674 | across all passes the best channel count never drops; if the best changed, the count strictly rose and the new best is one of the streams |
| TrackSelector.MaxChannels | vidChew3.py:663 | the largest channel count: an upper bound on every stream, reached by one when there are any |
| TrackSelector.WildcardPassReachesMax | vidChew3.py:650-674 | the "" pass ends holding the larger of the prior best and the largest channel count |
| TrackSelector.WildcardPassTakesFirstMax | vidChew3.py:650-674 | when the "" pass improves on the prior best, it ends on the first stream with the largest channel count |
| TrackSelector.ScanPassAtMaxKeepsBest | vidChew3.py:637-674 | once the best holds the largest channel count, a pass changes nothing |
| TrackSelector.DeepSearchConcat | vidChew3.py:579 | the passes of fs1 + fs2 are the passes of fs1 followed by those of fs2, the best carried across |
| TrackSelector.DeepSearchAtMaxKeepsBest | vidChew3.py:579-674 | once the largest channel count is held, later passes keep the track that reached it first |
| TrackSelector.DeepSearchWithWildcard | vidChew3.py:579-674 | with "" among the formats the search ends on the largest channel count present |
| TrackSelector.DeepSearchPicksMostChannels | vidChew3.py:577-674 | with two or more streams, "" in the formats and some stream with channels, a stream with the most channels is chosen |
| TrackSelector.ScanPassKeepsSome | vidChew3.py:637-674 | a pass never loses a track already found |
| TrackSelector.ScanPassFindsQualifier | vidChew3.py:637-674 | a pass from any best finds a track when some stream qualifies against 0 channels |
| TrackSelector.ScanPassStaysNone | vidChew3.py:637-674 | a pass from nothing stays empty when no stream qualifies against 0 channels |
| TrackSelector.DeepSearchNoneIff | vidChew3.py:577-674 | the search from scratch chooses nothing exactly when no (format, stream) pair qualifies against 0 channels |
| TrackSelector.RelabelledDtsNeverMatchesDts | vidChew3.py:637-638 | a relabelled DTS-HD MA stream never qualifies in the "dts" pass, only in a "dts-hd ma" pass |
| TrackSelector.PreferredCodecWinsTie | vidChew3.py:637-649 | two English 6-channel tracks, aac then ac3: the ac3 track wins because its format comes first |
| TrackSelector.ForeignTrackWithMoreChannelsWins | vidChew3.py:663-674 | an 8-channel French dts track beats two English 6-channel tracks through the "" pass |
| AudioPlanner.CopyTextMeansCopy | vidChew3.py:976 | the summary's `audioOpt == "-c:a copy"` test holds exactly for the copy operation |
| AudioPlanner.AudioOptText | vidChew3.py:806-902 | the option is "-an" exactly when the audio is dropped; an encode option starts with "-c:a " and its codec |
| AudioPlanner.AudioDecision | vidChew3.py:806-902 | the audio is dropped exactly when no track is chosen and downmix is off; a re-encode needs re-encode mode and a track and uses the re-encode codec; a downmix needs more channels than the target; otherwise the selected track is copied with its own tags |
| AudioPlanner.PlanAudio | vidChew3.py:806-902 | the successive overwriting blocks compute AudioDecision: no track, plain copy, re-encode table, TrueHD override, downmix |
| AudioPlanner.NoTrackDropsAudio | vidChew3.py:808-809 | without a track and without downmixing the audio is dropped ("-an") and no tags are set |
| AudioPlanner.NoTrackDownmixCopies | vidChew3.py:890-897 | downmixing without a track copies with tags ("", 0), replacing "-an" |
| AudioPlanner.NeitherModeCopies | vidChew3.py:813-816 | with neither mode on a found track is copied |
| AudioPlanner.ReencodeCopiesIff | vidChew3.py:822-886 | in re-encode mode a track is copied exactly when it is not TrueHD and its rate is 0 or, without force, within the surround or stereo target for its channel count |
| AudioPlanner.ReencodeSettings | vidChew3.py:826-886 | a re-encode uses the surround codec, rate and channels above two channels or for TrueHD; otherwise the stereo rate keeping the input channel count |
| AudioPlanner.TrueHdAlwaysReencoded | vidChew3.py:880-886 | TrueHD in re-encode mode is always encoded with the surround settings |
| AudioPlanner.SurroundThresholdBoundary | vidChew3.py:830-841 | a surround track at exactly the surround rate is copied; one kb/s more is re-encoded |
| AudioPlanner.DownmixCopiesIff | vidChew3.py:892-902 | in downmix mode the audio is copied exactly when the selected channels are at most the target; otherwise it gets the downmix codec, rate and channels |
| AudioPlanner.TagsDescribeOutput | vidChew3.py:808-902 | tags are missing exactly when audio is dropped; a copy is tagged with the selected codec and channels, an encode with its own codec and channel count; an encode happens exactly when re-encoding or downmixing |
| VideoPlanner.VideoDecision | vidChew3.py:784-804 | downscale exactly when enabled and width or height exceeds the maximum, to exactly the maximum box; force 16:9 exactly on a downscale with force16 and a non-16:9 input; otherwise the input size |
| VideoPlanner.PlanVideo | vidChew3.py:784-804 | the script's flag-raising block computes VideoDecision |
| VideoPlanner.ScaleOpt | vidChew3.py:789-797 | the scale option is empty exactly when not downscaling |
| VideoPlanner.WithinBoundsPassesThrough | vidChew3.py:788-801 | a video inside the box keeps its size and is never forced to 16:9 |
| VideoPlanner.OutputFitsBox | vidChew3.py:788-801 | with downscaling on, the target never exceeds the maximum box |
| VideoPlanner.ReplanIsIdentity | vidChew3.py:784-804 | planning the planned output size again never rescales and keeps the target |
| VideoPlanner.WideInputIsStretched | vidChew3.py:788-792 | 2000x800 with the default box is scaled to 1920x1080, so its height grows |
| VideoPlanner.ScaleOptMentionsAspect | vidChew3.py:789-797 | a downscale option starts with "-vf scale=" and contains a comma exactly when 16:9 is forced |
| Naming.ResolutionTag | vidChew3.py:906-911 | the tag ends in 'p'; target width 1920 gives "1080p"; otherwise target height 1280 gives "720p"; hitting neither test gives the input height followed by "p" |
| Naming.UnscaledTagNamesHeight | vidChew3.py:906-911 | an unscaled video whose size hits neither test is tagged with its own height |
| Naming.DefaultBoxIsTagged1080p | vidChew3.py:906-907 | scaling to the default 1920x1080 box gives "1080p" |
| Naming.ScaledTagNamesInputHeight | vidChew3.py:906-911 | 3840x2160 scaled to 1280x720 is still tagged "2160p" |
| Naming.TallInputIsTagged720p | vidChew3.py:906-911 | an unscaled 720x1280 portrait video is tagged "720p", while 1920x1080 scaled to a 1280x720 box is tagged "1080p" after its input height |
| Naming.VideoCodecTags | vidChew3.py:913-921 | libx265 gives HEVC/x265, libx264 gives AVC/x264, anything else the literal "tagCodec"/"tagEncoder" |
| Naming.AudioSynonym | vidChew3.py:925-933 | libopus becomes OPUS, libvorbis and vorbis OGG, libfdk_aac AAC, libmp3lame MP3, libtwolame and mp2 MP2, wmav2 and wmav1 WMA; every other tag is kept |
| Naming.AudioTag | vidChew3.py:925-935 | the audio tag is the synonym upper-cased character by character, so it has the synonym's length and no lower-case letter |
| Naming.Upper | vidChew3.py:935 | upper-casing keeps the length, maps each character and leaves no lower-case ASCII letter |
| Naming.AudioTagIdempotent | vidChew3.py:925-935 | applying the synonym table and upper-casing twice is the same as once |
| Naming.DefaultCodecTags | vidChew3.py:925-935 | the default re-encode codec is tagged "AC3" and the default downmix codec "AAC" |
| Naming.Sanitize | vidChew3.py:939-940 | the filtered name holds only [A-Za-z0-9_.-] and is no longer than the input |
| Naming.SanitizeConcat | vidChew3.py:939-940 | filtering distributes over concatenation |
| Naming.SanitizeKeepsClean | vidChew3.py:939-940 | a name of allowed characters is left unchanged |
| Naming.SanitizeKeepsAllowed | vidChew3.py:939-940 | a character is in the result exactly when it is in the input and allowed |
| Naming.SanitizeIsSubsequence | vidChew3.py:939-940 | the result is a subsequence of the input, in the original order |
| Naming.SanitizeIdempotent | vidChew3.py:939-940 | filtering twice is filtering once |
| Naming.BaseName | vidChew3.py:316 | the base name is a prefix of the file name; when shorter, a '.' follows it, no later '.' exists and it has a character other than '.'; when equal, every '.' has only dots before it |
| Naming.BaseNameExamples | vidChew3.py:316 | "movie.mkv" gives "movie", "movie.2019.mkv" gives "movie.2019", while ".hidden" and "noext" are kept |
| Naming.RawName | vidChew3.py:937 | the unfiltered name starts with the base name and '.', and ends with fileTag + ".mkv" |
| Naming.NewName | vidChew3.py:937-940 | the output name holds only allowed characters |
| Naming.NewNameEndsWithTag | vidChew3.py:937-940 | with a clean fileTag every output name ends with fileTag + ".mkv" |
| Naming.OutputSkippedOnRerun | vidChew3.py:937-940 | with a clean fileTag in the skip list, every output name is skipped by the skip filter |
| Naming.JoinPath | vidChew3.py:942-945 | the path starts with the directory and ends with the name, one '/' added only when the directory is non-empty and does not end in one |
| Naming.FinalDest | vidChew3.py:942-945 | the destination starts with destDir, or with the walked folder when destDir is empty |
| Naming.FinalDestEndsWithName | vidChew3.py:942-945 | the destination is destDir (or the walked folder when destDir is empty), at most one '/' added, then the name |
| EncoderCommand.AudioLangTag | vidChew3.py:686-691 | the audio language tag is present exactly for a chosen track with a known language |
| EncoderCommand.SubtitleSummaryAgreesWithOption | vidChew3.py:997-1000 | the subtitle option is empty exactly when the summary reports "ass" |
| EncoderCommand.CommandPieces | vidChew3.py:1065 | the command has twenty pieces, empty options included |
| EncoderCommand.CommandReadsInput | vidChew3.py:1065 | the command reads the quoted input path and maps the chosen video right after it |
| EncoderCommand.CommandSetsVideo | vidChew3.py:1065 | the command carries the scale option and the video codec, preset and crf settings |
| EncoderCommand.CommandSetsAudioAndDestination | vidChew3.py:1065 | the audio option is followed by the subtitle option, and the quoted destination is the last argument |
| EncoderCommand.OutputVideoFormat | vidChew3.py:959-962 | the summary shows "HEVC / x265" or "AVC / x264", or the raw codec name for any other codec |
| EncoderCommand.OutputDims | vidChew3.py:964-969 | on a downscale the summary size is the maximum box, otherwise the input size |
| EncoderCommand.OutputAspect | vidChew3.py:971-974 | the summary aspect is "16:9" or the input's, and differs from the input's only when 16:9 is forced |
| EncoderCommand.BitRateDisplay | vidChew3.py:530-557 | the displayed rate is "unknown" exactly for an unknown rate, and ends in " max" exactly for the TrueHD ceiling |
| EncoderCommand.BitRateDisplayOfStream | vidChew3.py:530-557 | for a probed stream the display is "unknown" exactly without bit_rate and estimate, otherwise the kb/s figure, followed by " max" for TrueHD |
| EncoderCommand.ChannelsDisplay | vidChew3.py:527-534 | "unknown" exactly when the prober gave no channel count, otherwise digits that read back as the count |
| EncoderCommand.OutputAudio | vidChew3.py:976-993 | there is an audio summary exactly for a chosen track; a copy reports the input codec, rate display and channel display; a downmix reports the downmix codec and a re-encode the re-encode codec |
| EncoderCommand.SummaryVideoMatchesPlan | vidChew3.py:964-974 | the summary's output size is the plan's target, and its aspect is 16:9 exactly when the input is or 16:9 was forced |
| EncoderCommand.SummaryAudioMatchesCommand | vidChew3.py:976-993 | apart from TrueHD with at most two channels, the summary reports the copied input, or the codec, bitrate and channels the command gives |
| EncoderCommand.TrueHdStereoSummaryMisreports | vidChew3.py:981-989 | TrueHD with at most two channels is encoded at the surround rate but reported at the stereo rate |
| Chew.StreamPlan | vidChew3.py:384-940 | for a plannable probe the decisions always leave audio tags for the name |
| Chew.PlanFile | vidChew3.py:326-1065 | one iteration of the walk (skip, probe, select, plan, name, command) computes FileOutcome |
| Chew.Run | vidChew3.py:302-311 | the run refuses to start when both audio modes are on; otherwise it yields one outcome per file, each FileOutcome, in order |
| Chew.RerunSkipsOutputs | vidChew3.py:326-332 | with a clean fileTag in the skip list, a second walk skips every file the first walk planned to write |
| Chew.FeatureFilmPlan | vidChew3.py:469-940 | default settings, 1920x800 H.264 with English DTS-HD MA 5.1 and English SubRip: no scaling, 640 kb/s six-channel AC-3, converted subtitles, name "movie.1080p.HEVC.x265.6ch.AC3-myTag.mkv" |

## Left out

- Logging, the debug branches and the summary's log lines: they only produce output. The summary's values are modelled.
- The folder walk, `sorted`, `os.stat`, the ffprobe subprocess and JSON decoding are I/O. A file is given as a `Chew.FileInput`, whose probe is the decoded stream list or None when ffprobe failed.
- The file order comes from the walk and is taken as given.
- Running ffmpeg, the report file moves and gzip, the exit-on-failure switch, dry-run, size comparison and the `__pycache__` cleanup are external processes.
- The FFREPORT path construction is left out. Its text is the `reportOpt` field of the input, empty when encoder logs are off.
- File sizes, the overall bitrate and its rounding, the savings percentage and run timing are floating-point values used only in log text.
- Loading vidChew3conf.py, the argument check and the destination-directory check are start-up I/O. `Settings.DefaultConfig` holds the built-in values.
- `Streams.Kbps`: divides exactly. The script divides in floating point, which rounds before truncation, so a bit_rate above roughly 1.8·10^16 can come out one higher in the script.
- `Naming.Upper`: models `str.upper()` on ASCII letters only; it leaves other Unicode letters alone.
- `Naming.FinalDestEndsWithName`: models `os.path.join` only for a name without '/'. The filtered name never contains one.
- Stream indexes are natural numbers or missing. A missing index is written as "unknown", as the script writes it.
- Python errors are replaced by the preconditions `VideoPlanner.DimsComparable` and `Chew.Plannable`:
  - comparing the text "unknown" with a number;
  - a missing video track;
  - unassigned audio tags when there is no audio and no downmix.

  The model says nothing about what a real run does in these cases: it stops, or reuses values left over from the previous file.
