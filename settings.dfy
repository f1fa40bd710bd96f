// The configuration snapshot the script reads once at start-up
// (vidChew3.py:145-200, or the same names from vidChew3conf.py).

module Settings {

  /**
   * The options the per-file decisions read. Logging, dry-run and fail-fast
   * switches only steer output and the encoder run, and are not part of it.
   */
  datatype Config = Config(
    destDir: string,
    fileTag: string,
    filenameSkipArray: seq<string>,
    targLang: string,
    videoTargCodec: string,
    videoTargCodecPreset: string,
    videoTargCrf: string,
    videoDownscale: bool,
    maxVidWidth: int,
    maxVidHeight: int,
    force16: bool,
    prefAudioFormats: seq<string>,
    audioReenc: bool,
    audioReencForce: bool,
    audioReencCodec: string,
    audioReencBitRateStereo: int,
    audioReencBitRateSurround: int,
    audioReencChannelsSurround: int,
    audioDownmix: bool,
    audioDownmixCodec: string,
    audioDownmixChannels: int,
    audioDownmixBitRate: int)

  /** The built-in defaults, which vidChew3conf.py repeats. */
  const DefaultConfig: Config := Config(
    destDir := "",
    fileTag := "-myTag",
    filenameSkipArray := ["-myTag", "vidChew"],
    targLang := "eng",
    videoTargCodec := "libx265",
    videoTargCodecPreset := "medium",
    videoTargCrf := "22",
    videoDownscale := true,
    maxVidWidth := 1920,
    maxVidHeight := 1080,
    force16 := true,
    prefAudioFormats := ["ac3", "eac3", "dts", "aac", ""],
    audioReenc := true,
    audioReencForce := false,
    audioReencCodec := "ac3",
    audioReencBitRateStereo := 256,
    audioReencBitRateSurround := 640,
    audioReencChannelsSurround := 6,
    audioDownmix := false,
    audioDownmixCodec := "libfdk_aac",
    audioDownmixChannels := 2,
    audioDownmixBitRate := 256)

  /** The start-up check: re-encoding and downmixing may not both be on. */
  predicate ModesExclusive(cfg: Config) {
    !(cfg.audioReenc && cfg.audioDownmix)
  }
}
