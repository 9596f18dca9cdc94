/**
 * The configuration record of src/main.rs, its built-in default, and
 * `check_config`, which guards the pipeline before the bridge and the audio
 * stream are started.
 */
module MainConfig {
  import opened Primitives
  import Spectral = Audio

  datatype Visual = Visual(
    visualisation: string,
    bottom_color: Vec3,
    top_color: Vec3,
    smoothing_size: u32,
    smoothing_amount: u32,
    max_frequency: u32,
    width: f32,
    hide_cursor: bool,
    fullscreen: bool,
    window_always_on_top: bool)

  datatype Processing = Processing(
    buffering: usize,
    low_frequency_threshold: u32,
    low_frequency_scale_doubling: u8,
    low_frequency_smoothing: u8,
    low_frequency_smoothing_size: u32,
    low_frequency_fading: f32)

  datatype Audio = Audio(
    pre_fft_windowing: bool,
    volume_amplitude: f32,
    volume_factoring: f32)

  datatype Config = Config(visual: Visual, processing: Processing, audio: Audio)

  /** The values of the built-in default TOML text. */
  const DEFAULT_CONFIG: Config := Config(
    Visual(
      visualisation := "Bars",
      bottom_color := [0.0, 0.0, 0.0],
      top_color := [1.0, 0.0, 0.0],
      smoothing_size := 2,
      smoothing_amount := 1,
      max_frequency := 15000,
      width := 1.0,
      hide_cursor := false,
      fullscreen := false,
      window_always_on_top := false),
    Processing(
      buffering := 3,
      low_frequency_threshold := 50,
      low_frequency_scale_doubling := 5,
      low_frequency_smoothing := 1,
      low_frequency_smoothing_size := 5,
      low_frequency_fading := 2.5),
    Audio(
      pre_fft_windowing := true,
      volume_amplitude := 2.0,
      volume_factoring := 0.5))

  const INVALID_VISUALISATION: string :=
    "error at visual section, invalid visualisation type. Possible types are: 'Bars' and 'Strings'"
  const BUFFERING_TOO_LARGE: string :=
    "error at processing section, max value for buffering is 100"
  const MAX_FREQUENCY_OUT_OF_RANGE: string :=
    "error at processing section, max_frequency must be in between of 100 and 20.000"
  const THRESHOLD_TOO_HIGH: string :=
    "error at processing section, low_frequency_threshold must be lower than half of max_frequency"

  /** The visualisation tags the renderer knows. */
  predicate KnownVisualisation(tag: string) {
    tag == "Bars" || tag == "Strings"
  }

  /**
   * The configurations check_config lets through, stated without its integer
   * division: the threshold may be at most half the maximum frequency.
   */
  predicate Acceptable(c: Config) {
    && KnownVisualisation(c.visual.visualisation)
    && c.processing.buffering <= 100
    && 100 <= c.visual.max_frequency <= 20000
    && 2 * c.processing.low_frequency_threshold <= c.visual.max_frequency
  }

  /**
   * check_config: the visualisation tag first, then buffering, then the
   * maximum frequency, then the low-frequency threshold; the first check that
   * fails decides the message.
   */
  function CheckConfig(config: Config): (r: Result<()>)
    ensures r == Ok(()) <==> Acceptable(config)
    ensures !KnownVisualisation(config.visual.visualisation) ==> r == Err(INVALID_VISUALISATION)
    ensures KnownVisualisation(config.visual.visualisation) && config.processing.buffering > 100 ==>
      r == Err(BUFFERING_TOO_LARGE)
    ensures (KnownVisualisation(config.visual.visualisation) && config.processing.buffering <= 100 &&
             !(100 <= config.visual.max_frequency <= 20000)) ==> r == Err(MAX_FREQUENCY_OUT_OF_RANGE)
    ensures (KnownVisualisation(config.visual.visualisation) && config.processing.buffering <= 100 &&
             100 <= config.visual.max_frequency <= 20000 &&
             2 * config.processing.low_frequency_threshold > config.visual.max_frequency) ==> r == Err(THRESHOLD_TOO_HIGH)
  {
    var p := config.processing;
    if config.visual.visualisation != "Bars" && config.visual.visualisation != "Strings" then
      Err(INVALID_VISUALISATION)
    else if p.buffering > 100 then
      Err(BUFFERING_TOO_LARGE)
    else if config.visual.max_frequency > 20000 || config.visual.max_frequency < 100 then
      Err(MAX_FREQUENCY_OUT_OF_RANGE)
    else if p.low_frequency_threshold > config.visual.max_frequency / 2 then
      (HalfBound(p.low_frequency_threshold, config.visual.max_frequency);
       Err(THRESHOLD_TOO_HIGH))
    else
      HalfBound(p.low_frequency_threshold, config.visual.max_frequency);
      Ok(())
  }

  /** `t > m / 2` in integer division is the same as `2 * t > m`. */
  lemma HalfBound(t: nat, m: nat)
    ensures t > m / 2 <==> 2 * t > m
  {
  }

  /** The built-in default passes check_config. */
  lemma DefaultPasses()
    ensures CheckConfig(DEFAULT_CONFIG) == Ok(())
  {
  }

  /**
   * A configuration check_config accepts has a maximum frequency that keeps
   * convert_buffer's slices in bounds, whatever the buffer length.
   */
  lemma AcceptedFitsSpectrum(c: Config, n: nat)
    requires CheckConfig(c) == Ok(())
    ensures Spectral.CropFits(n, c.visual.max_frequency)
  {
    Spectral.CropFitsBelowCeiling(n, c.visual.max_frequency);
  }
}
