/**
 * The configuration record of src/config.rs, its built-in default, and its
 * `check_config`, modelled as written, beside the check it evidently meant.
 */
module Config {
  import opened Primitives

  datatype Visual = Visual(
    smoothing_size: u32,
    smoothing_amount: u32,
    max_frequency: u32,
    width: f32,
    z_width: f32,
    hide_cursor: bool,
    fullscreen: bool,
    window_always_on_top: bool,
    camera_pos: Vec3,
    camera_facing: Vec3,
    fov: f32,
    texture: string)

  datatype Audio = Audio(
    pre_fft_windowing: bool,
    volume_amplitude: f32,
    volume_factoring: f32)

  datatype Processing = Processing(
    gravity: f32,
    normalisation_factoring: f32,
    fav_frequency_range: (u32, u32),
    fav_frequency_doubling: u16,
    buffering: u32,
    bar_reduction: u32,
    buffer_resolution_drop: f32,
    max_buffer_resolution_drop: u16,
    resolution: u32)

  datatype Config = Config(visual: Visual, processing: Processing, audio: Audio)

  /** The values of the built-in default TOML text. */
  const DEFAULT_CONFIG: Config := Config(
    Visual(
      smoothing_size := 10,
      smoothing_amount := 3,
      max_frequency := 20000,
      width := 1.0,
      z_width := 0.5,
      hide_cursor := false,
      fullscreen := false,
      window_always_on_top := false,
      camera_pos := [0.0, -0.25, 17.5],
      camera_facing := [-0.05, -0.25, 0.0],
      fov := 5.0,
      texture := "default"),
    Processing(
      gravity := 1.0,
      normalisation_factoring := 0.5,
      fav_frequency_range := (40, 3500),
      fav_frequency_doubling := 2,
      buffering := 25,
      bar_reduction := 2,
      buffer_resolution_drop := 1.0,
      max_buffer_resolution_drop := 8,
      resolution := 2048),
    Audio(
      pre_fft_windowing := true,
      volume_amplitude := 100.0,
      volume_factoring := 1.0))

  const BUFFERING_TOO_LARGE: string :=
    "error at processing section, max value for buffering is 100"
  const MAX_FREQUENCY_OUT_OF_RANGE: string :=
    "error at processing section, max_frequency must be in between of 100 and 20.000"
  const NEGATIVE_GRAVITY: string :=
    "error at processing section, gravity must be greater than 0.0"

  /**
   * check_config as written: a negative gravity is caught first but reported
   * with the buffering message, then the maximum frequency is range-checked,
   * then gravity is compared with 0 again, which can no longer fail.
   */
  function CheckConfig(config: Config): (r: Result<()>)
    ensures r == Ok(()) <==> config.processing.gravity >= 0.0 && 100 <= config.visual.max_frequency <= 20000
    ensures config.processing.gravity < 0.0 ==> r == Err(BUFFERING_TOO_LARGE)
    ensures config.processing.gravity >= 0.0 && !(100 <= config.visual.max_frequency <= 20000) ==>
      r == Err(MAX_FREQUENCY_OUT_OF_RANGE)
    ensures r != Err(NEGATIVE_GRAVITY)
  {
    var p := config.processing;
    if p.gravity < 0.0 then
      Err(BUFFERING_TOO_LARGE)
    else if config.visual.max_frequency > 20000 || config.visual.max_frequency < 100 then
      Err(MAX_FREQUENCY_OUT_OF_RANGE)
    else if p.gravity < 0.0 then
      Err(NEGATIVE_GRAVITY)
    else
      Ok(())
  }

  /**
   * The as-written check blames buffering for a negative gravity, and lets any
   * buffering value through.
   */
  lemma AsWrittenMisreports()
    ensures CheckConfig(DEFAULT_CONFIG.(processing := DEFAULT_CONFIG.processing.(gravity := -1.0)))
      == Err(BUFFERING_TOO_LARGE)
    ensures CheckConfig(DEFAULT_CONFIG.(processing := DEFAULT_CONFIG.processing.(buffering := 500)))
      == Ok(())
  {
  }

  /**
   * check_config as evidently intended, mirroring src/main.rs: buffering above
   * 100 gets the buffering message, and a negative gravity its own.
   */
  function CheckConfigIntended(config: Config): (r: Result<()>)
    ensures r == Ok(()) <==>
      config.processing.buffering <= 100 && config.processing.gravity >= 0.0 &&
      100 <= config.visual.max_frequency <= 20000
    ensures config.processing.buffering > 100 ==> r == Err(BUFFERING_TOO_LARGE)
    ensures (config.processing.buffering <= 100 && !(100 <= config.visual.max_frequency <= 20000)) ==>
      r == Err(MAX_FREQUENCY_OUT_OF_RANGE)
    ensures (config.processing.buffering <= 100 && 100 <= config.visual.max_frequency <= 20000 &&
             config.processing.gravity < 0.0) ==> r == Err(NEGATIVE_GRAVITY)
  {
    var p := config.processing;
    if p.buffering > 100 then
      Err(BUFFERING_TOO_LARGE)
    else if config.visual.max_frequency > 20000 || config.visual.max_frequency < 100 then
      Err(MAX_FREQUENCY_OUT_OF_RANGE)
    else if p.gravity < 0.0 then
      Err(NEGATIVE_GRAVITY)
    else
      Ok(())
  }

  /** The intended check accepts exactly what the written one accepts, less buffering above 100. */
  lemma IntendedNarrowsWritten(config: Config)
    ensures CheckConfigIntended(config) == Ok(()) <==>
      CheckConfig(config) == Ok(()) && config.processing.buffering <= 100
  {
  }

  /** The built-in default passes both checks. */
  lemma DefaultPasses()
    ensures CheckConfig(DEFAULT_CONFIG) == Ok(())
    ensures CheckConfigIntended(DEFAULT_CONFIG) == Ok(())
  {
  }
}
