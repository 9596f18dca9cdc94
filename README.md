# audiovis audio path, modelled in Dafny

This project models the audio-analysis path of audiovis, a real-time spectrum visualiser. It also models the two configuration validators that guard that path. Four source files are covered:

- `src/bridge.rs` (module `Bridge`): the bridge actor that holds the latest spectrum.
  - `smooth_buffer` is the gravity / max-hold law. It pads the stored frame with zeros to the new frame's length and keeps the element-wise maximum. It emits that maximum divided by `gravity + 1`.
  - The actor has a single `buffer`. `Push` replaces it with the smoothed frame. `Consume` returns a copy of it.
  - It is modelled as the class `BridgeActor` with methods `Push`, `Consume` and `Serve` (the message loop).
- `src/audio.rs` (module `Audio`): `apodize` and `convert_buffer`.
  - `apodize` multiplies each sample by the Hann window value at its position.
  - `convert_buffer` optionally windows the samples, runs a forward FFT over them as complex numbers with zero imaginary part, and takes the norms of the first `N / 2` outputs.
  - It then keeps the first `floor(len * 0.455)` norms, and of those the first `floor(len * m_freq / 20000)`.
  - The FFT, the window values and the complex norm come from other crates. They are function values in a `Kernels` record. `Lawful` lists the laws the model relies on: length is preserved, silence maps to silence, and the norm is non-negative.
- `src/main.rs` (module `MainConfig`): its `Config` record, the built-in default, and `check_config`.
  - Checks run in this order: visualisation tag, buffering, maximum frequency, low-frequency threshold.
  - `Acceptable` states the accepted set without integer division: `2 * threshold <= max_frequency`. So a threshold of exactly half the maximum frequency is accepted, although the message says "lower than".
- `src/config.rs` (module `Config`): its own `Config` record, default and `check_config`. This file is a different rewrite and does not agree with `src/main.rs`.
  - `CheckConfig` models the function as written.
  - `CheckConfigIntended` is the corrected version (see Findings).

Rust's `f32` is modelled as `real` and its unsigned integers as integer ranges. These are in module `Primitives`.

Two behaviours of the code are worth stating up front:

- `smooth_buffer` divides by `gravity + 1`, and `src/config.rs` accepts any gravity ≥ 0.
- A `Consume` before any `Push` returns the empty frame, because the buffer starts as `Vec::new()`.

## Model

| member | source | states |
|---|---|---|
| `Bridge.Hold` | src/bridge.rs:47-49 | the kept value is at least the stored value and at least the new sample, and is one of the two |
| `Bridge.Padded` | src/bridge.rs:40-45 | the padded frame is as long as the longer of the two lengths, keeps the old entries first, and has only zeros after them |
| `Bridge.Held` | src/bridge.rs:40-49 | the stored frame after the call is as long as the padded frame |
| `Bridge.Smoothed` | src/bridge.rs:46-52 | the returned frame is exactly as long as the new frame, whatever the stored length |
| `Bridge.SmoothBuffer` | src/bridge.rs:33-53 | the padding, max-hold and output loops leave the stored frame equal to `Held` and return `Smoothed` |
| `Bridge.HeldEntries` | src/bridge.rs:40-50 | the stored frame afterwards has length max(old, new); below the new length it holds max(old entry or 0, new entry); at or beyond the new length it is unchanged; an empty new frame changes nothing |
| `Bridge.SmoothedEntries` | src/bridge.rs:46-52 | output entry i is max(old entry or 0, new entry) divided by `gravity + 1` |
| `Bridge.SmoothedBounds` | src/bridge.rs:47-50 | with non-negative frames and gravity ≥ 0, every output is ≥ 0 and ≤ the held maximum |
| `Bridge.NoGravityIsMaxHold` | src/bridge.rs:47-50 | with gravity 0 the output is the held frame itself: a running max-hold that never falls below the old or new value |
| `Bridge.ZeroFrameDecays` | src/bridge.rs:46-52 | an all-zero frame of the stored frame's length, with gravity > 0, strictly lowers every positive stored entry and leaves no entry negative |
| `Bridge.RepeatedFrameIsSteady` | src/bridge.rs:17-19 | two identical non-negative frames pushed onto an empty bridge give the same published frame twice |
| `Bridge.Apply` | src/bridge.rs:16-27 | one received message: a `Push` replaces the stored frame with `Smoothed`; a `Consume` or a receive error leaves it as it is |
| `Bridge.Replay` | src/bridge.rs:14-29 | the stored frame after the loop has handled a sequence of received messages in order, one `Apply` each |
| `Bridge.Replies` | src/bridge.rs:20-22 | the copies sent back number exactly the `Consume` events handled; each is the stored frame at that point |
| `Bridge.ConsumeBeforePushIsEmpty` | src/bridge.rs:13-22 | before any `Push`, the buffer stays empty and every `Consume` is answered with the empty frame |
| `Bridge.ImpulseDecays` | src/bridge.rs:17-19 | under repeated all-zero pushes with gravity > 0, a positive entry stays positive and falls strictly at every push |
| `Bridge.ImpulseLevel` | src/bridge.rs:17-19 | after k all-zero pushes, a non-negative entry equals its start value divided by `(gravity + 1)^k` |
| `Bridge.DecayBelow` | src/bridge.rs:50 | dividing a non-negative value k times by `gravity + 1` takes it below eps once `k * gravity * eps` exceeds it |
| `Bridge.ImpulseVanishes` | src/bridge.rs:17-19 | the decay reaches zero: once `k * gravity * eps` exceeds the entry, k all-zero pushes bring it below eps |
| `Bridge.BridgeActor.constructor` | src/bridge.rs:9-13 | the actor starts with an empty buffer and the gravity it was given |
| `Bridge.BridgeActor.Push` | src/bridge.rs:17-19 | the buffer becomes `Smoothed(old buffer, n, gravity)`, so its length is the pushed frame's |
| `Bridge.BridgeActor.Consume` | src/bridge.rs:20-22 | returns the buffer and changes nothing |
| `Bridge.BridgeActor.Serve` | src/bridge.rs:14-29 | handling received messages in order leaves the buffer at `Replay`; the replies are one copy per `Consume`; a receive error changes nothing |
| `Audio.HeadCrop` | src/audio.rs:101 | the first crop never keeps more entries than it is given |
| `Audio.FreqCrop` | src/audio.rs:104-105 | the maximum-frequency crop keeps `floor(len * m_freq / 20000)` entries |
| `Audio.Windowed` | src/audio.rs:63-72 | the windowed samples are as long as the input; entry i is window value i times sample i |
| `Audio.AsComplex` | src/audio.rs:86-92 | the samples read as complex numbers with zero imaginary part, one per sample |
| `Audio.Magnitudes` | src/audio.rs:95-99 | the norms of the first `N / 2` entries of the transform, so exactly `N / 2` of them |
| `Audio.Prepared` | src/audio.rs:78-81 | the samples that reach the FFT are as many as the input: windowed when `pre_fft_windowing` is set, unchanged otherwise |
| `Audio.Analysed` | src/audio.rs:83-105 | the spectrum of samples that reach the FFT: the transform, its first-half norms, then the two crops |
| `Audio.Apodize` | src/audio.rs:63-72 | output has the input's length, and entry i is window value i times sample i, for a window as long as the input |
| `Audio.ConvertBuffer` | src/audio.rs:74-106 | the result is the cropped norms of the FFT of the windowed samples when windowing is on, and of the unchanged samples when it is off |
| `Audio.AsComplexRoundTrip` | src/audio.rs:86-92 | the complex buffer has length N, its real parts are the samples, and every imaginary part is 0 |
| `Audio.AnalysedShape` | src/audio.rs:95-105 | the spectrum has exactly `FreqCrop(HeadCrop(N / 2), m_freq)` entries; it is a prefix of the FFT norms, in order; every entry is ≥ 0 |
| `Audio.SilenceIsSilent` | src/audio.rs:79-105 | an all-zero buffer gives an all-zero spectrum, windowed or not |
| `Audio.FreqCropBounded` | src/audio.rs:104-105 | for `m_freq` ≤ 20000 the maximum-frequency crop keeps at most the cropped length |
| `Audio.FreqCropAtCeiling` | src/audio.rs:104-105 | at `m_freq` = 20000 the maximum-frequency crop keeps everything |
| `Audio.FreqCropMonotone` | src/audio.rs:104-105 | the crop length never decreases as `m_freq` rises |
| `Audio.CropFitsBelowCeiling` | src/audio.rs:101-105 | for `m_freq` ≤ 20000 the final slice is always in bounds |
| `Audio.SpectrumLengthMonotone` | src/audio.rs:95-105 | for a fixed buffer, the spectrum length never decreases as `m_freq` rises, and it is at most the first-crop length |
| `MainConfig.DEFAULT_CONFIG` | src/main.rs:23-48 | the built-in default configuration, field for field |
| `MainConfig.Acceptable` | src/main.rs:228-241 | the configurations `check_config` lets through: a known tag, buffering ≤ 100, 100 ≤ max_frequency ≤ 20000, and a threshold at most half the maximum frequency |
| `MainConfig.CheckConfig` | src/main.rs:226-244 | returns `Ok` exactly when the configuration is `Acceptable`; otherwise the first failing check, in source order, decides the error message |
| `MainConfig.HalfBound` | src/main.rs:239-241 | `threshold > max_frequency / 2` in integer division means the same as `2 * threshold > max_frequency` |
| `MainConfig.DefaultPasses` | src/main.rs:23-48 | the built-in default (Bars, buffering 3, max_frequency 15000, threshold 50) passes `check_config` |
| `MainConfig.AcceptedFitsSpectrum` | src/main.rs:236-238 | every accepted `max_frequency` keeps `convert_buffer`'s slices in bounds for any buffer length |
| `Config.DEFAULT_CONFIG` | src/config.rs:4-58 | the built-in default configuration, field for field |
| `Config.CheckConfig` | src/config.rs:135-148 | returns `Ok` exactly when gravity ≥ 0 and 100 ≤ max_frequency ≤ 20000; a negative gravity always gets the buffering message; the gravity message is never returned |
| `Config.AsWrittenMisreports` | src/config.rs:137-139 | gravity −1 is rejected with the buffering message, and buffering 500 is accepted |
| `Config.CheckConfigIntended` | src/config.rs:135-148 | corrected check: `Ok` exactly when buffering ≤ 100, gravity ≥ 0 and max_frequency is in range; buffering above 100, an out-of-range max_frequency and a negative gravity each get their own message, checked in that order |
| `Config.IntendedNarrowsWritten` | src/config.rs:135-148 | the corrected check accepts exactly what the written one accepts, minus buffering above 100 |
| `Config.DefaultPasses` | src/config.rs:4-58 | the built-in default (gravity 1.0, max_frequency 20000, buffering 25) passes both checks |

## Left out

- Bridge.SmoothBuffer: the `&mut` stored frame is returned as the `held` out-parameter, not updated through a reference. Its only caller overwrites it straight away.
- Bridge.SmoothBuffer: requires both lengths below 2^31. Above that, `len() as i32` wraps, and the wrapped difference makes the padding wrong or the indexing panic.
- Bridge.SmoothBuffer: requires `gravity ≠ -1`. Real division by zero is undefined; IEEE division would give infinities or NaN.
- Bridge.BridgeActor.constructor: requires `gravity ≠ -1` for the same reason, and `Valid` keeps it for `Push` and `Serve`.
- `f32` rounding, NaN and infinities are not modelled. The `0.455` and `m_freq / 20000` products are exact reals followed by `Floor`. A NaN gravity, which passes `gravity < 0.0` in the source, has no counterpart.
- Audio.ConvertBuffer: requires `CropFits`, so it leaves out the inputs on which the last slice panics: `m_freq` above 20000 with a non-empty cropped half. `MainConfig.AcceptedFitsSpectrum` shows that every configuration `check_config` in src/main.rs accepts meets it.
- Audio.ConvertBuffer: `fft.process` works in place on a buffer. Here the sequence is reassigned with the transform's result.
- The FFT, the Hann window and the complex norm are function values, constrained only by `Lawful`.
  - The Hann formula and the norm are left abstract; `Lawful` states only the laws the proofs use.
  - Because of this, nothing is proved about the bin at which a pure tone peaks.
- Threads and channels (`thread::spawn`, `mpsc`) are not modelled. This covers `stream_input`, `err_fn`, `instruction_receiver`, the `unwrap` on `Consume`'s reply, and the out-of-order publishing that spawning one thread per buffer allows. The actor is modelled as one sequential loop over the messages received so far.
- `main()`, `get_config`, `generate_default_config` and TOML parsing are not modelled. The default configurations are written out as the values the TOML text parses to.
- The `bridge::init` call in `src/main.rs:117-129` passes more arguments than `src/bridge.rs:9-12` accepts. Each file is modelled as written.
- Rendering, meshes and GPU setup (`src/graphics*`, `src/mesh.rs`, `src/buffer_to_vertices.rs`) are not part of this model.

## Findings

| source | as written | input that shows it | evidently intended | confidence | as-written member | corrected member |
|---|---|---|---|---|---|---|
| src/config.rs:137-145 | the first check tests `gravity < 0.0` but returns the buffering message; buffering is never checked; the later gravity check cannot fail | gravity −1.0 gives "max value for buffering is 100"; buffering 500 is accepted | `buffering > 100` with the buffering message, as in src/main.rs:233-235, and the gravity check with its own message | medium, not executed | `Config.AsWrittenMisreports` | `Config.CheckConfigIntended` |
