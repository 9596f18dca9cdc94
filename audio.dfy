/**
 * The spectral transform of src/audio.rs: optional Hann windowing, a forward
 * FFT over the samples read as complex numbers, the magnitudes of the lower
 * half of the transform, a crop to its lowest 45.5 %, and a crop to the
 * configured maximum frequency.
 */
module Audio {
  import opened Primitives

  datatype Complex = Complex(re: f32, im: f32)

  /**
   * The numeric kernels convert_buffer calls into but does not define: the
   * apodize crate's Hann window of a given length, rustfft's forward
   * transform, and num_complex's `norm`.
   */
  datatype Kernels = Kernels(
    hann: nat -> seq<f32>,
    fft: seq<Complex> -> seq<Complex>,
    norm: Complex -> f32)

  /** A complex signal of n zeros. */
  function Silence(n: nat): seq<Complex> {
    seq(n, _ => Complex(0.0, 0.0))
  }

  /**
   * What the model relies on from the kernels: the window and the transform
   * preserve length, the transform maps silence to silence, and the norm is
   * non-negative and zero at the origin.
   */
  ghost predicate Lawful(k: Kernels) {
    && (forall n: nat :: |k.hann(n)| == n)
    && (forall s: seq<Complex> :: |k.fft(s)| == |s|)
    && (forall n: nat :: k.fft(Silence(n)) == Silence(n))
    && (forall c: Complex :: k.norm(c) >= 0.0)
    && k.norm(Complex(0.0, 0.0)) == 0.0
  }

  /** The fraction of the half-spectrum kept by the first crop. */
  const CROP_RATIO: real := 0.455

  /** The frequency, in Hz, that the first crop's last bin stands for. */
  const CEILING_HZ: u32 := 20000

  /** Length kept by the first crop: `(len as f32 * 0.455) as usize`. */
  function HeadCrop(len: nat): (r: nat)
    ensures r <= len
  {
    var x := len as real * CROP_RATIO;
    assert x >= 0.0;
    x.Floor
  }

  /** Length kept by the maximum-frequency crop: `(len as f32 * (m_freq as f32 / 20000.0)) as usize`. */
  function FreqCrop(len: nat, m_freq: u32): nat {
    var x := len as real * (m_freq as real / CEILING_HZ as real);
    assert x >= 0.0;
    x.Floor
  }

  /** The number of magnitudes convert_buffer keeps from n samples after the first crop. */
  function CroppedLength(n: nat): nat {
    HeadCrop(n / 2)
  }

  /** The maximum-frequency slice of convert_buffer stays in bounds (otherwise the source panics). */
  predicate CropFits(n: nat, m_freq: u32) {
    FreqCrop(CroppedLength(n), m_freq) <= CroppedLength(n)
  }

  /** Samples multiplied position by position with a window. */
  function Windowed(window: seq<f32>, samples: seq<f32>): (r: seq<f32>)
    requires |window| == |samples|
    ensures |r| == |samples|
  {
    seq(|samples|, i requires 0 <= i < |samples| => window[i] * samples[i])
  }

  /** Real samples as complex numbers with zero imaginary part. */
  function AsComplex(samples: seq<f32>): seq<Complex> {
    seq(|samples|, i requires 0 <= i < |samples| => Complex(samples[i], 0.0))
  }

  /** The real parts of a complex signal. */
  function RealParts(signal: seq<Complex>): seq<f32> {
    seq(|signal|, i requires 0 <= i < |signal| => signal[i].re)
  }

  /** The norms of the first half (rounded down) of a spectrum. */
  function Magnitudes(k: Kernels, spectrum: seq<Complex>): (r: seq<f32>)
    ensures |r| == |spectrum| / 2
  {
    seq(|spectrum| / 2, i requires 0 <= i < |spectrum| / 2 => k.norm(spectrum[i]))
  }

  /** The spectrum convert_buffer returns for samples that reach the FFT as they are. */
  function Analysed(k: Kernels, samples: seq<f32>, m_freq: u32): (r: seq<f32>)
    requires Lawful(k) && CropFits(|samples|, m_freq)
  {
    var mags := Magnitudes(k, k.fft(AsComplex(samples)));
    var cropped := mags[..HeadCrop(|mags|)];
    cropped[..FreqCrop(|cropped|, m_freq)]
  }

  /** The samples that reach the FFT: windowed when pre_fft_windowing is set, unchanged otherwise. */
  function Prepared(k: Kernels, input: seq<f32>, pre_fft_windowing: bool): (r: seq<f32>)
    requires Lawful(k)
    ensures |r| == |input|
  {
    if pre_fft_windowing then Windowed(k.hann(|input|), input) else input
  }

  /** apodize: each sample multiplied by the Hann window value of its position, for a window as long as the input. */
  method Apodize(k: Kernels, buffer: seq<f32>) returns (out: seq<f32>)
    requires Lawful(k)
    ensures |out| == |buffer|
    ensures forall i :: 0 <= i < |buffer| ==> out[i] == k.hann(|buffer|)[i] * buffer[i]
  {
    var window := k.hann(|buffer|);
    out := [];
    for i := 0 to |buffer|
      invariant |out| == i
      invariant forall j :: 0 <= j < i ==> out[j] == window[j] * buffer[j]
    {
      out := out + [window[i] * buffer[i]];
    }
  }

  /**
   * convert_buffer: windows the samples when asked, transforms them, keeps the
   * norms of the first half of the transform, then its lowest 45.5 %, then the
   * share `m_freq / 20000` of that.
   */
  method ConvertBuffer(k: Kernels, input: seq<f32>, m_freq: u32, pre_fft_windowing: bool) returns (out: seq<f32>)
    requires Lawful(k) && CropFits(|input|, m_freq)
    ensures out == Analysed(k, Prepared(k, input, pre_fft_windowing), m_freq)
  {
    var samples := input;
    if pre_fft_windowing {
      samples := Apodize(k, samples);
      var expected := Windowed(k.hann(|input|), input);
      assert |samples| == |expected|;
      assert forall i :: 0 <= i < |input| ==> samples[i] == expected[i];
      assert samples == expected;
    }

    var buffer: seq<Complex> := [];
    for i := 0 to |samples|
      invariant |buffer| == i
      invariant forall j :: 0 <= j < i ==> buffer[j] == Complex(samples[j], 0.0)
    {
      buffer := buffer + [Complex(samples[i], 0.0)];
    }
    assert buffer == AsComplex(samples);
    buffer := k.fft(buffer);

    var mags: seq<f32> := [];
    var length := |buffer| / 2;
    for i := 0 to length
      invariant |mags| == i
      invariant forall j :: 0 <= j < i ==> mags[j] == k.norm(buffer[j])
    {
      mags := mags + [k.norm(buffer[i])];
    }
    assert mags == Magnitudes(k, buffer);

    var cropped := mags[..HeadCrop(|mags|)];
    out := cropped[..FreqCrop(|cropped|, m_freq)];
  }

  /** Reading the complex signal back gives the samples, and every imaginary part is zero. */
  lemma AsComplexRoundTrip(samples: seq<f32>)
    ensures |AsComplex(samples)| == |samples|
    ensures RealParts(AsComplex(samples)) == samples
    ensures forall i :: 0 <= i < |samples| ==> AsComplex(samples)[i].im == 0.0
  {
  }

  /**
   * The spectrum has exactly `FreqCrop(HeadCrop(n / 2), m_freq)` entries, and
   * it is a prefix of the transform's norms, so each entry is the norm of the
   * transform at its own index and is non-negative.
   */
  lemma AnalysedShape(k: Kernels, samples: seq<f32>, m_freq: u32)
    requires Lawful(k) && CropFits(|samples|, m_freq)
    ensures |Analysed(k, samples, m_freq)| == FreqCrop(CroppedLength(|samples|), m_freq)
    ensures forall i :: 0 <= i < |Analysed(k, samples, m_freq)| ==>
      Analysed(k, samples, m_freq)[i] == k.norm(k.fft(AsComplex(samples))[i]) &&
      Analysed(k, samples, m_freq)[i] >= 0.0
  {
  }

  /** Silence in gives silence out: an all-zero buffer yields all-zero magnitudes, windowed or not. */
  lemma SilenceIsSilent(k: Kernels, input: seq<f32>, m_freq: u32, pre_fft_windowing: bool)
    requires Lawful(k) && CropFits(|input|, m_freq)
    requires forall i :: 0 <= i < |input| ==> input[i] == 0.0
    ensures forall i :: 0 <= i < |Analysed(k, Prepared(k, input, pre_fft_windowing), m_freq)| ==>
      Analysed(k, Prepared(k, input, pre_fft_windowing), m_freq)[i] == 0.0
  {
    var samples := Prepared(k, input, pre_fft_windowing);
    assert AsComplex(samples) == Silence(|input|);
    AnalysedShape(k, samples, m_freq);
  }

  /** At most 20000 Hz the maximum-frequency crop keeps at most the whole cropped half-spectrum. */
  lemma FreqCropBounded(len: nat, m_freq: u32)
    requires m_freq <= CEILING_HZ
    ensures FreqCrop(len, m_freq) <= len
  {
  }

  /** At exactly 20000 Hz the maximum-frequency crop keeps everything. */
  lemma FreqCropAtCeiling(len: nat)
    ensures FreqCrop(len, CEILING_HZ) == len
  {
  }

  /** Raising the maximum frequency never shortens the spectrum. */
  lemma FreqCropMonotone(len: nat, lo: u32, hi: u32)
    requires lo <= hi
    ensures FreqCrop(len, lo) <= FreqCrop(len, hi)
  {
  }

  /** Any maximum frequency up to 20000 Hz keeps convert_buffer's last slice in bounds. */
  lemma CropFitsBelowCeiling(n: nat, m_freq: u32)
    requires m_freq <= CEILING_HZ
    ensures CropFits(n, m_freq)
  {
    FreqCropBounded(CroppedLength(n), m_freq);
  }

  /** For a fixed buffer, the spectrum's length is non-decreasing in the maximum frequency. */
  lemma SpectrumLengthMonotone(k: Kernels, samples: seq<f32>, lo: u32, hi: u32)
    requires Lawful(k) && lo <= hi <= CEILING_HZ
    ensures CropFits(|samples|, lo) && CropFits(|samples|, hi)
    ensures |Analysed(k, samples, lo)| <= |Analysed(k, samples, hi)| <= CroppedLength(|samples|)
  {
    CropFitsBelowCeiling(|samples|, lo);
    CropFitsBelowCeiling(|samples|, hi);
    AnalysedShape(k, samples, lo);
    AnalysedShape(k, samples, hi);
    FreqCropMonotone(CroppedLength(|samples|), lo, hi);
  }
}
