/** The dominant-frequency half of one analysis frame (App.tsx, lines 74-84):
    a scan over the spectrum magnitudes that keeps the first maximum, and the
    conversion of the chosen bin to Hz. */
module Spectrum {
  import opened Samples

  /** The analyser's FFT size, fixed at App.tsx:32. */
  const FftSize: nat := 2048

  /** AnalyserNode.frequencyBinCount: half the FFT size, the bins from 0 Hz
      up to (not including) the Nyquist frequency. */
  function BinCount(fftSize: nat): nat { fftSize / 2 }

  /** The scan's two locals, maxValue and maxIndex. */
  datatype Peak = Peak(value: Byte, index: nat)

  /** The state of the scan of App.tsx:75-82 after it has seen all of s:
      it starts at (0, 0) and moves only on a strictly greater magnitude. */
  function Scan(s: seq<Byte>): Peak
  {
    if |s| == 0 then Peak(0, 0)
    else
      var p := Scan(s[..|s| - 1]);
      if s[|s| - 1] > p.value then Peak(s[|s| - 1], |s| - 1) else p
  }

  /** k is the first bin of largest magnitude (0 for an empty spectrum): it
      is in range, no bin is larger, and every earlier bin is smaller. */
  predicate IsFirstPeak(s: seq<Byte>, k: nat)
  {
    if |s| == 0 then k == 0
    else
      && k < |s|
      && (forall j :: 0 <= j < |s| ==> s[j] <= s[k])
      && (forall j :: 0 <= j < k ==> s[j] < s[k])
  }

  /** What the scan keeps: its index is a first peak, and its value is that
      bin's magnitude (0 for an empty spectrum). */
  lemma {:induction false} ScanFindsFirstPeak(s: seq<Byte>)
    ensures IsFirstPeak(s, Scan(s).index)
    ensures Scan(s).value == if |s| == 0 then 0 else s[Scan(s).index]
  {
    if |s| > 0 {
      var p := s[..|s| - 1];
      ScanFindsFirstPeak(p);
      assert forall j :: 0 <= j < |p| ==> p[j] == s[j];
    }
  }

  /** The scan's index is THE first peak: the tie rule of App.tsx:78 pins
      the answer down completely. */
  lemma ScanIsFirstPeak(s: seq<Byte>, k: nat)
    ensures IsFirstPeak(s, k) <==> k == Scan(s).index
  {
    ScanFindsFirstPeak(s);
  }

  /** An all-zero spectrum selects bin 0: no magnitude ever exceeds the
      initial maximum 0. */
  lemma SilentSpectrum(s: seq<Byte>)
    requires forall j :: 0 <= j < |s| ==> s[j] == 0
    ensures Scan(s) == Peak(0, 0)
  {
    ScanFindsFirstPeak(s);
    if |s| > 0 {
      ScanIsFirstPeak(s, 0);
    }
  }

  /** One bin standing out above a flat floor is the bin selected. */
  lemma SinglePeak(s: seq<Byte>, k: nat)
    requires k < |s|
    requires forall j :: 0 <= j < |s| && j != k ==> s[j] < s[k]
    ensures Scan(s) == Peak(s[k], k)
  {
    ScanFindsFirstPeak(s);
    ScanIsFirstPeak(s, k);
  }

  /** The scan loop of App.tsx:75-82, over the reused Uint8Array after
      getByteFrequencyData has filled it. */
  method DominantBin(data: array<Byte>) returns (maxIndex: nat)
    ensures maxIndex == Scan(data[..]).index
    ensures IsFirstPeak(data[..], maxIndex)
  {
    var maxValue: Byte := 0;
    maxIndex := 0;
    var i := 0;
    while i < data.Length
      invariant 0 <= i <= data.Length
      invariant Peak(maxValue, maxIndex) == Scan(data[..i])
    {
      assert data[..i + 1][..i] == data[..i];
      if data[i] > maxValue {
        maxValue := data[i];
        maxIndex := i;
      }
      i := i + 1;
    }
    assert data[..] == data[..data.Length];
    ScanFindsFirstPeak(data[..]);
  }

  /** Math.round(index * sampleRate / fftSize) (App.tsx:83-84) for a
      non-negative quotient: the bin's centre frequency rounded half up. */
  function DominantHz(index: nat, sampleRate: nat, fftSize: nat): (hz: nat)
    requires fftSize > 0
    ensures (2 * hz - 1) * fftSize <= 2 * index * sampleRate < (2 * hz + 1) * fftSize
  {
    var x, d := 2 * index * sampleRate + fftSize, 2 * fftSize;
    var hz := x / d;
    assert hz * d <= x < hz * d + d;
    hz
  }

  /** Bin 0 is 0 Hz at every sample rate. */
  lemma ZeroBinZeroHz(sampleRate: nat, fftSize: nat)
    requires fftSize > 0
    ensures DominantHz(0, sampleRate, fftSize) == 0
  {
    var hz := DominantHz(0, sampleRate, fftSize);
    if hz > 0 {
      MulMonotone(1, 2 * hz - 1, fftSize);
    }
  }

  /** Any bin the spectrum can hold lies strictly below the Nyquist
      frequency sampleRate / 2, and after rounding the reading is at most
      sampleRate / 2. */
  lemma BelowNyquist(index: nat, sampleRate: nat, fftSize: nat)
    requires fftSize > 0 && sampleRate > 0
    requires index < BinCount(fftSize)
    ensures 2 * index * sampleRate < fftSize * sampleRate
    ensures 2 * DominantHz(index, sampleRate, fftSize) <= sampleRate
  {
    assert 2 * index + 2 <= fftSize;
    MulMonotone(2 * index + 2, fftSize, sampleRate);
    var hz := DominantHz(index, sampleRate, fftSize);
    // (2hz - 1) * fftSize <= 2 * index * sampleRate <= fftSize * sampleRate - 2 * sampleRate
    assert (2 * hz - 1) * fftSize < fftSize * sampleRate;
    if 2 * hz > sampleRate {
      MulMonotone(sampleRate, 2 * hz - 1, fftSize);
    }
  }
}
