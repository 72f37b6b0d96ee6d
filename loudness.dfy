/** The loudness half of one analysis frame (App.tsx, lines 64-71): the sum of
    squared deviations of the time-domain samples from the 128 bias, and the
    volume percentage Math.round(sqrt(sum / n) * 100) derived from it. The
    float division by 128 is scaled out: the source's float sum equals
    SumSquares / 128², so everything below is exact integer arithmetic. */
module Loudness {
  import opened Samples

  /** The byte value that stands for zero amplitude. */
  const Bias: int := 128

  /** The squared deviation of a full-scale sample (a 0 byte). */
  const FullScale: int := Bias * Bias

  /** Squared distance of one sample from the bias: 128² times the source's
      `amplitude * amplitude`. */
  function Deviation(s: Byte): (d: nat)
    ensures d <= FullScale
    ensures d == 0 <==> s == Bias
  {
    var x := s - Bias;
    if x < 0 then
      assert Sq(x) == Sq(-x);
      SqMonotone(-x, Bias);
      Sq(x)
    else
      SqMonotone(x, Bias);
      Sq(x)
  }

  /** Sum of the squared deviations of a window, accumulated front to back
      as the loop at App.tsx:66-69 does. */
  function SumSquares(w: seq<Byte>): nat
  {
    if |w| == 0 then 0 else SumSquares(w[..|w| - 1]) + Deviation(w[|w| - 1])
  }

  /** No sample deviates by more than full scale, so n samples sum to at
      most n * 128². */
  lemma {:induction false} SumSquaresBound(w: seq<Byte>)
    ensures SumSquares(w) <= |w| * FullScale
  {
    if |w| > 0 {
      SumSquaresBound(w[..|w| - 1]);
    }
  }

  /** The sum vanishes exactly when every sample sits on the bias. */
  lemma {:induction false} SumSquaresZeroIffSilent(w: seq<Byte>)
    ensures SumSquares(w) == 0 <==> forall i :: 0 <= i < |w| ==> w[i] == Bias
  {
    if |w| > 0 {
      var p := w[..|w| - 1];
      SumSquaresZeroIffSilent(p);
      assert forall i :: 0 <= i < |p| ==> p[i] == w[i];
    }
  }

  /** A window whose samples all equal v sums to n times v's deviation. */
  lemma {:induction false} SumSquaresConstant(w: seq<Byte>, v: Byte)
    requires forall i :: 0 <= i < |w| ==> w[i] == v
    ensures SumSquares(w) == |w| * Deviation(v)
  {
    if |w| > 0 {
      SumSquaresConstant(w[..|w| - 1], v);
    }
  }

  /** A square wave 0, 255, 0, 255, ... of even length: every pair of samples
      contributes 128² + 127². */
  lemma {:induction false} SumSquaresSquareWave(w: seq<Byte>)
    requires |w| % 2 == 0
    requires forall i :: 0 <= i < |w| ==> w[i] == if i % 2 == 0 then 0 else 255
    ensures SumSquares(w) == |w| / 2 * (FullScale + 127 * 127)
  {
    if |w| > 0 {
      var n := |w|;
      var p := w[..n - 2];
      assert w[..n - 1][..n - 2] == p;
      SumSquaresSquareWave(p);
      assert w[n - 1] == 255 && w[n - 2] == 0;
    }
  }

  /** The accumulation loop of App.tsx:65-69, over the reused Uint8Array
      after getByteTimeDomainData has filled it. */
  method SumOfSquares(data: array<Byte>) returns (sum: nat)
    ensures sum == SumSquares(data[..])
    ensures sum <= data.Length * FullScale
  {
    sum := 0;
    var i := 0;
    while i < data.Length
      invariant 0 <= i <= data.Length
      invariant sum == SumSquares(data[..i])
    {
      assert data[..i + 1][..i] == data[..i];
      sum := sum + Deviation(data[i]);
      i := i + 1;
    }
    assert data[..] == data[..data.Length];
    SumSquaresBound(data[..]);
  }

  /** k is Math.round(sqrt(num / den)): k - 1/2 <= sqrt(num / den) < k + 1/2,
      squared and cleared of fractions. Math.round rounds halves up, hence
      the non-strict lower bound. */
  predicate IsRoundedRoot(k: nat, num: nat, den: nat)
  {
    && (k == 0 || Sq(2 * k - 1) * den <= 4 * num)
    && 4 * num < Sq(2 * k + 1) * den
  }

  /** A square times a positive factor is at least the base. */
  lemma SqTimesPositive(x: nat, d: nat)
    requires d >= 1
    ensures Sq(x) * d >= x
  {
    assert Sq(x) >= x by {
      if x > 0 { MulMonotone(1, x, x); }
    }
    MulMonotone(1, d, Sq(x));
  }

  /** Rounded square root of num / den, searched upwards from k. */
  function RoundedRoot(num: nat, den: nat, k: nat): (r: nat)
    requires den > 0
    requires k <= 4 * num + 1
    requires k == 0 || Sq(2 * k - 1) * den <= 4 * num
    ensures IsRoundedRoot(r, num, den)
    ensures r >= k
    decreases 4 * num + 1 - k
  {
    if 4 * num < Sq(2 * k + 1) * den then
      k
    else
      SqTimesPositive(2 * k + 1, den);
      RoundedRoot(num, den, k + 1)
  }

  /** At most one k rounds sqrt(num / den). */
  lemma RoundedRootUnique(a: nat, b: nat, num: nat, den: nat)
    requires IsRoundedRoot(a, num, den) && IsRoundedRoot(b, num, den)
    ensures a == b
  {
    if a < b {
      RoundedRootBelow(b, num, den, a);
    } else if b < a {
      RoundedRootBelow(a, num, den, b);
    }
  }

  /** When num / den < (m + 1/2)², its rounded root is at most m. */
  lemma RoundedRootBelow(k: nat, num: nat, den: nat, m: nat)
    requires IsRoundedRoot(k, num, den)
    requires 4 * num < Sq(2 * m + 1) * den
    ensures k <= m
  {
    if k > m {
      SqMonotone(2 * m + 1, 2 * k - 1);
      MulMonotone(Sq(2 * m + 1), Sq(2 * k - 1), den);
    }
  }

  /** Math.round(Math.sqrt(total / n) * 100) for a float total of
      sum / 128² (App.tsx:70-71): the rounded root of 100² * sum / (128² * n).
      It cannot exceed 100 while no sample deviates by more than full scale. */
  function VolumeFromSum(sum: nat, n: nat): (v: nat)
    requires n > 0
    ensures IsRoundedRoot(v, 100 * 100 * sum, FullScale * n)
    ensures sum <= n * FullScale ==> v <= 100
  {
    var num, den := 100 * 100 * sum, FullScale * n;
    var v := RoundedRoot(num, den, 0);
    if sum <= n * FullScale then
      assert 4 * num < Sq(2 * 100 + 1) * den;
      RoundedRootBelow(v, num, den, 100);
      v
    else
      v
  }

  /** The volume shown for a window: the root mean square of the normalised
      amplitudes (w[i] - 128) / 128, as a rounded percentage in [0, 100]. */
  function VolumePercent(w: seq<Byte>): (v: nat)
    requires |w| > 0
    ensures IsRoundedRoot(v, 100 * 100 * SumSquares(w), FullScale * |w|)
    ensures v <= 100
  {
    SumSquaresBound(w);
    VolumeFromSum(SumSquares(w), |w|)
  }

  /** The volume rounds to 0 exactly when the RMS amplitude is below half a
      percent of full scale. */
  lemma VolumeZeroIff(w: seq<Byte>)
    requires |w| > 0
    ensures VolumePercent(w) == 0 <==> 4 * 100 * 100 * SumSquares(w) < FullScale * |w|
  {
    var num, den := 100 * 100 * SumSquares(w), FullScale * |w|;
    if 4 * num < den {
      RoundedRootUnique(VolumePercent(w), 0, num, den);
    }
  }

  /** A silent window (every sample 128) shows volume 0. */
  lemma SilentVolume(w: seq<Byte>)
    requires |w| > 0
    requires forall i :: 0 <= i < |w| ==> w[i] == Bias
    ensures SumSquares(w) == 0
    ensures VolumePercent(w) == 0
  {
    SumSquaresZeroIffSilent(w);
    VolumeZeroIff(w);
  }

  /** A window pinned at the bottom rail (every sample 0) shows volume 100. */
  lemma FullScaleVolume(w: seq<Byte>)
    requires |w| > 0
    requires forall i :: 0 <= i < |w| ==> w[i] == 0
    ensures VolumePercent(w) == 100
  {
    SumSquaresConstant(w, 0);
    var n := |w|;
    assert Sq(199) * (FullScale * n) <= 4 * (100 * 100 * SumSquares(w));
    RoundedRootUnique(VolumePercent(w), 100, 100 * 100 * SumSquares(w), FullScale * n);
  }

  /** A full-scale square wave alternating 0 and 255 shows volume 100
      (its exact RMS is about 99.6 percent). */
  lemma SquareWaveVolume(w: seq<Byte>)
    requires |w| > 0 && |w| % 2 == 0
    requires forall i :: 0 <= i < |w| ==> w[i] == if i % 2 == 0 then 0 else 255
    ensures VolumePercent(w) == 100
  {
    SumSquaresSquareWave(w);
    var h := |w| / 2;
    var num, den := 100 * 100 * SumSquares(w), FullScale * |w|;
    assert num == 10000 * 32513 * h;
    assert den == 16384 * 2 * h;
    assert Sq(199) * den <= 4 * num < Sq(201) * den;
    RoundedRootUnique(VolumePercent(w), 100, num, den);
  }
}
