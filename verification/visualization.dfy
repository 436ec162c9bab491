/**
 `convertAudioFileToVisualData`: each of the first two channels of the rendered result is
 reduced to one magnitude per pixel column by taking absolute values, clipping to [0, 1]
 and box-filter downsampling by `kSamplesPerPixel`.

 `vDSP_desamp` is given its documented meaning, `C[n] = sum over p < P of A[n*DF + p] * F[p]`,
 over reals.
 */
module Visualization {
  import opened SwiftNumerics

  /** `kSamplesPerPixel`. */
  const SamplesPerPixel: nat := 10

  /** `vDSP_vabs` on one sample. */
  function Abs(x: real): (r: real)
    ensures r >= 0.0
    ensures r == x || r == -x
  {
    if x < 0.0 then -x else x
  }

  /** `vDSP_vclip` on one sample. */
  function Clip(x: real, low: real, high: real): (r: real)
    requires low <= high
    ensures low <= r <= high
    ensures low <= x <= high ==> r == x
    ensures x < low ==> r == low
    ensures x > high ==> r == high
  {
    if x < low then low else if x > high then high else x
  }

  /** The magnitude drawn for one sample. */
  function Magnitude(x: real): (m: real)
    ensures 0.0 <= m <= 1.0
    ensures -1.0 <= x <= 1.0 ==> m == Abs(x)
    ensures (x >= 1.0 || x <= -1.0) ==> m == 1.0
  {
    Clip(Abs(x), 0.0, 1.0)
  }

  /** The first `len` samples of one channel after `vDSP_vabs` and `vDSP_vclip`. */
  function Processed(channel: seq<real>, len: nat): (p: seq<real>)
    requires len <= |channel|
    ensures |p| == len
    ensures forall i :: 0 <= i < len ==> 0.0 <= p[i] <= 1.0
    ensures forall i :: 0 <= i < len && -1.0 <= channel[i] <= 1.0 ==> p[i] == Abs(channel[i])
    ensures forall i :: 0 <= i < len && (channel[i] >= 1.0 || channel[i] <= -1.0) ==> p[i] == 1.0
  {
    seq(len, i requires 0 <= i < len => Magnitude(channel[i]))
  }

  /** `sum over p < k of a[start + p] * f[p]`. */
  function Dot(a: seq<real>, start: nat, f: seq<real>, k: nat): real
    requires start + k <= |a| && k <= |f|
    decreases k
  {
    if k == 0 then 0.0 else Dot(a, start, f, k - 1) + a[start + k - 1] * f[k - 1]
  }

  /** `sum over p < k of a[start + p]`. */
  function Sum(a: seq<real>, start: nat, k: nat): real
    requires start + k <= |a|
    decreases k
  {
    if k == 0 then 0.0 else Sum(a, start, k - 1) + a[start + k - 1]
  }

  /** The arithmetic mean of the `k` samples starting at `start`. */
  function WindowMean(a: seq<real>, start: nat, k: nat): real
    requires 0 < k && start + k <= |a|
  {
    Sum(a, start, k) / k as real
  }

  /** The filter of `n` taps each equal to `1 / n`. */
  function BoxFilter(n: nat): (f: seq<real>)
    requires n > 0
    ensures |f| == n
    ensures forall p :: 0 <= p < n ==> f[p] * n as real == 1.0
  {
    seq(n, p => 1.0 / n as real)
  }

  /** `vDSP_desamp(A, DF, F, C, N, P)` with `|F| == P`: `count` outputs, one every `stride` inputs. */
  function Desamp(a: seq<real>, stride: nat, f: seq<real>, count: nat): (c: seq<real>)
    requires count * stride + |f| <= |a| + stride
    ensures |c| == count
    decreases count
  {
    if count == 0 then []
    else
      assert (count - 1) * stride + |f| <= |a| by {
        assert (count - 1) * stride == count * stride - stride;
      }
      Desamp(a, stride, f, count - 1) + [Dot(a, (count - 1) * stride, f, |f|)]
  }

  /** Output `n` of `vDSP_desamp` is the sum of products of its window with the filter. */
  lemma {:induction false} DesampElement(a: seq<real>, stride: nat, f: seq<real>, count: nat, n: nat)
    requires count * stride + |f| <= |a| + stride
    requires n < count
    ensures n * stride + |f| <= |a|
    ensures Desamp(a, stride, f, count)[n] == Dot(a, n * stride, f, |f|)
    decreases count
  {
    assert (count - 1) * stride == count * stride - stride;
    if n < count - 1 {
      DesampElement(a, stride, f, count - 1, n);
    }
  }

  /** A filter whose taps all equal `c` computes `c` times the window sum. */
  lemma {:induction false} DotConstantFilter(a: seq<real>, start: nat, f: seq<real>, k: nat, c: real)
    requires start + k <= |a| && k <= |f|
    requires forall p :: 0 <= p < k ==> f[p] == c
    ensures Dot(a, start, f, k) == c * Sum(a, start, k)
    decreases k
  {
    if k > 0 {
      DotConstantFilter(a, start, f, k - 1, c);
    }
  }

  /** A sum of `k` values in [0, 1] lies in [0, k]. */
  lemma {:induction false} SumBounds(a: seq<real>, start: nat, k: nat)
    requires start + k <= |a|
    requires forall i :: start <= i < start + k ==> 0.0 <= a[i] <= 1.0
    ensures 0.0 <= Sum(a, start, k) <= k as real
    decreases k
  {
    if k > 0 {
      SumBounds(a, start, k - 1);
    }
  }

  /** A window sum reads only the samples inside the window. */
  lemma {:induction false} SumOfEqualWindows(a: seq<real>, b: seq<real>, start: nat, k: nat)
    requires start + k <= |a| && start + k <= |b|
    requires a[start..start + k] == b[start..start + k]
    ensures Sum(a, start, k) == Sum(b, start, k)
    decreases k
  {
    if k > 0 {
      assert a[start..start + k - 1] == a[start..start + k][..k - 1];
      assert b[start..start + k - 1] == b[start..start + k][..k - 1];
      assert a[start + k - 1] == a[start..start + k][k - 1];
      assert b[start + k - 1] == b[start..start + k][k - 1];
      SumOfEqualWindows(a, b, start, k - 1);
    }
  }

  /** The audio read back from the result file: planar channels, `frameLength` frames each. */
  datatype PcmBuffer = PcmBuffer(channels: seq<seq<real>>, frameLength: nat)

  /**
   What the function's force-unwraps and `vDSP` calls demand: a `UInt32` frame count and
   two channels, each holding at least `frameLength` samples.
   */
  predicate Readable(b: PcmBuffer) {
    && IsUInt32(b.frameLength)
    && |b.channels| >= 2
    && b.frameLength <= |b.channels[0]|
    && b.frameLength <= |b.channels[1]|
  }

  /** The magnitude series of the left and right pane. */
  datatype VisualData = VisualData(left: seq<real>, right: seq<real>)

  /** `frameLength / kSamplesPerPixel`: the whole windows that fit, trailing frames dropped. */
  function PixelCount(frameLength: nat): (n: nat)
    ensures n * SamplesPerPixel <= frameLength < (n + 1) * SamplesPerPixel
  {
    frameLength / SamplesPerPixel
  }

  /** One channel reduced to one magnitude per pixel column. */
  function ReduceChannel(channel: seq<real>, frameLength: nat): (v: seq<real>)
    requires frameLength <= |channel|
    ensures |v| == PixelCount(frameLength)
  {
    Desamp(Processed(channel, frameLength), SamplesPerPixel, BoxFilter(SamplesPerPixel), PixelCount(frameLength))
  }

  /** `convertAudioFileToVisualData` after the file has been read: both series have one point per pixel. */
  function ConvertToVisualData(b: PcmBuffer): (v: VisualData)
    requires Readable(b)
    ensures |v.left| == PixelCount(b.frameLength)
    ensures |v.right| == PixelCount(b.frameLength)
  {
    VisualData(ReduceChannel(b.channels[0], b.frameLength), ReduceChannel(b.channels[1], b.frameLength))
  }

  /** With the box filter, output `n` of `vDSP_desamp` is the mean of its window. */
  lemma DesampBoxFilterIsWindowMean(a: seq<real>, stride: nat, count: nat, n: nat)
    requires stride > 0 && count * stride <= |a|
    requires n < count
    ensures n * stride + stride <= |a|
    ensures Desamp(a, stride, BoxFilter(stride), count)[n] == WindowMean(a, n * stride, stride)
  {
    var f := BoxFilter(stride);
    var c := 1.0 / stride as real;
    WholeWindowFits(stride, count, n);
    DesampElement(a, stride, f, count, n);
    forall q | 0 <= q < stride
      ensures f[q] == c
    {
      DivideByTap(f[q], stride);
    }
    DotConstantFilter(a, n * stride, f, stride, c);
    ScaleIsDivision(Sum(a, n * stride, stride), stride);
  }

  lemma WholeWindowFits(stride: nat, count: nat, n: nat)
    requires n < count
    ensures n * stride + stride <= count * stride
  {
    assert count * stride == (n + 1) * stride + (count - n - 1) * stride;
  }

  lemma DivideByTap(x: real, n: nat)
    requires n > 0 && x * n as real == 1.0
    ensures x == 1.0 / n as real
  {
  }

  lemma ScaleIsDivision(x: real, n: nat)
    requires n > 0
    ensures 1.0 / n as real * x == x / n as real
  {
  }

  /** Each output point is the mean magnitude of its window of `kSamplesPerPixel` samples. */
  lemma ReduceChannelIsWindowMean(channel: seq<real>, frameLength: nat, n: nat)
    requires frameLength <= |channel|
    requires n < PixelCount(frameLength)
    ensures (n + 1) * SamplesPerPixel <= frameLength
    ensures ReduceChannel(channel, frameLength)[n] ==
            WindowMean(Processed(channel, frameLength), n * SamplesPerPixel, SamplesPerPixel)
  {
    DesampBoxFilterIsWindowMean(Processed(channel, frameLength), SamplesPerPixel, PixelCount(frameLength), n);
  }

  /** Every output point lies in [0, 1], being a mean of values in [0, 1]. */
  lemma ReduceChannelInUnitRange(channel: seq<real>, frameLength: nat)
    requires frameLength <= |channel|
    ensures forall n :: 0 <= n < |ReduceChannel(channel, frameLength)| ==>
              0.0 <= ReduceChannel(channel, frameLength)[n] <= 1.0
  {
    var v := ReduceChannel(channel, frameLength);
    forall n | 0 <= n < |v|
      ensures 0.0 <= v[n] <= 1.0
    {
      ReduceChannelIsWindowMean(channel, frameLength, n);
      SumBounds(Processed(channel, frameLength), n * SamplesPerPixel, SamplesPerPixel);
    }
  }

  /** Point `n` of each pane is the mean magnitude of window `n` of its own channel, and lies in [0, 1]. */
  lemma VisualDataPoint(b: PcmBuffer, n: nat)
    requires Readable(b)
    requires n < PixelCount(b.frameLength)
    ensures (n + 1) * SamplesPerPixel <= b.frameLength
    ensures ConvertToVisualData(b).left[n] ==
            WindowMean(Processed(b.channels[0], b.frameLength), n * SamplesPerPixel, SamplesPerPixel)
    ensures ConvertToVisualData(b).right[n] ==
            WindowMean(Processed(b.channels[1], b.frameLength), n * SamplesPerPixel, SamplesPerPixel)
    ensures 0.0 <= ConvertToVisualData(b).left[n] <= 1.0
    ensures 0.0 <= ConvertToVisualData(b).right[n] <= 1.0
  {
    ReduceChannelIsWindowMean(b.channels[0], b.frameLength, n);
    ReduceChannelIsWindowMean(b.channels[1], b.frameLength, n);
    ReduceChannelInUnitRange(b.channels[0], b.frameLength);
    ReduceChannelInUnitRange(b.channels[1], b.frameLength);
  }

  /** Equal samples are processed to equal magnitudes. */
  lemma ProcessedSameSample(c1: seq<real>, len1: nat, c2: seq<real>, len2: nat, i: nat)
    requires len1 <= |c1| && len2 <= |c2|
    requires i < len1 && i < len2 && c1[i] == c2[i]
    ensures Processed(c1, len1)[i] == Processed(c2, len2)[i]
  {
  }

  /** Window `n` of two channels that agree on their whole windows reduces to the same point. */
  lemma ReducedPointsAgree(c1: seq<real>, len1: nat, c2: seq<real>, len2: nat, n: nat)
    requires len1 <= |c1| && len2 <= |c2|
    requires PixelCount(len1) == PixelCount(len2)
    requires c1[..PixelCount(len1) * SamplesPerPixel] == c2[..PixelCount(len2) * SamplesPerPixel]
    requires n < PixelCount(len1)
    ensures ReduceChannel(c1, len1)[n] == ReduceChannel(c2, len2)[n]
  {
    var count := PixelCount(len1);
    var p1 := Processed(c1, len1);
    var p2 := Processed(c2, len2);
    ReduceChannelIsWindowMean(c1, len1, n);
    ReduceChannelIsWindowMean(c2, len2, n);
    var start := n * SamplesPerPixel;
    WholeWindowFits(SamplesPerPixel, count, n);
    forall i | start <= i < start + SamplesPerPixel
      ensures p1[i] == p2[i]
    {
      assert c1[i] == c1[..count * SamplesPerPixel][i];
      assert c2[i] == c2[..count * SamplesPerPixel][i];
      ProcessedSameSample(c1, len1, c2, len2, i);
    }
    assert p1[start..start + SamplesPerPixel] == p2[start..start + SamplesPerPixel];
    SumOfEqualWindows(p1, p2, start, SamplesPerPixel);
  }

  /**
   A reduced channel depends only on the samples of that channel inside the whole windows:
   samples past `pixelCount * kSamplesPerPixel` never matter.
   */
  lemma ReduceChannelReadsOnlyWholeWindows(c1: seq<real>, len1: nat, c2: seq<real>, len2: nat)
    requires len1 <= |c1| && len2 <= |c2|
    requires PixelCount(len1) == PixelCount(len2)
    requires c1[..PixelCount(len1) * SamplesPerPixel] == c2[..PixelCount(len2) * SamplesPerPixel]
    ensures ReduceChannel(c1, len1) == ReduceChannel(c2, len2)
  {
    forall n | 0 <= n < PixelCount(len1)
      ensures ReduceChannel(c1, len1)[n] == ReduceChannel(c2, len2)[n]
    {
      ReducedPointsAgree(c1, len1, c2, len2, n);
    }
  }

  /**
   The left pane reads only channel 0 and the right pane only channel 1, and neither reads
   frames past the last whole window.
   */
  lemma PanesReadOnlyTheirChannel(b1: PcmBuffer, b2: PcmBuffer)
    requires Readable(b1) && Readable(b2)
    requires PixelCount(b1.frameLength) == PixelCount(b2.frameLength)
    ensures b1.channels[0][..PixelCount(b1.frameLength) * SamplesPerPixel] ==
            b2.channels[0][..PixelCount(b2.frameLength) * SamplesPerPixel]
            ==> ConvertToVisualData(b1).left == ConvertToVisualData(b2).left
    ensures b1.channels[1][..PixelCount(b1.frameLength) * SamplesPerPixel] ==
            b2.channels[1][..PixelCount(b2.frameLength) * SamplesPerPixel]
            ==> ConvertToVisualData(b1).right == ConvertToVisualData(b2).right
  {
    if b1.channels[0][..PixelCount(b1.frameLength) * SamplesPerPixel] ==
       b2.channels[0][..PixelCount(b2.frameLength) * SamplesPerPixel] {
      ReduceChannelReadsOnlyWholeWindows(b1.channels[0], b1.frameLength, b2.channels[0], b2.frameLength);
    }
    if b1.channels[1][..PixelCount(b1.frameLength) * SamplesPerPixel] ==
       b2.channels[1][..PixelCount(b2.frameLength) * SamplesPerPixel] {
      ReduceChannelReadsOnlyWholeWindows(b1.channels[1], b1.frameLength, b2.channels[1], b2.frameLength);
    }
  }
}
