/** The two small array helpers of saxs_nxformat/utils.py, over exact reals:
    `detect_variation` (the indices where a profile jumps by more than a threshold)
    and `mobile_mean` (a moving average by `np.convolve` in `valid` mode). */
module Numerics {
  import opened Wrappers
  import opened PyValues

  function Sum(s: seq<real>): real
    decreases |s|
  {
    if |s| == 0 then 0.0 else s[0] + Sum(s[1..])
  }

  /** `np.where(np.diff(a) > threshold)[0] + 1`, built up element by element. */
  function DetectVariation(a: seq<real>, threshold: real): (r: seq<nat>)
    ensures |a| >= 2 ==> |r| <= |a| - 1
    decreases |a|
  {
    if |a| < 2 then []
    else
      var last := |a| - 1;
      DetectVariation(a[..last], threshold) + if a[last] - a[last - 1] > threshold then [last] else []
  }

  /** `mobile_mean(data, n)`: `np.convolve(data, ones(n) / n, mode='valid')`. An even
      window is refused by the function itself, a negative one by `np.ones`, an empty
      `data` by `np.convolve`; a window longer than the data gives `n - len + 1`
      copies of `sum(data) / n`, as `convolve` swaps its arguments. */
  function MobileMean(data: seq<real>, n: int): (r: Result<seq<real>, PyError>)
    ensures r.Err? <==> n % 2 == 0 || n < 0 || |data| == 0
    ensures r.Ok? && n <= |data| ==> |r.value| == |data| - n + 1
    ensures r.Ok? && n > |data| ==> |r.value| == n - |data| + 1
  {
    if n % 2 == 0 then Err(ValueError("nbr_neighbour doit être impair pour un lissage symétrique."))
    else if n < 0 then Err(ValueError("negative dimensions are not allowed"))
    else if |data| == 0 then Err(ValueError("v cannot be empty"))
    else if n <= |data| then Ok(seq(|data| - n + 1, k requires 0 <= k <= |data| - n => Sum(data[k..k + n]) / n as real))
    else Ok(seq(n - |data| + 1, k => Sum(data) / n as real))
  }

  // ------------------------------------------------------------ lemmas

  /** A sum of `m` values between `lo` and `hi` lies between `m * lo` and `m * hi`. */
  lemma {:induction false} SumBounds(s: seq<real>, lo: real, hi: real)
    requires forall i | 0 <= i < |s| :: lo <= s[i] <= hi
    ensures |s| as real * lo <= Sum(s) <= |s| as real * hi
    decreases |s|
  {
    if |s| > 0 {
      SumBounds(s[1..], lo, hi);
    }
  }

  lemma {:induction false} SumAppend(s: seq<real>, x: real)
    ensures Sum(s + [x]) == Sum(s) + x
    decreases |s|
  {
    if |s| == 0 {
      assert s + [x] == [x];
    } else {
      assert (s + [x])[1..] == s[1..] + [x];
      SumAppend(s[1..], x);
    }
  }

  /** The running sum: the next window drops its first value and takes one more. */
  lemma SlidingWindow(data: seq<real>, k: nat, n: nat)
    requires k + n < |data|
    ensures Sum(data[k + 1..k + 1 + n]) == Sum(data[k..k + n]) - data[k] + data[k + n]
  {
    assert data[k..k + n + 1] == data[k..k + n] + [data[k + n]];
    SumAppend(data[k..k + n], data[k + n]);
    assert data[k..k + n + 1][1..] == data[k + 1..k + 1 + n];
  }

  /** Every smoothed value lies between bounds of its window; with `lo == hi` a
      window of constant data gives that constant back. */
  lemma MobileMeanWithinWindow(data: seq<real>, n: int, k: nat, lo: real, hi: real)
    requires MobileMean(data, n).Ok? && n <= |data| && k < |MobileMean(data, n).value|
    requires forall i | k <= i < k + n :: lo <= data[i] <= hi
    ensures lo <= MobileMean(data, n).value[k] <= hi
  {
    var w := data[k..k + n];
    SumBounds(w, lo, hi);
    assert MobileMean(data, n).value[k] == Sum(w) / n as real;
    MeanBounds(Sum(w), n as real, lo, hi);
  }

  /** A total between `m * lo` and `m * hi` gives a mean between `lo` and `hi`. */
  lemma MeanBounds(total: real, m: real, lo: real, hi: real)
    requires m > 0.0 && m * lo <= total <= m * hi
    ensures lo <= total / m <= hi
  {
    assert total / m - lo == (total - m * lo) / m;
    assert hi - total / m == (m * hi - total) / m;
  }

  /** Consecutive smoothed values differ by the entering value minus the leaving one,
      over the window length. */
  lemma MobileMeanSlides(data: seq<real>, n: int, k: nat)
    requires MobileMean(data, n).Ok? && n <= |data| && k + 1 < |MobileMean(data, n).value|
    ensures var m := MobileMean(data, n).value; m[k + 1] == m[k] + (data[k + n] - data[k]) / n as real
  {
    SlidingWindow(data, k, n);
  }

  /** A window longer than the data repeats `sum(data) / n`: the sum of all the data
      divided by the window length, not by the length of the data. */
  lemma MobileMeanLongWindow(data: seq<real>, n: int, lo: real, hi: real)
    requires MobileMean(data, n).Ok? && n > |data|
    requires forall i | 0 <= i < |data| :: lo <= data[i] <= hi
    ensures forall k | 0 <= k < |MobileMean(data, n).value| ::
      MobileMean(data, n).value[k] * n as real == Sum(data)
    ensures |data| as real * lo <= Sum(data) <= |data| as real * hi
  {
    SumBounds(data, lo, hi);
  }

  /** Every index found is a step over the threshold, below the length, and in order. */
  lemma {:induction false} DetectVariationSound(a: seq<real>, threshold: real)
    ensures forall i, j | 0 <= i < j < |DetectVariation(a, threshold)| ::
      DetectVariation(a, threshold)[i] < DetectVariation(a, threshold)[j]
    ensures forall i | 0 <= i < |DetectVariation(a, threshold)| ::
      var k := DetectVariation(a, threshold)[i]; 1 <= k < |a| && a[k] - a[k - 1] > threshold
    decreases |a|
  {
    if |a| >= 2 {
      var last := |a| - 1;
      var prefix := a[..last];
      DetectVariationSound(prefix, threshold);
      var before := DetectVariation(prefix, threshold);
      var r := DetectVariation(a, threshold);
      assert r == before + if a[last] - a[last - 1] > threshold then [last] else [];
      assert |prefix| == last;
      forall i | 0 <= i < |before|
        ensures r[i] == before[i] && 1 <= r[i] < last && a[r[i]] - a[r[i] - 1] > threshold
      {
        var k := before[i];
        assert 1 <= k < last && prefix[k] - prefix[k - 1] > threshold;
        assert prefix[k] == a[k] && prefix[k - 1] == a[k - 1];
      }
    }
  }

  /** Every step over the threshold is found. */
  lemma {:induction false} DetectVariationComplete(a: seq<real>, threshold: real)
    ensures var r := DetectVariation(a, threshold);
      forall k | 1 <= k < |a| && a[k] - a[k - 1] > threshold :: k in r
    decreases |a|
  {
    if |a| >= 2 {
      var last := |a| - 1;
      var prefix := a[..last];
      DetectVariationComplete(prefix, threshold);
      var before := DetectVariation(prefix, threshold);
      var r := DetectVariation(a, threshold);
      assert r == before + if a[last] - a[last - 1] > threshold then [last] else [];
      forall k | 1 <= k < |a| && a[k] - a[k - 1] > threshold
        ensures k in r
      {
        if k < last {
          assert prefix[k] == a[k] && prefix[k - 1] == a[k - 1];
          assert k in before;
        }
      }
    }
  }
  /** `detect_variation` returns, in ascending order, exactly the indices `k >= 1` at
      which the step from `a[k - 1]` to `a[k]` exceeds the threshold. */
  lemma DetectVariationExact(a: seq<real>, threshold: real)
    ensures var r := DetectVariation(a, threshold);
      && (forall i, j | 0 <= i < j < |r| :: r[i] < r[j])
      && (forall i | 0 <= i < |r| :: 1 <= r[i] < |a| && a[r[i]] - a[r[i] - 1] > threshold)
      && (forall k | 1 <= k < |a| && a[k] - a[k - 1] > threshold :: k in r)
  {
    DetectVariationSound(a, threshold);
    DetectVariationComplete(a, threshold);
  }

  /** `detect_variation` on a profile that jumps once: one index, that of the step. */
  lemma DetectVariationStep()
    ensures DetectVariation([0.0, 0.0, 5.0, 5.0], 1.0) == [2]
  {
    assert [0.0, 0.0, 5.0, 5.0][..3] == [0.0, 0.0, 5.0];
    assert [0.0, 0.0, 5.0][..2] == [0.0, 0.0];
    assert [0.0, 0.0][..1] == [0.0];
  }
}
