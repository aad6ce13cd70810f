/** Artifact repair of one raw EEG window (PreprocessEEG.clean_data).

    A sample is missing when it is exactly 0 (a dropped reading) or above the
    ADC's largest code 4096 (saturation). clean_data marks the missing samples
    with NaN in a float array, then overwrites exactly those slots with
    np.interp over the sample index, using the valid samples as reference
    points. Of the notch and band-pass filters that follow (preprocess), only
    the length check filtfilt makes on its input is modelled, not the
    filtered values. */
module Preprocess {
  import opened Common

  /** Largest code the ADC can produce. */
  const DEVICE_MAX: int := 4096

  /** np.interp's complaint when it is given no reference points. */
  const EMPTY_SAMPLE_POINTS: string := "array of sample points is empty"

  /** A sample that clean_data overwrites with NaN. */
  predicate Missing(v: int) {
    v == 0 || v > DEVICE_MAX
  }

  predicate Increasing(xs: seq<int>) {
    forall a, b :: 0 <= a < b < |xs| ==> xs[a] < xs[b]
  }

  /** The indices j of s with Missing(s[j]) == missing, in increasing order:
      numpy's `indices[np.isnan(data)]` (missing) and `indices[~np.isnan(data)]`
      (valid). */
  function IndicesWhere(s: seq<int>, missing: bool): (r: seq<int>)
    ensures forall k :: 0 <= k < |r| ==> 0 <= r[k] < |s| && Missing(s[r[k]]) == missing
    ensures Increasing(r)
    decreases |s|
  {
    if s == [] then []
    else
      var last := |s| - 1;
      IndicesWhere(s[..last], missing) + (if Missing(s[last]) == missing then [last] else [])
  }

  /** Every index with the requested status is listed. */
  lemma {:induction false} IndicesWhereComplete(s: seq<int>, missing: bool, j: int)
    requires 0 <= j < |s| && Missing(s[j]) == missing
    ensures j in IndicesWhere(s, missing)
    decreases |s|
  {
    var last := |s| - 1;
    if j < last {
      assert s[..last][j] == s[j];
      IndicesWhereComplete(s[..last], missing, j);
    }
  }

  /** `data[valid_indices]`: the samples at the given indices, as float64 values. */
  function ValuesAt(s: seq<int>, idx: seq<int>): seq<real>
    requires forall k :: 0 <= k < |idx| ==> 0 <= idx[k] < |s|
  {
    seq(|idx|, k requires 0 <= k < |idx| => s[idx[k]] as real)
  }

  /** The straight line through (x0, y0) and (x1, y1), evaluated at x. */
  function Lerp(x0: int, y0: real, x1: int, y1: real, x: int): real
    requires x0 < x1
  {
    y0 + (x - x0) as real * (y1 - y0) / (x1 - x0) as real
  }

  /** np.interp(x, xp, fp) for increasing sample points xp: linear between the
      two sample points around x, fp[0] left of xp[0], the last fp right of the
      last xp. */
  function Interp(x: int, xp: seq<int>, fp: seq<real>): real
    requires |xp| == |fp| > 0 && Increasing(xp)
    decreases |xp|
  {
    if x <= xp[0] || |xp| == 1 then fp[0]
    else if x <= xp[1] then Lerp(xp[0], fp[0], xp[1], fp[1], x)
    else Interp(x, xp[1..], fp[1..])
  }

  /** What clean_data returns for the window s: every valid sample as it was,
      every missing sample replaced by np.interp over the valid ones; np.interp
      raises when there are missing samples but no valid one. */
  function CleanSpec(s: seq<int>): Result<seq<real>>
  {
    var valid := IndicesWhere(s, false);
    var invalid := IndicesWhere(s, true);
    if |invalid| > 0 && |valid| == 0 then Err(EMPTY_SAMPLE_POINTS)
    else
      Ok(seq(|s|, i requires 0 <= i < |s| =>
        if Missing(s[i]) then Interp(i, valid, ValuesAt(s, valid)) else s[i] as real))
  }

  /** `np.array(data, dtype=np.float64)` followed by the two masking
      assignments `data[data == 0] = nan` and `data[data > 4096] = nan`;
      isNaN[j] stands for "slot j holds NaN". */
  method MarkMissing(data: seq<int>) returns (buf: array<real>, isNaN: array<bool>)
    ensures fresh(buf) && fresh(isNaN)
    ensures buf.Length == isNaN.Length == |data|
    ensures forall j :: 0 <= j < |data| ==> buf[j] == data[j] as real
    ensures forall j :: 0 <= j < |data| ==> isNaN[j] == Missing(data[j])
  {
    buf := new real[|data|];
    isNaN := new bool[|data|];
    for i := 0 to |data|
      invariant forall j :: 0 <= j < i ==> buf[j] == data[j] as real
      invariant forall j :: 0 <= j < i ==> isNaN[j] == (data[j] == 0)
    {
      buf[i] := data[i] as real;
      isNaN[i] := buf[i] == 0.0;
    }
    for i := 0 to |data|
      invariant forall j :: 0 <= j < |data| ==> buf[j] == data[j] as real
      invariant forall j :: 0 <= j < i ==> isNaN[j] == Missing(data[j])
      invariant forall j :: i <= j < |data| ==> isNaN[j] == (data[j] == 0)
    {
      // NaN compares false, so a slot that is already NaN stays NaN.
      if !isNaN[i] && buf[i] > DEVICE_MAX as real {
        isNaN[i] := true;
      }
    }
  }

  /** `valid_indices`, `invalid_indices` and `data[valid_indices]`, read off
      the NaN mask. */
  method SplitIndices(data: seq<int>, isNaN: array<bool>)
      returns (valid: seq<int>, invalid: seq<int>, values: seq<real>)
    requires isNaN.Length == |data|
    requires forall j :: 0 <= j < |data| ==> isNaN[j] == Missing(data[j])
    ensures valid == IndicesWhere(data, false)
    ensures invalid == IndicesWhere(data, true)
    ensures values == ValuesAt(data, valid)
  {
    valid, invalid, values := [], [], [];
    for i := 0 to |data|
      invariant valid == IndicesWhere(data[..i], false)
      invariant invalid == IndicesWhere(data[..i], true)
      invariant |values| == |valid|
      invariant forall k :: 0 <= k < |valid| ==> values[k] == data[valid[k]] as real
    {
      assert data[..i + 1][..i] == data[..i];
      if isNaN[i] {
        invalid := invalid + [i];
      } else {
        valid := valid + [i];
        values := values + [data[i] as real];
      }
    }
    assert data[..|data|] == data;
  }

  /** `data[invalid_indices] = np.interp(invalid_indices, valid_indices, ...)`:
      the listed slots are written and every other slot keeps its value. */
  method FillMissing(buf: array<real>, ghost data: seq<int>, invalid: seq<int>, valid: seq<int>, values: seq<real>)
    requires |valid| == |values| > 0 && Increasing(valid) && Increasing(invalid)
    requires buf.Length == |data|
    requires forall m :: 0 <= m < |invalid| ==> 0 <= invalid[m] < |data| && Missing(data[invalid[m]])
    modifies buf
    ensures forall j :: 0 <= j < buf.Length && j !in invalid ==> buf[j] == old(buf[j])
    ensures forall j :: 0 <= j < buf.Length && !Missing(data[j]) ==> buf[j] == old(buf[j])
    ensures forall m :: 0 <= m < |invalid| ==> buf[invalid[m]] == Interp(invalid[m], valid, values)
  {
    for k := 0 to |invalid|
      invariant forall j :: 0 <= j < buf.Length && j !in invalid[..k] ==> buf[j] == old(buf[j])
      invariant forall j :: 0 <= j < buf.Length && !Missing(data[j]) ==> buf[j] == old(buf[j])
      invariant forall m :: 0 <= m < k ==> buf[invalid[m]] == Interp(invalid[m], valid, values)
    {
      buf[invalid[k]] := Interp(invalid[k], valid, values);
    }
  }

  /** clean_data: repair the window or fail as np.interp does without
      reference points. */
  method CleanData(data: seq<int>) returns (r: Result<seq<real>>)
    ensures r == CleanSpec(data)
  {
    var buf, isNaN := MarkMissing(data);
    var valid, invalid, values := SplitIndices(data, isNaN);
    if |invalid| > 0 {
      if |valid| == 0 {
        return Err(EMPTY_SAMPLE_POINTS);
      }
      FillMissing(buf, data, invalid, valid, values);
    }
    forall j | 0 <= j < |data|
      ensures buf[j] == CleanSpec(data).value[j]
    {
      if Missing(data[j]) {
        IndicesWhereComplete(data, true, j);
      }
    }
    r := Ok(buf[..]);
    assert buf[..] == CleanSpec(data).value;
  }

  // ---------------------------------------------------------------------
  // np.interp on one segment and at the two ends

  lemma {:induction false} InterpOnSegment(x: int, xp: seq<int>, fp: seq<real>, k: nat)
    requires |xp| == |fp| > 0 && Increasing(xp)
    requires k + 1 < |xp| && xp[k] < x <= xp[k + 1]
    ensures Interp(x, xp, fp) == Lerp(xp[k], fp[k], xp[k + 1], fp[k + 1], x)
    decreases k
  {
    if k > 0 {
      assert xp[1] <= xp[k] < x;
      InterpOnSegment(x, xp[1..], fp[1..], k - 1);
    } else {
      assert xp[0] < x <= xp[1];
    }
  }

  lemma {:induction false} InterpRightOfLast(x: int, xp: seq<int>, fp: seq<real>)
    requires |xp| == |fp| > 0 && Increasing(xp)
    requires xp[|xp| - 1] <= x
    ensures Interp(x, xp, fp) == fp[|fp| - 1]
    decreases |xp|
  {
    if |xp| > 2 {
      assert xp[1] < xp[|xp| - 1];
      InterpRightOfLast(x, xp[1..], fp[1..]);
    } else if |xp| == 2 {
      if x <= xp[1] {
        LerpAtRightEnd(xp[0], fp[0], xp[1], fp[1]);
      }
    }
  }

  lemma LerpAtRightEnd(x0: int, y0: real, x1: int, y1: real)
    requires x0 < x1
    ensures Lerp(x0, y0, x1, y1, x1) == y1
  {
    var d := (x1 - x0) as real;
    assert d * (y1 - y0) / d == y1 - y0;
  }

  // ---------------------------------------------------------------------
  // Where IndicesWhere puts a given index

  /** No index has the requested status: nothing is listed. */
  lemma {:induction false} NoneListed(s: seq<int>, missing: bool)
    requires forall j :: 0 <= j < |s| ==> Missing(s[j]) != missing
    ensures IndicesWhere(s, missing) == []
    decreases |s|
  {
    if s != [] {
      NoneListed(s[..|s| - 1], missing);
    }
  }

  /** The first index with the requested status heads the list. */
  lemma {:induction false} FirstListed(s: seq<int>, missing: bool, first: int)
    requires 0 <= first < |s| && Missing(s[first]) == missing
    requires forall j :: 0 <= j < first ==> Missing(s[j]) != missing
    ensures |IndicesWhere(s, missing)| > 0 && IndicesWhere(s, missing)[0] == first
    decreases |s|
  {
    var last := |s| - 1;
    if last == first {
      NoneListed(s[..last], missing);
    } else {
      FirstListed(s[..last], missing, first);
    }
  }

  /** The last index with the requested status ends the list. */
  lemma {:induction false} LastListed(s: seq<int>, missing: bool, final: int)
    requires 0 <= final < |s| && Missing(s[final]) == missing
    requires forall j :: final < j < |s| ==> Missing(s[j]) != missing
    ensures var r := IndicesWhere(s, missing); |r| > 0 && r[|r| - 1] == final
    decreases |s|
  {
    var last := |s| - 1;
    if last != final {
      LastListed(s[..last], missing, final);
    }
  }

  /** Two indices with the requested status and none between them are
      neighbours in the list. */
  lemma {:induction false} ConsecutiveListed(s: seq<int>, missing: bool, lo: int, hi: int)
      returns (k: nat)
    requires 0 <= lo < hi < |s| && Missing(s[lo]) == missing && Missing(s[hi]) == missing
    requires forall j :: lo < j < hi ==> Missing(s[j]) != missing
    ensures var r := IndicesWhere(s, missing); k + 1 < |r| && r[k] == lo && r[k + 1] == hi
    decreases |s|
  {
    var last := |s| - 1;
    if last == hi {
      LastListed(s[..last], missing, lo);
      k := |IndicesWhere(s[..last], missing)| - 1;
    } else {
      k := ConsecutiveListed(s[..last], missing, lo, hi);
    }
  }

  // ---------------------------------------------------------------------
  // What clean_data promises

  /** The repaired window has the input's length, and every valid sample
      (non-zero and at most 4096, negative values included) is returned as it
      was. */
  lemma CleanKeepsValidSamples(s: seq<int>)
    requires CleanSpec(s).Ok?
    ensures |CleanSpec(s).value| == |s|
    ensures forall i :: 0 <= i < |s| && !Missing(s[i]) ==> CleanSpec(s).value[i] == s[i] as real
  {
  }

  /** clean_data fails exactly when the window is non-empty and every sample
      is missing: np.interp then has no reference points. */
  lemma CleanFailsIffAllMissing(s: seq<int>)
    ensures CleanSpec(s).Err? <==> |s| > 0 && forall i :: 0 <= i < |s| ==> Missing(s[i])
  {
    if |s| > 0 && forall i :: 0 <= i < |s| ==> Missing(s[i]) {
      NoneListed(s, false);
      IndicesWhereComplete(s, true, 0);
    } else if |s| == 0 {
      assert IndicesWhere(s, true) == [];
    } else {
      var i :| 0 <= i < |s| && !Missing(s[i]);
      IndicesWhereComplete(s, false, i);
    }
  }

  /** A window without missing samples comes back unchanged (as floats). */
  lemma CleanWithoutMissingIsIdentity(s: seq<int>)
    requires forall i :: 0 <= i < |s| ==> !Missing(s[i])
    ensures CleanSpec(s) == Ok(seq(|s|, i requires 0 <= i < |s| => s[i] as real))
  {
    NoneListed(s, true);
    var expected := seq(|s|, i requires 0 <= i < |s| => s[i] as real);
    assert CleanSpec(s).value == expected;
  }

  /** A missing sample strictly between two valid samples lo and hi, with only
      missing samples between them, gets the linear interpolation at its index
      between (lo, s[lo]) and (hi, s[hi]). */
  lemma CleanInterpolatesBetweenNeighbours(s: seq<int>, lo: nat, i: nat, hi: nat)
    requires lo < i < hi < |s|
    requires !Missing(s[lo]) && !Missing(s[hi])
    requires forall j :: lo < j < hi ==> Missing(s[j])
    ensures CleanSpec(s).Ok?
    ensures CleanSpec(s).value[i] == Lerp(lo, s[lo] as real, hi, s[hi] as real, i)
  {
    var valid := IndicesWhere(s, false);
    var k := ConsecutiveListed(s, false, lo, hi);
    assert Missing(s[i]);
    InterpOnSegment(i, valid, ValuesAt(s, valid), k);
  }

  /** The interpolated value lies between the values of the two neighbours. */
  lemma CleanInterpolationWithinNeighbours(s: seq<int>, lo: nat, i: nat, hi: nat)
    requires lo < i < hi < |s|
    requires !Missing(s[lo]) && !Missing(s[hi])
    requires forall j :: lo < j < hi ==> Missing(s[j])
    ensures CleanSpec(s).Ok?
    ensures s[lo] <= s[hi] ==> s[lo] as real <= CleanSpec(s).value[i] <= s[hi] as real
    ensures s[hi] <= s[lo] ==> s[hi] as real <= CleanSpec(s).value[i] <= s[lo] as real
  {
    CleanInterpolatesBetweenNeighbours(s, lo, i, hi);
    LerpBetween(lo, s[lo] as real, hi, s[hi] as real, i);
  }

  lemma LerpBetween(x0: int, y0: real, x1: int, y1: real, x: int)
    requires x0 <= x <= x1 && x0 < x1
    ensures y0 <= y1 ==> y0 <= Lerp(x0, y0, x1, y1, x) <= y1
    ensures y1 <= y0 ==> y1 <= Lerp(x0, y0, x1, y1, x) <= y0
  {
    var a := (x - x0) as real;
    var d := (x1 - x0) as real;
    var dy := y1 - y0;
    var q := a * dy / d;
    assert Lerp(x0, y0, x1, y1, x) == y0 + q;
    assert q * d == a * dy;
    if dy >= 0.0 {
      assert 0.0 <= a * dy;
      assert a * dy <= d * dy by {
        assert (d - a) * dy >= 0.0;
      }
      assert 0.0 <= q <= dy;
    } else {
      assert a * dy <= 0.0;
      assert d * dy <= a * dy by {
        assert (d - a) * (-dy) >= 0.0;
      }
      assert dy <= q <= 0.0;
    }
  }

  /** Missing samples before the first valid sample take that sample's value. */
  lemma CleanClampsBeforeFirstValid(s: seq<int>, i: nat, first: nat)
    requires i < first < |s| && !Missing(s[first])
    requires forall j :: 0 <= j < first ==> Missing(s[j])
    ensures CleanSpec(s).Ok? && CleanSpec(s).value[i] == s[first] as real
  {
    FirstListed(s, false, first);
    assert Missing(s[i]);
  }

  /** Missing samples after the last valid sample take that sample's value. */
  lemma CleanClampsAfterLastValid(s: seq<int>, last: nat, i: nat)
    requires last < i < |s| && !Missing(s[last])
    requires forall j :: last < j < |s| ==> Missing(s[j])
    ensures CleanSpec(s).Ok? && CleanSpec(s).value[i] == s[last] as real
  {
    var valid := IndicesWhere(s, false);
    LastListed(s, false, last);
    assert Missing(s[i]);
    InterpRightOfLast(i, valid, ValuesAt(s, valid));
  }

  /** The example window of the module's script: index 3 (4098, saturated)
      becomes 2295.0 and the dropped samples 13..15 become 1031.25, 2052.5 and
      3073.75. */
  lemma CleanExampleWindow()
    ensures var s := [1, 2, 4090, 4098, 500, 3, 4, 5, 6, 7, 8, 9, 10, 0, 0, 0, 4095];
      && CleanSpec(s).Ok?
      && CleanSpec(s).value[3] == 2295.0
      && CleanSpec(s).value[13] == 1031.25
      && CleanSpec(s).value[14] == 2052.5
      && CleanSpec(s).value[15] == 3073.75
  {
    var s := [1, 2, 4090, 4098, 500, 3, 4, 5, 6, 7, 8, 9, 10, 0, 0, 0, 4095];
    CleanInterpolatesBetweenNeighbours(s, 2, 3, 4);
    CleanInterpolatesBetweenNeighbours(s, 12, 13, 16);
    CleanInterpolatesBetweenNeighbours(s, 12, 14, 16);
    CleanInterpolatesBetweenNeighbours(s, 12, 15, 16);
  }

  // ---------------------------------------------------------------------
  // preprocess: clean_data, then apply_filter's two filtfilt passes

  /** initialize_filter: iirnotch gives a second-order section (3
      coefficients each side); butter(4, [low, high], btype='band') is a
      band-pass of order 2 * 4, with 9 coefficients each side. */
  const NOTCH_COEFFICIENTS: nat := 3
  const BAND_PASS_ORDER: nat := 4
  const BAND_PASS_COEFFICIENTS: nat := 2 * BAND_PASS_ORDER + 1

  /** filtfilt's ValueError for an input no longer than its padding. */
  const INPUT_TOO_SHORT: string := "The length of the input vector x must be greater than padlen"

  /** filtfilt's default padding, 3 * max(len(a), len(b)). */
  function PadLen(coefficients: nat): nat {
    3 * coefficients
  }

  /** apply_filter runs filtfilt with the notch filter and then with the
      band-pass filter; each raises when its input is not longer than its
      padding (the filtered signal keeps the input's length). */
  predicate FilterRaises(n: nat) {
    n <= PadLen(NOTCH_COEFFICIENTS) || n <= PadLen(BAND_PASS_COEFFICIENTS)
  }

  /** preprocess up to the filtered values: clean_data's exception, then
      apply_filter's; otherwise the cleaned window the filters receive. */
  function PreprocessOutcome(s: seq<int>): Result<seq<real>> {
    match CleanSpec(s)
    case Err(e) => Err(e)
    case Ok(clean) => if FilterRaises(|clean|) then Err(INPUT_TOO_SHORT) else Ok(clean)
  }

  /** The filters raise exactly on windows of at most 27 samples. */
  lemma FilterRaisesIffShort(n: nat)
    ensures FilterRaises(n) <==> n <= 27
  {
  }

  /** preprocess succeeds exactly when clean_data does and the window is
      longer than the band-pass padding; it then hands on the cleaned
      window. */
  lemma PreprocessOutcomeCases(s: seq<int>)
    ensures PreprocessOutcome(s).Ok? <==> CleanSpec(s).Ok? && |s| > PadLen(BAND_PASS_COEFFICIENTS)
    ensures CleanSpec(s).Err? ==> PreprocessOutcome(s) == CleanSpec(s)
    ensures PreprocessOutcome(s).Ok? ==> PreprocessOutcome(s).value == CleanSpec(s).value
    ensures CleanSpec(s).Ok? && 0 < |s| <= 27 ==> PreprocessOutcome(s) == Err(INPUT_TOO_SHORT)
  {
  }
}
