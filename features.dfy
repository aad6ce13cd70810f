/** Feature extraction for one conditioned window (services/feature_selection.py,
    FeatureExtractor).

    Welch's PSD estimate is taken as given: a `Spectrum` holds the frequency
    and PSD sequences `signal.welch` returns. The library numerics that are
    not modelled (the power-weighted centroid, log-log polyfit, sqrt and std
    behind rms and the Hjorth terms) come in as a `Numerics` value. What is
    modelled is the selection, guard, counting and ordering logic. */
module Features {
  import opened Common

  /** The fourteen features, one constructor per column name. */
  datatype Feature =
    | EnergyAlpha | EnergyBeta | EnergyTheta | EnergyDelta | AlphaBetaRatioF
    | MaxFreqF | SpectralCentroid | SpectralSlopeF
    | MeanF | VarianceF | Rms | ZeroCrossingsF | HjorthMobility | HjorthComplexity

  /** The column name the source uses for each feature. */
  function Name(f: Feature): string {
    match f
    case EnergyAlpha => "energy_alpha"
    case EnergyBeta => "energy_beta"
    case EnergyTheta => "energy_theta"
    case EnergyDelta => "energy_delta"
    case AlphaBetaRatioF => "alpha_beta_ratio"
    case MaxFreqF => "max_freq"
    case SpectralCentroid => "spectral_centroid"
    case SpectralSlopeF => "spectral_slope"
    case MeanF => "mean"
    case VarianceF => "variance"
    case Rms => "rms"
    case ZeroCrossingsF => "zero_crossings"
    case HjorthMobility => "hjorth_mobility"
    case HjorthComplexity => "hjorth_complexity"
  }

  /** The published order of the 14-element feature row. */
  const COLUMNS: seq<Feature> := [
    EnergyAlpha, EnergyBeta, EnergyTheta, EnergyDelta, AlphaBetaRatioF,
    MaxFreqF, SpectralCentroid, SpectralSlopeF,
    MeanF, VarianceF, Rms, ZeroCrossingsF, HjorthMobility, HjorthComplexity]

  /** A closed frequency interval [low, high] in Hz. */
  datatype Band = Band(low: real, high: real)

  const ALPHA: Band := Band(8.0, 12.0)
  const BETA: Band := Band(14.0, 30.0)
  const THETA: Band := Band(4.0, 7.0)
  const DELTA: Band := Band(0.5, 3.0)

  predicate InBand(f: real, b: Band) {
    b.low <= f <= b.high
  }

  /** The output of `signal.welch(data, fs, nperseg=len(data))`. */
  datatype Spectrum = Spectrum(freqs: seq<real>, psd: seq<real>)

  predicate WellFormed(sp: Spectrum) {
    |sp.freqs| == |sp.psd| > 0
  }

  /** Results of library calls that are not modelled: the centroid
      `sum(freqs * psd) / sum(psd)`, the `polyfit` slope of log(psd) against
      log(freqs) for the bins it is given, and rms / Hjorth mobility /
      Hjorth complexity of the window. */
  datatype Numerics = Numerics(
    centroid: real,
    logLogSlope: (seq<real>, seq<real>) -> real,
    rms: real,
    mobility: real,
    complexity: real)

  function Sum(s: seq<real>): real {
    if s == [] then 0.0 else s[0] + Sum(s[1..])
  }

  // ---------------------------------------------------------------------
  // Band energies and their ratio

  /** `psd[(freqs >= low) & (freqs <= high)]`: the PSD bins inside the band,
      in bin order. */
  function BandBins(freqs: seq<real>, psd: seq<real>, b: Band): seq<real>
    requires |freqs| == |psd|
  {
    if freqs == [] then []
    else (if InBand(freqs[0], b) then [psd[0]] else []) + BandBins(freqs[1..], psd[1..], b)
  }

  /** `np.sum` of the band's bins. */
  function BandEnergy(freqs: seq<real>, psd: seq<real>, b: Band): real
    requires |freqs| == |psd|
  {
    Sum(BandBins(freqs, psd, b))
  }

  /** alpha / beta, guarded to 0 when beta is exactly 0. */
  function AlphaBetaRatio(alpha: real, beta: real): (r: real)
    ensures beta != 0.0 ==> r * beta == alpha
    ensures beta == 0.0 ==> r == 0.0
  {
    if beta != 0.0 then alpha / beta else 0.0
  }

  lemma {:induction false} SumOfConcat(a: seq<real>, b: seq<real>)
    ensures Sum(a + b) == Sum(a) + Sum(b)
    decreases |a|
  {
    if a == [] {
      assert a + b == b;
    } else {
      assert (a + b)[0] == a[0];
      assert (a + b)[1..] == a[1..] + b;
      SumOfConcat(a[1..], b);
    }
  }

  /** A band that holds no bin has energy 0. */
  lemma {:induction false} BandEnergyOfEmptyBand(freqs: seq<real>, psd: seq<real>, b: Band)
    requires |freqs| == |psd|
    requires forall i :: 0 <= i < |freqs| ==> !InBand(freqs[i], b)
    ensures BandEnergy(freqs, psd, b) == 0.0
    decreases |freqs|
  {
    if freqs != [] {
      BandEnergyOfEmptyBand(freqs[1..], psd[1..], b);
      assert !InBand(freqs[0], b);
      assert BandBins(freqs, psd, b) == BandBins(freqs[1..], psd[1..], b);
    }
  }

  /** Band energy is non-negative for a non-negative PSD. */
  lemma {:induction false} BandEnergyNonNegative(freqs: seq<real>, psd: seq<real>, b: Band)
    requires |freqs| == |psd|
    requires forall i :: 0 <= i < |psd| ==> psd[i] >= 0.0
    ensures BandEnergy(freqs, psd, b) >= 0.0
    decreases |freqs|
  {
    if freqs != [] {
      BandEnergyNonNegative(freqs[1..], psd[1..], b);
      SumOfConcat(if InBand(freqs[0], b) then [psd[0]] else [], BandBins(freqs[1..], psd[1..], b));
    }
  }

  /** Band energy adds up over a split of the bins: the energy is the sum of
      each bin's contribution, whatever the bin belongs to. */
  lemma {:induction false} BandEnergySplits(f1: seq<real>, p1: seq<real>, f2: seq<real>, p2: seq<real>, b: Band)
    requires |f1| == |p1| && |f2| == |p2|
    ensures BandEnergy(f1 + f2, p1 + p2, b) == BandEnergy(f1, p1, b) + BandEnergy(f2, p2, b)
    decreases |f1|
  {
    if f1 == [] {
      assert f1 + f2 == f2 && p1 + p2 == p2;
    } else {
      assert (f1 + f2)[1..] == f1[1..] + f2 && (p1 + p2)[1..] == p1[1..] + p2;
      BandEnergySplits(f1[1..], p1[1..], f2, p2, b);
      var head := if InBand(f1[0], b) then [p1[0]] else [];
      SumOfConcat(head, BandBins(f1[1..] + f2, p1[1..] + p2, b));
      SumOfConcat(head, BandBins(f1[1..], p1[1..], b));
    }
  }

  /** The intervals are closed: a bin exactly on either edge counts; a bin is
      counted with its own PSD value and nothing else. */
  lemma BandEdgesCount(b: Band, p: real, q: real)
    requires b.low <= b.high
    ensures BandEnergy([b.low, b.high], [p, q], b) == p + q
    ensures BandEnergy([b.high + 1.0], [p], b) == 0.0
  {
    assert [b.low, b.high][1..] == [b.high] && [b.high][1..] == [];
    assert [p, q][1..] == [q] && [q][1..] == [] && [p][1..] == [];
    assert BandBins([b.high], [q], b) == [q];
    assert BandBins([b.low, b.high], [p, q], b) == [p, q];
    assert BandBins([b.high + 1.0], [p], b) == [];
    assert Sum([p, q]) == p + Sum([q]);
  }

  /** alpha_beta_ratio is 0 exactly when beta energy is 0 or alpha energy is 0. */
  lemma AlphaBetaRatioZeroIff(alpha: real, beta: real)
    ensures AlphaBetaRatio(alpha, beta) == 0.0 <==> beta == 0.0 || alpha == 0.0
  {
  }

  // ---------------------------------------------------------------------
  // Spectral shape

  /** `np.argmax`: the first index holding the largest value. */
  function ArgMax(s: seq<real>): (k: nat)
    requires |s| > 0
    ensures k < |s|
    ensures forall j :: 0 <= j < |s| ==> s[j] <= s[k]
    ensures forall j :: 0 <= j < k ==> s[j] < s[k]
    decreases |s|
  {
    if |s| == 1 then 0
    else
      var k := ArgMax(s[..|s| - 1]);
      if s[|s| - 1] > s[k] then |s| - 1 else k
  }

  /** The two properties of ArgMax pin the index down. */
  lemma ArgMaxUnique(s: seq<real>, k: nat)
    requires k < |s|
    requires forall j :: 0 <= j < |s| ==> s[j] <= s[k]
    requires forall j :: 0 <= j < k ==> s[j] < s[k]
    ensures k == ArgMax(s)
  {
    var m := ArgMax(s);
    assert s[m] <= s[k] && s[k] <= s[m];
  }

  /** `freqs[np.argmax(psd)]`. */
  function MaxFreq(sp: Spectrum): real
    requires WellFormed(sp)
  {
    sp.freqs[ArgMax(sp.psd)]
  }

  /** The slope of the log-log fit, over the bins from index 1 on. */
  function SpectralSlope(sp: Spectrum, lib: Numerics): real
    requires WellFormed(sp)
  {
    lib.logLogSlope(sp.freqs[1..], sp.psd[1..])
  }

  /** max_freq is the frequency of the first bin holding the largest PSD value. */
  lemma MaxFreqIsFirstPeak(sp: Spectrum)
    requires WellFormed(sp)
    ensures exists k :: (0 <= k < |sp.psd| && MaxFreq(sp) == sp.freqs[k]
      && (forall j :: 0 <= j < |sp.psd| ==> sp.psd[j] <= sp.psd[k])
      && (forall j :: 0 <= j < k ==> sp.psd[j] < sp.psd[k]))
  {
    var k := ArgMax(sp.psd);
    assert MaxFreq(sp) == sp.freqs[k];
  }

  /** The zero-frequency bin does not take part in the slope: two spectra
      that agree from bin 1 on have the same slope. */
  lemma SlopeIgnoresZeroBin(sp1: Spectrum, sp2: Spectrum, lib: Numerics)
    requires WellFormed(sp1) && WellFormed(sp2)
    requires sp1.freqs[1..] == sp2.freqs[1..] && sp1.psd[1..] == sp2.psd[1..]
    ensures SpectralSlope(sp1, lib) == SpectralSlope(sp2, lib)
  {
  }

  // ---------------------------------------------------------------------
  // Temporal descriptors

  /** `np.mean`. */
  function Mean(s: seq<real>): real
    requires |s| > 0
  {
    Sum(s) / |s| as real
  }

  function SumSquaredDeviations(s: seq<real>, m: real): real {
    if s == [] then 0.0 else (s[0] - m) * (s[0] - m) + SumSquaredDeviations(s[1..], m)
  }

  /** `np.var`: the population variance, mean squared deviation from the mean. */
  function Variance(s: seq<real>): real
    requires |s| > 0
  {
    SumSquaredDeviations(s, Mean(s)) / |s| as real
  }

  /** `np.sign`. */
  function Sign(x: real): int {
    if x > 0.0 then 1 else if x < 0.0 then -1 else 0
  }

  /** `np.sum(np.diff(np.sign(data)) != 0)`: adjacent pairs whose signs differ. */
  function ZeroCrossings(s: seq<real>): (r: nat)
    ensures |s| > 0 ==> r <= |s| - 1
    decreases |s|
  {
    if |s| < 2 then 0
    else
      var n := |s|;
      ZeroCrossings(s[..n - 1]) + (if Sign(s[n - 2]) != Sign(s[n - 1]) then 1 else 0)
  }

  /** The indices i at which the sign changes between s[i] and s[i + 1]. */
  predicate SignChangesAt(s: seq<real>, i: int)
    requires 0 <= i < |s| - 1
  {
    Sign(s[i]) != Sign(s[i + 1])
  }

  function SignChanges(s: seq<real>): set<int> {
    set i | 0 <= i < |s| - 1 && SignChangesAt(s, i)
  }

  /** zero_crossings counts exactly the positions where the sign changes. */
  lemma {:induction false} ZeroCrossingsCountSignChanges(s: seq<real>)
    ensures ZeroCrossings(s) == |SignChanges(s)|
    decreases |s|
  {
    if |s| < 2 {
      assert SignChanges(s) == {};
    } else {
      var n := |s|;
      var p := s[..n - 1];
      ZeroCrossingsCountSignChanges(p);
      if Sign(s[n - 2]) != Sign(s[n - 1]) {
        assert SignChanges(s) == SignChanges(p) + {n - 2};
        assert n - 2 !in SignChanges(p);
      } else {
        assert SignChanges(s) == SignChanges(p);
      }
    }
  }

  lemma SquareNonNegative(d: real)
    ensures d * d >= 0.0
  {
    if d < 0.0 {
      assert d * d == (-d) * (-d);
    }
  }

  lemma {:induction false} SumSquaredDeviationsNonNegative(s: seq<real>, m: real)
    ensures SumSquaredDeviations(s, m) >= 0.0
    decreases |s|
  {
    if s != [] {
      SumSquaredDeviationsNonNegative(s[1..], m);
      SquareNonNegative(s[0] - m);
    }
  }

  /** The variance is never negative. */
  lemma VarianceNonNegative(s: seq<real>)
    requires |s| > 0
    ensures Variance(s) >= 0.0
  {
    SumSquaredDeviationsNonNegative(s, Mean(s));
  }

  lemma {:induction false} SumBounds(s: seq<real>, lo: real, hi: real)
    requires forall i :: 0 <= i < |s| ==> lo <= s[i] <= hi
    ensures |s| as real * lo <= Sum(s) <= |s| as real * hi
    decreases |s|
  {
    if s != [] {
      SumBounds(s[1..], lo, hi);
    }
  }

  /** The mean lies between any lower and upper bound of the samples. */
  lemma MeanWithinBounds(s: seq<real>, lo: real, hi: real)
    requires |s| > 0
    requires forall i :: 0 <= i < |s| ==> lo <= s[i] <= hi
    ensures lo <= Mean(s) <= hi
  {
    SumBounds(s, lo, hi);
    var n := |s| as real;
    assert Mean(s) * n == Sum(s);
    assert lo * n <= Mean(s) * n <= hi * n;
  }

  lemma {:induction false} SumSquaredDeviationsOfConstant(s: seq<real>, c: real)
    requires forall i :: 0 <= i < |s| ==> s[i] == c
    ensures SumSquaredDeviations(s, c) == 0.0
    decreases |s|
  {
    if s != [] {
      SumSquaredDeviationsOfConstant(s[1..], c);
    }
  }

  /** A constant window has that constant as its mean, no variance and no
      zero crossing. */
  lemma ConstantWindow(s: seq<real>, c: real)
    requires |s| > 0
    requires forall i :: 0 <= i < |s| ==> s[i] == c
    ensures Mean(s) == c && Variance(s) == 0.0 && ZeroCrossings(s) == 0
  {
    MeanWithinBounds(s, c, c);
    SumSquaredDeviationsOfConstant(s, c);
    ZeroCrossingsCountSignChanges(s);
    assert SignChanges(s) == {};
  }

  // ---------------------------------------------------------------------
  // The three feature groups and the row

  const PSD_KEYS: set<Feature> := {EnergyAlpha, EnergyBeta, EnergyTheta, EnergyDelta, AlphaBetaRatioF}
  const SPECTRAL_KEYS: set<Feature> := {MaxFreqF, SpectralCentroid, SpectralSlopeF}
  const TEMPORAL_KEYS: set<Feature> := {MeanF, VarianceF, Rms, ZeroCrossingsF, HjorthMobility, HjorthComplexity}

  function PsdValue(f: Feature, sp: Spectrum): real
    requires WellFormed(sp) && f in PSD_KEYS
  {
    var alpha := BandEnergy(sp.freqs, sp.psd, ALPHA);
    var beta := BandEnergy(sp.freqs, sp.psd, BETA);
    match f
    case EnergyAlpha => alpha
    case EnergyBeta => beta
    case EnergyTheta => BandEnergy(sp.freqs, sp.psd, THETA)
    case EnergyDelta => BandEnergy(sp.freqs, sp.psd, DELTA)
    case _ => AlphaBetaRatio(alpha, beta)
  }

  function SpectralValue(f: Feature, sp: Spectrum, lib: Numerics): real
    requires WellFormed(sp) && f in SPECTRAL_KEYS
  {
    match f
    case MaxFreqF => MaxFreq(sp)
    case SpectralCentroid => lib.centroid
    case _ => SpectralSlope(sp, lib)
  }

  function TemporalValue(f: Feature, data: seq<real>, lib: Numerics): real
    requires |data| > 0 && f in TEMPORAL_KEYS
  {
    match f
    case MeanF => Mean(data)
    case VarianceF => Variance(data)
    case Rms => lib.rms
    case ZeroCrossingsF => ZeroCrossings(data) as real
    case HjorthMobility => lib.mobility
    case _ => lib.complexity
  }

  /** calculate_psd_features. */
  function PsdFeatures(sp: Spectrum): map<Feature, real>
    requires WellFormed(sp)
  {
    map f | f in PSD_KEYS :: PsdValue(f, sp)
  }

  /** calculate_spectral_features. */
  function SpectralFeatures(sp: Spectrum, lib: Numerics): map<Feature, real>
    requires WellFormed(sp)
  {
    map f | f in SPECTRAL_KEYS :: SpectralValue(f, sp, lib)
  }

  /** calculate_temporal_features. */
  function TemporalFeatures(data: seq<real>, lib: Numerics): map<Feature, real>
    requires |data| > 0
  {
    map f | f in TEMPORAL_KEYS :: TemporalValue(f, data, lib)
  }

  /** `{**psd_features, **spectral_features, **temporal_features}`. */
  function MergedFeatures(data: seq<real>, sp: Spectrum, lib: Numerics): map<Feature, real>
    requires |data| > 0 && WellFormed(sp)
  {
    PsdFeatures(sp) + SpectralFeatures(sp, lib) + TemporalFeatures(data, lib)
  }

  /** Each feature belongs to one of the three groups. */
  lemma FeatureHasGroup(c: Feature)
    ensures c in PSD_KEYS || c in SPECTRAL_KEYS || c in TEMPORAL_KEYS
  {
  }

  /** The groups have no key in common, so the merge drops nothing: every
      feature of a group is a key of the merged mapping and keeps its
      group's value. */
  lemma MergedKeepsPsd(data: seq<real>, sp: Spectrum, lib: Numerics)
    requires |data| > 0 && WellFormed(sp)
    ensures forall c :: c in PSD_KEYS ==>
      c in MergedFeatures(data, sp, lib) && MergedFeatures(data, sp, lib)[c] == PsdValue(c, sp)
  {
  }

  lemma MergedKeepsSpectral(data: seq<real>, sp: Spectrum, lib: Numerics)
    requires |data| > 0 && WellFormed(sp)
    ensures forall c :: c in SPECTRAL_KEYS ==>
      c in MergedFeatures(data, sp, lib) && MergedFeatures(data, sp, lib)[c] == SpectralValue(c, sp, lib)
  {
  }

  lemma MergedKeepsTemporal(data: seq<real>, sp: Spectrum, lib: Numerics)
    requires |data| > 0 && WellFormed(sp)
    ensures forall c :: c in TEMPORAL_KEYS ==>
      c in MergedFeatures(data, sp, lib) && MergedFeatures(data, sp, lib)[c] == TemporalValue(c, data, lib)
  {
  }

  /** The merged mapping has all 14 column names as keys. */
  lemma MergedFeaturesKeys(data: seq<real>, sp: Spectrum, lib: Numerics)
    requires |data| > 0 && WellFormed(sp)
    ensures forall c: Feature :: c in MergedFeatures(data, sp, lib)
  {
    MergedKeepsPsd(data, sp, lib);
    MergedKeepsSpectral(data, sp, lib);
    MergedKeepsTemporal(data, sp, lib);
    forall c: Feature
      ensures c in MergedFeatures(data, sp, lib)
    {
      FeatureHasGroup(c);
    }
  }

  // Each column name carries the value its rule defines.

  lemma PsdFeaturesByName(data: seq<real>, sp: Spectrum, lib: Numerics)
    requires |data| > 0 && WellFormed(sp)
    ensures forall c: Feature :: c in MergedFeatures(data, sp, lib)
    ensures MergedFeatures(data, sp, lib)[EnergyAlpha] == BandEnergy(sp.freqs, sp.psd, ALPHA)
    ensures MergedFeatures(data, sp, lib)[EnergyBeta] == BandEnergy(sp.freqs, sp.psd, BETA)
    ensures MergedFeatures(data, sp, lib)[EnergyTheta] == BandEnergy(sp.freqs, sp.psd, THETA)
    ensures MergedFeatures(data, sp, lib)[EnergyDelta] == BandEnergy(sp.freqs, sp.psd, DELTA)
    ensures MergedFeatures(data, sp, lib)[AlphaBetaRatioF]
      == AlphaBetaRatio(BandEnergy(sp.freqs, sp.psd, ALPHA), BandEnergy(sp.freqs, sp.psd, BETA))
  {
    MergedFeaturesKeys(data, sp, lib);
    MergedKeepsPsd(data, sp, lib);
  }

  lemma SpectralFeaturesByName(data: seq<real>, sp: Spectrum, lib: Numerics)
    requires |data| > 0 && WellFormed(sp)
    ensures forall c: Feature :: c in MergedFeatures(data, sp, lib)
    ensures MergedFeatures(data, sp, lib)[MaxFreqF] == MaxFreq(sp)
    ensures MergedFeatures(data, sp, lib)[SpectralCentroid] == lib.centroid
    ensures MergedFeatures(data, sp, lib)[SpectralSlopeF] == SpectralSlope(sp, lib)
  {
    MergedFeaturesKeys(data, sp, lib);
    MergedKeepsSpectral(data, sp, lib);
  }

  lemma {:induction false} TemporalFeaturesByName(data: seq<real>, sp: Spectrum, lib: Numerics)
    requires |data| > 0 && WellFormed(sp)
    ensures forall c: Feature :: c in MergedFeatures(data, sp, lib)
    ensures MergedFeatures(data, sp, lib)[MeanF] == Mean(data)
    ensures MergedFeatures(data, sp, lib)[VarianceF] == Variance(data)
    ensures MergedFeatures(data, sp, lib)[ZeroCrossingsF] == ZeroCrossings(data) as real
  {
    MergedFeaturesKeys(data, sp, lib);
    MergedKeepsTemporal(data, sp, lib);
  }

  lemma LibraryFeaturesByName(data: seq<real>, sp: Spectrum, lib: Numerics)
    requires |data| > 0 && WellFormed(sp)
    ensures forall c: Feature :: c in MergedFeatures(data, sp, lib)
    ensures MergedFeatures(data, sp, lib)[Rms] == lib.rms
    ensures MergedFeatures(data, sp, lib)[HjorthMobility] == lib.mobility
    ensures MergedFeatures(data, sp, lib)[HjorthComplexity] == lib.complexity
  {
    MergedFeaturesKeys(data, sp, lib);
    MergedKeepsTemporal(data, sp, lib);
  }

  /** calculate_features: look each column name up in the merged mapping, in
      COLUMNS order, and return the row together with the names. */
  method CalculateFeatures(data: seq<real>, sp: Spectrum, lib: Numerics)
      returns (row: seq<real>, columns: seq<string>)
    requires |data| > 0 && WellFormed(sp)
    ensures |columns| == |row| == |COLUMNS| == 14
    ensures forall i :: 0 <= i < |COLUMNS| ==> columns[i] == Name(COLUMNS[i])
    ensures forall i :: 0 <= i < |COLUMNS| ==> row[i] == MergedFeatures(data, sp, lib)[COLUMNS[i]]
  {
    var features := MergedFeatures(data, sp, lib);
    MergedFeaturesKeys(data, sp, lib);
    row := [];
    for k := 0 to |COLUMNS|
      invariant |row| == k
      invariant forall i :: 0 <= i < k ==> row[i] == features[COLUMNS[i]]
    {
      row := row + [features[COLUMNS[k]]];
    }
    columns := seq(|COLUMNS|, i requires 0 <= i < |COLUMNS| => Name(COLUMNS[i]));
  }
}
