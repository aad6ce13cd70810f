/** The earlier, top-level extractor (feature_selection.py): the same PSD and
    spectral rules as Features, without the temporal group, returning the
    merged mapping itself rather than a row. */
module LegacyFeatures {
  import opened Features

  /** The eight columns the earlier extractor declares. */
  const LEGACY_COLUMNS: seq<Feature> := [
    EnergyAlpha, EnergyBeta, EnergyTheta, EnergyDelta, AlphaBetaRatioF,
    MaxFreqF, SpectralCentroid, SpectralSlopeF]

  /** calculate_features: `{**psd_features, **spectral_features}`. */
  function LegacyCalculateFeatures(sp: Spectrum, lib: Numerics): map<Feature, real>
    requires WellFormed(sp)
  {
    PsdFeatures(sp) + SpectralFeatures(sp, lib)
  }

  /** The eight columns are the PSD and the spectral groups. */
  lemma LegacyColumnsAreGroups()
    ensures (set c | c in LEGACY_COLUMNS) == PSD_KEYS + SPECTRAL_KEYS
  {
    forall c: Feature
      ensures c in LEGACY_COLUMNS <==> c in PSD_KEYS + SPECTRAL_KEYS
    {
      if c in PSD_KEYS + SPECTRAL_KEYS {
        assert c == LEGACY_COLUMNS[0] || c == LEGACY_COLUMNS[1] || c == LEGACY_COLUMNS[2] || c == LEGACY_COLUMNS[3]
          || c == LEGACY_COLUMNS[4] || c == LEGACY_COLUMNS[5] || c == LEGACY_COLUMNS[6] || c == LEGACY_COLUMNS[7];
      }
    }
  }

  /** The merged mapping's keys are the two groups. */
  lemma LegacyKeysAreGroups(sp: Spectrum, lib: Numerics)
    requires WellFormed(sp)
    ensures LegacyCalculateFeatures(sp, lib).Keys == PSD_KEYS + SPECTRAL_KEYS
  {
    assert PsdFeatures(sp).Keys == PSD_KEYS;
    assert SpectralFeatures(sp, lib).Keys == SPECTRAL_KEYS;
  }

  /** The mapping's keys are exactly the eight declared columns, which are
      the first eight of the 14-column row. */
  lemma LegacyKeysAreColumns(sp: Spectrum, lib: Numerics)
    requires WellFormed(sp)
    ensures LegacyCalculateFeatures(sp, lib).Keys == set c | c in LEGACY_COLUMNS
    ensures LEGACY_COLUMNS == COLUMNS[..8]
  {
    LegacyColumnsAreGroups();
    LegacyKeysAreGroups(sp, lib);
  }

  /** On a window both extractors see, the earlier one agrees with the
      current one on every feature it computes. */
  lemma {:induction false} LegacyAgreesWithCurrent(data: seq<real>, sp: Spectrum, lib: Numerics)
    requires |data| > 0 && WellFormed(sp)
    ensures forall c :: c in LegacyCalculateFeatures(sp, lib) ==>
      c in MergedFeatures(data, sp, lib) && LegacyCalculateFeatures(sp, lib)[c] == MergedFeatures(data, sp, lib)[c]
  {
    MergedKeepsPsd(data, sp, lib);
    MergedKeepsSpectral(data, sp, lib);
  }
}
