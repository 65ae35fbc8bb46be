/**
 * The equalizer capabilities the control panel discovers once per process (band count,
 * centre frequencies, level range, factory presets and their band levels), taken here
 * as an input record, and the hard-coded values it holds until discovery succeeds.
 */
module Capabilities {
  import opened JavaTypes

  const EQUALIZER_NUMBER_BANDS_DEFAULT := 5
  const EQUALIZER_NUMBER_PRESETS_DEFAULT := 0
  const EQUALIZER_BAND_LEVEL_RANGE_DEFAULT: seq<int> := [-1500, 1500]
  const EQUALIZER_CENTER_FREQ_DEFAULT: seq<int> := [60000, 230000, 910000, 3600000, 14000000]
  const EQUALIZER_PRESET_USER_BAND_LEVEL_DEFAULT: seq<int> := [0, 0, 0, 0, 0]

  /**
   * mEQBandLevelRange, mEQNumBands, mEQCenterFreq, mEQNumPresets, mEQPresetNames and
   * mEQPresetOpenSLESBandLevel (one row of band levels per factory preset).
   */
  datatype EqualizerInfo = EqualizerInfo(
    minLevel: int,
    maxLevel: int,
    numBands: int,
    centerFreq: seq<int>,
    numPresets: int,
    presetNames: seq<string>,
    presetLevels: seq<seq<int>>)

  /** The shapes the discovery produces: counts are non-negative shorts, one row per preset. */
  predicate WellFormed(e: EqualizerInfo) {
    && 0 <= e.numBands <= SHORT_MAX
    && |e.centerFreq| == e.numBands
    && 0 <= e.numPresets <= SHORT_MAX
    && |e.presetNames| == e.numPresets
    && |e.presetLevels| == e.numPresets
    && forall p :: 0 <= p < |e.presetLevels| ==> |e.presetLevels[p]| == e.numBands
  }

  type Caps = e: EqualizerInfo | WellFormed(e)
    witness EqualizerInfo(-1500, 1500, 5, [60000, 230000, 910000, 3600000, 14000000], 0, [], [])

  /** The capabilities before (or without) a successful discovery. */
  const DEFAULT_CAPS: Caps := EqualizerInfo(
    EQUALIZER_BAND_LEVEL_RANGE_DEFAULT[0], EQUALIZER_BAND_LEVEL_RANGE_DEFAULT[1],
    EQUALIZER_NUMBER_BANDS_DEFAULT, EQUALIZER_CENTER_FREQ_DEFAULT,
    EQUALIZER_NUMBER_PRESETS_DEFAULT, [], [])

  /** The index one past the factory presets is the "User" preset. */
  function UserPreset(caps: Caps): int {
    caps.numPresets
  }
}
