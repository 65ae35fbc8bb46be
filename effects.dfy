/**
 * The effect units bound to one audio session (ControlPanelEffect.EffectSet) and the
 * way a scope's settings are pushed into them (updateEffectSet). Each platform unit is
 * modelled by the values last applied to it.
 */
module Effects {
  import opened Wrappers
  import opened Keys
  import opened JavaTypes
  import opened Prefs
  import opened Capabilities
  import opened Presets

  const GLOBAL_ENABLED_DEFAULT := false
  const VIRTUALIZER_ENABLED_DEFAULT := false
  const VIRTUALIZER_STRENGTH_DEFAULT := 1000
  const BASS_BOOST_ENABLED_DEFAULT := false
  const BASS_BOOST_STRENGTH_DEFAULT := 667
  const PRESET_REVERB_ENABLED_DEFAULT := false
  const PRESET_REVERB_CURRENT_PRESET_DEFAULT := 0
  const EQUALIZER_ENABLED_DEFAULT := true

  /** A virtualizer or bass-boost unit: the last strength set (None before any) and its enabled flag. */
  datatype StrengthUnit = StrengthUnit(strength: Option<int>, enabled: bool)

  /** A preset-reverb unit: the last preset set (None before any) and its enabled flag. */
  datatype ReverbUnit = ReverbUnit(preset: Option<int>, enabled: bool)

  /** An equalizer unit: the last level set on each band, and its enabled flag. */
  datatype EqualizerUnit = EqualizerUnit(bandLevels: map<int, int>, enabled: bool)

  /** The four units created for one audio session. */
  datatype EffectSet = EffectSet(
    audioSession: int,
    equalizer: EqualizerUnit,
    bassBoost: StrengthUnit,
    virtualizer: StrengthUnit,
    presetReverb: ReverbUnit)

  /** `new EffectSet(sessionId)`: platform units start disabled, with nothing applied yet. */
  function NewEffectSet(sessionId: int): EffectSet {
    EffectSet(sessionId, EqualizerUnit(map[], false), StrengthUnit(None, false),
              StrengthUnit(None, false), ReverbUnit(None, false))
  }

  // The settings updateEffectSet reads from a scope's file.

  function Flag(b: Bucket, name: Name, default: bool): bool {
    GetBoolean(b, Key(name, Plain), default)
  }

  function GlobalOn(b: Bucket): bool {
    Flag(b, GlobalEnabled, GLOBAL_ENABLED_DEFAULT)
  }

  /** The band levels updateEffectSet gets through, in band order. */
  function EqLevels(b: Bucket, caps: Caps): seq<int> {
    BandLevels(b, caps, StoredPreset(b, caps), StoredNumPresets(b), StoredNumBands(b))
  }

  /** updateEffectSet completes: every band of the stored band count resolves. */
  predicate EqApplies(b: Bucket, caps: Caps) {
    Resolves(b, caps, StoredPreset(b, caps), StoredNumPresets(b), StoredNumBands(b))
  }

  /** Band levels after setting bands 0 .. |levels| - 1 in turn. */
  function WithLevels(m: map<int, int>, levels: seq<int>): map<int, int> {
    m + map k | 0 <= k < |levels| :: levels[k]
  }

  /** The virtualizer after updateEffectSet: enabled only when the global flag is set too. */
  function VirtualizerApplied(b: Bucket): StrengthUnit {
    StrengthUnit(Some(Int16(GetInt(b, Key(VirtStrength, Plain), VIRTUALIZER_STRENGTH_DEFAULT))),
                 GlobalOn(b) && Flag(b, VirtEnabled, VIRTUALIZER_ENABLED_DEFAULT))
  }

  /** The bass boost after updateEffectSet. */
  function BassBoostApplied(b: Bucket): StrengthUnit {
    StrengthUnit(Some(Int16(GetInt(b, Key(BbStrength, Plain), BASS_BOOST_STRENGTH_DEFAULT))),
                 GlobalOn(b) && Flag(b, BbEnabled, BASS_BOOST_ENABLED_DEFAULT))
  }

  /** The preset reverb after updateEffectSet. */
  function ReverbApplied(b: Bucket): ReverbUnit {
    ReverbUnit(Some(Int16(GetInt(b, Key(PrCurrentPreset, Plain), PRESET_REVERB_CURRENT_PRESET_DEFAULT))),
               GlobalOn(b) && Flag(b, PrEnabled, PRESET_REVERB_ENABLED_DEFAULT))
  }

  /**
   * The equalizer after updateEffectSet: the resolved band levels are set; when a band
   * fails to resolve, the exception leaves the bands set so far and the enabled flag as
   * they were.
   */
  function EqualizerApplied(e: EqualizerUnit, b: Bucket, caps: Caps): EqualizerUnit {
    EqualizerUnit(
      WithLevels(e.bandLevels, EqLevels(b, caps)),
      if EqApplies(b, caps) then GlobalOn(b) && Flag(b, EqEnabled, EQUALIZER_ENABLED_DEFAULT)
      else e.enabled)
  }

  /** The effect set after updateEffectSet pushed the settings of bucket `b` into it. */
  function Applied(s: EffectSet, b: Bucket, caps: Caps): EffectSet {
    s.(virtualizer := VirtualizerApplied(b),
       bassBoost := BassBoostApplied(b),
       presetReverb := ReverbApplied(b),
       equalizer := EqualizerApplied(s.equalizer, b, caps))
  }

  /**
   * Each effect is switched on exactly when the file's global flag and its own flag are
   * both set (defaults: global off, equalizer on, the others off); an equalizer push
   * that throws leaves the equalizer's flag as it was.
   */
  lemma AppliedEnabled(s: EffectSet, b: Bucket, caps: Caps)
    ensures var r := Applied(s, b, caps);
      var global := GetBoolean(b, Key(GlobalEnabled, Plain), false);
      && r.audioSession == s.audioSession
      && (r.virtualizer.enabled <==> global && GetBoolean(b, Key(VirtEnabled, Plain), false))
      && (r.bassBoost.enabled <==> global && GetBoolean(b, Key(BbEnabled, Plain), false))
      && (r.presetReverb.enabled <==> global && GetBoolean(b, Key(PrEnabled, Plain), false))
      && (EqApplies(b, caps) ==> (r.equalizer.enabled <==> global && GetBoolean(b, Key(EqEnabled, Plain), true)))
      && (!EqApplies(b, caps) ==> r.equalizer.enabled == s.equalizer.enabled)
  {
  }

  /**
   * Pushing a file with nothing set: virtualizer strength 1000, bass-boost strength 667,
   * reverb preset 0, all four effects off, and the equalizer in the "User" preset with
   * the five default bands at level 0.
   */
  lemma AppliedToEmptyFile(s: EffectSet, caps: Caps, scope: Scope)
    ensures StoredPreset(EmptyStore.Get(scope), caps) == UserPreset(caps)
    ensures EqApplies(EmptyStore.Get(scope), caps)
    ensures EqLevels(EmptyStore.Get(scope), caps) == EQUALIZER_PRESET_USER_BAND_LEVEL_DEFAULT
    ensures var r := Applied(s, EmptyStore.Get(scope), caps);
      && r.virtualizer == StrengthUnit(Some(1000), false)
      && r.bassBoost == StrengthUnit(Some(667), false)
      && r.presetReverb == ReverbUnit(Some(0), false)
      && r.equalizer == EqualizerUnit(WithLevels(s.equalizer.bandLevels, EQUALIZER_PRESET_USER_BAND_LEVEL_DEFAULT), false)
  {
    var b := EmptyStore.Get(scope);
    assert b == map[];
    assert StoredPreset(b, caps) == caps.numPresets;
    UserLevels(b, caps, caps.numPresets, 0, 5);
    var levels := EqLevels(b, caps);
    assert |levels| == 5;
    forall k | 0 <= k < 5
      ensures levels[k] == 0
    {
      assert levels[k] == UserLevel(b, k);
    }
    assert levels == EQUALIZER_PRESET_USER_BAND_LEVEL_DEFAULT;
  }

  lemma WithLevelsSnoc(m: map<int, int>, levels: seq<int>, level: int)
    ensures WithLevels(m, levels + [level]) == WithLevels(m, levels)[|levels| := level]
  {
    var l := levels + [level];
    assert forall k :: 0 <= k < |levels| ==> l[k] == levels[k];
  }

  /**
   * The band loop of updateEffectSet: sets bands 0, 1, ... of the stored band count to
   * their resolved levels. `ok` is false when the source throws out of it (a negative
   * band count, or a factory preset outside the table).
   */
  method SetBandLevels(b: Bucket, caps: Caps, levels: map<int, int>) returns (m: map<int, int>, ok: bool)
    ensures m == WithLevels(levels, EqLevels(b, caps))
    ensures ok == EqApplies(b, caps)
  {
    m := levels;
    var eQPreset := StoredPreset(b, caps);
    var numBands := StoredNumBands(b);
    var numPresets := StoredNumPresets(b);
    assert WithLevels(levels, []) == levels;
    if numBands < 0 {
      // Arrays.copyOf with a negative length throws before any band is set.
      ok := false;
      return;
    }
    var band := 0;
    ghost var done: seq<int> := [];
    while band < numBands
      invariant 0 <= band <= numBands
      invariant |done| == band
      invariant forall k :: 0 <= k < band ==> ResolveBand(b, caps, eQPreset, numPresets, k) == Some(done[k])
      invariant m == WithLevels(levels, done)
    {
      var level := ResolveBand(b, caps, eQPreset, numPresets, band);
      if level.None? {
        // The factory-table access throws; the bands set so far stay set.
        PrefixIsBandLevels(b, caps, eQPreset, numPresets, numBands, done);
        ok := false;
        return;
      }
      WithLevelsSnoc(levels, done, level.value);
      m := m[band := level.value];
      done := done + [level.value];
      band := band + 1;
    }
    PrefixIsBandLevels(b, caps, eQPreset, numPresets, numBands, done);
    // With numBands past SHORT_MAX the `short` counter wraps to -32768 after band SHORT_MAX,
    // the test still holds, and the next array access throws.
    ok := numBands <= SHORT_MAX;
  }

  /**
   * updateEffectSet: pushes one scope's settings into one effect set, effect by effect.
   * `ok` is false when the band loop throws (see SetBandLevels).
   */
  method UpdateEffectSet(b: Bucket, caps: Caps, s: EffectSet) returns (r: EffectSet, ok: bool)
    ensures r == Applied(s, b, caps)
    ensures ok == EqApplies(b, caps)
  {
    r := s;
    var isGlobalEnabled := GetBoolean(b, Key(GlobalEnabled, Plain), GLOBAL_ENABLED_DEFAULT);

    var strength := GetInt(b, Key(VirtStrength, Plain), VIRTUALIZER_STRENGTH_DEFAULT);
    var virtOn := GetBoolean(b, Key(VirtEnabled, Plain), VIRTUALIZER_ENABLED_DEFAULT);
    r := r.(virtualizer := StrengthUnit(Some(Int16(strength)), isGlobalEnabled && virtOn));

    var bBStrength := GetInt(b, Key(BbStrength, Plain), BASS_BOOST_STRENGTH_DEFAULT);
    var bbOn := GetBoolean(b, Key(BbEnabled, Plain), BASS_BOOST_ENABLED_DEFAULT);
    r := r.(bassBoost := StrengthUnit(Some(Int16(bBStrength)), isGlobalEnabled && bbOn));

    var preset := Int16(GetInt(b, Key(PrCurrentPreset, Plain), PRESET_REVERB_CURRENT_PRESET_DEFAULT));
    var reverbOn := GetBoolean(b, Key(PrEnabled, Plain), PRESET_REVERB_ENABLED_DEFAULT);
    r := r.(presetReverb := ReverbUnit(Some(preset), isGlobalEnabled && reverbOn));

    var levels;
    levels, ok := SetBandLevels(b, caps, r.equalizer.bandLevels);
    r := r.(equalizer := r.equalizer.(bandLevels := levels));
    if ok {
      var eqOn := GetBoolean(b, Key(EqEnabled, Plain), EQUALIZER_ENABLED_DEFAULT);
      r := r.(equalizer := r.equalizer.(enabled := isGlobalEnabled && eqOn));
    }
  }
}
