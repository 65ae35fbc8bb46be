/**
 * What initEffectsPreferences writes into each scope's file: the equalizer's level
 * range, band and preset counts, per band the level of the selected preset, the centre
 * frequency and the default user level, and the factory preset names. The batch of a
 * file is dropped when the selected preset's levels cannot be resolved.
 */
module Initialization {
  import opened Wrappers
  import opened Keys
  import opened Prefs
  import opened Capabilities
  import opened Presets
  import opened Editor
  import opened Effects

  /** The band levels initialisation writes: the discovered counts, not the stored ones. */
  function InitLevels(b: Bucket, caps: Caps): seq<int> {
    BandLevels(b, caps, StoredPreset(b, caps), caps.numPresets, caps.numBands)
  }

  /** The band loop of initialisation gets through every band. */
  predicate InitOk(b: Bucket, caps: Caps) {
    Resolves(b, caps, StoredPreset(b, caps), caps.numPresets, caps.numBands)
  }

  /** The keys initialisation may write. */
  predicate InitName(name: Name) {
    name in {EqLevelRange, EqNumBands, EqNumPresets, EqBandLevel, EqCenterFreq,
             EqPresetUserBandLevelDefault, EqPresetName}
  }

  /** The four puts before the band loop. */
  function Header(caps: Caps): Edits {
    [Put(Key(EqLevelRange, At(0)), IntV(caps.minLevel)),
     Put(Key(EqLevelRange, At(1)), IntV(caps.maxLevel)),
     Put(Key(EqNumBands, Plain), IntV(caps.numBands)),
     Put(Key(EqNumPresets, Plain), IntV(caps.numPresets))]
  }

  /** The three puts of one pass of the band loop. */
  function BandPut(levels: seq<int>, caps: Caps, band: nat): Edits
    requires band < |levels| && band < caps.numBands
  {
    [Put(BandLevelKey(band), IntV(levels[band])),
     Put(Key(EqCenterFreq, At(band)), IntV(caps.centerFreq[band])),
     Put(Key(EqPresetUserBandLevelDefault, At(band)), IntV(USER_BAND_LEVEL_DEFAULT))]
  }

  /** The puts of the band loop for bands 0 .. |levels| - 1. */
  function BandPuts(levels: seq<int>, caps: Caps): Edits
    requires |levels| <= caps.numBands
    decreases |levels|
  {
    if |levels| == 0 then []
    else BandPuts(levels[..|levels| - 1], caps) + BandPut(levels, caps, |levels| - 1)
  }

  /** The whole batch of one file. */
  function InitEdits(b: Bucket, caps: Caps): Edits
    requires InitOk(b, caps)
  {
    Header(caps) + BandPuts(InitLevels(b, caps), caps)
      + Indexed(EqPresetName, Strings(caps.presetNames))
  }

  /** One file after initialisation: the batch committed, or the file untouched when the loop throws. */
  function InitBucket(b: Bucket, caps: Caps): Bucket {
    if InitOk(b, caps) then Commit(b, InitEdits(b, caps)) else b
  }

  /** The store after the files of `scopes` are initialised in turn. */
  function InitScopes(st: Store, caps: Caps, scopes: seq<Scope>): Store
    decreases |scopes|
  {
    if |scopes| == 0 then st
    else
      var before := InitScopes(st, caps, scopes[..|scopes| - 1]);
      var s := scopes[|scopes| - 1];
      before.Put(s, InitBucket(before.Get(s), caps))
  }

  function InitStore(st: Store, caps: Caps): Store {
    InitScopes(st, caps, ALL_PREF_SCOPES)
  }

  /** The initialised store, written out file by file in the order of ALL_PREF_SCOPES. */
  lemma InitStoreUnfold(st: Store, caps: Caps)
    ensures var s1 := st.Put(SpeakerScope, InitBucket(st.Get(SpeakerScope), caps));
      var s2 := s1.Put(HeadsetScope, InitBucket(s1.Get(HeadsetScope), caps));
      InitStore(st, caps) == s2.Put(BluetoothScope, InitBucket(s2.Get(BluetoothScope), caps))
  {
    var s1 := st.Put(SpeakerScope, InitBucket(st.Get(SpeakerScope), caps));
    var s2 := s1.Put(HeadsetScope, InitBucket(s1.Get(HeadsetScope), caps));
    assert ALL_PREF_SCOPES[..1][..0] == [];
    assert InitScopes(st, caps, ALL_PREF_SCOPES[..1]) == s1;
    assert ALL_PREF_SCOPES[..2][..1] == ALL_PREF_SCOPES[..1];
    assert InitScopes(st, caps, ALL_PREF_SCOPES[..2]) == s2;
    assert ALL_PREF_SCOPES[..3][..2] == ALL_PREF_SCOPES[..2];
    assert ALL_PREF_SCOPES[..3] == ALL_PREF_SCOPES;
  }

  /** Initialisation touches the three scope files, each once, and leaves the global file alone. */
  lemma InitStoreScopes(st: Store, caps: Caps)
    ensures InitStore(st, caps).Get(GlobalScope) == st.Get(GlobalScope)
    ensures forall s :: s != GlobalScope ==> InitStore(st, caps).Get(s) == InitBucket(st.Get(s), caps)
  {
    InitStoreUnfold(st, caps);
    var s1 := st.Put(SpeakerScope, InitBucket(st.Get(SpeakerScope), caps));
    var s2 := s1.Put(HeadsetScope, InitBucket(s1.Get(HeadsetScope), caps));
    assert s2.Get(BluetoothScope) == st.Get(BluetoothScope);
    assert s1.Get(HeadsetScope) == st.Get(HeadsetScope);
  }

  /**
   * The band loop of initialisation fails only on a negative stored preset, which the
   * factory table cannot index, and only when there is a band to resolve.
   */
  lemma InitOkIff(b: Bucket, caps: Caps)
    ensures InitOk(b, caps) <==> caps.numBands == 0 || 0 <= StoredPreset(b, caps)
  {
    ResolveFailure(b, caps, StoredPreset(b, caps), caps.numPresets, caps.numBands);
  }

  /** The levels initialisation writes: the factory row of the selected preset, or the user's levels. */
  lemma InitLevelsValues(b: Bucket, caps: Caps)
    requires InitOk(b, caps)
    ensures |InitLevels(b, caps)| == caps.numBands
    ensures 0 <= StoredPreset(b, caps) < caps.numPresets ==>
      InitLevels(b, caps) == caps.presetLevels[StoredPreset(b, caps)][..caps.numBands]
    ensures caps.numPresets <= StoredPreset(b, caps) ==>
      forall i :: 0 <= i < caps.numBands ==> InitLevels(b, caps)[i] == UserLevel(b, i)
  {
    InitOkIff(b, caps);
    ResolvedValues(b, caps, StoredPreset(b, caps), caps.numPresets, caps.numBands);
  }

  /** The last put of each key in the band loop's puts. */
  lemma {:induction false} LookupBandPuts(levels: seq<int>, caps: Caps, k: Key)
    requires |levels| <= caps.numBands
    ensures Lookup(BandPuts(levels, caps), k) ==
      if !(k.index.At? && 0 <= k.index.i < |levels|) then None
      else if k.name == EqBandLevel then Some(IntV(levels[k.index.i]))
      else if k.name == EqCenterFreq then Some(IntV(caps.centerFreq[k.index.i]))
      else if k.name == EqPresetUserBandLevelDefault then Some(IntV(USER_BAND_LEVEL_DEFAULT))
      else None
    decreases |levels|
  {
    if |levels| > 0 {
      var n := |levels| - 1;
      var t := BandPut(levels, caps, n);
      LookupThree(t[0], t[1], t[2], k);
      LookupBandPuts(levels[..n], caps, k);
      LookupAppend(BandPuts(levels[..n], caps), t, k);
    }
  }

  /** The last put of each key in a file's batch. */
  function InitEntry(levels: seq<int>, caps: Caps, k: Key): Option<Value>
    requires |levels| == caps.numBands
  {
    if k == Key(EqLevelRange, At(0)) then Some(IntV(caps.minLevel))
    else if k == Key(EqLevelRange, At(1)) then Some(IntV(caps.maxLevel))
    else if k == Key(EqNumBands, Plain) then Some(IntV(caps.numBands))
    else if k == Key(EqNumPresets, Plain) then Some(IntV(caps.numPresets))
    else if !(k.index.At? && 0 <= k.index.i) then None
    else if k.name == EqBandLevel && k.index.i < caps.numBands then Some(IntV(levels[k.index.i]))
    else if k.name == EqCenterFreq && k.index.i < caps.numBands then Some(IntV(caps.centerFreq[k.index.i]))
    else if k.name == EqPresetUserBandLevelDefault && k.index.i < caps.numBands then Some(IntV(USER_BAND_LEVEL_DEFAULT))
    else if k.name == EqPresetName && k.index.i < caps.numPresets then Some(StrV(caps.presetNames[k.index.i]))
    else None
  }

  lemma InitEditsLookup(b: Bucket, caps: Caps, k: Key)
    requires InitOk(b, caps)
    ensures Lookup(InitEdits(b, caps), k) == InitEntry(InitLevels(b, caps), caps, k)
  {
    var levels := InitLevels(b, caps);
    var h := Header(caps);
    var bands := BandPuts(levels, caps);
    var names := Indexed(EqPresetName, Strings(caps.presetNames));
    LookupAppend(h + bands, names, k);
    LookupAppend(h, bands, k);
    LookupBandPuts(levels, caps, k);
    LookupIndexed(EqPresetName, Strings(caps.presetNames), k);
    assert h == [h[0]] + [h[1], h[2], h[3]];
    LookupAppend([h[0]], [h[1], h[2], h[3]], k);
    LookupOne(h[0], k);
    LookupThree(h[1], h[2], h[3], k);
  }

  /** What each key of an initialised file holds. */
  lemma InitRead(b: Bucket, caps: Caps, k: Key)
    requires InitOk(b, caps)
    ensures k == Key(EqLevelRange, At(0)) ==> Read(InitBucket(b, caps), k) == Some(IntV(caps.minLevel))
    ensures k == Key(EqLevelRange, At(1)) ==> Read(InitBucket(b, caps), k) == Some(IntV(caps.maxLevel))
    ensures k == Key(EqNumBands, Plain) ==> Read(InitBucket(b, caps), k) == Some(IntV(caps.numBands))
    ensures k == Key(EqNumPresets, Plain) ==> Read(InitBucket(b, caps), k) == Some(IntV(caps.numPresets))
    ensures k.name == EqBandLevel && k.index.At? && 0 <= k.index.i < caps.numBands ==>
      Read(InitBucket(b, caps), k) == Some(IntV(InitLevels(b, caps)[k.index.i]))
    ensures k.name == EqCenterFreq && k.index.At? && 0 <= k.index.i < caps.numBands ==>
      Read(InitBucket(b, caps), k) == Some(IntV(caps.centerFreq[k.index.i]))
    ensures k.name == EqPresetUserBandLevelDefault && k.index.At? && 0 <= k.index.i < caps.numBands ==>
      Read(InitBucket(b, caps), k) == Some(IntV(USER_BAND_LEVEL_DEFAULT))
    ensures k.name == EqPresetName && k.index.At? && 0 <= k.index.i < caps.numPresets ==>
      Read(InitBucket(b, caps), k) == Some(StrV(caps.presetNames[k.index.i]))
    ensures !InitName(k.name) ==> Read(InitBucket(b, caps), k) == Read(b, k)
  {
    CommitRead(b, InitEdits(b, caps), k);
    InitEditsLookup(b, caps, k);
  }

  /**
   * With the hard-coded capabilities, initialising an empty file stores five bands at
   * level 0 under the "User" preset, no factory presets, the default level range and
   * the default centre frequencies.
   */
  lemma InitDefaults()
    ensures InitOk(map[], DEFAULT_CAPS)
    ensures InitLevels(map[], DEFAULT_CAPS) == EQUALIZER_PRESET_USER_BAND_LEVEL_DEFAULT
    ensures Read(InitBucket(map[], DEFAULT_CAPS), Key(EqNumBands, Plain)) == Some(IntV(EQUALIZER_NUMBER_BANDS_DEFAULT))
    ensures Read(InitBucket(map[], DEFAULT_CAPS), Key(EqNumPresets, Plain)) == Some(IntV(EQUALIZER_NUMBER_PRESETS_DEFAULT))
    ensures Read(InitBucket(map[], DEFAULT_CAPS), Key(EqLevelRange, At(0))) == Some(IntV(EQUALIZER_BAND_LEVEL_RANGE_DEFAULT[0]))
    ensures Read(InitBucket(map[], DEFAULT_CAPS), Key(EqLevelRange, At(1))) == Some(IntV(EQUALIZER_BAND_LEVEL_RANGE_DEFAULT[1]))
    ensures forall i :: 0 <= i < 5 ==>
      Read(InitBucket(map[], DEFAULT_CAPS), Key(EqCenterFreq, At(i))) == Some(IntV(EQUALIZER_CENTER_FREQ_DEFAULT[i]))
  {
    var b: Bucket := map[];
    assert StoredPreset(b, DEFAULT_CAPS) == 0;
    UserLevels(b, DEFAULT_CAPS, 0, 0, 5);
    var levels := InitLevels(b, DEFAULT_CAPS);
    forall k | 0 <= k < 5
      ensures levels[k] == 0
    {
      assert levels[k] == UserLevel(b, k);
    }
    assert levels == EQUALIZER_PRESET_USER_BAND_LEVEL_DEFAULT;
    InitRead(b, DEFAULT_CAPS, Key(EqNumBands, Plain));
    InitRead(b, DEFAULT_CAPS, Key(EqNumPresets, Plain));
    InitRead(b, DEFAULT_CAPS, Key(EqLevelRange, At(0)));
    InitRead(b, DEFAULT_CAPS, Key(EqLevelRange, At(1)));
    forall i | 0 <= i < 5
      ensures Read(InitBucket(b, DEFAULT_CAPS), Key(EqCenterFreq, At(i))) == Some(IntV(EQUALIZER_CENTER_FREQ_DEFAULT[i]))
    {
      InitRead(b, DEFAULT_CAPS, Key(EqCenterFreq, At(i)));
    }
  }

  /** Initialisation neither reads nor writes anything its own batch depends on but the user levels and the preset. */
  lemma InitKeepsInputs(b: Bucket, caps: Caps)
    ensures StoredPreset(InitBucket(b, caps), caps) == StoredPreset(b, caps)
    ensures forall i :: UserLevel(InitBucket(b, caps), i) == UserLevel(b, i)
    ensures InitLevels(InitBucket(b, caps), caps) == InitLevels(b, caps)
  {
    if InitOk(b, caps) {
      InitRead(b, caps, Key(EqCurrentPreset, Plain));
      forall i
        ensures UserLevel(InitBucket(b, caps), i) == UserLevel(b, i)
      {
        InitRead(b, caps, UserLevelKey(i));
      }
      ResolvedFromFrame(InitBucket(b, caps), b, caps, StoredPreset(b, caps), caps.numPresets, 0, caps.numBands);
    }
  }

  /** initEffectsPreferences run twice leaves each file as running it once. */
  lemma InitIdempotent(b: Bucket, caps: Caps)
    ensures InitBucket(InitBucket(b, caps), caps) == InitBucket(b, caps)
  {
    if InitOk(b, caps) {
      InitKeepsInputs(b, caps);
      CommitTwice(b, InitEdits(b, caps));
    }
  }

  /**
   * Once a file is initialised, pushing it into an effect set completes and sets
   * exactly the band levels initialisation stored.
   */
  lemma InitThenApplies(b: Bucket, caps: Caps)
    requires InitOk(b, caps)
    ensures EqApplies(InitBucket(b, caps), caps)
    ensures EqLevels(InitBucket(b, caps), caps) == InitLevels(b, caps)
  {
    InitRead(b, caps, Key(EqNumBands, Plain));
    InitRead(b, caps, Key(EqNumPresets, Plain));
    InitKeepsInputs(b, caps);
  }
}
