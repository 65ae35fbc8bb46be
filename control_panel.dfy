/**
 * ControlPanelEffect's process-wide state: the preference files and the registry of
 * open audio sessions, each with its effect set. The gateway methods write the files
 * and push the active scope's settings into every registered effect set.
 */
module ControlPanelEffect {
  import opened Wrappers
  import opened Keys
  import opened JavaTypes
  import opened Prefs
  import opened Capabilities
  import opened Presets
  import opened Editor
  import opened Effects
  import opened Initialization
  import opened Gateway

  /**
   * The registry `after` once file `b` has been pushed into every set of `before`,
   * visiting the sessions in the registry's (unspecified) order. When the band loop
   * throws, it does so on the first set visited, whose other units are already set,
   * and the remaining sets are not reached.
   */
  ghost predicate Synced(before: map<int, EffectSet>, after: map<int, EffectSet>, b: Bucket, caps: Caps) {
    && after.Keys == before.Keys
    && if EqApplies(b, caps) || before == map[] then
         forall id :: id in before ==> after[id] == Applied(before[id], b, caps)
       else
         exists id0 :: FirstOnly(before, after, id0, b, caps)
  }

  /** Only `id0` received the push; every other set is as it was. */
  ghost predicate FirstOnly(before: map<int, EffectSet>, after: map<int, EffectSet>, id0: int, b: Bucket, caps: Caps)
    requires after.Keys == before.Keys
  {
    && id0 in before
    && after[id0] == Applied(before[id0], b, caps)
    && forall id :: id in before && id != id0 ==> after[id] == before[id]
  }

  /** The registry after a write pushed scope `push` of store `st`, or after no push. */
  ghost predicate Pushed(before: map<int, EffectSet>, after: map<int, EffectSet>, push: Option<Scope>, st: Store, caps: Caps) {
    match push
    case None => after == before
    case Some(s) => Synced(before, after, st.Get(s), caps)
  }

  /** Some member of a non-empty set of ids. */
  lemma SomeId(ids: set<int>) returns (w: int)
    requires ids != {}
    ensures w in ids
  {
    if forall x :: x !in ids {
      // No member at all means the set is the empty one, which the requires excludes.
      ghost var empty := ids == {};
      assert false;
    }
    w :| w in ids;
  }

  /** One pass of the push loop keeps its invariant. */
  lemma PushStep(before: map<int, EffectSet>, after: map<int, EffectSet>, ids: set<int>, done: set<int>, id: int, s: EffectSet, b: Bucket, caps: Caps)
    requires ids !! done && ids + done == before.Keys && after.Keys == before.Keys
    requires forall i :: i in done ==> after[i] == Applied(before[i], b, caps)
    requires forall i :: i in ids ==> after[i] == before[i]
    requires id in ids && s == Applied(before[id], b, caps)
    ensures ids - {id} !! done + {id} && (ids - {id}) + (done + {id}) == before.Keys
    ensures after[id := s].Keys == before.Keys
    ensures forall i :: i in done + {id} ==> after[id := s][i] == Applied(before[i], b, caps)
    ensures forall i :: i in ids - {id} ==> after[id := s][i] == before[i]
  {
  }

  /** A push that got through every set. */
  lemma SyncedAll(before: map<int, EffectSet>, after: map<int, EffectSet>, b: Bucket, caps: Caps)
    requires EqApplies(b, caps) || before == map[]
    requires after.Keys == before.Keys
    requires forall id :: id in before ==> after[id] == Applied(before[id], b, caps)
    ensures Synced(before, after, b, caps)
  {
  }

  /** A push that threw on the first set it visited. */
  lemma SyncedFirst(before: map<int, EffectSet>, after: map<int, EffectSet>, id0: int, b: Bucket, caps: Caps)
    requires !EqApplies(b, caps) && after.Keys == before.Keys
    requires FirstOnly(before, after, id0, b, caps)
    ensures Synced(before, after, b, caps)
  {
  }

  /**
   * The loop of updateDsp over a snapshot of the registry's ids, in an unspecified
   * order. ok is false when updateEffectSet throws; the loop stops there.
   */
  method PushAll(before: map<int, EffectSet>, b: Bucket, caps: Caps) returns (after: map<int, EffectSet>, ok: bool)
    ensures Synced(before, after, b, caps)
    ensures ok == (before == map[] || EqApplies(b, caps))
  {
    after := before;
    ok := true;
    var ids := before.Keys;
    ghost var applies := EqApplies(b, caps);
    ghost var done: set<int> := {};
    while ids != {}
      invariant ids !! done && ids + done == before.Keys
      invariant after.Keys == before.Keys
      invariant forall id :: id in done ==> after[id] == Applied(before[id], b, caps)
      invariant forall id :: id in ids ==> after[id] == before[id]
      invariant !applies ==> done == {}
      invariant ok
      decreases |ids|
    {
      ghost var some := SomeId(ids);
      var id :| id in ids;
      var s;
      s, ok := UpdateEffectSet(b, caps, after[id]);
      PushStep(before, after, ids, done, id, s, b, caps);
      after := after[id := s];
      if !ok {
        // The exception leaves updateDsp; the sets not yet visited keep their state.
        SyncedFirst(before, after, id, b, caps);
        return;
      }
      ids := ids - {id};
      done := done + {id};
    }
    SyncedAll(before, after, b, caps);
  }

  /** The band loop of initEffectsPreferences; ok is false when it throws. */
  method InitBandEdits(b: Bucket, caps: Caps) returns (edits: Edits, ok: bool)
    ensures ok == InitOk(b, caps)
    ensures ok ==> edits == BandPuts(InitLevels(b, caps), caps)
  {
    edits := [];
    var eQPreset := StoredPreset(b, caps);
    var band := 0;
    ghost var done: seq<int> := [];
    while band < caps.numBands
      invariant 0 <= band <= caps.numBands
      invariant |done| == band
      invariant forall k :: 0 <= k < band ==> ResolveBand(b, caps, eQPreset, caps.numPresets, k) == Some(done[k])
      invariant edits == BandPuts(done, caps)
    {
      var level := ResolveBand(b, caps, eQPreset, caps.numPresets, band);
      if level.None? {
        // The factory-table access throws and the editor is never committed.
        PrefixIsBandLevels(b, caps, eQPreset, caps.numPresets, caps.numBands, done);
        return edits, false;
      }
      edits := edits + [Put(BandLevelKey(band), IntV(level.value)),
                        Put(Key(EqCenterFreq, At(band)), IntV(caps.centerFreq[band])),
                        Put(Key(EqPresetUserBandLevelDefault, At(band)), IntV(USER_BAND_LEVEL_DEFAULT))];
      done := done + [level.value];
      assert done[..band] == done[..|done| - 1];
      band := band + 1;
    }
    PrefixIsBandLevels(b, caps, eQPreset, caps.numPresets, caps.numBands, done);
    ok := true;
  }

  /** The per-file body of initEffectsPreferences: collect the batch, commit it unless the band loop throws. */
  method InitScopeFile(b: Bucket, caps: Caps) returns (r: Bucket)
    ensures r == InitBucket(b, caps)
  {
    var edits: Edits := [];
    edits := edits + [Put(Key(EqLevelRange, At(0)), IntV(caps.minLevel))];
    edits := edits + [Put(Key(EqLevelRange, At(1)), IntV(caps.maxLevel))];
    edits := edits + [Put(Key(EqNumBands, Plain), IntV(caps.numBands))];
    edits := edits + [Put(Key(EqNumPresets, Plain), IntV(caps.numPresets))];
    var bands, ok := InitBandEdits(b, caps);
    if !ok {
      return b;
    }
    edits := edits + bands;
    var preset := 0;
    while preset < caps.numPresets
      invariant 0 <= preset <= caps.numPresets
      invariant edits == Header(caps) + bands + Indexed(EqPresetName, Strings(caps.presetNames[..preset]))
    {
      assert Strings(caps.presetNames[..preset + 1]) == Strings(caps.presetNames[..preset]) + [StrV(caps.presetNames[preset])];
      IndexedSnoc(EqPresetName, Strings(caps.presetNames[..preset]), StrV(caps.presetNames[preset]));
      edits := edits + [Put(Key(EqPresetName, At(preset)), StrV(caps.presetNames[preset]))];
      preset := preset + 1;
    }
    assert caps.presetNames[..caps.numPresets] == caps.presetNames;
    r := Commit(b, edits);
  }

  /** The switch of setParameterInt: the batch for the key, None when it throws. */
  method IntEdits(b: Bucket, caps: Caps, name: Name, arg0: int, arg1: int) returns (r: Option<Edits>)
    ensures r == IntWrites(b, caps, name, arg0, arg1)
  {
    var strKey := Key(name, Plain);
    var edits: Edits := [];
    if name == EqBandLevel {
      if arg1 == DUMMY_ARGUMENT {
        // IllegalArgumentException, caught before anything is applied.
        return None;
      }
      var band := Int16(arg1);
      strKey := BandLevelKey(band);
      edits := [Put(UserLevelKey(band), IntV(arg0))];
    } else if name == EqCurrentPreset {
      var ok;
      edits, ok := CurrentPresetEdits(b, caps, Int16(arg0));
      if !ok {
        return None;
      }
    } else if name == EqPresetUserBandLevel || name == EqPresetUserBandLevelDefault {
      if arg1 == DUMMY_ARGUMENT {
        return None;
      }
      strKey := Key(name, At(Int16(arg1)));
    }
    // The final putInt(strKey, value), value being arg0.
    assert IntWrites(b, caps, name, arg0, arg1).Some?;
    assert edits + [Put(strKey, IntV(arg0))] == IntWrites(b, caps, name, arg0, arg1).value;
    r := Some(edits + [Put(strKey, IntV(arg0))]);
  }

  /**
   * The registration half of openSession for a new id: a fresh effect set is put into
   * the registry, then file `b` is pushed into it.
   */
  method Register(before: map<int, EffectSet>, audioSession: int, b: Bucket, caps: Caps)
    returns (after: map<int, EffectSet>, ok: bool)
    ensures after == before[audioSession := Applied(NewEffectSet(audioSession), b, caps)]
    ensures ok == EqApplies(b, caps)
  {
    var effectSet := NewEffectSet(audioSession);
    after := before[audioSession := effectSet];
    var s;
    s, ok := UpdateEffectSet(b, caps, effectSet);
    after := after[audioSession := s];
  }

  /**
   * Opening a session on files whose active one initialises cleanly pushes without an
   * exception, and sets the band levels initialisation stored.
   */
  lemma OpenOnInitialised(st: Store, caps: Caps)
    requires InitOk(st.Get(ActiveScope(st)), caps)
    ensures ActiveScope(InitStore(st, caps)) == ActiveScope(st)
    ensures EqApplies(InitStore(st, caps).Get(ActiveScope(st)), caps)
    ensures EqLevels(InitStore(st, caps).Get(ActiveScope(st)), caps) == InitLevels(st.Get(ActiveScope(st)), caps)
  {
    InitStoreScopes(st, caps);
    InitThenApplies(st.Get(ActiveScope(st)), caps);
  }

  /**
   * The band loop of setParameterInt(eq_current_preset): one put per stored band of
   * the level `preset` resolves to; ok is false when the loop throws.
   */
  method CurrentPresetEdits(b: Bucket, caps: Caps, preset: int) returns (edits: Edits, ok: bool)
    ensures ok == PresetResolves(b, caps, preset)
    ensures ok ==> edits == Indexed(EqBandLevel, Ints(PresetLevels(b, caps, preset)))
  {
    edits := [];
    var numBands := StoredNumBands(b);
    var numPresets := StoredNumPresets(b);
    if numBands < 0 {
      // Arrays.copyOf with a negative length throws.
      return [], false;
    }
    var band := 0;
    ghost var done: seq<int> := [];
    while band < numBands
      invariant 0 <= band <= numBands
      invariant |done| == band
      invariant forall k :: 0 <= k < band ==> ResolveBand(b, caps, preset, numPresets, k) == Some(done[k])
      invariant edits == Indexed(EqBandLevel, Ints(done))
    {
      var level := ResolveBand(b, caps, preset, numPresets, band);
      if level.None? {
        PrefixIsBandLevels(b, caps, preset, numPresets, numBands, done);
        return edits, false;
      }
      assert Ints(done + [level.value]) == Ints(done) + [IntV(level.value)];
      IndexedSnoc(EqBandLevel, Ints(done), IntV(level.value));
      edits := edits + [Put(BandLevelKey(band), IntV(level.value))];
      done := done + [level.value];
      band := band + 1;
    }
    PrefixIsBandLevels(b, caps, preset, numPresets, numBands, done);
    // With numBands past SHORT_MAX the `short` counter wraps to -32768 after band SHORT_MAX,
    // the test still holds, and the next array access throws.
    ok := numBands <= SHORT_MAX;
  }

  class ControlPanel {
    /** The equalizer capabilities, discovered once (the discovery itself is not modelled). */
    const caps: Caps
    /** The preference files. */
    var store: Store
    /** mAudioSessions: the open audio sessions and their effect sets. */
    var sessions: map<int, EffectSet>

    constructor(caps: Caps, store: Store)
      ensures this.caps == caps && this.store == store && sessions == map[]
    {
      this.caps := caps;
      this.store := store;
      sessions := map[];
    }

    /** getControlMode: effects are driven exactly while some session is registered. */
    function GetControlMode(): (r: ControlMode)
      reads this
      ensures r == ControlEffects <==> sessions != map[]
    {
      ControlModeOf(|sessions|)
    }

    /**
     * updateDsp: when `scope` is the active scope, pushes its file into every
     * registered effect set. ok is false when an exception escapes (see Synced).
     */
    method UpdateDsp(scope: Scope) returns (ok: bool)
      modifies this
      ensures store == old(store)
      ensures Pushed(old(sessions), sessions, DspTarget(scope, store), store, caps)
      ensures ok == (DspTarget(scope, store).None? || old(sessions) == map[] || EqApplies(store.Get(scope), caps))
    {
      ok := true;
      if scope != ActiveScope(store) {
        return;
      }
      sessions, ok := PushAll(sessions, store.Get(scope), caps);
    }

    /** setParameterBoolean: writes the flag, then pushes (routing flags push the newly active scope). */
    method SetParameterBoolean(scope: Scope, name: Name, value: bool)
      modifies this
      ensures store == old(store).Put(scope, old(store).Get(scope)[Key(name, Plain) := BoolV(value)])
      ensures Pushed(old(sessions), sessions, BooleanPush(ControlModeOf(|old(sessions)|), scope, name, store), store, caps)
    {
      var controlMode := ControlModeOf(|sessions|);
      store := store.Put(scope, store.Get(scope)[Key(name, Plain) := BoolV(value)]);
      if controlMode == ControlEffects {
        var newPrefLevel := scope;
        if name == Bluetooth || name == Headset {
          newPrefLevel := ActiveScope(store);
        }
        assert BooleanPush(controlMode, scope, name, store) == DspTarget(newPrefLevel, store);
        // An exception out of updateDsp is caught and logged.
        var _ := UpdateDsp(newPrefLevel);
      }
    }

    /**
     * setParameterInt(key, arg0, arg1): applies the key's batch (IntWrites) and pushes
     * the written scope; when the batch throws, nothing is written or pushed.
     */
    method SetParameterInt(scope: Scope, name: Name, arg0: int, arg1: int)
      modifies this
      ensures IntWrites(old(store).Get(scope), caps, name, arg0, arg1).None? ==>
        store == old(store) && sessions == old(sessions)
      ensures IntWrites(old(store).Get(scope), caps, name, arg0, arg1).Some? ==>
        && store == old(store).Put(scope, Commit(old(store).Get(scope), IntWrites(old(store).Get(scope), caps, name, arg0, arg1).value))
        && Pushed(old(sessions), sessions, WritePush(ControlModeOf(|old(sessions)|), scope, store), store, caps)
    {
      var controlMode := ControlModeOf(|sessions|);
      var edits := IntEdits(store.Get(scope), caps, name, arg0, arg1);
      if edits.None? {
        return;
      }
      store := store.Put(scope, Commit(store.Get(scope), edits.value));
      if controlMode == ControlEffects {
        var _ := UpdateDsp(scope);
      }
    }

    /** setParameterInt(key, arg): the same with the dummy index. */
    method SetParameterIntArg(scope: Scope, name: Name, arg: int)
      modifies this
      ensures IntWrites(old(store).Get(scope), caps, name, arg, DUMMY_ARGUMENT).None? ==>
        store == old(store) && sessions == old(sessions)
      ensures IntWrites(old(store).Get(scope), caps, name, arg, DUMMY_ARGUMENT).Some? ==>
        && store == old(store).Put(scope, Commit(old(store).Get(scope), IntWrites(old(store).Get(scope), caps, name, arg, DUMMY_ARGUMENT).value))
        && Pushed(old(sessions), sessions, WritePush(ControlModeOf(|old(sessions)|), scope, store), store, caps)
    {
      SetParameterInt(scope, name, arg, DUMMY_ARGUMENT);
    }

    /**
     * setEnabled: writes global_enabled into the scope's file and pushes it. Nothing
     * catches here, so ok is false when the push throws.
     */
    method SetEnabled(scope: Scope, value: bool) returns (ok: bool)
      modifies this
      ensures store == old(store).Put(scope, old(store).Get(scope)[Key(GlobalEnabled, Plain) := BoolV(value)])
      ensures Pushed(old(sessions), sessions, WritePush(ControlModeOf(|old(sessions)|), scope, store), store, caps)
      ensures ok == (WritePush(ControlModeOf(|old(sessions)|), scope, store).None? || EqApplies(store.Get(scope), caps))
    {
      store := store.Put(scope, store.Get(scope)[Key(GlobalEnabled, Plain) := BoolV(value)]);
      var controlMode := ControlModeOf(|sessions|);
      ok := true;
      if controlMode == ControlEffects {
        ok := UpdateDsp(scope);
      }
    }

    /** initEffectsPreferences: initialises the three scope files in turn. */
    method InitEffectsPreferences()
      modifies this
      ensures store == InitStore(old(store), caps)
      ensures sessions == old(sessions)
    {
      var i := 0;
      while i < |ALL_PREF_SCOPES|
        invariant 0 <= i <= |ALL_PREF_SCOPES|
        invariant store == InitScopes(old(store), caps, ALL_PREF_SCOPES[..i])
        invariant sessions == old(sessions)
      {
        var scope := ALL_PREF_SCOPES[i];
        var b := InitScopeFile(store.Get(scope), caps);
        assert ALL_PREF_SCOPES[..i + 1][..i] == ALL_PREF_SCOPES[..i];
        store := store.Put(scope, b);
        i := i + 1;
      }
      assert ALL_PREF_SCOPES[..|ALL_PREF_SCOPES|] == ALL_PREF_SCOPES;
    }

    /**
     * openSession: initialises the files; an id already registered is left alone,
     * a new one gets a fresh effect set with the active scope's settings pushed into
     * it. ok is false when that push throws (the set stays registered).
     */
    method OpenSession(audioSession: int) returns (ok: bool)
      modifies this
      ensures store == InitStore(old(store), caps)
      ensures audioSession in old(sessions) ==> sessions == old(sessions) && ok
      ensures audioSession !in old(sessions) ==>
        && sessions == old(sessions)[audioSession := Applied(NewEffectSet(audioSession), store.Get(ActiveScope(store)), caps)]
        && ok == EqApplies(store.Get(ActiveScope(store)), caps)
      ensures audioSession !in old(sessions) && InitOk(old(store).Get(ActiveScope(old(store))), caps) ==>
        ok && sessions[audioSession].equalizer.bandLevels == WithLevels(map[], InitLevels(old(store).Get(ActiveScope(old(store))), caps))
    {
      InitEffectsPreferences();
      if audioSession in sessions {
        return true;
      }
      var currentLevel := ActiveScope(store);
      sessions, ok := Register(sessions, audioSession, store.Get(currentLevel), caps);
      if InitOk(old(store).Get(ActiveScope(old(store))), caps) {
        OpenOnInitialised(old(store), caps);
      }
    }

    /** closeSession: removes the id's effect set, if any, and hands it back for release. */
    method CloseSession(audioSession: int) returns (gone: Option<EffectSet>)
      modifies this
      ensures store == old(store)
      ensures sessions == old(sessions) - {audioSession}
      ensures audioSession !in old(sessions) ==> sessions == old(sessions) && gone == None
      ensures audioSession in old(sessions) ==> gone == Some(old(sessions)[audioSession])
    {
      gone := if audioSession in sessions then Some(sessions[audioSession]) else None;
      sessions := sessions - {audioSession};
    }
  }
}
