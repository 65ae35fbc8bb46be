/**
 * The parameter gateway of ControlPanelEffect: which scope is active, when a write is
 * pushed to the open audio sessions, what batch each setParameterInt key writes, and
 * getParameterIntArray.
 */
module Gateway {
  import opened Wrappers
  import opened Keys
  import opened JavaTypes
  import opened Prefs
  import opened Capabilities
  import opened Presets
  import opened Editor
  import opened Effects

  /**
   * getCurrentPrevLevel: the scope whose settings apply to the audio output. Bluetooth
   * wins over a wired headset, which wins over the speaker.
   */
  function ActiveScope(st: Store): (r: Scope)
    ensures r != GlobalScope
    ensures r == BluetoothScope <==> GetParameterBoolean(st, GlobalScope, Bluetooth)
    ensures r == HeadsetScope <==>
      !GetParameterBoolean(st, GlobalScope, Bluetooth) && GetParameterBoolean(st, GlobalScope, Headset)
    ensures r == SpeakerScope <==>
      !GetParameterBoolean(st, GlobalScope, Bluetooth) && !GetParameterBoolean(st, GlobalScope, Headset)
  {
    if GetParameterBoolean(st, GlobalScope, Bluetooth) then BluetoothScope
    else if GetParameterBoolean(st, GlobalScope, Headset) then HeadsetScope
    else SpeakerScope
  }

  /** Only the global file decides the active scope. */
  lemma ActiveScopeOfScopeWrite(st: Store, s: Scope, b: Bucket)
    requires s != GlobalScope
    ensures ActiveScope(st.Put(s, b)) == ActiveScope(st)
  {
  }

  /** The active scope once the routing flag `name` holds `value`. */
  lemma ActiveScopeAfterRouting(st: Store, name: Name, value: bool)
    requires name == Bluetooth || name == Headset
    ensures var after := st.Put(GlobalScope, st.Get(GlobalScope)[Key(name, Plain) := BoolV(value)]);
      ActiveScope(after) ==
        if (if name == Bluetooth then value else GetParameterBoolean(st, GlobalScope, Bluetooth)) then BluetoothScope
        else if (if name == Headset then value else GetParameterBoolean(st, GlobalScope, Headset)) then HeadsetScope
        else SpeakerScope
  {
    var g := st.Get(GlobalScope);
    var after := st.Put(GlobalScope, g[Key(name, Plain) := BoolV(value)]);
    if name == Bluetooth {
      assert Key(Headset, Plain) != Key(name, Plain);
      assert GetParameterBoolean(after, GlobalScope, Headset) == GetParameterBoolean(st, GlobalScope, Headset);
    } else {
      assert Key(Bluetooth, Plain) != Key(name, Plain);
      assert GetParameterBoolean(after, GlobalScope, Bluetooth) == GetParameterBoolean(st, GlobalScope, Bluetooth);
    }
  }

  /** ControlMode: effects are updated only while some audio session is open. */
  datatype ControlMode = ControlEffects | ControlPreferences

  function ControlModeOf(openSessions: nat): (r: ControlMode)
    ensures r == ControlEffects <==> 0 < openSessions
  {
    if openSessions == 0 then ControlPreferences else ControlEffects
  }

  /** updateDsp's gate: a scope is pushed only when it is the active one. */
  function DspTarget(scope: Scope, st: Store): Option<Scope> {
    if scope == ActiveScope(st) then Some(scope) else None
  }

  /**
   * The scope setParameterBoolean pushes after writing (`st` is the store after the
   * write), or None. A routing flag retargets the push to the scope that is active now.
   */
  function BooleanPush(mode: ControlMode, scope: Scope, name: Name, st: Store): (r: Option<Scope>)
    ensures r.Some? <==> mode == ControlEffects && (name == Bluetooth || name == Headset || scope == ActiveScope(st))
    ensures r.Some? ==> r.value == ActiveScope(st)
  {
    if mode != ControlEffects then None
    else DspTarget(if name == Bluetooth || name == Headset then ActiveScope(st) else scope, st)
  }

  /** The scope setParameterInt and setEnabled push after writing, or None. */
  function WritePush(mode: ControlMode, scope: Scope, st: Store): (r: Option<Scope>)
    ensures r.Some? <==> mode == ControlEffects && scope == ActiveScope(st)
    ensures r.Some? ==> r.value == scope
  {
    if mode != ControlEffects then None else DspTarget(scope, st)
  }

  /** The index argument that marks "no index given". */
  const DUMMY_ARGUMENT := -1

  /** The levels selecting `preset` writes, against the counts stored in the file. */
  function PresetLevels(b: Bucket, caps: Caps, preset: int): seq<int> {
    BandLevels(b, caps, preset, StoredNumPresets(b), StoredNumBands(b))
  }

  predicate PresetResolves(b: Bucket, caps: Caps, preset: int) {
    Resolves(b, caps, preset, StoredNumPresets(b), StoredNumBands(b))
  }

  /**
   * The batch setParameterInt(key, arg0, arg1) applies to the file, or None when it
   * throws before applying: the dummy band index, or a preset whose band loop throws.
   */
  function IntWrites(b: Bucket, caps: Caps, name: Name, arg0: int, arg1: int): Option<Edits> {
    if name == EqBandLevel then
      if arg1 == DUMMY_ARGUMENT then None
      else Some([Put(UserLevelKey(Int16(arg1)), IntV(arg0)), Put(BandLevelKey(Int16(arg1)), IntV(arg0))])
    else if name == EqCurrentPreset then
      if PresetResolves(b, caps, Int16(arg0))
      then Some(Indexed(EqBandLevel, Ints(PresetLevels(b, caps, Int16(arg0)))) + [Put(Key(EqCurrentPreset, Plain), IntV(arg0))])
      else None
    else if name == EqPresetUserBandLevel || name == EqPresetUserBandLevelDefault then
      if arg1 == DUMMY_ARGUMENT then None else Some([Put(Key(name, At(Int16(arg1))), IntV(arg0))])
    else Some([Put(Key(name, Plain), IntV(arg0))])
  }

  /**
   * setParameterInt writes nothing exactly when an indexed key gets the dummy index,
   * or a preset is selected whose levels do not resolve against the stored counts.
   */
  lemma IntWritesFail(b: Bucket, caps: Caps, name: Name, arg0: int, arg1: int)
    ensures IntWrites(b, caps, name, arg0, arg1).None? <==>
      || ((name == EqBandLevel || name == EqPresetUserBandLevel || name == EqPresetUserBandLevelDefault)
          && arg1 == DUMMY_ARGUMENT)
      || (name == EqCurrentPreset &&
          var preset, numPresets, numBands := Int16(arg0), StoredNumPresets(b), StoredNumBands(b);
          || numBands < 0
          || (0 < numBands && preset < numPresets && (preset < 0 || caps.numPresets <= preset || caps.numBands < numBands))
          || (numPresets <= preset && SHORT_MAX < numBands))
  {
    ResolveFailure(b, caps, Int16(arg0), StoredNumPresets(b), StoredNumBands(b));
  }

  /** Writing a band level stores the value as the band's level and as its user level, and nothing else. */
  lemma BandLevelWrite(b: Bucket, caps: Caps, arg0: int, arg1: int, k: Key)
    requires arg1 != DUMMY_ARGUMENT
    ensures IntWrites(b, caps, EqBandLevel, arg0, arg1).Some?
    ensures var after := Commit(b, IntWrites(b, caps, EqBandLevel, arg0, arg1).value);
      && Read(after, BandLevelKey(Int16(arg1))) == Some(IntV(arg0))
      && Read(after, UserLevelKey(Int16(arg1))) == Some(IntV(arg0))
      && (k != BandLevelKey(Int16(arg1)) && k != UserLevelKey(Int16(arg1)) ==> Read(after, k) == Read(b, k))
  {
    var e := IntWrites(b, caps, EqBandLevel, arg0, arg1).value;
    assert e[..1] == [e[0]];
    CommitRead(b, e, k);
    CommitRead(b, e, BandLevelKey(Int16(arg1)));
    CommitRead(b, e, UserLevelKey(Int16(arg1)));
    LookupOne(e[0], k);
    LookupOne(e[0], UserLevelKey(Int16(arg1)));
  }

  /**
   * Selecting a preset stores the preset index and, for each stored band, the level the
   * preset resolves to; every other key, the user levels among them, keeps its entry.
   */
  lemma PresetWrite(b: Bucket, caps: Caps, arg0: int, k: Key)
    requires PresetResolves(b, caps, Int16(arg0))
    ensures IntWrites(b, caps, EqCurrentPreset, arg0, DUMMY_ARGUMENT).Some?
    ensures var after := Commit(b, IntWrites(b, caps, EqCurrentPreset, arg0, DUMMY_ARGUMENT).value);
      && Read(after, Key(EqCurrentPreset, Plain)) == Some(IntV(arg0))
      && (k.name == EqBandLevel && k.index.At? && 0 <= k.index.i < StoredNumBands(b) ==>
            Read(after, k) == Some(IntV(PresetLevels(b, caps, Int16(arg0))[k.index.i])))
      && (k != Key(EqCurrentPreset, Plain) && !(k.name == EqBandLevel && k.index.At? && 0 <= k.index.i < StoredNumBands(b)) ==>
            Read(after, k) == Read(b, k))
  {
    var levels := Ints(PresetLevels(b, caps, Int16(arg0)));
    var last := [Put(Key(EqCurrentPreset, Plain), IntV(arg0))];
    var e := Indexed(EqBandLevel, levels) + last;
    CommitRead(b, e, k);
    CommitRead(b, e, Key(EqCurrentPreset, Plain));
    LookupAppend(Indexed(EqBandLevel, levels), last, k);
    LookupOne(last[0], k);
    LookupIndexed(EqBandLevel, levels, k);
  }

  /** Selecting a preset records it and leaves the stored counts as they were. */
  lemma PresetWriteKeeps(b: Bucket, caps: Caps, arg0: int, after: Bucket)
    requires PresetResolves(b, caps, Int16(arg0))
    requires IntWrites(b, caps, EqCurrentPreset, arg0, DUMMY_ARGUMENT).Some?
    requires after == Commit(b, IntWrites(b, caps, EqCurrentPreset, arg0, DUMMY_ARGUMENT).value)
    ensures StoredPreset(after, caps) == Int16(arg0)
    ensures StoredNumBands(after) == StoredNumBands(b)
    ensures StoredNumPresets(after) == StoredNumPresets(b)
  {
    PresetWrite(b, caps, arg0, Key(EqCurrentPreset, Plain));
    PresetWrite(b, caps, arg0, Key(EqNumBands, Plain));
    PresetWrite(b, caps, arg0, Key(EqNumPresets, Plain));
  }

  /** Selecting a preset leaves the user levels as they were. */
  lemma PresetWriteKeepsUser(b: Bucket, caps: Caps, arg0: int, after: Bucket)
    requires PresetResolves(b, caps, Int16(arg0))
    requires IntWrites(b, caps, EqCurrentPreset, arg0, DUMMY_ARGUMENT).Some?
    requires after == Commit(b, IntWrites(b, caps, EqCurrentPreset, arg0, DUMMY_ARGUMENT).value)
    ensures forall i :: UserLevel(after, i) == UserLevel(b, i)
  {
    forall i
      ensures UserLevel(after, i) == UserLevel(b, i)
    {
      PresetWrite(b, caps, arg0, UserLevelKey(i));
    }
  }

  /** After selecting a preset, pushing the file sets exactly the levels the write stored. */
  lemma PresetWriteThenApplies(b: Bucket, caps: Caps, arg0: int)
    requires PresetResolves(b, caps, Int16(arg0))
    ensures var after := Commit(b, IntWrites(b, caps, EqCurrentPreset, arg0, DUMMY_ARGUMENT).value);
      EqApplies(after, caps) && EqLevels(after, caps) == PresetLevels(b, caps, Int16(arg0))
  {
    PresetWrite(b, caps, arg0, Key(EqCurrentPreset, Plain));
    var after := Commit(b, IntWrites(b, caps, EqCurrentPreset, arg0, DUMMY_ARGUMENT).value);
    PresetWriteKeeps(b, caps, arg0, after);
    PresetWriteKeepsUser(b, caps, arg0, after);
    ResolvedFromFrame(after, b, caps, Int16(arg0), StoredNumPresets(b), 0, StoredNumBands(b));
  }

  /** A key without an index special case is written as given, under its plain name. */
  lemma PlainIntWrite(b: Bucket, caps: Caps, name: Name, arg0: int, arg1: int)
    requires name !in {EqBandLevel, EqCurrentPreset, EqPresetUserBandLevel, EqPresetUserBandLevelDefault}
    ensures IntWrites(b, caps, name, arg0, arg1).Some?
    ensures Commit(b, IntWrites(b, caps, name, arg0, arg1).value) == b[Key(name, Plain) := IntV(arg0)]
  {
    assert [Put(Key(name, Plain), IntV(arg0))][..0] == [];
  }

  /** The keys getParameterIntArray reads as one entry per stored band. */
  predicate IsBandArray(name: Name) {
    name in {EqCenterFreq, EqBandLevel, EqPresetUserBandLevel, EqPresetUserBandLevelDefault}
  }

  /**
   * Element i of getParameterIntArray: the stored int (0 when unset), or 0 once an
   * element at or before it holds another type, where the read throws and the rest of
   * the array keeps its initial zeros.
   */
  function ArrayElement(b: Bucket, name: Name, i: nat): int {
    if forall j :: 0 <= j <= i ==> !IntReadThrows(b, Key(name, At(j)))
    then GetInt(b, Key(name, At(i)), 0)
    else 0
  }

  /**
   * getParameterIntArray: two entries for the level range, one per stored band for the
   * per-band keys, None (null) for other keys and when the band count cannot be read
   * or is negative.
   */
  method GetParameterIntArray(st: Store, scope: Scope, name: Name) returns (r: Option<seq<int>>)
    ensures name == EqLevelRange ==> r.Some? && |r.value| == 2
    ensures IsBandArray(name) ==>
      (r.Some? <==> !IntReadThrows(st.Get(scope), Key(EqNumBands, Plain)) && 0 <= GetInt(st.Get(scope), Key(EqNumBands, Plain), 0))
    ensures IsBandArray(name) && r.Some? ==> |r.value| == GetInt(st.Get(scope), Key(EqNumBands, Plain), 0)
    ensures name != EqLevelRange && !IsBandArray(name) ==> r.None?
    ensures r.Some? ==> forall i :: 0 <= i < |r.value| ==> r.value[i] == ArrayElement(st.Get(scope), name, i)
  {
    var b := st.Get(scope);
    var n: int;
    if name == EqLevelRange {
      n := 2;
    } else if IsBandArray(name) {
      if IntReadThrows(b, Key(EqNumBands, Plain)) {
        // The ClassCastException is caught while intArray is still null.
        return None;
      }
      n := GetInt(b, Key(EqNumBands, Plain), 0);
      if n < 0 {
        // NegativeArraySizeException, caught the same way.
        return None;
      }
    } else {
      return None;
    }
    var a := new int[n](_ => 0);
    var i := 0;
    while i < n
      invariant 0 <= i <= n
      invariant forall j :: 0 <= j < i ==> !IntReadThrows(b, Key(name, At(j)))
      invariant forall j :: 0 <= j < i ==> a[j] == GetInt(b, Key(name, At(j)), 0)
      invariant forall j :: i <= j < n ==> a[j] == 0
    {
      if IntReadThrows(b, Key(name, At(i))) {
        break;
      }
      a[i] := GetInt(b, Key(name, At(i)), 0);
      i := i + 1;
    }
    r := Some(a[..]);
  }
}
