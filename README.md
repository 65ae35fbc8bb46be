# MusicFX control panel: a Dafny model

This project models the core of the MusicFX audio-effects control panel. It has two parts.

`ControlPanelEffect` is the effect-configuration manager. It holds:
- four preference files: the global file with the routing flags, plus one settings file each for the speaker, wired-headset and Bluetooth outputs;
- the registry of open audio sessions, each owning an effect set (equalizer, bass boost, virtualizer, preset reverb);
- the parameter gateway that writes the files;
- the synchronizer that pushes the active output's settings into every registered effect set.

`SystemService` is the system service. Its receivers open and close sessions, and keep the global `headset` and `bluetooth` flags in step with the audio routing.

How the project is laid out:

- `keys.dfy` covers the parameter keys and the flat string keys the files use (name, then decimal index). It proves that this encoding is injective.
- `java_types.dfy` covers the Java `(short)` cast.
- `prefs.dfy` holds the four files (`Store`) and the typed reads with defaults.
- `capabilities.dfy` holds the equalizer capabilities, an immutable input record. `DEFAULT_CAPS` holds the hard-coded values used before discovery.
- `presets.dfy` resolves a preset index to band levels: either a factory row or the "User" levels.
- `effects.dfy` covers the effect units and `updateEffectSet`.
- `editor.dfy` models a preference editor batch as a sequence of puts that is committed at once.
- `init.dfy` states `initEffectsPreferences` as specification functions.
- `gateway.dfy` holds the active-scope resolver, the push gate, the batch each `setParameterInt` key writes, and `getParameterIntArray`.
- `control_panel.dfy` holds the `ControlPanel` class. Its `store` and `sessions` fields are changed by the gateway methods, `openSession`, `closeSession` and `updateDsp`.
- `system_service.dfy` holds the receivers' decisions as functions, and the `Service` class that applies them to a `ControlPanel`.

How the source's behaviour is represented:

- **Exceptions.** Where the source throws, the model follows the same path:
  - an out-of-table factory preset;
  - a negative band count;
  - a dummy index;
  - the `short` band counter wrapping from 32767 to -32768, which happens after band 32767 for any stored count of 32768 or more;
  - a mistyped `eq_num_bands` or array element in `getParameterIntArray`.

  A caught exception becomes a `None` batch that writes nothing. An escaping exception becomes an `ok` result that is false.
- **Partial pushes.** When `updateEffectSet` throws in its band loop, the units it has already set keep their new values. The bands set so far keep their levels.
- **Session order.** `updateDsp` walks a copy of the session ids in unspecified order. The model states what holds for every order:
  - either every set receives the file;
  - or the band loop throws on the first set visited and the others are untouched.

Three behaviours of the code the model keeps as written:

- **Level range.** The stored level range is the discovered one, exactly as the probe reports it.
- **Per-effect failures.** `updateEffectSet` has no handler: the first exception leaves the rest of that set unapplied and stops `updateDsp`.
- **Invalid arguments.** `setParameterInt` catches and logs `IllegalArgumentException`, and writes nothing.

## Model

| member | source | states |
|---|---|---|
| Keys.NameChars | src/com/android/musicfx/ControlPanelEffect.java:70-78 | every key name is spelled with lower-case letters and underscores only |
| Keys.NameTextInjective | src/com/android/musicfx/ControlPanelEffect.java:70-78 | distinct key constants have distinct `toString()` names |
| Keys.NatTextInjective | src/com/android/musicfx/ControlPanelEffect.java:378 | distinct non-negative indices have distinct decimal texts |
| Keys.IntTextInjective | src/com/android/musicfx/ControlPanelEffect.java:378 | distinct (possibly negative) indices have distinct decimal texts |
| Keys.IntTextShape | src/com/android/musicfx/ControlPanelEffect.java:378 | an index's text is non-empty, made of digits and `-`, and starts with a digit exactly when the index is non-negative |
| Keys.PairTextInjective | src/com/android/musicfx/ControlPanelEffect.java:390-393 | the text `i_j` of a two-index key determines both indices |
| Keys.IndexTextInjective | src/com/android/musicfx/ControlPanelEffect.java:365-393 | no index, one index and two indices never produce the same suffix, and each suffix determines its indices |
| Keys.EncodeInjective | src/com/android/musicfx/ControlPanelEffect.java:365-393 | two logical keys (name, indices) with the same flat store key are the same key, so the encoding never collides |
| JavaTypes.Int16 | src/com/android/musicfx/ControlPanelEffect.java:273 | a `(short)` cast lands in the short range, differs from its input by a multiple of 65536, and leaves shorts unchanged |
| Prefs.Store.Put | src/com/android/musicfx/ControlPanelEffect.java:41-47 | writing one preference file replaces exactly that file and leaves the other three as they were |
| Prefs.FileNamesDistinct | src/com/android/musicfx/ControlPanelEffect.java:41-44 | the global file and the three scope files have four different names |
| Prefs.ReadBack | src/com/android/musicfx/ControlPanelEffect.java:233-246 | a value written under a key reads back as itself through the getter of its type |
| Prefs.ReadOther | src/com/android/musicfx/ControlPanelEffect.java:344-356 | writing a key does not change what any other key reads as |
| Prefs.GetParameterDefaults | src/com/android/musicfx/ControlPanelEffect.java:233-246 | getParameterBoolean, the getParameterInt overloads and the getParameterString overloads answer false, 0 and the empty string for a key that is unset or holds another type |
| Prefs.GetParameterStored | src/com/android/musicfx/ControlPanelEffect.java:344-394 | a flag reads true exactly when true is stored under it; a stored int or string is what the getter of its type answers |
| Prefs.GetParameterReadBack | src/com/android/musicfx/ControlPanelEffect.java:448-484 | a value written into one file reads back through the getter of its type, and the same key of every other file reads as before |
| Presets.ResolvedFromSpec | src/com/android/musicfx/ControlPanelEffect.java:595-607 | the levels a band loop gets through are, in order, the resolved levels of its bands, and stop exactly at the first band that does not resolve |
| Presets.PrefixIsBandLevels | src/com/android/musicfx/ControlPanelEffect.java:595-607 | a sequence of resolved levels that ends at the band count or at a failing band is exactly the loop's output |
| Presets.ResolvesIff | src/com/android/musicfx/ControlPanelEffect.java:595-607 | the whole band loop completes exactly when the count lies in 0 .. 32767 (past that the `short` counter wraps and the loop throws) and every band below it resolves, each to its output level |
| Presets.FactoryLevels | src/com/android/musicfx/ControlPanelEffect.java:597-599 | a preset inside the factory table selects that table row for the bands it has |
| Presets.UserLevels | src/com/android/musicfx/ControlPanelEffect.java:600-605 | for a count in 0 .. 32767, the "User" preset (index at or past the preset count) completes and selects each band's stored user level, defaulting to 0 |
| Presets.ResolvedValues | src/com/android/musicfx/ControlPanelEffect.java:287-299 | a completed loop yields one level per band: the factory row when the preset is a factory one, the user levels otherwise |
| Presets.ResolveFailure | src/com/android/musicfx/ControlPanelEffect.java:587-607 | the loop throws exactly for a negative count, for a factory preset outside the table or with fewer bands than the count, or for a User count of 32768 or more, where the short counter wraps |
| Presets.WrappedCounter | src/com/android/musicfx/ControlPanelEffect.java:595-607 | at a stored count of exactly 32768 the "User" preset sets all 32768 bands and the loop still throws, on the wrapped counter |
| Presets.UserDefaultCopy | src/com/android/musicfx/ControlPanelEffect.java:592-593 | `Arrays.copyOf(EQUALIZER_PRESET_USER_BAND_LEVEL_DEFAULT, numBands)` holds 0 in every band, the default of each user level |
| Presets.ResolvedFromFrame | src/com/android/musicfx/ControlPanelEffect.java:602-604 | resolution reads the file only through the user levels of the bands it visits |
| Effects.AppliedEnabled | src/com/android/musicfx/ControlPanelEffect.java:565-610 | each effect is switched on exactly when the global flag and its own flag are both set, and a throwing equalizer loop leaves the equalizer's flag alone |
| Effects.AppliedToEmptyFile | src/com/android/musicfx/ControlPanelEffect.java:107-123 | with every preference file empty, each scope gives strengths 1000 and 667, reverb preset 0, all effects off, and the User preset with the five default user levels (all 0) |
| Effects.SetBandLevels | src/com/android/musicfx/ControlPanelEffect.java:595-607 | the band loop sets exactly the resolved prefix of levels, and fails exactly when resolution does, including after all bands when the `short` counter wraps at a count of 32768 |
| Effects.UpdateEffectSet | src/com/android/musicfx/ControlPanelEffect.java:565-610 | the set afterwards is the file pushed into it (Applied), and the push completes exactly when the band loop does |
| Editor.CommitRead | src/com/android/musicfx/ControlPanelEffect.java:157-189 | after a batch is committed, a key reads as its last put in the batch, or as before when the batch does not put it |
| Editor.LookupAppend | src/com/android/musicfx/ControlPanelEffect.java:298-314 | in a batch made of two parts, the later part's put of a key wins |
| Editor.LookupIndexed | src/com/android/musicfx/ControlPanelEffect.java:298 | a per-band batch puts `name + i` with element i and puts no other key |
| Editor.CommitTwice | src/com/android/musicfx/ControlPanelEffect.java:189 | committing the same batch twice leaves the file as committing it once |
| Initialization.InitStoreUnfold | src/com/android/musicfx/ControlPanelEffect.java:152-154 | initialisation rewrites the speaker, headset and Bluetooth files in that order, each from the store left by the previous one |
| Initialization.InitStoreScopes | src/com/android/musicfx/ControlPanelEffect.java:152-193 | initialisation rewrites each of the three scope files from its own contents and leaves the global file untouched |
| Initialization.InitDefaults | src/com/android/musicfx/ControlPanelEffect.java:118-128 | with the hard-coded capabilities, an empty file initialises to five bands at level 0 under the User preset, no factory presets, the default level range and the default centre frequencies |
| Initialization.InitOkIff | src/com/android/musicfx/ControlPanelEffect.java:165-185 | the band loop of initialisation completes exactly when there are no bands or the stored preset is non-negative |
| Initialization.InitLevelsValues | src/com/android/musicfx/ControlPanelEffect.java:171-180 | initialisation writes one level per discovered band: the factory row of a factory preset, or the stored user levels |
| Initialization.LookupBandPuts | src/com/android/musicfx/ControlPanelEffect.java:171-185 | the band loop puts, per band, its level, its centre frequency and its default user level 0, and nothing else |
| Initialization.InitEditsLookup | src/com/android/musicfx/ControlPanelEffect.java:157-188 | the last put of every key in a file's initialisation batch |
| Initialization.InitRead | src/com/android/musicfx/ControlPanelEffect.java:157-189 | after initialisation a file holds the discovered range, counts, centre frequencies, default user levels, preset names and resolved levels, and every other key as before |
| Initialization.InitKeepsInputs | src/com/android/musicfx/ControlPanelEffect.java:165-180 | initialisation changes neither the stored preset nor the user levels it reads, so it would write the same levels again |
| Initialization.InitIdempotent | src/com/android/musicfx/ControlPanelEffect.java:147-194 | initialising a file twice leaves it as initialising it once |
| Initialization.InitThenApplies | src/com/android/musicfx/ControlPanelEffect.java:587-607 | pushing a freshly initialised file completes and sets exactly the levels initialisation wrote |
| Gateway.ActiveScope | src/com/android/musicfx/ControlPanelEffect.java:493-505 | the active scope is Bluetooth when the global bluetooth flag is set, else headset when the headset flag is set, else speaker; never the global file |
| Gateway.ActiveScopeOfScopeWrite | src/com/android/musicfx/ControlPanelEffect.java:493-505 | writing a scope file never changes the active scope |
| Gateway.ActiveScopeAfterRouting | src/com/android/musicfx/ControlPanelEffect.java:213-218 | the active scope once a routing flag is written, by the same precedence over the new flag values |
| Gateway.ControlModeOf | src/com/android/musicfx/ControlPanelEffect.java:486-491 | the mode is CONTROL_EFFECTS exactly when some session is open |
| Gateway.BooleanPush | src/com/android/musicfx/ControlPanelEffect.java:212-220 | a boolean write pushes only with sessions open and when the key is a routing flag or the written scope is active, and it always pushes the now active scope |
| Gateway.WritePush | src/com/android/musicfx/ControlPanelEffect.java:317-319 | an int or enabled write pushes exactly when sessions are open and the written scope is the active one, and it pushes that scope |
| Gateway.IntWritesFail | src/com/android/musicfx/ControlPanelEffect.java:269-310 | setParameterInt writes nothing exactly when an indexed key gets the dummy index or the selected preset's band loop throws (a User count of 32768 or more included) |
| Gateway.BandLevelWrite | src/com/android/musicfx/ControlPanelEffect.java:269-276 | a band-level write stores the value as the band's level and as its user level, and changes no other key |
| Gateway.PresetWrite | src/com/android/musicfx/ControlPanelEffect.java:279-315 | selecting a preset stores the index and, for each stored band, its resolved level; every other key, user levels included, is unchanged |
| Gateway.PresetWriteKeeps | src/com/android/musicfx/ControlPanelEffect.java:279-315 | after selecting a preset the file names that preset and keeps its band and preset counts |
| Gateway.PresetWriteKeepsUser | src/com/android/musicfx/ControlPanelEffect.java:294-298 | selecting a preset never modifies a user band level |
| Gateway.PresetWriteThenApplies | src/com/android/musicfx/ControlPanelEffect.java:279-301 | pushing the file after a preset is selected completes and sets exactly the levels the selection stored |
| Gateway.PlainIntWrite | src/com/android/musicfx/ControlPanelEffect.java:313-314 | any other key stores the value under its plain name and nothing else |
| Gateway.GetParameterIntArray | src/com/android/musicfx/ControlPanelEffect.java:403-439 | two entries for the level range; one per stored band (0 when unset) for the four per-band keys, null when the count is mistyped or negative; null for other keys; each element the stored int, 0 when unset or after a mistyped one |
| ControlPanelEffect.PushAll | src/com/android/musicfx/ControlPanelEffect.java:621-624 | the registry after pushing a file into every session, in any order (Synced), with success exactly when the file applies or there is no session |
| ControlPanelEffect.InitBandEdits | src/com/android/musicfx/ControlPanelEffect.java:170-185 | the band loop's puts are the specified per-band batch, and it fails exactly when resolution does |
| ControlPanelEffect.InitScopeFile | src/com/android/musicfx/ControlPanelEffect.java:156-192 | one file after its initialisation block: the batch committed, or the file untouched when the block throws |
| ControlPanelEffect.CurrentPresetEdits | src/com/android/musicfx/ControlPanelEffect.java:287-299 | the preset loop's puts are one band-level put per stored band with the resolved level, and it fails exactly when resolution does, including at a count of 32768, where the `short` counter wraps after the last band |
| ControlPanelEffect.IntEdits | src/com/android/musicfx/ControlPanelEffect.java:267-314 | the batch built by setParameterInt's switch is the specified one for every key, or none when it throws |
| ControlPanelEffect.Register | src/com/android/musicfx/ControlPanelEffect.java:523-535 | a new id gets one fresh effect set with the file pushed into it, and no other entry changes |
| ControlPanelEffect.OpenOnInitialised | src/com/android/musicfx/ControlPanelEffect.java:520-535 | after initialisation the active scope is unchanged and pushing its file completes with exactly the levels initialisation wrote |
| ControlPanelEffect.ControlPanel.constructor | src/com/android/musicfx/ControlPanelEffect.java:104 | the panel starts with the given files and no open session |
| ControlPanelEffect.ControlPanel.GetControlMode | src/com/android/musicfx/ControlPanelEffect.java:486-491 | CONTROL_EFFECTS exactly when the registry is non-empty |
| ControlPanelEffect.ControlPanel.UpdateDsp | src/com/android/musicfx/ControlPanelEffect.java:612-625 | only the active scope is pushed, into every set; the files are unchanged; the push fails only when the file's band loop throws |
| ControlPanelEffect.ControlPanel.SetParameterBoolean | src/com/android/musicfx/ControlPanelEffect.java:203-224 | the flag is written to the scope's file, and the registry is pushed as BooleanPush says |
| ControlPanelEffect.ControlPanel.SetParameterInt | src/com/android/musicfx/ControlPanelEffect.java:256-324 | the key's batch is committed and the registry pushed as WritePush says, or nothing changes when the batch throws |
| ControlPanelEffect.ControlPanel.SetParameterIntArg | src/com/android/musicfx/ControlPanelEffect.java:333-335 | the one-argument overload is the two-argument one with the dummy index |
| ControlPanelEffect.ControlPanel.SetEnabled | src/com/android/musicfx/ControlPanelEffect.java:555-563 | global_enabled is written and the registry pushed as WritePush says, failing only when that push throws |
| ControlPanelEffect.ControlPanel.InitEffectsPreferences | src/com/android/musicfx/ControlPanelEffect.java:147-194 | the files become the initialised store and the registry is unchanged |
| ControlPanelEffect.ControlPanel.OpenSession | src/com/android/musicfx/ControlPanelEffect.java:516-536 | files initialised; a registered id changes nothing more; a new id gets exactly one set carrying the active scope's settings, with the initialised levels when initialisation completed |
| ControlPanelEffect.ControlPanel.CloseSession | src/com/android/musicfx/ControlPanelEffect.java:546-553 | the id's entry is removed and handed back for release; an absent id changes nothing |
| SystemService.IsValidSession | src/com/android/musicfx/SystemService.java:51-54 | a session id is accepted exactly when it is non-negative (ERROR_BAD_VALUE is negative) |
| SystemService.MissingSessionRefused | src/com/android/musicfx/SystemService.java:46-47 | an intent without a session id is refused |
| SystemService.HeadsetFlag | src/com/android/musicfx/SystemService.java:80 | the new headset flag is set exactly when the state extra is present and equals 1 |
| SystemService.NextBluetooth | src/com/android/musicfx/SystemService.java:96-113 | A2DP change: on exactly when it was off and the state is CONNECTED or missing; adapter change: off when the state is OFF, otherwise unchanged; other actions: unchanged |
| SystemService.AdapterNeverConnects | src/com/android/musicfx/SystemService.java:106-113 | an adapter state change never turns the Bluetooth flag on |
| SystemService.A2dpConnectedToggles | src/com/android/musicfx/SystemService.java:97-105 | each CONNECTED A2DP change flips the flag, so two restore it |
| SystemService.WithFlagReads | src/com/android/musicfx/SystemService.java:83 | a written routing flag reads back, and the other routing flag is unchanged |
| SystemService.Service.constructor | src/com/android/musicfx/SystemService.java:29-37 | the service drives the given panel and has sent no broadcast |
| SystemService.Service.OnAudioSessionIntent | src/com/android/musicfx/SystemService.java:39-71 | an invalid or missing id, or another action, changes nothing; a valid id is opened (as openSession) or closed (as closeSession); `ok` is false exactly when openSession's exception escapes the receiver, that is for a new id whose active scope's band loop throws (negative count, factory preset outside the table, or the wrapped `short` counter) |
| SystemService.Service.UpdateRoutingFlag | src/com/android/musicfx/SystemService.java:114-119 | the flag ends at the new value; it is written, pushed and broadcast once only when it differed; nothing else in the files changes |
| SystemService.Service.OnHeadsetPlug | src/com/android/musicfx/SystemService.java:73-87 | the headset flag follows the plug state, and is written and broadcast only on a change |
| SystemService.Service.OnBluetoothIntent | src/com/android/musicfx/SystemService.java:89-121 | the Bluetooth flag moves as NextBluetooth says, and is written and broadcast only on a change |
| SystemService.Service.OnCreate | src/com/android/musicfx/SystemService.java:141-162 | both stored flags end equal to the live routing, one broadcast per changed flag, the active scope follows the live routing; the file state is the Bluetooth step followed by the headset step, each comparing against the flag stored before either, and the registry is the Bluetooth step's push (none when unchanged) followed by the headset step's push |

## Left out

- Capability discovery (`init()`, the MediaPlayer/Equalizer/Virtualizer probe) is platform calls. Its result is the input record `caps`, fixed for the panel's lifetime. The retry that follows a failed probe, and the `virt_strength_supported` flag it writes, are not modelled.
- `isVirtualizerTransauralSupported` is a platform query and is not modelled.
- Effects.UpdateEffectSet: a value of the wrong type under a key it reads with `getInt` or `getBoolean` is read as the default. In the source, the platform store throws ClassCastException there.
- Gateway.IntWrites: the same holds for the count and level reads of the `eq_current_preset` case.
- Initialization.InitBucket: the same holds for the preset and level reads of initialisation.
- The platform effect units are records of the last values applied to them. Failures inside the platform (an effect being unsupported or already released) and the units' `release()` are not modelled. `CloseSession` hands the removed set back instead of releasing it.
- The `mEQInitLock` lock and all cross-thread behaviour. Calls are modelled as sequential.
- `commit()` versus `apply()`, and the `SharedPreferences` internals. Each editor batch is one atomic update of a file.
- Logging, the package name, contexts and intents. An intent is its action and extras. The `PREF_SCOPE_CHANGED` broadcast is a counter.
- Receiver registration in `onCreate`, `onDestroy`, `onBind` and `LocalBinder`.
- The `AudioManager` queries of `onCreate`: the live routing state is a parameter.
- Factory band levels and the level range are not constrained to the short range. The source's `short` arrays always hold shorts.
- `ActivityMusic` (the user interface) and `BootCompletedReceiver`.
