/**
 * The MusicFX system service: its three broadcast receivers and its start-up step.
 * Each receiver reads the intent's action and extras, decides, and drives the control
 * panel; the routing receivers keep the global `headset` and `bluetooth` flags in step
 * with the audio output and announce every change with a scope-changed broadcast.
 */
module SystemService {
  import opened Wrappers
  import opened Keys
  import opened Prefs
  import opened Effects
  import opened Initialization
  import opened Gateway
  import opened ControlPanelEffect

  /** AudioEffect.ERROR_BAD_VALUE: the default when the session extra is missing. */
  const ERROR_BAD_VALUE := -4
  /** BluetoothProfile.STATE_CONNECTED. */
  const STATE_CONNECTED := 2
  /** BluetoothAdapter.STATE_OFF. */
  const STATE_OFF := 10

  /** The actions the audio-session receiver tells apart. */
  datatype SessionAction = OpenControlSession | CloseControlSession | OtherSessionAction

  /** The actions the Bluetooth receiver tells apart. */
  datatype BluetoothAction = A2dpConnectionChanged | AdapterStateChanged | OtherBluetoothAction

  /** The session id read from the intent; a missing extra reads as ERROR_BAD_VALUE. */
  function SessionId(sessionExtra: Option<int>): int {
    sessionExtra.GetOr(ERROR_BAD_VALUE)
  }

  /**
   * The audio-session receiver's guard: ERROR_BAD_VALUE and negative ids are refused.
   * ERROR_BAD_VALUE is itself negative, so the guard is exactly non-negativity.
   */
  function IsValidSession(audioSession: int): (r: bool)
    ensures r <==> 0 <= audioSession
  {
    !(audioSession == ERROR_BAD_VALUE || audioSession < 0)
  }

  /** A session intent without its id extra is always refused. */
  lemma MissingSessionRefused()
    ensures !IsValidSession(SessionId(None))
  {
  }

  /** The headset receiver's new flag: the "state" extra is 1 (a missing extra reads as 0). */
  function HeadsetFlag(stateExtra: Option<int>): (r: bool)
    ensures r <==> stateExtra == Some(1)
  {
    stateExtra.GetOr(0) == 1
  }

  /**
   * The Bluetooth receiver's new flag from the stored one. An A2DP connection change
   * turns a clear flag on when the state is CONNECTED (a missing state reads as
   * CONNECTED) and turns a set flag off whatever the state; an adapter change turns
   * the flag off only when the adapter is OFF (a missing state reads as -1).
   */
  function NextBluetooth(prev: bool, action: BluetoothAction, stateExtra: Option<int>): (r: bool)
    ensures action == A2dpConnectionChanged ==>
      (r <==> !prev && (stateExtra.None? || stateExtra == Some(STATE_CONNECTED)))
    ensures action == AdapterStateChanged ==> (r <==> prev && stateExtra != Some(STATE_OFF))
    ensures action == OtherBluetoothAction ==> r == prev
  {
    match action
    case A2dpConnectionChanged =>
      var state := stateExtra.GetOr(STATE_CONNECTED);
      if state == STATE_CONNECTED && !prev then true
      else if prev then false
      else prev
    case AdapterStateChanged =>
      var state := stateExtra.GetOr(-1);
      if state == STATE_OFF && prev then false
      else prev
    case OtherBluetoothAction => prev
  }

  /** An adapter change never turns the Bluetooth flag on. */
  lemma AdapterNeverConnects(prev: bool, stateExtra: Option<int>)
    ensures NextBluetooth(prev, AdapterStateChanged, stateExtra) ==> prev
  {
  }

  /** Two A2DP changes that both report CONNECTED bring the flag back where it was. */
  lemma A2dpConnectedToggles(prev: bool)
    ensures var once := NextBluetooth(prev, A2dpConnectionChanged, Some(STATE_CONNECTED));
      once == !prev && NextBluetooth(once, A2dpConnectionChanged, Some(STATE_CONNECTED)) == prev
  {
  }

  /** The file state after the routing flag `name` of the global file is set to `value`. */
  function WithFlag(st: Store, name: Name, value: bool): Store {
    st.Put(GlobalScope, st.Get(GlobalScope)[Key(name, Plain) := BoolV(value)])
  }

  /** Writing a flag is read back, and leaves the other routing flag as it was. */
  lemma WithFlagReads(st: Store, name: Name, value: bool)
    requires name == Bluetooth || name == Headset
    ensures GetParameterBoolean(WithFlag(st, name, value), GlobalScope, name) == value
    ensures forall other :: other != name ==>
      GetParameterBoolean(WithFlag(st, name, value), GlobalScope, other) == GetParameterBoolean(st, GlobalScope, other)
  {
    forall other | other != name
      ensures GetParameterBoolean(WithFlag(st, name, value), GlobalScope, other) == GetParameterBoolean(st, GlobalScope, other)
    {
      assert Key(other, Plain) != Key(name, Plain);
    }
  }

  /**
   * onCreate's step for the routing flag `name`, stored as `prev`: the file state once
   * the flag is reconciled with the live state `live`, written only when the two differ.
   */
  function Reconciled(st: Store, name: Name, prev: bool, live: bool): Store {
    if live != prev then WithFlag(st, name, live) else st
  }

  /** The scope that step pushes into the open sessions in control mode `mode`; none when nothing is written. */
  function ReconcilePush(mode: ControlMode, st: Store, name: Name, prev: bool, live: bool): Option<Scope> {
    if live != prev then BooleanPush(mode, GlobalScope, name, Reconciled(st, name, prev, live)) else None
  }

  class Service {
    /** The control panel the receivers drive. */
    const panel: ControlPanel
    /** The PREF_SCOPE_CHANGED broadcasts sent so far. */
    var scopeChangedBroadcasts: nat

    constructor(panel: ControlPanel)
      ensures this.panel == panel && scopeChangedBroadcasts == 0
    {
      this.panel := panel;
      scopeChangedBroadcasts := 0;
    }

    /** The stored global `headset` flag. */
    function StoredHeadset(): bool
      reads panel
    {
      GetParameterBoolean(panel.store, GlobalScope, Headset)
    }

    /** The stored global `bluetooth` flag. */
    function StoredBluetooth(): bool
      reads panel
    {
      GetParameterBoolean(panel.store, GlobalScope, Bluetooth)
    }

    /**
     * mAudioSessionReceiver: a valid id is opened or closed, an invalid or missing
     * one, and any other action, leave everything alone. `ok` is false exactly when
     * openSession's exception escapes the receiver: a new session whose active scope's
     * band loop throws (a negative band count, a factory preset outside the table, or
     * the wrapped `short` counter).
     */
    method OnAudioSessionIntent(action: SessionAction, sessionExtra: Option<int>) returns (ok: bool)
      modifies panel
      ensures var id := SessionId(sessionExtra);
        ok <==> !(IsValidSession(id) && action == OpenControlSession && id !in old(panel.sessions))
                || EqApplies(panel.store.Get(ActiveScope(panel.store)), panel.caps)
      ensures var id := SessionId(sessionExtra);
        !IsValidSession(id) || action == OtherSessionAction ==>
          panel.store == old(panel.store) && panel.sessions == old(panel.sessions)
      ensures var id := SessionId(sessionExtra);
        IsValidSession(id) && action == OpenControlSession ==>
          && panel.store == InitStore(old(panel.store), panel.caps)
          && (id in old(panel.sessions) ==> panel.sessions == old(panel.sessions))
          && (id !in old(panel.sessions) ==>
                panel.sessions == old(panel.sessions)[id := Applied(NewEffectSet(id), panel.store.Get(ActiveScope(panel.store)), panel.caps)])
      ensures var id := SessionId(sessionExtra);
        IsValidSession(id) && action == CloseControlSession ==>
          panel.store == old(panel.store) && panel.sessions == old(panel.sessions) - {id}
    {
      ok := true;
      var audioSession := SessionId(sessionExtra);
      if action == OpenControlSession {
        if !IsValidSession(audioSession) {
          return;
        }
        ok := panel.OpenSession(audioSession);
        if !ok {
          return;
        }
      }
      if action == CloseControlSession {
        if !IsValidSession(audioSession) {
          return;
        }
        var _ := panel.CloseSession(audioSession);
      }
    }

    /**
     * The receivers' common tail: the routing flag `name` is written, and a
     * scope-changed broadcast sent, only when `value` differs from the stored flag.
     */
    method UpdateRoutingFlag(name: Name, value: bool)
      requires name == Bluetooth || name == Headset
      modifies this, panel
      ensures GetParameterBoolean(panel.store, GlobalScope, name) == value
      ensures forall other :: other != name ==>
        GetParameterBoolean(panel.store, GlobalScope, other) == old(GetParameterBoolean(panel.store, GlobalScope, other))
      ensures forall s :: s != GlobalScope ==> panel.store.Get(s) == old(panel.store).Get(s)
      ensures forall k :: k != Key(name, Plain) ==>
        Read(panel.store.Get(GlobalScope), k) == Read(old(panel.store).Get(GlobalScope), k)
      ensures panel.sessions.Keys == old(panel.sessions).Keys
      ensures value == old(GetParameterBoolean(panel.store, GlobalScope, name)) ==>
        && panel.store == old(panel.store) && panel.sessions == old(panel.sessions)
        && scopeChangedBroadcasts == old(scopeChangedBroadcasts)
      ensures value != old(GetParameterBoolean(panel.store, GlobalScope, name)) ==>
        && panel.store == WithFlag(old(panel.store), name, value)
        && Pushed(old(panel.sessions), panel.sessions,
             BooleanPush(ControlModeOf(|old(panel.sessions)|), GlobalScope, name, panel.store), panel.store, panel.caps)
        && scopeChangedBroadcasts == old(scopeChangedBroadcasts) + 1
    {
      var prev := GetParameterBoolean(panel.store, GlobalScope, name);
      if value != prev {
        WithFlagReads(panel.store, name, value);
        panel.SetParameterBoolean(GlobalScope, name, value);
        scopeChangedBroadcasts := scopeChangedBroadcasts + 1;
      }
    }

    /** mRoutingReceiver: the headset flag follows the plug state, written only on a change. */
    method OnHeadsetPlug(stateExtra: Option<int>)
      modifies this, panel
      ensures StoredHeadset() == HeadsetFlag(stateExtra)
      ensures StoredBluetooth() == old(StoredBluetooth())
      ensures HeadsetFlag(stateExtra) == old(StoredHeadset()) ==>
        && panel.store == old(panel.store) && panel.sessions == old(panel.sessions)
        && scopeChangedBroadcasts == old(scopeChangedBroadcasts)
      ensures HeadsetFlag(stateExtra) != old(StoredHeadset()) ==>
        && panel.store == WithFlag(old(panel.store), Headset, HeadsetFlag(stateExtra))
        && Pushed(old(panel.sessions), panel.sessions,
             BooleanPush(ControlModeOf(|old(panel.sessions)|), GlobalScope, Headset, panel.store), panel.store, panel.caps)
        && scopeChangedBroadcasts == old(scopeChangedBroadcasts) + 1
    {
      var useHeadset := HeadsetFlag(stateExtra);
      UpdateRoutingFlag(Headset, useHeadset);
    }

    /**
     * mBtReceiver: the Bluetooth flag moves as NextBluetooth says, and is written and
     * broadcast only when it changes.
     */
    method OnBluetoothIntent(action: BluetoothAction, stateExtra: Option<int>)
      modifies this, panel
      ensures StoredBluetooth() == NextBluetooth(old(StoredBluetooth()), action, stateExtra)
      ensures StoredHeadset() == old(StoredHeadset())
      ensures NextBluetooth(old(StoredBluetooth()), action, stateExtra) == old(StoredBluetooth()) ==>
        && panel.store == old(panel.store) && panel.sessions == old(panel.sessions)
        && scopeChangedBroadcasts == old(scopeChangedBroadcasts)
      ensures NextBluetooth(old(StoredBluetooth()), action, stateExtra) != old(StoredBluetooth()) ==>
        && panel.store == WithFlag(old(panel.store), Bluetooth, NextBluetooth(old(StoredBluetooth()), action, stateExtra))
        && Pushed(old(panel.sessions), panel.sessions,
             BooleanPush(ControlModeOf(|old(panel.sessions)|), GlobalScope, Bluetooth, panel.store), panel.store, panel.caps)
        && scopeChangedBroadcasts == old(scopeChangedBroadcasts) + 1
    {
      var prevUseBluetooth := GetParameterBoolean(panel.store, GlobalScope, Bluetooth);
      var useBluetooth := NextBluetooth(prevUseBluetooth, action, stateExtra);
      UpdateRoutingFlag(Bluetooth, useBluetooth);
    }

    /**
     * onCreate's reconciliation: each stored routing flag that differs from the live
     * routing state is overwritten with it, Bluetooth first, with one broadcast per
     * flag changed. The live state is passed in.
     */
    method OnCreate(liveBluetooth: bool, liveHeadset: bool)
      modifies this, panel
      ensures StoredBluetooth() == liveBluetooth && StoredHeadset() == liveHeadset
      ensures scopeChangedBroadcasts == old(scopeChangedBroadcasts)
        + (if liveBluetooth != old(StoredBluetooth()) then 1 else 0)
        + (if liveHeadset != old(StoredHeadset()) then 1 else 0)
      ensures forall s :: s != GlobalScope ==> panel.store.Get(s) == old(panel.store).Get(s)
      ensures forall k :: k != Key(Bluetooth, Plain) && k != Key(Headset, Plain) ==>
        Read(panel.store.Get(GlobalScope), k) == Read(old(panel.store).Get(GlobalScope), k)
      ensures ActiveScope(panel.store) ==
        if liveBluetooth then BluetoothScope else if liveHeadset then HeadsetScope else SpeakerScope
      ensures panel.sessions.Keys == old(panel.sessions).Keys
      ensures liveBluetooth == old(StoredBluetooth()) && liveHeadset == old(StoredHeadset()) ==>
        panel.store == old(panel.store) && panel.sessions == old(panel.sessions)
      ensures var s1 := Reconciled(old(panel.store), Bluetooth, old(StoredBluetooth()), liveBluetooth);
        panel.store == Reconciled(s1, Headset, old(StoredHeadset()), liveHeadset)
      ensures var s1 := Reconciled(old(panel.store), Bluetooth, old(StoredBluetooth()), liveBluetooth);
        exists mid ::
          && Pushed(old(panel.sessions), mid,
               ReconcilePush(ControlModeOf(|old(panel.sessions)|), old(panel.store), Bluetooth, old(StoredBluetooth()), liveBluetooth),
               s1, panel.caps)
          && Pushed(mid, panel.sessions,
               ReconcilePush(ControlModeOf(|mid|), s1, Headset, old(StoredHeadset()), liveHeadset),
               panel.store, panel.caps)
    {
      ghost var b0, h0 := StoredBluetooth(), StoredHeadset();
      UpdateRoutingFlag(Bluetooth, liveBluetooth);
      ghost var mid, s1 := panel.sessions, panel.store;
      assert s1 == Reconciled(old(panel.store), Bluetooth, b0, liveBluetooth);
      assert Pushed(old(panel.sessions), mid,
        ReconcilePush(ControlModeOf(|old(panel.sessions)|), old(panel.store), Bluetooth, b0, liveBluetooth), s1, panel.caps);
      assert StoredHeadset() == h0;
      UpdateRoutingFlag(Headset, liveHeadset);
      assert Pushed(mid, panel.sessions, ReconcilePush(ControlModeOf(|mid|), s1, Headset, h0, liveHeadset), panel.store, panel.caps);
    }
  }
}
